/**
 * The channel selector of the histogram's waveform display
 * (`_lib_histogram_draw_callback`, src/libs/histogram.c).
 *
 * The waveform is an image of `height` rows, each `stride` bytes long,
 * whose first `4*width` bytes are `width` pixels of four bytes in the order
 * blue, green, red, alpha.  Before the image is painted, every colour byte
 * of a channel whose toggle is off is set to zero, in place.
 */
module WaveformMask {
  import opened Arith

  type byte = bv8

  /** The first byte of row `y`, `y*stride`. */
  function RowBase(stride: nat, y: nat): nat {
    Times(stride, y)
  }

  /** The flat index `y*stride + c` of byte `c` of row `y` of a `height`-row image. */
  function Byte(stride: nat, height: nat, y: nat, c: nat): (j: nat)
    requires y < height && c < stride
    ensures j < Times(stride, height)
  {
    TimesGap(stride, y, height);
    RowBase(stride, y) + c
  }

  /**
   * Byte `c` of a row is cleared when it lies in the pixels (not in the
   * padding up to `stride`), is a colour byte (not alpha), and its channel
   * is switched off; `enabled` is `{blue, green, red}`, indexed as the bytes.
   */
  predicate Cleared(width: nat, enabled: seq<bool>, c: nat)
    requires |enabled| == 3
  {
    c < 4 * width && c % 4 < 3 && !enabled[c % 4]
  }

  /**
   * `after` is `before` with the channel mask applied: every cleared byte
   * of every row is zero, every other byte of every row keeps its value,
   * and so does everything after the last row.
   */
  ghost predicate MaskResult(before: seq<byte>, after: seq<byte>, width: nat, height: nat, stride: nat,
                             enabled: seq<bool>)
    requires |enabled| == 3
  {
    && |after| == |before|
    && Times(stride, height) <= |before|
    && (forall y, c {:trigger Byte(stride, height, y, c)} :: 0 <= y < height && 0 <= c < stride ==>
          after[Byte(stride, height, y, c)]
            == (if Cleared(width, enabled, c) then 0 else before[Byte(stride, height, y, c)]))
    && (forall i :: Times(stride, height) <= i < |before| ==> after[i] == before[i])
  }

  /** Two bytes of an image coincide only if they have the same row and column. */
  lemma ByteInjective(stride: nat, height: nat, y: nat, c: nat, y': nat, c': nat)
    requires y < height && c < stride && y' < height && c' < stride
    requires Byte(stride, height, y, c) == Byte(stride, height, y', c')
    ensures y == y' && c == c'
  {
    if y < y' {
      TimesGap(stride, y, y');
    } else if y' < y {
      TimesGap(stride, y', y);
    }
  }

  /** Every index of the image is some byte of some row. */
  lemma {:induction false} Decompose(stride: nat, height: nat, i: nat) returns (y: nat, c: nat)
    requires i < Times(stride, height)
    ensures y < height && c < stride && Byte(stride, height, y, c) == i
  {
    if i < stride {
      y, c := 0, i;
    } else {
      assert Times(stride, height) == Times(stride, height - 1) + stride;
      var y0, c0 := Decompose(stride, height - 1, i - stride);
      y, c := y0 + 1, c0;
      assert Times(stride, y) == Times(stride, y0) + stride;
    }
  }

  /** The mask determines the result completely. */
  lemma MaskDeterministic(before: seq<byte>, a1: seq<byte>, a2: seq<byte>, width: nat, height: nat, stride: nat,
                          enabled: seq<bool>)
    requires |enabled| == 3
    requires MaskResult(before, a1, width, height, stride, enabled)
    requires MaskResult(before, a2, width, height, stride, enabled)
    ensures a1 == a2
  {
    forall i | 0 <= i < |a1|
      ensures a1[i] == a2[i]
    {
      if i < Times(stride, height) {
        var y, c := Decompose(stride, height, i);
        assert a1[Byte(stride, height, y, c)] == a2[Byte(stride, height, y, c)];
      }
    }
  }

  /** Masking a masked image changes nothing: the operation is idempotent. */
  lemma MaskIdempotent(before: seq<byte>, after: seq<byte>, again: seq<byte>, width: nat, height: nat,
                       stride: nat, enabled: seq<bool>)
    requires |enabled| == 3
    requires MaskResult(before, after, width, height, stride, enabled)
    requires MaskResult(after, again, width, height, stride, enabled)
    ensures again == after
  {
    assert MaskResult(after, after, width, height, stride, enabled);
    MaskDeterministic(after, again, after, width, height, stride, enabled);
  }

  /** With every channel enabled the mask is the identity. */
  lemma AllEnabledIsIdentity(before: seq<byte>, after: seq<byte>, width: nat, height: nat, stride: nat)
    requires MaskResult(before, after, width, height, stride, [true, true, true])
    ensures after == before
  {
    assert MaskResult(before, before, width, height, stride, [true, true, true]);
    MaskDeterministic(before, after, before, width, height, stride, [true, true, true]);
  }

  /**
   * In the loop's own coordinates: byte `k` of pixel `x` of row `y` is zero
   * when `k` is a colour channel whose toggle is off, and keeps its value
   * otherwise (alpha, `k == 3`, and enabled channels); the padding bytes
   * after the `width` pixels keep theirs.
   */
  lemma MaskPixelBytes(before: seq<byte>, after: seq<byte>, width: nat, height: nat, stride: nat,
                       enabled: seq<bool>, y: nat, x: nat, k: nat)
    requires |enabled| == 3
    requires 4 * width <= stride
    requires MaskResult(before, after, width, height, stride, enabled)
    requires y < height && x < width && k < 4
    ensures after[Byte(stride, height, y, 4 * x + k)]
              == (if k < 3 && !enabled[k] then 0 else before[Byte(stride, height, y, 4 * x + k)])
  {
    assert (4 * x + k) % 4 == k;
  }

  lemma MaskKeepsPadding(before: seq<byte>, after: seq<byte>, width: nat, height: nat, stride: nat,
                         enabled: seq<bool>, y: nat, c: nat)
    requires |enabled| == 3
    requires MaskResult(before, after, width, height, stride, enabled)
    requires y < height && 4 * width <= c < stride
    ensures after[Byte(stride, height, y, c)] == before[Byte(stride, height, y, c)]
  {
  }

  /**
   * Byte `c` of a row has been visited once the loops over channels, rows
   * and pixels have passed channel `k`, row `y`, pixel `x`.
   */
  predicate Visited(width: nat, enabled: seq<bool>, k: nat, y: nat, x: nat, y': nat, c: nat)
    requires |enabled| == 3
  {
    && Cleared(width, enabled, c)
    && (c % 4 < k || (c % 4 == k && (y' < y || (y' == y && c / 4 < x))))
  }

  /** The buffer while the loops are at channel `k`, row `y`, pixel `x`. */
  ghost predicate Progress(before: seq<byte>, now: seq<byte>, width: nat, height: nat, stride: nat,
                           enabled: seq<bool>, k: nat, y: nat, x: nat)
    requires |enabled| == 3
  {
    && |now| == |before|
    && Times(stride, height) <= |before|
    && (forall y', c {:trigger Byte(stride, height, y', c)} :: 0 <= y' < height && 0 <= c < stride ==>
          now[Byte(stride, height, y', c)]
            == (if Visited(width, enabled, k, y, x, y', c) then 0 else before[Byte(stride, height, y', c)]))
    && (forall i :: Times(stride, height) <= i < |before| ==> now[i] == before[i])
  }

  /**
   * The masking loop: for each channel `k < 3` (blue, green, red) whose toggle
   * is off, zero byte `y*stride + x*4 + k` of every pixel `x` of every row `y`.
   */
  method ApplyChannelMask(buf: array<byte>, width: nat, height: nat, stride: nat, blue: bool, green: bool,
                          red: bool)
    requires 4 * width <= stride
    requires height * stride <= buf.Length
    modifies buf
    ensures MaskResult(old(buf[..]), buf[..], width, height, stride, [blue, green, red])
  {
    TimesIsProduct(stride, height);
    var mask := [blue, green, red];
    ghost var before := buf[..];
    for k := 0 to 3
      invariant Progress(before, buf[..], width, height, stride, mask, k, 0, 0)
    {
      if !mask[k] {
        for y := 0 to height
          invariant Progress(before, buf[..], width, height, stride, mask, k, y, 0)
        {
          ClearRow(buf, width, height, stride, mask, k, y, before);
        }
      }
    }
  }

  /** The innermost loop: channel `k` of every pixel of row `y`. */
  method ClearRow(buf: array<byte>, width: nat, height: nat, stride: nat, mask: seq<bool>, k: nat, y: nat,
                  ghost before: seq<byte>)
    requires |mask| == 3 && k < 3 && !mask[k] && y < height && 4 * width <= stride
    requires Progress(before, buf[..], width, height, stride, mask, k, y, 0)
    modifies buf
    ensures Progress(before, buf[..], width, height, stride, mask, k, y + 1, 0)
  {
    TimesIsProduct(stride, y);
    for x := 0 to width
      invariant Progress(before, buf[..], width, height, stride, mask, k, y, x)
    {
      ghost var j := Byte(stride, height, y, x * 4 + k);
      assert j == y * stride + x * 4 + k;
      buf[y * stride + x * 4 + k] := 0;
      forall y', c | 0 <= y' < height && 0 <= c < stride
        ensures buf[Byte(stride, height, y', c)]
                  == (if Visited(width, mask, k, y, x + 1, y', c) then 0
                      else before[Byte(stride, height, y', c)])
      {
        if (y', c) != (y, x * 4 + k) && Byte(stride, height, y', c) == j {
          ByteInjective(stride, height, y', c, y, x * 4 + k);
        }
      }
    }
  }
}
