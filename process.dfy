/**
 * The pixel loops of the output colour module (`process` in
 * src/iop/colorout.c).
 *
 * Buffers hold `ch` floats per pixel, row after row; the first three
 * channels of a pixel are Lab on input and RGB on output, and the others
 * (alpha) are never written.  The Lab-to-XYZ conversion and the
 * colour-management transform are oracles.  Pixel values are finite
 * reals here; NaN and the infinities are treated in `Lut`.
 */
module ColorOutProcess {
  import opened Wrappers
  import opened Lut
  import opened ColorMatrix
  import opened ColorOut
  import opened Arith

  /** The flat index `ch*p + c` of channel `c` of pixel `p`, in a buffer of `n` pixels. */
  function At(ch: nat, n: nat, p: nat, c: nat): (j: nat)
    requires p < n && c < ch
    ensures j < Times(ch, n)
  {
    TimesGap(ch, p, n);
    Times(ch, p) + c
  }

  /** The index `3*l + c` of channel `c` of column `l` in a packed three-channel row. */
  function Lane(l: nat, c: nat): nat {
    3 * l + c
  }

  /** The flat index `m + ch*l + c` of channel `c` of column `l` of the row starting at `m`. */
  function RowCell(m: nat, ch: nat, width: nat, l: nat, c: nat): (j: nat)
    requires l < width && c < ch
    ensures j < m + Times(ch, width)
  {
    TimesGap(ch, l, width);
    m + Times(ch, l) + c
  }

  /** The first flat index `k*(width*ch)` of row `k`; past the last row, the end of the image. */
  function RowStart(ch: nat, width: nat, k: nat): nat {
    Times(ch, Times(width, k))
  }

  /** The source's row offset `m = k*(width*ch)` is the start of row `k`. */
  lemma {:induction false} RowStartIsProduct(ch: nat, width: nat, k: nat)
    ensures RowStart(ch, width, k) == k * (width * ch)
  {
    TimesIsProduct(width, k);
    TimesIsProduct(ch, width * k);
    assert ch * (width * k) == k * (width * ch);
  }

  /** Each row is `ch*width` floats long, and the rows of the image follow each other. */
  lemma {:induction false} RowNext(ch: nat, width: nat, k: nat)
    ensures RowStart(ch, width, k + 1) == RowStart(ch, width, k) + Times(ch, width)
  {
    assert Times(width, k + 1) == Times(width, k) + width;
    TimesAdd(ch, Times(width, k), width);
  }

  lemma {:induction false} RowsFit(ch: nat, width: nat, height: nat, k: nat, k': nat)
    requires k < k' <= height
    ensures RowStart(ch, width, k) + Times(ch, width) <= RowStart(ch, width, k')
    ensures RowStart(ch, width, k') <= Times(ch, Times(width, height))
  {
    RowNext(ch, width, k);
    TimesMono(width, k + 1, k');
    TimesMono(ch, Times(width, k + 1), Times(width, k'));
    TimesMono(width, k', height);
    TimesMono(ch, Times(width, k'), Times(width, height));
  }

  /** The Lab triple of pixel `k`: its first three channels. */
  function Pixel(s: seq<real>, ch: nat, n: nat, k: nat): Vec3
    requires ch >= 3 && k < n && Times(ch, n) <= |s|
  {
    TimesGap(ch, k, n);
    [s[At(ch, n, k, 0)], s[At(ch, n, k, 1)], s[At(ch, n, k, 2)]]
  }

  /** The fast path for one pixel: Lab to XYZ, the matrix, then one tone curve per channel. */
  function FastPixel(m: Mat3, lut: Curves, labToXyz: Vec3 -> Vec3, lab: Vec3): (r: Vec3)
    ensures forall c {:trigger LerpLut(lut[c], Num(MatVec(m, labToXyz(lab))[c]))} :: 0 <= c < 3 ==>
              Num(r[c]) == LerpLut(lut[c], Num(MatVec(m, labToXyz(lab))[c]))
  {
    var rgb := MatVec(m, labToXyz(lab));
    var r: Vec3 := [LerpLutFinite(lut[0], rgb[0]), LerpLutFinite(lut[1], rgb[1]), LerpLutFinite(lut[2], rgb[2])];
    assert forall c :: 0 <= c < 3 ==> r[c] == LerpLutFinite(lut[c], rgb[c]);
    assert forall c {:trigger LerpLut(lut[c], Num(rgb[c]))} :: 0 <= c < 3 ==> Num(r[c]) == LerpLut(lut[c], Num(rgb[c])) by {
      forall c | 0 <= c < 3 ensures Num(r[c]) == LerpLut(lut[c], Num(rgb[c])) {
        LerpLutFiniteAgrees(lut[c], rgb[c]);
      }
    }
    r
  }

  /**
   * A channel value whose scaled argument lies inside the table is the
   * blend of the two curve samples around it, and so lies between them.
   */
  lemma FastPixelBetweenSamples(m: Mat3, lut: Curves, labToXyz: Vec3 -> Vec3, lab: Vec3, c: nat)
    requires c < 3
    requires 0.0 < MatVec(m, labToXyz(lab))[c] * LutSamples as real < (LutSamples - 2) as real
    ensures var t := (MatVec(m, labToXyz(lab))[c] * LutSamples as real).Floor;
            && 0 <= t && t + 1 < LutSamples
            && Min(lut[c][t], lut[c][t + 1]) <= FastPixel(m, lut, labToXyz, lab)[c] <= Max(lut[c][t], lut[c][t + 1])
  {
    var v := MatVec(m, labToXyz(lab))[c];
    assert FastPixel(m, lut, labToXyz, lab)[c] == LerpLutFinite(lut[c], v);
    LerpLutFiniteBetween(lut[c], v);
  }

  /**
   * The fast path after its first `k` pixels: channels 0 to 2 of each of
   * them are the fast-path colour of that pixel's own input, their other
   * channels are as they were, and so is everything from pixel `k` on.
   */
  ghost predicate MatrixPrefix(before: seq<real>, now: seq<real>, inp: seq<real>, ch: nat, n: nat, k: nat,
                               m: Mat3, lut: Curves, labToXyz: Vec3 -> Vec3)
  {
    && ch >= 3 && k <= n && |before| == |now| && Times(ch, n) <= |inp| && Times(ch, n) <= |now|
    && (forall k', c :: 0 <= k' < k && 0 <= c < 3 ==>
          now[At(ch, n, k', c)] == FastPixel(m, lut, labToXyz, Pixel(inp, ch, n, k'))[c])
    && (forall k', c :: 0 <= k' < k && 3 <= c < ch ==> now[At(ch, n, k', c)] == before[At(ch, n, k', c)])
    && (forall j :: Times(ch, k) <= j < |now| ==> now[j] == before[j])
  }

  /**
   * What the fast path leaves in `after`: every pixel converted, every
   * other entry as it was.
   */
  ghost predicate MatrixResult(before: seq<real>, after: seq<real>, inp: seq<real>, ch: nat, n: nat,
                               m: Mat3, lut: Curves, labToXyz: Vec3 -> Vec3)
  {
    MatrixPrefix(before, after, inp, ch, n, n, m, lut, labToXyz)
  }

  /** Converting pixel `k`, and touching nothing else, extends the prefix by one pixel. */
  lemma MatrixStep(before: seq<real>, mid: seq<real>, after: seq<real>, inp: seq<real>, ch: nat, n: nat, k: nat,
                   m: Mat3, lut: Curves, labToXyz: Vec3 -> Vec3)
    requires MatrixPrefix(before, mid, inp, ch, n, k, m, lut, labToXyz)
    requires k < n && |after| == |mid|
    requires forall c :: 0 <= c < 3 ==> after[At(ch, n, k, c)] == FastPixel(m, lut, labToXyz, Pixel(inp, ch, n, k))[c]
    requires forall j :: 0 <= j < |after| && !(At(ch, n, k, 0) <= j < At(ch, n, k, 0) + 3) ==> after[j] == mid[j]
    ensures MatrixPrefix(before, after, inp, ch, n, k + 1, m, lut, labToXyz)
  {
    assert Times(ch, k + 1) == Times(ch, k) + ch;
    forall k', c | 0 <= k' < k + 1 && 0 <= c < 3
      ensures after[At(ch, n, k', c)] == FastPixel(m, lut, labToXyz, Pixel(inp, ch, n, k'))[c]
    {
      if k' < k {
        TimesGap(ch, k', k);
      }
    }
    forall k', c | 0 <= k' < k + 1 && 3 <= c < ch
      ensures after[At(ch, n, k', c)] == before[At(ch, n, k', c)]
    {
      if k' < k {
        TimesGap(ch, k', k);
      }
    }
  }

  /** One pixel of the fast path: `out[ch*k+i] = lerp_lut(lut[i], rgb[i])` for `i < 3`. */
  method ConvertPixel(inp: array<real>, out: array<real>, ch: nat, n: nat, k: nat,
                      m: Mat3, lut: Curves, labToXyz: Vec3 -> Vec3)
    requires inp != out && ch >= 3 && k < n
    requires Times(ch, n) <= inp.Length && Times(ch, n) <= out.Length
    modifies out
    ensures forall c :: 0 <= c < 3 ==> out[At(ch, n, k, c)] == FastPixel(m, lut, labToXyz, Pixel(inp[..], ch, n, k))[c]
    ensures forall j :: 0 <= j < out.Length && !(At(ch, n, k, 0) <= j < At(ch, n, k, 0) + 3) ==> out[j] == old(out[j])
  {
    TimesGap(ch, k, n);
    var base := ch * k;
    TimesIsProduct(ch, k);
    var lab: Vec3 := [inp[base], inp[base + 1], inp[base + 2]];
    assert lab == Pixel(inp[..], ch, n, k);
    var xyz := labToXyz(lab);
    var rgb := MultiplyMatrix(m, xyz);
    ghost var target := FastPixel(m, lut, labToXyz, lab);
    for i := 0 to 3
      invariant forall c :: 0 <= c < i ==> out[base + c] == target[c]
      invariant forall j :: 0 <= j < out.Length && !(base <= j < base + i) ==> out[j] == old(out[j])
    {
      out[base + i] := LerpLutFinite(lut[i], rgb[i]);
    }
  }

  /** The fast path: every pixel independently, `out[ch*k+c]` for `c < 3`. */
  method ProcessMatrix(inp: array<real>, out: array<real>, ch: nat, width: nat, height: nat,
                       m: Mat3, lut: Curves, labToXyz: Vec3 -> Vec3)
    requires inp != out && ch >= 3
    requires Times(ch, Times(width, height)) <= inp.Length && Times(ch, Times(width, height)) <= out.Length
    modifies out
    ensures MatrixResult(old(out[..]), out[..], inp[..], ch, Times(width, height), m, lut, labToXyz)
  {
    var n := width * height;
    TimesIsProduct(width, height);
    TimesOrdered(ch);
    for k := 0 to n
      invariant MatrixPrefix(old(out[..]), out[..], inp[..], ch, n, k, m, lut, labToXyz)
    {
      ghost var mid := out[..];
      ConvertPixel(inp, out, ch, n, k, m, lut, labToXyz);
      MatrixStep(old(out[..]), mid, out[..], inp[..], ch, n, k, m, lut, labToXyz);
    }
  }

  lemma {:induction false} RowsFitAll(ch: nat, width: nat, height: nat)
    ensures forall k :: 0 <= k < height ==> RowStart(ch, width, k) + Times(ch, width) <= Times(ch, Times(width, height))
  {
    forall k | 0 <= k < height
      ensures RowStart(ch, width, k) + Times(ch, width) <= Times(ch, Times(width, height))
    {
      RowsFit(ch, width, height, k, k + 1);
    }
  }

  /**
   * The packed Lab row of the row starting at `m`: `Lab[3l+c] = in[m + ch*l + c]`,
   * the first three channels of each pixel of the row, without the others.
   */
  /** The local `Lab` row: `3*width` floats, channel `c` of column `l` at `3*l + c`. */
  function PackRow(s: seq<real>, ch: nat, width: nat, m: nat): (r: seq<real>)
    requires ch >= 3 && m + Times(ch, width) <= |s|
    ensures |r| == 3 * width
    ensures forall l, c {:trigger r[Lane(l, c)]} :: 0 <= l < width && 0 <= c < 3 ==>
              r[Lane(l, c)] == s[RowCell(m, ch, width, l, c)]
  {
    var r := seq(3 * width, i requires 0 <= i < 3 * width => s[RowCell(m, ch, width, i / 3, i % 3)]);
    assert forall l, c :: 0 <= l < width && 0 <= c < 3 ==> r[Lane(l, c)] == s[RowCell(m, ch, width, l, c)] by {
      forall l, c | 0 <= l < width && 0 <= c < 3
        ensures r[Lane(l, c)] == s[RowCell(m, ch, width, l, c)]
      {
        assert Lane(l, c) / 3 == l && Lane(l, c) % 3 == c;
      }
    }
    r
  }

  /**
   * The fallback after its first `k` rows: channels 0 to 2 of column `l`
   * of each of them are `rgb[3l+c]` of that row's transform, their other
   * channels are as they were, and so is everything from row `k` on.
   */
  ghost predicate FallbackPrefix(before: seq<real>, now: seq<real>, inp: seq<real>, ch: nat, width: nat, height: nat,
                                 k: nat, doTransform: (Handle, seq<real>) -> seq<real>, h: Handle)
  {
    RowsFitAll(ch, width, height);
    && ch >= 3 && k <= height && |before| == |now|
    && Times(ch, Times(width, height)) <= |inp| && Times(ch, Times(width, height)) <= |now|
    && (forall row :: |doTransform(h, row)| == |row|)
    && (forall k', l, c :: 0 <= k' < k && 0 <= l < width && 0 <= c < 3 ==>
          now[RowCell(RowStart(ch, width, k'), ch, width, l, c)]
          == doTransform(h, PackRow(inp, ch, width, RowStart(ch, width, k')))[Lane(l, c)])
    && (forall k', l, c :: 0 <= k' < k && 0 <= l < width && 3 <= c < ch ==>
          now[RowCell(RowStart(ch, width, k'), ch, width, l, c)] == before[RowCell(RowStart(ch, width, k'), ch, width, l, c)])
    && (forall j :: RowStart(ch, width, k) <= j < |now| ==> now[j] == before[j])
  }

  /** What the fallback leaves in `after`: every row transformed, every other entry as it was. */
  ghost predicate FallbackResult(before: seq<real>, after: seq<real>, inp: seq<real>, ch: nat, width: nat, height: nat,
                                 doTransform: (Handle, seq<real>) -> seq<real>, h: Handle)
  {
    FallbackPrefix(before, after, inp, ch, width, height, height, doTransform, h)
  }

  /**
   * One row unpacked up to column `l`: channels 0 to 2 of each column
   * before `l` of the row at `m` hold `rgb[3l'+c]`, their other channels
   * are as they were, and so is everything outside the columns written.
   */
  ghost predicate UnpackPrefix(before: seq<real>, now: seq<real>, rgb: seq<real>, ch: nat, width: nat, m: nat, l: nat)
  {
    && ch >= 3 && l <= width && |now| == |before| && m + Times(ch, width) <= |now| && |rgb| == 3 * width
    && (forall l', c :: 0 <= l' < l && 0 <= c < 3 ==> now[RowCell(m, ch, width, l', c)] == rgb[Lane(l', c)])
    && (forall l', c :: 0 <= l' < l && 3 <= c < ch ==> now[RowCell(m, ch, width, l', c)] == before[RowCell(m, ch, width, l', c)])
    && (forall j :: 0 <= j < |now| && !(m <= j < m + Times(ch, l)) ==> now[j] == before[j])
  }

  /** Writing the three channels of column `l`, and nothing else, extends the unpacked part by one column. */
  lemma UnpackStep(before: seq<real>, mid: seq<real>, after: seq<real>, rgb: seq<real>, ch: nat, width: nat, m: nat, l: nat)
    requires UnpackPrefix(before, mid, rgb, ch, width, m, l)
    requires l < width && |after| == |mid|
    requires forall c :: 0 <= c < 3 ==> after[RowCell(m, ch, width, l, c)] == rgb[Lane(l, c)]
    requires forall j :: 0 <= j < |after| && !(RowCell(m, ch, width, l, 0) <= j < RowCell(m, ch, width, l, 0) + 3) ==>
               after[j] == mid[j]
    ensures UnpackPrefix(before, after, rgb, ch, width, m, l + 1)
  {
    assert Times(ch, l + 1) == Times(ch, l) + ch;
    forall l', c | 0 <= l' < l + 1 && 0 <= c < 3
      ensures after[RowCell(m, ch, width, l', c)] == rgb[Lane(l', c)]
    {
      if l' < l {
        TimesGap(ch, l', l);
      }
    }
    forall l', c | 0 <= l' < l + 1 && 3 <= c < ch
      ensures after[RowCell(m, ch, width, l', c)] == before[RowCell(m, ch, width, l', c)]
    {
      if l' < l {
        TimesGap(ch, l', l);
      }
    }
  }

  /** Transforming row `k`, and touching no other row, extends the prefix by one row. */
  lemma FallbackStep(before: seq<real>, mid: seq<real>, after: seq<real>, inp: seq<real>, ch: nat, width: nat,
                     height: nat, k: nat, doTransform: (Handle, seq<real>) -> seq<real>, h: Handle)
    requires FallbackPrefix(before, mid, inp, ch, width, height, k, doTransform, h)
    requires k < height && RowStart(ch, width, k) + Times(ch, width) <= Times(ch, Times(width, height))
    requires UnpackPrefix(mid, after, doTransform(h, PackRow(inp, ch, width, RowStart(ch, width, k))), ch, width,
                          RowStart(ch, width, k), width)
    ensures FallbackPrefix(before, after, inp, ch, width, height, k + 1, doTransform, h)
  {
    RowNext(ch, width, k);
    RowsFitAll(ch, width, height);
    forall k', l, c | 0 <= k' < k + 1 && 0 <= l < width && 0 <= c < 3
      ensures after[RowCell(RowStart(ch, width, k'), ch, width, l, c)]
              == doTransform(h, PackRow(inp, ch, width, RowStart(ch, width, k')))[Lane(l, c)]
    {
      if k' < k {
        RowsFit(ch, width, height, k', k);
      }
    }
    forall k', l, c | 0 <= k' < k + 1 && 0 <= l < width && 3 <= c < ch
      ensures after[RowCell(RowStart(ch, width, k'), ch, width, l, c)]
              == before[RowCell(RowStart(ch, width, k'), ch, width, l, c)]
    {
      if k' < k {
        RowsFit(ch, width, height, k', k);
      }
    }
  }

  /** The packing loop of one row into the local `Lab` array of `3*width` floats. */
  method PackLab(inp: array<real>, ch: nat, width: nat, m: nat) returns (lab: seq<real>)
    requires ch >= 3 && m + Times(ch, width) <= inp.Length
    ensures lab == PackRow(inp[..], ch, width, m)
  {
    var rowsize := width * 3;
    var buf := new real[rowsize];
    for l := 0 to width
      invariant forall l', c :: 0 <= l' < l && 0 <= c < 3 ==> buf[Lane(l', c)] == inp[RowCell(m, ch, width, l', c)]
    {
      TimesIsProduct(ch, l);
      TimesGap(ch, l, width);
      var li, ii := 3 * l, ch * l;
      buf[li + 0] := inp[m + ii + 0];
      buf[li + 1] := inp[m + ii + 1];
      buf[li + 2] := inp[m + ii + 2];
    }
    lab := buf[..];
    ghost var packed := PackRow(inp[..], ch, width, m);
    forall i | 0 <= i < rowsize
      ensures lab[i] == packed[i]
    {
      var l, c := i / 3, i % 3;
      assert i == Lane(l, c);
    }
  }

  /** The unpacking loop of one row: `out[m + ch*l + c] = rgb[3l+c]` for `c < 3`. */
  method UnpackRow(out: array<real>, ch: nat, width: nat, m: nat, rgb: seq<real>)
    requires ch >= 3 && m + Times(ch, width) <= out.Length && |rgb| == 3 * width
    modifies out
    ensures UnpackPrefix(old(out[..]), out[..], rgb, ch, width, m, width)
  {
    for l := 0 to width
      invariant UnpackPrefix(old(out[..]), out[..], rgb, ch, width, m, l)
    {
      TimesIsProduct(ch, l);
      TimesGap(ch, l, width);
      ghost var mid := out[..];
      var oi, ri := ch * l, 3 * l;
      out[m + oi + 0] := rgb[ri + 0];
      out[m + oi + 1] := rgb[ri + 1];
      out[m + oi + 2] := rgb[ri + 2];
      UnpackStep(old(out[..]), mid, out[..], rgb, ch, width, m, l);
    }
  }

  /** Row `k` of the fallback: pack the Lab row, transform it, unpack it into `out`. */
  method FallbackRow(inp: array<real>, out: array<real>, ch: nat, width: nat, height: nat, k: nat,
                     doTransform: (Handle, seq<real>) -> seq<real>, h: Handle)
    requires inp != out && ch >= 3 && k < height
    requires Times(ch, Times(width, height)) <= inp.Length && Times(ch, Times(width, height)) <= out.Length
    requires forall row :: |doTransform(h, row)| == |row|
    modifies out
    ensures RowStart(ch, width, k) + Times(ch, width) <= Times(ch, Times(width, height))
    ensures UnpackPrefix(old(out[..]), out[..], doTransform(h, PackRow(inp[..], ch, width, RowStart(ch, width, k))),
                         ch, width, RowStart(ch, width, k), width)
  {
    RowsFit(ch, width, height, k, k + 1);
    var m := k * (width * ch);
    RowStartIsProduct(ch, width, k);
    var lab := PackLab(inp, ch, width, m);
    // one call of the colour-management transform per row, with `width` pixels
    var rgb := doTransform(h, lab);
    UnpackRow(out, ch, width, m, rgb);
  }

  /**
   * The fallback: row by row, one transform call per row, with the
   * transform of slot 0 (the loop runs on one thread).
   */
  method ProcessFallback(inp: array<real>, out: array<real>, ch: nat, width: nat, height: nat,
                         doTransform: (Handle, seq<real>) -> seq<real>, h: Handle)
    requires inp != out && ch >= 3
    requires Times(ch, Times(width, height)) <= inp.Length && Times(ch, Times(width, height)) <= out.Length
    requires forall row :: |doTransform(h, row)| == |row|
    modifies out
    ensures FallbackResult(old(out[..]), out[..], inp[..], ch, width, height, doTransform, h)
  {
    for k := 0 to height
      invariant FallbackPrefix(old(out[..]), out[..], inp[..], ch, width, height, k, doTransform, h)
    {
      ghost var mid := out[..];
      FallbackRow(inp, out, ch, width, height, k, doTransform, h);
      FallbackStep(old(out[..]), mid, out[..], inp[..], ch, width, height, k, doTransform, h);
    }
  }

  /**
   * `process`: the fast path when the first matrix coefficient is not the
   * sentinel, the transform of slot 0 otherwise.
   */
  method Process(piece: Piece, inp: array<real>, out: array<real>, ch: nat, width: nat, height: nat,
                 labToXyz: Vec3 -> Vec3, doTransform: (Handle, seq<real>) -> seq<real>)
    requires piece.Valid() && inp != out && ch >= 3
    requires Times(ch, Times(width, height)) <= inp.Length && Times(ch, Times(width, height)) <= out.Length
    requires !piece.Snapshot().MatrixPath() ==> piece.xform[0].Some?
    requires forall h, row :: |doTransform(h, row)| == |row|
    modifies out
    ensures piece.Snapshot().MatrixPath() ==>
              MatrixResult(old(out[..]), out[..], inp[..], ch, Times(width, height), piece.cmatrix, piece.lut, labToXyz)
    ensures !piece.Snapshot().MatrixPath() ==>
              FallbackResult(old(out[..]), out[..], inp[..], ch, width, height, doTransform, piece.xform[0].value)
  {
    if piece.cmatrix[0] != Sentinel {
      ProcessMatrix(inp, out, ch, width, height, piece.cmatrix, piece.lut, labToXyz);
    } else {
      ProcessFallback(inp, out, ch, width, height, doTransform, piece.xform[0].value);
    }
  }
}
