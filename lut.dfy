/**
 * The per-channel tone-curve lookup of the output colour module
 * (`lerp_lut` in src/iop/colorout.c).
 *
 * The argument of `lerp_lut` is a single-precision float that may be NaN
 * or infinite, so it is modelled by `Float`, an extended real with the
 * IEEE rules for NaN and the infinities.  Finite values are reals:
 * rounding and overflow of finite values are not modelled.
 */
module Lut {

  /** Number of samples of one tone curve (LUT_SAMPLES). */
  const LutSamples: nat := 0x10000

  /** One tone curve: LUT_SAMPLES finite samples. */
  type Curve = s: seq<real> | |s| == LutSamples witness seq(LutSamples, _ => 0.0)

  datatype Float = Num(r: real) | PosInf | NegInf | NaN {
    predicate IsFinite() { Num? }
  }

  function Neg(a: Float): Float {
    match a
    case Num(x) => Num(-x)
    case PosInf => NegInf
    case NegInf => PosInf
    case NaN => NaN
  }

  /** IEEE addition on the extended reals: inf + -inf is NaN. */
  function Add(a: Float, b: Float): (s: Float)
    ensures (a.NaN? || b.NaN?) ==> s.NaN?
    ensures a.Num? && b.Num? ==> s == Num(a.r + b.r)
  {
    match (a, b)
    case (NaN, _) => NaN
    case (_, NaN) => NaN
    case (Num(x), Num(y)) => Num(x + y)
    case (PosInf, NegInf) => NaN
    case (NegInf, PosInf) => NaN
    case (PosInf, _) => PosInf
    case (NegInf, _) => NegInf
    case (_, PosInf) => PosInf
    case (_, NegInf) => NegInf
  }

  function Sub(a: Float, b: Float): (d: Float)
    ensures (a.NaN? || b.NaN?) ==> d.NaN?
    ensures a.Num? && b.Num? ==> d == Num(a.r - b.r)
  {
    Add(a, Neg(b))
  }

  /** True for the values IEEE multiplication treats as positive. */
  predicate SignPositive(a: Float) {
    a.PosInf? || (a.Num? && a.r > 0.0)
  }

  /** IEEE multiplication on the extended reals: 0 * inf is NaN. */
  function Mul(a: Float, b: Float): (p: Float)
    ensures (a.NaN? || b.NaN?) ==> p.NaN?
    ensures a.Num? && b.Num? ==> p == Num(a.r * b.r)
  {
    if a.NaN? || b.NaN? then NaN
    else if a.Num? && b.Num? then Num(a.r * b.r)
    else if (a.Num? && a.r == 0.0) || (b.Num? && b.r == 0.0) then NaN
    else if SignPositive(a) == SignPositive(b) then PosInf
    else NegInf
  }

  /** `ft > 0` in C: false for NaN, because NaN fails every comparison. */
  predicate Positive(a: Float) {
    match a
    case Num(x) => x > 0.0
    case PosInf => true
    case NegInf => false
    case NaN => false
  }

  /** `ft < LUT_SAMPLES-2` in C: false for NaN as well. */
  predicate BelowLastSegment(a: Float) {
    match a
    case Num(x) => x < (LutSamples - 2) as real
    case PosInf => false
    case NegInf => true
    case NaN => false
  }

  /** The scaled argument `ft = v*LUT_SAMPLES`. */
  function Scale(v: Float): Float {
    Mul(v, Num(LutSamples as real))
  }

  /**
   * The NaN-safe index clamp
   * `t = ft > 0 ? (ft < LUT_SAMPLES-2 ? (int)ft : LUT_SAMPLES-2) : 0`.
   * The float-to-int conversion truncates towards zero, which is the floor
   * on the positive values it is applied to.  Whatever the argument, the
   * index leaves room for the second sample `lut[t+1]`.
   */
  function ClampIndex(ft: Float): (t: int)
    ensures 0 <= t <= LutSamples - 2
  {
    if Positive(ft) then
      (if BelowLastSegment(ft) then ft.r.Floor else LutSamples - 2)
    else 0
  }

  lemma ClampBelowTable(ft: real)
    requires ft <= 0.0
    ensures ClampIndex(Num(ft)) == 0
  {
    assert !Positive(Num(ft));
  }

  lemma ClampInTable(ft: real)
    requires 0.0 < ft < (LutSamples - 2) as real
    ensures ClampIndex(Num(ft)) == ft.Floor
  {
    assert Positive(Num(ft)) && BelowLastSegment(Num(ft));
  }

  lemma ClampAboveTable(ft: real)
    requires ft >= (LutSamples - 2) as real
    ensures ClampIndex(Num(ft)) == LutSamples - 2
  {
    assert Positive(Num(ft)) && !BelowLastSegment(Num(ft));
  }

  /**
   * The index for every kind of argument: NaN and -inf read the first
   * segment and +inf the last; a finite `ft` reads its floor inside the
   * table and the nearer end segment outside it.
   */
  lemma ClampIndexCases(ft: Float)
    ensures ft.NaN? ==> ClampIndex(ft) == 0
    ensures ft.PosInf? ==> ClampIndex(ft) == LutSamples - 2
    ensures ft.NegInf? ==> ClampIndex(ft) == 0
    ensures ft.Num? && 0.0 < ft.r < (LutSamples - 2) as real ==> ClampIndex(ft) == ft.r.Floor
    ensures ft.Num? && ft.r <= 0.0 ==> ClampIndex(ft) == 0
    ensures ft.Num? && ft.r >= (LutSamples - 2) as real ==> ClampIndex(ft) == LutSamples - 2
  {
    if ft.Num? {
      if ft.r <= 0.0 {
        ClampBelowTable(ft.r);
      } else if ft.r < (LutSamples - 2) as real {
        ClampInTable(ft.r);
      } else {
        ClampAboveTable(ft.r);
      }
    }
  }

  /** The fraction `f = ft - t`; it is not clamped. */
  function Fraction(ft: Float): Float {
    Sub(ft, Num(ClampIndex(ft) as real))
  }

  /**
   * `lerp_lut(lut, v)`: the samples either side of the clamped index,
   * blended by the unclamped fraction, `lut[t]*(1-f) + lut[t+1]*f`.
   */
  function LerpLut(lut: Curve, v: Float): (r: Float)
    ensures r.IsFinite() <==> v.IsFinite()
    ensures v.NaN? ==> r.NaN?
  {
    LerpScaled(lut, Scale(v))
  }

  /**
   * `lerp_lut` after the scaling `ft = v*LUT_SAMPLES`: a finite `ft` reads
   * the samples at the clamped index `t` and `t+1` and blends them by the
   * unclamped `ft - t`; any other `ft` gives a value that is not finite.
   */
  function LerpScaled(lut: Curve, ft: Float): (r: Float)
    ensures ft.Num? ==> var t := ClampIndex(ft); r == Num(Mix(lut[t], lut[t + 1], ft.r - t as real))
    ensures r.Num? <==> ft.Num?
  {
    var t := ClampIndex(ft);
    Blend(lut[t], lut[t + 1], Fraction(ft))
  }

  /** `l1*(1-f) + l2*f` on reals. */
  function Mix(l1: real, l2: real, f: real): real {
    l1 * (1.0 - f) + l2 * f
  }

  /** `l1*(1.0f-f) + l2*f` in IEEE arithmetic: finite exactly when `f` is. */
  function Blend(l1: real, l2: real, f: Float): (r: Float)
    ensures f.Num? ==> r == Num(Mix(l1, l2, f.r))
    ensures !f.Num? ==> !r.Num?
  {
    Add(Mul(Num(l1), Sub(Num(1.0), f)), Mul(Num(l2), f))
  }

  /**
   * `lerp_lut` on a finite argument, the form the pixel loop uses, written
   * on reals: the point at `ft` of the line through the two samples read.
   * `LerpLutFiniteAgrees` relates it to `LerpLut`.
   */
  function LerpLutFinite(lut: Curve, v: real): (r: real)
    ensures var ft := v * LutSamples as real;
            var t := ClampIndex(Num(ft));
            r == lut[t] + (lut[t + 1] - lut[t]) * (ft - t as real)
  {
    var ft := v * LutSamples as real;
    var t := ClampIndex(Num(ft));
    SegmentLine(lut[t], lut[t + 1], ft - t as real);
    Mix(lut[t], lut[t + 1], ft - t as real)
  }

  /** On finite arguments the real-valued lookup is the extended-float one. */
  lemma LerpLutFiniteAgrees(lut: Curve, v: real)
    ensures LerpLut(lut, Num(v)) == Num(LerpLutFinite(lut, v))
  {
    var ft := v * LutSamples as real;
    assert Scale(Num(v)) == Num(ft);
    var t := ClampIndex(Num(ft));
    LerpScaledAt(lut, ft, t, ft - t as real);
  }

  function Min(a: real, b: real): real { if a <= b then a else b }
  function Max(a: real, b: real): real { if a <= b then b else a }

  /** A finite scaled argument whose clamped index is `t` blends samples `t` and `t+1` by `f = ft - t`. */
  lemma LerpScaledAt(lut: Curve, ft: real, t: int, f: real)
    requires ClampIndex(Num(ft)) == t && f == ft - t as real
    ensures LerpScaled(lut, Num(ft)) == Num(Mix(lut[t], lut[t + 1], f))
  {
    FractionAt(ft, t);
  }

  lemma FractionAt(ft: real, t: int)
    requires ClampIndex(Num(ft)) == t
    ensures Fraction(Num(ft)) == Num(ft - t as real)
  {
  }

  /**
   * Inside the table the index is the floor of `ft`, the fraction lies in
   * [0, 1) and the result is the convex combination of the two samples, so
   * it lies between them.
   */
  lemma LerpInRange(lut: Curve, ft: real)
    requires 0.0 < ft < (LutSamples - 2) as real
    ensures var t := ClampIndex(Num(ft));
            var f := ft - t as real;
            && t == ft.Floor
            && 0.0 <= f < 1.0
            && LerpScaled(lut, Num(ft)) == Num(Mix(lut[t], lut[t + 1], f))
            && Min(lut[t], lut[t + 1]) <= Mix(lut[t], lut[t + 1], f) <= Max(lut[t], lut[t + 1])
  {
    var t := ClampIndex(Num(ft));
    ClampInTable(ft);
    LerpScaledAt(lut, ft, t, ft - t as real);
    ConvexBetween(lut[t], lut[t + 1], ft - t as real);
  }

  /** The same on the real-valued form: inside the table the result lies between the two samples read. */
  lemma LerpLutFiniteBetween(lut: Curve, v: real)
    requires 0.0 < v * LutSamples as real < (LutSamples - 2) as real
    ensures var t := (v * LutSamples as real).Floor;
            && 0 <= t && t + 1 < LutSamples
            && Min(lut[t], lut[t + 1]) <= LerpLutFinite(lut, v) <= Max(lut[t], lut[t + 1])
  {
    var ft := v * LutSamples as real;
    ClampInTable(ft);
    var t := ft.Floor;
    ConvexBetween(lut[t], lut[t + 1], ft - t as real);
  }

  lemma ConvexBetween(a: real, b: real, f: real)
    requires 0.0 <= f <= 1.0
    ensures Min(a, b) <= Mix(a, b, f) <= Max(a, b)
  {
    var d := b - a;
    assert Mix(a, b, f) == a + d * f;
    if a <= b {
      MulBounds(d, f);
    } else {
      MulBounds(-d, f);
      assert (-d) * f == -(d * f);
    }
  }

  lemma MulBounds(d: real, f: real)
    requires d >= 0.0 && 0.0 <= f <= 1.0
    ensures 0.0 <= d * f <= d
  {
    assert d - d * f == d * (1.0 - f);
    assert d * (1.0 - f) >= 0.0;
  }

  lemma SegmentLine(a: real, b: real, f: real)
    ensures Mix(a, b, f) == a + (b - a) * f
  {
  }

  /** The blend of a segment is the line through its two samples, at any fraction. */
  lemma LerpLineAt(lut: Curve, ft: real, t: int, f: real)
    requires ClampIndex(Num(ft)) == t && f == ft - t as real
    ensures LerpScaled(lut, Num(ft)) == Num(lut[t] + (lut[t + 1] - lut[t]) * f)
  {
    LerpScaledAt(lut, ft, t, f);
    SegmentLine(lut[t], lut[t + 1], f);
  }

  /**
   * Below the table only the index is clamped (to 0, by `ClampIndex`): the
   * fraction is `ft` itself, and the first segment is extended linearly,
   * `lut[0] + (lut[1]-lut[0])*ft`.
   */
  lemma LerpBelowTable(lut: Curve, ft: real)
    requires ft <= 0.0
    ensures Fraction(Num(ft)) == Num(ft)
    ensures LerpScaled(lut, Num(ft)) == Num(lut[0] + (lut[1] - lut[0]) * ft)
  {
    ClampBelowTable(ft);
    FractionAt(ft, 0);
    FirstSegmentLine(lut, ft);
  }

  /** Whenever the index is 0 the result is the line through the first two samples at `ft`. */
  lemma FirstSegmentLine(lut: Curve, ft: real)
    requires ClampIndex(Num(ft)) == 0
    ensures LerpScaled(lut, Num(ft)) == Num(lut[0] + (lut[1] - lut[0]) * ft)
  {
    LerpLineAt(lut, ft, 0, ft);
  }

  /**
   * Above the table the last segment is extended linearly, with the
   * fraction `ft-(LUT_SAMPLES-2)` unclamped.
   */
  lemma LerpAboveTable(lut: Curve, ft: real)
    requires ft >= (LutSamples - 2) as real
    ensures var last := LutSamples - 2;
            && ClampIndex(Num(ft)) == last
            && Fraction(Num(ft)) == Num(ft - last as real)
            && LerpScaled(lut, Num(ft)) == Num(lut[last] + (lut[last + 1] - lut[last]) * (ft - last as real))
  {
    var last := LutSamples - 2;
    ClampAboveTable(ft);
    FractionAt(ft, last);
    LerpLineAt(lut, ft, last, ft - last as real);
  }

  /**
   * At the top of the nominal domain, v = 1, the fraction is 2: the result
   * is extrapolated one sample spacing past the last sample.
   */
  lemma LerpAtOne(lut: Curve)
    ensures Scale(Num(1.0)) == Num(LutSamples as real)
    ensures Fraction(Scale(Num(1.0))) == Num(2.0)
    ensures LerpLutFinite(lut, 1.0) == 2.0 * lut[LutSamples - 1] - lut[LutSamples - 2]
  {
    LerpAboveTable(lut, LutSamples as real);
  }

  /** A NaN argument is read at index 0 and propagates to the result. */
  lemma LerpNaN(lut: Curve)
    ensures ClampIndex(Scale(NaN)) == 0
    ensures LerpLut(lut, NaN).NaN?
  {
  }

  /** Every argument reads one in-bounds segment; only finite arguments give a finite result. */
  lemma LerpFiniteIffFinite(lut: Curve, v: Float)
    ensures 0 <= ClampIndex(Scale(v)) && ClampIndex(Scale(v)) + 1 < |lut|
    ensures LerpLut(lut, v).IsFinite() <==> v.IsFinite()
  {
    var ft := Scale(v);
    assert ft.Num? <==> v.Num?;
    assert Fraction(ft).Num? <==> ft.Num?;
  }
}
