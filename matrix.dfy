/**
 * The 3x3 XYZ-to-RGB matrix product of the output colour module's fast
 * path (the two nested loops in `process`, src/iop/colorout.c).
 */
module ColorMatrix {

  /** A colour sample: three channel values. */
  type Vec3 = s: seq<real> | |s| == 3 witness [0.0, 0.0, 0.0]

  /** A row-major 3x3 matrix, `cmatrix[3*i+j]`. */
  type Mat3 = s: seq<real> | |s| == 9 witness [0.0, 0.0, 0.0, 0.0, 0.0, 0.0, 0.0, 0.0, 0.0]

  /** The first `j` terms of `sum_j m[3i+j]*v[j]`, accumulated left to right as the loop does. */
  function PartialRow(m: Mat3, v: Vec3, i: nat, j: nat): real
    requires i < 3 && j <= 3
  {
    if j == 0 then 0.0 else PartialRow(m, v, i, j - 1) + m[3 * i + j - 1] * v[j - 1]
  }

  /** Row `i` of the product: `m[3i]*v[0] + m[3i+1]*v[1] + m[3i+2]*v[2]`. */
  function Row(m: Mat3, v: Vec3, i: nat): real
    requires i < 3
  {
    m[3 * i] * v[0] + m[3 * i + 1] * v[1] + m[3 * i + 2] * v[2]
  }

  /**
   * The matrix-vector product `rgb[i] = sum_j m[3i+j]*xyz[j]`: each entry
   * is the left-to-right accumulation of its row.
   */
  function MatVec(m: Mat3, v: Vec3): (r: Vec3)
    ensures forall i {:trigger PartialRow(m, v, i, 3)} :: 0 <= i < 3 ==> r[i] == PartialRow(m, v, i, 3)
  {
    PartialRowComplete(m, v, 0);
    PartialRowComplete(m, v, 1);
    PartialRowComplete(m, v, 2);
    [Row(m, v, 0), Row(m, v, 1), Row(m, v, 2)]
  }

  function Scaled(a: real, v: Vec3): Vec3 {
    [a * v[0], a * v[1], a * v[2]]
  }

  function Plus(u: Vec3, v: Vec3): Vec3 {
    [u[0] + v[0], u[1] + v[1], u[2] + v[2]]
  }

  /** The completed accumulation is the row of the product. */
  lemma {:induction false} PartialRowComplete(m: Mat3, v: Vec3, i: nat)
    requires i < 3
    ensures PartialRow(m, v, i, 3) == Row(m, v, i)
  {
    assert PartialRow(m, v, i, 1) == m[3 * i] * v[0];
  }

  /**
   * The two nested loops of the fast path:
   * `rgb[i] = 0; for j < 3: rgb[i] += cmatrix[3*i+j]*XYZ[j]`.
   */
  method MultiplyMatrix(m: Mat3, xyz: Vec3) returns (rgb: Vec3)
    ensures rgb == MatVec(m, xyz)
  {
    var acc := new real[3];
    for i := 0 to 3
      invariant forall i' :: 0 <= i' < i ==> acc[i'] == Row(m, xyz, i')
    {
      acc[i] := 0.0;
      for j := 0 to 3
        invariant acc[i] == PartialRow(m, xyz, i, j)
        invariant forall i' :: 0 <= i' < i ==> acc[i'] == Row(m, xyz, i')
      {
        acc[i] := acc[i] + m[3 * i + j] * xyz[j];
      }
      PartialRowComplete(m, xyz, i);
    }
    rgb := acc[..];
  }

  lemma RowLinear(m: Mat3, a: real, x: Vec3, b: real, y: Vec3, i: nat)
    requires i < 3
    ensures Row(m, Plus(Scaled(a, x), Scaled(b, y)), i) == a * Row(m, x, i) + b * Row(m, y, i)
  {
    Distribute(m[3 * i], a, x[0], b, y[0]);
    Distribute(m[3 * i + 1], a, x[1], b, y[1]);
    Distribute(m[3 * i + 2], a, x[2], b, y[2]);
  }

  lemma Distribute(c: real, a: real, x: real, b: real, y: real)
    ensures c * (a * x + b * y) == a * (c * x) + b * (c * y)
  {
  }

  /** The matrix transform is linear: `M(a*x + b*y) == a*M(x) + b*M(y)`. */
  lemma MatVecLinear(m: Mat3, a: real, x: Vec3, b: real, y: Vec3)
    ensures MatVec(m, Plus(Scaled(a, x), Scaled(b, y))) == Plus(Scaled(a, MatVec(m, x)), Scaled(b, MatVec(m, y)))
  {
    var u := Plus(Scaled(a, x), Scaled(b, y));
    var lhs, rhs := MatVec(m, u), Plus(Scaled(a, MatVec(m, x)), Scaled(b, MatVec(m, y)));
    forall i | 0 <= i < 3 ensures lhs[i] == rhs[i] {
      RowLinear(m, a, x, b, y, i);
    }
  }
}
