/**
 * The closed-form linear algebra of the lab: the identities the reset
 * buttons install, the 2x2 product behind "A = A x B", the 2x2 and 3x3
 * transposes, and the statistics panel (determinant, trace, Frobenius norm).
 */
module Matrices {
  import opened Types

  function Identity2x2(): (r: Matrix2x2)
    ensures forall i, j | 0 <= i < 2 && 0 <= j < 2 :: r[i][j] == if i == j then 1.0 else 0.0
  {
    [[1.0, 0.0], [0.0, 1.0]]
  }

  function Identity3x3(): (r: Matrix3x3)
    ensures forall i, j | 0 <= i < 3 && 0 <= j < 3 :: r[i][j] == if i == j then 1.0 else 0.0
  {
    [[1.0, 0.0, 0.0], [0.0, 1.0, 0.0], [0.0, 0.0, 1.0]]
  }

  /** The product `a x b`, written out entry by entry as the multiply button does. */
  function Multiply2x2(a: Matrix2x2, b: Matrix2x2): (r: Matrix2x2)
    ensures forall i, j | 0 <= i < 2 && 0 <= j < 2 ::
      r[i][j] == a[i][0] * b[0][j] + a[i][1] * b[1][j]
  {
    [[a[0][0] * b[0][0] + a[0][1] * b[1][0], a[0][0] * b[0][1] + a[0][1] * b[1][1]],
     [a[1][0] * b[0][0] + a[1][1] * b[1][0], a[1][0] * b[0][1] + a[1][1] * b[1][1]]]
  }

  function Transpose2x2(m: Matrix2x2): (r: Matrix2x2)
    ensures forall i, j | 0 <= i < 2 && 0 <= j < 2 :: r[i][j] == m[j][i]
  {
    [[m[0][0], m[1][0]], [m[0][1], m[1][1]]]
  }

  function Transpose3x3(m: Matrix3x3): (r: Matrix3x3)
    ensures forall i, j | 0 <= i < 3 && 0 <= j < 3 :: r[i][j] == m[j][i]
  {
    [[m[0][0], m[1][0], m[2][0]],
     [m[0][1], m[1][1], m[2][1]],
     [m[0][2], m[1][2], m[2][2]]]
  }

  /** `ad - bc` of `[[a, b], [c, d]]`: the signed area scale of the map. */
  function Det2x2(m: Matrix2x2): (r: real)
    ensures m[0][0] == m[1][0] && m[0][1] == m[1][1] ==> r == 0.0
    ensures (m[0][0] == 0.0 && m[0][1] == 0.0) || (m[1][0] == 0.0 && m[1][1] == 0.0) ==> r == 0.0
  {
    m[0][0] * m[1][1] - m[0][1] * m[1][0]
  }

  /** `a + d` of `[[a, b], [c, d]]`: the sum of the diagonal. */
  function Trace2x2(m: Matrix2x2): (r: real)
    ensures m == Identity2x2() ==> r == 2.0
    ensures r == Transpose2x2(m)[0][0] + Transpose2x2(m)[1][1]
  {
    m[0][0] + m[1][1]
  }

  /** The square of the Frobenius norm: the sum of the squared entries. */
  function FrobeniusSq2x2(m: Matrix2x2): (r: real)
    ensures r >= 0.0
  {
    var a, b, c, d := m[0][0], m[0][1], m[1][0], m[1][1];
    a * a + b * b + c * c + d * d
  }

  /** The analysis panel; `normSq` is the square of the displayed norm. */
  datatype Stats = Stats(det: real, trace: real, normSq: real)

  /**
   * The statistics shown for the active matrix. Only the 2x2 matrix is
   * analysed; in 3D mode the panel shows fixed values.
   */
  function MatrixStats(mode: Mode, m: Matrix2x2): (s: Stats)
    ensures s.normSq >= 0.0
    ensures mode == ThreeD ==> s == Stats(1.0, 3.0, 0.0)
    ensures mode == TwoD ==> s.det == Det2x2(m) && s.trace == Trace2x2(m)
    ensures mode == TwoD ==> s.normSq == FrobeniusSq2x2(m)
  {
    if mode == TwoD then Stats(Det2x2(m), Trace2x2(m), FrobeniusSq2x2(m))
    else Stats(1.0, 3.0, 0.0)
  }

  /** The matrix after pressing "A = A x B" `k` times with the same `b`. */
  function MultiplyRepeatedly(a: Matrix2x2, b: Matrix2x2, k: nat): (r: Matrix2x2)
    ensures k == 1 ==> r == Multiply2x2(a, b)
    ensures b == Identity2x2() ==> r == a
  {
    if k == 0 then a
    else
      var previous := MultiplyRepeatedly(a, b, k - 1);
      MultiplyIdentity(previous);
      Multiply2x2(previous, b)
  }

  function Power(x: real, k: nat): real {
    if k == 0 then 1.0 else Power(x, k - 1) * x
  }

  // ---------------------------------------------------------------------
  // Properties of transpose

  lemma Transpose2x2Involution(m: Matrix2x2)
    ensures Transpose2x2(Transpose2x2(m)) == m
  {
    assert m == [m[0], m[1]];
    assert m[0] == [m[0][0], m[0][1]];
    assert m[1] == [m[1][0], m[1][1]];
  }

  lemma Transpose3x3Involution(m: Matrix3x3)
    ensures Transpose3x3(Transpose3x3(m)) == m
  {
    assert m == [m[0], m[1], m[2]];
    assert m[0] == [m[0][0], m[0][1], m[0][2]];
    assert m[1] == [m[1][0], m[1][1], m[1][2]];
    assert m[2] == [m[2][0], m[2][1], m[2][2]];
  }

  /** Transpose keeps the diagonal, hence the trace, the determinant and the norm. */
  lemma TransposeKeepsStats(mode: Mode, m: Matrix2x2)
    ensures forall i | 0 <= i < 2 :: Transpose2x2(m)[i][i] == m[i][i]
    ensures Det2x2(Transpose2x2(m)) == Det2x2(m)
    ensures Trace2x2(Transpose2x2(m)) == Trace2x2(m)
    ensures FrobeniusSq2x2(Transpose2x2(m)) == FrobeniusSq2x2(m)
    ensures MatrixStats(mode, Transpose2x2(m)) == MatrixStats(mode, m)
  {
  }

  lemma Transpose3x3KeepsDiagonal(m: Matrix3x3)
    ensures forall i | 0 <= i < 3 :: Transpose3x3(m)[i][i] == m[i][i]
  {
  }

  // ---------------------------------------------------------------------
  // Properties of the product

  lemma MultiplyIdentity(a: Matrix2x2)
    ensures Multiply2x2(a, Identity2x2()) == a
    ensures Multiply2x2(Identity2x2(), a) == a
  {
    assert a == [a[0], a[1]];
    assert a[0] == [a[0][0], a[0][1]];
    assert a[1] == [a[1][0], a[1][1]];
  }

  /** The determinant of `a x b` is the product of the determinants. */
  lemma DetMultiply(a: Matrix2x2, b: Matrix2x2)
    ensures Det2x2(Multiply2x2(a, b)) == Det2x2(a) * Det2x2(b)
  {
    var p, q, r, s := a[0][0], a[0][1], a[1][0], a[1][1];
    var e, f, g, h := b[0][0], b[0][1], b[1][0], b[1][1];
    var c := Multiply2x2(a, b);
    assert c[0][0] == p * e + q * g && c[0][1] == p * f + q * h;
    assert c[1][0] == r * e + s * g && c[1][1] == r * f + s * h;
    calc {
      (p * e + q * g) * (r * f + s * h) - (p * f + q * h) * (r * e + s * g);
      p * s * e * h + q * r * f * g - p * s * f * g - q * r * e * h;
      (p * s - q * r) * (e * h - f * g);
    }
  }

  /** Pressing the multiply button `k` times scales the determinant by `det(b)^k`. */
  lemma {:induction false} DetMultiplyRepeatedly(a: Matrix2x2, b: Matrix2x2, k: nat)
    ensures Det2x2(MultiplyRepeatedly(a, b, k)) == Det2x2(a) * Power(Det2x2(b), k)
  {
    if k > 0 {
      DetMultiplyRepeatedly(a, b, k - 1);
      DetMultiply(MultiplyRepeatedly(a, b, k - 1), b);
    }
  }

  /** Worked values: the identity, a singular matrix and a uniform scaling. */
  lemma StatsExamples()
    ensures MatrixStats(TwoD, Identity2x2()) == Stats(1.0, 2.0, 2.0)
    ensures Det2x2([[1.0, 2.0], [2.0, 4.0]]) == 0.0
    ensures MatrixStats(TwoD, [[2.0, 0.0], [0.0, 2.0]]) == Stats(4.0, 4.0, 8.0)
  {
  }
}
