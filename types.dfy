/**
 * The entities the lab works on: the dimension mode, square matrices of a
 * fixed size per mode, labelled vectors, and the insight payload shown after
 * an analysis. Numbers are modelled as mathematical reals.
 */
module Types {

  /** An optional value; `None` stands for an absent (or JavaScript-falsy) value. */
  datatype Option<+T> = None | Some(value: T) {

    /** The held value, or `default` when there is none. */
    function GetOr(default: T): T {
      match this
      case Some(v) => v
      case None => default
    }
  }

  /** The dimension mode: '2D' or '3D'. */
  datatype Mode = TwoD | ThreeD

  /** The side length of the active matrix in a mode. */
  function Dim(mode: Mode): (n: nat)
    ensures n == 2 || n == 3
    ensures (n == 2) <==> mode == TwoD
  {
    if mode == TwoD then 2 else 3
  }

  /** `m` has `n` rows of `n` entries each. */
  predicate IsSquare(m: seq<seq<real>>, n: nat) {
    |m| == n && forall i | 0 <= i < |m| :: |m[i]| == n
  }

  /** A 2x2 matrix as a pair of rows, `[[a, b], [c, d]]`. */
  type Matrix2x2 = m: seq<seq<real>> | IsSquare(m, 2) witness [[0.0, 0.0], [0.0, 0.0]]

  /** A 3x3 matrix as three rows of three entries. */
  type Matrix3x3 = m: seq<seq<real>> | IsSquare(m, 3)
    witness [[0.0, 0.0, 0.0], [0.0, 0.0, 0.0], [0.0, 0.0, 0.0]]

  /** A vector of the plane; `name` holds the source's `label` field (a Dafny keyword). */
  datatype Vector2D = Vector2D(x: real, y: real, name: string, color: string)

  /** A vector of space with its display label and colour. */
  datatype Vector3D = Vector3D(x: real, y: real, z: real, name: string, color: string)

  /** A coordinate name a vector edit may target. */
  datatype Axis = X | Y | Z

  /** The explanation returned by the insight service, an opaque display payload. */
  datatype Insight = Insight(title: string, explanation: string, mathDetails: seq<string>)
}
