/**
 * The application state of the lab and the handlers that replace parts of
 * it: multiply, transpose, the three resets, sharing a snapshot of the scene
 * and restoring one from the link's fragment.
 */
module App {
  import opened Types
  import Matrices

  /** The presets INITIAL_MATRIX_2D, INITIAL_VECTORS_2D, INITIAL_MATRIX_3D and INITIAL_VECTORS_3D. */
  datatype Defaults = Defaults(
    matrix2D: Matrix2x2,
    vectors2D: seq<Vector2D>,
    matrix3D: Matrix3x3,
    vectors3D: seq<Vector3D>)

  /** The editable part of the state: the mode, matrices A, B and the 3x3 matrix, both vector lists. */
  datatype Scene = Scene(
    mode: Mode,
    matrix2D: Matrix2x2,
    matrixB2D: Matrix2x2,
    vectors2D: seq<Vector2D>,
    matrix3D: Matrix3x3,
    vectors3D: seq<Vector3D>)

  /**
   * A snapshot as found in a decoded link: every field may be missing (or
   * falsy), and `matrixB2D` is not among its fields.
   */
  datatype Snapshot = Snapshot(
    mode: Option<Mode>,
    matrix2D: Option<Matrix2x2>,
    vectors2D: Option<seq<Vector2D>>,
    matrix3D: Option<Matrix3x3>,
    vectors3D: Option<seq<Vector3D>>)

  /** The object that sharing serialises: every field but matrix B. */
  function Capture(s: Scene): (snap: Snapshot)
    ensures snap.mode.Some? && snap.matrix2D.Some? && snap.vectors2D.Some?
    ensures snap.matrix3D.Some? && snap.vectors3D.Some?
    ensures Restore(s, Some(snap)) == s
  {
    Snapshot(Some(s.mode), Some(s.matrix2D), Some(s.vectors2D), Some(s.matrix3D), Some(s.vectors3D))
  }

  /**
   * The scene after restoring `decoded`; `None` is an empty fragment or one
   * that failed to decode.
   */
  function Restore(s: Scene, decoded: Option<Snapshot>): (r: Scene)
    ensures decoded.None? ==> r == s
    ensures r.matrixB2D == s.matrixB2D
    ensures decoded.Some? ==>
      && r.mode == decoded.value.mode.GetOr(s.mode)
      && r.matrix2D == decoded.value.matrix2D.GetOr(s.matrix2D)
      && r.vectors2D == decoded.value.vectors2D.GetOr(s.vectors2D)
      && r.matrix3D == decoded.value.matrix3D.GetOr(s.matrix3D)
      && r.vectors3D == decoded.value.vectors3D.GetOr(s.vectors3D)
  {
    match decoded
    case None => s
    case Some(d) =>
      Scene(d.mode.GetOr(s.mode), d.matrix2D.GetOr(s.matrix2D), s.matrixB2D,
            d.vectors2D.GetOr(s.vectors2D), d.matrix3D.GetOr(s.matrix3D),
            d.vectors3D.GetOr(s.vectors3D))
  }

  /** Restoring a shared snapshot reproduces the shared scene, except matrix B, which stays. */
  lemma RestoreCapture(current: Scene, shared: Scene)
    ensures Restore(current, Some(Capture(shared))) == shared.(matrixB2D := current.matrixB2D)
    ensures Restore(shared, Some(Capture(shared))) == shared
  {
  }

  /** A snapshot with no fields present changes nothing, and restoring twice is restoring once. */
  lemma RestoreEmptyAndIdempotent(s: Scene, decoded: Option<Snapshot>)
    ensures Restore(s, Some(Snapshot(None, None, None, None, None))) == s
    ensures Restore(Restore(s, decoded), decoded) == Restore(s, decoded)
  {
  }

  /** The state held by the application component. */
  class AppState {
    const initial: Defaults
    var mode: Mode
    var matrix2D: Matrix2x2
    var matrixB2D: Matrix2x2
    var vectors2D: seq<Vector2D>
    var matrix3D: Matrix3x3
    var vectors3D: seq<Vector3D>
    var insight: Option<Insight>

    function Current(): Scene
      reads this
    {
      Scene(mode, matrix2D, matrixB2D, vectors2D, matrix3D, vectors3D)
    }

    /** The initial state: 2D mode, both 2x2 matrices at the preset, no insight. */
    constructor (initial: Defaults)
      ensures this.initial == initial
      ensures Current() == Scene(TwoD, initial.matrix2D, initial.matrix2D, initial.vectors2D,
                                 initial.matrix3D, initial.vectors3D)
      ensures insight == None
    {
      this.initial := initial;
      mode := TwoD;
      matrix2D := initial.matrix2D;
      matrixB2D := initial.matrix2D;
      vectors2D := initial.vectors2D;
      matrix3D := initial.matrix3D;
      vectors3D := initial.vectors3D;
      insight := None;
    }

    /** A := A x B in 2D mode; nothing in 3D mode. */
    method HandleMultiply()
      modifies this
      ensures old(mode) == TwoD ==>
        Current() == old(Current()).(matrix2D := Matrices.Multiply2x2(old(matrix2D), old(matrixB2D)))
      ensures old(mode) == ThreeD ==> Current() == old(Current())
      ensures insight == old(insight)
    {
      if mode == TwoD {
        var a := matrix2D;
        var b := matrixB2D;
        matrix2D := Matrices.Multiply2x2(a, b);
      }
    }

    /** Transposes the active matrix of the current mode. */
    method HandleTranspose()
      modifies this
      ensures old(mode) == TwoD ==>
        Current() == old(Current()).(matrix2D := Matrices.Transpose2x2(old(matrix2D)))
      ensures old(mode) == ThreeD ==>
        Current() == old(Current()).(matrix3D := Matrices.Transpose3x3(old(matrix3D)))
      ensures insight == old(insight)
    {
      if mode == TwoD {
        matrix2D := Matrices.Transpose2x2(matrix2D);
      } else {
        matrix3D := Matrices.Transpose3x3(matrix3D);
      }
    }

    /** Puts the identity of the current dimension in the active matrix. */
    method HandleResetMatrix()
      modifies this
      ensures old(mode) == TwoD ==>
        Current() == old(Current()).(matrix2D := Matrices.Identity2x2())
      ensures old(mode) == ThreeD ==>
        Current() == old(Current()).(matrix3D := Matrices.Identity3x3())
      ensures insight == old(insight)
    {
      if mode == TwoD {
        matrix2D := Matrices.Identity2x2();
      } else {
        matrix3D := Matrices.Identity3x3();
      }
    }

    /** Puts back the preset of vector `i` in the list of the current mode. */
    method HandleResetVector(i: nat)
      requires mode == TwoD ==> i < |vectors2D| && i < |initial.vectors2D|
      requires mode == ThreeD ==> i < |vectors3D| && i < |initial.vectors3D|
      modifies this
      ensures mode == old(mode) && matrix2D == old(matrix2D) && matrixB2D == old(matrixB2D)
      ensures matrix3D == old(matrix3D) && insight == old(insight)
      ensures old(mode) == TwoD ==>
        && |vectors2D| == old(|vectors2D|)
        && vectors2D[i] == initial.vectors2D[i]
        && (forall j | 0 <= j < |vectors2D| && j != i :: vectors2D[j] == old(vectors2D[j]))
        && vectors3D == old(vectors3D)
      ensures old(mode) == ThreeD ==>
        && |vectors3D| == old(|vectors3D|)
        && vectors3D[i] == initial.vectors3D[i]
        && (forall j | 0 <= j < |vectors3D| && j != i :: vectors3D[j] == old(vectors3D[j]))
        && vectors2D == old(vectors2D)
    {
      if mode == TwoD {
        var v := vectors2D;
        v := v[i := initial.vectors2D[i]];
        vectors2D := v;
      } else {
        var v := vectors3D;
        v := v[i := initial.vectors3D[i]];
        vectors3D := v;
      }
    }

    /**
     * Full reset: the active matrix of the current mode becomes the identity,
     * the 2D vector list its preset, and the insight is cleared. The 3D
     * vector list and matrix B are kept, in either mode.
     */
    method HandleResetAll()
      modifies this
      ensures old(mode) == TwoD ==>
        Current() == old(Current()).(matrix2D := Matrices.Identity2x2(), vectors2D := initial.vectors2D)
      ensures old(mode) == ThreeD ==>
        Current() == old(Current()).(matrix3D := Matrices.Identity3x3(), vectors2D := initial.vectors2D)
      ensures insight == None
    {
      HandleResetMatrix();
      vectors2D := initial.vectors2D;
      insight := None;
    }

    /** The snapshot that sharing encodes into the link. */
    method HandleShare() returns (snap: Snapshot)
      ensures snap.mode == Some(mode) && snap.matrix2D == Some(matrix2D)
      ensures snap.vectors2D == Some(vectors2D)
      ensures snap.matrix3D == Some(matrix3D) && snap.vectors3D == Some(vectors3D)
      ensures snap == Capture(Current())
    {
      snap := Snapshot(Some(mode), Some(matrix2D), Some(vectors2D), Some(matrix3D), Some(vectors3D));
    }

    /**
     * Restores the fields present in the link's fragment `hash`, decoded by
     * `decode` (base64 and JSON; `None` when either fails). An empty fragment
     * or a failed decode changes nothing.
     */
    method RestoreFromHash(hash: string, decode: string -> Option<Snapshot>)
      modifies this
      ensures Current() == Restore(old(Current()), if hash == "" then None else decode(hash))
      ensures insight == old(insight)
    {
      if hash != "" {
        var decoded := decode(hash);
        if decoded.Some? {
          var data := decoded.value;
          if data.mode.Some? { mode := data.mode.value; }
          if data.matrix2D.Some? { matrix2D := data.matrix2D.value; }
          if data.vectors2D.Some? { vectors2D := data.vectors2D.value; }
          if data.matrix3D.Some? { matrix3D := data.matrix3D.value; }
          if data.vectors3D.Some? { vectors3D := data.vectors3D.value; }
        }
      }
    }
  }
}
