/**
 * The editing side of the control panel: typed numbers go into one matrix
 * cell or one vector coordinate, and the vector-norm bars are computed from
 * the vectors of the current mode.
 */
module ControlPanel {
  import opened Types
  import App

  /**
   * The number stored for an edit, given the result of parsing its text
   * (`None` for NaN): a failed parse stores 0.
   */
  function ParsedOrZero(parsed: Option<real>): (num: real)
    ensures parsed.None? ==> num == 0.0
    ensures parsed.Some? ==> num == parsed.value
  {
    parsed.GetOr(0.0)
  }

  /** `m` with the entry at (`row`, `col`) replaced by `x`; the shape is kept. */
  function SetEntry(m: seq<seq<real>>, row: nat, col: nat, x: real): (r: seq<seq<real>>)
    requires row < |m| && col < |m[row]|
    ensures |r| == |m| && forall i | 0 <= i < |m| :: |r[i]| == |m[i]|
    ensures forall i, j | 0 <= i < |m| && 0 <= j < |m[i]| ::
      r[i][j] == if i == row && j == col then x else m[i][j]
  {
    m[row := m[row][col := x]]
  }

  /** A cell edit keeps the matrix square of the same size. */
  lemma SetEntryKeepsSquare(m: seq<seq<real>>, n: nat, row: nat, col: nat, x: real)
    requires IsSquare(m, n) && row < n && col < n
    ensures IsSquare(SetEntry(m, row, col, x), n)
  {
  }

  /** Writing back the value a cell already holds gives back the same matrix. */
  lemma SetEntrySameValue(m: seq<seq<real>>, row: nat, col: nat)
    requires row < |m| && col < |m[row]|
    ensures SetEntry(m, row, col, m[row][col]) == m
  {
    assert m[row][col := m[row][col]] == m[row];
  }

  /** `v` with coordinate `axis` set to `x`; a plane vector has no z. */
  function WithAxis2D(v: Vector2D, axis: Axis, num: real): (r: Vector2D)
    requires axis != Z
    ensures r.name == v.name && r.color == v.color
    ensures r.x == (if axis == X then num else v.x)
    ensures r.y == (if axis == Y then num else v.y)
  {
    match axis
    case X => v.(x := num)
    case Y => v.(y := num)
  }

  function WithAxis3D(v: Vector3D, axis: Axis, num: real): (r: Vector3D)
    ensures r.name == v.name && r.color == v.color
    ensures r.x == (if axis == X then num else v.x)
    ensures r.y == (if axis == Y then num else v.y)
    ensures r.z == (if axis == Z then num else v.z)
  {
    match axis
    case X => v.(x := num)
    case Y => v.(y := num)
    case Z => v.(z := num)
  }

  /** The square of the length shown for a plane vector. */
  function SquaredNorm2D(v: Vector2D): (r: real)
    ensures r >= 0.0
  {
    v.x * v.x + v.y * v.y
  }

  /** The square of the length shown for a space vector. */
  function SquaredNorm3D(v: Vector3D): (r: real)
    ensures r >= 0.0
  {
    v.x * v.x + v.y * v.y + v.z * v.z
  }

  /** The filled percentage of a norm bar, ten percent per unit, capped at 100. */
  function BarWidth(norm: real): (w: real)
    requires norm >= 0.0
    ensures 0.0 <= w <= 100.0
    ensures w <= 10.0 * norm
    ensures w == 100.0 || w == 10.0 * norm
  {
    if norm * 10.0 < 100.0 then norm * 10.0 else 100.0
  }

  /** The bar is full exactly when the squared norm reaches 100. */
  lemma BarFullIffSquaredNormAtLeast100(norm: real, sq: real)
    requires norm >= 0.0 && norm * norm == sq
    ensures BarWidth(norm) == 100.0 <==> sq >= 100.0
  {
    if norm < 10.0 {
      assert norm * norm <= norm * 10.0;
    } else {
      assert norm * norm >= 10.0 * norm;
    }
  }

  /** A longer vector never has a shorter bar. */
  lemma BarWidthMonotone(n1: real, n2: real)
    requires 0.0 <= n1 <= n2
    ensures BarWidth(n1) <= BarWidth(n2)
  {
  }

  /**
   * handleMatrixChange: writes the parsed number into cell (`row`, `col`) of
   * a copy of the edited matrix (B when `isB` in 2D mode, A otherwise; the
   * 3x3 matrix in 3D mode, whatever `isB` is) and installs the copy.
   */
  method HandleMatrixChange(app: App.AppState, row: nat, col: nat, parsed: Option<real>, isB: bool)
    requires row < Dim(app.mode) && col < Dim(app.mode)
    modifies app
    ensures app.insight == old(app.insight)
    ensures old(app.mode) == TwoD && isB ==>
      app.Current() == old(app.Current()).(matrixB2D :=
        SetEntry(old(app.matrixB2D), row, col, ParsedOrZero(parsed)))
    ensures old(app.mode) == TwoD && !isB ==>
      app.Current() == old(app.Current()).(matrix2D :=
        SetEntry(old(app.matrix2D), row, col, ParsedOrZero(parsed)))
    ensures old(app.mode) == ThreeD ==>
      app.Current() == old(app.Current()).(matrix3D :=
        SetEntry(old(app.matrix3D), row, col, ParsedOrZero(parsed)))
  {
    var num := ParsedOrZero(parsed);
    if app.mode == TwoD {
      var target := if isB then app.matrixB2D else app.matrix2D;
      var newM: Matrix2x2 := SetEntry(target, row, col, num);
      if isB {
        app.matrixB2D := newM;
      } else {
        app.matrix2D := newM;
      }
    } else {
      var newM: Matrix3x3 := SetEntry(app.matrix3D, row, col, num);
      app.matrix3D := newM;
    }
  }

  /**
   * handleVectorChange: sets coordinate `axis` of vector `index` in the list
   * of the current mode to the parsed number, in a copy of the list.
   */
  method HandleVectorChange(app: App.AppState, index: nat, axis: Axis, parsed: Option<real>)
    requires app.mode == TwoD ==> index < |app.vectors2D| && axis != Z
    requires app.mode == ThreeD ==> index < |app.vectors3D|
    modifies app
    ensures app.insight == old(app.insight)
    ensures old(app.mode) == TwoD ==>
      app.Current() == old(app.Current()).(vectors2D :=
        old(app.vectors2D)[index := WithAxis2D(old(app.vectors2D[index]), axis, ParsedOrZero(parsed))])
    ensures old(app.mode) == ThreeD ==>
      app.Current() == old(app.Current()).(vectors3D :=
        old(app.vectors3D)[index := WithAxis3D(old(app.vectors3D[index]), axis, ParsedOrZero(parsed))])
  {
    var num := ParsedOrZero(parsed);
    if app.mode == TwoD {
      var newVectors := app.vectors2D;
      newVectors := newVectors[index := WithAxis2D(newVectors[index], axis, num)];
      app.vectors2D := newVectors;
    } else {
      var newVectors := app.vectors3D;
      newVectors := newVectors[index := WithAxis3D(newVectors[index], axis, num)];
      app.vectors3D := newVectors;
    }
  }

  /**
   * After a vector edit the list has the same length, every other vector is
   * as before, and the edited vector keeps its label and colour.
   */
  lemma VectorEditFrame2D(vs: seq<Vector2D>, index: nat, axis: Axis, x: real)
    requires index < |vs| && axis != Z
    ensures var r := vs[index := WithAxis2D(vs[index], axis, x)];
      && |r| == |vs|
      && (forall j | 0 <= j < |vs| && j != index :: r[j] == vs[j])
      && r[index].name == vs[index].name && r[index].color == vs[index].color
  {
  }

  lemma VectorEditFrame3D(vs: seq<Vector3D>, index: nat, axis: Axis, x: real)
    requires index < |vs|
    ensures var r := vs[index := WithAxis3D(vs[index], axis, x)];
      && |r| == |vs|
      && (forall j | 0 <= j < |vs| && j != index :: r[j] == vs[j])
      && r[index].name == vs[index].name && r[index].color == vs[index].color
  {
  }
}
