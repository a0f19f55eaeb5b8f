/**
 * The two-phase drag protocol shared by both Polygon classes
 * (src/Canvas/shape.js and src/shape.js, whose `saveState` and `move` are
 * identical): `saveState` snapshots the vertex list, and `move(delta)`
 * rebuilds the vertices from that snapshot, adding `delta.x` and
 * subtracting `delta.y` (screen y grows downward, the polygon's y upward).
 */
module Drag {
  import opened Wrappers
  import opened Geometry

  /** `move` dereferences the snapshot; while it is still `null` the call throws. */
  datatype DragError = MissingSnapshot

  /** The part of a Polygon the drag protocol reads and writes. */
  datatype PolygonState = PolygonState(vertices: seq<Vec>, saved: Option<seq<Vec>>)

  /** A freshly constructed polygon: its vertices, and no snapshot. */
  function Created(vertices: seq<Vec>): (r: PolygonState)
    ensures r.vertices == vertices && r.saved == None
  {
    PolygonState(vertices, None)
  }

  /** `saveState()`: the snapshot becomes the current vertex list. */
  function SaveState(s: PolygonState): (r: PolygonState)
    ensures r.saved == Some(s.vertices)
    ensures r.vertices == s.vertices
  {
    s.(saved := Some(s.vertices))
  }

  /** The vertex list `move(delta)` builds from a snapshot. */
  function Moved(saved: seq<Vec>, delta: Vec): (r: seq<Vec>)
    ensures |r| == |saved|
    ensures forall i :: 0 <= i < |saved| ==>
              r[i].x == saved[i].x + delta.x && r[i].y == saved[i].y - delta.y
  {
    Translate(saved, Vec(delta.x, -delta.y))
  }

  /**
   * `move(delta)`: fails exactly when there is no snapshot; otherwise the
   * vertices are rebuilt from the snapshot, which itself is kept.
   */
  function Move(s: PolygonState, delta: Vec): (r: Result<PolygonState, DragError>)
    ensures r.Success? <==> s.saved.Some?
    ensures r.Success? ==> r.value == PolygonState(Moved(s.saved.value, delta), s.saved)
  {
    match s.saved
    case None => Failure(MissingSnapshot)
    case Some(saved) => Success(s.(vertices := Moved(saved, delta)))
  }

  /** A polygon that has never saved its state cannot be moved. */
  lemma FreshPolygonCannotMove(vertices: seq<Vec>, delta: Vec)
    ensures Created(vertices).saved == None
    ensures Move(Created(vertices), delta) == Failure(MissingSnapshot)
  {
  }

  /**
   * After `saveState`, `move(delta)` puts vertex i at
   * (old x + delta.x, old y - delta.y), keeping count and order.
   */
  lemma SaveThenMove(s: PolygonState, delta: Vec)
    ensures Move(SaveState(s), delta).Success?
    ensures var m := Move(SaveState(s), delta).value;
      |m.vertices| == |s.vertices| && m.saved == Some(s.vertices) &&
      forall i :: 0 <= i < |s.vertices| ==>
        m.vertices[i] == Vec(s.vertices[i].x + delta.x, s.vertices[i].y - delta.y)
  {
  }

  /** A later `move` forgets the earlier one: only the snapshot and the last delta matter. */
  lemma MoveForgetsPreviousMove(s: PolygonState, d1: Vec, d2: Vec)
    requires Move(s, d1).Success?
    ensures Move(Move(s, d1).value, d2) == Move(s, d2)
  {
  }

  /** Repeating `move` with the same delta changes nothing. */
  lemma MoveIdempotent(s: PolygonState, delta: Vec)
    requires Move(s, delta).Success?
    ensures Move(Move(s, delta).value, delta) == Move(s, delta)
  {
    MoveForgetsPreviousMove(s, delta, delta);
  }

  /** `move({x: 0, y: 0})` right after `saveState` restores the snapshot exactly. */
  lemma MoveZeroRestores(s: PolygonState)
    ensures Move(SaveState(s), Zero) == Success(SaveState(s))
  {
    assert Moved(s.vertices, Zero) == s.vertices;
  }
}
