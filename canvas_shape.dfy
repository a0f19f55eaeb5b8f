/**
 * The Polygon of src/Canvas/shape.js: an ordered vertex list read as a
 * closed polygon, its edge vectors and their (not normalised)
 * perpendiculars, the drag protocol, and an identifier from
 * `generateGuid`.
 */
module CanvasShape {
  import opened Wrappers
  import opened Geometry
  import Drag
  import Guid

  /** The vertex after vertex `i` of `n`, as `(i + 1) % N` picks it: the first one after the last. */
  function Next(i: int, n: int): (j: int)
    requires 0 <= i < n
    ensures j == if i + 1 < n then i + 1 else 0
  {
    (i + 1) % n
  }

  /**
   * The edges of the closed polygon through `vs`: as many as there are
   * vertices, edge i leading from vertex i to vertex (i + 1) mod N, so the
   * last edge returns to vertex 0.
   */
  function EdgesOf(vs: seq<Vec>): (es: seq<Vec>)
    ensures |es| == |vs|
    ensures forall i :: 0 <= i < |vs| ==> Add(vs[i], es[i]) == vs[Next(i, |vs|)]
  {
    seq(|vs|, i requires 0 <= i < |vs| => Sub(vs[Next(i, |vs|)], vs[i]))
  }

  /**
   * The normals: one per edge, in edge order, each orthogonal to its edge,
   * as long as it, and a counter-clockwise quarter turn of it.
   */
  function NormalsOf(vs: seq<Vec>): (ns: seq<Vec>)
    ensures |ns| == |vs|
    ensures var es := EdgesOf(vs);
      forall i :: 0 <= i < |vs| ==>
        Dot(ns[i], es[i]) == 0.0 && Dot(ns[i], ns[i]) == Dot(es[i], es[i]) &&
        Cross(es[i], ns[i]) == Dot(es[i], es[i])
  {
    var es := EdgesOf(vs);
    seq(|es|, i requires 0 <= i < |es| => Perp(es[i]))
  }

  /** The open chain of steps vs[0] -> vs[1] -> ... -> vs[N-1]. */
  function Steps(vs: seq<Vec>): (r: seq<Vec>)
    requires |vs| >= 1
    ensures |r| == |vs| - 1
  {
    seq(|vs| - 1, i requires 0 <= i < |vs| - 1 => Sub(vs[i + 1], vs[i]))
  }

  lemma {:induction false} StepsTelescope(vs: seq<Vec>)
    requires |vs| >= 1
    ensures Sum(Steps(vs)) == Sub(vs[|vs| - 1], vs[0])
  {
    if |vs| > 1 {
      assert Steps(vs) == [Sub(vs[1], vs[0])] + Steps(vs[1..]);
      StepsTelescope(vs[1..]);
    } else {
      assert Steps(vs) == [];
    }
  }

  /** The edges of any vertex list add up to the zero vector: the polygon is closed. */
  lemma EdgesClose(vs: seq<Vec>)
    ensures Sum(EdgesOf(vs)) == Zero
  {
    if vs != [] {
      var n := |vs|;
      var last := [Sub(vs[0], vs[n - 1])];
      assert EdgesOf(vs) == Steps(vs) + last;
      SumAppend(Steps(vs), last);
      StepsTelescope(vs);
      assert Sum(last) == Sub(vs[0], vs[n - 1]);
    }
  }

  /** Translating every vertex by the same vector changes neither the edges nor the normals. */
  lemma TranslationInvariant(vs: seq<Vec>, t: Vec)
    ensures EdgesOf(Translate(vs, t)) == EdgesOf(vs)
    ensures NormalsOf(Translate(vs, t)) == NormalsOf(vs)
  {
    var ws := Translate(vs, t);
    forall i | 0 <= i < |vs|
      ensures EdgesOf(ws)[i] == EdgesOf(vs)[i]
    {
      var j := Next(i, |vs|);
      assert ws[j] == Add(vs[j], t) && ws[i] == Add(vs[i], t);
    }
  }

  /** A successful `move` leaves the edges and normals those of the snapshot. */
  lemma MoveKeepsEdgesAndNormals(s: Drag.PolygonState, delta: Vec)
    requires Drag.Move(s, delta).Success?
    ensures EdgesOf(Drag.Move(s, delta).value.vertices) == EdgesOf(s.saved.value)
    ensures NormalsOf(Drag.Move(s, delta).value.vertices) == NormalsOf(s.saved.value)
  {
    var t := Vec(delta.x, -delta.y);
    assert Drag.Move(s, delta).value.vertices == Translate(s.saved.value, t);
    TranslationInvariant(s.saved.value, t);
  }

  class Polygon {
    var identifier: string
    var vertices: seq<Vec>
    var savedVertices: Option<seq<Vec>>

    /** The drag-protocol view of this polygon. */
    function State(): Drag.PolygonState
      reads this
    {
      Drag.PolygonState(vertices, savedVertices)
    }

    /** `new Polygon(context, ...vertices)`, with the identifier's random digits as a parameter. */
    constructor (digits: seq<Guid.HexDigit>, vertices: seq<Vec>)
      requires |digits| == 32
      ensures Guid.IsGuidFor(identifier, digits)
      ensures State() == Drag.Created(vertices)
    {
      var id := Guid.GenerateGuid(digits);
      identifier := id;
      this.vertices := vertices;
      savedVertices := None;
    }

    /** `saveState()`. */
    method SaveState()
      modifies this
      ensures State() == Drag.SaveState(old(State()))
      ensures identifier == old(identifier)
    {
      savedVertices := Some(vertices);
    }

    /** `move(delta)`; `ok` is false where the source throws, and then nothing changes. */
    method Move(delta: Vec) returns (ok: bool)
      modifies this
      ensures ok == Drag.Move(old(State()), delta).Success?
      ensures State() == if ok then Drag.Move(old(State()), delta).value else old(State())
      ensures identifier == old(identifier)
    {
      match savedVertices
      case None =>
        ok := false;
      case Some(saved) =>
        vertices := Drag.Moved(saved, delta);
        ok := true;
    }

    /** `edges()`: the loop that pushes one edge per vertex. */
    method Edges() returns (es: seq<Vec>)
      ensures es == EdgesOf(vertices)
    {
      es := [];
      var n := |vertices|;
      for i := 0 to n
        invariant es == EdgesOf(vertices)[..i]
      {
        es := es + [Sub(vertices[(i + 1) % n], vertices[i])];
      }
    }

    /** `normals()`: the perpendicular `(-y, x)` of each edge. */
    method Normals() returns (ns: seq<Vec>)
      ensures ns == NormalsOf(vertices)
    {
      var es := Edges();
      ns := seq(|es|, i requires 0 <= i < |es| => Perp(es[i]));
    }
  }
}
