/**
 * Plane vectors as the polygon code uses them: a vertex is a two-element
 * array `[x, y]`, a drag delta an object `{x, y}`. Coordinates are exact
 * reals; the source only adds and subtracts them.
 */
module Geometry {

  /** A point or a vector of the plane. */
  datatype Vec = Vec(x: real, y: real)

  const Zero: Vec := Vec(0.0, 0.0)

  function Add(a: Vec, b: Vec): Vec {
    Vec(a.x + b.x, a.y + b.y)
  }

  /** The vector from `b` to `a`: adding it to `b` lands on `a`. */
  function Sub(a: Vec, b: Vec): (r: Vec)
    ensures Add(b, r) == a
  {
    Vec(a.x - b.x, a.y - b.y)
  }

  function Dot(a: Vec, b: Vec): real {
    a.x * b.x + a.y * b.y
  }

  /** The z-component of the cross product; positive when `b` is counter-clockwise of `a`. */
  function Cross(a: Vec, b: Vec): real {
    a.x * b.y - a.y * b.x
  }

  /**
   * The perpendicular `(-y, x)`: a quarter turn counter-clockwise. It is
   * orthogonal to `v`, has the same (squared) length, and turns the
   * positive way, which together pin it down.
   */
  function Perp(v: Vec): (r: Vec)
    ensures Dot(r, v) == 0.0
    ensures Dot(r, r) == Dot(v, v)
    ensures Cross(v, r) == Dot(v, v)
  {
    Vec(-v.y, v.x)
  }

  /** Every point of `vs` shifted by `t`, in the same order. */
  function Translate(vs: seq<Vec>, t: Vec): (r: seq<Vec>)
    ensures |r| == |vs|
    ensures forall i :: 0 <= i < |vs| ==> Sub(r[i], vs[i]) == t
  {
    seq(|vs|, i requires 0 <= i < |vs| => Add(vs[i], t))
  }

  /** The vector sum of a sequence of vectors. */
  function Sum(vs: seq<Vec>): Vec {
    if vs == [] then Zero else Add(vs[0], Sum(vs[1..]))
  }

  lemma {:induction false} SumAppend(a: seq<Vec>, b: seq<Vec>)
    ensures Sum(a + b) == Add(Sum(a), Sum(b))
  {
    if a == [] {
      assert a + b == b;
    } else {
      assert (a + b)[1..] == a[1..] + b;
      SumAppend(a[1..], b);
    }
  }
}
