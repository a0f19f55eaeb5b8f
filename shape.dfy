/**
 * The Polygon of src/shape.js: the same vertex list and drag protocol as
 * the canvas Polygon, without edges or normals.
 *
 * Its constructor's first statement calls `utility.generateGuid()`, where
 * `utility` is src/utility.js, which does not export that name; the call is
 * on `undefined` and throws. `CreateAsWritten` models that; the class below
 * models the constructor as intended, without the identifier.
 */
module Shape {
  import opened Wrappers
  import opened Geometry
  import Drag

  /** The names src/utility.js exports. */
  const UtilityExports: set<string> := {"computeSize", "drawAxis", "drawPolygon"}

  /** Calling a name the imported module does not export: a `TypeError`. */
  datatype CreateError = NotAFunction(name: string)

  /**
   * `new Polygon(context, ...vertices)` as written, against a module that
   * exports `exports`: it throws unless `generateGuid` is among them, and
   * otherwise yields the vertices with no snapshot.
   */
  function CreateAsWritten(exports: set<string>, vertices: seq<Vec>): (r: Result<Drag.PolygonState, CreateError>)
    ensures r.Failure? <==> "generateGuid" !in exports
    ensures r.Failure? ==> r.error == NotAFunction("generateGuid")
    ensures r.Success? ==> r.value == Drag.Created(vertices)
  {
    if "generateGuid" in exports then Success(Drag.Created(vertices))
    else Failure(NotAFunction("generateGuid"))
  }

  /** Against the real src/utility.js, every construction throws, whatever the vertices. */
  lemma ConstructorAlwaysThrows(vertices: seq<Vec>)
    ensures CreateAsWritten(UtilityExports, vertices) == Failure(NotAFunction("generateGuid"))
  {
    assert "generateGuid" != "computeSize" && "generateGuid" != "drawAxis" && "generateGuid" != "drawPolygon";
  }

  class Polygon {
    var vertices: seq<Vec>
    var savedVertices: Option<seq<Vec>>

    /** The drag-protocol view of this polygon. */
    function State(): Drag.PolygonState
      reads this
    {
      Drag.PolygonState(vertices, savedVertices)
    }

    /**
     * `new Polygon(context, ...vertices)` as intended: the vertices as given,
     * no snapshot yet; the identifier line is left out.
     */
    constructor (vertices: seq<Vec>)
      ensures State() == Drag.Created(vertices)
    {
      this.vertices := vertices;
      savedVertices := None;
    }

    /** `saveState()`. */
    method SaveState()
      modifies this
      ensures State() == Drag.SaveState(old(State()))
    {
      savedVertices := Some(vertices);
    }

    /** `move(delta)`; `ok` is false where the source throws, and then nothing changes. */
    method Move(delta: Vec) returns (ok: bool)
      modifies this
      ensures ok == Drag.Move(old(State()), delta).Success?
      ensures State() == if ok then Drag.Move(old(State()), delta).value else old(State())
    {
      match savedVertices
      case None =>
        ok := false;
      case Some(saved) =>
        vertices := Drag.Moved(saved, delta);
        ok := true;
    }
  }

  /**
   * A drag gesture as the canvas drives it: save, then move repeatedly with
   * the same delta; the result is the snapshot shifted once, and the
   * snapshot is the vertex list from before the gesture.
   */
  method DragTwice(p: Polygon, delta: Vec)
    modifies p
    ensures p.savedVertices == Some(old(p.vertices))
    ensures p.vertices == Drag.Moved(old(p.vertices), delta)
  {
    p.SaveState();
    var ok1 := p.Move(delta);
    var ok2 := p.Move(delta);
    assert ok1 && ok2;
  }
}
