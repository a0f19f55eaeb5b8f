# Polygon model of sat-collision

This project models the geometric core of a small web app that draws
convex polygons and demonstrates the Separating Axis Theorem. The modelled
part is the `Polygon` class. It keeps an ordered vertex list, which is read
as a closed polygon. It derives the edge vectors and their perpendicular
normals. It supports a two-phase drag: `saveState` snapshots the
vertices, and `move(delta)` rebuilds them from the snapshot. The model also
covers `generateGuid`, which builds the polygon's 36-character identifier.

Modules, one per source file or shared concept:

- `Wrappers` (wrappers.dfy): `Option` (the source's `null`) and `Result`.
- `Geometry` (geometry.dfy): plane vectors with exact `real` coordinates,
  plus subtraction, the perpendicular `(-y, x)`, translation and vector sums.
- `Drag` (drag.dfy): the drag protocol as a pure state transition. Both
  `shape.js` files share it because their `saveState` and `move` are
  identical. Calling `move` before `saveState` throws in the source
  (`null.map`). Here it is a `Failure(MissingSnapshot)` that leaves the
  state unchanged.
- `CanvasShape` (canvas_shape.dfy): the Polygon of `src/Canvas/shape.js`.
  It has the `EdgesOf`/`NormalsOf` specification functions, their lemmas,
  and a class whose `Edges` loop and drag methods are proved against them.
- `Shape` (shape.dfy): the Polygon of `src/shape.js`,
  which has only the drag protocol.
- `Guid` (guid.dfy): `generateGuid` as a loop over 32 digits. The digits
  are passed in. The module also has an inverse parser and layout lemmas.

Facts about the code that shape the model:

- The normals are the raw perpendiculars `(-ey, ex)` of the edges
  (src/Canvas/shape.js:77). They are not scaled to unit length.
- The code has no axis canonicalisation or deduplication, no projection
  cache, and no overlap test between polygons.
- No end-drag step clears `_saved_vertices`. Once saved, a snapshot
  stays until the next `saveState`.
- Nothing checks the vertex count or looks for repeated consecutive
  vertices. The model accepts any vertex list, including an empty one,
  for which `edges()` is empty.
- The constructor in `src/shape.js` calls `utility.generateGuid()`, which
  `src/utility.js` does not export, so it throws (see Findings).

## Model

| member | source | states |
|---|---|---|
| `Geometry.Perp` | src/Canvas/shape.js:77 | the normal `(-y, x)` is orthogonal to its edge, has the same squared length, and is the counter-clockwise quarter turn |
| `Geometry.Sub` | src/Canvas/shape.js:67-70 | an edge vector added to its start vertex gives its end vertex |
| `Geometry.Translate` | src/Canvas/shape.js:24-26 | every vertex is shifted by the same vector, and count and order are kept |
| `Geometry.SumAppend` | src/Canvas/shape.js:64-71 | the vector sum of a concatenation is the sum of the parts (used for closure) |
| `Drag.Created` | src/Canvas/shape.js:5-9 | a new polygon holds the given vertices and no snapshot |
| `Drag.Moved` | src/Canvas/shape.js:23-27 | the moved list has the snapshot's length, and vertex i is (saved x + delta.x, saved y − delta.y) |
| `Drag.Move` | src/Canvas/shape.js:23-27 | `move` succeeds exactly when a snapshot exists; then the vertices are the moved snapshot and the snapshot is kept |
| `Drag.FreshPolygonCannotMove` | src/Canvas/shape.js:9 | a new polygon has no snapshot, and `move` on it is the `null.map` error |
| `Drag.SaveState` | src/Canvas/shape.js:19-21 | `saveState` makes the snapshot equal the current vertices and leaves the vertices alone |
| `Drag.SaveThenMove` | src/shape.js:23-27 | after `saveState`, `move(d)` maps each vertex (x, y) to (x + d.x, y − d.y), keeping count and order, and keeps the snapshot |
| `Drag.MoveForgetsPreviousMove` | src/Canvas/shape.js:24 | `move` reads only the snapshot, so a later `move(d2)` gives the same state whatever `move` came before |
| `Drag.MoveIdempotent` | src/shape.js:24-26 | calling `move(d)` twice gives the same state as calling it once |
| `Drag.MoveZeroRestores` | src/shape.js:25 | `move({x:0, y:0})` right after `saveState` restores the snapshot exactly |
| `CanvasShape.Next` | src/Canvas/shape.js:66 | the index `(i + 1) % N` is the next vertex, wrapping from the last back to 0 |
| `CanvasShape.EdgesOf` | src/Canvas/shape.js:62-73 | there are as many edges as vertices, and edge i leads from vertex i to vertex (i+1) mod N, so the last edge returns to vertex 0 |
| `CanvasShape.NormalsOf` | src/Canvas/shape.js:76-78 | one normal per edge, in edge order, each orthogonal to its edge, as long as it, and turned counter-clockwise |
| `CanvasShape.StepsTelescope` | src/Canvas/shape.js:64-71 | the steps of the open chain through the vertices add up to last vertex minus first |
| `CanvasShape.EdgesClose` | src/Canvas/shape.js:64-71 | the edges of any vertex list sum to the zero vector, so the polygon is closed |
| `CanvasShape.TranslationInvariant` | src/Canvas/shape.js:60-78 | translating all vertices by one vector leaves the edges and normals unchanged |
| `CanvasShape.MoveKeepsEdgesAndNormals` | src/Canvas/shape.js:25 | after a successful `move`, the edges and normals equal those of the saved vertices |
| `CanvasShape.Polygon.constructor` | src/Canvas/shape.js:5-13 | the identifier has the GUID layout for the given digits, the vertices are as given, and there is no snapshot |
| `CanvasShape.Polygon.SaveState` | src/Canvas/shape.js:19-21 | the new state is the saved state of the old one, and the identifier is unchanged |
| `CanvasShape.Polygon.Move` | src/Canvas/shape.js:23-27 | `ok` is true exactly when a snapshot exists; then the vertices are the moved snapshot, otherwise nothing changes |
| `CanvasShape.Polygon.Edges` | src/Canvas/shape.js:60-74 | the loop returns exactly `EdgesOf` of the current vertices |
| `CanvasShape.Polygon.Normals` | src/Canvas/shape.js:76-78 | returns exactly `NormalsOf` of the current vertices |
| `Shape.CreateAsWritten` | src/shape.js:1-9 | construction throws exactly when the imported module does not export `generateGuid`; otherwise the vertices are as given with no snapshot |
| `Shape.ConstructorAlwaysThrows` | src/shape.js:6 | against the exports of src/utility.js, every construction fails with the `generateGuid` TypeError |
| `Shape.Polygon.constructor` | src/shape.js:5-13 | as intended without line 6: the vertices are as given, and there is no snapshot |
| `Shape.Polygon.SaveState` | src/shape.js:19-21 | the new state is the saved state of the old one |
| `Shape.Polygon.Move` | src/shape.js:23-27 | `ok` is true exactly when a snapshot exists; then the vertices are the moved snapshot, otherwise nothing changes |
| `Shape.DragTwice` | src/shape.js:19-27 | `saveState` then `move(d)` twice leaves the snapshot as the old vertices and the vertices as the snapshot moved once |
| `Guid.HexChar` | src/Canvas/utility.js:169 | a digit below 16 becomes one upper-case hex character that reads back as the same digit |
| `Guid.HexValue` | src/Canvas/utility.js:169 | a character has a digit value exactly when it is one of `0-9A-F` |
| `Guid.DigitIndex` | src/Canvas/utility.js:164-171 | every non-hyphen position of the identifier holds one of the 32 digits |
| `Guid.GenerateGuid` | src/Canvas/utility.js:160-174 | the result has length 36, hyphens exactly at positions 8, 13, 18 and 23, and digit j, upper-cased, at its slot |
| `Guid.ParseGuid` | src/Canvas/utility.js:164-171 | whatever it accepts has the identifier layout for the digits it returns |
| `Guid.GuidRoundTrip` | src/Canvas/utility.js:164-171 | parsing an identifier gives back the digits it was made from |
| `Guid.GuidInjective` | src/Canvas/utility.js:164-171 | two digit sequences that give the same identifier are equal |
| `Guid.HyphensInPrefix` | src/Canvas/utility.js:165-167 | the first k characters hold one hyphen per hyphen position below k |
| `Guid.GuidCharacters` | src/Canvas/utility.js:164-173 | an identifier has exactly 4 hyphens and 32 characters from `0-9A-F` |

## Left out

- Canvas drawing is not modelled: `Polygon.create`, `draw` and `hover`, `drawAxis`, `drawPolygon` and `drawNormals`. These are calls on a 2D context and `Path2D`, with no result to check.
- The React components and their event handlers are not modelled. This covers the canvas, the drawer and the app, with their mouse, touch, wheel and resize handling.
- The screen-size helpers are not modelled. They read `window` and a floating-point pixel ratio.
- `Math.random` is not modelled. `generateGuid` and the canvas Polygon's constructor take the 32 random digits as a parameter.
- Shape.Polygon.constructor: models the constructor as if src/shape.js:6 were absent, so it has no identifier. As written, that line throws a TypeError on every call, so no `Shape.Polygon` is ever built and its `saveState` and `move` are never reached. `Shape.CreateAsWritten` and `Shape.ConstructorAlwaysThrows` model and prove that behaviour (see Findings).
- The constructor's `context` argument and the `shape` field are not modelled. Only the drawing code uses them.
- Floating point is not modelled. Coordinates are exact reals. Two results hold only under that exact arithmetic, because rounding in the source's doubles can break them. The first is closure (`CanvasShape.EdgesClose`). The second is translation invariance (`CanvasShape.TranslationInvariant`, `CanvasShape.MoveKeepsEdgesAndNormals`). The idempotence of `move` and the orthogonality of each normal to its edge do not depend on rounding. `move` recomputes from the unchanged snapshot, and `(-ey)*ex + ex*ey` is exactly zero in doubles too.
- Aliasing is not modelled. `saveState` stores the same array object as `vertices`. Vertex lists are values here. This loses nothing, because `move` always builds a new array and nothing mutates a vertex list in place.

## Findings

| source | as written | input that shows it | evidently intended | confidence | as-written member | corrected member |
|---|---|---|---|---|---|---|
| src/shape.js:6 | the constructor calls `utility.generateGuid()`, and src/utility.js exports only `computeSize`, `drawAxis` and `drawPolygon`, so the call is on `undefined` and throws a TypeError | `new Polygon(context, [0, 0], [1, 0], [0, 1])`, and likewise any other vertices | the polygon is built with its vertices and no snapshot, as the identical class in src/Canvas/shape.js does | not executed; follows from the export list of src/utility.js | `Shape.CreateAsWritten`, `Shape.ConstructorAlwaysThrows` | `Shape.Polygon.constructor` |
