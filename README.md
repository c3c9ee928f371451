# Procedural block geometry, modelled in Dafny

This project models the block-geometry code of the Portfolio site's 3D scene, together with its asset-progress bookkeeping:

- **Corner rounding.** `generateShape` turns a rectilinear outline on a grid into a path of quarter-circle arcs.
- **Bevel generator.** `generateBevel` exists in two copies. Each builds `segments` rings of displaced contour vertices at evenly spaced depths and stitches consecutive rings with two triangles per edge.
- **Side-wall extruder.** `generateExtrudedFaces` joins every contour edge at one depth to the same edge at another.
- **Cap unpacking.** `fillContourGetFaces` flattens a triangulation into a triangle soup at one depth.
- **UV projection.** `computeUVs` projects the geometry through its bounding box.
- **Asset tracker.** The record class `_Object` and the tracker keep per-asset and total load progress.

Geometry is a flat *triangle soup*: an array of numbers with three per vertex and nine per triangle (module `Soup`). Each stage that works by pushing onto arrays inside loops is a `method` with loop invariants. Each such method is proved equal to a specification function, and the properties are lemmas about those functions. The tracker and its records update fields in place, so they are classes.

`Math.sqrt` and `Vector2.normalize` stay abstract (`Bevel.Numerics`). The only thing assumed of `sqrt` is that it is exact at 0 and at 1 (`Bevel.SqrtExactAtEndpoints`).

The two `generateBevel` copies differ only in the vertex normal, so one generator serves both, parameterised by `Bevel.NormalRule`:

- `EdgeAverage` models src/src_3d/geometryUtils.js.
- `UnitSum` models src/src_3d/components/objects/tetris.js.

The tetris.js copies of `generateExtrudedFaces` and `fillContourGetFaces` are the same code as the geometryUtils.js ones. They are modelled once, in `GeometryUtils`.

Four behaviours of the code deserve a word:

- **Segment count below 2.** With one segment the code divides by zero, which gives a ring of NaN coordinates and no faces. With 0 or fewer segments it throws a TypeError. The model does not reproduce either outcome; it returns `Failure(SegmentsBelowTwo)` for both (see "Left out").
- **Aspect pair.** The code divides both ranges by the *smaller* one, so the smaller component is 1 and the other is at least 1 (`GeometryUtils.AspectNormalised`).
- **Flipped extrusion.** The code always splits a wall quad along the same diagonal. So extruding by `h` from `z0` and extruding by `-h` from `z0 + h` give different soups, and the two do not differ only in winding either (`GeometryUtils.FlippedExtrusionDiffers`).
- **UV formula.** The code's `u = min.x + x / range.x` is kept as written. The u values then span a unit interval that starts at `min.x + min.x / range.x` rather than at 0 (`GeometryUtils.UInUnitInterval`, `GeometryUtils.UEndsAttained`).

## Model

| member | source | states |
|---|---|---|
| Bevel.GenerateBevel | src/src_3d/geometryUtils.js:65-163 | Fewer than two segments, or a one-vertex contour, give an error. Otherwise the faces are `BevelFaces` (all rings stitched pairwise) and the returned contour is the last ring with its wrap-around copy removed. The tetris.js copy (tetris.js:56-152) is the same generator with `NormalRule.UnitSum`. |
| Bevel.RingVertices | src/src_3d/geometryUtils.js:72-113 | Walking the contour extended by its first two vertices yields exactly ring `iter`: position `k` is `Bevel.RingVertex` of vertex `k + 1` (wrapping), displaced along `Bevel.VertexNormal` of its neighbours `k` and `k + 2` by `Bevel.Profile` times `bevelSize`. |
| Bevel.BuildRings | src/src_3d/geometryUtils.js:70-114 | The first pass yields exactly the `segments` rings `Rings`, in order. |
| Bevel.StitchRings | src/src_3d/geometryUtils.js:116-161 | The second pass closes every ring with a copy of its first vertex. Its faces are the soup of every quad between consecutive rings, ring pair by ring pair, and the closed last ring comes back with them. |
| Bevel.PushQuads | src/src_3d/geometryUtils.js:120-159 | The inner stitching loop appends the soup of the quad of every edge of the ring, in order, to the faces so far. The last edge wraps round to vertex 0 through the copied first vertex. |
| Bevel.QuadNumbers | src/src_3d/geometryUtils.js:138-158 | The 18 numbers pushed per edge are the two triangles of the quad on those four corners (`QuadTriangles`), in either winding. |
| Bevel.Ring | src/src_3d/geometryUtils.js:69-113 | Each ring has exactly one vertex per contour vertex. |
| Bevel.Rings | src/src_3d/geometryUtils.js:70-114 | There are `segments` rings, each with one vertex per contour vertex. |
| Bevel.RingAt | src/src_3d/geometryUtils.js:72-112 | Ring position `k` is contour vertex `(k + 1) mod n`, displaced with neighbours `k` and `(k + 2) mod n`. This is the rotation by one index. |
| Bevel.ProfileAtEnds | src/src_3d/geometryUtils.js:90-104 | All four branches of `Bevel.Profile` give factor 0 at progress 0; at progress 1 they give +1 when `toOut` and −1 otherwise. |
| Bevel.RingDepth | src/src_3d/geometryUtils.js:68-75 | Every vertex of ring `iter` lies at `startZ + bevelHeight * iter / (segments - 1)`. The last ring lies at `startZ + bevelHeight`. |
| Bevel.FirstRingIsContour | src/src_3d/geometryUtils.js:67-112 | For every profile, vertex `k` of ring 0 is contour vertex `k + 1` at depth `startZ`. |
| Bevel.LastRingOffset | src/src_3d/geometryUtils.js:90-108 | On the last ring each `Bevel.RingVertex` is moved by exactly `bevelSize` against its `Bevel.VertexNormal` when `toOut`, and along it otherwise. |
| Bevel.ZeroSizeRingsOnContour | src/src_3d/geometryUtils.js:105-108 | With `bevelSize == 0`, every ring's (x, y) is the contour's, for every profile. |
| Bevel.BevelFacesLength | src/src_3d/geometryUtils.js:117-160 | The bevel soup holds `18 * n * (segments - 1)` numbers. |
| Bevel.BevelQuadAt | src/src_3d/geometryUtils.js:117-160 | Quad `n * (iter - 1) + k` of the bevel is the quad of edge `k` between rings `iter - 1` and `iter`. It uses only vertices `k` and `k + 1` of those two rings, and for `k = n - 1` it wraps to vertex 0. |
| Bevel.BevelFacesAt | src/src_3d/geometryUtils.js:117-160 | The two triangles of that quad sit in the bevel soup at offset `18 * (n * (iter - 1) + k)`. |
| Bevel.QuadsUpToAt | src/src_3d/geometryUtils.js:119-160 | Among the quads of the first `m` rings, the quad of edge `k` between rings `iter - 1` and `iter` is number `n * (iter - 1) + k`. |
| Bevel.TriangulateAt | src/src_3d/geometryUtils.js:138-158 | The soup of a quad list holds the triangles of quad `j` at offset `18 * j`. |
| Bevel.TriangulateReversed | src/src_3d/geometryUtils.js:138-158 | The inverted soup of any quad list is the plain one with every triangle's vertex order reversed. |
| Bevel.BevelWindingReversed | src/src_3d/geometryUtils.js:138-158 | With `invertNormals`, every bevel triangle is the plain one with its vertex order reversed, in the same place. The same holds for the tetris.js copy (tetris.js:127-147). |
| Bevel.QuadsUpToLength | src/src_3d/geometryUtils.js:119-160 | The first `m` rings give `n * (m - 1)` quads: one per edge per ring pair. |
| Bevel.NoQuadsWithoutVertices | src/src_3d/geometryUtils.js:118-121 | An empty contour gives no quads. |
| GeometryUtils.GenerateExtrudedFaces | src/src_3d/geometryUtils.js:165-200 | The result is the wall over every edge of the closed contour, from `startZ` to `startZ + extrudeHeight`, last edge wrapping to the first. An empty contour gives nothing. The tetris.js copy (tetris.js:154-189) is identical. |
| GeometryUtils.WallNumbers | src/src_3d/geometryUtils.js:177-197 | The 18 numbers pushed per edge are `WallQuad`'s two triangles, in either winding. |
| GeometryUtils.ExtrudedWallAt | src/src_3d/geometryUtils.js:166-198 | The extruder emits `18 * n` numbers. The wall of edge `k`, from vertex `k` to the next with wrap-around, sits at offset `18 * k`. |
| GeometryUtils.ExtrudedVertex | src/src_3d/geometryUtils.js:168-186 | Every vertex has z equal to `startZ` or `startZ + extrudeHeight`. Its (x, y) is an end of the edge it belongs to. |
| GeometryUtils.WallsWindingReversed | src/src_3d/geometryUtils.js:177-197 | With `invertNormals`, every wall triangle is the plain one with its vertex order reversed. |
| GeometryUtils.WallsLength | src/src_3d/geometryUtils.js:168-198 | The first `m` edges give `18 * m` numbers. |
| GeometryUtils.FlippedExtrusionDiffers | src/src_3d/geometryUtils.js:165-199 | Extruding up from `z0` and down from `z0 + h` give different soups, and not ones that differ only in winding. |
| GeometryUtils.FillContourGetFaces | src/src_3d/geometryUtils.js:38-63 | The result is every indexed triangle of the triangulation, in order, at depth `startZ`, reversed under `invertNormals`. The tetris.js copy (tetris.js:29-54) is identical. |
| GeometryUtils.CapNumbers | src/src_3d/geometryUtils.js:45-59 | The nine numbers pushed for an index triple are the triangle on those three vertices at depth `startZ` (`CapTriangle`), in either winding. |
| GeometryUtils.CapFacesLength | src/src_3d/geometryUtils.js:44-61 | The cap holds nine numbers per index triple. |
| GeometryUtils.CapTriangleAt | src/src_3d/geometryUtils.js:44-60 | Triangle `t` of the cap is triangulation triangle `t`. |
| GeometryUtils.CapVertexAt | src/src_3d/geometryUtils.js:45-53 | The plain-winding cap holds three numbers per index. Its vertex `v` has the (x, y) of triangulation vertex `indices[v]` and z equal to `startZ`. |
| GeometryUtils.CapWindingReversed | src/src_3d/geometryUtils.js:48-59 | With `invertNormals`, every cap triangle is the plain one with its vertex order reversed. |
| GeometryUtils.Geometry.ComputeUVs | src/src_3d/geometryUtils.js:5-25 | Stores the bounding box, marks the UVs for update, and writes one (u, v) pair per vertex with `u = min.x + x / range.x`, `v = min.y + y / range.y`. Returns the aspect pair. An empty geometry or a flat box is an error. |
| GeometryUtils.ProjectUVs | src/src_3d/geometryUtils.js:13-18 | The projection loop yields one (u, v) pair per vertex, in vertex order (`UVs`). |
| GeometryUtils.AxisMin | src/src_3d/geometryUtils.js:8-9 | The box minimum on an axis is at most every vertex's coordinate there and is attained by one of them. |
| GeometryUtils.AxisMax | src/src_3d/geometryUtils.js:8-10 | The box maximum on an axis is at least every vertex's coordinate there and is attained by one of them. |
| GeometryUtils.BoundingBox | src/src_3d/geometryUtils.js:8-10 | The box is empty exactly when there are no vertices. |
| GeometryUtils.BoundingBoxOrdered | src/src_3d/geometryUtils.js:8-11 | Every range of a non-empty box is non-negative. |
| GeometryUtils.UVsLength | src/src_3d/geometryUtils.js:13-18 | Two UV numbers come out per vertex (per three position numbers). |
| GeometryUtils.UVAt | src/src_3d/geometryUtils.js:13-17 | Vertex `i`'s u is at index `2 * i` and its v at `2 * i + 1`. |
| GeometryUtils.UInUnitInterval | src/src_3d/geometryUtils.js:14 | Every u lies in a unit-length interval starting at `min.x + min.x / range.x`. |
| GeometryUtils.UEndsAttained | src/src_3d/geometryUtils.js:14 | Both ends of that interval are attained, at vertices of least and of greatest x. |
| GeometryUtils.AspectNormalised | src/src_3d/geometryUtils.js:23-24 | Both aspect components are at least 1, and the smaller one is exactly 1. |
| Tetris.CornerArc | src/src_3d/components/objects/tetris.js:230-264 | A corner gets an arc exactly when it has an approach direction and a turn. The arc has radius 15, its centre is ±15 from the scaled corner on each axis, and it sweeps one quarter, clockwise exactly when its end angle is below its start angle. It starts on the incoming edge 15 before the corner and ends on the outgoing edge 15 after it, clockwise exactly for a clockwise turn. |
| Tetris.CornerArcAsWritten | src/src_3d/components/objects/tetris.js:232-264 | The code's 8-case table. It gives an arc exactly when the corrected one does. Every arc has radius 15 and whole-quarter angles, its centre is ±15 from the scaled corner on each axis, and it sweeps one quarter, clockwise exactly when its end angle is below its start angle. |
| Tetris.AsWrittenDiffersOnlyRisingThenLeft | src/src_3d/components/objects/tetris.js:232-239 | The code's table differs from the corrected one only for a rising approach followed by a turn to decreasing x. |
| Tetris.AsWrittenRisingThenLeftIsNoFillet | src/src_3d/components/objects/tetris.js:238 | At every corner reached rising and left towards decreasing x, the code's arc runs from (pX + 15, pY) to (pX + 30, pY − 15). Its start is not on the incoming edge x = pX but is exactly where the corrected fillet ends. At (1, 1) this is (−35, 50) to (−20, 35). |
| Tetris.AsWrittenShapeAgrees | src/src_3d/components/objects/tetris.js:221-267 | The rounding loop with the code's table (`ShapeArcsAsWritten`) and with the corrected one give paths of equal length. The paths are equal if and only if no corner rises and then turns left. |
| Tetris.GenerateShape | src/src_3d/components/objects/tetris.js:221-267 | The path holds, in contour order, the arc of every corner that turns. The corner at ring position `k` is vertex `k + 1` with neighbours `k` and `k + 2`, wrapping. |
| Tetris.ShapeArcsBound | src/src_3d/components/objects/tetris.js:224-225 | At most one arc is emitted per contour vertex. |
| Tetris.ShapeArcsMembership | src/src_3d/components/objects/tetris.js:225-264 | An arc is on the path if and only if it is the arc of some corner. |
| Tetris.ShapeArcsAllCorners | src/src_3d/components/objects/tetris.js:225-264 | If every corner turns, there are exactly `n` arcs. |
| Tetris.BlockContourRoundsEveryCorner | src/src_3d/components/objects/tetris.js:273 | Every corner of the configured block outline is rounded: 8 arcs. |
| Tetris.BlockContourAsWrittenAgrees | src/src_3d/components/objects/tetris.js:221-273 | For the configured block outline, the code's table draws the same path as the corrected one. |
| Tetris.GenerateBeveledShape | src/src_3d/components/objects/tetris.js:191-219 | The block's faces are the back bevel of the outline: size 10, height 10, 10 rings, from depth 0, no flags. A one-vertex outline is an error. |
| Tetris.BeveledShapeSize | src/src_3d/components/objects/tetris.js:196 | That soup has `162 * n` numbers, and its last ring lies at depth 10. |
| AssetsTracker.Ratio | src/src_3d/AssetsTrackerLoader.js:76 | A quotient is non-finite exactly when the divisor is 0; otherwise it times the divisor gives the dividend. |
| AssetsTracker.SetLoadedStep | src/src_3d/AssetsTrackerLoader.js:66-77 | An `undefined` argument leaves its field unchanged. The record becomes loaded once `loaded >= total` and is never unloaded. The progress is `loaded / total`. |
| AssetsTracker.LoadedIsSticky | src/src_3d/AssetsTrackerLoader.js:73-75 | Once loaded, a record stays loaded through any sequence of reports. |
| AssetsTracker.LoadedAfterCompletion | src/src_3d/AssetsTrackerLoader.js:73-75 | After a report that brings `loaded` up to `total`, the record is loaded whatever follows. |
| AssetsTracker.LoadRecord.constructor | src/src_3d/AssetsTrackerLoader.js:56-65 | A new record has nothing loaded and progress 0. It is not loaded, and a missing size defaults to 1 MiB. |
| AssetsTracker.LoadRecord.SetLoaded | src/src_3d/AssetsTrackerLoader.js:66-77 | The record's new state is `SetLoadedStep` of the old one; its asset is unchanged. |
| AssetsTracker.LoadRecord.SetFullyLoaded | src/src_3d/AssetsTrackerLoader.js:78-80 | Reports the whole size as loaded. |
| AssetsTracker.FullyLoaded | src/src_3d/AssetsTrackerLoader.js:78-80 | After `setFullyLoaded`, `loaded == total` and the record is loaded; its progress is 1 unless its size is 0. |
| AssetsTracker.Tracker.constructor | src/src_3d/AssetsTrackerLoader.js:84-92 | A new tracker has empty sets and zero totals. |
| AssetsTracker.Tracker.BeginLoad | src/src_3d/AssetsTrackerLoader.js:101-102 | A fresh record with default size joins the records; nothing else changes. |
| AssetsTracker.Tracker.OnProgress | src/src_3d/AssetsTrackerLoader.js:110-113 | The record takes the report and keeps its asset, and the totals are recomputed over all current records. The record need not still be one of them, since `disposeAll` may have cleared them. |
| AssetsTracker.Tracker.OnLoad | src/src_3d/AssetsTrackerLoader.js:105-107 | The record becomes fully loaded and holds the loaded asset, whether or not it is still among the records. The totals are not recomputed, so the totals and `totalProgress` keep their previous values. |
| AssetsTracker.Tracker.Track | src/src_3d/AssetsTrackerLoader.js:126-129 | Adds the object to the tracked set and returns it. Nothing else changes. |
| AssetsTracker.Tracker.TrackArray | src/src_3d/AssetsTrackerLoader.js:131-134 | Adds only the array's first object (`undefined` for an empty array) and returns the whole array. |
| AssetsTracker.Tracker.DisposeAll | src/src_3d/AssetsTrackerLoader.js:136-146 | Empties both sets, zeroes both totals and sets the total progress to 1. |
| AssetsTracker.Tracker.GetObjects | src/src_3d/AssetsTrackerLoader.js:148-152 | Returns exactly the set of the records' assets. |
| AssetsTracker.Tracker.UpdateTotalLoadedProgress | src/src_3d/AssetsTrackerLoader.js:154-162 | `totalSize` is the sum of the records' sizes and `totalLoaded` the sum of their loaded amounts. `totalProgress` is their ratio, and exactly 1 when every record is completely loaded and the sizes do not sum to 0. |
| AssetsTracker.SumsAgreeWhenAllLoaded | src/src_3d/AssetsTrackerLoader.js:157-160 | When every record is completely loaded, the two sums are equal. |
| AssetsTracker.AllLoadedMeansComplete | src/src_3d/AssetsTrackerLoader.js:154-162 | When every record is completely loaded and the sizes do not sum to 0, the ratio `_updateTotalLoadedProgress` assigns over those records is exactly 1. |

## Left out

- **Triangulation.** `ShapeGeometry`'s triangulation is a foreign library. Its position and index arrays are inputs to `GeometryUtils.FillContourGetFaces`, and only a consistent triangulation is accepted (`ValidTriangulation`).
- **Mesh assembly.** `transformFacesToGeometry` calls the foreign `computeVertexNormals`. The model stops at the position array handed to it.
- **Numerics.** `Math.sqrt` and `Vector2.normalize` are abstract functions, so nothing is claimed about unit length or corner geometry. All arithmetic is on exact reals: floating-point rounding, the 32-bit storage of positions and UVs, and NaN propagation are not modelled.
- **Arc sampling.** `Shape.absarc` and `extractPoints` are foreign. Arcs are records of whole quarter angles, and the sampled outline the bevel receives is an input to `Tetris.GenerateBeveledShape`.
- **Scene assembly.** The `createTetris` scene (materials, meshes, sphere, positions) and the commented-out stages of `generateBeveledShape` are not modelled.
- **Debug output.** The `console.log` calls in `generateShape` have no effect on the result.
- **Asset loading.** The asynchronous `load` and `loadArray`, `AjaxTextureLoader`, the cache, the promise and the error callback are I/O. Only their bookkeeping is modelled: `Tracker.BeginLoad`, `Tracker.OnProgress` and `Tracker.OnLoad`.
- **Dispose calls.** `disposeAll`'s per-object `dispose()` calls reach into foreign objects and are left out. The tracked set is a `set`, so the order in which it would call `dispose` is not modelled.
- Bevel.GenerateBevel: for fewer than two segments the code does not fail. It yields NaN coordinates for one segment and throws for fewer. The model returns `Failure(SegmentsBelowTwo)` instead of modelling those values.
- Bevel.GenerateBevel: for a one-vertex contour the code throws a TypeError, which the model reports as `Failure(SingleVertexContour)`.
- GeometryUtils.Geometry.ComputeUVs: for a box with zero x or y range, the code writes Infinity or NaN UVs and returns a non-finite aspect pair. The model returns `Failure(FlatBox)` and leaves `uv` as it was.
- GeometryUtils.Geometry.ComputeUVs: the empty box three.js stores for a geometry without vertices is `None`, and the NaN aspect pair it returns is `Failure(EmptyGeometry)`.
- Tetris.GenerateShape: it uses the corrected corner table `Tetris.CornerArc` (see Findings). The code's table is `Tetris.CornerArcAsWritten`, which differs in one case only. The loop's result with the code's table is the function `Tetris.ShapeArcsAsWritten`; `Tetris.AsWrittenShapeAgrees` relates the two.
- AssetsTracker.Tracker.UpdateTotalLoadedProgress: the code adds into the fields record by record; the model sums into locals and assigns the fields once. Nothing else runs during the loop, so the final state is the same.
- AssetsTracker.Tracker.OnLoad: as in the code, finishing a load does not recompute the totals. After a load that ends with a partial progress report followed by the load callback, `totalProgress` stays below 1 until some other report recomputes it.
- AssetsTracker.LoadRecord.SetLoaded: comparisons involving NaN are not modelled. A load report is a pair of optional reals.

## Findings

| source | as written | input that shows it | evidently intended | confidence | as-written member | corrected member |
|---|---|---|---|---|---|---|
| src/src_3d/components/objects/tetris.js:238 | The "to Top, then Left" corner draws its arc from angle π/2 to angle 0 around centre (pX + r, pY − r). The arc therefore starts where it should end and finishes off both edges. | The contour rises from (1, 0) to (1, 1) and turns to (0, 1). The arc runs from (−35, 50) to (−20, 35), while the fillet of that corner runs from (−50, 35) to (−35, 50). | From π to π/2, clockwise, like the other seven cases: it starts on the incoming edge and ends on the outgoing edge. | not executed; high: the other seven cases all form tangent fillets | Tetris.CornerArcAsWritten, Tetris.AsWrittenRisingThenLeftIsNoFillet | Tetris.CornerArc |
