# geo-three core, modelled in Dafny

This project models the self-contained cores of the geo-three map renderer (TypeScript, three.js) and proves properties of them:

- **The circle uniform pool** (`ShaderUniforms`, module `Uniforms`). It is a fixed-length array of `limit` circle records shared with the map shader, plus a live counter that is mirrored into the shader's dictionary. A map sends opaque identities to record *objects*. The module covers creation, field updates, splice-and-push removal, first-shader-wins setup and the queue of waiters released by setup.
- **The path stroker** (`makePathGeometry`, module `PathStroke`). A path of points becomes a constant-width triangle mesh: a start cap, a mitered joint at every interior point and an end cap, with a side tag per vertex. Its older two-step prototype is `PathGeometry.shapeGeometry`, in module `Geometries`.
- **The line algebra and vector helpers** of `geometries.ts` (`Line.withPoints`, `intersection`, `test`, `v.add`, `v.diff`), and the memoised `shapeGeometry` getters of `PathGeometry` and `PolygonGeometry`.
- **The world-to-texel linear map** (`wordSpaceTexelFunction`) and the texel bounding box (`numberSpace.geometryWorldTexels`).
- **The height-tile node** (`MapHeightNode`): its start flags, visibility gated on both loads, child addressing and placement, the identity string, and raycasting gated on `isMesh`.
- **Small stateful helpers:**
  - `Geoposition`, with its lazy caches;
  - `editLines`, which splits a shader on '\n', edits the lines and joins them back;
  - the `ModelUpdateLoop` list of per-frame handlers.

## Modelling choices

- Numbers are `real`.
- Collaborators the core only calls become function-valued parameters and are left uninterpreted:
  - `makeWings` (atan2/cos/sin);
  - `transform.vertex` (the world-to-frame map);
  - `UnitsUtils.datumsToSpherical`.
- Thrown errors become `Failure`/`Fail` values carrying the error message. A read of a property of `undefined` becomes `UndefinedError`, and a write to one `UndefinedWriteError`.
- State that the source updates in place lives in a class:
  - the pool and its shader dictionary;
  - the closures' captured buffers in `makePathGeometry` (`StrokeBuffers`);
  - the geometry memo fields;
  - the geoposition caches;
  - the tile node;
  - the handler list.
- Values are datatypes.
- Each `forEach` callback is a method, and the `forEach` itself is a loop with invariants:
  - `PathStroke.Visit` / `PathStroke.VisitAll`;
  - `Geometries.PrototypeVisit` / `Geometries.BuildPrototypeMesh`.
- In `makePathGeometry`, the external `Line` class and the `arithmetic.vec2` helpers of the `geometry` package are stood in for by the local `Line` and `v` helpers of `geometries.ts` (see "## Left out").

### Behaviour worth knowing

- **Parallel joints.** A joint whose segments are parallel (a 0° or 180° turn) makes `intersection` throw 'Lines are parallel', and the whole stroke fails.
- **`remove.circle` compaction.** It splices the record out and pushes a blank, so later records shift down and keep their order. Identities stay valid because they map to record objects.
- **`remove.circle` on an identity that is not live.** This is not refused. It corrupts the pool (see Findings).
- **Calls before the first shader.** `create.circle`, `remove.circle` and both `update.shapes` operations throw a TypeError while the dictionary is unset, and change nothing.
- **Updates of an unbound identity.** `update.circle.radius` and `update.circle.geoposition` throw a TypeError for an identity bound to no record.
- **`create.circle` range.** There is no capacity error: with the counter outside [0, limit) (a full pool, or a counter driven negative by the double removal in Findings) the identity is bound to `undefined` and the counter still goes up; later updates of it throw.
- **`wordSpaceTexelFunction` with equal bounds.** Equal bounds divide by zero; no error is raised.
- **`makePathGeometry` point counts.** One point throws. No points gives empty buffers.
- **`PathGeometry` point counts.** One or two points throw. Three or more points always give the same 7 vertices and 18 indices.

## Model

| member | source | states |
|---|---|---|
| LinearFunction.WordSpaceTexelFunction | source/utils/LinearFunction.ts:6-10 | the map sends `lower` to 0 and `upper` to 1 (defined only when the bounds differ) |
| LinearFunction.WordSpaceTexelProgress | source/utils/LinearFunction.ts:6-10 | every value v is sent to its progress (lower − v)/(lower − upper) |
| LinearFunction.WordSpaceTexelIncreasing | source/utils/LinearFunction.ts:8 | the slope is positive exactly when upper > lower, and the map is then strictly increasing |
| LinearFunction.WordSpaceTexelInsideUnit | source/utils/LinearFunction.ts:6-10 | for lower < upper, a value lies strictly between the bounds iff its image lies in the open unit interval, which is the test the fragment shader applies |
| LinearTransform.Min | source/utils/LinearTransform.ts:13-16 | `Math.min` of a non-empty list is a lower bound of the list and occurs in it |
| LinearTransform.Max | source/utils/LinearTransform.ts:13-16 | `Math.max` of a non-empty list is an upper bound of the list and occurs in it |
| LinearTransform.GeometryWorldTexels | source/utils/LinearTransform.ts:10-22 | every texel lies inside the box; each of the four bounds is attained by some vertex, and the x and y bounds are computed independently |
| LinearTransform.ExtremaDependOnValuesOnly | source/utils/LinearTransform.ts:13-16 | min and max depend only on the set of values, not on their order or multiplicity |
| LinearTransform.GeometryWorldTexelsOrderFree | source/utils/LinearTransform.ts:10-22 | any permutation of the vertices gives the same box |
| ShaderEditor.Split | source/utils/shderEditor.ts:2 | `split('\n')` yields one more line than there are separators, and no line contains '\n' |
| ShaderEditor.Join | source/utils/shderEditor.ts:4 | `join('\n')` of no lines is ""; the text starts with the first line, and two or more lines put a separator in it |
| ShaderEditor.EditLines | source/utils/shderEditor.ts:1-5 | an editor that keeps the lines keeps the code; non-empty, separator-free edited lines are exactly the lines of the result |
| ShaderEditor.JoinSplit | source/utils/shderEditor.ts:1-5 | joining the split lines gives back the code exactly |
| ShaderEditor.SplitSingleLine | source/utils/shderEditor.ts:2 | text without a separator splits into itself alone |
| ShaderEditor.SplitAround | source/utils/shderEditor.ts:2 | a separator between two texts splits them into their own lines, concatenated |
| ShaderEditor.SplitJoin | source/utils/shderEditor.ts:2-4 | the converse round trip: the edited lines, if non-empty and separator-free, are recovered by splitting the result, so nothing is added or dropped |
| ShaderEditor.EditLinesUnchanged | source/utils/shderEditor.ts:1-5 | an editor that changes nothing returns the code unchanged |
| ShaderEditor.EditorInput | source/utils/shderEditor.ts:2 | the editor receives (number of '\n') + 1 lines, none containing '\n', whose join is the code |
| ShaderEditor.EditLinesInsertFirst | source/utils/shderEditor.ts:1-5 | inserting line L at position 0 yields L + '\n' + code |
| ShaderEditor.EditLinesInsertBeforeLast | source/utils/shderEditor.ts:1-5 | inserting a body before the last line keeps the original last line last |
| ShaderEditor.JoinLast | source/utils/shderEditor.ts:4 | joining one more line appends a separator and that line |
| ModelUpdateLoop.ModelUpdateLoop.constructor | source/uniforms/ModelUpdateLoop.ts:8-10 | the loop keeps the given `common` and starts with no handlers |
| ModelUpdateLoop.ModelUpdateLoop.Add | source/uniforms/ModelUpdateLoop.ts:12-14 | the handler is appended last; the earlier handlers keep their places |
| ModelUpdateLoop.ModelUpdateLoop.Tick | source/uniforms/ModelUpdateLoop.ts:16-20 | every handler is called exactly once, in order, with the constructor's `common`; the list is not modified |
| ModelUpdateLoop.CallsAfterAdd | source/uniforms/ModelUpdateLoop.ts:12-20 | after `add(h)`, a tick makes the old calls and then one call of h |
| Geopositions.Geoposition.constructor | source/nodes/primitive/Geoposition.ts:30-38 | longitude, latitude and altitude are copied unchanged; both caches start unset |
| Geopositions.Geoposition.WorldPosition | source/nodes/primitive/Geoposition.ts:13-20 | returns the projected position, computing it at most once; a read with the cache set changes nothing |
| Geopositions.Geoposition.WorldTexel | source/nodes/primitive/Geoposition.ts:22-28 | as written: on a fresh object it throws and changes nothing; once the position is cached it returns (x, z) of the position and caches it |
| Geopositions.Geoposition.WorldTexelFixed | source/nodes/primitive/Geoposition.ts:22-28 | read through the getter: always returns (x, z) of the projected position and caches both, projecting at most once |
| Geopositions.TexelOfProjection | source/nodes/primitive/Geoposition.ts:13-28 | the world texel is the projection with its y negated, (c.x, −c.y) |
| Geopositions.FreshWorldTexelThrows | source/nodes/primitive/Geoposition.ts:24 | reading `worldTexel` first on a new geoposition throws |
| Geopositions.PositionThenTexel | source/nodes/primitive/Geoposition.ts:13-28 | reading `worldPosition` first makes `worldTexel` succeed with (c.x, −c.y) |
| Geopositions.FreshWorldTexelFixed | source/nodes/primitive/Geoposition.ts:22-28 | with the corrected getter a new geoposition yields (c.x, −c.y) |
| Geometries.WithPoints | source/shapes/geometries.ts:13-19 | both points lie on the line (`test` is 0); distinct points give a proper line |
| Geometries.Intersection | source/shapes/geometries.ts:21-30 | throws 'Lines are parallel' exactly when the determinant is 0; otherwise the point lies on both lines |
| Geometries.IntersectionOnBothLines | source/shapes/geometries.ts:26-29 | Cramer's rule: the computed point (−x, −y) satisfies both line equations |
| Geometries.IntersectionUnique | source/shapes/geometries.ts:21-30 | with a non-zero determinant, any common point of the two lines is the one returned |
| Geometries.DeltaOfDirectedLines | source/shapes/geometries.ts:13-22 | the determinant of two lines through p, p+d and q, q+e is the cross product of d and e, whatever p and q are |
| Geometries.TestIsSide | source/shapes/geometries.ts:32 | `test` against the line through two points is the cross product of its direction with p − lhs: zero on the line, its sign gives the side |
| Geometries.AddUndoesDiff | source/shapes/geometries.ts:36-38 | `v.add` undoes `v.diff`: add(diff(p, q), q) = p |
| Geometries.Add | source/shapes/geometries.ts:36-38 | `v.diff` undoes `v.add`: diff(add(p, q), q) = p |
| Geometries.PrototypeStarted | source/shapes/geometries.ts:103-137 | the start step leaves the buffers in the closed-form state after point 0 |
| Geometries.PrototypeJoined | source/shapes/geometries.ts:139-177 | the joint step at point 1 leaves the buffers in the closed-form final state |
| Geometries.PrototypeVisit | source/shapes/geometries.ts:96-178 | the callback at a point: it does nothing past point 1; it throws on a missing next point or a parallel joint, with the matching error; otherwise it advances the closed-form state |
| Geometries.PrototypeVertices | source/shapes/geometries.ts:152-177 | a completed prototype has 7 flat vertices; vertices 0, 1 and 6 are points 0, 1 and 2 mapped to the frame |
| Geometries.BuildPrototypeMesh | source/shapes/geometries.ts:76-185 | no points gives an empty mesh; one or two points throw; three or more points throw iff the first joint is parallel, and otherwise give 7 vertices and the fixed 18 indices |
| Geometries.PrototypeIndicesValid | source/shapes/geometries.ts:116-177 | a check on the constant index table: all 18 indices are below 7 |
| Geometries.BufferGeometry.constructor | source/shapes/geometries.ts:182-184 | the geometry holds the given buffers |
| Geometries.PathGeometry.constructor | source/shapes/geometries.ts:190-194 | the geometry keeps its inputs and starts with no cached mesh |
| Geometries.PathGeometry.ShapeGeometry | source/shapes/geometries.ts:71-188 | computed once and cached, and later reads return the same object; the first read throws iff there are one or two points or the first joint is parallel, with the matching error, and caches nothing then; no points give the empty mesh, three or more the 7 vertices and fixed 18 indices |
| Geometries.ShapeBufferGeometry.constructor | source/shapes/geometries.ts:56 | the shape holds the given outline |
| Geometries.PolygonGeometry.constructor | source/shapes/geometries.ts:61-65 | the geometry keeps its inputs and starts with no cached shape |
| Geometries.PolygonGeometry.ShapeGeometry | source/shapes/geometries.ts:50-59 | computed once, over the frame outline, and cached; later reads return the same object |
| PathStroke.SideFactor | source/shapes/makePathGeometry.ts:25-29 | the factor is negative only for the left wing, zero only for the core and positive only for the right wing; both wings have unit factor |
| PathStroke.JointsLength | source/shapes/makePathGeometry.ts:120-129 | each joint pushes 12 indices |
| PathStroke.StrokeIndicesLength | source/shapes/makePathGeometry.ts:58-129 | an n-point stroke has 12(n − 1) indices, a multiple of 3, starting with the start cap (0,2,1),(0,1,3) |
| PathStroke.JointsEntry | source/shapes/makePathGeometry.ts:120-129 | entry 12k + q of the joints is entry q of joint k + 1 |
| PathStroke.StrokeJointEntry | source/shapes/makePathGeometry.ts:120-129 | entry 6 + 12k + q of the stroke is entry q of joint k + 1 |
| PathStroke.JointEntryBounded | source/shapes/makePathGeometry.ts:117-129 | each index a joint pushes names a vertex that already exists at that moment |
| PathStroke.CountAtJoint | source/shapes/makePathGeometry.ts:117-125 | the vertex count while joint k + 1 pushes its two index groups |
| PathStroke.JointIndexBounded | source/shapes/makePathGeometry.ts:111-145 | a joint index of the stroke is below the vertex count when pushed, and below 3n |
| PathStroke.FinishIndexBounded | source/shapes/makePathGeometry.ts:58-67 | an end-cap index is below the final vertex count 3n |
| PathStroke.StrokeIndexBounded | source/shapes/makePathGeometry.ts:50-145 | any index of the stroke is below the vertex count when pushed, and below 3n |
| PathStroke.StrokeIndicesBounded | source/shapes/makePathGeometry.ts:50-145 | every pushed index is non-negative and below the vertex count at the moment it is pushed, hence below 3n |
| PathStroke.JointOneSided | source/shapes/makePathGeometry.ts:120-129 | each of a joint's four triangles has distinct corners, includes a core vertex and never joins a left and a right wing |
| PathStroke.FinishOneSided | source/shapes/makePathGeometry.ts:63-66 | both end-cap triangles lie on one side of the core line |
| PathStroke.JointTriangleAt | source/shapes/makePathGeometry.ts:120-129 | triangle 2 + 4k + u of the stroke is triangle u of joint k + 1 |
| PathStroke.FinishTriangleAt | source/shapes/makePathGeometry.ts:63-66 | the last two triangles of the stroke are the end cap's |
| PathStroke.CopiedJointOneSided | source/shapes/makePathGeometry.ts:120-129 | a joint triangle copied into an index buffer keeps its one-sidedness |
| PathStroke.StartTriangleOneSided | source/shapes/makePathGeometry.ts:76-79 | both start-cap triangles lie on one side of the core line |
| PathStroke.JointTriangleOneSided | source/shapes/makePathGeometry.ts:120-129 | every joint triangle of the stroke lies on one side of the core line |
| PathStroke.FinishTriangleOneSided | source/shapes/makePathGeometry.ts:63-66 | the end-cap triangles of the stroke lie on one side of the core line |
| PathStroke.StrokeTriangleOneSided | source/shapes/makePathGeometry.ts:58-129 | triangle t of the stroke lies on one side of the core line |
| PathStroke.StrokeOneSided | source/shapes/makePathGeometry.ts:58-129 | every one of the 4(n − 1) triangles has three distinct corners, includes a core vertex and does not cross the core line |
| PathStroke.VertexLayout | source/shapes/makePathGeometry.ts:71-141 | core vertices are tagged core and increase with the point index; each step's wings are tagged left and right; after step i the remembered core is point i + 1's vertex |
| PathStroke.CoreVerticesArePoints | source/shapes/makePathGeometry.ts:71-125 | every core-tagged vertex is the vertex of exactly one point |
| PathStroke.JointDelta | source/shapes/makePathGeometry.ts:111-115 | the offset lines meeting at an interior point are parallel exactly when its two segments are, whatever the wings |
| PathStroke.Flatten | source/shapes/makePathGeometry.ts:50-56 | three position numbers per appended vertex |
| PathStroke.FlattenAt | source/shapes/makePathGeometry.ts:50-56 | vertex v of the position buffer is the v-th appended point, mapped to the frame, with z = 0 |
| PathStroke.SideStats | source/shapes/makePathGeometry.ts:50-56 | two stats numbers per appended vertex |
| PathStroke.SideStatsAt | source/shapes/makePathGeometry.ts:50-56 | stats entries 2v and 2v + 1 are the side factor of vertex v |
| PathStroke.StrokeBuffers.constructor | source/shapes/makePathGeometry.ts:45-48 | the buffers start empty with no `previous` |
| PathStroke.StrokeBuffers.AppendVertex | source/shapes/makePathGeometry.ts:50-56 | appends one vertex with its side tag, returns its index (the old count) and keeps `verticesCount == vertices.length/3 == stats.length/2` |
| PathStroke.StrokeBuffers.StartShape | source/shapes/makePathGeometry.ts:69-96 | appends the two points and the first wings, pushes the start cap, and remembers the wing lines along the first segment |
| PathStroke.StrokeBuffers.FinishShape | source/shapes/makePathGeometry.ts:58-67 | appends the last wings and pushes the two end-cap triangles against the remembered step |
| PathStroke.StrokeBuffers.Joint | source/shapes/makePathGeometry.ts:111-145 | throws iff a pair of wing lines is parallel; otherwise appends both miter points and the next core, pushes the four triangles and remembers the new step |
| PathStroke.CoresExtend | source/shapes/makePathGeometry.ts:125 | a joint adds the next point's core vertex and keeps the earlier ones |
| PathStroke.MitersExtend | source/shapes/makePathGeometry.ts:111-118 | a joint adds its miter vertices and keeps the earlier ones |
| PathStroke.StartStroked | source/shapes/makePathGeometry.ts:69-96 | the start cap establishes the loop invariant at point 1 |
| PathStroke.JointStroked | source/shapes/makePathGeometry.ts:111-145 | one joint carries the loop invariant from point m to point m + 1 |
| PathStroke.JointSides | source/shapes/makePathGeometry.ts:117-125 | a joint's tags left, right and core continue the closed-form tags |
| PathStroke.JointIndices | source/shapes/makePathGeometry.ts:120-129 | a joint's twelve indices extend the closed-form index buffer by one joint |
| PathStroke.JointTrianglesOfStep | source/shapes/makePathGeometry.ts:120-129 | the triangles of joint m, written from the vertex count before it |
| PathStroke.JointPrevious | source/shapes/makePathGeometry.ts:131-145 | after joint m, `previous` holds step m's wing lines and vertices |
| PathStroke.FinishStroked | source/shapes/makePathGeometry.ts:58-67 | the end cap takes the loop invariant at the last point to the finished stroke |
| PathStroke.FinishKeepsPlacements | source/shapes/makePathGeometry.ts:58-67 | the end cap's two vertices leave the cores, start wings and miters in place |
| PathStroke.FinishSides | source/shapes/makePathGeometry.ts:60-61 | the end cap's tags complete the closed-form tags of 3n vertices |
| PathStroke.FinishIndices | source/shapes/makePathGeometry.ts:63-66 | the end cap's six indices complete the closed-form index buffer |
| PathStroke.FinishedSides | source/shapes/makePathGeometry.ts:148-151 | a finished stroke has 9n position numbers, 6n stats and the closed-form indices; every vertex is flat and carries its side factor twice |
| PathStroke.FinishedCores | source/shapes/makePathGeometry.ts:148-150 | point k of a finished stroke is its vertex CoreIndex(k), mapped to the frame |
| PathStroke.FinishedCaps | source/shapes/makePathGeometry.ts:148-150 | vertices 2 and 3 are the first point's wings; the last two are the last point's wings |
| PathStroke.FinishedMiters | source/shapes/makePathGeometry.ts:148-150 | each interior point's wing vertices are the meeting points of its offset lines |
| PathStroke.FinishedMesh | source/shapes/makePathGeometry.ts:148-152 | the buffers of a finished stroke satisfy every property above at once |
| PathStroke.FinishedHasNoParallelJoint | source/shapes/makePathGeometry.ts:111-115 | a finished stroke went through no parallel joint |
| PathStroke.WalkedMesh | source/shapes/makePathGeometry.ts:98-152 | once every point is visited, the buffers are empty for no points and the full stroke mesh otherwise |
| PathStroke.WalkedNoParallelJoint | source/shapes/makePathGeometry.ts:98-146 | once every point is visited, the path has no parallel joint and is not a single point |
| PathStroke.Visit | source/shapes/makePathGeometry.ts:98-146 | the callback throws iff the path is a single point or this interior point is a parallel joint, with the matching error; otherwise it advances the loop invariant |
| PathStroke.VisitAll | source/shapes/makePathGeometry.ts:98-146 | the `forEach` fails iff the path is a single point or has a parallel joint; otherwise every point is visited |
| PathStroke.MakePathGeometry | source/shapes/makePathGeometry.ts:31-153 | no points gives empty buffers; one point throws; otherwise it throws 'Lines are parallel' iff some interior point is a parallel joint, and else returns the stroke mesh (3n vertices, 12(n − 1) indices, tags, cores, caps, miters) |
| Uniforms.IndexOf | source/uniforms/Uniforms.ts:63 | `findIndex` gives −1 iff the element is absent, and otherwise its first position |
| Uniforms.SpliceStart | source/uniforms/Uniforms.ts:64 | where `splice` starts: an in-range start as is, a negative one counted from the end |
| Uniforms.SpliceOne | source/uniforms/Uniforms.ts:64 | `splice(start, 1)` removes the element at the resolved start, if any, and shifts the later ones down in order |
| Uniforms.SpliceOneRemovesOne | source/uniforms/Uniforms.ts:64 | the splice removes exactly that one element, as multisets |
| Uniforms.SplicePushKeepsPrefix | source/uniforms/Uniforms.ts:64-65 | splice-and-push keeps the length; the other live records come first in their old order, then the old free slots, then the blank |
| Uniforms.DistinctRemoveAt | source/uniforms/Uniforms.ts:64 | removal keeps the others distinct and drops the removed element |
| Uniforms.DistinctAppend | source/uniforms/Uniforms.ts:65 | pushing a new record keeps the records distinct |
| Uniforms.LayoutAfterRemoval | source/uniforms/Uniforms.ts:61-68 | removing a live record keeps the layout: the remaining live identities own the first positions in order, and the removed record leaves the array |
| Uniforms.LiveRecordIndex | source/uniforms/Uniforms.ts:61-63 | a live identity's record is found at exactly its live position |
| Uniforms.Circle.Blank | source/uniforms/Uniforms.ts:101-104 | a blank record has origin (0, 0, 0) and radius 0 |
| Uniforms.ShaderUniforms.constructor | source/uniforms/Uniforms.ts:13-19 | no dictionary, no identities, a zero count and no waiters |
| Uniforms.ShaderUniforms.SetupCircles | source/uniforms/Uniforms.ts:106-113 | `limit` distinct fresh blank records and a zero counter; the other entries are untouched |
| Uniforms.ShaderUniforms.SetupShapes | source/uniforms/Uniforms.ts:115-120 | the shapes transform is zero on both axes; nothing else changes |
| Uniforms.ShaderUniforms.AddShader | source/uniforms/Uniforms.ts:82-99 | the first call adopts the shader's dictionary, sets it up (leaving its buffer sampler as it was) and releases every queued waiter; later calls change nothing of the pool and leave the shader's own discarded dictionary untouched; every shader passed in ends up holding the one shared dictionary; the pool invariant is kept |
| Uniforms.ShaderUniforms.WaitForSetup | source/uniforms/Uniforms.ts:72-80 | resolves at once iff setup has happened; otherwise the waiter is queued |
| Uniforms.ShaderUniforms.CreateCircle | source/uniforms/Uniforms.ts:22-28 | before setup it throws and changes nothing; otherwise it returns the fresh identity, increments the counter and mirrors it; with the counter in [0, limit) the identity is bound to the record at that position and becomes the last live one, and from a valid, non-full pool that record is blank and the pool invariant is kept; outside that range the identity is bound to no record |
| Uniforms.ShaderUniforms.UpdateRadius | source/uniforms/Uniforms.ts:36-38 | throws a TypeError iff the identity is bound to no record; otherwise writes only the radius of its record; a removed identity writes to its detached record, which is not in the array; the pool invariant is kept |
| Uniforms.ShaderUniforms.UpdateGeoposition | source/uniforms/Uniforms.ts:33-35 | throws a TypeError iff the identity is bound to no record; otherwise writes only the world origin of its record; a removed identity writes to a detached record; the pool invariant is kept |
| Uniforms.ShaderUniforms.UpdateWorldToFrameTransform | source/uniforms/Uniforms.ts:41-52 | throws iff called before setup; otherwise stores a copy of both axes' coefficients and nothing else changes |
| Uniforms.ShaderUniforms.UpdateBufferTexture | source/uniforms/Uniforms.ts:53-55 | throws iff called before setup; otherwise installs the texture as the shapes sampler and nothing else changes |
| Uniforms.ShaderUniforms.RemovalIndex | source/uniforms/Uniforms.ts:61-63 | −1 iff the identity is unbound or its record has left the array; otherwise the position of its record |
| Uniforms.ShaderUniforms.RemoveCircle | source/uniforms/Uniforms.ts:60-69 | before setup it throws and changes nothing; otherwise, as written, for any identity: the array keeps length `limit`; it is the old array with one splice (of the last slot when the index is −1) plus a fresh blank; the counter goes down by one and is mirrored; no identity is unbound and no record's fields change |
| Uniforms.ShaderUniforms.RemovalKeepsValid | source/uniforms/Uniforms.ts:60-69 | removing a live identity keeps the pool invariant, and the identity leaves the live list at the very position its record was spliced from |
| Uniforms.ShaderUniforms.RemovalKeepsPool | source/uniforms/Uniforms.ts:62-68 | on values: splicing the k-th live record and pushing a blank keeps the layout and the blank tail |
| Uniforms.ShaderUniforms.RemoveCircleChecked | source/uniforms/Uniforms.ts:60-69 | corrected removal: it removes iff the identity is live (so never before setup); a refused call changes neither the pool nor its dictionary; a removal leaves the waiters and the shapes entries as they were; the invariant holds after every call |
| Uniforms.RemoveFirstOfTwo | source/uniforms/Uniforms.ts:60-69 | removing the first of two circles moves the second's record to position 0 with its radius intact |
| Uniforms.DoubleRemoveAliases | source/uniforms/Uniforms.ts:60-69 | as written, removing one identity twice lets the next creation bind a record that a live identity already owns |
| Uniforms.CallsBeforeSetupThrow | source/uniforms/Uniforms.ts:22-69 | before the first shader, creating, removing and setting the shapes transform throw the read error, and updating an unbound identity throws the write error |
| Uniforms.DoubleRemoveChecked | source/uniforms/Uniforms.ts:60-69 | with the checked removal the second call is refused, and the next creation gets its own record |
| MapHeightNodes.ChildAddress | source/nodes/MapHeightNode.ts:260-286 | a child lies one level below its parent |
| MapHeightNodes.QuadrantOf | source/nodes/MapHeightNode.ts:263-286 | every tile below the root lies in one of the four quadrants of its parent |
| MapHeightNodes.ChildParentRoundTrip | source/nodes/MapHeightNode.ts:260-286 | the child (2x + dx, 2y + dy) has the tile it was made from as its parent, and the quadrant it was made for |
| MapHeightNodes.ParentChildRoundTrip | source/nodes/MapHeightNode.ts:260-286 | every tile below the root is the child of its parent for its own quadrant |
| MapHeightNodes.ChildAddressesDistinct | source/nodes/MapHeightNode.ts:263-286 | the four children have four different addresses |
| MapHeightNodes.OffsetMatchesAddress | source/nodes/MapHeightNode.ts:266-288 | a child is offset by ±0.25 in x and z: +x iff its x address is odd (right), +z iff its y address is odd (bottom) |
| MapHeightNodes.Digit | source/nodes/MapHeightNode.ts:223 | a decimal digit character |
| MapHeightNodes.NatToString | source/nodes/MapHeightNode.ts:223 | `${n}` is a non-empty string of digits, one digit long iff n < 10 |
| MapHeightNodes.NatToStringInjective | source/nodes/MapHeightNode.ts:223 | different numbers print differently |
| MapHeightNodes.FirstSlash | source/nodes/MapHeightNode.ts:223 | in "digits/rest" the first slash follows the digits |
| MapHeightNodes.SplitAtSlash | source/nodes/MapHeightNode.ts:223 | "a/b" = "c/d" with a and c decimal implies a = c and b = d |
| MapHeightNodes.PairTextInjective | source/nodes/MapHeightNode.ts:223 | "x/y" determines x and y |
| MapHeightNodes.IdentityInjective | source/nodes/MapHeightNode.ts:222-224 | `MapHeighNode-{level}/{x}/{y}` determines the tile |
| MapHeightNodes.ChildIdentitiesDistinct | source/nodes/MapHeightNode.ts:222-292 | the four children of a node have pairwise distinct identities |
| MapHeightNodes.MapHeightNode.constructor | source/nodes/MapHeightNode.ts:186-207 | a new node is a hidden mesh with neither load done, the shared plane geometry and no children |
| MapHeightNodes.MapHeightNode.NodeReady | source/nodes/MapHeightNode.ts:246-256 | changes nothing unless both loads are done; then the node is shown and the base class is notified once |
| MapHeightNodes.MapHeightNode.LoadTexture | source/nodes/MapHeightNode.ts:226-244 | installs the texture named `{identity}_texture`, sets the texture flag, then shows the node iff the height is loaded |
| MapHeightNodes.MapHeightNode.LoadHeightGeometry | source/nodes/MapHeightNode.ts:299-319 | with no height provider it throws and nothing changes; otherwise it installs the 16×16 height geometry, sets the height flag, then shows the node iff the texture is loaded |
| MapHeightNodes.MapHeightNode.AddChild | source/nodes/MapHeightNode.ts:265-270 | one new child for the quadrant, scaled and placed, appended after the existing children |
| MapHeightNodes.MapHeightNode.CreateChildNodes | source/nodes/MapHeightNode.ts:258-292 | four new children, one level down, in the order top-left, top-right, bottom-left, bottom-right, each at its child address with scale (0.5, 1, 0.5) and its quadrant offset |
| MapHeightNodes.MapHeightNode.Raycast | source/nodes/MapHeightNode.ts:324-333 | the hits already collected stay in front; hits are added only when the node is a mesh, and then all of the base class's hits are added |

## Left out

- LinearFunction.WordSpaceTexelFunction: requires `lower != upper`. With equal bounds the source divides by zero and returns infinite or NaN coefficients; IEEE special values are not modelled.
- LinearTransform.GeometryWorldTexels: requires a non-empty vertex list. For no vertices the source yields min = Infinity and max = −Infinity, which the reals cannot represent.
- LinearTransform.GeometryWorldTexels: takes the texels already read, not the `Geoposition` objects. The source reads `vertex.worldTexel` on each one (LinearTransform.ts:11-12), which throws a TypeError for a geoposition whose `worldPosition` was never read (see Findings); that throw is not modelled here.
- Geometries.PathGeometry.ShapeGeometry: its vertices are the texels already read, so the same `worldTexel` TypeError (geometries.ts:76, by way of `transform.vertices`) is not modelled; nor is it for `PolygonGeometry`'s outline.
- `numberSpace.frame` (LinearTransform.ts:9), the interval [−1, 1], is only handed to `transform.vertex`, which the model takes as the uninterpreted `toFrame` parameter, so the model has no use for it.
- Uniforms.ShaderUniforms.CreateCircle: with the counter outside [0, limit) the source stores `undefined` under the new identity; the model leaves the identity unbound, which every later read of `circlesByIds` cannot tell apart. The fresh UUID is a parameter that must not be bound yet.
- Uniforms.ShaderUniforms.RemoveCircle: its contract states the new state but not the pool invariant. That the invariant is kept for a live identity is stated by the two-state lemma `RemovalKeepsValid`, which `RemoveCircleChecked` uses.
- Uniforms.ShaderUniforms.AddShader: `setup` (Uniforms.ts:96-99) is inlined as its two calls, and resolving a waiter is recorded by appending it to `resolved`. The promises themselves are not modelled.
- PathStroke.MakePathGeometry: positions and stats are reals, so the `Float32Array` rounding is not modelled. The `Uint16Array` index buffer wraps once a stroke has more than 65536 vertices (21846 points or more); the model keeps unbounded indices.
- PathStroke.MakePathGeometry: `makeWings` and `transform.vertex` are uninterpreted parameters, so the exact wing coordinates, at distance `WIDTH` = 200 through atan2/cos/sin, are not modelled. The model proves the bookkeeping and the miter geometry relative to them.
- PathStroke.MakePathGeometry: the external `Line`, `arithmetic` and `convert` of the `geometry` package are not part of this model. It is assumed that its `Line.withPoints`, `intersection` and `arithmetic.vec2.add`/`diff` compute what the local `Line` and `v` helpers of geometries.ts compute; the parallel-joint characterisation of `makePathGeometry` (`JointDelta`, `StrokeBuffers.Joint`) rests on that assumption.
- Geometries.BuildPrototypeMesh: the prototype's wings (`v.polarToLinear` with width 100) are the same uninterpreted wing function as the stroker's. `console.log` calls are dropped.
- Geometries.PolygonGeometry.ShapeGeometry: the triangulation of `ShapeBufferGeometry(new Shape(…))` is three.js's own and is not modelled; the model records the outline it is given.
- `UnitsUtils.datumsToSpherical` is not part of this model: it is the uninterpreted `Projection` parameter of a geoposition.
- `DrawableIdentity` (Uniforms.ts:8-10): UUID generation is a fresh-identity parameter of `CreateCircle`.
- The async steps of `loadTexture`, `loadHeightGeometry` and `waitForSetup` are collapsed into completion steps: the fetch and image decoding (`fetchTile`, canvas, `getImageData`, `MapNodeHeightGeometry`) are left out.
- MapHeightNodes.MapHeightNode.LoadHeightGeometry: `mapView.heightProvider === null` is the boolean parameter `hasHeightProvider`.
- `MapHeightNode.initialize` and the `MapNode` base class (its `initialize`, `nodeReady`, `raycast`, `add`) are not part of this model. The base `nodeReady` is counted as `readyNotices`, and the base raycast hits are a parameter.
- MapHeightNodes.MapHeightNode.constructor: the starting scale (1, 1, 1) and position (origin) are three.js defaults, assumed. The `uniforms`/`renderer` arguments and `makeMaterial` are dropped.
- MapHeightNodes.MapHeightNode.Raycast: nothing in MapHeightNode.ts clears `isMesh`; the `MapNode` base class and the level-of-detail code that do are not part of this model, so the model proves the gate for either value of the flag but never drives it to false.
- ModelUpdateLoop.ModelUpdateLoop.Tick: handlers are opaque, so a handler that throws (which ends the `forEach` at ModelUpdateLoop.ts:17-19 and skips the later handlers) and a handler that calls `add` during a tick are not modelled; the tick calls every handler registered when it starts.
- `makeMaterial`, the shader edits and the GLSL (MapHeightNode.ts:25-129) are left out; only `editLines` and the `splice` insertions it is used with are modelled.
- `node.updateMatrix()` and `updateMatrixWorld(true)` in `createChildNodes` are three.js matrix bookkeeping and are left out.
- `ShapeDrawable.ts`, `Shapes.ts`, `MapView.ts`, the deferred renderer, `pin.ts`, the render loop and the `build/*.d.ts` declarations are rendering glue or type declarations and are not part of this model.

## Findings

| source | as written | input that shows it | evidently intended | confidence | as-written member | corrected member |
|---|---|---|---|---|---|---|
| source/uniforms/Uniforms.ts:60-69 | `remove.circle` never checks that the identity is still live: `findIndex` returns −1, `splice(-1, 1)` drops the last slot, and `circlesCount` still goes down | limit 2: create a, create b, remove a, remove a, create c; c is bound to b's record | refuse an identity that is not live and leave the pool unchanged | not executed | Uniforms.DoubleRemoveAliases | Uniforms.ShaderUniforms.RemoveCircleChecked |
| source/nodes/primitive/Geoposition.ts:24 | the `worldTexel` getter reads the private `_worldPosition.x`, which is unset until the `worldPosition` getter has run | a new geoposition whose `worldTexel` is read first: `undefined.x` throws a TypeError | read `this.worldPosition.x` through the getter | not executed | Geopositions.FreshWorldTexelThrows | Geopositions.Geoposition.WorldTexelFixed |
