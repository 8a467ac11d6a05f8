# Anilamp core in Dafny

This project models the parts of the Anilamp JOGL assignment that are not
graphics calls, Swing wiring or trigonometry, and proves what they do.

- **Scene graph** (`scene_graph.dfy`, module `SceneGraph`). This is
  `SGNode` and its subclasses `TransformNode`, `ModelNode` and `LightNode`.
  - Nodes are heap objects of one class, `SGNode`, with a `kind` that says
    which subclass a node is.
  - The `update` and `draw` passes are methods with loops over the child
    list. A ghost skeleton `Tree` names the nodes of a subtree and rules out
    sharing and cycles.
  - Each pass is proved against a pure function on the value `Scene` of the
    subtree. `Propagate` is what `update(t)` does; `Trace` is the list of
    render calls `draw` makes.
  - Lemmas on those functions state the pass properties: update is
    idempotent, world transforms compose down a path, and children are
    drawn in insertion order.
- **Matrices and vectors** (`matrices.dfy`, `vectors.dfy`). This is `Mat4`
  (a class over a 4x4 `array2<real>`) and `Vec3` (a class with three
  fields). Their static operations are functions on the values `Mat` and
  `V3`.
  - `multiply` is proved to compute the matrix product, entry by entry, in
    the order it adds the terms.
  - `Mat4(1)` is proved neutral for the product.
  - The column-major layout loses nothing.
- **Lamp random pose** (`lamp.dfy`, module `LampAnimation`). This is the
  state machine of `Lamp.render`, `calculateRandomPose` and `randomPose`.
  - The random generator, the current joint angles, the clock and the
    easing value `t` are inputs.
  - What the lamp does to its scene graph (rotate a joint, update, draw)
    is recorded in a `calls` list.
  - The sampled poses are proved to be exactly the legal ones. Joints are
    proved to move only while they are more than 0.1 degree from their
    goal, and a request made during an animation is deferred.
- **Texture-coordinate patching** (`texture_quads.dfy`). This covers the
  three `TwoTriangles` classes. Each copies (u, v) pairs into slots
  `i*8+6` and `i*8+7` of the 32-float quad, and each is proved against
  one reference function, `CopyPairs`, including when it throws.
- **Mesh index tables** (`mesh_indices.dfy`). This is `createIndices` of
  `FrustumCone`, `Cylinder` and `SolidCone`.
  - Each is a method over an `int` array whose loops keep two invariants:
    every quad or fan triangle written so far is in place, and every slot
    ahead is still 0.
  - The table each builds is proved equal to a reference table made of a
    quad grid and fans. That table is proved to be the only one with that
    layout, so every slot is written exactly once or stays 0.
  - For the fan meshes, the apex `vertices.length - 15` is proved to be
    945 (FrustumCone) or 721 (SolidCone). That is a float offset, far
    past the last vertex.
  - The top row of Cylinder quads names vertices up to 150, while the
    vertex table holds 122. This is stated as a lemma.

Java `float` is modelled as `real`, so rounding is not modelled. Java `int`
is modelled as `int`; every value these programs compute fits in 32 bits.

`LightNode.draw` (LightNode.java:19-21) renders its light and returns
without visiting its children, so a light node's children are never drawn.

## Model

| member | source | states |
|---|---|---|
| Vectors.Vec3.Zero | Assignment/lib/gmaths/Vec3.java:14-16 | `new Vec3()` is the origin |
| Vectors.Vec3.constructor | Assignment/lib/gmaths/Vec3.java:18-22 | the new vector holds exactly the three given components |
| Vectors.Vec3.Copy | Assignment/lib/gmaths/Vec3.java:24-28 | the copy holds the same three components as its argument |
| Vectors.Vec3.Add | Assignment/lib/gmaths/Vec3.java:45-49 | in-place add: the receiver becomes the component-wise sum; the argument is unchanged unless it is the receiver, which then doubles |
| Vectors.V3.Add | Assignment/lib/gmaths/Vec3.java:51-53 | the component-wise sum; subtracting `b` from it gives back `a` |
| Vectors.V3.Subtract | Assignment/lib/gmaths/Vec3.java:55-57 | the component-wise difference, which is the zero vector exactly when `a` equals `b` |
| Vectors.AddUndoesSubtract | Assignment/lib/gmaths/Vec3.java:51-57 | adding `b` back to `a - b` gives back `a` |
| Vectors.V3.Multiply | Assignment/lib/gmaths/Vec3.java:59-61 | every component scaled by `f`, so the squared length is scaled by `f * f` |
| Vectors.MultiplyByOneAndZero | Assignment/lib/gmaths/Vec3.java:59-61 | scaling by 1 is the identity and scaling by 0 gives the origin |
| Vectors.CrossAntiCommutative | Assignment/lib/gmaths/Vec3.java:63-65 | cross(a, b) = -cross(b, a) |
| Vectors.CrossSelfIsZero | Assignment/lib/gmaths/Vec3.java:63-65 | cross(a, a) is the zero vector |
| Vectors.V3.CrossProduct | Assignment/lib/gmaths/Vec3.java:63-65 | the cross product, perpendicular to both of its arguments |
| Matrices.Mat4.constructor | Assignment/lib/gmaths/Mat4.java:18-24 | `Mat4(f)` is `f` on the diagonal and 0 elsewhere, in a fresh array (so `Mat4()` is the zero matrix) |
| Matrices.Mat4.Copy | Assignment/lib/gmaths/Mat4.java:26-31 | the copy has the same entries in a fresh array, so later changes to either do not reach the other |
| Matrices.Mat4.Set | Assignment/lib/gmaths/Mat4.java:33-35 | entry (r, c) becomes f and every other entry is unchanged |
| Matrices.Mat4.MakeZero | Assignment/lib/gmaths/Mat4.java:37-43 | every entry becomes 0 |
| Matrices.Mat4.Multiply | Assignment/lib/gmaths/Mat4.java:45-55 | the result is a fresh matrix equal to the product a x b; a and b are only read and may be the same object |
| Matrices.Mat4.AddProducts | Assignment/lib/gmaths/Mat4.java:49-51 | the inner loop leaves entry (i, j) equal to the sum of a[i][k]*b[k][j], accumulated from 0 in k order, and no other entry changes |
| Matrices.IdentityIsNeutral | Assignment/lib/gmaths/Mat4.java:45-55 | multiplying by `Mat4(1)` on either side gives back the other factor |
| Matrices.ColumnMajor | Assignment/lib/gmaths/Mat4.java:57-65 | the flattening has 16 floats, with entry (i, j) at index 4*j + i |
| Matrices.ColumnMajorRoundTrip | Assignment/lib/gmaths/Mat4.java:57-65 | the column-major flattening is a bijection between matrices and 16-float arrays |
| Matrices.Mat4.ToFloatArrayForGLSL | Assignment/lib/gmaths/Mat4.java:57-65 | returns a fresh array holding the column-major flattening of the matrix |
| Matrices.TranslationIsColumnMajorTail | Assignment/lib/gmaths/Mat4.java:73-78 | floats 12, 13 and 14 of the flattening are entries (0,3), (1,3) and (2,3) |
| Matrices.Mat4.GetTranslateVec | Assignment/lib/gmaths/Mat4.java:73-78 | returns a fresh vector holding the translation column (values[0][3], values[1][3], values[2][3]) |
| SceneGraph.SGNode.constructor | Assignment/lib/SGNode.java:19-23 | a new node has the given name, no children and the identity as world transform |
| SceneGraph.SGNode.Transform | Assignment/lib/TransformNode.java:14-17 | a new TransformNode stores the value of `t` at construction time, so later changes to `t` do not reach it; no children, identity world |
| SceneGraph.SGNode.Model | Assignment/lib/ModelNode.java:14-17 | a new ModelNode keeps its model reference, with no children and the identity world |
| SceneGraph.SGNode.Light | Assignment/lib/LightNode.java:14-17 | a new LightNode keeps its light reference, with no children and the identity world |
| SceneGraph.SGNode.AddChild | Assignment/lib/SGNode.java:25-27 | the child list gains exactly `child` at its end, with no duplicate or cycle check |
| SceneGraph.SGNode.AddAllChildren | Assignment/lib/SGNode.java:37-41 | this node gains `name` as its last child, `name` gains `transform` and `transform` gains `model`, building the chain name -> transform -> model; the contract also covers this node being one of the three |
| SceneGraph.SGNode.GetTransform | Assignment/lib/TransformNode.java:24 | returns the node's local matrix |
| SceneGraph.SGNode.SetTransform | Assignment/lib/TransformNode.java:26-28 | the local matrix becomes the value of `m`, and nothing else changes |
| SceneGraph.Propagate | Assignment/lib/SGNode.java:47-52 | `update(t)` changes world transforms only: the subtree keeps its kinds and child lists |
| SceneGraph.SGNode.UpdateFrom | Assignment/lib/SGNode.java:47-52 | after `update(t)` the subtree's value is `Propagate(old value, t)`: this node's world is `t`, each child is updated with `t` (with `t x local` when this node is a TransformNode, as TransformNode.java:30-36 overrides it), and only world transforms change |
| SceneGraph.SGNode.UpdateChildren | Assignment/lib/SGNode.java:49-51 | each child subtree, in turn, becomes `Propagate` of its old value with the frame; updating one child leaves its siblings alone |
| SceneGraph.SGNode.Update | Assignment/lib/SGNode.java:43-45 | `update()` re-propagates the node's own current world transform |
| SceneGraph.PropagateIgnoresOldWorlds | Assignment/lib/SGNode.java:47-52 | the result of `update(t)` depends only on the shape of the subtree, not on the world transforms it held |
| SceneGraph.UpdateIsIdempotent | Assignment/lib/SGNode.java:43-45 | a second update with the same frame changes nothing |
| SceneGraph.WorldAlongPath | Assignment/lib/TransformNode.java:30-36 | after `update(t)` a node below TransformNodes with locals L1..Lk has world `t x L1 x ... x Lk`, parent frame on the left; a TransformNode's own local reaches only its descendants |
| SceneGraph.SGNode.Draw | Assignment/lib/SGNode.java:73-77 | `draw` returns the calls of `Trace` on the subtree's current value and changes nothing; a node that is neither a model nor a light renders nothing itself and draws its children |
| SceneGraph.SGNode.DrawModel | Assignment/lib/ModelNode.java:19-24 | a ModelNode renders its model with its current world first, then its children; the calls are those of `Trace` on its subtree |
| SceneGraph.SGNode.DrawLight | Assignment/lib/LightNode.java:19-21 | a LightNode makes exactly one call, rendering its light with its current world, and never visits its children |
| SceneGraph.SGNode.DrawChildren | Assignment/lib/SGNode.java:74-76 | the children's calls, concatenated in child-list order |
| SceneGraph.TraceAllConcat | Assignment/lib/SGNode.java:73-77 | drawing the children `xs + ys` makes the calls for `xs` and then those for `ys` |
| SceneGraph.AddedChildDrawnLast | Assignment/lib/SGNode.java:73-77 | under a non-light node, a child added last is drawn after everything else |
| LampAnimation.Sample | Assignment/models/Lamp.java:158-160 | a draw of `nextInt(max - min) + min` lies in [min, max) and needs a positive bound |
| LampAnimation.SampleTargets | Assignment/models/Lamp.java:155-188 | every `nextInt` bound is positive whatever the initial angles, and the committed pose is legal: lower in [-70, 70), upper in [-100, 0) narrowed to [-20, 0) when the new lower angle is at most -35, head Y in [-90, 90), head Z in [-30, 80) |
| LampAnimation.EveryLegalPoseIsSampled | Assignment/models/Lamp.java:155-188 | conversely, every legal pose is the committed pose for some generator, from any initial angles |
| LampAnimation.StartRandomPose | Assignment/models/Lamp.java:190-192 | starting clears `isRandom`, sets `isAnimatingRandom`, stamps the start time and keeps the reset and jump flags |
| LampAnimation.Lamp.CalculateRandomPose | Assignment/models/Lamp.java:155-193 | the lamp's new flags and angles are `StartRandomPose` of the old ones, and no scene-graph call is made |
| LampAnimation.Tween | Assignment/models/Lamp.java:201-204 | the tween angle is the initial angle at t = 0 and initial + target at t = 1 |
| LampAnimation.RemainingIsUntravelled | Assignment/models/Lamp.java:206-209 | the remaining delta is target * (1 - t), zero at t = 1 |
| LampAnimation.AnimateRandomPose | Assignment/models/Lamp.java:200-233 | only the animating flag can change, and it is cleared exactly when all four deltas are below 0.1, in which case nothing is written; a joint is rotated, to its tween angle, exactly when its delta exceeds 0.1; an unsettled frame ends with one update of the lamp |
| LampAnimation.JointWritesAreTheMovingJoints | Assignment/models/Lamp.java:215-229 | a joint is rotated in a frame exactly when its delta exceeds 0.1, to its tween angle, and at most once |
| LampAnimation.SettledMovesNothing | Assignment/models/Lamp.java:211-213 | when every joint is within 0.1 of its goal no joint is moved |
| LampAnimation.Lamp.RotateIfMoving | Assignment/models/Lamp.java:215-217 | one guarded rotation appends the joint write exactly when the joint still moves |
| LampAnimation.Lamp.RandomPose | Assignment/models/Lamp.java:200-233 | the lamp's new state and calls are those of `AnimateRandomPose` on the old state |
| LampAnimation.Step | Assignment/models/Lamp.java:132-149 | the lamp is drawn once, last; a pending request starts an animation toward a legal goal from the current angles and moves nothing yet; a running animation advances one frame, keeping its goal and any pending request; otherwise only the draw happens; no request is created and the reset and jump flags are never consumed |
| LampAnimation.Lamp.Render | Assignment/models/Lamp.java:120-150 | the lamp's new state and calls are those of `Step` on the old state |
| LampAnimation.Lamp.constructor | Assignment/models/Lamp.java:29-64 | a new lamp has no request pending, default initial angles and no calls |
| LampAnimation.RequestDuringAnimationIsDeferred | Assignment/models/Lamp.java:132-140 | a request made during an animation does not resample the targets and stays pending until the animation settles |
| LampAnimation.ResetAndJumpDoNothing | Assignment/models/Lamp.java:141-147 | with no random request, setting `isReset` or `isJump` changes no joint and no flag |
| LampAnimation.AnimationStopsAtEnd | Assignment/models/Lamp.java:206-213 | at t = 1 every remaining delta is 0, so the frame clears the animating flag and rotates nothing; each joint keeps the last tween angle written to it |
| LampAnimation.WritesStopShortOfGoal | Assignment/models/Lamp.java:211-229 | every joint rotation a frame writes is more than 0.1 from that joint's goal, and the settling frame writes none, so a rotated joint ends short of `initial + target` |
| TexturedQuad.CopyPairs | Assignment/shapes/TwoTriangles.java:35-37 | patching keeps the length of the vertex array |
| TexturedQuad.CopyPairsSlots | Assignment/shapes/TwoTriangles.java:35-37 | slot k holds the matching float of `texCoords` when it is a texture slot of one of the first n vertices, and its old value otherwise |
| TexturedQuad.PairWritten | Assignment/shapes/TwoTriangles.java:35-37 | pair i lands in slots i*8+6 and i*8+7 |
| TexturedQuad.OnlyLeadingPairsRead | Assignment/shapes/TwoTriangles.java:35-37 | patching n pairs reads only the first 2n floats of `texCoords` |
| TexturedQuad.OddTrailingIgnored | Assignment/shapes/TwoTriangles.java:35 | a trailing odd element of `texCoords` is never copied |
| TexturedQuad.LaterPatchOverwrites | Assignment/shapes/TwoTriangles.java:33-40 | a later patch of at least as many pairs leaves no trace of an earlier one on the same array |
| TexturedQuad.PatchIsIdempotent | Assignment/shapes/TwoTriangles.java:33-40 | patching twice with the same coordinates is patching once |
| TexturedQuad.QuadHoldsFourPairs | Assignment/shapes/TwoTriangles.java:15-20 | the quad holds four vertices, so a patch of it stays in bounds exactly when `texCoords` has fewer than ten floats |
| TexturedQuad.QuadIndicesInRange | Assignment/shapes/TwoTriangles.java:22-25 | every index of the table {0,1,2,0,2,3} names one of the four vertices |
| TexturedQuad.SetTexCoords | Assignment/shapes/TwoTriangles.java:33-40 | returns the same array when every pair fits, and throws otherwise; the array then holds `CopyPairs` of its old contents, up to the first pair that does not fit |
| PerInstanceQuad.TwoTriangles.constructor | Assignment/lib/TwoTriangles.java:32-34 | a new instance owns a fresh copy of the quad whose first n vertices carry the given pairs, and the table {0,1,2,0,2,3} |
| PerInstanceQuad.TwoTriangles.Create | Assignment/lib/TwoTriangles.java:32-34 | construction throws exactly when `texCoords` holds more pairs than the quad has vertices (ten floats or more), and otherwise yields the patched fresh quad |
| PerInstanceQuad.TwoTriangles.SetTexCoords | Assignment/lib/TwoTriangles.java:41-46 | the instance's vertices become `CopyPairs` of their old values with every pair |
| FixedQuad.TwoTriangles.constructor | Assignment/codeprovided/TwoTriangles.java:35-37 | a new instance owns a fresh copy of the quad carrying the first four pairs, and the table {0,1,2,0,2,3} |
| FixedQuad.TwoTriangles.Create | Assignment/codeprovided/TwoTriangles.java:35-37 | construction throws exactly when `texCoords` holds fewer pairs than the quad has vertices (fewer than eight floats), and otherwise yields the quad patched with four pairs |
| FixedQuad.TwoTriangles.SetTexCoords | Assignment/codeprovided/TwoTriangles.java:44-50 | the eight writes leave the vertices equal to `CopyPairs` of their old values with four pairs; the other 24 slots are unchanged |
| FixedQuad.ElementsPastEighthIgnored | Assignment/codeprovided/TwoTriangles.java:44-50 | floats of `texCoords` past the eighth are never read |
| FixedQuad.AgreesWithPerInstanceQuad | Assignment/codeprovided/TwoTriangles.java:44-50 | on eight or nine floats this variant and the per-instance variant build the same vertices |
| MeshIndices.Quad | Assignment/shapes/FrustumCone.java:60-65 | a quad is two triangles sharing the diagonal: corner 0 equals corner 3 and corner 2 equals corner 4 |
| MeshIndices.QuadGridAt | Assignment/shapes/FrustumCone.java:57-67 | corner c of quad (j, i) sits at slot (j*cols + i)*6 + c of the grid, inside the grid |
| MeshIndices.QuadCorners | Assignment/shapes/FrustumCone.java:57-67 | every quad of the grid is in its own six slots |
| MeshIndices.FanCorners | Assignment/shapes/FrustumCone.java:70-75 | fan triangle i is (i, i+1, apex) in its own three slots |
| MeshIndices.QuadSlotsDistinct | Assignment/shapes/FrustumCone.java:59-65 | two different quad corners never share a slot |
| MeshIndices.QuadSlotsCover | Assignment/shapes/FrustumCone.java:57-67 | every slot of the quad region is written by some quad corner |
| MeshIndices.GridValuesBounded | Assignment/shapes/Cylinder.java:60-65 | the grid's vertex numbers lie between 0 and rows*xlong + cols |
| MeshIndices.PlaceQuad | Assignment/shapes/FrustumCone.java:60-65 | the six stores write quad (j, i) into its own slots, keep earlier quads in place and leave later slots at 0 |
| MeshIndices.PlaceTriangle | Assignment/shapes/FrustumCone.java:72-74 | the three stores write triangle (i, i+1, apex) into its own slots, keep earlier triangles and every lower slot, and leave later slots at 0 |
| FrustumConeMesh.QuadInTable | Assignment/shapes/FrustumCone.java:57-67 | quad (j, i) of the 30-wide grid sits at slot j*174 + i*6 of the table |
| FrustumConeMesh.TriangleInTable | Assignment/shapes/FrustumCone.java:70-75 | fan triangle (i, i+1, 945) sits at slot 522 + i*3 of the table |
| FrustumConeMesh.IndicesArePlaced | Assignment/shapes/FrustumCone.java:55-78 | the table is 696 ints: the three rows of quads, the bottom fan with apex 945 in slots 522-608, and 0 in slots 609-695 |
| FrustumConeMesh.PlacedIsUnique | Assignment/shapes/FrustumCone.java:55-78 | any table with that layout is this table, so every slot is written exactly once or stays 0 |
| FrustumConeMesh.CreateIndices | Assignment/shapes/FrustumCone.java:55-78 | returns a fresh array equal to the reference table |
| FrustumConeMesh.FillQuadRow | Assignment/shapes/FrustumCone.java:58-66 | the inner loop for row j places quads (j, 0) to (j, 28) and leaves the slots past them at 0 |
| FrustumConeMesh.FillBottomFan | Assignment/shapes/FrustumCone.java:70-75 | the fan loop writes its 29 triangles into slots 522-608, keeps every quad and leaves slots 609-695 at 0 |
| FrustumConeMesh.QuadsFirst | Assignment/shapes/FrustumCone.java:57-67 | the first 522 slots of the table are the quad grid |
| FrustumConeMesh.FanApexPastLastVertex | Assignment/shapes/FrustumCone.java:74 | the quads name vertices below 120, but the fan apex `vertices.length - 15` is 945 |
| CylinderMesh.IndicesArePlaced | Assignment/shapes/Cylinder.java:55-70 | the table is 720 ints, with quad (j, i) at slot j*180 + i*6 for every j < 4 and i < 30 |
| CylinderMesh.PlacedIsUnique | Assignment/shapes/Cylinder.java:55-70 | any table with that layout is this table: all 720 slots are written, each exactly once |
| CylinderMesh.CreateIndices | Assignment/shapes/Cylinder.java:55-70 | returns a fresh array equal to the reference table |
| CylinderMesh.FillQuadRow | Assignment/shapes/Cylinder.java:58-66 | the inner loop for row j places quads (j, 0) to (j, 29) and leaves the slots past them at 0 |
| CylinderMesh.EveryGroupSharesADiagonal | Assignment/shapes/Cylinder.java:60-65 | in each of the 120 six-slot groups, slot 0 equals slot 3 and slot 2 equals slot 4 |
| CylinderMesh.IndicesUpTo150 | Assignment/shapes/Cylinder.java:60-65 | every index lies in [0, 150], and 150 is reached by quad (3, 29); the vertex table holds only 122 vertices |
| SolidConeMesh.QuadInTable | Assignment/shapes/SolidCone.java:75-85 | quad (j, i) of the 30-wide grid sits at slot j*174 + i*6 of the table |
| SolidConeMesh.TriangleInTable | Assignment/shapes/SolidCone.java:88-95 | triangle (i, i+1, 721) sits at slot 348 + i*3 and again at 435 + i*3 |
| SolidConeMesh.IndicesArePlaced | Assignment/shapes/SolidCone.java:73-102 | the table is 522 ints: two rows of quads in slots 0-347, then two fan passes in slots 348-434 and 435-521, apex 721 |
| SolidConeMesh.PlacedIsUnique | Assignment/shapes/SolidCone.java:73-102 | any table with that layout is this table: the whole array is written, each slot exactly once |
| SolidConeMesh.CreateIndices | Assignment/shapes/SolidCone.java:73-102 | returns a fresh array equal to the reference table |
| SolidConeMesh.FillQuadRow | Assignment/shapes/SolidCone.java:76-84 | the inner loop for row j places quads (j, 0) to (j, 28) and leaves the slots past them at 0 |
| SolidConeMesh.FillFanPass | Assignment/shapes/SolidCone.java:88-95 | pass j writes its 29 triangles from slot 348 + j*87, keeping the quads and the earlier pass and leaving later slots at 0 |
| SolidConeMesh.FanPassesAreIdentical | Assignment/shapes/SolidCone.java:88-95 | the two fan passes write identical triples |
| SolidConeMesh.QuadsFirst | Assignment/shapes/SolidCone.java:75-85 | the first 348 slots of the table are the quad grid |
| SolidConeMesh.FanApexPastLastVertex | Assignment/shapes/SolidCone.java:93 | the quads name vertices below 92, but the fan apex `vertices.length - 15` is 721 |

## Left out

- Rendering, GL state, shaders, textures and buffers are out of scope.
  `model.render` and `light.render` are recorded as `RenderCall`s, and the
  lamp's joint rotations, `lampRoot.update()` and `lampRoot.draw` as
  `LampCall`s.
- `Mat4Transform`, `getZRotationAngle` and `getYRotationAngle` are not part
  of this model. A joint rotation is recorded by its angle, and the
  current joint angles are inputs.
- The clock and the easing are inputs. `getSeconds`, `startTime` and the
  sine of the elapsed time become the parameters `now` and `t`.
- `Random` is an input: any function that returns a value in [0, n) for a
  positive n.
- The button enabling at the start of `Lamp.render` is Swing wiring and is
  left out, as are the never-set flags `isAnimatingReset` and
  `isAnimatingJump` that it reads.
- `reset`, `jump` and the `create*` scene builders of Lamp are left out.
  `reset` is never called, `jump` only prints, and the builders are
  placement constants.
- `SGNode.print`, `getIndentString`, `Mat4.toString`, `Vec3.toString` and
  the two `System.out` lines in `calculateRandomPose` (Lamp.java:175-176)
  are console diagnostics and are left out.
- `Mat4.getRotationVec` (asin), `Vec3.normalize` (sqrt) and every
  `createVertices` (sine and cosine tables) are left out, because they are
  floating-point trigonometry.
- SceneGraph.SGNode.GetTransform: returns the local matrix as a value.
  Java returns the stored `Mat4` object itself, and the world transforms
  share the `Mat4` passed to `update`. Node matrices are values here, so
  aliasing through those references is not modelled. The source never
  changes a matrix after storing it.
- SceneGraph.SGNode.AddAllChildren: the kinds of its arguments (NameNode,
  TransformNode, ModelNode) are stated as a precondition, because they are
  Java parameter types.
  Lamp.java:434 passes a LightNode (`lightBulbModel`, Lamp.java:430) as the
  third argument. LightNode extends SGNode, not ModelNode (LightNode.java:10),
  so that call does not type-check against SGNode.java:37. The model cannot
  build the lamp's light-bulb subtree through this method; `AddChild` can.
- SceneGraph.SGNode.UpdateFrom, SceneGraph.SGNode.UpdateChildren and
  SceneGraph.SGNode.Update require the subtree to be a tree with no node
  shared by two parents. On a shared node Java would run `update` once per
  parent and keep the last frame; that case is not modelled. Every builder
  in the source makes a tree.
- Matrices.Mat4.Set: requires `0 <= r < 4` and `0 <= c < 4`, so the
  ArrayIndexOutOfBoundsException Java throws for an index outside the 4x4
  array is not modelled. Its callers (Mat4Transform) are not part of this
  model.
- Float rounding is not modelled. `float` is `real`, and the 0.1f
  threshold is 0.1, so a delta within rounding of 0.1 may compare
  differently in Java.
- Integer overflow is not modelled: every index and angle stays far below
  2^31.
- TexturedQuad.SetTexCoords: `texCoords` is a sequence, so the case where
  the caller passes the same array as both arguments is not modelled.
- PerInstanceQuad.TwoTriangles.constructor: requires fewer than ten floats
  and FixedQuad.TwoTriangles.constructor requires at least eight. A
  constructor cannot return an exception here, so each class's `Create`
  models the throwing case.
- The mesh loops keep their order and values, but their inner bodies are
  factored into methods.
  - The inner quad and fan loops are the methods `FillQuadRow`,
    `FillBottomFan` and `FillFanPass`, and the innermost loop of
    `multiply` is `AddProducts`.
  - The six stores of a quad (three of a triangle) are one simultaneous
    assignment. Their slots are distinct, so the result is the same.
- The `Placed` predicates and loop invariants write the mesh sizes as
  numbers (30, 29, 3, 522, ...). The lemmas `IndicesArePlaced` tie them to
  XLONG, YLAT and `vertices.length`.
- The shared static `vertices` arrays are reduced to their lengths, which
  is all `createIndices` reads.
