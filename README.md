# Floating-Obj: tap-to-place and vertical-plane overlays, in Dafny

This project models the two classes of the Floating-Obj Android AR app that hold its logic. Both work over the planes ARCore detects.

- `ArObjectPlacer` handles a single tap. It takes the engine-ordered hit-test results and picks the first hit that lies inside the polygon of an upward-facing or vertical plane. If there is one, it anchors a node holding one sphere there and adds that node to the scene. On every frame callback it also counts the frame. On every 60th frame that has a session frame, it counts the tracked, non-subsumed horizontal and vertical planes.
- `PlaneVisualizer` keeps a table from plane identity to overlay node. On every update, each tracked vertical plane gets an overlay node the first time it is seen. That node is created at the plane's center pose, scaled by its extents and added to the scene. On later sightings the existing node's position, rotation and scale are rewritten in place. No entry is ever removed. The overlay's rotation comes from `quaternionToEuler`. Its clamp is modelled twice: exactly as written (`ClampAsWritten`, `QuaternionToEulerAsWritten`), and as evidently intended (`ClampToUnit`, `QuaternionToEuler`). The overlays use the intended version (see Findings).

ARCore is abstracted as data:
- A `Frame` carries the planes `getUpdatedTrackables` reports and the ordered results of the hit test for the touched point.
- Each `HitResult` carries the engine's answer to `isPoseInPolygon`.
- A `Plane` is a snapshot with a stable identity.

The scene view is a class with a list of children. The overlay node is a class whose transform fields are assigned in place. `placeSphere` builds an anchor node, gives it its one sphere child, and only then adds it to the scene. Nothing changes it after that, so the model builds the anchor node as a value that already holds its sphere.

Files:
- `wrappers.dfy`: `Option`.
- `arcore.dfy`: planes, poses, hit results, anchors, frames.
- `scene_graph.dfy`: transforms, the symbolic angles `Atan2`/`Asin`, `PlaneNode`, the scene `Node`s, `SceneView`.
- `object_placement.dfy`: tap selection, sphere placement, the plane census, the 32-bit frame counter, the `ArObjectPlacer` class.
- `plane_visualization.dfy`: the quaternion conversion as written and as intended, the overlay table as a function of the frame's planes, the `PlaneVisualizer` class.

What the code does and does not check:
- The tap filter reads neither `trackingState` nor `subsumedBy` of the hit plane (ArObjectPlacer.kt:99-102); the comment at ArObjectPlacer.kt:96 calls it detection "without stability filtering". `FindPlaneHitIgnoresTracking` states that the selection is independent of both.
- The visualizer never reads `subsumedBy`, and no code path removes an entry of `visiblePlanes`. `RefreshedKeys` and `RefreshedOverrides` state that the table only grows.
- The clamp reaches `TODO()` for every t2 in [-1, 1] (see Findings).
- Drag, distance labels, anchor replacement and tracking-status reporting are not part of these two classes.

## Model

| member | source | states |
|---|---|---|
| ObjectPlacement.IsPlacementHit | app/src/main/java/com/dog/floatingobj/ArObjectPlacer.kt:99-102 | Defines eligibility: the trackable is a plane, the hit pose is in its polygon, and the plane faces up or is vertical; tracking state and subsumption are not read |
| ObjectPlacement.IsCensusPlane | app/src/main/java/com/dog/floatingobj/ArObjectPlacer.kt:52 | Defines the planes the census counts: tracked and not subsumed |
| ObjectPlacement.IsCensusFrame | app/src/main/java/com/dog/floatingobj/ArObjectPlacer.kt:44 | Defines the census test `frameCount % 60 == 0`; the Kotlin remainder truncates, Dafny's is Euclidean, and both are 0 exactly on multiples of 60 |
| ObjectPlacement.FindPlaneHit | app/src/main/java/com/dog/floatingobj/ArObjectPlacer.kt:97-109 | The selected index is a hit on a plane, in its polygon, facing up or vertical, and no earlier hit is eligible; nothing is selected exactly when no hit is eligible |
| ObjectPlacement.FindPlaneHitIsFirstPlacementHit | app/src/main/java/com/dog/floatingobj/ArObjectPlacer.kt:97-109 | The selection is the head of the list of eligible hits in engine order, and it is empty exactly when that list is empty |
| ObjectPlacement.FindPlaneHitIgnoresLaterHits | app/src/main/java/com/dog/floatingobj/ArObjectPlacer.kt:97-109 | Once an eligible hit exists, hits appended after it never change the selection |
| ObjectPlacement.FindPlaneHitIgnoresTracking | app/src/main/java/com/dog/floatingobj/ArObjectPlacer.kt:97-103 | Changing the tracking state or the subsumption of every hit plane leaves the selection unchanged |
| ObjectPlacement.SphereAnchorNode | app/src/main/java/com/dog/floatingobj/ArObjectPlacer.kt:118-127 | The placed node is an anchor node at the hit pose, attached to the hit trackable, with exactly one child: a sphere of the default radius 0.15 |
| ObjectPlacement.CountOfType | app/src/main/java/com/dog/floatingobj/ArObjectPlacer.kt:51-65 | A per-type count never exceeds the number of updated planes |
| ObjectPlacement.CountOnlyCensusPlanes | app/src/main/java/com/dog/floatingobj/ArObjectPlacer.kt:52 | A count is the same over the tracked, non-subsumed planes alone: other planes never contribute |
| ObjectPlacement.CensusBound | app/src/main/java/com/dog/floatingobj/ArObjectPlacer.kt:48-65 | The horizontal count plus the vertical count is at most the number of tracked non-subsumed planes, which is at most the number of updated planes |
| ObjectPlacement.CountPlanes | app/src/main/java/com/dog/floatingobj/ArObjectPlacer.kt:48-65 | The counting loop yields the number of tracked non-subsumed upward-facing planes and of vertical ones (downward-facing planes are skipped), and their sum is bounded as above |
| ObjectPlacement.Increment | app/src/main/java/com/dog/floatingobj/ArObjectPlacer.kt:38 | `frameCount++` on a Kotlin Int is one more modulo 2^32 |
| ObjectPlacement.CensusEverySixtiethFrame | app/src/main/java/com/dog/floatingobj/ArObjectPlacer.kt:34-44 | Counting from 0, after n callbacks the counter is n, and the census test passes exactly when 60 divides n, for n below 2^31 |
| ObjectPlacement.ArObjectPlacer.constructor | app/src/main/java/com/dog/floatingobj/ArObjectPlacer.kt:12-34 | A new placer holds the given scene view and a frame counter of 0 |
| ObjectPlacement.ArObjectPlacer.OnFrame | app/src/main/java/com/dog/floatingobj/ArObjectPlacer.kt:36-71 | Every callback increments the counter, with or without a frame; a census is taken exactly when there is a frame and the new counter is a multiple of 60; it reports the number of updated planes and the two counts, whose sum does not exceed it |
| ObjectPlacement.ArObjectPlacer.OnTap | app/src/main/java/com/dog/floatingobj/ArObjectPlacer.kt:73-116 | Without a session frame, or with no eligible hit, the scene is unchanged; otherwise exactly one sphere anchor node, for the first eligible hit, is appended to the scene |
| ObjectPlacement.ArObjectPlacer.PlaceSphere | app/src/main/java/com/dog/floatingobj/ArObjectPlacer.kt:118-127 | The scene gains exactly one child, the anchor node holding one sphere, at the end |
| SceneGraph.SceneView.AddChildNode | app/src/main/java/com/dog/floatingobj/ArObjectPlacer.kt:126 | Adding a child appends it to the scene's children and changes nothing else |
| PlaneVisualization.ClampAsWritten | app/src/main/java/com/dog/floatingobj/PlaneVisualizer.kt:82-83 | The clamp yields a value exactly when t2 > 1 or t2 < -1 (then the nearest bound); every t2 in [-1, 1] reaches `TODO()` and fails |
| PlaneVisualization.ClampToUnit | app/src/main/java/com/dog/floatingobj/PlaneVisualizer.kt:83 | The intended clamp lies in [-1, 1], is the identity there, and is the point of [-1, 1] nearest to t2 |
| PlaneVisualization.QuaternionToEulerAsWritten | app/src/main/java/com/dog/floatingobj/PlaneVisualizer.kt:75-91 | The conversion as written returns a rotation exactly when 2(wy - zx) lies outside [-1, 1], and then agrees with the intended conversion |
| PlaneVisualization.QuaternionToEuler | app/src/main/java/com/dog/floatingobj/PlaneVisualizer.kt:75-91 | Roll and yaw are atan2 terms, pitch an asin term whose argument always lies in [-1, 1] |
| PlaneVisualization.UnitQuaternionPitchSineInRange | app/src/main/java/com/dog/floatingobj/PlaneVisualizer.kt:82 | For a unit quaternion, 2(wy - zx) lies in [-1, 1] |
| PlaneVisualization.UnitQuaternionPitchUnclamped | app/src/main/java/com/dog/floatingobj/PlaneVisualizer.kt:82-84 | For a unit quaternion the clamp is inactive: the pitch is asin(2(wy - zx)) |
| PlaneVisualization.AsWrittenFailsOnUnitQuaternions | app/src/main/java/com/dog/floatingobj/PlaneVisualizer.kt:83 | As written, the conversion fails on every unit quaternion |
| PlaneVisualization.IsVisualized | app/src/main/java/com/dog/floatingobj/PlaneVisualizer.kt:26-28 | Defines the planes `update` shows: tracked and vertical; subsumption is not read |
| PlaneVisualization.PlaneTransform | app/src/main/java/com/dog/floatingobj/PlaneVisualizer.kt:58-60 | Defines the overlay transform of a plane: its center translation, the converted center quaternion and the scale (extentX, 1, extentZ); lines 69-71 assign the same three values |
| PlaneVisualization.Refreshed | app/src/main/java/com/dog/floatingobj/PlaneVisualizer.kt:25-38 | Defines the overlay transforms after one `forEach` over the frame's planes: each shown plane's entry is set to its transform, in order |
| PlaneVisualization.NewSightings | app/src/main/java/com/dog/floatingobj/PlaneVisualizer.kt:29-33 | Defines the identities that get a new node during one `forEach`, in the order their overlays join the scene |
| PlaneVisualization.RefreshedKeys | app/src/main/java/com/dog/floatingobj/PlaneVisualizer.kt:25-38 | After an update the table holds every old entry plus exactly the tracked vertical planes of the frame; entries of planes not shown are unchanged |
| PlaneVisualization.NewSightingsAreNewKeys | app/src/main/java/com/dog/floatingobj/PlaneVisualizer.kt:29-33 | A plane gets a new node exactly when it is shown and was not yet in the table, and each such plane gets exactly one |
| PlaneVisualization.KnownPlanesAreNoSightings | app/src/main/java/com/dog/floatingobj/PlaneVisualizer.kt:29-36 | When every shown plane is already in the table, no node is created: each is only refreshed |
| PlaneVisualization.RefreshedLastSightingWins | app/src/main/java/com/dog/floatingobj/PlaneVisualizer.kt:34-36 | A shown plane's overlay carries the transform of its last snapshot in the frame |
| PlaneVisualization.RefreshedOnlyByVisualizedPlanes | app/src/main/java/com/dog/floatingobj/PlaneVisualizer.kt:26-28 | Untracked and non-vertical planes have no effect on the overlay table |
| PlaneVisualization.SightingsOnlyOfVisualizedPlanes | app/src/main/java/com/dog/floatingobj/PlaneVisualizer.kt:26-28 | Untracked and non-vertical planes never cause a node to be created |
| PlaneVisualization.RefreshedOverrides | app/src/main/java/com/dog/floatingobj/PlaneVisualizer.kt:18-39 | An update is the old table overridden by what the frame's planes alone produce: nothing is removed |
| PlaneVisualization.RefreshedIdempotent | app/src/main/java/com/dog/floatingobj/PlaneVisualizer.kt:58-71 | Creation and refresh assign the same transform, so updating twice with the same planes equals updating once |
| PlaneVisualization.PlaneVisualizer.NodesAreDistinct | app/src/main/java/com/dog/floatingobj/PlaneVisualizer.kt:29-36 | No overlay node serves two planes |
| PlaneVisualization.PlaneVisualizer.constructor | app/src/main/java/com/dog/floatingobj/PlaneVisualizer.kt:18 | The table starts empty |
| PlaneVisualization.PlaneVisualizer.Update | app/src/main/java/com/dog/floatingobj/PlaneVisualizer.kt:20-39 | Without a session nothing changes; otherwise the overlay transforms are the old ones refreshed by the frame's tracked vertical planes, the key set grows by exactly those planes, old entries keep their nodes, new entries get fresh nodes, and their overlays are appended to the scene once each, in order of first sighting; when every shown plane is already in the table (as on a repeated update with the same frame), the table and the scene are unchanged |
| PlaneVisualization.PlaneVisualizer.ShowPlanes | app/src/main/java/com/dog/floatingobj/PlaneVisualizer.kt:25-38 | The loop over the updated planes establishes the same outcome as `Update`'s session case |
| PlaneVisualization.PlaneVisualizer.Visit | app/src/main/java/com/dog/floatingobj/PlaneVisualizer.kt:26-37 | An untracked or non-vertical plane changes nothing; a first sighting inserts one fresh node and adds exactly one scene child; a later sighting only rewrites the node's transform |
| PlaneVisualization.PlaneVisualizer.Insert | app/src/main/java/com/dog/floatingobj/PlaneVisualizer.kt:30-33 | The new node is fresh, carries the plane's transform, joins the table under the plane's identity and is appended to the scene |
| PlaneVisualization.PlaneVisualizer.Refresh | app/src/main/java/com/dog/floatingobj/PlaneVisualizer.kt:34-36 | The existing node takes the plane's new transform; the table and the scene are unchanged |
| PlaneVisualization.PlaneVisualizer.CreatePlaneNode | app/src/main/java/com/dog/floatingobj/PlaneVisualizer.kt:41-65 | A fresh node positioned at the plane's center translation, rotated by the converted center quaternion and scaled by (extentX, 1, extentZ) |
| PlaneVisualization.PlaneVisualizer.UpdatePlaneNode | app/src/main/java/com/dog/floatingobj/PlaneVisualizer.kt:67-72 | The node's position, rotation and scale become exactly those `CreatePlaneNode` would give |

## Left out

- Logging: every `Log.d` call, including the per-tap listing of planes and hit results and the vertical-plane polygon point count. `OnFrame` returns the census it would log instead.
- Gesture wiring and `enableTapToPlace` (`GestureDetector`, the touch listener). `OnTap` and `OnFrame` stand for the listener and the frame callback.
- ARCore itself. `hitTest` for the touched screen point, `isPoseInPolygon`, `getUpdatedTrackables` and `session.update()` arrive as data in `Frame` and `HitResult`, and a missing session frame is `None`. The screen coordinates of the touch are not modelled.
- Plane identity: an ARCore `Plane` used as a map key is modelled by a numeric identity that is stable across frames.
- Exceptions thrown by the engine: `createAnchor` and `session.update()` are taken to succeed.
- Float arithmetic: poses, extents and the clamp are over reals, not 32-bit floats. The rounding that makes 2(wy - zx) land just outside [-1, 1] is not modelled.
- Trigonometry: `atan2` and `asin` are kept as unevaluated terms. Only the argument of `asin` is constrained.
- Rendering: the engine, the materials and colours of the overlay and the sphere, and node ownership inside SceneView. Only the scene's list of top-level children is modelled. Of `ShapeFactory.kt`, only the default sphere radius 0.15 is used.
- `ArScreen.kt`, `MainActivity.kt` and `ArConfig.kt`: UI layout, activity start-up and session configuration, with no logic of the core.
- `PlaneVisualizer` is a Kotlin `object` (a singleton). It is modelled as a class with one instance per caller.
- ObjectPlacement.CensusEverySixtiethFrame: stated only for the first 2^31 - 1 callbacks. The wrap-around of the counter is modelled (`Increment`), but the census phase after the wrap is not characterised.
- PlaneVisualization.PlaneVisualizer.CreatePlaneNode: uses the corrected conversion. As written, `createPlaneNode` throws at PlaneVisualizer.kt:59 for every unit quaternion, before the node is returned or added to the scene (see Findings).
- PlaneVisualization.PlaneVisualizer.UpdatePlaneNode: uses the corrected conversion. As written, `updatePlaneNode` throws at PlaneVisualizer.kt:70 for every unit quaternion, after `position` has already been assigned at line 69 and before `rotation` and `scale` are (see Findings).
- ObjectPlacement.ArObjectPlacer.PlaceSphere: the in-place `anchorNode.addChildNode(sphereNode)` at ArObjectPlacer.kt:125 is modelled as building the anchor node with its sphere child; it happens before the node joins the scene, so nothing can observe the node without its child.
- PlaneVisualization.PlaneVisualizer.Update: the overlay nodes are created with the corrected conversion (`QuaternionToEuler`). As written, `createPlaneNode` would throw on every real plane (see Findings).

## Findings

| source | as written | input that shows it | evidently intended | confidence | as-written member | corrected member |
|---|---|---|---|---|---|---|
| app/src/main/java/com/dog/floatingobj/PlaneVisualizer.kt:83 | `t2 = if (t2 > 1.0f) 1.0f else if (t2 < -1.0f) -1.0f else TODO()`: every t2 in [-1, 1] reaches `TODO()`, which throws. For every unit quaternion t2 = 2(wy - zx) lies in [-1, 1], so every plane's orientation makes the conversion throw | the identity quaternion (x, y, z, w) = (0, 0, 0, 1), for which t2 = 0 | a total clamp to [-1, 1] whose last branch keeps t2 unchanged, so that `asin` always gets an argument in its domain | not executed | PlaneVisualization.AsWrittenFailsOnUnitQuaternions | PlaneVisualization.QuaternionToEuler |
