/**
  An abstract view of the ARCore objects the app consumes. The tracking engine
  is not modelled: what it computes (the updated planes of a frame, the ordered
  results of a hit test, whether a hit pose lies in a plane's polygon) arrives
  as plain data.
 */
module ArCore {
  import opened Wrappers

  /** Planes are compared by identity; the identity is stable across frames. */
  type PlaneId = nat

  datatype PlaneType = HorizontalUpwardFacing | HorizontalDownwardFacing | Vertical

  datatype TrackingState = Tracking | Paused | Stopped

  /** A translation (tx, ty, tz) and a rotation quaternion (qx, qy, qz, qw). */
  datatype Pose = Pose(tx: real, ty: real, tz: real, qx: real, qy: real, qz: real, qw: real)

  /** One frame's snapshot of a detected plane. `subsumedBy` names the plane it was merged into, if any. */
  datatype Plane = Plane(
    id: PlaneId,
    planeType: PlaneType,
    trackingState: TrackingState,
    subsumedBy: Option<PlaneId>,
    centerPose: Pose,
    extentX: real,
    extentZ: real)

  /** What a hit test can hit: a plane, or some other trackable (a feature point, an image, ...). */
  datatype Trackable = PlaneTrackable(plane: Plane) | OtherTrackable(id: nat)

  /**
    One hit-test result. `poseInPolygon` is the engine's answer to
    `isPoseInPolygon(hitPose)` for the hit plane (meaningless for other trackables).
   */
  datatype HitResult = HitResult(trackable: Trackable, hitPose: Pose, poseInPolygon: bool)

  /** An anchor fixed at a pose and attached to the trackable it was created on. */
  datatype Anchor = Anchor(pose: Pose, attachedTo: Trackable)

  /** `HitResult.createAnchor`: an anchor at the hit pose, attached to the hit trackable. */
  function CreateAnchor(hit: HitResult): Anchor
  {
    Anchor(hit.hitPose, hit.trackable)
  }

  /**
    A session frame: the planes `getUpdatedTrackables(Plane)` reports, and the
    results `hitTest` returns, in engine order, for the screen point of the
    touch being handled.
   */
  datatype Frame = Frame(updatedPlanes: seq<Plane>, hitTest: seq<HitResult>)
}
