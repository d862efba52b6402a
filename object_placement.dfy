/**
  Tap-to-place and the periodic plane census of `ArObjectPlacer`.
 */
module ObjectPlacement {
  import opened Wrappers
  import opened ArCore
  import opened SceneGraph

  // ---------------------------------------------------------------------------
  // Tap selection
  // ---------------------------------------------------------------------------

  /**
    A hit a sphere may be placed on: it hit a plane, the hit pose lies in that
    plane's polygon, and the plane faces up or is vertical. Tracking state and
    subsumption are not consulted.
   */
  predicate IsPlacementHit(hit: HitResult) {
    && hit.trackable.PlaneTrackable?
    && hit.poseInPolygon
    && (hit.trackable.plane.planeType == HorizontalUpwardFacing
        || hit.trackable.plane.planeType == Vertical)
  }

  /** `firstOrNull` over the hit list: the index of the first placement hit, in engine order. */
  function FindPlaneHit(hits: seq<HitResult>): (r: Option<nat>)
    ensures r.Some? ==> r.value < |hits| && IsPlacementHit(hits[r.value])
    ensures r.Some? ==> forall j :: 0 <= j < r.value ==> !IsPlacementHit(hits[j])
    ensures r.None? <==> forall j :: 0 <= j < |hits| ==> !IsPlacementHit(hits[j])
  {
    if hits == [] then None
    else if IsPlacementHit(hits[0]) then Some(0)
    else match FindPlaneHit(hits[1..])
      case None => None
      case Some(k) => Some(k + 1)
  }

  /** Reference definition: the placement hits, in engine order. */
  function PlacementHits(hits: seq<HitResult>): (r: seq<HitResult>)
  {
    if hits == [] then []
    else if IsPlacementHit(hits[0]) then [hits[0]] + PlacementHits(hits[1..])
    else PlacementHits(hits[1..])
  }

  /** The selected hit is the head of the filtered list, and nothing is selected exactly when that list is empty. */
  lemma {:induction false} FindPlaneHitIsFirstPlacementHit(hits: seq<HitResult>)
    ensures FindPlaneHit(hits).None? <==> PlacementHits(hits) == []
    ensures FindPlaneHit(hits).Some? ==>
      PlacementHits(hits) != [] && hits[FindPlaneHit(hits).value] == PlacementHits(hits)[0]
  {
    if hits != [] && !IsPlacementHit(hits[0]) {
      FindPlaneHitIsFirstPlacementHit(hits[1..]);
    }
  }

  /** Hits appended after a placement hit never change the selection. */
  lemma {:induction false} FindPlaneHitIgnoresLaterHits(hits: seq<HitResult>, later: seq<HitResult>)
    requires FindPlaneHit(hits).Some?
    ensures FindPlaneHit(hits + later) == FindPlaneHit(hits)
  {
    if !IsPlacementHit(hits[0]) {
      assert (hits + later)[1..] == hits[1..] + later;
      FindPlaneHitIgnoresLaterHits(hits[1..], later);
    }
  }

  /** The same hit, with the hit plane (if any) given another tracking state and subsumption. */
  function Retracked(hit: HitResult, state: TrackingState, subsumedBy: Option<PlaneId>): HitResult {
    match hit.trackable
    case PlaneTrackable(p) =>
      hit.(trackable := PlaneTrackable(p.(trackingState := state, subsumedBy := subsumedBy)))
    case OtherTrackable(_) => hit
  }

  /** The selection does not depend on the tracking state or the subsumption of any hit plane. */
  lemma {:induction false} FindPlaneHitIgnoresTracking(
    hits: seq<HitResult>, states: seq<TrackingState>, subsumed: seq<Option<PlaneId>>)
    requires |states| == |hits| && |subsumed| == |hits|
    ensures FindPlaneHit(seq(|hits|, i requires 0 <= i < |hits| => Retracked(hits[i], states[i], subsumed[i])))
         == FindPlaneHit(hits)
  {
    var retracked := seq(|hits|, i requires 0 <= i < |hits| => Retracked(hits[i], states[i], subsumed[i]));
    if hits != [] {
      assert retracked[1..] == seq(|hits| - 1, i requires 0 <= i < |hits| - 1 =>
        Retracked(hits[1..][i], states[1..][i], subsumed[1..][i]));
      FindPlaneHitIgnoresTracking(hits[1..], states[1..], subsumed[1..]);
      assert IsPlacementHit(retracked[0]) == IsPlacementHit(hits[0]);
    }
  }

  /** The node `placeSphere` builds: an anchor node at the hit with one sphere child. */
  function SphereAnchorNode(hit: HitResult): (n: Node)
    ensures n.AnchorNode? && n.anchor.pose == hit.hitPose && n.anchor.attachedTo == hit.trackable
    ensures |n.children| == 1 && n.children[0] == SphereNode(SphereRadius)
  {
    AnchorNode(CreateAnchor(hit), [SphereNode(SphereRadius)])
  }

  // ---------------------------------------------------------------------------
  // Plane census
  // ---------------------------------------------------------------------------

  /** A plane the census counts: tracked and not merged into another plane. */
  predicate IsCensusPlane(p: Plane) {
    p.trackingState == Tracking && p.subsumedBy.None?
  }

  /** The number of census planes of type `t`. */
  function CountOfType(planes: seq<Plane>, t: PlaneType): (n: nat)
    ensures n <= |planes|
  {
    if planes == [] then 0
    else
      var last := planes[|planes| - 1];
      CountOfType(planes[..|planes| - 1], t) + (if IsCensusPlane(last) && last.planeType == t then 1 else 0)
  }

  /** Reference definition: the census planes, in order. */
  function CensusPlanes(planes: seq<Plane>): (r: seq<Plane>)
  {
    if planes == [] then []
    else
      var last := planes[|planes| - 1];
      CensusPlanes(planes[..|planes| - 1]) + (if IsCensusPlane(last) then [last] else [])
  }

  lemma CountOfTypeAppend(planes: seq<Plane>, p: Plane, t: PlaneType)
    ensures CountOfType(planes + [p], t) == CountOfType(planes, t) + (if IsCensusPlane(p) && p.planeType == t then 1 else 0)
  {
    assert (planes + [p])[..|planes|] == planes;
  }

  /** Planes that are not tracked, or are subsumed, never contribute to a count. */
  lemma {:induction false} CountOnlyCensusPlanes(planes: seq<Plane>, t: PlaneType)
    ensures CountOfType(planes, t) == CountOfType(CensusPlanes(planes), t)
  {
    if planes != [] {
      var init, last := planes[..|planes| - 1], planes[|planes| - 1];
      assert planes == init + [last];
      CountOnlyCensusPlanes(init, t);
      CountOfTypeAppend(init, last, t);
      if IsCensusPlane(last) {
        assert CensusPlanes(planes) == CensusPlanes(init) + [last];
        CountOfTypeAppend(CensusPlanes(init), last, t);
      } else {
        assert CensusPlanes(planes) == CensusPlanes(init) + [];
        assert CensusPlanes(init) + [] == CensusPlanes(init);
      }
    }
  }

  /** The horizontal and vertical counts together do not exceed the census planes, nor the updated planes. */
  lemma {:induction false} CensusBound(planes: seq<Plane>)
    ensures CountOfType(planes, HorizontalUpwardFacing) + CountOfType(planes, Vertical)
         <= |CensusPlanes(planes)| <= |planes|
  {
    if planes != [] {
      CensusBound(planes[..|planes| - 1]);
    }
  }

  /** The census loop of the frame callback. */
  method CountPlanes(planes: seq<Plane>) returns (horizontalCount: nat, verticalCount: nat)
    ensures horizontalCount == CountOfType(planes, HorizontalUpwardFacing)
    ensures verticalCount == CountOfType(planes, Vertical)
    ensures horizontalCount + verticalCount <= |CensusPlanes(planes)| <= |planes|
  {
    horizontalCount, verticalCount := 0, 0;
    for i := 0 to |planes|
      invariant horizontalCount == CountOfType(planes[..i], HorizontalUpwardFacing)
      invariant verticalCount == CountOfType(planes[..i], Vertical)
    {
      var plane := planes[i];
      assert planes[..i + 1][..i] == planes[..i];
      if plane.trackingState == Tracking && plane.subsumedBy.None? {
        match plane.planeType
        case HorizontalUpwardFacing => horizontalCount := horizontalCount + 1;
        case Vertical => verticalCount := verticalCount + 1;
        case HorizontalDownwardFacing =>
      }
    }
    assert planes[..|planes|] == planes;
    CensusBound(planes);
  }

  /** What the census logs: the number of updated planes and the two counts. */
  datatype PlaneCensus = PlaneCensus(total: nat, horizontal: nat, vertical: nat)

  // ---------------------------------------------------------------------------
  // Frame counter (a Kotlin Int)
  // ---------------------------------------------------------------------------

  newtype int32 = x: int | -0x8000_0000 <= x < 0x8000_0000

  /** `frameCount++` on a 32-bit Int: one more, modulo 2^32. */
  function Increment(x: int32): (r: int32)
    ensures ((r as int) - (x as int) - 1) % 0x1_0000_0000 == 0
  {
    if x == 0x7fff_ffff then -0x8000_0000 else x + 1
  }

  /** The census runs when the counter is a multiple of 60 (the same test for truncating and Euclidean remainder). */
  predicate IsCensusFrame(frameCount: int32) {
    (frameCount as int) % 60 == 0
  }

  /** Counting from 0, a census runs on the n-th callback exactly when 60 divides n, for the first 2^31 - 1 callbacks. */
  lemma {:induction false} CensusEverySixtiethFrame(n: nat)
    requires n < 0x8000_0000
    ensures Counter(n) as int == n
    ensures IsCensusFrame(Counter(n)) <==> n % 60 == 0
  {
    if n > 0 {
      CensusEverySixtiethFrame(n - 1);
    }
  }

  /** The counter after n callbacks from 0. */
  function Counter(n: nat): int32 {
    if n == 0 then 0 else Increment(Counter(n - 1))
  }

  // ---------------------------------------------------------------------------
  // The placer
  // ---------------------------------------------------------------------------

  class ArObjectPlacer {
    const sceneView: SceneView
    var frameCount: int32

    constructor (sceneView: SceneView)
      ensures this.sceneView == sceneView && frameCount == 0
    {
      this.sceneView := sceneView;
      frameCount := 0;
    }

    /**
      The per-frame callback: count the frame, and on every 60th frame that has
      a session frame, take the plane census (which the source only logs).
     */
    method OnFrame(frame: Option<Frame>) returns (census: Option<PlaneCensus>)
      modifies this
      ensures frameCount == Increment(old(frameCount))
      ensures census.Some? <==> frame.Some? && IsCensusFrame(frameCount)
      ensures census.Some? ==>
        var planes := frame.value.updatedPlanes;
        && census.value.total == |planes|
        && census.value.horizontal == CountOfType(planes, HorizontalUpwardFacing)
        && census.value.vertical == CountOfType(planes, Vertical)
        && census.value.horizontal + census.value.vertical <= |planes|
    {
      frameCount := Increment(frameCount);
      census := None;
      if frame.Some? {
        var allPlanes := frame.value.updatedPlanes;
        if (frameCount as int) % 60 == 0 {
          var horizontalCount, verticalCount := CountPlanes(allPlanes);
          census := Some(PlaneCensus(|allPlanes|, horizontalCount, verticalCount));
        }
      }
    }

    /**
      A single tap: without a session frame nothing happens; otherwise the
      first placement hit, if any, gets a sphere.
     */
    method OnTap(frame: Option<Frame>)
      modifies sceneView
      ensures frame.None? || FindPlaneHit(frame.value.hitTest).None? ==>
        sceneView.children == old(sceneView.children)
      ensures frame.Some? && FindPlaneHit(frame.value.hitTest).Some? ==>
        var hits := frame.value.hitTest;
        sceneView.children == old(sceneView.children) + [SphereAnchorNode(hits[FindPlaneHit(hits).value])]
    {
      if frame.None? {
        return;
      }
      var hits := frame.value.hitTest;
      var planeHit := FindPlaneHit(hits);
      if planeHit.Some? {
        PlaceSphere(hits[planeHit.value]);
      }
    }

    /** Anchor a node at the hit and add it, holding one sphere, to the scene. */
    method PlaceSphere(hit: HitResult)
      modifies sceneView
      ensures sceneView.children == old(sceneView.children) + [SphereAnchorNode(hit)]
    {
      var anchor := CreateAnchor(hit);
      var sphereNode := SphereNode(SphereRadius);
      var anchorNode := AnchorNode(anchor, [sphereNode]);
      sceneView.AddChildNode(anchorNode);
    }
  }
}
