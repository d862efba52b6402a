/**
  `PlaneVisualizer`: a table from plane identity to overlay node, kept up to
  date for every tracked vertical plane, and the quaternion-to-Euler
  conversion that orients the overlays.
 */
module PlaneVisualization {
  import opened Wrappers
  import opened ArCore
  import opened SceneGraph

  // ---------------------------------------------------------------------------
  // Quaternion to Euler angles
  // ---------------------------------------------------------------------------

  /** The pitch argument 2(wy - zx) before it is clamped. */
  function RawPitchSine(x: real, y: real, z: real, w: real): real {
    2.0 * (w * y - z * x)
  }

  /**
    The clamp as the source writes it: above 1 gives 1, below -1 gives -1, and
    every value in between reaches `TODO()`, which throws (None).
   */
  function ClampAsWritten(t2: real): (r: Option<real>)
    ensures r.Some? <==> t2 > 1.0 || t2 < -1.0
    ensures r.Some? ==> r.value == ClampToUnit(t2)
  {
    if t2 > 1.0 then Some(1.0) else if t2 < -1.0 then Some(-1.0) else None
  }

  /** The intended clamp: the point of [-1, 1] nearest to t2. */
  function ClampToUnit(t2: real): (r: real)
    ensures -1.0 <= r <= 1.0
    ensures -1.0 <= t2 <= 1.0 ==> r == t2
    ensures forall s :: -1.0 <= s <= 1.0 ==> Dist(r, t2) <= Dist(s, t2)
  {
    if t2 > 1.0 then 1.0 else if t2 < -1.0 then -1.0 else t2
  }

  function Dist(a: real, b: real): real {
    if a <= b then b - a else a - b
  }

  /** `quaternionToEuler` as written: it fails whenever the clamp reaches `TODO()`. */
  function QuaternionToEulerAsWritten(x: real, y: real, z: real, w: real): (r: Option<Rotation>)
    ensures r.Some? <==> !(-1.0 <= RawPitchSine(x, y, z, w) <= 1.0)
    ensures r.Some? ==> r.value == QuaternionToEuler(x, y, z, w)
  {
    var ysqr := y * y;
    var t0 := 2.0 * (w * x + y * z);
    var t1 := 1.0 - 2.0 * (x * x + ysqr);
    match ClampAsWritten(RawPitchSine(x, y, z, w))
    case None => None
    case Some(t2) =>
      var t3 := 2.0 * (w * z + x * y);
      var t4 := 1.0 - 2.0 * (ysqr + z * z);
      Some(Rotation(Atan2(t0, t1), Asin(t2), Atan2(t3, t4)))
  }

  /** `quaternionToEuler` with the clamp it intends: total, and asin always gets an argument in its domain. */
  function QuaternionToEuler(x: real, y: real, z: real, w: real): (r: Rotation)
    ensures r.roll.Atan2? && r.pitch.Asin? && r.yaw.Atan2?
    ensures -1.0 <= r.pitch.sine <= 1.0
  {
    var ysqr := y * y;
    var t0 := 2.0 * (w * x + y * z);
    var t1 := 1.0 - 2.0 * (x * x + ysqr);
    var t2 := ClampToUnit(RawPitchSine(x, y, z, w));
    var t3 := 2.0 * (w * z + x * y);
    var t4 := 1.0 - 2.0 * (ysqr + z * z);
    Rotation(Atan2(t0, t1), Asin(t2), Atan2(t3, t4))
  }

  /** For a unit quaternion the pitch argument already lies in [-1, 1]. */
  lemma UnitQuaternionPitchSineInRange(x: real, y: real, z: real, w: real)
    requires x * x + y * y + z * z + w * w == 1.0
    ensures -1.0 <= RawPitchSine(x, y, z, w) <= 1.0
  {
    // 1 - 2(wy - zx) = (w - y)^2 + (z + x)^2 and 1 + 2(wy - zx) = (w + y)^2 + (z - x)^2
    SquareNonNegative(w - y);
    SquareNonNegative(z + x);
    SquareNonNegative(w + y);
    SquareNonNegative(z - x);
    assert (w - y) * (w - y) + (z + x) * (z + x) == x * x + y * y + z * z + w * w - RawPitchSine(x, y, z, w);
    assert (w + y) * (w + y) + (z - x) * (z - x) == x * x + y * y + z * z + w * w + RawPitchSine(x, y, z, w);
  }

  lemma SquareNonNegative(a: real)
    ensures 0.0 <= a * a
  {
    if a < 0.0 {
      assert a * a == (-a) * (-a);
    }
  }

  /** For a unit quaternion the clamp is inactive: the pitch is asin(2(wy - zx)). */
  lemma UnitQuaternionPitchUnclamped(x: real, y: real, z: real, w: real)
    requires x * x + y * y + z * z + w * w == 1.0
    ensures QuaternionToEuler(x, y, z, w).pitch == Asin(RawPitchSine(x, y, z, w))
  {
    UnitQuaternionPitchSineInRange(x, y, z, w);
  }

  /** As written, the conversion fails on every unit quaternion, the identity (0, 0, 0, 1) included. */
  lemma AsWrittenFailsOnUnitQuaternions(x: real, y: real, z: real, w: real)
    requires x * x + y * y + z * z + w * w == 1.0
    ensures QuaternionToEulerAsWritten(x, y, z, w) == None
  {
    UnitQuaternionPitchSineInRange(x, y, z, w);
  }

  // ---------------------------------------------------------------------------
  // The overlay table, abstractly
  // ---------------------------------------------------------------------------

  /** A plane `update` shows: tracked and vertical (subsumption is not consulted). */
  predicate IsVisualized(p: Plane) {
    p.trackingState == Tracking && p.planeType == Vertical
  }

  /** The transform an overlay takes from its plane, on creation and on every refresh alike. */
  function PlaneTransform(p: Plane): Transform {
    var pose := p.centerPose;
    Transform(
      Float3(pose.tx, pose.ty, pose.tz),
      QuaternionToEuler(pose.qx, pose.qy, pose.qz, pose.qw),
      Float3(p.extentX, 1.0, p.extentZ))
  }

  /** The identities of the planes `update` shows. */
  function VisualizedIds(planes: seq<Plane>): set<PlaneId> {
    set p | p in planes && IsVisualized(p) :: p.id
  }

  /** The table of overlay transforms after one `update` over `planes`. */
  function Refreshed(overlays: map<PlaneId, Transform>, planes: seq<Plane>): map<PlaneId, Transform> {
    if planes == [] then overlays
    else
      var init, last := planes[..|planes| - 1], planes[|planes| - 1];
      var m := Refreshed(overlays, init);
      if IsVisualized(last) then m[last.id := PlaneTransform(last)] else m
  }

  /**
    An update keeps every entry, adds exactly the shown planes, and leaves the
    entries of planes it did not show as they were.
   */
  lemma {:induction false} RefreshedKeys(overlays: map<PlaneId, Transform>, planes: seq<Plane>)
    ensures Refreshed(overlays, planes).Keys == overlays.Keys + VisualizedIds(planes)
    ensures forall id :: id in overlays && id !in VisualizedIds(planes) ==> Refreshed(overlays, planes)[id] == overlays[id]
  {
    if planes != [] {
      var init, last := planes[..|planes| - 1], planes[|planes| - 1];
      assert planes == init + [last];
      RefreshedKeys(overlays, init);
      assert VisualizedIds(planes) == VisualizedIds(init) + (if IsVisualized(last) then {last.id} else {});
    }
  }

  /** The identities `update` inserts, in the order their overlays join the scene. */
  function NewSightings(known: set<PlaneId>, planes: seq<Plane>): seq<PlaneId> {
    if planes == [] then []
    else
      var init, last := planes[..|planes| - 1], planes[|planes| - 1];
      var prev := NewSightings(known, init);
      if IsVisualized(last) && last.id !in known && last.id !in prev then prev + [last.id] else prev
  }

  /**
    The insertions are exactly the shown planes not already in the table, each
    inserted once: one node per plane.
   */
  lemma {:induction false} NewSightingsAreNewKeys(known: set<PlaneId>, planes: seq<Plane>)
    ensures forall id :: id in NewSightings(known, planes) <==> id in VisualizedIds(planes) && id !in known
    ensures NoDuplicates(NewSightings(known, planes))
  {
    if planes != [] {
      var init, last := planes[..|planes| - 1], planes[|planes| - 1];
      assert planes == init + [last];
      NewSightingsAreNewKeys(known, init);
      assert VisualizedIds(planes) == VisualizedIds(init) + (if IsVisualized(last) then {last.id} else {});
      var prev := NewSightings(known, init);
      if IsVisualized(last) && last.id !in known && last.id !in prev {
        var ids := prev + [last.id];
        assert NewSightings(known, planes) == ids;
        forall i, j | 0 <= i < j < |ids|
          ensures ids[i] != ids[j]
        {
          assert ids[i] == prev[i];
        }
      }
    }
  }

  /** When every shown plane is already in the table, nothing is inserted: a repeated update adds no node. */
  lemma KnownPlanesAreNoSightings(known: set<PlaneId>, planes: seq<Plane>)
    requires VisualizedIds(planes) <= known
    ensures NewSightings(known, planes) == []
  {
    NewSightingsAreNewKeys(known, planes);
  }

  /** One more plane of the frame, as the loop of `update` sees it. */
  lemma RefreshedStep(overlays: map<PlaneId, Transform>, planes: seq<Plane>, i: nat)
    requires i < |planes|
    ensures Refreshed(overlays, planes[..i + 1])
         == var m := Refreshed(overlays, planes[..i]);
            if IsVisualized(planes[i]) then m[planes[i].id := PlaneTransform(planes[i])] else m
  {
    assert planes[..i + 1][..i] == planes[..i];
  }

  /** One more plane of the frame: it is a new sighting exactly when it is shown and not yet known. */
  lemma NewSightingsStep(known: set<PlaneId>, planes: seq<Plane>, i: nat)
    requires i < |planes|
    ensures NewSightings(known, planes[..i + 1])
         == var prev := NewSightings(known, planes[..i]);
            if IsVisualized(planes[i]) && planes[i].id !in known && planes[i].id !in prev
            then prev + [planes[i].id] else prev
  {
    assert planes[..i + 1][..i] == planes[..i];
  }

  /**
    The overlay of a shown plane carries the transform of the last snapshot of
    that plane in the frame: its center translation and its extents.
   */
  lemma {:induction false} RefreshedLastSightingWins(overlays: map<PlaneId, Transform>, planes: seq<Plane>, i: nat)
    requires i < |planes| && IsVisualized(planes[i])
    requires forall j :: i < j < |planes| && IsVisualized(planes[j]) ==> planes[j].id != planes[i].id
    ensures planes[i].id in Refreshed(overlays, planes)
    ensures Refreshed(overlays, planes)[planes[i].id] == PlaneTransform(planes[i])
  {
    var init, last := planes[..|planes| - 1], planes[|planes| - 1];
    if i < |planes| - 1 {
      RefreshedLastSightingWins(overlays, init, i);
    }
  }

  predicate NoDuplicates(ids: seq<PlaneId>) {
    forall i, j :: 0 <= i < j < |ids| ==> ids[i] != ids[j]
  }

  /** The visualized planes of a list, in order. */
  function VisualizedPlanes(planes: seq<Plane>): seq<Plane> {
    if planes == [] then []
    else
      var init, last := planes[..|planes| - 1], planes[|planes| - 1];
      VisualizedPlanes(init) + (if IsVisualized(last) then [last] else [])
  }

  /** Untracked and non-vertical planes have no effect on the table. */
  lemma {:induction false} RefreshedOnlyByVisualizedPlanes(overlays: map<PlaneId, Transform>, planes: seq<Plane>)
    ensures Refreshed(overlays, planes) == Refreshed(overlays, VisualizedPlanes(planes))
  {
    if planes != [] {
      var init, last := planes[..|planes| - 1], planes[|planes| - 1];
      RefreshedOnlyByVisualizedPlanes(overlays, init);
      if IsVisualized(last) {
        var v := VisualizedPlanes(init) + [last];
        assert VisualizedPlanes(planes) == v;
        assert v[..|v| - 1] == VisualizedPlanes(init) && v[|v| - 1] == last;
        calc {
          Refreshed(overlays, v);
          Refreshed(overlays, VisualizedPlanes(init))[last.id := PlaneTransform(last)];
          Refreshed(overlays, init)[last.id := PlaneTransform(last)];
        }
      } else {
        assert VisualizedPlanes(planes) == VisualizedPlanes(init) + [];
        assert VisualizedPlanes(init) + [] == VisualizedPlanes(init);
      }
    }
  }

  /** Untracked and non-vertical planes never cause an insertion. */
  lemma {:induction false} SightingsOnlyOfVisualizedPlanes(known: set<PlaneId>, planes: seq<Plane>)
    ensures NewSightings(known, planes) == NewSightings(known, VisualizedPlanes(planes))
  {
    if planes != [] {
      var init, last := planes[..|planes| - 1], planes[|planes| - 1];
      SightingsOnlyOfVisualizedPlanes(known, init);
      if IsVisualized(last) {
        var v := VisualizedPlanes(init) + [last];
        assert VisualizedPlanes(planes) == v;
        assert v[..|v| - 1] == VisualizedPlanes(init) && v[|v| - 1] == last;
        var prev := NewSightings(known, init);
        assert NewSightings(known, v)
            == if last.id !in known && last.id !in prev then prev + [last.id] else prev;
      } else {
        assert VisualizedPlanes(planes) == VisualizedPlanes(init) + [];
        assert VisualizedPlanes(init) + [] == VisualizedPlanes(init);
      }
    }
  }

  /** One update is the old table overridden by what the planes alone produce. */
  lemma {:induction false} RefreshedOverrides(overlays: map<PlaneId, Transform>, planes: seq<Plane>)
    ensures Refreshed(overlays, planes) == overlays + Refreshed(map[], planes)
  {
    if planes != [] {
      var init, last := planes[..|planes| - 1], planes[|planes| - 1];
      RefreshedOverrides(overlays, init);
      RefreshedOverrides(map[], init);
    }
  }

  /** Repeating an update with the same planes changes nothing more. */
  lemma RefreshedIdempotent(overlays: map<PlaneId, Transform>, planes: seq<Plane>)
    ensures Refreshed(Refreshed(overlays, planes), planes) == Refreshed(overlays, planes)
  {
    var produced := Refreshed(map[], planes);
    RefreshedOverrides(overlays, planes);
    RefreshedOverrides(overlays + produced, planes);
    assert overlays + produced + produced == overlays + produced;
  }

  // ---------------------------------------------------------------------------
  // The visualizer
  // ---------------------------------------------------------------------------

  /** The overlay children for the planes `ids`, in that order. */
  function OverlaysOf(ids: seq<PlaneId>, nodes: map<PlaneId, PlaneNode>): (r: seq<Node>)
    requires forall i :: 0 <= i < |ids| ==> ids[i] in nodes
    ensures |r| == |ids|
    ensures forall i :: 0 <= i < |ids| ==> r[i] == Overlay(nodes[ids[i]])
  {
    if ids == [] then [] else OverlaysOf(ids[..|ids| - 1], nodes) + [Overlay(nodes[ids[|ids| - 1]])]
  }

  /** Adding a node for a plane not among `ids` leaves their overlays as they were. */
  lemma OverlaysOfInsert(ids: seq<PlaneId>, nodes: map<PlaneId, PlaneNode>, id: PlaneId, node: PlaneNode)
    requires forall i :: 0 <= i < |ids| ==> ids[i] in nodes && ids[i] != id
    ensures OverlaysOf(ids, nodes[id := node]) == OverlaysOf(ids, nodes)
  {
  }

  /** One more plane at the end of `ids`. */
  lemma OverlaysOfAppend(ids: seq<PlaneId>, nodes: map<PlaneId, PlaneNode>, id: PlaneId)
    requires forall i :: 0 <= i < |ids| ==> ids[i] in nodes
    requires id in nodes
    ensures OverlaysOf(ids + [id], nodes) == OverlaysOf(ids, nodes) + [Overlay(nodes[id])]
  {
    assert (ids + [id])[..|ids|] == ids;
  }

  /**
    The table `nodes` and the scene `children` after the first sightings
    `added`, starting from the table `nodes0` and the scene `children0`: the
    old entries keep their nodes, each sighting has a node not among `made0`
    (the nodes made before), and its overlay joins the scene in order.
   */
  ghost predicate Extends(nodes0: map<PlaneId, PlaneNode>, children0: seq<Node>, made0: set<PlaneNode>,
                          nodes: map<PlaneId, PlaneNode>, children: seq<Node>, added: seq<PlaneId>)
  {
    && (forall id :: id in nodes <==> id in nodes0 || id in added)
    && (forall id :: id in nodes0 ==> id in nodes && nodes[id] == nodes0[id])
    && (forall j :: 0 <= j < |added| ==> added[j] in nodes && nodes[added[j]] !in made0)
    && children == children0 + OverlaysOf(added, nodes)
  }

  /** A first sighting: the table gains the plane's new node, the scene its overlay. */
  lemma SightingStep(nodes0: map<PlaneId, PlaneNode>, children0: seq<Node>, made0: set<PlaneNode>,
                     nodes: map<PlaneId, PlaneNode>, children: seq<Node>, added: seq<PlaneId>,
                     id: PlaneId, node: PlaneNode)
    requires Extends(nodes0, children0, made0, nodes, children, added)
    requires id !in nodes && node !in made0
    ensures Extends(nodes0, children0, made0, nodes[id := node], children + [Overlay(node)], added + [id])
  {
    var nodes', added' := nodes[id := node], added + [id];
    SightingOverlays(children0, nodes, children, added, id, node);
    forall k
      ensures k in nodes' <==> k in nodes0 || k in added'
    {
      assert k in added' <==> k in added || k == id;
    }
    forall j | 0 <= j < |added'|
      ensures added'[j] in nodes' && nodes'[added'[j]] !in made0
    {
      if j < |added| {
        assert added'[j] == added[j];
      }
    }
  }

  /** The new overlay joins the scene after those of the earlier sightings. */
  lemma SightingOverlays(children0: seq<Node>, nodes: map<PlaneId, PlaneNode>, children: seq<Node>,
                         added: seq<PlaneId>, id: PlaneId, node: PlaneNode)
    requires forall j :: 0 <= j < |added| ==> added[j] in nodes
    requires id !in nodes
    requires children == children0 + OverlaysOf(added, nodes)
    ensures children + [Overlay(node)] == children0 + OverlaysOf(added + [id], nodes[id := node])
  {
    OverlaysOfInsert(added, nodes, id, node);
    OverlaysOfAppend(added, nodes[id := node], id);
  }

  /**
    What the loop of `update` has done after the first `i` planes: the mirror
    is refreshed by them, and the table and the scene are extended by the new
    sightings among them.
   */
  ghost predicate Progress(nodes0: map<PlaneId, PlaneNode>, overlays0: map<PlaneId, Transform>, children0: seq<Node>,
                           made0: set<PlaneNode>, planes: seq<Plane>, i: nat,
                           nodes: map<PlaneId, PlaneNode>, overlays: map<PlaneId, Transform>, made: set<PlaneNode>,
                           children: seq<Node>, added: seq<PlaneId>)
    requires i <= |planes|
  {
    && made0 <= made
    && added == NewSightings(nodes0.Keys, planes[..i])
    && overlays == Refreshed(overlays0, planes[..i])
    && Extends(nodes0, children0, made0, nodes, children, added)
  }

  /** One plane visited, as `Visit` promises. */
  lemma ProgressStep(nodes0: map<PlaneId, PlaneNode>, overlays0: map<PlaneId, Transform>, children0: seq<Node>,
                     made0: set<PlaneNode>, planes: seq<Plane>, i: nat,
                     nodes: map<PlaneId, PlaneNode>, overlays: map<PlaneId, Transform>, made: set<PlaneNode>,
                     children: seq<Node>, added: seq<PlaneId>,
                     nodes': map<PlaneId, PlaneNode>, overlays': map<PlaneId, Transform>, made': set<PlaneNode>,
                     children': seq<Node>)
    requires i < |planes|
    requires Progress(nodes0, overlays0, children0, made0, planes, i, nodes, overlays, made, children, added)
    requires made <= made'
    requires overlays' == if IsVisualized(planes[i]) then overlays[planes[i].id := PlaneTransform(planes[i])] else overlays
    requires IsVisualized(planes[i]) && planes[i].id !in nodes ==>
      && planes[i].id in nodes'
      && nodes'[planes[i].id] !in made
      && nodes' == nodes[planes[i].id := nodes'[planes[i].id]]
      && children' == children + [Overlay(nodes'[planes[i].id])]
    requires !(IsVisualized(planes[i]) && planes[i].id !in nodes) ==> nodes' == nodes && children' == children
    ensures Progress(nodes0, overlays0, children0, made0, planes, i + 1, nodes', overlays', made', children',
                     if IsVisualized(planes[i]) && planes[i].id !in nodes then added + [planes[i].id] else added)
  {
    var p := planes[i];
    RefreshedStep(overlays0, planes, i);
    ExtendsMembership(nodes0, children0, made0, nodes, children, added, p.id);
    SightingsStep(nodes0.Keys, planes, i, added, p.id !in nodes);
    if IsVisualized(p) && p.id !in nodes {
      SightingStep(nodes0, children0, made0, nodes, children, added, p.id, nodes'[p.id]);
    }
  }

  /** A plane is in the extended table exactly when it was there before or is a new sighting. */
  lemma ExtendsMembership(nodes0: map<PlaneId, PlaneNode>, children0: seq<Node>, made0: set<PlaneNode>,
                          nodes: map<PlaneId, PlaneNode>, children: seq<Node>, added: seq<PlaneId>, id: PlaneId)
    requires Extends(nodes0, children0, made0, nodes, children, added)
    ensures id in nodes <==> id in nodes0 || id in added
  {
  }

  /** The next plane is a new sighting when it is shown and not yet in the table. */
  lemma SightingsStep(known: set<PlaneId>, planes: seq<Plane>, i: nat, added: seq<PlaneId>, absent: bool)
    requires i < |planes|
    requires added == NewSightings(known, planes[..i])
    requires absent <==> planes[i].id !in known && planes[i].id !in added
    ensures NewSightings(known, planes[..i + 1])
         == if IsVisualized(planes[i]) && absent then added + [planes[i].id] else added
  {
    NewSightingsStep(known, planes, i);
  }

  /** After the whole frame: what `update` promises, in terms of the frame's planes. */
  lemma ProgressDone(nodes0: map<PlaneId, PlaneNode>, overlays0: map<PlaneId, Transform>, children0: seq<Node>,
                     made0: set<PlaneNode>, planes: seq<Plane>,
                     nodes: map<PlaneId, PlaneNode>, overlays: map<PlaneId, Transform>, made: set<PlaneNode>,
                     children: seq<Node>, added: seq<PlaneId>)
    requires Progress(nodes0, overlays0, children0, made0, planes, |planes|, nodes, overlays, made, children, added)
    ensures added == NewSightings(nodes0.Keys, planes)
    ensures overlays == Refreshed(overlays0, planes)
    ensures nodes.Keys == nodes0.Keys + VisualizedIds(planes)
    ensures forall id :: id in nodes0 ==> id in nodes && nodes[id] == nodes0[id]
    ensures forall j :: 0 <= j < |added| ==> added[j] in nodes && nodes[added[j]] !in made0
    ensures children == children0 + OverlaysOf(added, nodes)
    ensures VisualizedIds(planes) <= nodes0.Keys ==> nodes == nodes0 && children == children0
  {
    assert planes[..|planes|] == planes;
    NewSightingsAreNewKeys(nodes0.Keys, planes);
    if VisualizedIds(planes) <= nodes0.Keys {
      KnownPlanesAreNoSightings(nodes0.Keys, planes);
      assert children0 + [] == children0;
    }
  }

  class PlaneVisualizer {
    var visiblePlanes: map<PlaneId, PlaneNode>
    /** The overlay transforms, by plane identity. */
    ghost var overlays: map<PlaneId, Transform>
    /** The plane each overlay node was made for; its keys are every node the visualizer has made. */
    ghost var owner: map<PlaneNode, PlaneId>

    /**
      Each entry's node was made for that plane (so no node serves two planes),
      and `overlays` is what the nodes hold.
     */
    ghost predicate Valid()
      reads this, owner.Keys
    {
      && visiblePlanes.Keys == overlays.Keys
      && forall id :: id in visiblePlanes ==>
           && visiblePlanes[id] in owner
           && owner[visiblePlanes[id]] == id
           && visiblePlanes[id].State() == overlays[id]
    }

    /** No node serves two planes. */
    lemma NodesAreDistinct(a: PlaneId, b: PlaneId)
      requires Valid() && a in visiblePlanes && b in visiblePlanes && a != b
      ensures visiblePlanes[a] != visiblePlanes[b]
    {
    }

    constructor ()
      ensures Valid() && visiblePlanes == map[] && overlays == map[] && owner == map[]
    {
      visiblePlanes := map[];
      overlays := map[];
      owner := map[];
    }

    /**
      `update`: without a session nothing happens; otherwise every tracked
      vertical plane of the frame the session yields gets a new overlay (first
      sighting) or has its overlay refreshed. No entry is ever removed, and an
      update that sees no plane for the first time adds no node and no child.
     */
    method Update(sceneView: SceneView, frame: Option<Frame>)
      requires Valid()
      modifies this, sceneView, owner.Keys
      ensures Valid()
      ensures fresh(owner.Keys - old(owner.Keys))
      ensures frame.None? ==>
        && visiblePlanes == old(visiblePlanes)
        && overlays == old(overlays)
        && sceneView.children == old(sceneView.children)
        && unchanged(old(owner.Keys))
      ensures frame.Some? ==>
        var planes := frame.value.updatedPlanes;
        var added := NewSightings(old(visiblePlanes.Keys), planes);
        && overlays == Refreshed(old(overlays), planes)
        && visiblePlanes.Keys == old(visiblePlanes.Keys) + VisualizedIds(planes)
        && (forall id :: id in old(visiblePlanes) ==> visiblePlanes[id] == old(visiblePlanes[id]))
        && (forall i :: 0 <= i < |added| ==> added[i] in visiblePlanes && fresh(visiblePlanes[added[i]]))
        && sceneView.children == old(sceneView.children) + OverlaysOf(added, visiblePlanes)
      ensures frame.Some? && VisualizedIds(frame.value.updatedPlanes) <= old(visiblePlanes.Keys) ==>
        && visiblePlanes == old(visiblePlanes)
        && sceneView.children == old(sceneView.children)
    {
      if frame.None? {
        return;
      }
      ShowPlanes(sceneView, frame.value.updatedPlanes);
    }

    /** The `forEach` of `update` over the frame's updated planes. */
    method ShowPlanes(sceneView: SceneView, planes: seq<Plane>)
      requires Valid()
      modifies this, sceneView, owner.Keys
      ensures Valid()
      ensures fresh(owner.Keys - old(owner.Keys))
      ensures overlays == Refreshed(old(overlays), planes)
      ensures visiblePlanes.Keys == old(visiblePlanes.Keys) + VisualizedIds(planes)
      ensures forall id :: id in old(visiblePlanes) ==> visiblePlanes[id] == old(visiblePlanes[id])
      ensures var added := NewSightings(old(visiblePlanes.Keys), planes);
        && (forall i :: 0 <= i < |added| ==> added[i] in visiblePlanes && fresh(visiblePlanes[added[i]]))
        && sceneView.children == old(sceneView.children) + OverlaysOf(added, visiblePlanes)
      ensures VisualizedIds(planes) <= old(visiblePlanes.Keys) ==>
        visiblePlanes == old(visiblePlanes) && sceneView.children == old(sceneView.children)
    {
      ghost var added: seq<PlaneId> := [];
      ghost var nodes0, overlays0, children0, made0 := visiblePlanes, overlays, sceneView.children, owner.Keys;
      for i := 0 to |planes|
        invariant Valid()
        invariant fresh(owner.Keys - made0)
        invariant Progress(nodes0, overlays0, children0, made0, planes, i,
                           visiblePlanes, overlays, owner.Keys, sceneView.children, added)
      {
        added := ShowNext(sceneView, planes, i, nodes0, overlays0, children0, made0, added);
      }
      ProgressDone(nodes0, overlays0, children0, made0, planes, visiblePlanes, overlays, owner.Keys, sceneView.children, added);
      forall j | 0 <= j < |added|
        ensures added[j] in visiblePlanes && fresh(visiblePlanes[added[j]])
      {
        assert visiblePlanes[added[j]] in owner.Keys - old(owner.Keys);
      }
    }

    /** One pass of the `forEach` of `update`: plane `i` visited, the loop's account kept. */
    method ShowNext(sceneView: SceneView, planes: seq<Plane>, i: nat,
                    ghost nodes0: map<PlaneId, PlaneNode>, ghost overlays0: map<PlaneId, Transform>,
                    ghost children0: seq<Node>, ghost made0: set<PlaneNode>, ghost added: seq<PlaneId>)
      returns (ghost added': seq<PlaneId>)
      requires i < |planes| && Valid()
      requires Progress(nodes0, overlays0, children0, made0, planes, i,
                        visiblePlanes, overlays, owner.Keys, sceneView.children, added)
      modifies this, sceneView, owner.Keys
      ensures Valid()
      ensures fresh(owner.Keys - old(owner.Keys))
      ensures Progress(nodes0, overlays0, children0, made0, planes, i + 1,
                       visiblePlanes, overlays, owner.Keys, sceneView.children, added')
    {
      var plane := planes[i];
      ghost var isNew := IsVisualized(plane) && plane.id !in visiblePlanes;
      Visit(sceneView, plane);
      ProgressStep(nodes0, overlays0, children0, made0, planes, i,
                   old(visiblePlanes), old(overlays), old(owner.Keys), old(sceneView.children), added,
                   visiblePlanes, overlays, owner.Keys, sceneView.children);
      added' := if isNew then added + [plane.id] else added;
    }

    /** The loop body of `update`, for one plane. */
    method Visit(sceneView: SceneView, plane: Plane)
      requires Valid()
      modifies this, sceneView, owner.Keys
      ensures Valid()
      ensures fresh(owner.Keys - old(owner.Keys))
      ensures old(owner.Keys) <= owner.Keys
      ensures overlays == if IsVisualized(plane) then old(overlays)[plane.id := PlaneTransform(plane)] else old(overlays)
      ensures IsVisualized(plane) && plane.id !in old(visiblePlanes) ==>
        && plane.id in visiblePlanes
        && visiblePlanes[plane.id] !in old(owner.Keys)
        && visiblePlanes == old(visiblePlanes)[plane.id := visiblePlanes[plane.id]]
        && sceneView.children == old(sceneView.children) + [Overlay(visiblePlanes[plane.id])]
      ensures !(IsVisualized(plane) && plane.id !in old(visiblePlanes)) ==>
        && visiblePlanes == old(visiblePlanes)
        && sceneView.children == old(sceneView.children)
    {
      if plane.trackingState != Tracking {
        return;
      }
      if plane.planeType == Vertical {
        if plane.id !in visiblePlanes {
          Insert(sceneView, plane);
        } else {
          Refresh(plane);
        }
      }
    }

    /** First sighting: a new node, added to the scene and the table. */
    method Insert(sceneView: SceneView, plane: Plane)
      requires Valid() && plane.id !in visiblePlanes
      modifies this, sceneView
      ensures Valid()
      ensures plane.id in visiblePlanes && fresh(visiblePlanes[plane.id])
      ensures owner.Keys == old(owner.Keys) + {visiblePlanes[plane.id]}
      ensures overlays == old(overlays)[plane.id := PlaneTransform(plane)]
      ensures visiblePlanes == old(visiblePlanes)[plane.id := visiblePlanes[plane.id]]
      ensures sceneView.children == old(sceneView.children) + [Overlay(visiblePlanes[plane.id])]
    {
      var newNode := CreatePlaneNode(plane);
      sceneView.AddChildNode(Overlay(newNode));
      assert newNode !in owner;
      ghost var nodes, made := visiblePlanes, owner;
      visiblePlanes := visiblePlanes[plane.id := newNode];
      owner := owner[newNode := plane.id];
      overlays := overlays[plane.id := PlaneTransform(plane)];
      forall id | id in visiblePlanes
        ensures visiblePlanes[id] in owner && owner[visiblePlanes[id]] == id && visiblePlanes[id].State() == overlays[id]
      {
        if id != plane.id {
          assert visiblePlanes[id] == nodes[id] && nodes[id] in made;
        }
      }
    }

    /** Later sighting: the plane's node takes the plane's new transform in place. */
    method Refresh(plane: Plane)
      requires Valid() && plane.id in visiblePlanes
      modifies this, visiblePlanes[plane.id]
      ensures Valid()
      ensures owner == old(owner) && visiblePlanes == old(visiblePlanes)
      ensures overlays == old(overlays)[plane.id := PlaneTransform(plane)]
    {
      var existing := visiblePlanes[plane.id];
      UpdatePlaneNode(existing, plane);
      overlays := overlays[plane.id := PlaneTransform(plane)];
    }

    /** `createPlaneNode`: a new node at the plane's center, oriented by its quaternion, scaled by its extents. */
    static method CreatePlaneNode(plane: Plane) returns (node: PlaneNode)
      ensures fresh(node)
      ensures node.position == Float3(plane.centerPose.tx, plane.centerPose.ty, plane.centerPose.tz)
      ensures node.rotation == QuaternionToEuler(plane.centerPose.qx, plane.centerPose.qy, plane.centerPose.qz, plane.centerPose.qw)
      ensures node.scale == Float3(plane.extentX, 1.0, plane.extentZ)
      ensures node.State() == PlaneTransform(plane)
    {
      var pose := plane.centerPose;
      var extentX := plane.extentX;
      var extentZ := plane.extentZ;
      node := new PlaneNode(
        Float3(pose.tx, pose.ty, pose.tz),
        QuaternionToEuler(pose.qx, pose.qy, pose.qz, pose.qw),
        Float3(extentX, 1.0, extentZ));
    }

    /** `updatePlaneNode`: the same three assignments on an existing node. */
    static method UpdatePlaneNode(node: PlaneNode, plane: Plane)
      modifies node
      ensures node.position == Float3(plane.centerPose.tx, plane.centerPose.ty, plane.centerPose.tz)
      ensures node.rotation == QuaternionToEuler(plane.centerPose.qx, plane.centerPose.qy, plane.centerPose.qz, plane.centerPose.qw)
      ensures node.scale == Float3(plane.extentX, 1.0, plane.extentZ)
      ensures node.State() == PlaneTransform(plane)
    {
      var pose := plane.centerPose;
      node.position := Float3(pose.tx, pose.ty, pose.tz);
      node.rotation := QuaternionToEuler(pose.qx, pose.qy, pose.qz, pose.qw);
      node.scale := Float3(plane.extentX, 1.0, plane.extentZ);
    }
  }
}
