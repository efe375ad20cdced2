/**
 The observable state of the view controller and one transition function per
 callback. Each function is the specification of the matching method of
 Controller.ViewController; the properties the controller promises are
 proved about these functions in ControllerProperties.
 */
module ControllerState {
  import opened Wrappers
  import opened SessionStatus

  /** An anchor identifier: a 128-bit UUID. */
  type Uuid = x: nat | x < 0x1_0000_0000_0000_0000_0000_0000_0000_0000

  /** A position or size copied from the tracker; the controller never computes with it. */
  datatype Vector3 = Vector3(x: real, y: real, z: real)

  /** A detected horizontal plane as the tracker reports it. */
  datatype PlaneAnchor = PlaneAnchor(identifier: Uuid, extent: Vector3, center: Vector3)

  /** An anchor passed to a renderer callback: a plane anchor or any other kind. */
  datatype Anchor = Plane(plane: PlaneAnchor) | NonPlane(identifier: Uuid)

  /**
   The translucent proxy built for a plane: the anchor it was created from and
   the extent and center of the latest anchor it was given, kept as the
   anchor's own values.
   */
  datatype VirtualPlane = VirtualPlane(anchor: PlaneAnchor, extent: Vector3, center: Vector3)

  /**
   A child of the scene's root node: the node the tracker keeps for a plane
   anchor, carrying the proxy the controller attached to it, or a placed cup.
   The node of a plane anchor is recorded when the anchor is added and kept
   after it is removed, since only the framework detaches it. The nodes the
   framework adds for anchors that are not planes are not recorded.
   */
  datatype SceneNode = PlaneProxy(anchor: Uuid) | Cup(position: Vector3)

  /** One hit-test result: the anchor that was hit, if any, and the hit's world translation. */
  datatype Hit = Hit(anchor: Option<Uuid>, translation: Vector3)

  /** A touch handed to the controller; its screen location only feeds the hit test. */
  datatype Touch = Touch(handle: nat)

  /**
   What the controller holds: the session status, the plane registry, the
   root's children, the selected plane, and the label updates queued for the
   main thread, oldest first.
   */
  datatype Snapshot = Snapshot(
    status: Status,
    planes: map<Uuid, VirtualPlane>,
    scene: seq<SceneNode>,
    selected: Option<VirtualPlane>,
    published: seq<string>)

  /** The state once the view has loaded: nothing detected, nothing published. */
  const Launched: Snapshot := Snapshot(Initialized, map[], [], None, [])

  function NewVirtualPlane(a: PlaneAnchor): VirtualPlane
  {
    VirtualPlane(a, a.extent, a.center)
  }

  /** The proxy resized and moved to a refreshed anchor; the anchor it was built from is kept. */
  function UpdatedWithNewAnchor(p: VirtualPlane, a: PlaneAnchor): VirtualPlane
  {
    p.(extent := a.extent, center := a.center)
  }

  /** Removing every child of the root node. */
  function CleanedUp(v: Snapshot): Snapshot
  {
    v.(scene := [])
  }

  /** Assigning the status, followed by its observer: a label update is queued, and Failed clears the scene. */
  function AssignStatus(v: Snapshot, s: Status): Snapshot
  {
    var w := v.(status := s, published := v.published + [Description(s)]);
    if s == Failed then CleanedUp(w) else w
  }

  /** The registry observer, run on a state whose planes were just assigned. */
  function PlanesObserver(v: Snapshot): Snapshot
  {
    if |v.planes| > 0 then AssignStatus(v, Ready)
    else if v.status == Ready then AssignStatus(v, Initialized)
    else v
  }

  /** Assigning the registry, followed by its observer. */
  function AssignPlanes(v: Snapshot, planes: map<Uuid, VirtualPlane>): Snapshot
  {
    PlanesObserver(v.(planes := planes))
  }

  /** The view is about to appear: the session is restarted and the status is Ready if planes are known. */
  function ViewWillAppear(v: Snapshot): Snapshot
  {
    if |v.planes| > 0 then AssignStatus(v, Ready) else v
  }

  /** The view is about to disappear: the session is paused. */
  function ViewWillDisappear(v: Snapshot): Snapshot
  {
    AssignStatus(v, TemporarilyUnavailable)
  }

  function SessionDidFail(v: Snapshot): Snapshot
  {
    AssignStatus(v, Failed)
  }

  function SessionWasInterrupted(v: Snapshot): Snapshot
  {
    AssignStatus(v, TemporarilyUnavailable)
  }

  function SessionInterruptionEnded(v: Snapshot): Snapshot
  {
    AssignStatus(v, Ready)
  }

  /** A new anchor: a plane anchor gets a fresh proxy in the registry and under its node. */
  function DidAddAnchor(v: Snapshot, a: Anchor): Snapshot
  {
    match a
    case NonPlane(_) => v
    case Plane(p) =>
      var w := AssignPlanes(v, v.planes[p.identifier := NewVirtualPlane(p)]);
      w.(scene := w.scene + [PlaneProxy(p.identifier)])
  }

  /**
   A refreshed anchor: a registered plane's proxy is updated in place. The
   registry itself is not reassigned, so its observer does not run.
   */
  function DidUpdateAnchor(v: Snapshot, a: Anchor): Snapshot
  {
    match a
    case NonPlane(_) => v
    case Plane(p) =>
      if p.identifier in v.planes
      then v.(planes := v.planes[p.identifier := UpdatedWithNewAnchor(v.planes[p.identifier], p)])
      else v
  }

  /** A removed anchor: a registered plane leaves the registry. */
  function DidRemoveAnchor(v: Snapshot, a: Anchor): Snapshot
  {
    match a
    case NonPlane(_) => v
    case Plane(p) =>
      if p.identifier in v.planes then AssignPlanes(v, v.planes - {p.identifier}) else v
  }

  /** The registered plane that the first hit lies on, if there is one. */
  function RegisteredHit(planes: map<Uuid, VirtualPlane>, hits: seq<Hit>): Option<Uuid>
  {
    if |hits| > 0 && hits[0].anchor.Some? && hits[0].anchor.value in planes
    then Some(hits[0].anchor.value)
    else None
  }

  /** Looking the touched plane up: a registered plane that was hit becomes the selected plane. */
  function SelectTouchedPlane(v: Snapshot, hits: seq<Hit>): Snapshot
  {
    match RegisteredHit(v.planes, hits)
    case None => v
    case Some(id) => v.(selected := Some(v.planes[id]))
  }

  /** Placing a clone of the cup at the first hit, attached to the root node. */
  function AddCup(v: Snapshot, hits: seq<Hit>): Snapshot
  {
    if |hits| > 0 then v.(scene := v.scene + [Cup(hits[0].translation)]) else v
  }

  /**
   A touch: ignored without a touch or outside Ready; otherwise the plane
   under it is looked up by one hit test and, when registered, a cup is
   placed where a second hit test lands.
   */
  function TouchesBegan(v: Snapshot, touches: set<Touch>, planeHits: seq<Hit>, placementHits: seq<Hit>): Snapshot
  {
    if touches == {} || v.status != Ready then v
    else
      var w := SelectTouchedPlane(v, planeHits);
      if RegisteredHit(v.planes, planeHits).Some? then AddCup(w, placementHits) else w
  }

  /** The callbacks the controller receives, each with the inputs the framework supplies. */
  datatype Event =
    | WillAppear
    | WillDisappear
    | SessionError
    | Interrupted
    | InterruptionEnded
    | AnchorAdded(anchor: Anchor)
    | AnchorUpdated(anchor: Anchor)
    | AnchorRemoved(anchor: Anchor)
    | TouchesBeganEvent(touches: set<Touch>, planeHits: seq<Hit>, placementHits: seq<Hit>)

  function Step(v: Snapshot, e: Event): Snapshot
  {
    match e
    case WillAppear => ViewWillAppear(v)
    case WillDisappear => ViewWillDisappear(v)
    case SessionError => SessionDidFail(v)
    case Interrupted => SessionWasInterrupted(v)
    case InterruptionEnded => SessionInterruptionEnded(v)
    case AnchorAdded(a) => DidAddAnchor(v, a)
    case AnchorUpdated(a) => DidUpdateAnchor(v, a)
    case AnchorRemoved(a) => DidRemoveAnchor(v, a)
    case TouchesBeganEvent(t, ph, pl) => TouchesBegan(v, t, ph, pl)
  }

  /** The callbacks delivered one after another, in order. */
  function Run(v: Snapshot, es: seq<Event>): Snapshot
    decreases |es|
  {
    if es == [] then v else Run(Step(v, es[0]), es[1..])
  }
}
