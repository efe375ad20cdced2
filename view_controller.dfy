/**
 The view controller: the session status and the plane registry as fields
 whose observers chain one assignment into the next, and one method per
 callback it receives. Each method is proved to leave the controller in the
 state the matching transition function of ControllerState gives.
 */
module Controller {
  import opened Wrappers
  import opened SessionStatus
  import opened ControllerState

  class ViewController {
    var status: Status
    var planes: map<Uuid, VirtualPlane>
    /** The children of the scene's root node, in the order they were attached. */
    var scene: seq<SceneNode>
    var selected: Option<VirtualPlane>
    /** Label updates handed to the main thread, oldest first. */
    var published: seq<string>

    function State(): Snapshot
      reads this
    {
      Snapshot(status, planes, scene, selected, published)
    }

    /** The controller once its view has loaded: the property initialisers run, no observer fires. */
    constructor ()
      ensures State() == Launched
    {
      status := Initialized;
      planes := map[];
      scene := [];
      selected := None;
      published := [];
    }

    /**
     Removes every child of the root node, one at a time in enumeration order.
     The framework's enumeration also visits each descendant and detaches it
     from its own parent; with the scene kept flat, only the root's children
     are seen here.
     */
    method CleanupARSession()
      modifies this
      ensures State() == CleanedUp(old(State()))
    {
      var children := scene;
      var i := 0;
      while i < |children|
        invariant 0 <= i <= |children|
        invariant State() == old(State()).(scene := children[i..])
      {
        scene := scene[1..];
        i := i + 1;
      }
    }

    /** Assigns the status and runs its observer. */
    method SetStatus(s: Status)
      modifies this
      ensures State() == AssignStatus(old(State()), s)
    {
      status := s;
      published := published + [Description(s)];
      if status == Failed {
        CleanupARSession();
      }
    }

    /** Assigns the registry and runs its observer, which may assign the status in turn. */
    method SetPlanes(p: map<Uuid, VirtualPlane>)
      modifies this
      ensures State() == AssignPlanes(old(State()), p)
    {
      planes := p;
      if |planes| > 0 {
        SetStatus(Ready);
      } else if status == Ready {
        SetStatus(Initialized);
      }
    }

    method ViewWillAppear()
      modifies this
      ensures State() == ControllerState.ViewWillAppear(old(State()))
    {
      if |planes| > 0 {
        SetStatus(Ready);
      }
    }

    method ViewWillDisappear()
      modifies this
      ensures State() == ControllerState.ViewWillDisappear(old(State()))
    {
      SetStatus(TemporarilyUnavailable);
    }

    /** The registered plane the first hit lies on, which also becomes the selected plane. */
    method VirtualPlaneProperlySet(hits: seq<Hit>) returns (plane: Option<VirtualPlane>)
      modifies this
      ensures plane.Some? <==> RegisteredHit(planes, hits).Some?
      ensures plane.Some? ==> plane == Some(planes[RegisteredHit(planes, hits).value])
      ensures State() == SelectTouchedPlane(old(State()), hits)
    {
      if |hits| > 0 && hits[0].anchor.Some? && hits[0].anchor.value in planes {
        var p := planes[hits[0].anchor.value];
        selected := Some(p);
        return Some(p);
      }
      return None;
    }

    /** Attaches a clone of the cup to the root node at the first hit, if there is one. */
    method AddCupToPlane(plane: VirtualPlane, hits: seq<Hit>)
      modifies this
      ensures State() == AddCup(old(State()), hits)
    {
      if |hits| > 0 {
        scene := scene + [Cup(hits[0].translation)];
      }
    }

    method TouchesBegan(touches: set<Touch>, planeHits: seq<Hit>, placementHits: seq<Hit>)
      modifies this
      ensures State() == ControllerState.TouchesBegan(old(State()), touches, planeHits, placementHits)
    {
      if touches == {} {
        return;
      }
      if status != Ready {
        return;
      }
      var plane := VirtualPlaneProperlySet(planeHits);
      if plane.Some? {
        AddCupToPlane(plane.value, placementHits);
      }
    }

    method SessionDidFailWithError()
      modifies this
      ensures State() == SessionDidFail(old(State()))
    {
      SetStatus(Failed);
    }

    method SessionWasInterrupted()
      modifies this
      ensures State() == ControllerState.SessionWasInterrupted(old(State()))
    {
      SetStatus(TemporarilyUnavailable);
    }

    method SessionInterruptionEnded()
      modifies this
      ensures State() == ControllerState.SessionInterruptionEnded(old(State()))
    {
      SetStatus(Ready);
    }

    /** A plane anchor gets a new proxy, stored in the registry and attached to the anchor's node. */
    method RendererDidAdd(anchor: Anchor)
      modifies this
      ensures State() == DidAddAnchor(old(State()), anchor)
    {
      if anchor.Plane? {
        var p := anchor.plane;
        SetPlanes(planes[p.identifier := NewVirtualPlane(p)]);
        scene := scene + [PlaneProxy(p.identifier)];
      }
    }

    /** A registered plane's proxy follows the refreshed anchor; the registry is not reassigned. */
    method RendererDidUpdate(anchor: Anchor)
      modifies this
      ensures State() == DidUpdateAnchor(old(State()), anchor)
    {
      if anchor.Plane? && anchor.plane.identifier in planes {
        var id := anchor.plane.identifier;
        planes := planes[id := UpdatedWithNewAnchor(planes[id], anchor.plane)];
      }
    }

    /** A registered plane leaves the registry, whose observer then runs. */
    method RendererDidRemove(anchor: Anchor)
      modifies this
      ensures State() == DidRemoveAnchor(old(State()), anchor)
    {
      if anchor.Plane? && anchor.plane.identifier in planes {
        SetPlanes(planes - {anchor.plane.identifier});
      }
    }
  }
}
