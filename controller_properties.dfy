/**
 What the view controller promises, proved about the transition functions of
 ControllerState: the effects of each callback, and invariants that hold over
 any sequence of callbacks.
 */
module ControllerProperties {
  import opened Wrappers
  import opened SessionStatus
  import opened ControllerState

  // ---------------------------------------------------------------- status

  /**
   An assignment to the status queues exactly the new status's description,
   also when the status does not change; only Failed touches the scene, which
   it empties, and the registry is never touched.
   */
  lemma AssignStatusEffects(v: Snapshot, s: Status)
    ensures var w := AssignStatus(v, s);
      && w.status == s
      && w.published == v.published + [Description(s)]
      && w.planes == v.planes
      && w.selected == v.selected
      && (s == Failed ==> w.scene == [])
      && (s != Failed ==> w.scene == v.scene)
  {
  }

  /** After a callback, the status was set to `s`: one label update queued, registry and selection untouched. */
  ghost predicate Forced(v: Snapshot, w: Snapshot, s: Status)
  {
    && w.status == s
    && w.published == v.published + [Description(s)]
    && w.planes == v.planes
    && w.selected == v.selected
  }

  // ---------------------------------------------------------------- registry

  /**
   After any assignment to the registry, a non-empty registry makes the
   status Ready whatever it was (Failed included); an empty one turns Ready
   into Initialized and leaves every other status, and the label, alone.
   */
  lemma PlanesObserverPolicy(v: Snapshot, planes: map<Uuid, VirtualPlane>)
    ensures var w := AssignPlanes(v, planes);
      && w.planes == planes
      && w.scene == v.scene
      && w.selected == v.selected
      && (|planes| > 0 ==> w.status == Ready && w.published == v.published + [Description(Ready)])
      && (|planes| == 0 && v.status == Ready ==>
            w.status == Initialized && w.published == v.published + [Description(Initialized)])
      && (|planes| == 0 && v.status != Ready ==> w.status == v.status && w.published == v.published)
  {
  }

  lemma CardinalityOfUpdate<K, V>(m: map<K, V>, k: K, x: V)
    ensures |m[k := x]| == if k in m then |m| else |m| + 1
  {
    if k in m {
      assert m[k := x].Keys == m.Keys;
    } else {
      assert m[k := x].Keys == m.Keys + {k};
    }
  }

  lemma CardinalityOfRemoval<K, V>(m: map<K, V>, k: K)
    requires k in m
    ensures |m - {k}| == |m| - 1
  {
    assert (m - {k}).Keys == m.Keys - {k};
  }

  /**
   A plane anchor that is added inserts a new proxy under its identifier,
   replacing any earlier one; the registry grows by exactly one when the
   identifier was unknown and keeps its size otherwise. The status becomes
   Ready and the proxy is attached to the anchor's node.
   */
  lemma PlaneAdded(v: Snapshot, p: PlaneAnchor)
    ensures var w := DidAddAnchor(v, Plane(p));
      && p.identifier in w.planes
      && w.planes[p.identifier] == NewVirtualPlane(p)
      && w.planes.Keys == v.planes.Keys + {p.identifier}
      && (forall k :: k in v.planes && k != p.identifier ==> w.planes[k] == v.planes[k])
      && |w.planes| == (if p.identifier in v.planes then |v.planes| else |v.planes| + 1)
      && Forced(v.(planes := w.planes), w, Ready)
      && w.scene == v.scene + [PlaneProxy(p.identifier)]
  {
    CardinalityOfUpdate(v.planes, p.identifier, NewVirtualPlane(p));
  }

  /**
   A refreshed plane anchor changes at most the proxy registered under its
   identifier; since the registry is not reassigned, its keys, the status,
   the label queue and the scene stay as they were.
   */
  lemma PlaneUpdated(v: Snapshot, p: PlaneAnchor)
    ensures var w := DidUpdateAnchor(v, Plane(p));
      && w.planes.Keys == v.planes.Keys
      && (p.identifier in v.planes ==>
            w.planes[p.identifier] == UpdatedWithNewAnchor(v.planes[p.identifier], p))
      && (forall k :: k in v.planes && k != p.identifier ==> w.planes[k] == v.planes[k])
      && w.status == v.status
      && w.published == v.published
      && w.scene == v.scene
      && w.selected == v.selected
  {
  }

  /**
   A removed plane anchor that is registered loses exactly its own entry and
   the registry policy runs on the smaller registry; an unknown one changes
   nothing and queues no label update.
   */
  lemma PlaneRemoved(v: Snapshot, p: PlaneAnchor)
    ensures var w := DidRemoveAnchor(v, Plane(p));
      && (p.identifier in v.planes ==>
            && w.planes.Keys == v.planes.Keys - {p.identifier}
            && (forall k :: k in w.planes ==> w.planes[k] == v.planes[k])
            && |w.planes| == |v.planes| - 1
            && w == PlanesObserver(v.(planes := w.planes)))
      && (p.identifier !in v.planes ==> w == v)
  {
    if p.identifier in v.planes {
      CardinalityOfRemoval(v.planes, p.identifier);
    }
  }

  /** Anchors that are not planes are ignored by all three renderer callbacks. */
  lemma NonPlaneAnchorsIgnored(v: Snapshot, id: Uuid)
    ensures Step(v, AnchorAdded(NonPlane(id))) == v
    ensures Step(v, AnchorUpdated(NonPlane(id))) == v
    ensures Step(v, AnchorRemoved(NonPlane(id))) == v
  {
  }

  // ---------------------------------------------------------------- lifecycle

  /**
   The session and view lifecycle callbacks set their status whatever the
   previous one was and leave the registry alone: an error sets Failed and
   empties the scene, an interruption and the view disappearing set
   TemporarilyUnavailable, and the end of an interruption sets Ready even
   with no plane registered.
   */
  lemma LifecycleCallbacks(v: Snapshot)
    ensures Forced(v, Step(v, SessionError), Failed) && Step(v, SessionError).scene == []
    ensures Forced(v, Step(v, Interrupted), TemporarilyUnavailable) && Step(v, Interrupted).scene == v.scene
    ensures Forced(v, Step(v, InterruptionEnded), Ready) && Step(v, InterruptionEnded).scene == v.scene
    ensures Forced(v, Step(v, WillDisappear), TemporarilyUnavailable) && Step(v, WillDisappear).scene == v.scene
  {
  }

  /** The view appearing sets Ready when planes are registered and otherwise changes nothing. */
  lemma ViewAppearing(v: Snapshot)
    ensures |v.planes| > 0 ==> Forced(v, Step(v, WillAppear), Ready) && Step(v, WillAppear).scene == v.scene
    ensures |v.planes| == 0 ==> Step(v, WillAppear) == v
  {
  }

  /** Failed is not terminal: a plane added afterwards makes the session Ready again. */
  lemma FailedIsNotTerminal(v: Snapshot, p: PlaneAnchor)
    requires v.status == Failed
    ensures Step(v, AnchorAdded(Plane(p))).status == Ready
  {
    PlaneAdded(v, p);
  }

  // ---------------------------------------------------------------- touches

  /** The touch lands on a registered plane while the session is Ready. */
  ghost predicate TapSelects(v: Snapshot, touches: set<Touch>, planeHits: seq<Hit>)
  {
    && touches != {}
    && v.status == Ready
    && |planeHits| > 0
    && planeHits[0].anchor.Some?
    && planeHits[0].anchor.value in v.planes
  }

  /** ... and the second hit test finds a place for the cup. */
  ghost predicate TapPlaces(v: Snapshot, touches: set<Touch>, planeHits: seq<Hit>, placementHits: seq<Hit>)
  {
    TapSelects(v, touches, planeHits) && |placementHits| > 0
  }

  /**
   A touch places one cup, at the second hit, only when there is a touch,
   the session is Ready, the first hit is on a registered plane and the
   second hit test finds something; that plane becomes the selected one as
   soon as the first three hold. Otherwise the scene is unchanged, and in
   every case so are the status, the registry and the label queue.
   */
  lemma TapRule(v: Snapshot, touches: set<Touch>, planeHits: seq<Hit>, placementHits: seq<Hit>)
    ensures var w := TouchesBegan(v, touches, planeHits, placementHits);
      && w.status == v.status
      && w.planes == v.planes
      && w.published == v.published
      && (TapPlaces(v, touches, planeHits, placementHits) ==>
            w.scene == v.scene + [Cup(placementHits[0].translation)])
      && (!TapPlaces(v, touches, planeHits, placementHits) ==> w.scene == v.scene)
      && (TapSelects(v, touches, planeHits) ==>
            w.selected == Some(v.planes[planeHits[0].anchor.value]))
      && (!TapSelects(v, touches, planeHits) ==> w.selected == v.selected)
  {
  }

  /** The number of cups among the root's children. */
  function CupsIn(scene: seq<SceneNode>): nat
  {
    if scene == [] then 0 else (if scene[0].Cup? then 1 else 0) + CupsIn(scene[1..])
  }

  lemma {:induction false} CupsInAppend(scene: seq<SceneNode>, n: SceneNode)
    ensures CupsIn(scene + [n]) == CupsIn(scene) + (if n.Cup? then 1 else 0)
  {
    if scene != [] {
      assert (scene + [n])[1..] == scene[1..] + [n];
      CupsInAppend(scene[1..], n);
    }
  }

  /** A touch adds exactly one cup when it places one, and none otherwise. */
  lemma TapAddsAtMostOneCup(v: Snapshot, touches: set<Touch>, planeHits: seq<Hit>, placementHits: seq<Hit>)
    ensures CupsIn(TouchesBegan(v, touches, planeHits, placementHits).scene)
         == CupsIn(v.scene) + (if TapPlaces(v, touches, planeHits, placementHits) then 1 else 0)
  {
    TapRule(v, touches, planeHits, placementHits);
    if TapPlaces(v, touches, planeHits, placementHits) {
      CupsInAppend(v.scene, Cup(placementHits[0].translation));
    }
  }

  /**
   Once an interruption has ended the session is Ready even with no plane
   registered, yet every touch is then ignored: no hit can be on a
   registered plane.
   */
  lemma ResumedWithoutPlanes(v: Snapshot, touches: set<Touch>, planeHits: seq<Hit>, placementHits: seq<Hit>)
    requires |v.planes| == 0
    ensures var w := Run(v, [Interrupted, InterruptionEnded]);
      && w.status == Ready
      && w.planes == v.planes
      && w.published == v.published + [Description(TemporarilyUnavailable), Description(Ready)]
      && TouchesBegan(w, touches, planeHits, placementHits) == w
  {
    var u := Step(v, Interrupted);
    var w := Step(u, InterruptionEnded);
    assert Run(v, [Interrupted, InterruptionEnded]) == Run(u, [InterruptionEnded]);
    assert Run(u, [InterruptionEnded]) == Run(w, []);
    TapRule(w, touches, planeHits, placementHits);
  }

  // ---------------------------------------------------------------- traces

  /** The renderer callbacks, touches, and the view appearing. */
  ghost predicate AnchorOrTouchEvent(e: Event)
  {
    e.AnchorAdded? || e.AnchorUpdated? || e.AnchorRemoved? || e.TouchesBeganEvent? || e.WillAppear?
  }

  /** The status reflects the registry: Ready exactly when a plane is registered, Initialized otherwise. */
  ghost predicate InSync(v: Snapshot)
  {
    v.status == if |v.planes| > 0 then Ready else Initialized
  }

  lemma RegistryStepKeepsSync(v: Snapshot, e: Event)
    requires InSync(v) && AnchorOrTouchEvent(e)
    ensures InSync(Step(v, e))
  {
    match e
    case AnchorAdded(a) =>
      if a.Plane? { PlaneAdded(v, a.plane); }
    case AnchorUpdated(a) =>
      if a.Plane? { PlaneUpdated(v, a.plane); }
    case AnchorRemoved(a) =>
      if a.Plane? { PlaneRemoved(v, a.plane); }
    case TouchesBeganEvent(t, ph, pl) =>
      TapRule(v, t, ph, pl);
    case WillAppear =>
      ViewAppearing(v);
  }

  /**
   Over any sequence of plane additions, updates, removals, touches and
   appearances of the view, a
   status in step with the registry stays in step: Ready exactly while some
   plane is registered, Initialized once the registry has emptied again.
   */
  lemma {:induction false} RegistryEventsKeepSync(v: Snapshot, es: seq<Event>)
    requires InSync(v)
    requires forall i :: 0 <= i < |es| ==> AnchorOrTouchEvent(es[i])
    ensures InSync(Run(v, es))
    decreases |es|
  {
    if es != [] {
      RegistryStepKeepsSync(v, es[0]);
      RegistryEventsKeepSync(Step(v, es[0]), es[1..]);
    }
  }

  /** From launch, those events alone keep the status Ready exactly while a plane is registered. */
  lemma ReadyIffPlanesAfterLaunch(es: seq<Event>)
    requires forall i :: 0 <= i < |es| ==> AnchorOrTouchEvent(es[i])
    ensures (Run(Launched, es).status == Ready) == (|Run(Launched, es).planes| > 0)
    ensures (Run(Launched, es).status == Initialized) == (|Run(Launched, es).planes| == 0)
  {
    RegistryEventsKeepSync(Launched, es);
  }

  /** Adding a plane to a fresh session and removing it again: Ready, then back to Initialized. */
  lemma AddThenRemove(p: PlaneAnchor)
    ensures Step(Launched, AnchorAdded(Plane(p))).status == Ready
    ensures var w := Run(Launched, [AnchorAdded(Plane(p)), AnchorRemoved(Plane(p))]);
      && w.status == Initialized
      && w.planes == map[]
      && w.published == [Description(Ready), Description(Initialized)]
  {
    var u := Step(Launched, AnchorAdded(Plane(p)));
    PlaneAdded(Launched, p);
    PlaneRemoved(u, p);
    var w := Step(u, AnchorRemoved(Plane(p)));
    assert Run(Launched, [AnchorAdded(Plane(p)), AnchorRemoved(Plane(p))]) == Run(u, [AnchorRemoved(Plane(p))]);
    assert Run(u, [AnchorRemoved(Plane(p))]) == Run(w, []);
  }

  /** Callbacks other than the renderer's never change the registry. */
  lemma {:induction false} RegistryChangesOnlyOnAnchorEvents(v: Snapshot, es: seq<Event>)
    requires forall i :: 0 <= i < |es| ==> !es[i].AnchorAdded? && !es[i].AnchorUpdated? && !es[i].AnchorRemoved?
    ensures Run(v, es).planes == v.planes
    decreases |es|
  {
    if es != [] {
      var e := es[0];
      if e.TouchesBeganEvent? {
        TapRule(v, e.touches, e.planeHits, e.placementHits);
      }
      RegistryChangesOnlyOnAnchorEvents(Step(v, e), es[1..]);
    }
  }

  lemma StepExtendsScene(v: Snapshot, e: Event)
    requires e != SessionError
    ensures v.scene <= Step(v, e).scene
  {
    match e
    case TouchesBeganEvent(t, ph, pl) => TapRule(v, t, ph, pl);
    case _ =>
  }

  /**
   Without a session error the controller removes nothing from the scene:
   its children are only ever appended to. (The framework's own detaching
   of an anchor's node is not part of the model.)
   */
  lemma {:induction false} SceneOnlyGrowsWithoutError(v: Snapshot, es: seq<Event>)
    requires forall i :: 0 <= i < |es| ==> es[i] != SessionError
    ensures v.scene <= Run(v, es).scene
    decreases |es|
  {
    if es != [] {
      StepExtendsScene(v, es[0]);
      SceneOnlyGrowsWithoutError(Step(v, es[0]), es[1..]);
    }
  }

  lemma StepExtendsPublished(v: Snapshot, e: Event)
    ensures v.published <= Step(v, e).published
  {
    match e
    case TouchesBeganEvent(t, ph, pl) => TapRule(v, t, ph, pl);
    case _ =>
  }

  /** The label queue is only ever appended to. */
  lemma {:induction false} PublishedOnlyGrows(v: Snapshot, es: seq<Event>)
    ensures v.published <= Run(v, es).published
    decreases |es|
  {
    if es != [] {
      StepExtendsPublished(v, es[0]);
      PublishedOnlyGrows(Step(v, es[0]), es[1..]);
    }
  }

  /** The last label update queued, if any, shows the current status. */
  ghost predicate LabelCurrent(v: Snapshot)
  {
    |v.published| > 0 ==> v.published[|v.published| - 1] == Description(v.status)
  }

  lemma StepKeepsLabelCurrent(v: Snapshot, e: Event)
    requires LabelCurrent(v)
    ensures LabelCurrent(Step(v, e))
  {
    match e
    case TouchesBeganEvent(t, ph, pl) => TapRule(v, t, ph, pl);
    case _ =>
  }

  /**
   Whatever callbacks arrive after launch, once any label update is queued
   the last one shows the current status, and reading it back gives that
   status: the label ends up describing the session as it is.
   */
  lemma {:induction false} LabelDescribesStatus(v: Snapshot, es: seq<Event>)
    requires LabelCurrent(v)
    ensures LabelCurrent(Run(v, es))
    ensures var w := Run(v, es);
      |w.published| > 0 ==> StatusOfLabel(w.published[|w.published| - 1]) == Some(w.status)
    decreases |es|
  {
    if es != [] {
      StepKeepsLabelCurrent(v, es[0]);
      LabelDescribesStatus(Step(v, es[0]), es[1..]);
    } else if |v.published| > 0 {
      DescriptionRoundTrip(v.status);
    }
  }
}
