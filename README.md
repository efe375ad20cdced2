# KindaBeerPong session status and plane registry, in Dafny

KindaBeerPong is an augmented-reality demo: the tracker detects horizontal
planes, the app draws a translucent proxy on each one, and a tap on a
detected plane places a cup there. This project models the part of the app
that has behaviour of its own:

- `ARCupSessionStatus`, the four-case session status. Each case has a raw
  value and a description that is shown in the status label
  (`session_status.dfy`, module `SessionStatus`).
- The view controller's state machine (`view_controller.dfy`, class
  `Controller.ViewController`). Its fields are the status and the plane
  registry. Each has an observer: assigning the status queues a label update
  and clears the scene on `Failed`; assigning the registry drives the status.
  There is one method per callback: view appear and disappear, session error,
  interruption, interruption ended, anchor added, updated and removed, and a
  touch.
- The controller's state as a value, `ControllerState.Snapshot`, with one
  transition function per callback (`controller_state.dfy`). Every method of
  the class is proved to produce exactly the state its transition function
  gives. The properties the controller promises are proved about those
  functions in `controller_properties.dfy`. Some hold for one callback; others
  are invariants over any sequence of callbacks (`ControllerState.Run`).

The tracker's hit tests are inputs. A touch comes with two hit-result lists:
one from the hit test that finds the touched plane, one from the hit test that
finds where the cup goes. In the app both hit tests use the same touch point and
the same kind of test, but the model does not tie the two lists together, so its
properties hold for every pair of lists. Anchors arrive as values: a plane anchor with its
identifier (a 128-bit UUID), extent and center, or some other kind of anchor.
The label updates that the controller hands to the main thread are kept in
`published`, an outbox ordered oldest first. Dafny functions are total and
have no side effects by construction, so `Description` depends only on the
case.

Two behaviours of the code are easy to miss, and the model keeps both:

- `Failed` is not terminal. A later assignment to the registry that leaves it
  non-empty sets `Ready` again (`FailedIsNotTerminal`).
- An interruption sets `TemporarilyUnavailable` even after `Failed`.

The end of an interruption also sets `Ready` when no plane is registered.
`ResumedWithoutPlanes` shows that every touch then leaves the whole state
unchanged, because no hit can land on a registered plane.

## Model

| member | source | states |
|---|---|---|
| `SessionStatus.ExactlyFourCases` | KindaBeerPong/KindaBeerPong/ARCupSessionStatus.swift:12-16 | every status is one of initialized, ready, temporarily unavailable, failed, and these are four distinct cases |
| `SessionStatus.RawValue` | KindaBeerPong/KindaBeerPong/ARCupSessionStatus.swift:13-16 | the raw string each case is declared with; each of the four strings is returned for its own case and for no other |
| `SessionStatus.Description` | KindaBeerPong/KindaBeerPong/ARCupSessionStatus.swift:18-29 | the fixed label text of each case, one string per case of the switch; each text is returned for its own case and for no other |
| `SessionStatus.FromRawValue` | KindaBeerPong/KindaBeerPong/ARCupSessionStatus.swift:12-16 | init from a raw value: a case is returned only for that case's raw value, and nothing is returned for a string that is no case's raw value |
| `SessionStatus.RawValueRoundTrip` | KindaBeerPong/KindaBeerPong/ARCupSessionStatus.swift:13-16 | converting a case to its raw value and back gives the same case |
| `SessionStatus.RawValueInjective` | KindaBeerPong/KindaBeerPong/ARCupSessionStatus.swift:13-16 | two cases have the same raw value exactly when they are the same case |
| `SessionStatus.StatusOfLabel` | KindaBeerPong/KindaBeerPong/ARCupSessionStatus.swift:18-29 | reading a label back: it returns the status whose description the text is, or nothing when the text is no status's description |
| `SessionStatus.DescriptionRoundTrip` | KindaBeerPong/KindaBeerPong/ARCupSessionStatus.swift:18-29 | every case's description reads back as that case, so the published label identifies the status |
| `SessionStatus.DescriptionInjective` | KindaBeerPong/KindaBeerPong/ARCupSessionStatus.swift:20-28 | two cases have the same description exactly when they are the same case |
| `ControllerProperties.AssignStatusEffects` | KindaBeerPong/KindaBeerPong/ViewController.swift:18-27 | every status assignment appends its description to the outbox, also when the status does not change; assigning Failed empties the scene and every other status leaves it alone; registry and selection are untouched |
| `ControllerProperties.PlanesObserverPolicy` | KindaBeerPong/KindaBeerPong/ViewController.swift:30-38 | after a registry assignment, a non-empty registry makes the status Ready from any status, including Failed; an empty one turns Ready into Initialized and leaves other statuses and the outbox unchanged |
| `ControllerProperties.PlaneAdded` | KindaBeerPong/KindaBeerPong/ViewController.swift:158-165 | a plane anchor inserts or overwrites its entry with a new proxy; other entries are kept; the registry grows by one exactly when the id was absent; the status becomes Ready; the proxy is attached to the scene |
| `ControllerProperties.PlaneUpdated` | KindaBeerPong/KindaBeerPong/ViewController.swift:167-173 | a plane update changes at most that plane's proxy; the key set, status, outbox, scene and selection stay the same because the registry is not reassigned |
| `ControllerProperties.PlaneRemoved` | KindaBeerPong/KindaBeerPong/ViewController.swift:175-181 | removing a registered id removes exactly that key, keeps the other entries, shrinks the registry by one and then runs the registry observer; removing an unknown id changes nothing and publishes nothing |
| `ControllerProperties.NonPlaneAnchorsIgnored` | KindaBeerPong/KindaBeerPong/ViewController.swift:158-181 | anchors that are not planes change nothing in any of the three renderer callbacks |
| `ControllerProperties.LifecycleCallbacks` | KindaBeerPong/KindaBeerPong/ViewController.swift:144-155 | from any status: an error sets Failed and empties the scene; an interruption and the view disappearing (lines 77-83) set TemporarilyUnavailable; the end of an interruption sets Ready even with an empty registry; none of them touches the registry |
| `ControllerProperties.ViewAppearing` | KindaBeerPong/KindaBeerPong/ViewController.swift:72-74 | the view appearing sets Ready when a plane is registered and changes nothing otherwise |
| `ControllerProperties.FailedIsNotTerminal` | KindaBeerPong/KindaBeerPong/ViewController.swift:30-33 | after Failed, a newly added plane makes the status Ready again |
| `ControllerProperties.TapRule` | KindaBeerPong/KindaBeerPong/ViewController.swift:96-131 | a cup is placed at the second hit only if there is a touch, the status is Ready, the first hit's anchor is registered and the second hit test returns a hit; the plane is selected once the first three hold; otherwise the scene and selection are unchanged; status, registry and outbox never change |
| `ControllerProperties.TapAddsAtMostOneCup` | KindaBeerPong/KindaBeerPong/ViewController.swift:107-115 | a successful touch adds exactly one cup to the root, and any other touch adds none |
| `ControllerProperties.ResumedWithoutPlanes` | KindaBeerPong/KindaBeerPong/ViewController.swift:149-155 | interrupted, then resumed, with no plane registered: the status is Ready, both labels are queued, and every touch then leaves the state exactly as it is |
| `ControllerProperties.RegistryEventsKeepSync` | KindaBeerPong/KindaBeerPong/ViewController.swift:30-38 | over any sequence of anchor callbacks, touches and appearances of the view, a status in step with the registry stays in step: Ready exactly while a plane is registered, otherwise Initialized |
| `ControllerProperties.ReadyIffPlanesAfterLaunch` | KindaBeerPong/KindaBeerPong/ViewController.swift:30-38 | from launch, with only anchor callbacks, touches and appearances of the view, the status is Ready exactly when the registry is non-empty and Initialized exactly when it is empty |
| `ControllerProperties.AddThenRemove` | KindaBeerPong/KindaBeerPong/ViewController.swift:158-181 | from launch, adding a plane gives Ready, and removing it again gives Initialized with an empty registry and the two labels queued in order |
| `ControllerProperties.RegistryChangesOnlyOnAnchorEvents` | KindaBeerPong/KindaBeerPong/ViewController.swift:63-155 | lifecycle callbacks and touches, in any number and order, leave the registry exactly as it was |
| `ControllerProperties.SceneOnlyGrowsWithoutError` | KindaBeerPong/KindaBeerPong/ViewController.swift:23-25 | with no session error in a sequence of callbacks, the scene before is a prefix of the scene after: only an error makes the controller remove nodes |
| `ControllerProperties.PublishedOnlyGrows` | KindaBeerPong/KindaBeerPong/ViewController.swift:20-22 | the outbox is only ever appended to, in assignment order |
| `ControllerProperties.LabelDescribesStatus` | KindaBeerPong/KindaBeerPong/ViewController.swift:18-22 | over any callbacks, the last queued label text is the current status's description and reads back as the current status |
| `Controller.ViewController.constructor` | KindaBeerPong/KindaBeerPong/ViewController.swift:18-41 | the initial state: Initialized, no planes, empty scene, nothing selected, nothing published (initialisers do not run observers) |
| `Controller.ViewController.SetStatus` | KindaBeerPong/KindaBeerPong/ViewController.swift:18-27 | assigns the status, queues its description and on Failed runs the cleanup; the new state is AssignStatus of the old one |
| `Controller.ViewController.SetPlanes` | KindaBeerPong/KindaBeerPong/ViewController.swift:30-38 | assigns the registry and runs its observer, including the chained status assignment; the new state is AssignPlanes of the old one |
| `Controller.ViewController.CleanupARSession` | KindaBeerPong/KindaBeerPong/ViewController.swift:85-89 | removes the root's children one by one in order until none is left; nothing else changes |
| `Controller.ViewController.ViewWillAppear` | KindaBeerPong/KindaBeerPong/ViewController.swift:63-75 | the new state is the ViewWillAppear transition of the old one |
| `Controller.ViewController.ViewWillDisappear` | KindaBeerPong/KindaBeerPong/ViewController.swift:77-83 | sets TemporarilyUnavailable through the status observer |
| `Controller.ViewController.VirtualPlaneProperlySet` | KindaBeerPong/KindaBeerPong/ViewController.swift:96-105 | returns the plane exactly when the first hit's anchor is registered, and it is that registered proxy; the plane is also stored as the selected plane |
| `Controller.ViewController.AddCupToPlane` | KindaBeerPong/KindaBeerPong/ViewController.swift:107-115 | attaches one cup at the first hit's translation when the hit test found anything |
| `Controller.ViewController.TouchesBegan` | KindaBeerPong/KindaBeerPong/ViewController.swift:117-131 | the new state is the TouchesBegan transition of the old one (see TapRule) |
| `Controller.ViewController.SessionDidFailWithError` | KindaBeerPong/KindaBeerPong/ViewController.swift:144-147 | sets Failed, which queues its label and empties the scene |
| `Controller.ViewController.SessionWasInterrupted` | KindaBeerPong/KindaBeerPong/ViewController.swift:149-151 | sets TemporarilyUnavailable |
| `Controller.ViewController.SessionInterruptionEnded` | KindaBeerPong/KindaBeerPong/ViewController.swift:153-155 | sets Ready, whatever the registry holds |
| `Controller.ViewController.RendererDidAdd` | KindaBeerPong/KindaBeerPong/ViewController.swift:158-165 | stores a new proxy for a plane anchor through the registry observer and attaches it to the scene; other anchors change nothing |
| `Controller.ViewController.RendererDidUpdate` | KindaBeerPong/KindaBeerPong/ViewController.swift:167-173 | refreshes a registered plane's proxy without reassigning the registry, so no observer runs |
| `Controller.ViewController.RendererDidRemove` | KindaBeerPong/KindaBeerPong/ViewController.swift:175-181 | removes a registered plane through the registry observer; an unknown or non-plane anchor changes nothing |

## Left out

- Plane proxy geometry (VirtualPlane.swift): the proxy is a record that keeps the anchor it was built from and the extent and center of the latest anchor, as the anchor's own values. Where the quad ends up is not modelled: creation positions the inner plane node, while an update moves the outer node. The conversion to `CGFloat`, the rotation and the material scaling are not modelled either. Positions and sizes are `real` values that are only copied, never computed with.
- The tracking session (`run`, `pause`, plane detection) and the hit tests are framework calls. Hit-test results are parameters of `TouchesBegan`, and the conversion of a touch to a screen point is not modelled.
- Label updates are queued with `DispatchQueue.main.async`. The queued closure reads the status when it runs on the main thread, not when it is queued. The model appends the description at assignment time. When several assignments are queued before the main thread runs, every entry of `published` except the last may differ from the text the app actually showed. `LabelDescribesStatus` proves that the last entry always matches the current status, so the final label agrees. Threads are not modelled; callbacks arrive one at a time.
- The scene is modelled as the flat list of the root's children. `PlaneProxy(id)` stands for the anchor's node, which the framework puts under the root, together with the proxy the controller attaches to it. The model records that node when the anchor is added and keeps it after the anchor is removed, because the framework, not the controller, detaches it. So after a removal `scene` over-approximates the root's children. The empty nodes the framework puts under the root for anchors that are not planes are not recorded.
- `CleanupARSession` empties the flat list. The framework's enumeration also visits every descendant and detaches each one from its own parent; that nesting is not modelled.
- `selected` holds a copy of the proxy. An in-place refresh that reaches the selected proxy through the shared reference is not seen there.
- `viewDidLoad` (scene creation, debug options, label styling, loading the cup template from `Barrel.scn`): the constructor is the state once the view has loaded. The cup template is therefore always present, and the branch of `addCupToPlane` where `cupNode` is nil is not modelled.
- `print` logging is not modelled.
