/**
 * The placement and gesture controller (ARSceneController.swift).
 *
 * The controller holds one loaded model and, once it is placed, a reference
 * to it. A tap places the model or moves it. A pan moves it when a finger is
 * on it and otherwise turns it. A pinch scales it. The first horizontal plane
 * ARKit reports opens the `canPlaceObject` latch.
 *
 * ARKit and SceneKit queries come in as parameters: `hitTest` stands for
 * `smartHitTest` (the translation of the hit's world transform, if any),
 * `project` for `projectPoint`, and `touchHits` / `centreHit` for what
 * `virtualObject(at:)` answers at each touch and at the gesture's centre.
 */
module ARScene {
  import opened Wrappers
  import opened Geometry
  import opened VirtualObjects

  /** UIGestureRecognizer.State. */
  datatype GestureState = Possible | Began | Changed | Ended | Cancelled | Failed

  /** ARPlaneAnchor.Alignment. */
  datatype PlaneAlignment = HorizontalPlane | VerticalPlane

  /** An anchor ARKit adds: a detected plane, or an anchor of another kind. */
  datatype Anchor = PlaneAnchor(alignment: PlaneAlignment) | OtherAnchor

  /** The bundled model that viewDidLoad loads. */
  const MODEL_RESOURCE_NAME := "\U{4E07}\U{5F97}\U{864E}-firework"

  /** The scale a freshly placed model gets, from asset units to scene units. */
  const PLACEMENT_SCALE := Vec3(0.01, 0.01, 0.01)

  /** How many points of horizontal pan turn the object by one radian. */
  const PAN_ROTATION_DIVISOR := 100.0

  /** A pan recognizer: its phase and the translation it reports. */
  class PanGesture {
    var state: GestureState
    var translation: Point
  }

  /** A pinch recognizer: its phase and the scale factor it reports. */
  class PinchGesture {
    var state: GestureState
    var scale: real
  }

  // ---------------------------------------------------------------------------
  // One step of each handler, as a function

  /** What `renderer(_:didAdd:for:)` leaves in `canPlaceObject`. */
  function AfterPlaneAdded(canPlace: bool, anchor: Anchor): bool {
    canPlace || anchor == PlaneAnchor(HorizontalPlane)
  }

  /** The object's rotation after one pan sample off the object. */
  function Rotated(rotation: real, dx: real): real {
    rotation + dx / PAN_ROTATION_DIVISOR
  }

  /** What `place` does to an object's state, given the hit-test answer. */
  function PlacedState(s: ObjectState, bb: BoundingBox, hit: Option<Vec3>): ObjectState {
    if hit.None? then s
    else s.(pivot := Vec3(0.0, bb.min.y + 2.0, 0.0), inScene := true,
            scale := PLACEMENT_SCALE, position := hit.value)
  }

  /**
   * objectInteracting: the object under the lowest-index touch that hits one;
   * only when no touch hits, the object at the gesture's centre, if the
   * gesture has a centre.
   */
  function FirstHit(touchHits: seq<VirtualObject?>, centreHit: Option<VirtualObject?>): (r: VirtualObject?)
    ensures (exists i :: 0 <= i < |touchHits| && touchHits[i] != null) ==>
              exists i :: 0 <= i < |touchHits| && touchHits[i] == r && r != null &&
                          forall j :: 0 <= j < i ==> touchHits[j] == null
    ensures (forall i :: 0 <= i < |touchHits| ==> touchHits[i] == null) ==>
              r == centreHit.GetOr(null)
    decreases |touchHits|
  {
    if touchHits == [] then centreHit.GetOr(null)
    else if touchHits[0] != null then touchHits[0]
    else
      var rest := touchHits[1..];
      assert forall i :: 0 <= i < |rest| ==> touchHits[i + 1] == rest[i];
      FirstHit(rest, centreHit)
  }

  // ---------------------------------------------------------------------------
  // What sequences of events do

  /** `canPlaceObject` after the anchors are added one after another. */
  function CanPlaceAfter(canPlace: bool, anchors: seq<Anchor>): bool
    decreases |anchors|
  {
    if anchors == [] then canPlace else CanPlaceAfter(AfterPlaneAdded(canPlace, anchors[0]), anchors[1..])
  }

  /**
   * `canPlaceObject` is a one-way latch: after any run of added anchors it is
   * true exactly when it was true before or one of them is a horizontal plane.
   */
  lemma {:induction false} CanPlaceIsALatch(canPlace: bool, anchors: seq<Anchor>)
    ensures CanPlaceAfter(canPlace, anchors) <==>
              canPlace || exists i :: 0 <= i < |anchors| && anchors[i] == PlaneAnchor(HorizontalPlane)
    decreases |anchors|
  {
    if anchors != [] {
      var rest := anchors[1..];
      CanPlaceIsALatch(AfterPlaneAdded(canPlace, anchors[0]), rest);
      assert forall i :: 0 <= i < |rest| ==> anchors[i + 1] == rest[i];
    }
  }

  /** The scale after successive pinch samples with the given factors. */
  function PinchedAll(scale: Vec3, factors: seq<real>): Vec3
    decreases |factors|
  {
    if factors == [] then scale else PinchedAll(Scaled(scale, factors[0]), factors[1..])
  }

  function Product(xs: seq<real>): real
    decreases |xs|
  {
    if xs == [] then 1.0 else xs[0] * Product(xs[1..])
  }

  /**
   * Because each pinch sample resets the recognizer's factor to 1, samples
   * compose as a product: the net scale is the first scale times the product
   * of the factors.
   */
  lemma {:induction false} PinchSamplesCompose(scale: Vec3, factors: seq<real>)
    ensures PinchedAll(scale, factors) == Scaled(scale, Product(factors))
    decreases |factors|
  {
    if factors != [] {
      var f, rest := factors[0], factors[1..];
      PinchSamplesCompose(Scaled(scale, f), rest);
      var p := Product(rest);
      assert scale.x * f * p == scale.x * (f * p);
      assert scale.y * f * p == scale.y * (f * p);
      assert scale.z * f * p == scale.z * (f * p);
    }
  }

  /** The rotation after successive pan samples off the object. */
  function RotatedAll(rotation: real, dxs: seq<real>): real
    decreases |dxs|
  {
    if dxs == [] then rotation else RotatedAll(Rotated(rotation, dxs[0]), dxs[1..])
  }

  function Sum(xs: seq<real>): real
    decreases |xs|
  {
    if xs == [] then 0.0 else xs[0] + Sum(xs[1..])
  }

  /** Pan samples off the object turn it by the total horizontal travel over 100. */
  lemma {:induction false} PanRotationAccumulates(rotation: real, dxs: seq<real>)
    ensures RotatedAll(rotation, dxs) == rotation + Sum(dxs) / PAN_ROTATION_DIVISOR
    decreases |dxs|
  {
    if dxs != [] {
      PanRotationAccumulates(Rotated(rotation, dxs[0]), dxs[1..]);
    }
  }

  /** The tracked touch position after successive pan samples on the object. */
  function TrackedAll(position: Point, deltas: seq<Point>): Point
    decreases |deltas|
  {
    if deltas == [] then position else TrackedAll(Translated(position, deltas[0]), deltas[1..])
  }

  function SumPoints(deltas: seq<Point>): Point
    decreases |deltas|
  {
    if deltas == [] then ZERO_POINT else Translated(deltas[0], SumPoints(deltas[1..]))
  }

  /**
   * Since each pan sample resets the recognizer's translation to zero, the
   * tracked touch position is the starting position plus the sum of the
   * sampled deltas: it follows the finger, not the gesture's start.
   */
  lemma {:induction false} TouchTrackingAccumulates(position: Point, deltas: seq<Point>)
    ensures TrackedAll(position, deltas) == Translated(position, SumPoints(deltas))
    decreases |deltas|
  {
    if deltas != [] {
      TouchTrackingAccumulates(Translated(position, deltas[0]), deltas[1..]);
    }
  }

  // ---------------------------------------------------------------------------
  // The controller

  class ARSceneController {
    var loadedVirtualObject: VirtualObject?
    var placedObject: VirtualObject?
    var canPlaceObject: bool
    /** The latest touch position of an active pan, in view coordinates. */
    var lastPanTouchPosition: Option<Point>

    /**
     * Only the loaded model is ever placed, nothing is placed before the
     * latch opens, and the loaded model keeps its own invariant.
     */
    predicate Valid()
      reads this, loadedVirtualObject
    {
      && (placedObject == null || placedObject == loadedVirtualObject)
      && (placedObject != null ==> canPlaceObject)
      && (loadedVirtualObject != null ==> loadedVirtualObject.Valid())
    }

    /**
     * The stored-property defaults together with viewDidLoad's
     * loadVirtualObject; `bundle` maps bundled resources to their models'
     * bounding boxes.
     */
    constructor (bundle: map<string, BoundingBox>)
      requires MODEL_RESOURCE_NAME in bundle
      ensures Valid()
      ensures loadedVirtualObject != null && fresh(loadedVirtualObject)
      ensures loadedVirtualObject.name == MODEL_RESOURCE_NAME
      ensures loadedVirtualObject.State() == InitialState(loadedVirtualObject.boundingBox)
      ensures placedObject == null && !canPlaceObject && lastPanTouchPosition == None
    {
      var virtualObject := new VirtualObject(MODEL_RESOURCE_NAME, bundle);
      loadedVirtualObject := virtualObject;
      placedObject := null;
      canPlaceObject := false;
      lastPanTouchPosition := None;
    }

    /** place(_:basedOn:): on a hit, pivots, attaches, scales and positions the object. */
    method Place(obj: VirtualObject, location: Point, hitTest: Point -> Option<Vec3>)
      modifies obj`pivot, obj`inScene, obj`scale, obj`position
      ensures obj.State() == PlacedState(old(obj.State()), obj.boundingBox, hitTest(location))
    {
      var hitTestResult := hitTest(location);
      if hitTestResult.None? {
        return;
      }
      obj.pivot := Vec3(0.0, obj.boundingBox.min.y + 2.0, 0.0);
      obj.inScene := true;
      obj.scale := PLACEMENT_SCALE;
      obj.position := hitTestResult.value;
    }

    /**
     * showVirtualObject, the tap handler: nothing before the latch opens;
     * then the first tap places the loaded model (recording it as placed even
     * when the hit-test misses), and later taps move the placed model.
     */
    method ShowVirtualObject(touchLocation: Point, hitTest: Point -> Option<Vec3>)
      requires Valid()
      modifies this`placedObject, loadedVirtualObject
      ensures Valid()
      ensures !old(canPlaceObject) ==>
                placedObject == old(placedObject) &&
                (loadedVirtualObject != null ==> loadedVirtualObject.State() == old(loadedVirtualObject.State()))
      ensures old(canPlaceObject) && old(placedObject) != null ==>
                placedObject == old(placedObject) &&
                placedObject.State() == old(placedObject.State()).(
                  position := hitTest(touchLocation).GetOr(old(placedObject.position)))
      ensures old(canPlaceObject) && old(placedObject) == null && loadedVirtualObject == null ==>
                placedObject == null
      ensures old(canPlaceObject) && old(placedObject) == null && loadedVirtualObject != null ==>
                placedObject == loadedVirtualObject &&
                loadedVirtualObject.State() ==
                  PlacedState(old(loadedVirtualObject.State()), loadedVirtualObject.boundingBox,
                              hitTest(touchLocation)).(shouldUpdateAnchor := false)
    {
      if !canPlaceObject {
        return;
      }
      if placedObject != null {
        var hitTestResult := hitTest(touchLocation);
        if hitTestResult.Some? {
          placedObject.position := hitTestResult.value;
        }
      } else {
        if loadedVirtualObject == null {
          return;
        }
        var virtualObject := loadedVirtualObject;
        Place(virtualObject, touchLocation, hitTest);
        placedObject := virtualObject;
        virtualObject.shouldUpdateAnchor := true;
        if virtualObject.shouldUpdateAnchor {
          // The anchor update it queues on updateQueue is not modelled.
          virtualObject.shouldUpdateAnchor := false;
        }
      }
    }

    /**
     * didPan: with an object placed, a changed sample drags the object under
     * the fingers (moving it only where the hit-test succeeds) or, when no
     * finger is on an object, turns the placed object; any other phase only
     * forgets the tracked touch position.
     */
    method DidPan(gesture: PanGesture, touchHits: seq<VirtualObject?>, centreHit: Option<VirtualObject?>,
                  hitTest: Point -> Option<Vec3>, project: Vec3 -> Point)
      requires Valid()
      modifies this`lastPanTouchPosition, gesture`translation, placedObject,
               FirstHit(touchHits, centreHit)
      ensures Valid()
      ensures var obj := FirstHit(touchHits, centreHit);
              placedObject == null || gesture.state != Changed ==>
                && gesture.translation == old(gesture.translation)
                && (placedObject != null ==> placedObject.State() == old(placedObject.State()))
                && (obj != null ==> obj.State() == old(obj.State()))
      ensures placedObject == null ==> lastPanTouchPosition == old(lastPanTouchPosition)
      ensures placedObject != null && gesture.state != Changed ==> lastPanTouchPosition == None
      ensures var obj := FirstHit(touchHits, centreHit);
              placedObject != null && gesture.state == Changed && obj != null ==>
                var previous := old(lastPanTouchPosition).GetOr(project(old(obj.position)));
                var current := Translated(previous, old(gesture.translation));
                && lastPanTouchPosition == Some(current)
                && gesture.translation == ZERO_POINT
                && obj.State() == old(obj.State()).(position := hitTest(current).GetOr(old(obj.position)))
                && (placedObject != obj ==> placedObject.State() == old(placedObject.State()))
      ensures FirstHit(touchHits, centreHit) == null && placedObject != null && gesture.state == Changed ==>
                && lastPanTouchPosition == old(lastPanTouchPosition)
                && gesture.translation == ZERO_POINT
                && placedObject.State() == old(placedObject.State()).(
                     rotation := Rotated(old(placedObject.objectRotation), old(gesture.translation.x)))
    {
      if placedObject == null {
        return;
      }
      if gesture.state == Changed {
        var obj := ObjectInteracting(touchHits, centreHit);
        if obj != null {
          Drag(obj, gesture, hitTest, project);
        } else {
          Turn(placedObject, gesture);
        }
      } else {
        lastPanTouchPosition := None;
      }
    }

    /**
     * A changed pan sample with a finger on `obj`: the tracked touch point
     * moves by the sampled translation, the object follows it where the
     * hit-test succeeds, and the recognizer's translation is reset.
     */
    method Drag(obj: VirtualObject, gesture: PanGesture, hitTest: Point -> Option<Vec3>, project: Vec3 -> Point)
      modifies this`lastPanTouchPosition, gesture`translation, obj`position
      ensures var previous := old(lastPanTouchPosition).GetOr(project(old(obj.position)));
              var current := Translated(previous, old(gesture.translation));
              && lastPanTouchPosition == Some(current)
              && gesture.translation == ZERO_POINT
              && obj.position == hitTest(current).GetOr(old(obj.position))
    {
      var translation := gesture.translation;
      var previousPosition := lastPanTouchPosition.GetOr(project(obj.position));
      var currentPosition := Point(previousPosition.x + translation.x, previousPosition.y + translation.y);
      var hitTestResult := hitTest(currentPosition);
      if hitTestResult.Some? {
        obj.position := hitTestResult.value;
      }
      lastPanTouchPosition := Some(currentPosition);
      gesture.translation := ZERO_POINT;
    }

    /** A changed pan sample with no finger on an object turns `obj` and resets the translation. */
    method Turn(obj: VirtualObject, gesture: PanGesture)
      modifies obj`objectRotation, gesture`translation
      ensures obj.objectRotation == Rotated(old(obj.objectRotation), old(gesture.translation.x))
      ensures gesture.translation == ZERO_POINT
    {
      var translation := gesture.translation;
      obj.objectRotation := obj.objectRotation + translation.x / PAN_ROTATION_DIVISOR;
      gesture.translation := ZERO_POINT;
    }

    /**
     * didScale: a changed sample with an object placed multiplies its scale by
     * the recognizer's factor and resets that factor to 1; otherwise nothing.
     */
    method DidScale(gesture: PinchGesture)
      requires Valid()
      modifies placedObject, gesture`scale
      ensures Valid()
      ensures placedObject != null && gesture.state == Changed ==>
                && placedObject.State() == old(placedObject.State()).(scale := Scaled(old(placedObject.scale), old(gesture.scale)))
                && gesture.scale == 1.0
      ensures placedObject == null || gesture.state != Changed ==>
                && gesture.scale == old(gesture.scale)
                && (placedObject != null ==> placedObject.State() == old(placedObject.State()))
    {
      if placedObject == null || gesture.state != Changed {
        return;
      }
      var newScale := Scaled(placedObject.scale, gesture.scale);
      placedObject.scale := newScale;
      gesture.scale := 1.0;
    }

    /** objectInteracting(with:in:): the first touch that hits an object wins. */
    method ObjectInteracting(touchHits: seq<VirtualObject?>, centreHit: Option<VirtualObject?>)
      returns (r: VirtualObject?)
      ensures r == FirstHit(touchHits, centreHit)
    {
      for index := 0 to |touchHits|
        invariant FirstHit(touchHits[index..], centreHit) == FirstHit(touchHits, centreHit)
      {
        assert touchHits[index..][1..] == touchHits[index + 1..];
        var obj := touchHits[index];
        if obj != null {
          return obj;
        }
      }
      if centreHit.Some? {
        return centreHit.value;
      }
      return null;
    }

    /** renderer(_:didAdd:for:): a horizontal plane anchor opens the latch; nothing closes it. */
    method RendererDidAdd(anchor: Anchor)
      requires Valid()
      modifies this`canPlaceObject
      ensures Valid()
      ensures canPlaceObject == AfterPlaneAdded(old(canPlaceObject), anchor)
    {
      if anchor.PlaneAnchor? && anchor.alignment == HorizontalPlane {
        canPlaceObject := true;
      }
    }
  }

  /**
   * A session from the start: the controller loads its model, ARKit reports a
   * horizontal plane, and a tap whose hit-test succeeds places the model at
   * the hit, scaled to 0.01 on every axis.
   */
  method FirstPlacement(bundle: map<string, BoundingBox>, touch: Point, hitTest: Point -> Option<Vec3>)
    returns (controller: ARSceneController)
    requires MODEL_RESOURCE_NAME in bundle
    requires hitTest(touch).Some?
    ensures fresh(controller) && fresh(controller.loadedVirtualObject)
    ensures controller.Valid() && controller.canPlaceObject
    ensures controller.placedObject != null && controller.placedObject == controller.loadedVirtualObject
    ensures controller.placedObject.position == hitTest(touch).value
    ensures controller.placedObject.scale == PLACEMENT_SCALE && controller.placedObject.inScene
    ensures HorizontalRigActive(controller.placedObject.State())
  {
    controller := new ARSceneController(bundle);
    controller.RendererDidAdd(PlaneAnchor(HorizontalPlane));
    controller.ShowVirtualObject(touch, hitTest);
  }

  /**
   * A session whose first tap after the plane misses: the model is recorded as
   * placed but never added to the scene, so a later tap only sets its
   * position. It is never added to the scene: a placed model is never placed
   * again. Only taps are covered here; a later pinch still rescales it.
   */
  method MissedFirstPlacementStaysHidden(bundle: map<string, BoundingBox>, touch: Point, later: Point,
                                         hitTest: Point -> Option<Vec3>)
    returns (controller: ARSceneController)
    requires MODEL_RESOURCE_NAME in bundle
    requires hitTest(touch).None?
    ensures fresh(controller) && fresh(controller.loadedVirtualObject)
    ensures controller.Valid() && controller.canPlaceObject
    ensures controller.placedObject != null && controller.placedObject == controller.loadedVirtualObject
    ensures !controller.placedObject.inScene && controller.placedObject.scale == UNIT_SCALE
    ensures controller.placedObject.pivot == HorizontalPivot(controller.placedObject.boundingBox)
    ensures controller.placedObject.position == hitTest(later).GetOr(ORIGIN)
  {
    controller := new ARSceneController(bundle);
    controller.RendererDidAdd(PlaneAnchor(HorizontalPlane));
    controller.ShowVirtualObject(touch, hitTest);
    controller.ShowVirtualObject(later, hitTest);
  }
}
