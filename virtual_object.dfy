/**
 * A placeable 3-D model (VirtualObject.swift).
 *
 * The object carries two light/shadow rigs, one for floors and one for walls.
 * Assigning its plane alignment shows one rig, hides the other and moves the
 * pivot. Shadow planes are built lazily, each at most once, from the bounding
 * box. Beside the class sit the walk up the scene graph that finds the object
 * owning a node, and the minOne/maxOne reductions.
 *
 * Every mutable field of the object is gathered in the value `ObjectState`;
 * the pure functions below say what each step does to that value, and the
 * methods of the class are proved against them.
 */
module VirtualObjects {
  import opened Wrappers
  import opened Geometry

  /** The surface kinds an object may be aligned to; only the first two have behaviour. */
  datatype ObjectAlignment = Horizontal | Vertical | Face | Air | All

  /** A directional-light child node; only its visibility is modelled. */
  datatype LightNode = LightNode(hidden: bool)

  /**
   * How a shadow plane's own x-y plane sits in the object's coordinates:
   * rotated by -pi/2 about x so that it lies in x-z, or unrotated in x-y.
   */
  datatype Orientation = LyingFlat | Upright

  /** A shadow-catching SCNPlane child: its size, its centre and its visibility. */
  datatype ShadowPlane = ShadowPlane(width: real, height: real, position: Vec3, orientation: Orientation, hidden: bool)

  /** What a child node added by `addChildNode` is for. */
  datatype ChildRole = HorizontalLightChild | VerticalLightChild | HorizontalShadowPlaneChild | VerticalShadowPlaneChild

  /**
   * Every field of a VirtualObject that the source changes. `pivot` is the
   * translation of the pivot matrix; `position` is both simdPosition and
   * simdWorldPosition, since a placed object is a direct child of the scene
   * root; `inScene` says that it has been added to the root; `children` lists
   * the light and shadow-plane child nodes in the order they were added (the
   * loaded model's own content nodes are not modelled).
   */
  datatype ObjectState = ObjectState(
    alignment: Option<ObjectAlignment>,
    pivot: Vec3,
    position: Vec3,
    scale: Vec3,
    rotation: real,
    inScene: bool,
    shouldUpdateAnchor: bool,
    horizontalLight: Option<LightNode>,
    verticalLight: Option<LightNode>,
    horizontalShadowPlane: Option<ShadowPlane>,
    verticalShadowPlane: Option<ShadowPlane>,
    children: seq<ChildRole>)

  // ---------------------------------------------------------------------------
  // Geometry derived from the bounding box

  /** The rectangle a shadow plane covers, in the object's coordinates. */
  function Covered(p: ShadowPlane): BoundingBox {
    var halfWidth, halfHeight := p.width / 2.0, p.height / 2.0;
    match p.orientation
    case LyingFlat =>
      BoundingBox(Vec3(p.position.x - halfWidth, p.position.y, p.position.z - halfHeight),
                  Vec3(p.position.x + halfWidth, p.position.y, p.position.z + halfHeight))
    case Upright =>
      BoundingBox(Vec3(p.position.x - halfWidth, p.position.y - halfHeight, p.position.z),
                  Vec3(p.position.x + halfWidth, p.position.y + halfHeight, p.position.z))
  }

  /** The pivot for floors: a translation by the bottom of the box along y. */
  function HorizontalPivot(bb: BoundingBox): Vec3 {
    Vec3(0.0, bb.min.y, 0.0)
  }

  /** The pivot for walls: the centre of the box's back face. */
  function VerticalPivot(bb: BoundingBox): (p: Vec3)
    ensures p == Centre(BackFace(bb))
  {
    Vec3(Mid(bb.min.x, bb.max.x), Mid(bb.min.y, bb.max.y), bb.min.z)
  }

  /** The floor shadow plane: x-extent by z-extent, lying flat under the model. */
  function HorizontalShadowPlane(bb: BoundingBox): (p: ShadowPlane)
    ensures Covered(p) == BottomFace(bb)
    ensures p.orientation == LyingFlat && !p.hidden
  {
    ShadowPlane(Extent(bb.min.x, bb.max.x), Extent(bb.min.z, bb.max.z),
                Vec3(Mid(bb.min.x, bb.max.x), bb.min.y, Mid(bb.min.z, bb.max.z)),
                LyingFlat, false)
  }

  /** The wall shadow plane: x-extent by y-extent, standing behind the model. */
  function VerticalShadowPlane(bb: BoundingBox): (p: ShadowPlane)
    ensures Covered(p) == BackFace(bb)
    ensures p.orientation == Upright && !p.hidden
  {
    ShadowPlane(Extent(bb.min.x, bb.max.x), Extent(bb.min.y, bb.max.y),
                Vec3(Mid(bb.min.x, bb.max.x), Mid(bb.min.y, bb.max.y), bb.min.z),
                Upright, false)
  }

  // ---------------------------------------------------------------------------
  // Visibility through Swift's optional chaining (`node?.isHidden = h`)

  function LightWithHidden(n: Option<LightNode>, hidden: bool): (r: Option<LightNode>)
    ensures r.Some? == n.Some?
    ensures r.Some? ==> r.value.hidden == hidden
  {
    if n.Some? then Some(n.value.(hidden := hidden)) else None
  }

  function PlaneWithHidden(p: Option<ShadowPlane>, hidden: bool): (r: Option<ShadowPlane>)
    ensures r.Some? == p.Some?
    ensures r.Some? ==> r.value.hidden == hidden && Shape(r) == Shape(p)
  {
    if p.Some? then Some(p.value.(hidden := hidden)) else None
  }

  /** A shadow plane's geometry with its visibility left out. */
  function Shape(p: Option<ShadowPlane>): Option<ShadowPlane> {
    if p.Some? then Some(p.value.(hidden := false)) else None
  }

  predicate LightShown(n: Option<LightNode>) {
    n.Some? && !n.value.hidden
  }

  predicate PlaneShown(p: Option<ShadowPlane>) {
    p.Some? && !p.value.hidden
  }

  /** The floor rig is the one in force: its light and plane show, the wall's are hidden. */
  predicate HorizontalRigActive(s: ObjectState) {
    && (s.horizontalLight.Some? ==> !s.horizontalLight.value.hidden)
    && (s.verticalLight.Some? ==> s.verticalLight.value.hidden)
    && PlaneShown(s.horizontalShadowPlane)
    && (s.verticalShadowPlane.Some? ==> s.verticalShadowPlane.value.hidden)
  }

  /** The wall rig is the one in force: its light and plane show, the floor's are hidden. */
  predicate VerticalRigActive(s: ObjectState) {
    && (s.verticalLight.Some? ==> !s.verticalLight.value.hidden)
    && (s.horizontalLight.Some? ==> s.horizontalLight.value.hidden)
    && PlaneShown(s.verticalShadowPlane)
    && (s.horizontalShadowPlane.Some? ==> s.horizontalShadowPlane.value.hidden)
  }

  /** The placement part of the state (everything the alignment never touches). */
  predicate SamePlacement(s: ObjectState, t: ObjectState) {
    && s.position == t.position && s.scale == t.scale && s.rotation == t.rotation
    && s.inScene == t.inScene && s.shouldUpdateAnchor == t.shouldUpdateAnchor
  }

  /**
   * The invariant of a constructed object: both lights exist, the floor
   * shadow plane exists, every shadow plane has the geometry its bounding box
   * dictates, each child was added once and in construction order, exactly
   * one rig (a light together with its own plane) is visible, and an
   * alignment of horizontal or vertical has that rig in force.
   */
  predicate WellFormed(s: ObjectState, bb: BoundingBox) {
    && s.horizontalLight.Some? && s.verticalLight.Some?
    && Shape(s.horizontalShadowPlane) == Some(HorizontalShadowPlane(bb))
    && (s.verticalShadowPlane.Some? ==> Shape(s.verticalShadowPlane) == Some(VerticalShadowPlane(bb)))
    && s.children == [HorizontalLightChild, VerticalLightChild, HorizontalShadowPlaneChild]
                     + (if s.verticalShadowPlane.Some? then [VerticalShadowPlaneChild] else [])
    && (LightShown(s.horizontalLight) <==> PlaneShown(s.horizontalShadowPlane))
    && (LightShown(s.verticalLight) <==> PlaneShown(s.verticalShadowPlane))
    && LightShown(s.horizontalLight) != LightShown(s.verticalLight)
    && (s.alignment == Some(Horizontal) ==> HorizontalRigActive(s))
    && (s.alignment == Some(Vertical) ==> VerticalRigActive(s))
  }

  // ---------------------------------------------------------------------------
  // The steps, as functions on the state

  /** addHorizontalLight: a visible light child. */
  function WithHorizontalLight(s: ObjectState): ObjectState {
    s.(horizontalLight := Some(LightNode(false)), children := s.children + [HorizontalLightChild])
  }

  /** addVerticalLight: a light child that starts hidden. */
  function WithVerticalLight(s: ObjectState): ObjectState {
    s.(verticalLight := Some(LightNode(true)), children := s.children + [VerticalLightChild])
  }

  /** setupHorizontalShadows: builds the floor plane unless it already exists. */
  function WithHorizontalShadows(s: ObjectState, bb: BoundingBox): ObjectState {
    if s.horizontalShadowPlane.Some? then s
    else s.(horizontalShadowPlane := Some(HorizontalShadowPlane(bb)),
            children := s.children + [HorizontalShadowPlaneChild])
  }

  /** setupVerticalShadows: builds the wall plane unless it already exists. */
  function WithVerticalShadows(s: ObjectState, bb: BoundingBox): ObjectState {
    if s.verticalShadowPlane.Some? then s
    else s.(verticalShadowPlane := Some(VerticalShadowPlane(bb)),
            children := s.children + [VerticalShadowPlaneChild])
  }

  /** The state `init(resourceName:)` leaves behind, for a model with box `bb`. */
  function InitialState(bb: BoundingBox): (r: ObjectState)
    ensures WellFormed(r, bb)
    ensures r.alignment == None && r.pivot == HorizontalPivot(bb)
    ensures HorizontalRigActive(r) && r.horizontalLight.Some?
    ensures r.verticalLight == Some(LightNode(true)) && r.verticalShadowPlane.None?
    ensures r.horizontalShadowPlane == Some(HorizontalShadowPlane(bb))
    ensures r.position == ORIGIN && r.scale == UNIT_SCALE && r.rotation == 0.0
    ensures !r.inScene && !r.shouldUpdateAnchor
  {
    var bare := ObjectState(None, ORIGIN, ORIGIN, UNIT_SCALE, 0.0, false, false, None, None, None, None, []);
    var lit := WithVerticalLight(WithHorizontalLight(bare));
    WithHorizontalShadows(lit.(pivot := HorizontalPivot(bb)), bb)
  }

  /**
   * The `didSet` of `currentPlaneAlignment`: the new alignment is stored, and
   * for horizontal or vertical the matching rig is shown, the other hidden,
   * the pivot moved and the matching shadow plane built if it is missing.
   * Any other value, `nil` included, changes nothing else.
   */
  function Aligned(s: ObjectState, bb: BoundingBox, a: Option<ObjectAlignment>): (r: ObjectState)
    ensures r.alignment == a && SamePlacement(r, s)
    ensures a == Some(Horizontal) ==>
      && HorizontalRigActive(r)
      && r.pivot == HorizontalPivot(bb)
      && r.horizontalLight.Some? == s.horizontalLight.Some?
      && r.verticalLight.Some? == s.verticalLight.Some?
      && Shape(r.horizontalShadowPlane) == (if s.horizontalShadowPlane.Some? then Shape(s.horizontalShadowPlane)
                                            else Some(HorizontalShadowPlane(bb)))
      && Shape(r.verticalShadowPlane) == Shape(s.verticalShadowPlane)
      && r.children == s.children + (if s.horizontalShadowPlane.Some? then [] else [HorizontalShadowPlaneChild])
    ensures a == Some(Vertical) ==>
      && VerticalRigActive(r)
      && r.pivot == VerticalPivot(bb)
      && r.horizontalLight.Some? == s.horizontalLight.Some?
      && r.verticalLight.Some? == s.verticalLight.Some?
      && Shape(r.verticalShadowPlane) == (if s.verticalShadowPlane.Some? then Shape(s.verticalShadowPlane)
                                          else Some(VerticalShadowPlane(bb)))
      && Shape(r.horizontalShadowPlane) == Shape(s.horizontalShadowPlane)
      && r.children == s.children + (if s.verticalShadowPlane.Some? then [] else [VerticalShadowPlaneChild])
    ensures a != Some(Horizontal) && a != Some(Vertical) ==> r == s.(alignment := a)
    ensures WellFormed(s, bb) ==> WellFormed(r, bb)
  {
    match a
    case Some(Horizontal) => HorizontalRigShown(s.(alignment := a), bb)
    case Some(Vertical) => VerticalRigShown(s.(alignment := a), bb)
    case _ => s.(alignment := a)
  }

  /** The `.horizontal` branch of the observer: floor rig on, wall rig off, floor pivot. */
  function HorizontalRigShown(s: ObjectState, bb: BoundingBox): ObjectState {
    var lit := s.(horizontalLight := LightWithHidden(s.horizontalLight, false),
                  verticalLight := LightWithHidden(s.verticalLight, true));
    var built := WithHorizontalShadows(lit.(pivot := HorizontalPivot(bb)), bb);
    built.(horizontalShadowPlane := PlaneWithHidden(built.horizontalShadowPlane, false),
           verticalShadowPlane := PlaneWithHidden(built.verticalShadowPlane, true))
  }

  /** The `.vertical` branch of the observer: wall rig on, floor rig off, wall pivot. */
  function VerticalRigShown(s: ObjectState, bb: BoundingBox): ObjectState {
    var lit := s.(horizontalLight := LightWithHidden(s.horizontalLight, true),
                  verticalLight := LightWithHidden(s.verticalLight, false));
    var built := WithVerticalShadows(lit.(pivot := VerticalPivot(bb)), bb);
    built.(verticalShadowPlane := PlaneWithHidden(built.verticalShadowPlane, false),
           horizontalShadowPlane := PlaneWithHidden(built.horizontalShadowPlane, true))
  }

  /** The state after the alignments `alignments` are assigned one after another. */
  function AlignAll(s: ObjectState, bb: BoundingBox, alignments: seq<Option<ObjectAlignment>>): ObjectState
    decreases |alignments|
  {
    if alignments == [] then s else AlignAll(Aligned(s, bb, alignments[0]), bb, alignments[1..])
  }

  // ---------------------------------------------------------------------------
  // Properties of the alignment state machine

  /** Assigning the same alignment twice is the same as assigning it once. */
  lemma AlignedIdempotent(s: ObjectState, bb: BoundingBox, a: Option<ObjectAlignment>)
    ensures Aligned(Aligned(s, bb, a), bb, a) == Aligned(s, bb, a)
  {
  }

  /**
   * However often one alignment is assigned, the object ends as after the
   * first assignment: no shadow plane is rebuilt and no child is added twice.
   */
  lemma {:induction false} RepeatedAlignmentIsIdempotent(s: ObjectState, bb: BoundingBox,
                                                         a: Option<ObjectAlignment>,
                                                         alignments: seq<Option<ObjectAlignment>>)
    requires |alignments| >= 1
    requires forall i :: 0 <= i < |alignments| ==> alignments[i] == a
    ensures AlignAll(s, bb, alignments) == Aligned(s, bb, a)
    decreases |alignments|
  {
    if |alignments| > 1 {
      RepeatedAlignmentIsIdempotent(Aligned(s, bb, a), bb, a, alignments[1..]);
      AlignedIdempotent(s, bb, a);
    }
  }

  /**
   * Along any sequence of alignment assignments the invariant holds: at most
   * four children, none of them twice, and exactly one rig visible.
   */
  lemma {:induction false} AlignmentsKeepWellFormed(s: ObjectState, bb: BoundingBox,
                                                    alignments: seq<Option<ObjectAlignment>>)
    requires WellFormed(s, bb)
    ensures WellFormed(AlignAll(s, bb, alignments), bb)
    ensures |AlignAll(s, bb, alignments).children| <= 4
    ensures forall i, j :: 0 <= i < j < |AlignAll(s, bb, alignments).children| ==>
              AlignAll(s, bb, alignments).children[i] != AlignAll(s, bb, alignments).children[j]
    decreases |alignments|
  {
    if alignments == [] {
      ChildrenDistinct(s, bb);
    } else {
      AlignmentsKeepWellFormed(Aligned(s, bb, alignments[0]), bb, alignments[1..]);
    }
  }

  /** A well-formed object holds each kind of child at most once. */
  lemma ChildrenDistinct(s: ObjectState, bb: BoundingBox)
    requires WellFormed(s, bb)
    ensures |s.children| <= 4
    ensures forall i, j :: 0 <= i < j < |s.children| ==> s.children[i] != s.children[j]
  {
  }

  // ---------------------------------------------------------------------------
  // The object itself

  class VirtualObject {
    /** SCNNode.name, set from the resource name. */
    const name: string
    /** The loaded model's bounding box; the shadow planes lie on its faces, so it never grows. */
    const boundingBox: BoundingBox

    var currentPlaneAlignment: Option<ObjectAlignment>
    var pivot: Vec3
    var position: Vec3
    var scale: Vec3
    var objectRotation: real
    var inScene: bool
    var shouldUpdateAnchor: bool
    var horizontalLightNode: Option<LightNode>
    var verticalLightNode: Option<LightNode>
    var horizontalShadowPlaneNode: Option<ShadowPlane>
    var verticalShadowPlaneNode: Option<ShadowPlane>
    var children: seq<ChildRole>

    function State(): ObjectState
      reads this
    {
      ObjectState(currentPlaneAlignment, pivot, position, scale, objectRotation, inScene,
                  shouldUpdateAnchor, horizontalLightNode, verticalLightNode,
                  horizontalShadowPlaneNode, verticalShadowPlaneNode, children)
    }

    predicate Valid()
      reads this
    {
      WellFormed(State(), boundingBox)
    }

    /**
     * init(resourceName:): loads the model named `resourceName` from `bundle`,
     * which maps each bundled resource to its model's bounding box. A missing
     * resource is a fatal error in the source, hence a precondition here.
     */
    constructor (resourceName: string, bundle: map<string, BoundingBox>)
      requires resourceName in bundle
      ensures name == resourceName && boundingBox == bundle[resourceName]
      ensures Valid() && State() == InitialState(boundingBox)
    {
      name := resourceName;
      boundingBox := bundle[resourceName];
      currentPlaneAlignment := None;
      pivot, position, scale, objectRotation := ORIGIN, ORIGIN, UNIT_SCALE, 0.0;
      inScene, shouldUpdateAnchor := false, false;
      horizontalLightNode, verticalLightNode := None, None;
      horizontalShadowPlaneNode, verticalShadowPlaneNode := None, None;
      children := [];
      new;
      AddHorizontalLight();
      AddVerticalLight();
      SetupHorizontalPivot();
      SetupHorizontalShadows();
    }

    method AddHorizontalLight()
      modifies this`horizontalLightNode, this`children
      ensures State() == WithHorizontalLight(old(State()))
    {
      horizontalLightNode := Some(LightNode(false));
      children := children + [HorizontalLightChild];
    }

    method AddVerticalLight()
      modifies this`verticalLightNode, this`children
      ensures State() == WithVerticalLight(old(State()))
    {
      verticalLightNode := Some(LightNode(true));
      children := children + [VerticalLightChild];
    }

    method SetupHorizontalPivot()
      modifies this`pivot
      ensures pivot == HorizontalPivot(boundingBox)
    {
      pivot := Vec3(0.0, boundingBox.min.y, 0.0);
    }

    method SetupVerticalPivot()
      modifies this`pivot
      ensures pivot == Centre(BackFace(boundingBox))
    {
      var x := boundingBox.min.x + (boundingBox.max.x - boundingBox.min.x) / 2.0;
      var y := boundingBox.min.y + (boundingBox.max.y - boundingBox.min.y) / 2.0;
      var z := boundingBox.min.z;
      pivot := Vec3(x, y, z);
    }

    /** Builds the floor shadow plane once; a second call returns early. */
    method SetupHorizontalShadows()
      modifies this`horizontalShadowPlaneNode, this`children
      ensures State() == WithHorizontalShadows(old(State()), boundingBox)
    {
      if horizontalShadowPlaneNode.Some? {
        return;
      }
      var width := boundingBox.max.x - boundingBox.min.x;
      var length := boundingBox.max.z - boundingBox.min.z;
      var x := boundingBox.min.x + (boundingBox.max.x - boundingBox.min.x) / 2.0;
      var y := boundingBox.min.y;
      var z := boundingBox.min.z + (boundingBox.max.z - boundingBox.min.z) / 2.0;
      var planeNode := ShadowPlane(width, length, Vec3(x, y, z), LyingFlat, false);
      children := children + [HorizontalShadowPlaneChild];
      horizontalShadowPlaneNode := Some(planeNode);
    }

    /** Builds the wall shadow plane once; a second call returns early. */
    method SetupVerticalShadows()
      modifies this`verticalShadowPlaneNode, this`children
      ensures State() == WithVerticalShadows(old(State()), boundingBox)
    {
      if verticalShadowPlaneNode.Some? {
        return;
      }
      var height := boundingBox.max.y - boundingBox.min.y;
      var width := boundingBox.max.x - boundingBox.min.x;
      var x := boundingBox.min.x + (boundingBox.max.x - boundingBox.min.x) / 2.0;
      var y := boundingBox.min.y + (boundingBox.max.y - boundingBox.min.y) / 2.0;
      var z := boundingBox.min.z;
      var planeNode := ShadowPlane(width, height, Vec3(x, y, z), Upright, false);
      children := children + [VerticalShadowPlaneChild];
      verticalShadowPlaneNode := Some(planeNode);
    }

    /** Assigning `currentPlaneAlignment`, with its `didSet` observer. */
    method SetCurrentPlaneAlignment(a: Option<ObjectAlignment>)
      requires Valid()
      modifies this`currentPlaneAlignment, this`pivot, this`horizontalLightNode,
               this`verticalLightNode, this`horizontalShadowPlaneNode,
               this`verticalShadowPlaneNode, this`children
      ensures Valid()
      ensures State() == Aligned(old(State()), boundingBox, a)
    {
      currentPlaneAlignment := a;
      match a
      case Some(Horizontal) => ShowHorizontalRig();
      case Some(Vertical) => ShowVerticalRig();
      case _ =>
    }

    /** The `.horizontal` branch of the observer: floor rig on, wall rig off. */
    method ShowHorizontalRig()
      modifies this`pivot, this`horizontalLightNode, this`verticalLightNode,
               this`horizontalShadowPlaneNode, this`verticalShadowPlaneNode, this`children
      ensures State() == HorizontalRigShown(old(State()), boundingBox)
    {
      horizontalLightNode := LightWithHidden(horizontalLightNode, false);
      verticalLightNode := LightWithHidden(verticalLightNode, true);
      SetupHorizontalPivot();
      SetupHorizontalShadows();
      horizontalShadowPlaneNode := PlaneWithHidden(horizontalShadowPlaneNode, false);
      verticalShadowPlaneNode := PlaneWithHidden(verticalShadowPlaneNode, true);
    }

    /** The `.vertical` branch of the observer: wall rig on, floor rig off. */
    method ShowVerticalRig()
      modifies this`pivot, this`horizontalLightNode, this`verticalLightNode,
               this`horizontalShadowPlaneNode, this`verticalShadowPlaneNode, this`children
      ensures State() == VerticalRigShown(old(State()), boundingBox)
    {
      horizontalLightNode := LightWithHidden(horizontalLightNode, true);
      verticalLightNode := LightWithHidden(verticalLightNode, false);
      SetupVerticalPivot();
      SetupVerticalShadows();
      verticalShadowPlaneNode := PlaneWithHidden(verticalShadowPlaneNode, false);
      horizontalShadowPlaneNode := PlaneWithHidden(horizontalShadowPlaneNode, true);
    }
  }

  // ---------------------------------------------------------------------------
  // Finding the object that owns a scene node

  /**
   * A scene-graph node seen from below: whether it is itself a virtual object
   * (`node as? VirtualObject`) and its parent, if it has one.
   */
  datatype SceneNode<O> = SceneNode(asObject: Option<O>, parent: Option<SceneNode<O>>)

  /** The node followed by its ancestors, up to and including the root. */
  function Lineage<O>(n: SceneNode<O>): (l: seq<SceneNode<O>>)
    ensures |l| >= 1 && l[0] == n && l[|l| - 1].parent.None?
    decreases n
  {
    if n.parent.None? then [n] else [n] + Lineage(n.parent.value)
  }

  /** Each entry of the lineage has the next entry as its parent. */
  lemma {:induction false} LineageIsParentChain<O>(n: SceneNode<O>)
    ensures forall i :: 0 <= i < |Lineage(n)| - 1 ==> Lineage(n)[i].parent == Some(Lineage(n)[i + 1])
    decreases n
  {
    if n.parent.Some? {
      var l, above := Lineage(n), Lineage(n.parent.value);
      LineageIsParentChain(n.parent.value);
      assert l == [n] + above;
      forall i | 0 < i < |l| - 1
        ensures l[i].parent == Some(l[i + 1])
      {
        assert l[i] == above[i - 1] && l[i + 1] == above[i];
      }
    }
  }

  /** No node among the first `i` of `l` is an object. */
  predicate NoObjectBefore<O>(l: seq<SceneNode<O>>, i: nat)
    requires i <= |l|
  {
    forall j :: 0 <= j < i ==> l[j].asObject.None?
  }

  /** existingObjectContainingNode: some object exactly when the node or an ancestor is one. */
  function ExistingObjectContainingNode<O>(n: SceneNode<O>): (r: Option<O>)
    ensures r.None? <==> NoObjectBefore(Lineage(n), |Lineage(n)|)
    decreases n
  {
    if n.asObject.Some? then
      assert Lineage(n)[0] == n;
      n.asObject
    else if n.parent.None? then
      None
    else
      var l, above := Lineage(n), Lineage(n.parent.value);
      assert l == [n] + above;
      assert forall j :: 0 <= j < |above| ==> l[j + 1] == above[j];
      ExistingObjectContainingNode(n.parent.value)
  }

  /** The object found is the one on the nearest node of the chain that is an object. */
  lemma {:induction false} ExistingObjectIsNearest<O>(n: SceneNode<O>)
    ensures ExistingObjectContainingNode(n).Some? ==>
              exists i :: 0 <= i < |Lineage(n)| && Lineage(n)[i].asObject == ExistingObjectContainingNode(n) &&
                          NoObjectBefore(Lineage(n), i)
    decreases n
  {
    var l := Lineage(n);
    if n.asObject.Some? {
      assert l[0].asObject == ExistingObjectContainingNode(n) && NoObjectBefore(l, 0);
    } else if n.parent.Some? && ExistingObjectContainingNode(n).Some? {
      var above := Lineage(n.parent.value);
      ExistingObjectIsNearest(n.parent.value);
      assert l == [n] + above;
      var k :| 0 <= k < |above| && above[k].asObject == ExistingObjectContainingNode(n) &&
               NoObjectBefore(above, k);
      assert l[k + 1] == above[k];
      assert forall j :: 1 <= j < k + 1 ==> l[j] == above[j - 1];
      assert NoObjectBefore(l, k + 1);
    }
  }

  // ---------------------------------------------------------------------------
  // minOne / maxOne, at the element type real

  /** Swift's `min`: the second argument only when it is strictly smaller. */
  function Min(a: real, b: real): real {
    if b < a then b else a
  }

  /** Swift's `max`: the second argument when it is at least as large. */
  function Max(a: real, b: real): real {
    if b >= a then b else a
  }

  /** `s.reduce(acc) { min($0, $1) }`. */
  function FoldMin(acc: real, s: seq<real>): (m: real)
    ensures m <= acc && (m == acc || m in s)
    ensures forall x :: x in s ==> m <= x
    decreases |s|
  {
    if s == [] then acc
    else
      assert s == [s[0]] + s[1..];
      FoldMin(Min(acc, s[0]), s[1..])
  }

  /** `s.reduce(acc) { max($0, $1) }`. */
  function FoldMax(acc: real, s: seq<real>): (m: real)
    ensures m >= acc && (m == acc || m in s)
    ensures forall x :: x in s ==> x <= m
    decreases |s|
  {
    if s == [] then acc
    else
      assert s == [s[0]] + s[1..];
      FoldMax(Max(acc, s[0]), s[1..])
  }

  /** minOne: the least element of a non-empty sequence. */
  function MinOne(s: seq<real>): (m: real)
    requires |s| > 0
    ensures m in s
    ensures forall x :: x in s ==> m <= x
  {
    FoldMin(s[0], s)
  }

  /** maxOne: the greatest element of a non-empty sequence. */
  function MaxOne(s: seq<real>): (m: real)
    requires |s| > 0
    ensures m in s
    ensures forall x :: x in s ==> x <= m
  {
    FoldMax(s[0], s)
  }
}
