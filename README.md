# XYARKit placement core in Dafny

This project models the two parts of the XYARKit augmented-reality view
controller that hold logic of their own. ARKit and SceneKit are left out.

- **VirtualObject** (`virtual_object.dfy`, module `VirtualObjects`) is a model
  that can be placed in the scene. It has two light/shadow rigs: one for
  floors and one for walls. Assigning `currentPlaneAlignment` shows one rig,
  hides the other and moves the pivot. Each shadow plane is built the first
  time it is needed, at most once, with geometry taken from the model's
  bounding box. The module also holds `existingObjectContainingNode` (a walk up
  the parent chain) and the `minOne`/`maxOne` reductions.
- **ARSceneController** (`ar_scene_controller.dfy`, module `ARScene`) owns the
  loaded model and the placed model. It also holds the `canPlaceObject` latch
  and the tracked pan position. Its handlers cover tap (place or move), pan
  (drag or turn), pinch (scale), a new ARKit anchor, and the first-match
  search over touch points.

Both are classes whose methods update their fields in place. Every mutable
field of a model is gathered in the value `ObjectState`, and pure functions
say what each step does to that value. Examples are `Aligned` for the
alignment observer and `PlacedState` for `place`. The methods are proved
against these functions. Lemmas about the functions cover runs of events:
repeated alignments, the latch over any sequence of anchors, and the pinch,
rotation and touch-tracking samples over a whole gesture. `geometry.dfy`
holds vectors, points and bounding boxes over the reals. `wrappers.dfy`
holds `Option`.

The framework is passed in as parameters:

- `hitTest: Point -> Option<Vec3>` stands for `smartHitTest`. Its answer is the
  translation of the hit's world transform.
- `project: Vec3 -> Point` stands for `projectPoint`.
- `touchHits` and `centreHit` are what `virtualObject(at:)` answers at each
  touch and at the gesture's centre.
- A `bundle` map stands for the app bundle. It maps resource names to the
  bounding boxes of their models.

A pivot matrix is modelled by its translation. A light node is modelled by
its visibility flag alone. A placed model is a direct child of the scene
root, so its `simdPosition` and `simdWorldPosition` are one field,
`position`.

### Behaviour worth noting

- The horizontal pivot is the translation `(0, min.y, 0)`, not the bottom
  centre of the box.
- The first placement pivots the model at `(0, min.y + 2, 0)`, not at the
  horizontal pivot.
- The model is recorded as placed even when the hit-test inside `place`
  misses. It is then never added to the scene: later taps only move it (see
  `MissedFirstPlacementStaysHidden`), and a later pinch still rescales it.
- `shouldUpdateAnchor` is set and cleared at once on the first placement, so
  it ends false.

## Model

| member | source | states |
|---|---|---|
| `VirtualObjects.VirtualObject.SetCurrentPlaneAlignment` | XYARKit/XYARKit/VirtualObject.swift:34-61 | The alignment observer keeps the object invariant. The new state is `Aligned` of the old one, and nothing outside the rig, pivot and alignment fields changes. |
| `VirtualObjects.VirtualObject.ShowHorizontalRig` | XYARKit/XYARKit/VirtualObject.swift:38-46 | The `.horizontal` branch: the new state is `HorizontalRigShown` of the old one (floor light and plane shown, wall light and plane hidden, floor pivot, floor plane built if missing). Only the rig, pivot and children fields change. |
| `VirtualObjects.VirtualObject.ShowVerticalRig` | XYARKit/XYARKit/VirtualObject.swift:47-56 | The `.vertical` branch: the new state is `VerticalRigShown` of the old one (wall light and plane shown, floor light and plane hidden, wall pivot, wall plane built if missing). Only the rig, pivot and children fields change. |
| `VirtualObjects.Aligned` | XYARKit/XYARKit/VirtualObject.swift:35-60 | Horizontal: horizontal light and plane visible, vertical light and plane (if built) hidden, pivot `(0, min.y, 0)`, and the horizontal plane built only if it was missing. Vertical: the converse, with pivot at the centre of the back face. Face, air, all or nil change nothing but the stored alignment. Placement fields never change. A well-formed state stays well-formed. |
| `VirtualObjects.AlignedIdempotent` | XYARKit/XYARKit/VirtualObject.swift:35-60 | Assigning the same alignment twice gives the same state as assigning it once. |
| `VirtualObjects.RepeatedAlignmentIsIdempotent` | XYARKit/XYARKit/VirtualObject.swift:137 | Any number (at least one) of assignments of the same alignment ends in the state of the first. No shadow plane is rebuilt and no child is added again. |
| `VirtualObjects.AlignmentsKeepWellFormed` | XYARKit/XYARKit/VirtualObject.swift:137-177 | After any sequence of alignments the object has at most four light and shadow-plane children, none twice. Exactly one rig (a light with its own plane) is visible, and each plane keeps the geometry of its bounding box. |
| `VirtualObjects.ChildrenDistinct` | XYARKit/XYARKit/VirtualObject.swift:153-176 | A well-formed object holds each kind of child node at most once. |
| `VirtualObjects.InitialState` | XYARKit/XYARKit/VirtualObject.swift:89-100 | After construction both lights exist with only the vertical one hidden. The pivot is the horizontal pivot and the horizontal shadow plane exists. There is no vertical plane and no alignment. Transform fields have SceneKit's defaults. |
| `VirtualObjects.VirtualObject.constructor` | XYARKit/XYARKit/VirtualObject.swift:89-100 | `init(resourceName:)` needs the resource in the bundle (a fatal error otherwise). It takes that model's bounding box and name, and leaves the object in `InitialState`, which is well-formed. |
| `VirtualObjects.VirtualObject.AddHorizontalLight` | XYARKit/XYARKit/VirtualObject.swift:180-195 | Adds a visible light child and records it in the light field. |
| `VirtualObjects.VirtualObject.AddVerticalLight` | XYARKit/XYARKit/VirtualObject.swift:198-215 | Adds a hidden light child and records it in the light field. |
| `VirtualObjects.VirtualObject.SetupHorizontalPivot` | XYARKit/XYARKit/VirtualObject.swift:115-121 | The pivot becomes `HorizontalPivot`, the translation `(0, bbox.min.y, 0)`, and nothing else changes. |
| `VirtualObjects.VirtualObject.SetupVerticalPivot` | XYARKit/XYARKit/VirtualObject.swift:123-133 | The pivot becomes the centre of the box's back face, `(mid-x, mid-y, min-z)`, and nothing else changes. |
| `VirtualObjects.VirtualObject.SetupHorizontalShadows` | XYARKit/XYARKit/VirtualObject.swift:136-155 | When the plane already exists nothing changes. Otherwise the floor plane is built and added as a child. |
| `VirtualObjects.VirtualObject.SetupVerticalShadows` | XYARKit/XYARKit/VirtualObject.swift:158-177 | When the plane already exists nothing changes. Otherwise the wall plane is built and added as a child. |
| `VirtualObjects.VerticalPivot` | XYARKit/XYARKit/VirtualObject.swift:124-126 | The vertical pivot is the centre of the bounding box's back (min-z) face. |
| `VirtualObjects.HorizontalShadowPlane` | XYARKit/XYARKit/VirtualObject.swift:138-152 | The floor plane measures x-extent by z-extent, sits at `(mid-x, min-y, mid-z)` lying flat, and covers exactly the bottom face of the bounding box. |
| `VirtualObjects.VerticalShadowPlane` | XYARKit/XYARKit/VirtualObject.swift:160-174 | The wall plane measures x-extent by y-extent, sits upright at `(mid-x, mid-y, min-z)`, and covers exactly the back face of the bounding box. |
| `VirtualObjects.LightWithHidden` | XYARKit/XYARKit/VirtualObject.swift:39-40 | Optional chaining on a light: it sets the flag when the node exists and creates none when it does not. |
| `VirtualObjects.PlaneWithHidden` | XYARKit/XYARKit/VirtualObject.swift:45-46 | Optional chaining on a shadow plane: it sets the flag when the plane exists, keeps its geometry, and creates none. |
| `VirtualObjects.ExistingObjectContainingNode` | XYARKit/XYARKit/VirtualObject.swift:222-230 | Returns an object exactly when the node or one of its ancestors is an object. |
| `VirtualObjects.ExistingObjectIsNearest` | XYARKit/XYARKit/VirtualObject.swift:223-229 | The object returned belongs to the nearest node on the chain up to the root that is an object: no node before it on the chain is one. |
| `VirtualObjects.Lineage` | XYARKit/XYARKit/VirtualObject.swift:227-229 | The parent chain walked: it starts at the node and ends at a root. |
| `VirtualObjects.LineageIsParentChain` | XYARKit/XYARKit/VirtualObject.swift:227-229 | Each entry of the walked chain has the next entry as its parent. |
| `VirtualObjects.MinOne` | XYARKit/XYARKit/VirtualObject.swift:232-237 | Needs a non-empty sequence. Returns an element of it that no element is below. |
| `VirtualObjects.MaxOne` | XYARKit/XYARKit/VirtualObject.swift:239-244 | Needs a non-empty sequence. Returns an element of it that no element exceeds. |
| `VirtualObjects.FoldMin` | XYARKit/XYARKit/VirtualObject.swift:234-236 | The `reduce` with `min`: the result is the seed or an element, and bounds both from below. |
| `VirtualObjects.FoldMax` | XYARKit/XYARKit/VirtualObject.swift:241-243 | The `reduce` with `max`: the result is the seed or an element, and bounds both from above. |
| `Geometry.Mid` | XYARKit/XYARKit/VirtualObject.swift:124-125 | `min + (max - min) / 2` is equidistant from both ends. |
| `ARScene.ARSceneController.constructor` | XYARKit/XYARKit/ARSceneController.swift:31-92 | Defaults plus `loadVirtualObject` in viewDidLoad: the bundled model is loaded fresh in its initial state. Nothing is placed, the latch is closed and no pan position is tracked. |
| `ARScene.ARSceneController.ShowVirtualObject` | XYARKit/XYARKit/ARSceneController.swift:153-177 | With the latch closed nothing changes. With a model placed, only its position changes, to the hit, and only on a hit. Otherwise the loaded model becomes the placed one even on a miss, is placed as `place` says, and ends with `shouldUpdateAnchor` false. |
| `ARScene.ARSceneController.Place` | XYARKit/XYARKit/ARSceneController.swift:180-192 | On a miss nothing changes. On a hit the pivot becomes `(0, min.y + 2, 0)`, the object joins the scene root, its scale becomes `(0.01, 0.01, 0.01)` and its position the hit translation. |
| `ARScene.ARSceneController.DidPan` | XYARKit/XYARKit/ARSceneController.swift:207-234 | With nothing placed nothing changes. A phase other than changed only clears the tracked position. On an object, the tracked position becomes previous (or the projection) plus the translation, the object moves only on a hit, and the translation resets. Off any object, the rotation grows by translation.x / 100, position and tracked point stay, and the translation resets. |
| `ARScene.ARSceneController.Drag` | XYARKit/XYARKit/ARSceneController.swift:212-223 | The tracked touch point becomes the previous one (or the object's projection when none is tracked) plus the sampled translation. The object moves to that point's hit only when the hit-test succeeds. The translation is reset to zero. Nothing else changes. |
| `ARScene.ARSceneController.Turn` | XYARKit/XYARKit/ARSceneController.swift:224-228 | The rotation grows by the sampled horizontal translation divided by 100, and the translation is reset to zero. Nothing else changes. |
| `ARScene.ARSceneController.DidScale` | XYARKit/XYARKit/ARSceneController.swift:236-243 | Only in the changed phase with a model placed: the scale is multiplied by the gesture's factor and the factor resets to 1. Otherwise nothing changes. |
| `ARScene.ARSceneController.ObjectInteracting` | XYARKit/XYARKit/ARSceneController.swift:245-258 | Returns `FirstHit`: the loop stops at the first touch that hits an object. |
| `ARScene.FirstHit` | XYARKit/XYARKit/ARSceneController.swift:245-258 | If some touch hits an object, the result is the object of the lowest such touch. If none does, it is the centre's answer, or nil when there is no centre. |
| `ARScene.ARSceneController.RendererDidAdd` | XYARKit/XYARKit/ARSceneController.swift:267-272 | `canPlaceObject` becomes true on a horizontal plane anchor and otherwise keeps its value. It never returns to false. |
| `ARScene.CanPlaceIsALatch` | XYARKit/XYARKit/ARSceneController.swift:35 | After any run of added anchors, the flag is true exactly when it was true before or one of the anchors is a horizontal plane. |
| `ARScene.PinchSamplesCompose` | XYARKit/XYARKit/ARSceneController.swift:240-242 | Successive pinch samples scale by the product of their factors. |
| `ARScene.PanRotationAccumulates` | XYARKit/XYARKit/ARSceneController.swift:226-228 | Successive off-object pan samples turn the object by the total horizontal travel / 100. |
| `ARScene.TouchTrackingAccumulates` | XYARKit/XYARKit/ARSceneController.swift:214-223 | Successive on-object pan samples track the start position plus the sum of the sampled deltas. |
| `ARScene.FirstPlacement` | XYARKit/XYARKit/ARSceneController.swift:155-192 | A fresh controller and model, one horizontal plane, then a tap that hits. Afterwards the model is placed at the hit with scale 0.01 and its floor rig visible. |
| `ARScene.MissedFirstPlacementStaysHidden` | XYARKit/XYARKit/ARSceneController.swift:155-192 | A fresh controller and model, one horizontal plane, a tap whose hit-test misses, then any later tap. The model is recorded as placed but is never added to the scene: it keeps scale 1 and its loaded pivot, and the later tap only sets its position where that tap hits. |

## Left out

- ARSceneController+RecordAR.swift: video recording over the ARVideoKit library, photo-library permissions and alert presentation. It is UI and a foreign library.
- Session lifecycle: `resetTracking`, `viewWillAppear`, `viewWillDisappear`, the coaching overlay, the tracking-state logging, the empty session callbacks and `renderer(_:didUpdate:for:)` (which has no live code). These are framework plumbing.
- `shouldRecognizeSimultaneouslyWith` always answers true. Handlers are modelled one call at a time, so simultaneous recognition is not modelled.
- Scene lighting and floor: `addLight`, `addShadowPlane(with:)` and `anyPlaneFrom` (SCNFloor, materials, the controller's `lightNode` and `shadowPlane` fields). These are rendering configuration. The `addShadowPlane` call at the end of a tap is not modelled.
- Light and material properties (type, colour, shadow radius and sample count, intensity, euler angles of the lights) are rendering configuration. Only the lights' visibility flags are modelled.
- Hit-testing, ray-casting, `projectPoint` and `virtualObject(at:)` are framework computations. They are parameters of the handlers.
- The anchor update queued on `updateQueue` is fire-and-forget concurrency. Only the `shouldUpdateAnchor` flag is modelled.
- Raycast tracking (`raycast`, `raycastQuery`, `stopTrackedRaycast`, `mostRecentInitialPlacementResult`) and the `anchor` field are thin ARKit wrappers.
- `modelName` and `allowedAlignment` are computed properties over a URL and a framework constant.
- `init?(url:)` runs the same steps as `init(resourceName:)` without setting the name, and the controller never calls it. `init?(coder:)` traps with `fatalError`.
- The step of `init?` that can fail, `super.init(url:)`, belongs to SceneKit. In the model, construction always yields an object. The handlers still treat a missing loaded model as the source does.
- Floating point: positions, scales, rotations and the Float/CGFloat conversions are reals, so nothing here is a claim about rounding.
- `MinOne`, `MaxOne`, `FoldMin`, `FoldMax`: Swift's generic `Comparable` is fixed to `real`.
- `ExistingObjectContainingNode`: the scene graph is a chain of `SceneNode` records. The model does not connect that chain to the object's own child list.
- `objectRotation` is declared in an extension of `VirtualObject` that is not part of this model. The model takes it as a stored angle that `+=` adds to, with no wrapping.
- The content nodes that `load()` adds as children of the object are not modelled. `children` holds only the light and shadow-plane nodes.
