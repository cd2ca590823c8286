# Controller of a scene node: representations and their swap

This project models the per-node `Controller` of a three.js based IoT
visualisation (`src/common/Controller.ts`). A controller is attached to one
node of the scene graph. It can show that node in four representations:

- `normal` is the node itself.
- `line` is an edge outline plus an invisible picking box per geometry-bearing object.
- `pipe` is a recoloured copy of the mesh plus a copy carrying an animated arrow texture, per geometry-bearing object of the whole subtree.
- `points` is a point cloud per geometry-bearing object.

Each representation other than `normal` lives in a container group. The group
is built the first time the representation is selected and cached afterwards.
Switching moves the geometry-free children (labels, sub-controllers' nodes)
from the object shown so far to the one shown next. Inside the parent, the
object shown so far is replaced by the next one, which also takes over its
coordinates. `applyUserData` reads `renderOrder`, `showingModel` and `bloom`
from the node's user data, children first, and `bloom` toggles render layer 1.

The model has these modules:

- `Wrappers` (`wrappers.dfy`): the `Option` type.
- `Config` (`config.dfy`): user data, builder options and JavaScript's `||` defaulting.
  - An option absent, zero or empty falls back to the builder's default.
  - The exception is `flowRotation`, which is tested with `isNumber`.
- `SceneGraph` (`scene_graph.dfy`): the scene as two maps over node identifiers.
  - The links map holds the parent and the ordered children.
  - The contents map holds geometry, material, transform, layers, render order, user data and the `$controller` back-reference.
  - three.js `add` and `remove` are functions on the links (`Attach`, `Detach`).
  - The swap's graph surgery is `SwapLinks`.
  - This module holds the lemmas about the swap: its effect, the round trip, and the self-swap.
- `Representations` (`representations.dfy`): what each builder puts in its container, per source node, in order.
- `Controllers` (`controller.dfy`): the mutable part.
  - The class `Space` holds the scene maps, the animation registry and the set of controllers. Its methods are the primitive updates.
  - The class `Controller` has the source's fields. Each method of the source is a method here, proved against value-level predicates:
    - `Changed` specifies a `changeTo…Model`.
    - `Selected` specifies `changeShowingModel` for a known name.
    - `SettingsApplied` specifies `applyUserData`'s own part.
  - The lemmas at the end of the module relate several calls.
    - The round trip `normal → m → normal` restores the node's place.
    - Selecting twice changes nothing the second time.
    - A cached container is reused, and the pipe animation key is registered only on the first switch to the pipe.

Some behaviour follows from the code as written and is stated as such.

- `changeTo…Model()` called directly switches the representation without recording the name.
  - A later `changeShowingModel` with that name then asks the swap to replace the container by itself.
  - `parent.add(x).remove(x)` then leaves that container without a parent (`Controllers.SelectAfterDirectChange`).
- The children of the object being replaced are moved by `add`, which appends. A round trip therefore restores the node's children as a multiset, not necessarily in order. The node also ends up last among its parent's children.
- A builder called without options reads `this.userData.showingModelOptions`. With no user data this is a TypeError, which happens before anything changes. The model returns the status `MissingUserData` for it, and the scene and controller are unchanged.

## Model

| member | source | states |
|---|---|---|
| SceneGraph.DetachEffect | src/common/Controller.ts:299-301 | `remove` changes only the parent's list and the child's parent link, and nothing when the child is not listed |
| SceneGraph.DetachWf | src/common/Controller.ts:299-301 | `remove` keeps parents and children in agreement and the lists duplicate-free |
| SceneGraph.AttachEffect | src/common/Controller.ts:299-300 | after `add` the child is the last child of the new parent, its former parent has lost it, and no other node's links changed |
| SceneGraph.AttachWf | src/common/Controller.ts:299-300 | `add` keeps the tree well formed and creates no node |
| SceneGraph.RemoveFirst | src/common/Controller.ts:301 | removing drops exactly one occurrence when present and keeps every other member |
| SceneGraph.Detach | src/common/Controller.ts:301 | three.js `remove` on the links: the first occurrence of the child leaves the parent's list and the child loses its parent; nothing when it is not listed (properties in `DetachEffect`, `DetachWf`) |
| SceneGraph.Attach | src/common/Controller.ts:291 | three.js `add` on the links: refused for the node itself; otherwise the child is removed from its former parent, takes the new parent and is appended to its children (properties in `AttachEffect`, `AttachWf`) |
| SceneGraph.GeometrySplit | src/common/Controller.ts:288-293 | splitting a child list into the children with and without geometry loses and duplicates none |
| SceneGraph.MoveChildren | src/common/Controller.ts:288-293 | the move loop over a snapshot creates and deletes no node and names no node outside the tree |
| SceneGraph.MovePrefix | src/common/Controller.ts:288-293 | after k steps of the move loop, the geometry-free children among the first k have moved to the new object in order, the others stay, and nothing else changed |
| SceneGraph.SwapLinks | src/common/Controller.ts:285-302 | the links after the swap: the geometry-free children of the old object, in snapshot order, are added to the new one, then, when there is a parent, `parent.add(new).remove(old)`; the result names only nodes of the tree and has the same nodes (its effect in `SwapEffect`) |
| SceneGraph.SwapLinksWf | src/common/Controller.ts:285-302 | the swap keeps the tree well formed |
| SceneGraph.SwapEffect | src/common/Controller.ts:285-302 | the swap's effect on the links, under the conditions listed after this table |
| SceneGraph.SwapOut | src/common/Controller.ts:285-302 | swapping a node out for a container at rest hands the node's geometry-free children and parent to the container and leaves the container's leaves untouched |
| SceneGraph.SwapBack | src/common/Controller.ts:95-101 | swapping back hands the moved children and the parent to the node and leaves the container with its own leaves, detached |
| SceneGraph.RoundTrip | src/common/Controller.ts:285-302 | out and back restores the node's parent and the multiset of its children, restores the container's own children, and leaves the container at rest |
| SceneGraph.MoveToSelf | src/common/Controller.ts:288-293 | the move loop from an object into itself keeps its parent and changes no node outside its children |
| SceneGraph.SelfSwapDetaches | src/common/Controller.ts:295-302 | a swap of an object for itself leaves it without a parent and out of its former parent's children |
| Representations.ExpandStep | src/common/Controller.ts:170-193 | one more iteration of a builder loop appends exactly the drawables of one more source |
| Representations.Parts | src/common/Controller.ts:172-191 | the drawables made for one source with geometry: edge outline and picking box with the copied or reset transform for line (likewise the mesh and arrow-strip copies at 241-249, and the point cloud at 267-274) |
| Representations.Expand | src/common/Controller.ts:170-193 | the drawables a builder loop appends over its sources, in order: the parts of each source with geometry and nothing for the others (its shape in `ExpandShape`) |
| Representations.ExpandShape | src/common/Controller.ts:157-278 | line and pipe make exactly two drawables per geometry-bearing source and points one; the j-th group is made from the j-th geometry-bearing source, and sources without geometry contribute nothing |
| Config.ExplicitOptionsReplaceStored | src/common/Controller.ts:158 | explicit options replace the stored ones wholesale: an option they leave out takes the default even when the stored options set it |
| Config.SelectOptions | src/common/Controller.ts:158 | the explicit options, else the stored ones, else `{}`: nothing can be read (the TypeError) exactly when there are neither explicit options nor user data, and explicit options are used as given |
| Config.ResolveLine | src/common/Controller.ts:161-164 | the line builder's settings: colour `0x00FFFF` for the edges and opacity 0 for the picking box unless the options give truthy values (its properties in `ZeroFallsBackToDefault`, `TruthyOptionsKept`, `EmptyOptionsGiveDefaults`) |
| Config.ResolvePipe | src/common/Controller.ts:210-234 | the pipe builder's settings: colour, opacity, flow colour, flow opacity and flow count default when the option is falsy, the rotation through `isNumber` (its properties in the same three lemmas) |
| Config.ResolvePoints | src/common/Controller.ts:261 | the points builder's settings: size 0.1 and colour `0xffffff` unless the options give truthy values (its properties in the same three lemmas) |
| Config.StoredOptionsUsed | src/common/Controller.ts:198 | without explicit options the stored ones are used, `{}` when there are none; without user data no options can be read |
| Config.ZeroFallsBackToDefault | src/common/Controller.ts:158-261 | for each option on its own: an explicit zero colour, opacity, flow opacity, flow count or size, or an empty flow colour, gives that builder's default, while any explicit rotation, zero included, is kept |
| Config.TruthyOptionsKept | src/common/Controller.ts:158-261 | the converse: each truthy option is used as given by every builder that reads it |
| Config.EmptyOptionsGiveDefaults | src/common/Controller.ts:158-261 | with `{}` every builder uses its literal defaults |
| Controllers.BuiltStart | src/common/Controller.ts:160-168 | creating the group starts a container build with no leaves, detached and above every existing node |
| Controllers.BuiltStep | src/common/Controller.ts:246-248 | adding one more leaf to the group extends the build by exactly that drawable and changes no existing node |
| Controllers.BuiltRegistered | src/common/Controller.ts:168 | a build whose group names this controller as `$controller` keeps every `$controller` of the scene registered |
| Controllers.ChildrenAndSelf | src/common/Controller.ts:170-171 | the sources of the line and points builders: a snapshot of the node's children followed by the node itself |
| Controllers.TraversalsAgree | src/common/Controller.ts:241 | any two traversals from the same root list the same nodes: the subtree |
| Controllers.TraverseLinks | src/common/Controller.ts:241 | `traverse`: the root first, every node after its parent, each subtree node exactly once, every child of a listed node listed |
| Controllers.Space.Traverse | src/common/Controller.ts:241 | the scene's `traverse` under a node yields such a traversal |
| Controllers.Space.Add | src/common/Controller.ts:291 | `p.add(c)` on the scene: the links become `Attach` of them, still well formed |
| Controllers.Space.Remove | src/common/Controller.ts:301 | `p.remove(c)` on the scene: the links become `Detach` of them, still well formed |
| Controllers.Space.AddLeaf | src/common/Controller.ts:272-273 | a new leaf for a drawable becomes the last child of the group, and nothing else changes |
| Controllers.Space.SetTransform | src/common/Controller.ts:303 | `copyCoordinate` onto a node replaces its transform and nothing else |
| Controllers.Space.SetRenderOrder | src/common/Controller.ts:48-50 | sets one node's render order and nothing else |
| Controllers.Space.SetLayer | src/common/Controller.ts:62-69 | enables or disables one layer of one node and nothing else |
| Controllers.Space.SetController | src/common/Controller.ts:31 | sets one node's `$controller` and nothing else |
| Controllers.Space.AddAnimateAction | src/common/Controller.ts:252-254 | the registry gains exactly the given key, at the end |
| Controllers.Space.Swap | src/common/Controller.ts:285-303 | the loop over the snapshot, the parent replacement and the coordinate copy together produce `Swapped` of the scene |
| Controllers.Reordered | src/common/Controller.ts:48-50 | setting the render order changes that one property of that one node only |
| Controllers.Bloomed | src/common/Controller.ts:62-69 | layer 1 of the node is on exactly when requested, its other layers and properties and every other node unchanged |
| Controllers.Swapped | src/common/Controller.ts:285-304 | the scene after the swap: links as `SwapLinks` leaves them and the new object with the old one's transform; a scene that is not coherent, or an object not in it, is left as it is (the methods never pass one) |
| Controllers.Changed | src/common/Controller.ts:95-140 | what a `changeTo…Model` does: nothing when the model is already named; a missing-user-data failure exactly when a build is needed and no options can be read, changing nothing; otherwise the container (built first when missing, as `Grown` states) is swapped in and cached, only it changes among the caches, and the pipe key is registered on the first pipe build only |
| Controllers.Selected | src/common/Controller.ts:71-93 | `changeShowingModel` for a known model: `Changed` with the stored options, and the model name recorded exactly when the change succeeds |
| Controllers.SettingsApplied | src/common/Controller.ts:47-58 | the node's own settings in the source's order: the render order when truthy, then the model when its name is truthy (unknown names change nothing), then layer 1 of the object active by then when `bloom` is true |
| Controllers.ParseModel | src/common/Controller.ts:73-90 | the switch accepts exactly the four names, each selecting the model of that name |
| Controllers.ParseModelName | src/common/Controller.ts:73-85 | every model is selected by its own name |
| Controllers.SwitchEffect | src/common/Controller.ts:285-306 | the swap on a coherent scene: links as `SwapLinks` gives them, the new object takes the old one's transform, no other content changes, no node is created and the scene stays coherent |
| Controllers.SwitchAndBack | src/common/Controller.ts:285-306 | swapping a node out for a container at rest and back restores the node's parent, children (as a multiset) and contents, and leaves both ready for the next round |
| Controllers.GrownReady | src/common/Controller.ts:160-168 | a freshly built container is detached and holds only childless geometry leaves; the node it replaces is ready for the swap and untouched by the build |
| Controllers.SelectTwice | src/common/Controller.ts:96-98 | selecting the model that is already selected changes nothing and succeeds |
| Controllers.SelectCached | src/common/Controller.ts:103-140 | with the container already built, selecting its model builds nothing, registers no animation, shows that container and keeps every cache |
| Controllers.SelectAndBack | src/common/Controller.ts:71-140 | `normal → m → normal` makes the node active again under its old parent, with the same children (as a multiset) and contents, and keeps the container cached and at rest |
| Controllers.SelectAfterDirectChange | src/common/Controller.ts:103-114 | after a direct `changeTo…Model()`, `changeShowingModel` with the same name swaps the container for itself and so detaches it from its parent |
| Controllers.Controller.constructor | src/common/Controller.ts:28-33 | the controller keeps the given space and node; the node's `$controller` becomes this controller; showing `normal`; the node is active; name, user data and transform are the node's; nothing else changes |
| Controllers.Controller.Init | src/common/Controller.ts:142-155 | reads name, user data and transform from the node, shows `normal` and makes the node active |
| Controllers.Controller.CopyFromNode | src/common/Controller.ts:145-152 | the original and current position, rotation and scale both equal the node's, and the model name is `normal` |
| Controllers.Controller.UpdateShowingObject3d | src/common/Controller.ts:285-306 | the scene becomes `Swapped` of the old scene from the active object to the target, and the target becomes active |
| Controllers.Controller.Bloom | src/common/Controller.ts:62-69 | the scene becomes `Bloomed` on the active object: layer 1 toggled there only |
| Controllers.Controller.BuildContainer | src/common/Controller.ts:157-193 | a new group with the given name and this controller, holding the drawables of the sources in order |
| Controllers.Controller.InitLineModel | src/common/Controller.ts:157-195 | on success: a cached line container named `name + "_lineObject3d"`, holding the line drawables of the children and then the node, reset or copied as the node has geometry or not; without options or user data: nothing changes |
| Controllers.Controller.InitPointsModel | src/common/Controller.ts:259-278 | as for the line container, with one point cloud per source at the default position and the name `name + "_pointsObject3d"` |
| Controllers.Controller.BuildPipe | src/common/Controller.ts:241-254 | the pipe container holds two drawables per geometry-bearing node of a traversal of the subtree, and the key `name + "-pipe"` is registered |
| Controllers.Controller.InitPipeModel | src/common/Controller.ts:197-257 | on success: the cached pipe container named `name + "_pipeObject3d"`, built as `BuildPipe` builds it; without options or user data: nothing changes |
| Controllers.Controller.FirstBuilt | src/common/Controller.ts:157-278 | what a first build of a model leaves: the container named after the controller and the model, with this controller as `$controller`, holding that builder's drawables (for the pipe along a traversal of the subtree); nothing for `normal` |
| Controllers.Controller.ShowNewLine | src/common/Controller.ts:108-112 | first switch to line: the container is built, cached and swapped in |
| Controllers.Controller.ShowNewPoints | src/common/Controller.ts:134-138 | first switch to points: the container is built, cached and swapped in |
| Controllers.Controller.ShowNewPipe | src/common/Controller.ts:121-125 | first switch to pipe: the container is built, cached and swapped in, and the animation key is registered |
| Controllers.Controller.ShowCached | src/common/Controller.ts:95-140 | a later switch: the existing container (or the node) is swapped in, nothing is built |
| Controllers.Controller.ChangeToLineModel | src/common/Controller.ts:103-114 | `Changed` for line; a first successful switch also yields the built container |
| Controllers.Controller.ChangeToPointsModel | src/common/Controller.ts:129-140 | `Changed` for points; a first successful switch also yields the built container |
| Controllers.Controller.ChangeToPipeModel | src/common/Controller.ts:116-127 | `Changed` for pipe; a first successful switch also yields the built container over a traversal |
| Controllers.Controller.ChangeToNormalModel | src/common/Controller.ts:95-101 | `Changed` for normal: nothing when the name says normal, otherwise the node is swapped back in |
| Controllers.Controller.ChangeShowingModel | src/common/Controller.ts:71-93 | an unknown name changes nothing and reports `UnknownModel`; a known one behaves as `Selected`, the name recorded only when the change succeeds, and a first successful switch to a model yields its built container (`FirstBuilt`) |
| Controllers.Controller.SelectNormal | src/common/Controller.ts:77-91 | `Selected` for normal |
| Controllers.Controller.SelectLine | src/common/Controller.ts:74-91 | `Selected` for line; a first successful switch yields the built line container (`FirstBuilt`) |
| Controllers.Controller.SelectPipe | src/common/Controller.ts:80-91 | `Selected` for pipe; a first successful switch yields the built pipe container (`FirstBuilt`) |
| Controllers.Controller.SelectPoints | src/common/Controller.ts:83-91 | `Selected` for points; a first successful switch yields the built points container (`FirstBuilt`) |
| Controllers.Controller.ApplyRenderOrder | src/common/Controller.ts:48-50 | the node's render order is set exactly when the value is truthy (so 0 is ignored) |
| Controllers.Controller.ApplyShowingModel | src/common/Controller.ts:52-54 | `changeShowingModel` runs exactly when the name is truthy; an empty name changes nothing; a first successful switch yields the built container (`FirstBuilt`) |
| Controllers.Controller.ApplyBloom | src/common/Controller.ts:56-58 | layer 1 of the active object is enabled exactly when `bloom` is true |
| Controllers.Controller.ApplyOwnSettings | src/common/Controller.ts:47-58 | render order, then model, then bloom on the object active by then, as `SettingsApplied` states; a model built on this call is the container `FirstBuilt` describes |
| Controllers.Controller.ApplyUserData | src/common/Controller.ts:35-60 | no user data: nothing changes at all; otherwise, after the children, the own settings apply as `SettingsApplied` states, with `FirstBuilt` for a model built on the way; the next free node identifier never decreases |
| Controllers.Controller.ApplyChildren | src/common/Controller.ts:41-45 | each child in a snapshot of the node's children that has a controller applies its user data; the scene stays valid and only grows |

`SceneGraph.SwapEffect` states the swap's effect on the links. The conditions are that the new object is detached and is not the old object's parent, and that the old object's parent is not one of its own children. Under them:

- the new object gets the old one's parent and gains its geometry-free children, appended in order;
- those children now name the new object as parent;
- the old object keeps only its geometry children and has no parent;
- the old parent loses the old object and gains the new one at the end of its children;
- without a parent nobody gains the new object;
- no other node changes.

## Left out

- Scene acyclicity: the well-formedness predicate requires that parents and children agree, that no node is its own parent and that children lists have no duplicates, but not that the tree is acyclic. three.js `add` itself only refuses self-adds. The swap and round-trip lemmas instead require that the active object's parent is not among its own children.
- Controllers.Controller.ApplyUserData: the recursion into the children's controllers takes a `fuel` depth bound. Termination through containers that carry a `$controller` does not follow from any measure on the tree. The children are handled only while fuel lasts.
- Controllers.Controller.ApplyChildren: states only that the scene stays valid and only grows. What each child's controller does is stated by that child's own `ApplyUserData`, not collected here.
- Textures, canvases and materials are reduced to the settings that configure them. This covers the arrow texture, `CanvasTexture`, `EdgesGeometry` and the `side`/`depthWrite`/`transparent` flags. The texture offset arithmetic of the pipe animation and `flowSpeed` are left out. Only the registered key is modelled.
- `copyCoordinate` and `resetCoordinate` are in `base/utilities`, which is not part of this model. They are assumed to copy the position, rotation and scale triple and to restore the default transform (origin, no rotation, unit scale).
- Floating-point values are Dafny reals, and NaN, falsy in JavaScript, has no counterpart.
- `console.error` on an unknown model name is the status `UnknownModel`. The return values (`this`, or `undefined` on the early returns) are not modelled.
- `showingModel` is an enumeration of the four names. The source stores a string, but `changeShowingModel` writes only one of the four accepted names.
- The constructor's `options` parameter is unused by the source and left out.
- Controllers.Space.Traverse: promises a duplicate-free, parent-first listing of the subtree. three.js visits depth first with children in order, and the model computes that order, but its contract does not state it. The pipe container follows the order returned.
- `initPipeModel` creates the group before traversing the node's subtree. The model traverses first. The detached new group is not in that subtree, so the traversal is the same.
- The animation loop of `Space` (running the registered actions each frame) is left out. The registry is a log of keys, and nothing is ever removed from it.
- `src/common/base/Inspector.ts` (a debugging overlay of DOM, dat.GUI and raycasting calls) is not part of this model.
