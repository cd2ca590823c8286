/**
 * The scene a controller lives in (`Space`) and the per-node `Controller`
 * that switches a node between its four representations: `normal` (the node
 * itself), `line`, `pipe` and `points`.
 */
module Controllers {
  import opened Wrappers
  import opened Config
  import opened SceneGraph
  import opened Representations

  /** A snapshot of the nodes a `Space` holds, for stating what methods do to them. */
  datatype SceneState = SceneState(tree: Tree, content: Content<Controller>, nextId: NodeId)

  /**
   * Links well formed, links and contents over the same nodes, and those nodes
   * exactly the identifiers handed out so far (nothing is ever deleted).
   */
  ghost predicate Coherent(s: SceneState) {
    && Wf(s.tree) && s.tree.Keys == s.content.Keys
    && forall n: NodeId :: n in s.tree <==> n < s.nextId
  }

  /** The identifier held, if any, is below `n`. */
  predicate Below(o: Option<NodeId>, n: nat) {
    o.None? || o.value < n
  }

  /** The identifiers `a, a + 1, …, a + n - 1`. */
  function Ids(a: NodeId, n: nat): (r: seq<NodeId>)
    ensures |r| == n && forall i :: 0 <= i < n ==> r[i] == a + i
  {
    seq(n, i => a + i)
  }

  /**
   * `s1` is `s0` with a new detached container `g` whose children are new
   * childless leaves carrying geometry, one per identifier after `g`, in
   * order; nothing that existed before changed.
   */
  ghost predicate Grown(s0: SceneState, s1: SceneState, g: NodeId) {
    GrownKeys(s0, s1, g) && GrownLinks(s0, s1, g)
  }

  /** The new nodes are `g` up to `s1.nextId`, all above the old ones. */
  ghost predicate GrownKeys(s0: SceneState, s1: SceneState, g: NodeId) {
    && g == s0.nextId && g < s1.nextId
    && (forall n :: n in s0.tree ==> n < g)
    && (forall n :: n in s0.content ==> n < g)
    && (forall n :: n in s1.tree <==> n in s0.tree || g <= n < s1.nextId)
    && (forall n :: n in s1.content <==> n in s0.content || g <= n < s1.nextId)
  }

  /** The old nodes are untouched; `g` holds the rest, in order, and each has geometry. */
  ghost predicate GrownLinks(s0: SceneState, s1: SceneState, g: NodeId)
    requires GrownKeys(s0, s1, g)
  {
    && (forall n :: n in s0.tree ==> s1.tree[n] == s0.tree[n])
    && (forall n :: n in s0.content ==> s1.content[n] == s0.content[n])
    && s1.tree[g] == Links(None, Ids(g + 1, s1.nextId - g - 1))
    && forall j :: g < j < s1.nextId ==> s1.tree[j] == Links(Some(g), []) && s1.content[j].geometry.Some?
  }

  /** `Grown`, with the container holding `group` and the leaves made from `ds` in order. */
  ghost predicate Built(s0: SceneState, s1: SceneState, g: NodeId, group: Node<Controller>, ds: seq<Drawable>) {
    && Grown(s0, s1, g) && s1.nextId == g + 1 + |ds|
    && s1.content[g] == group
    && forall i :: 0 <= i < |ds| ==> s1.content[g + 1 + i] == Leaf(ds[i])
  }

  /** Creating the container starts a build with no leaves. */
  lemma BuiltStart(s0: SceneState, s1: SceneState, group: Node<Controller>)
    requires forall n :: n in s0.tree ==> n < s0.nextId
    requires s0.tree.Keys == s0.content.Keys
    requires s1 == s0.(tree := s0.tree[s0.nextId := Detached], content := s0.content[s0.nextId := group], nextId := s0.nextId + 1)
    ensures Built(s0, s1, s0.nextId, group, [])
  {
    assert Ids(s0.nextId + 1, 0) == [];
  }

  /** Adding one more leaf to the container keeps the growth shape. */
  lemma GrownStep(s0: SceneState, s1: SceneState, s2: SceneState, g: NodeId, leaf: Node<Controller>)
    requires Grown(s0, s1, g) && leaf.geometry.Some?
    requires s2.nextId == s1.nextId + 1
    requires s2.tree == s1.tree[s1.nextId := Links(Some(g), [])][g := s1.tree[g].(children := s1.tree[g].children + [s1.nextId])]
    requires s2.content == s1.content[s1.nextId := leaf]
    ensures Grown(s0, s2, g)
  {
    GrownKeysStep(s0, s1, s2, g, leaf);
    GrownLinksStep(s0, s1, s2, g, leaf);
  }

  lemma GrownKeysStep(s0: SceneState, s1: SceneState, s2: SceneState, g: NodeId, leaf: Node<Controller>)
    requires GrownKeys(s0, s1, g)
    requires s2.nextId == s1.nextId + 1
    requires s2.tree == s1.tree[s1.nextId := Links(Some(g), [])][g := s1.tree[g].(children := s1.tree[g].children + [s1.nextId])]
    requires s2.content == s1.content[s1.nextId := leaf]
    ensures GrownKeys(s0, s2, g)
  {
  }

  lemma GrownLinksStep(s0: SceneState, s1: SceneState, s2: SceneState, g: NodeId, leaf: Node<Controller>)
    requires GrownKeys(s0, s1, g) && GrownLinks(s0, s1, g) && leaf.geometry.Some?
    requires s2.nextId == s1.nextId + 1
    requires s2.tree == s1.tree[s1.nextId := Links(Some(g), [])][g := s1.tree[g].(children := s1.tree[g].children + [s1.nextId])]
    requires s2.content == s1.content[s1.nextId := leaf]
    ensures GrownLinks(s0, s2, g)
  {
    var id := s1.nextId;
    assert Ids(g + 1, s2.nextId - g - 1) == Ids(g + 1, s1.nextId - g - 1) + [id];
  }

  /** Adding one more leaf `d` to the container extends the build by `d`. */
  lemma BuiltStep(s0: SceneState, s1: SceneState, s2: SceneState, g: NodeId, group: Node<Controller>, ds: seq<Drawable>, d: Drawable)
    requires Built(s0, s1, g, group, ds)
    requires s2.nextId == s1.nextId + 1
    requires s2.tree == s1.tree[s1.nextId := Links(Some(g), [])][g := s1.tree[g].(children := s1.tree[g].children + [s1.nextId])]
    requires s2.content == s1.content[s1.nextId := Leaf(d)]
    ensures Built(s0, s2, g, group, ds + [d])
  {
    GrownStep(s0, s1, s2, g, Leaf(d));
    forall i | 0 <= i < |ds| + 1 ensures s2.content[g + 1 + i] == Leaf((ds + [d])[i]) {
      if i < |ds| {
        assert g + 1 + i < s1.nextId;
      }
    }
  }

  lemma AppendOne<T>(ds: seq<T>, ps: seq<T>)
    requires |ps| == 1
    ensures ds + [ps[0]] == ds + ps
  {
    assert ps == [ps[0]];
  }

  lemma AppendTwo<T>(ds: seq<T>, ps: seq<T>)
    requires |ps| == 2
    ensures ds + [ps[0]] + [ps[1]] == ds + ps
  {
    assert ps == [ps[0]] + [ps[1]];
  }

  /** Every controller named by a node of `content` is in `cs`. */
  ghost predicate Registered(content: Content<Controller>, cs: set<Controller>) {
    forall n :: n in content && content[n].controller.Some? ==> content[n].controller.value in cs
  }

  /** A build whose container names a registered controller (and whose leaves name none) keeps registration. */
  lemma BuiltRegistered(s0: SceneState, s1: SceneState, g: NodeId, group: Node<Controller>, ds: seq<Drawable>, cs: set<Controller>)
    requires Built(s0, s1, g, group, ds) && Registered(s0.content, cs)
    requires group.controller.Some? ==> group.controller.value in cs
    ensures Registered(s1.content, cs)
  {
    forall n | n in s1.content && n !in s0.content && n != g ensures s1.content[n].controller.None? {
      var i := n - g - 1;
      assert g + 1 + i == n && 0 <= i < |ds|;
      assert s1.content[g + 1 + i] == Leaf(ds[i]);
    }
  }

  /**
   * The scene after `updateShowingObject3d(newObj)` with `oldObj` active: the
   * links as `SwapLinks` leaves them, and `newObj` with `oldObj`'s transform
   * (`copyCoordinate`).
   */
  ghost function Swapped(s: SceneState, oldObj: NodeId, newObj: NodeId): (r: SceneState)
  {
    if Coherent(s) && oldObj in s.tree && newObj in s.tree then
      s.(tree := SwapLinks(s.tree, Geometric(s.content), oldObj, newObj),
         content := s.content[newObj := s.content[newObj].(transform := s.content[oldObj].transform)])
    else s
  }

  /** `s1` is `s0` after the active object `shown` gives way to `target`. */
  ghost predicate Switched(s0: SceneState, shown: NodeId, target: NodeId, s1: SceneState) {
    s1 == Swapped(s0, shown, target)
  }

  /** The sources of the line and points builders: the node's children, then the node itself. */
  function ChildrenAndSelf(t: Tree, x: NodeId): seq<NodeId>
    requires x in t
  {
    t[x].children + [x]
  }

  /**
   * `order` lists the subtree under `root` once each, starting at `root`:
   * every later node's parent comes before it, and every child of a listed
   * node is listed.
   */
  ghost predicate IsTraversal(t: Tree, root: NodeId, order: seq<NodeId>) {
    && |order| > 0 && order[0] == root
    && NoDup(order)
    && (forall x :: x in order ==> x in t)
    && (forall i :: 0 < i < |order| ==> t[order[i]].parent.Some? && t[order[i]].parent.value in order[..i])
    && (forall x, c :: x in order && c in t[x].children ==> c in order)
  }

  /** Every node of a traversal is in any other traversal from the same root. */
  lemma {:induction false} TraversalMember(t: Tree, root: NodeId, o1: seq<NodeId>, o2: seq<NodeId>, i: nat)
    requires Wf(t) && IsTraversal(t, root, o1) && IsTraversal(t, root, o2) && i < |o1|
    ensures o1[i] in o2
    decreases i
  {
    if i > 0 {
      var x := o1[i];
      var p := t[x].parent.value;
      var j :| 0 <= j < i && o1[j] == p;
      TraversalMember(t, root, o1, o2, j);
      assert x in t[p].children;
    }
  }

  /** A traversal lists exactly the nodes of the subtree: any two from the same root hold the same nodes. */
  lemma TraversalsAgree(t: Tree, root: NodeId, o1: seq<NodeId>, o2: seq<NodeId>)
    requires Wf(t) && IsTraversal(t, root, o1) && IsTraversal(t, root, o2)
    ensures forall x :: x in o1 <==> x in o2
  {
    forall x | x in o1 ensures x in o2 {
      var i :| 0 <= i < |o1| && o1[i] == x;
      TraversalMember(t, root, o1, o2, i);
    }
    forall x | x in o2 ensures x in o1 {
      var i :| 0 <= i < |o2| && o2[i] == x;
      TraversalMember(t, root, o2, o1, i);
    }
  }

  function Reversed(s: seq<NodeId>): (r: seq<NodeId>)
    ensures |r| == |s| && forall i :: 0 <= i < |s| ==> r[i] == s[|s| - 1 - i]
    ensures forall x :: x in r <==> x in s
  {
    if s == [] then [] else Reversed(s[1..]) + [s[0]]
  }

  /** The invariant of `TraverseLinks`: nodes listed so far, and those still on the stack. */
  ghost predicate Walk(t: Tree, root: NodeId, order: seq<NodeId>, visited: set<NodeId>, stack: seq<NodeId>) {
    && visited <= t.Keys && (forall x :: x in stack ==> x in t)
    && (forall x :: x in order <==> x in visited)
    && NoDup(order)
    && (order == [] ==> stack == [root])
    && (order != [] ==> order[0] == root)
    && (forall x :: x in stack ==> x == root || (t[x].parent.Some? && t[x].parent.value in visited))
    && (forall i :: 0 < i < |order| ==> t[order[i]].parent.Some? && t[order[i]].parent.value in order[..i])
    && (forall x, c :: x in visited && c in t[x].children ==> c in visited || c in stack)
  }

  /** Popping a node already listed keeps the invariant. */
  lemma PopVisited(t: Tree, root: NodeId, order: seq<NodeId>, visited: set<NodeId>, stack: seq<NodeId>, x: NodeId)
    requires Walk(t, root, order, visited, stack + [x]) && x in visited
    ensures Walk(t, root, order, visited, stack)
  {
    assert forall z :: z in stack + [x] ==> z == x || z in stack;
  }

  /** Listing a node whose parent is listed (or which is the root, listed first) keeps parents first. */
  lemma ListParentFirst(t: Tree, root: NodeId, order: seq<NodeId>, x: NodeId)
    requires x in t && x !in order
    requires order == [] ==> x == root
    requires order != [] ==> order[0] == root && x != root && t[x].parent.Some? && t[x].parent.value in order
    requires forall i :: 0 < i < |order| ==> order[i] in t && t[order[i]].parent.Some? && t[order[i]].parent.value in order[..i]
    requires NoDup(order)
    ensures NoDup(order + [x]) && (order + [x])[0] == root
    ensures forall i :: 0 < i < |order + [x]| ==> t[(order + [x])[i]].parent.Some? && t[(order + [x])[i]].parent.value in (order + [x])[..i]
  {
    var order' := order + [x];
    assert forall i :: 0 <= i <= |order| ==> order'[..i] == order[..i];
    forall i | 0 < i < |order'|
      ensures t[order'[i]].parent.Some? && t[order'[i]].parent.value in order'[..i]
    {
      if i == |order| {
        assert order'[i] == x;
      }
    }
  }

  /** Pushing a listed node's children keeps every child of a listed node listed or pending. */
  lemma PushChildren(t: Tree, visited: set<NodeId>, stack: seq<NodeId>, x: NodeId)
    requires x in t && visited <= t.Keys
    requires forall y, c :: y in visited && c in t[y].children ==> c in visited || c in stack + [x]
    ensures forall y, c :: y in visited + {x} && c in t[y].children ==>
      c in visited + {x} || c in stack + Reversed(t[x].children)
  {
    assert forall z :: z in stack + [x] ==> z == x || z in stack;
    assert forall z :: z in stack + Reversed(t[x].children) <==> z in stack || z in t[x].children;
  }

  /** Popping a new node lists it and pushes its children, last child first. */
  lemma PopFresh(t: Tree, root: NodeId, order: seq<NodeId>, visited: set<NodeId>, stack: seq<NodeId>, x: NodeId)
    requires ChildrenAgree(t)
    requires Walk(t, root, order, visited, stack + [x]) && x !in visited
    ensures Walk(t, root, order + [x], visited + {x}, stack + Reversed(t[x].children))
  {
    var stack' := stack + Reversed(t[x].children);
    assert forall z :: z in stack + [x] ==> z == x || z in stack;
    assert forall z :: z in stack' <==> z in stack || z in t[x].children;
    assert order != [] ==> x != root;
    ListParentFirst(t, root, order, x);
    PushChildren(t, visited, stack, x);
  }

  /** The loop behind `Space.Traverse`: an explicit stack, children pushed last-first. */
  method TraverseLinks(t: Tree, root: NodeId) returns (order: seq<NodeId>)
    requires ChildrenAgree(t) && root in t
    ensures IsTraversal(t, root, order)
  {
    order := [];
    var visited: set<NodeId> := {};
    var stack := [root];
    while stack != []
      invariant Walk(t, root, order, visited, stack)
      decreases t.Keys - visited, |stack|
    {
      var x := stack[|stack| - 1];
      var rest := stack[..|stack| - 1];
      assert stack == rest + [x];
      if x in visited {
        PopVisited(t, root, order, visited, rest, x);
        stack := rest;
      } else {
        PopFresh(t, root, order, visited, rest, x);
        var children := t[x].children;
        visited := visited + {x};
        order := order + [x];
        stack := rest + Reversed(children);
      }
    }
  }

  /** The scene: node links and contents, and the registry of per-frame animation actions. */
  class Space {
    var tree: Tree
    var content: Content<Controller>
    var nextId: NodeId
    var animateActions: seq<string>
    /** The controllers attached to nodes of this scene. */
    ghost var controllers: set<Controller>

    ghost function State(): SceneState
      reads this
    {
      SceneState(tree, content, nextId)
    }

    ghost predicate Valid()
      reads this
    {
      Coherent(State())
    }

    /** The scene is valid, and so is every controller in it. */
    ghost predicate Healthy()
      reads this, controllers`showingObject3d, controllers`lineObject3d, controllers`pipeObject3d, controllers`pointsObject3d
    {
      && Valid()
      && (forall c :: c in controllers ==> c.space == this && c.Within(nextId))
      && Registered(content, controllers)
    }

    constructor ()
      ensures Healthy() && tree == map[] && content == map[] && nextId == 0
      ensures animateActions == [] && controllers == {}
    {
      tree, content, nextId, animateActions := map[], map[], 0, [];
      controllers := {};
      new;
      assert Coherent(State());
    }

    /** Creates a detached node. */
    method NewNode(n: Node<Controller>) returns (id: NodeId)
      requires Valid()
      modifies this`tree, this`content, this`nextId
      ensures Valid() && id == old(nextId) && id !in old(tree) && nextId == id + 1
      ensures tree == old(tree)[id := Detached] && content == old(content)[id := n]
    {
      id := nextId;
      tree := tree[id := Detached];
      content := content[id := n];
      nextId := nextId + 1;
    }

    /** `p.add(c)`. */
    method Add(p: NodeId, c: NodeId)
      requires Valid() && p in tree && c in tree
      modifies this`tree
      ensures Valid() && tree == Attach(old(tree), p, c)
    {
      AttachWf(tree, p, c);
      tree := Attach(tree, p, c);
    }

    /** `p.remove(c)`. */
    method Remove(p: NodeId, c: NodeId)
      requires Valid() && p in tree && c in tree
      modifies this`tree
      ensures Valid() && tree == Detach(old(tree), p, c)
    {
      DetachWf(tree, p, c);
      tree := Detach(tree, p, c);
    }

    /** Creates a leaf for `d` and adds it as the last child of `g`. */
    method AddLeaf(g: NodeId, d: Drawable) returns (id: NodeId)
      requires Valid() && g in tree
      modifies this`tree, this`content, this`nextId
      ensures Valid() && id == old(nextId) && nextId == id + 1
      ensures tree == old(tree)[id := Links(Some(g), [])][g := old(tree)[g].(children := old(tree)[g].children + [id])]
      ensures content == old(content)[id := Leaf(d)]
    {
      id := NewNode(Leaf(d));
      AttachEffect(tree, g, id);
      Add(g, id);
    }

    /** `copyCoordinate` onto `n`: its position, rotation and scale become `tr`. */
    method SetTransform(n: NodeId, tr: Transform)
      requires Valid() && n in tree
      modifies this`content
      ensures Valid() && content == old(content)[n := old(content)[n].(transform := tr)]
    {
      content := content[n := content[n].(transform := tr)];
    }

    method SetRenderOrder(n: NodeId, r: int)
      requires Valid() && n in tree
      modifies this`content
      ensures Valid() && content == old(content)[n := old(content)[n].(renderOrder := r)]
    {
      content := content[n := content[n].(renderOrder := r)];
    }

    /** `layers.enable(layer)` when `on`, `layers.disable(layer)` otherwise. */
    method SetLayer(n: NodeId, layer: nat, on: bool)
      requires Valid() && n in tree
      modifies this`content
      ensures Valid()
      ensures content == old(content)[n := old(content)[n].(layers := if on then old(content)[n].layers + {layer} else old(content)[n].layers - {layer})]
    {
      var ls := content[n].layers;
      content := content[n := content[n].(layers := if on then ls + {layer} else ls - {layer})];
    }

    method SetController(n: NodeId, c: Controller)
      requires Valid() && n in tree
      modifies this`content
      ensures Valid() && content == old(content)[n := old(content)[n].(controller := Some(c))]
    {
      content := content[n := content[n].(controller := Some(c))];
    }

    /** Registers a per-frame action; nothing is ever unregistered. */
    method AddAnimateAction(key: string)
      modifies this`animateActions
      ensures animateActions == old(animateActions) + [key]
    {
      animateActions := animateActions + [key];
    }

    /**
     * The scene surgery of the controller's swap from `current` to `target`:
     * the children of `current` without geometry, over a snapshot, are added to
     * `target`; when `current` has a parent, `parent.add(target).remove(current)`;
     * finally `target` gets `current`'s transform.
     */
    method Swap(current: NodeId, target: NodeId)
      requires Valid() && current in tree && target in tree
      modifies this`tree, this`content
      ensures Valid() && State() == Swapped(old(State()), current, target)
    {
      ghost var t0 := tree;
      var children := tree[current].children;
      ghost var geo := Geometric(content);
      WfClosed(tree);
      assert forall x :: x in children ==> x in t0;
      for i := 0 to |children|
        invariant Valid() && content == old(content) && tree.Keys == t0.Keys
        invariant tree == MoveChildren(t0, geo, children[..i], target)
      {
        var x := children[i];
        assert children[..i + 1][..i] == children[..i];
        if content[x].geometry.None? {
          Add(target, x);
        }
      }
      assert children[..|children|] == children;
      var parent := tree[current].parent;
      if parent.Some? {
        Add(parent.value, target);
        Remove(parent.value, current);
      }
      SetTransform(target, content[current].transform);
    }

    /**
     * `root.traverse(callback)`: the nodes of the subtree under `root`, each
     * once, the root first and every other node after its parent.
     */
    method Traverse(root: NodeId) returns (order: seq<NodeId>)
      requires Valid() && root in tree
      ensures IsTraversal(tree, root, order)
    {
      order := TraverseLinks(tree, root);
    }
  }

  /** The scene after `n.renderOrder = r`: that one property of that one node changes. */
  ghost function Reordered(s: SceneState, n: NodeId, r: int): (t: SceneState)
    requires n in s.content
    ensures t.tree == s.tree && t.nextId == s.nextId && t.content.Keys == s.content.Keys
    ensures t.content[n] == s.content[n].(renderOrder := r)
    ensures forall m :: m in s.content && m != n ==> t.content[m] == s.content[m]
  {
    s.(content := s.content[n := s.content[n].(renderOrder := r)])
  }

  /**
   * The scene after `n.layers.enable(1)` (when `on`) or `disable(1)`: layer 1
   * of `n`, and nothing else, changes.
   */
  ghost function Bloomed(s: SceneState, n: NodeId, on: bool): (t: SceneState)
    requires n in s.content
    ensures t.tree == s.tree && t.nextId == s.nextId && t.content.Keys == s.content.Keys
    ensures (1 in t.content[n].layers) == on && t.content[n].layers - {1} == s.content[n].layers - {1}
    ensures t.content[n] == s.content[n].(layers := t.content[n].layers)
    ensures forall m :: m in s.content && m != n ==> t.content[m] == s.content[m]
  {
    var ls := s.content[n].layers;
    s.(content := s.content[n := s.content[n].(layers := if on then ls + {1} else ls - {1})])
  }

  /** The representations a controller can show. */
  datatype Model = Normal | Line | Pipe | Points

  function ModelName(m: Model): string {
    match m
    case Normal => "normal"
    case Line => "line"
    case Pipe => "pipe"
    case Points => "points"
  }

  /** The `switch` of `changeShowingModel`: the four names and nothing else. */
  function ParseModel(s: string): (r: Option<Model>)
    ensures r.Some? <==> s == "normal" || s == "line" || s == "pipe" || s == "points"
    ensures r.Some? ==> ModelName(r.value) == s
  {
    if s == "line" then Some(Line)
    else if s == "normal" then Some(Normal)
    else if s == "pipe" then Some(Pipe)
    else if s == "points" then Some(Points)
    else None
  }

  /** Every model is selected by its own name. */
  lemma ParseModelName(m: Model)
    ensures ParseModel(ModelName(m)) == Some(m)
  {
  }

  /**
   * How a call ended: `UnknownModel` is the logged error for an unknown name
   * (nothing changes); `MissingUserData` is the TypeError a builder raises
   * when it has no options and the controller's `userData` is missing, before
   * it changes anything.
   */
  datatype Status = Done | UnknownModel | MissingUserData

  /** The part of a controller and its scene that a model switch may change. */
  datatype ControllerView = ControllerView(
    scene: SceneState, animations: seq<string>, node: NodeId, model: Model, showing: NodeId,
    line: Option<NodeId>, pipe: Option<NodeId>, points: Option<NodeId>)
  {
    /** The object showing model `m`: the node itself, or the container once built. */
    function Container(m: Model): Option<NodeId> {
      match m
      case Normal => Some(node)
      case Line => line
      case Pipe => pipe
      case Points => points
    }
  }

  /**
   * `v1` follows `v0` after `changeTo…Model` for the model `m` ended with
   * `status`; `mid` is the scene just before the swap, and `key` the name of
   * the pipe animation. The call fails only when a container must be built
   * without options or user data, and then changes nothing; it changes nothing
   * either when `m` is already named as showing; otherwise it swaps in the
   * container of `m`, built fresh when there was none (the pipe registering its
   * animation then), and leaves the other containers and the model name alone.
   */
  ghost predicate Changed(v0: ControllerView, v1: ControllerView, m: Model, status: Status, mid: SceneState, key: string, hasOptions: bool) {
    var building := v0.model != m && v0.Container(m).None?;
    && (status == Done || status == MissingUserData)
    && (status == MissingUserData <==> building && !hasOptions)
    && v1.node == v0.node && v1.model == v0.model
    && (status == MissingUserData || v0.model == m ==> v1 == v0)
    && (status == Done && v0.model != m ==>
          && v1.Container(m) == Some(v1.showing)
          && Switched(mid, v0.showing, v1.showing, v1.scene)
          && (if building then Grown(v0.scene, mid, v1.showing) else mid == v0.scene))
    && (forall m' :: m' != m ==> v1.Container(m') == v0.Container(m'))
    && (v0.Container(m).Some? ==> v1.Container(m) == v0.Container(m))
    && v1.animations == if m == Pipe && building && status == Done then v0.animations + [key] else v0.animations
  }

  /** `changeShowingModel` for the known model `m`: `changeTo…Model()`, then, unless it failed, the name. */
  ghost predicate Selected(v0: ControllerView, v1: ControllerView, m: Model, status: Status, mid: SceneState, key: string, hasUserData: bool) {
    && v1.model == (if status == Done then m else v0.model)
    && Changed(v0, v1.(model := v0.model), m, status, mid, key, hasUserData)
  }

  /**
   * The controller's own part of `applyUserData`, from `v0` to `v3` through
   * `v1` and `v2`: the node's `renderOrder` when the user data gives a truthy
   * one, then `changeShowingModel` when it names a model, then layer 1 of the
   * object showing by then when `bloom` is true. A setting that is absent or
   * falsy changes nothing; an unknown model name only yields `UnknownModel`.
   */
  ghost predicate SettingsApplied(v0: ControllerView, v3: ControllerView, ud: UserData, status: Status,
                                  v1: ControllerView, v2: ControllerView, mid: SceneState, key: string) {
    && v0.node in v0.scene.content
    && v1 == (if TruthyInt(ud.renderOrder) then v0.(scene := Reordered(v0.scene, v0.node, ud.renderOrder.value)) else v0)
    && (if TruthyString(ud.showingModel) && ParseModel(ud.showingModel.value).Some?
        then Selected(v1, v2, ParseModel(ud.showingModel.value).value, status, mid, key, true)
        else v2 == v1 && status == (if TruthyString(ud.showingModel) then UnknownModel else Done))
    && v2.showing in v2.scene.content
    && v3 == (if TruthyBool(ud.bloom) then v2.(scene := Bloomed(v2.scene, v2.showing, true)) else v2)
  }

  /** Applying the settings never removes a node: the next free id only grows. */
  lemma SettingsGrow(v0: ControllerView, v3: ControllerView, ud: UserData, status: Status,
                     v1: ControllerView, v2: ControllerView, mid: SceneState, key: string)
    requires SettingsApplied(v0, v3, ud, status, v1, v2, mid, key)
    ensures v0.scene.nextId <= v3.scene.nextId
  {
  }

  /** A call that returns before touching anything satisfies `Changed`. */
  lemma ChangedNothing(v: ControllerView, m: Model, status: Status, mid: SceneState, key: string, hasOptions: bool)
    requires (status == Done && v.model == m) || (status == MissingUserData && v.model != m && v.Container(m).None? && !hasOptions)
    ensures Changed(v, v, m, status, mid, key, hasOptions)
  {
  }

  /** Swapping in the container that already exists for `m`. */
  lemma ChangedBySwap(v0: ControllerView, v1: ControllerView, m: Model, mid: SceneState, key: string, hasOptions: bool)
    requires v0.model != m && v0.Container(m) == Some(v1.showing)
    requires v1 == v0.(scene := v1.scene, showing := v1.showing)
    requires mid == v0.scene && Switched(mid, v0.showing, v1.showing, v1.scene)
    ensures Changed(v0, v1, m, Done, mid, key, hasOptions)
  {
  }

  /** Building, caching and swapping in the first container for `m`. */
  lemma ChangedByBuild(v0: ControllerView, v1: ControllerView, m: Model, mid: SceneState, key: string)
    requires v0.model != m && v0.Container(m).None?
    requires v1.node == v0.node && v1.model == v0.model
    requires v1.line == (if m == Line then Some(v1.showing) else v0.line)
    requires v1.pipe == (if m == Pipe then Some(v1.showing) else v0.pipe)
    requires v1.points == (if m == Points then Some(v1.showing) else v0.points)
    requires v1.animations == if m == Pipe then v0.animations + [key] else v0.animations
    requires Grown(v0.scene, mid, v1.showing) && Switched(mid, v0.showing, v1.showing, v1.scene)
    ensures Changed(v0, v1, m, Done, mid, key, true)
  {
  }

  /**
   * What the swap does to a coherent scene: the links become `SwapLinks` of
   * them (whose effect `SwapEffect` states); the new object takes the old one's
   * transform and no other content changes, so the nodes with geometry are the
   * same; the scene stays coherent and no node is created.
   */
  lemma SwitchEffect(s: SceneState, oldObj: NodeId, newObj: NodeId)
    requires Coherent(s) && oldObj in s.tree && newObj in s.tree
    ensures var r := Swapped(s, oldObj, newObj);
      && Coherent(r) && r.nextId == s.nextId
      && r.tree == SwapLinks(s.tree, Geometric(s.content), oldObj, newObj)
      && Geometric(r.content) == Geometric(s.content)
      && r.content.Keys == s.content.Keys
      && r.content[newObj].transform == s.content[oldObj].transform
      && r.content[newObj] == s.content[newObj].(transform := r.content[newObj].transform)
      && (forall n :: n in s.content && n != newObj ==> r.content[n] == s.content[n])
  {
    var geo := Geometric(s.content);
    var r := Swapped(s, oldObj, newObj);
    SwapLinksWf(s.tree, geo, oldObj, newObj);
    assert Geometric(r.content) == geo;
  }

  /**
   * Swapping a node out for a container at rest and back again restores the
   * node's parent, its children (as a multiset: `add` appends, so the order may
   * change) and its contents, leaves the container's links as they were, and
   * leaves the two ready for the next round.
   */
  lemma {:induction false} SwitchAndBack(s: SceneState, node: NodeId, g: NodeId)
    requires Coherent(s) && SwapReady(s.tree, node, g) && Clean(s.tree, Geometric(s.content), g, node)
    ensures var s2 := Swapped(Swapped(s, node, g), g, node);
      && Coherent(s2) && s2.nextId == s.nextId
      && s2.tree[node].parent == s.tree[node].parent
      && multiset(s2.tree[node].children) == multiset(s.tree[node].children)
      && s2.content[node] == s.content[node]
      && s2.tree[g] == s.tree[g]
      && SwapReady(s2.tree, node, g) && Clean(s2.tree, Geometric(s2.content), g, node)
  {
    var geo := Geometric(s.content);
    SwitchEffect(s, node, g);
    RoundTrip(s.tree, geo, node, g);
    var s1 := Swapped(s, node, g);
    SwitchEffect(s1, g, node);
    var s2 := Swapped(s1, g, node);
    assert s2.tree == SwapLinks(SwapLinks(s.tree, geo, node, g), geo, g, node);
    assert forall x :: x in s2.tree[node].children <==> x in s.tree[node].children by {
      forall x ensures x in s2.tree[node].children <==> x in s.tree[node].children {
        assert x in s2.tree[node].children <==> x in multiset(s2.tree[node].children);
        assert x in s.tree[node].children <==> x in multiset(s.tree[node].children);
      }
    }
  }

  /**
   * A freshly built container is at rest: the node it will replace (any node
   * that existed before, whose parent is not among its own children) is ready
   * to be swapped for it, and the build did not touch that node.
   */
  lemma GrownReady(s0: SceneState, mid: SceneState, g: NodeId, node: NodeId)
    requires Coherent(s0) && Coherent(mid) && Grown(s0, mid, g) && node in s0.tree
    requires s0.tree[node].parent.Some? ==> s0.tree[node].parent.value !in s0.tree[node].children
    ensures SwapReady(mid.tree, node, g) && Clean(mid.tree, Geometric(mid.content), g, node)
    ensures mid.tree[node] == s0.tree[node] && mid.content[node] == s0.content[node]
  {
    forall x | x in mid.tree[g].children
      ensures x in mid.tree && x in Geometric(mid.content) && x != node && mid.tree[x].children == []
    {
      var i :| 0 <= i < |mid.tree[g].children| && mid.tree[g].children[i] == x;
      assert g < x < mid.nextId;
    }
  }

  /** Selecting the model that is already selected again changes nothing. */
  lemma SelectTwice(v0: ControllerView, v1: ControllerView, v2: ControllerView, m: Model, status: Status,
                    mid1: SceneState, mid2: SceneState, key: string, hasUserData: bool)
    requires Selected(v0, v1, m, Done, mid1, key, hasUserData)
    requires Selected(v1, v2, m, status, mid2, key, hasUserData)
    ensures status == Done && v2 == v1
  {
  }

  /**
   * Selecting a model whose container is already built builds nothing: it
   * succeeds, creates no node, registers no animation (so the pipe's key is
   * registered only on the first switch to the pipe), shows that same
   * container, and keeps every container.
   */
  lemma SelectCached(v0: ControllerView, v1: ControllerView, m: Model, status: Status, mid: SceneState, key: string, hasUserData: bool)
    requires Selected(v0, v1, m, status, mid, key, hasUserData) && v0.Container(m).Some?
    ensures status == Done && v1.model == m
    ensures v1.scene.nextId == v0.scene.nextId && v1.animations == v0.animations
    ensures forall m' :: v1.Container(m') == v0.Container(m')
    ensures v0.model != m ==> v1.showing == v0.Container(m).value
  {
  }

  /**
   * The round trip `normal` → `m` → `normal` from a controller showing its
   * node: the node is showing again, under the parent it had, with the same
   * children (possibly reordered) and the same contents; the container of `m`
   * stays cached, detached and ready for the next round. The container is
   * either built on the way or at rest already.
   */
  lemma SelectAndBack(v0: ControllerView, v1: ControllerView, v2: ControllerView, m: Model, status: Status,
                      mid1: SceneState, mid2: SceneState, key: string, hasUserData: bool)
    requires m != Normal && v0.model == Normal && v0.showing == v0.node
    requires Coherent(v0.scene) && Coherent(v1.scene) && v0.node in v0.scene.tree
    requires var t := v0.scene.tree; t[v0.node].parent.Some? ==> t[v0.node].parent.value !in t[v0.node].children
    requires v0.Container(m).Some? ==>
      SwapReady(v0.scene.tree, v0.node, v0.Container(m).value) && Clean(v0.scene.tree, Geometric(v0.scene.content), v0.Container(m).value, v0.node)
    requires Selected(v0, v1, m, Done, mid1, key, hasUserData)
    requires Selected(v1, v2, Normal, status, mid2, key, hasUserData)
    ensures status == Done && v2.model == Normal && v2.showing == v2.node == v0.node
    ensures v0.node in v2.scene.tree && v0.node in v2.scene.content
    ensures v2.scene.tree[v0.node].parent == v0.scene.tree[v0.node].parent
    ensures multiset(v2.scene.tree[v0.node].children) == multiset(v0.scene.tree[v0.node].children)
    ensures v2.scene.content[v0.node] == v0.scene.content[v0.node]
    ensures v2.Container(m) == v1.Container(m) && v2.Container(m).Some?
    ensures SwapReady(v2.scene.tree, v2.node, v2.Container(m).value)
    ensures Clean(v2.scene.tree, Geometric(v2.scene.content), v2.Container(m).value, v2.node)
  {
    var node, g := v0.node, v1.showing;
    assert v1.Container(m) == Some(g) && v1.scene == Swapped(mid1, node, g);
    assert status == Done && v2.showing == node && v2.scene == Swapped(v1.scene, g, node);
    assert v2.Container(m) == v1.Container(m);
    assert Coherent(mid1);
    if v0.Container(m).None? {
      GrownReady(v0.scene, mid1, g, node);
    }
    SwitchAndBack(mid1, node, g);
  }

  /**
   * `changeShowingModel(m)` after a direct `changeTo…Model()` for the same
   * `m`, which swapped the container in without recording the name: the
   * container is showing already, so the swap replaces it by itself, and that
   * takes it out of its parent and leaves it without one.
   */
  lemma SelectAfterDirectChange(v0: ControllerView, v1: ControllerView, v2: ControllerView, m: Model, status: Status,
                                mid1: SceneState, mid2: SceneState, key: string, hasOptions: bool, hasUserData: bool)
    requires Coherent(v1.scene) && v0.model != m
    requires Changed(v0, v1, m, Done, mid1, key, hasOptions)
    requires Selected(v1, v2, m, status, mid2, key, hasUserData)
    requires var t := v1.scene.tree;
      v1.showing in t && t[v1.showing].parent.Some? && t[v1.showing].parent.value !in t[v1.showing].children
    ensures status == Done && v2.model == m && v2.showing == v1.showing
    ensures v2.showing in v2.scene.tree && v1.scene.tree[v1.showing].parent.value in v2.scene.tree
    ensures v2.scene.tree[v2.showing].parent.None?
    ensures v2.showing !in v2.scene.tree[v1.scene.tree[v1.showing].parent.value].children
  {
    var x := v1.showing;
    assert v2.showing == x && v2.scene == Swapped(v1.scene, x, x);
    SelfSwapDetaches(v1.scene.tree, Geometric(v1.scene.content), x);
  }

  /** A scene node's controller: which representation is showing, and the cached containers. */
  class Controller {
    const space: Space
    const object3d: NodeId
    var name: string
    var userData: Option<UserData>
    var originalPosition: Vec3
    var originalRotation: Vec3
    var originalScale: Vec3
    var position: Vec3
    var rotation: Vec3
    var scale: Vec3
    var showingModel: Model
    var showingObject3d: NodeId
    var lineObject3d: Option<NodeId>
    var pipeObject3d: Option<NodeId>
    var pointsObject3d: Option<NodeId>

    /** Every node this controller refers to is below `n`. */
    ghost predicate Within(n: nat)
      reads this`showingObject3d, this`lineObject3d, this`pipeObject3d, this`pointsObject3d
    {
      object3d < n && showingObject3d < n && Below(lineObject3d, n) && Below(pipeObject3d, n) && Below(pointsObject3d, n)
    }

    /** The object showing model `m`: the node itself, or the container once built. */
    function Container(m: Model): Option<NodeId>
      reads this
    {
      match m
      case Normal => Some(object3d)
      case Line => lineObject3d
      case Pipe => pipeObject3d
      case Points => pointsObject3d
    }

    /** Everything a model switch can touch: the scene, the animations, and the controller's own choice. */
    ghost function View(): ControllerView
      reads this, space
    {
      ControllerView(space.State(), space.animateActions, object3d, showingModel, showingObject3d, lineObject3d, pipeObject3d, pointsObject3d)
    }

    /** `init` of the node `n` as it was: its name, user data and transform, showing itself. */
    ghost predicate InitialisedFrom(n: Node<Controller>)
      reads this
    {
      && name == n.name && userData == n.userData
      && originalPosition == position == n.transform.position
      && originalRotation == rotation == n.transform.rotation
      && originalScale == scale == n.transform.scale
      && showingModel == Normal && showingObject3d == object3d
    }

    /** `new Controller(space, object3d)`: registers as the node's `$controller`, then `init`. */
    constructor (space: Space, object3d: NodeId)
      requires space.Healthy() && object3d in space.tree
      modifies space`content, space`controllers
      ensures this.space == space && this.object3d == object3d
      ensures space.Healthy() && space.controllers == old(space.controllers) + {this}
      ensures space.content == old(space.content)[object3d := old(space.content)[object3d].(controller := Some(this))]
      ensures InitialisedFrom(old(space.content)[object3d])
      ensures lineObject3d.None? && pipeObject3d.None? && pointsObject3d.None?
    {
      this.space := space;
      this.object3d := object3d;
      var zero := Vec3(0.0, 0.0, 0.0);
      name, userData := "", None;
      originalPosition, originalRotation, originalScale := zero, zero, zero;
      position, rotation, scale := zero, zero, zero;
      showingModel, showingObject3d := Normal, object3d;
      lineObject3d, pipeObject3d, pointsObject3d := None, None, None;
      new;
      space.controllers := space.controllers + {this};
      space.SetController(object3d, this);
      forall c | c in space.controllers ensures c.space == space && c.Within(space.nextId) {
        if c != this {
          assert c.Within(old(space.nextId));
        }
      }
      Init();
    }

    /** `init`: reads the node's name, user data and transform, and shows the node itself. */
    method Init()
      requires space.Healthy() && this in space.controllers
      modifies this`name, this`userData, this`originalPosition, this`originalRotation, this`originalScale
      modifies this`position, this`rotation, this`scale, this`showingModel, this`showingObject3d
      ensures space.Healthy() && InitialisedFrom(space.content[object3d])
    {
      CopyFromNode(space.content[object3d]);
      showingObject3d := object3d;
      forall c | c in space.controllers ensures c.space == space && c.Within(space.nextId) {
        if c != this {
          assert c.Within(old(space.nextId));
        }
      }
    }

    /** The part of `init` that reads the node: name, user data, transform, and the model name. */
    method CopyFromNode(n: Node<Controller>)
      modifies this`name, this`userData, this`originalPosition, this`originalRotation, this`originalScale
      modifies this`position, this`rotation, this`scale, this`showingModel
      ensures name == n.name && userData == n.userData
      ensures originalPosition == position == n.transform.position
      ensures originalRotation == rotation == n.transform.rotation
      ensures originalScale == scale == n.transform.scale
      ensures showingModel == Normal
    {
      name := n.name;
      userData := n.userData;
      position := n.transform.position;
      rotation := n.transform.rotation;
      scale := n.transform.scale;
      originalPosition := position;
      originalRotation := rotation;
      originalScale := scale;
      showingModel := Normal;
    }

    /**
     * `updateShowingObject3d(target)`: over a snapshot of the active object's
     * children, each one without geometry is added to `target`; then, when the
     * active object has a parent, `parent.add(target).remove(active)`; then
     * `target` gets the active object's transform and becomes active.
     */
    method UpdateShowingObject3d(target: NodeId)
      requires space.Healthy() && this in space.controllers && target in space.tree
      modifies this`showingObject3d, space`tree, space`content
      ensures space.Healthy() && showingObject3d == target
      ensures space.State() == Swapped(old(space.State()), old(showingObject3d), target)
    {
      space.Swap(showingObject3d, target);
      showingObject3d := target;
      forall c | c in space.controllers ensures c.space == space && c.Within(space.nextId) {
        if c != this {
          assert c.Within(old(space.nextId));
        }
      }
    }

    /** `bloom(on)`: layer 1 of the active object is enabled or disabled; nothing else changes. */
    method Bloom(on: bool)
      requires space.Healthy() && this in space.controllers
      modifies space`content
      ensures space.Healthy() && showingObject3d in old(space.content)
      ensures space.State() == Bloomed(old(space.State()), showingObject3d, on)
    {
      space.SetLayer(showingObject3d, 1, on);
      forall c | c in space.controllers ensures c.space == space && c.Within(space.nextId) {
        if c != this {
          assert c.Within(old(space.nextId));
        }
      }
    }

    /**
     * The part the three builders share: a new group named `groupName` with
     * this controller as `$controller`, and for each source with geometry, in
     * order, one new child per drawable of `kind`.
     */
    method BuildContainer(groupName: string, sources: seq<NodeId>, kind: Kind) returns (g: NodeId)
      requires space.Valid() && forall x :: x in sources ==> x in space.tree
      modifies space`tree, space`content, space`nextId
      ensures space.Valid()
      ensures Built(old(space.State()), space.State(), g, Group(groupName, this), Expand(old(space.content), sources, kind))
    {
      ghost var s0 := space.State();
      var group := Group(groupName, this);
      g := space.NewNode(group);
      BuiltStart(s0, space.State(), group);
      for i := 0 to |sources|
        invariant space.Valid()
        invariant Built(s0, space.State(), g, group, Expand(s0.content, sources[..i], kind))
      {
        var v := sources[i];
        ExpandStep(s0.content, sources, i, kind);
        var node := space.content[v];
        if node.geometry.Some? {
          ghost var ds := Expand(s0.content, sources[..i], kind);
          var ps := Parts(kind, node.geometry.value, node.transform);
          ghost var s1 := space.State();
          var first := space.AddLeaf(g, ps[0]);
          BuiltStep(s0, s1, space.State(), g, group, ds, ps[0]);
          if |ps| == 2 {
            ghost var s2 := space.State();
            var second := space.AddLeaf(g, ps[1]);
            BuiltStep(s0, s2, space.State(), g, group, ds + [ps[0]], ps[1]);
            AppendTwo(ds, ps);
          } else {
            AppendOne(ds, ps);
          }
        }
      }
      assert sources[..|sources|] == sources;
    }

    /** The drawables `initLineModel` makes from the scene `s` with resolved options `opt`. */
    ghost function LineDrawables(s: SceneState, opt: ModelOptions): seq<Drawable>
      requires Coherent(s) && object3d in s.tree
    {
      WfClosed(s.tree);
      Expand(s.content, ChildrenAndSelf(s.tree, object3d), LineKind(ResolveLine(opt), s.content[object3d].geometry.Some?))
    }

    /** The drawables `initPointsModel` makes from the scene `s` with resolved options `opt`. */
    ghost function PointsDrawables(s: SceneState, opt: ModelOptions): seq<Drawable>
      requires Coherent(s) && object3d in s.tree
    {
      WfClosed(s.tree);
      Expand(s.content, ChildrenAndSelf(s.tree, object3d), PointsKind(ResolvePoints(opt)))
    }

    /** The drawables `initPipeModel` makes from the scene `s`, visiting `order`, with resolved options `opt`. */
    ghost function PipeDrawables(s: SceneState, order: seq<NodeId>, opt: ModelOptions): seq<Drawable>
      requires Coherent(s) && IsTraversal(s.tree, object3d, order)
    {
      Expand(s.content, order, PipeKind(ResolvePipe(opt)))
    }

    /**
     * What the first build of model `m` leaves in `mid`, starting from the
     * scene `s0` with resolved options `opt`: the container `g`, named after
     * this controller and the model, holding the drawables of `m`'s builder
     * (for the pipe, made along the traversal `order`). The node itself is
     * never built, so nothing is for `normal`.
     */
    ghost predicate FirstBuilt(m: Model, s0: SceneState, mid: SceneState, g: NodeId, order: seq<NodeId>, opt: ModelOptions)
      reads this
    {
      match m
      case Normal => false
      case Line =>
        Coherent(s0) && object3d in s0.tree && Built(s0, mid, g, Group(LineName(name), this), LineDrawables(s0, opt))
      case Points =>
        Coherent(s0) && object3d in s0.tree && Built(s0, mid, g, Group(PointsName(name), this), PointsDrawables(s0, opt))
      case Pipe =>
        Coherent(s0) && IsTraversal(s0.tree, object3d, order) && Built(s0, mid, g, Group(PipeName(name), this), PipeDrawables(s0, order, opt))
    }

    /**
     * `initLineModel(options)`: a new group named `name + "_lineObject3d"`, the
     * new `lineObject3d`, holding an edge outline and a picking box for each of
     * the node's children and then the node itself that has geometry.
     */
    method InitLineModel(options: Option<ModelOptions>) returns (status: Status)
      requires space.Healthy() && this in space.controllers
      modifies this`lineObject3d, space`tree, space`content, space`nextId
      ensures space.Healthy()
      ensures SelectOptions(options, userData).None? ==>
        status == MissingUserData && lineObject3d == old(lineObject3d) && space.State() == old(space.State())
      ensures SelectOptions(options, userData).Some? ==>
        && status == Done && lineObject3d.Some?
        && Built(old(space.State()), space.State(), lineObject3d.value, Group(LineName(name), this),
                 LineDrawables(old(space.State()), SelectOptions(options, userData).value))
    {
      var opt := SelectOptions(options, userData);
      if opt.None? {
        return MissingUserData;
      }
      ghost var s0 := space.State();
      WfClosed(space.tree);
      var sources := ChildrenAndSelf(space.tree, object3d);
      var kind := LineKind(ResolveLine(opt.value), space.content[object3d].geometry.Some?);
      var g := BuildContainer(LineName(name), sources, kind);
      BuiltRegistered(s0, space.State(), g, Group(LineName(name), this), Expand(s0.content, sources, kind), space.controllers);
      lineObject3d := Some(g);
      status := Done;
      forall c | c in space.controllers ensures c.space == space && c.Within(space.nextId) {
        if c != this {
          assert c.Within(old(space.nextId));
        }
      }
    }

    /**
     * `initPointsModel(options)`: a new group named `name + "_pointsObject3d"`,
     * the new `pointsObject3d`, holding a point cloud for each of the node's
     * children and then the node itself that has geometry.
     */
    method InitPointsModel(options: Option<ModelOptions>) returns (status: Status)
      requires space.Healthy() && this in space.controllers
      modifies this`pointsObject3d, space`tree, space`content, space`nextId
      ensures space.Healthy()
      ensures SelectOptions(options, userData).None? ==>
        status == MissingUserData && pointsObject3d == old(pointsObject3d) && space.State() == old(space.State())
      ensures SelectOptions(options, userData).Some? ==>
        && status == Done && pointsObject3d.Some?
        && Built(old(space.State()), space.State(), pointsObject3d.value, Group(PointsName(name), this),
                 PointsDrawables(old(space.State()), SelectOptions(options, userData).value))
    {
      var opt := SelectOptions(options, userData);
      if opt.None? {
        return MissingUserData;
      }
      ghost var s0 := space.State();
      WfClosed(space.tree);
      var sources := ChildrenAndSelf(space.tree, object3d);
      var kind := PointsKind(ResolvePoints(opt.value));
      var g := BuildContainer(PointsName(name), sources, kind);
      BuiltRegistered(s0, space.State(), g, Group(PointsName(name), this), Expand(s0.content, sources, kind), space.controllers);
      pointsObject3d := Some(g);
      status := Done;
      forall c | c in space.controllers ensures c.space == space && c.Within(space.nextId) {
        if c != this {
          assert c.Within(old(space.nextId));
        }
      }
    }

    /**
     * The scene work of `initPipeModel`: a container built over the subtree in
     * `traverse` order, then the animation registered under `name + "-pipe"`.
     */
    method BuildPipe(opt: ModelOptions) returns (g: NodeId, ghost order: seq<NodeId>)
      requires space.Valid() && object3d in space.tree
      requires this in space.controllers && Registered(space.content, space.controllers)
      modifies space`tree, space`content, space`nextId, space`animateActions
      ensures space.Valid() && Registered(space.content, space.controllers) && old(space.nextId) <= g < space.nextId
      ensures space.animateActions == old(space.animateActions) + [PipeAnimationKey(name)]
      ensures IsTraversal(old(space.tree), object3d, order)
      ensures Built(old(space.State()), space.State(), g, Group(PipeName(name), this), PipeDrawables(old(space.State()), order, opt))
    {
      ghost var s0 := space.State();
      var nodes := space.Traverse(object3d);
      order := nodes;
      g := BuildContainer(PipeName(name), nodes, PipeKind(ResolvePipe(opt)));
      BuiltRegistered(s0, space.State(), g, Group(PipeName(name), this), PipeDrawables(s0, order, opt), space.controllers);
      space.AddAnimateAction(PipeAnimationKey(name));
    }

    /**
     * `initPipeModel(options)`: a new group named `name + "_pipeObject3d"`, the
     * new `pipeObject3d`, holding a recoloured copy of the mesh and a copy
     * carrying the arrow texture for each node with geometry in the subtree
     * under the node, in `traverse` order; then the
     * texture animation is registered under `name + "-pipe"`.
     */
    method InitPipeModel(options: Option<ModelOptions>) returns (status: Status, ghost order: seq<NodeId>)
      requires space.Healthy() && this in space.controllers
      modifies this`pipeObject3d, space`tree, space`content, space`nextId, space`animateActions
      ensures space.Healthy()
      ensures SelectOptions(options, userData).None? ==>
        status == MissingUserData && pipeObject3d == old(pipeObject3d) && space.State() == old(space.State())
      ensures SelectOptions(options, userData).Some? ==>
        && status == Done && pipeObject3d.Some?
        && space.animateActions == old(space.animateActions) + [PipeAnimationKey(name)]
        && IsTraversal(old(space.tree), object3d, order)
        && Built(old(space.State()), space.State(), pipeObject3d.value, Group(PipeName(name), this),
                 PipeDrawables(old(space.State()), order, SelectOptions(options, userData).value))
    {
      var opt := SelectOptions(options, userData);
      if opt.None? {
        return MissingUserData, [];
      }
      var g;
      g, order := BuildPipe(opt.value);
      pipeObject3d := Some(g);
      status := Done;
      forall c | c in space.controllers ensures c.space == space && c.Within(space.nextId) {
        if c != this {
          assert c.Within(old(space.nextId));
        }
      }
    }
  
    /** The first switch to the line model: `initLineModel`, then the swap. */
    method ShowNewLine(options: Option<ModelOptions>) returns (ghost mid: SceneState)
      requires space.Healthy() && this in space.controllers && showingModel != Line && lineObject3d.None? && SelectOptions(options, userData).Some?
      modifies this`lineObject3d, this`showingObject3d, space`tree, space`content, space`nextId
      ensures space.Healthy() && lineObject3d.Some? && showingObject3d == lineObject3d.value
      ensures Built(old(space.State()), mid, showingObject3d, Group(LineName(name), this),
                    LineDrawables(old(space.State()), SelectOptions(options, userData).value))
      ensures Switched(mid, old(showingObject3d), showingObject3d, space.State())
    {
      var status := InitLineModel(options);
      mid := space.State();
      UpdateShowingObject3d(lineObject3d.value);
    }

    /**
     * `changeToLineModel(options)`: nothing when the line model is the one
     * named as showing; otherwise the line container is built on first use
     * (a failed build leaves everything as it was) and swapped in.
     */
    method ChangeToLineModel(options: Option<ModelOptions>) returns (status: Status, ghost mid: SceneState)
      requires space.Healthy() && this in space.controllers
      modifies this`lineObject3d, this`showingObject3d, space`tree, space`content, space`nextId
      ensures space.Healthy()
      ensures Changed(old(View()), View(), Line, status, mid, PipeAnimationKey(name), SelectOptions(options, userData).Some?)
      ensures status == Done && showingModel != Line && old(lineObject3d).None? ==>
        && Built(old(space.State()), mid, showingObject3d, Group(LineName(name), this),
                 LineDrawables(old(space.State()), SelectOptions(options, userData).value))
    {
      mid := space.State();
      ghost var v0 := View();
      if showingModel == Line {
        status := Done;
        ChangedNothing(v0, Line, Done, mid, PipeAnimationKey(name), SelectOptions(options, userData).Some?);
      } else if lineObject3d.Some? {
        mid := ShowCached(Line, SelectOptions(options, userData).Some?);
        status := Done;
      } else if SelectOptions(options, userData).None? {
        status := MissingUserData;
        ChangedNothing(v0, Line, MissingUserData, mid, PipeAnimationKey(name), false);
      } else {
        mid := ShowNewLine(options);
        ChangedByBuild(v0, View(), Line, mid, PipeAnimationKey(name));
        status := Done;
      }
    }

    /** The first switch to the points model: `initPointsModel`, then the swap. */
    method ShowNewPoints(options: Option<ModelOptions>) returns (ghost mid: SceneState)
      requires space.Healthy() && this in space.controllers && showingModel != Points && pointsObject3d.None? && SelectOptions(options, userData).Some?
      modifies this`pointsObject3d, this`showingObject3d, space`tree, space`content, space`nextId
      ensures space.Healthy() && pointsObject3d.Some? && showingObject3d == pointsObject3d.value
      ensures Built(old(space.State()), mid, showingObject3d, Group(PointsName(name), this),
                    PointsDrawables(old(space.State()), SelectOptions(options, userData).value))
      ensures Switched(mid, old(showingObject3d), showingObject3d, space.State())
    {
      var status := InitPointsModel(options);
      mid := space.State();
      UpdateShowingObject3d(pointsObject3d.value);
    }

    /**
     * `changeToPointsModel(options)`: nothing when the points model is the one
     * named as showing; otherwise the points container is built on first use
     * (a failed build leaves everything as it was) and swapped in.
     */
    method ChangeToPointsModel(options: Option<ModelOptions>) returns (status: Status, ghost mid: SceneState)
      requires space.Healthy() && this in space.controllers
      modifies this`pointsObject3d, this`showingObject3d, space`tree, space`content, space`nextId
      ensures space.Healthy()
      ensures Changed(old(View()), View(), Points, status, mid, PipeAnimationKey(name), SelectOptions(options, userData).Some?)
      ensures status == Done && showingModel != Points && old(pointsObject3d).None? ==>
        && Built(old(space.State()), mid, showingObject3d, Group(PointsName(name), this),
                 PointsDrawables(old(space.State()), SelectOptions(options, userData).value))
    {
      mid := space.State();
      ghost var v0 := View();
      if showingModel == Points {
        status := Done;
        ChangedNothing(v0, Points, Done, mid, PipeAnimationKey(name), SelectOptions(options, userData).Some?);
      } else if pointsObject3d.Some? {
        mid := ShowCached(Points, SelectOptions(options, userData).Some?);
        status := Done;
      } else if SelectOptions(options, userData).None? {
        status := MissingUserData;
        ChangedNothing(v0, Points, MissingUserData, mid, PipeAnimationKey(name), false);
      } else {
        mid := ShowNewPoints(options);
        ChangedByBuild(v0, View(), Points, mid, PipeAnimationKey(name));
        status := Done;
      }
    }

    /** The first switch to the pipe model: `initPipeModel`, then the swap. */
    method ShowNewPipe(options: Option<ModelOptions>) returns (ghost mid: SceneState, ghost order: seq<NodeId>)
      requires space.Healthy() && this in space.controllers && showingModel != Pipe && pipeObject3d.None? && SelectOptions(options, userData).Some?
      modifies this`pipeObject3d, this`showingObject3d, space`tree, space`content, space`nextId, space`animateActions
      ensures space.Healthy() && pipeObject3d.Some? && showingObject3d == pipeObject3d.value
      ensures space.animateActions == old(space.animateActions) + [PipeAnimationKey(name)]
      ensures IsTraversal(old(space.tree), object3d, order)
      ensures Built(old(space.State()), mid, showingObject3d, Group(PipeName(name), this),
                    PipeDrawables(old(space.State()), order, SelectOptions(options, userData).value))
      ensures Switched(mid, old(showingObject3d), showingObject3d, space.State())
    {
      var status;
      status, order := InitPipeModel(options);
      mid := space.State();
      UpdateShowingObject3d(pipeObject3d.value);
    }

    /**
     * `changeToPipeModel(options)`: as `changeToLineModel`, except that the
     * first build also registers the pipe animation.
     */
    method ChangeToPipeModel(options: Option<ModelOptions>) returns (status: Status, ghost mid: SceneState, ghost order: seq<NodeId>)
      requires space.Healthy() && this in space.controllers
      modifies this`pipeObject3d, this`showingObject3d, space`tree, space`content, space`nextId, space`animateActions
      ensures space.Healthy()
      ensures Changed(old(View()), View(), Pipe, status, mid, PipeAnimationKey(name), SelectOptions(options, userData).Some?)
      ensures status == Done && showingModel != Pipe && old(pipeObject3d).None? ==>
        && IsTraversal(old(space.tree), object3d, order)
        && Built(old(space.State()), mid, showingObject3d, Group(PipeName(name), this),
                 PipeDrawables(old(space.State()), order, SelectOptions(options, userData).value))
    {
      mid, order := space.State(), [];
      ghost var v0 := View();
      if showingModel == Pipe {
        status := Done;
        ChangedNothing(v0, Pipe, Done, mid, PipeAnimationKey(name), SelectOptions(options, userData).Some?);
      } else if pipeObject3d.Some? {
        mid := ShowCached(Pipe, SelectOptions(options, userData).Some?);
        status := Done;
      } else if SelectOptions(options, userData).None? {
        status := MissingUserData;
        ChangedNothing(v0, Pipe, MissingUserData, mid, PipeAnimationKey(name), false);
      } else {
        mid, order := ShowNewPipe(options);
        ChangedByBuild(v0, View(), Pipe, mid, PipeAnimationKey(name));
        status := Done;
      }
    }

    /**
     * `changeToNormalModel()`: nothing when the normal model is the one named
     * as showing; otherwise the node itself is swapped back in.
     */
    method ChangeToNormalModel() returns (ghost mid: SceneState)
      requires space.Healthy() && this in space.controllers
      modifies this`showingObject3d, space`tree, space`content
      ensures space.Healthy()
      ensures Changed(old(View()), View(), Normal, Done, mid, PipeAnimationKey(name), true)
    {
      mid := space.State();
      if showingModel == Normal {
        ChangedNothing(View(), Normal, Done, mid, PipeAnimationKey(name), true);
      } else {
        mid := ShowCached(Normal, true);
      }
    }

    /**
     * `changeShowingModel(model)`: an unknown name is logged and changes
     * nothing; otherwise the matching `changeTo…Model()` runs without options
     * and, when it returns normally, `showingModel` becomes the new name.
     */
    method ChangeShowingModel(model: string) returns (status: Status, ghost mid: SceneState, ghost order: seq<NodeId>)
      requires space.Healthy() && this in space.controllers
      modifies this`lineObject3d, this`pipeObject3d, this`pointsObject3d, this`showingObject3d, this`showingModel
      modifies space`tree, space`content, space`nextId, space`animateActions
      ensures space.Healthy() && name == old(name) && userData == old(userData)
      ensures ParseModel(model).None? ==> status == UnknownModel && View() == old(View())
      ensures ParseModel(model).Some? ==>
        Selected(old(View()), View(), ParseModel(model).value, status, mid, PipeAnimationKey(name), userData.Some?)
      ensures (&& ParseModel(model).Some? && status == Done && old(showingModel) != ParseModel(model).value
               && old(Container(ParseModel(model).value)).None?) ==>
        && SelectOptions(None, userData).Some?
        && FirstBuilt(ParseModel(model).value, old(space.State()), mid, showingObject3d, order, SelectOptions(None, userData).value)
    {
      mid, order := space.State(), [];
      var m := ParseModel(model);
      if m.None? {
        return UnknownModel, mid, order;
      }
      match m.value {
        case Normal =>
          mid := SelectNormal();
          status := Done;
        case Line =>
          status, mid := SelectLine();
        case Pipe =>
          status, mid, order := SelectPipe();
        case Points =>
          status, mid := SelectPoints();
      }
    }

    /** `changeShowingModel("normal")`. */
    method SelectNormal() returns (ghost mid: SceneState)
      requires space.Healthy() && this in space.controllers
      modifies this`showingObject3d, this`showingModel, space`tree, space`content
      ensures space.Healthy()
      ensures Selected(old(View()), View(), Normal, Done, mid, PipeAnimationKey(name), userData.Some?)
    {
      mid := ChangeToNormalModel();
      showingModel := Normal;
    }

    /** `changeShowingModel("line")`. */
    method SelectLine() returns (status: Status, ghost mid: SceneState)
      requires space.Healthy() && this in space.controllers
      modifies this`lineObject3d, this`showingObject3d, this`showingModel, space`tree, space`content, space`nextId
      ensures space.Healthy()
      ensures Selected(old(View()), View(), Line, status, mid, PipeAnimationKey(name), userData.Some?)
      ensures status == Done && old(showingModel) != Line && old(lineObject3d).None? ==>
        SelectOptions(None, userData).Some? && FirstBuilt(Line, old(space.State()), mid, showingObject3d, [], SelectOptions(None, userData).value)
    {
      status, mid := ChangeToLineModel(None);
      if status == Done {
        showingModel := Line;
      }
    }

    /** `changeShowingModel("points")`. */
    method SelectPoints() returns (status: Status, ghost mid: SceneState)
      requires space.Healthy() && this in space.controllers
      modifies this`pointsObject3d, this`showingObject3d, this`showingModel, space`tree, space`content, space`nextId
      ensures space.Healthy()
      ensures Selected(old(View()), View(), Points, status, mid, PipeAnimationKey(name), userData.Some?)
      ensures status == Done && old(showingModel) != Points && old(pointsObject3d).None? ==>
        SelectOptions(None, userData).Some? && FirstBuilt(Points, old(space.State()), mid, showingObject3d, [], SelectOptions(None, userData).value)
    {
      status, mid := ChangeToPointsModel(None);
      if status == Done {
        showingModel := Points;
      }
    }

    /** `changeShowingModel("pipe")`. */
    method SelectPipe() returns (status: Status, ghost mid: SceneState, ghost order: seq<NodeId>)
      requires space.Healthy() && this in space.controllers
      modifies this`pipeObject3d, this`showingObject3d, this`showingModel, space`tree, space`content, space`nextId, space`animateActions
      ensures space.Healthy()
      ensures Selected(old(View()), View(), Pipe, status, mid, PipeAnimationKey(name), userData.Some?)
      ensures status == Done && old(showingModel) != Pipe && old(pipeObject3d).None? ==>
        SelectOptions(None, userData).Some? && FirstBuilt(Pipe, old(space.State()), mid, showingObject3d, order, SelectOptions(None, userData).value)
    {
      status, mid, order := ChangeToPipeModel(None);
      if status == Done {
        showingModel := Pipe;
      }
    }

    /** A later switch to model `m`: its container exists and is swapped in. */
    method ShowCached(m: Model, ghost hasOptions: bool) returns (ghost mid: SceneState)
      requires space.Healthy() && this in space.controllers && showingModel != m && Container(m).Some?
      modifies this`showingObject3d, space`tree, space`content
      ensures space.Healthy()
      ensures Changed(old(View()), View(), m, Done, mid, PipeAnimationKey(name), hasOptions)
    {
      ghost var v0 := View();
      mid := space.State();
      UpdateShowingObject3d(Container(m).value);
      ChangedBySwap(v0, View(), m, mid, PipeAnimationKey(name), hasOptions);
    }

    /** The rest of `applyUserData` once the children are done: render order, model, bloom. */
    method ApplyOwnSettings() returns (status: Status, ghost v1: ControllerView, ghost v2: ControllerView, ghost mid: SceneState, ghost order: seq<NodeId>)
      requires space.Healthy() && this in space.controllers && userData.Some?
      modifies this`lineObject3d, this`pipeObject3d, this`pointsObject3d, this`showingObject3d, this`showingModel
      modifies space`tree, space`content, space`nextId, space`animateActions
      ensures space.Healthy()
      ensures SettingsApplied(old(View()), View(), userData.value, status, v1, v2, mid, PipeAnimationKey(name))
      ensures var model := userData.value.showingModel;
        (&& TruthyString(model) && ParseModel(model.value).Some? && status == Done
         && v1.model != ParseModel(model.value).value && v1.Container(ParseModel(model.value).value).None?) ==>
        && SelectOptions(None, userData).Some?
        && FirstBuilt(ParseModel(model.value).value, v1.scene, mid, v2.showing, order, SelectOptions(None, userData).value)
    {
      var ud := userData.value;
      ApplyRenderOrder(ud.renderOrder);
      v1 := View();
      status, mid, order := ApplyShowingModel(ud.showingModel);
      v2 := View();
      ApplyBloom(ud.bloom);
    }

    /** `if (userData.renderOrder) object3d.renderOrder = userData.renderOrder`. */
    method ApplyRenderOrder(r: Option<int>)
      requires space.Healthy() && this in space.controllers
      modifies space`content
      ensures space.Healthy() && object3d in old(space.content)
      ensures View() == if TruthyInt(r) then old(View()).(scene := Reordered(old(space.State()), object3d, r.value)) else old(View())
    {
      if TruthyInt(r) {
        space.SetRenderOrder(object3d, r.value);
        forall c | c in space.controllers ensures c.space == space && c.Within(space.nextId) {
          assert c.Within(old(space.nextId));
        }
      }
    }

    /** `if (userData.showingModel) this.changeShowingModel(userData.showingModel)`. */
    method ApplyShowingModel(model: Option<string>) returns (status: Status, ghost mid: SceneState, ghost order: seq<NodeId>)
      requires space.Healthy() && this in space.controllers && userData.Some?
      modifies this`lineObject3d, this`pipeObject3d, this`pointsObject3d, this`showingObject3d, this`showingModel
      modifies space`tree, space`content, space`nextId, space`animateActions
      ensures space.Healthy() && userData == old(userData)
      ensures if TruthyString(model) && ParseModel(model.value).Some?
        then Selected(old(View()), View(), ParseModel(model.value).value, status, mid, PipeAnimationKey(name), true)
        else View() == old(View()) && status == (if TruthyString(model) then UnknownModel else Done)
      ensures (&& TruthyString(model) && ParseModel(model.value).Some? && status == Done
               && old(showingModel) != ParseModel(model.value).value && old(Container(ParseModel(model.value).value)).None?) ==>
        && SelectOptions(None, userData).Some?
        && FirstBuilt(ParseModel(model.value).value, old(space.State()), mid, showingObject3d, order, SelectOptions(None, userData).value)
    {
      status, mid, order := Done, space.State(), [];
      if TruthyString(model) {
        status, mid, order := ChangeShowingModel(model.value);
      }
    }

    /** `if (userData.bloom) this.bloom(true)`. */
    method ApplyBloom(b: Option<bool>)
      requires space.Healthy() && this in space.controllers
      modifies space`content
      ensures space.Healthy() && showingObject3d in old(space.content)
      ensures View() == if TruthyBool(b) then old(View()).(scene := Bloomed(old(space.State()), showingObject3d, true)) else old(View())
    {
      if TruthyBool(b) {
        Bloom(true);
      }
    }

    /**
     * `applyUserData()`: nothing without user data; otherwise first every
     * child of the node (over a snapshot of its children) that has a
     * controller applies its own user data, then this controller applies
     * render order, model and bloom. The recursion into the children is given
     * `fuel` levels.
     */
    method ApplyUserData(fuel: nat) returns (ghost afterChildren: ControllerView, ghost status: Status,
                                             ghost v1: ControllerView, ghost v2: ControllerView, ghost mid: SceneState,
                                             ghost order: seq<NodeId>)
      requires space.Healthy() && this in space.controllers
      modifies space`tree, space`content, space`nextId, space`animateActions
      modifies space.controllers`lineObject3d, space.controllers`pipeObject3d, space.controllers`pointsObject3d
      modifies space.controllers`showingObject3d, space.controllers`showingModel
      ensures space.Healthy() && old(space.nextId) <= space.nextId
      ensures userData.None? ==> unchanged(space) && unchanged(space.controllers)
      ensures userData.Some? ==> SettingsApplied(afterChildren, View(), userData.value, status, v1, v2, mid, PipeAnimationKey(name))
      ensures userData.Some? ==> var model := userData.value.showingModel;
        (&& TruthyString(model) && ParseModel(model.value).Some? && status == Done
         && v1.model != ParseModel(model.value).value && v1.Container(ParseModel(model.value).value).None?) ==>
        && SelectOptions(None, userData).Some?
        && FirstBuilt(ParseModel(model.value).value, v1.scene, mid, v2.showing, order, SelectOptions(None, userData).value)
      decreases fuel, 1
    {
      afterChildren, status, v1, v2, mid, order := View(), Done, View(), View(), space.State(), [];
      if userData.None? {
        return;
      }
      ApplyChildren(fuel);
      afterChildren := View();
      status, v1, v2, mid, order := ApplyOwnSettings();
      SettingsGrow(afterChildren, View(), userData.value, status, v1, v2, mid, PipeAnimationKey(name));
    }

    /** The children of the node, as they were before any of them ran, apply their user data in order. */
    method ApplyChildren(fuel: nat)
      requires space.Healthy() && this in space.controllers
      modifies space`tree, space`content, space`nextId, space`animateActions
      modifies space.controllers`lineObject3d, space.controllers`pipeObject3d, space.controllers`pointsObject3d
      modifies space.controllers`showingObject3d, space.controllers`showingModel
      ensures space.Healthy() && old(space.nextId) <= space.nextId
      decreases fuel, 0
    {
      var snapshot := space.tree[object3d].children;
      forall k | 0 <= k < |snapshot| ensures snapshot[k] < old(space.nextId) {
        assert snapshot[k] in space.tree[object3d].children;
      }
      for i := 0 to |snapshot|
        invariant space.Healthy() && this in space.controllers && old(space.nextId) <= space.nextId
      {
        var v := snapshot[i];
        assert v in space.tree;
        var c := space.content[v].controller;
        if c.Some? && fuel > 0 {
          ghost var vc, st, w1, w2, m, o := c.value.ApplyUserData(fuel - 1);
        }
      }
    }
  }
}
