/**
 * The part of three.js's scene graph that the controller relies on. A scene is
 * kept as two maps over node identifiers: the tree links (each node's `parent`
 * and ordered `children`) and the node contents (geometry, material, transform,
 * layers, render order, user data and the `$controller` back-reference).
 * `Object3D.add` and `Object3D.remove` are functions on the links, and the
 * controller's swap of one active object for another is their composition.
 *
 * The type parameter `C` is the type of the `$controller` back-reference.
 */
module SceneGraph {
  import opened Wrappers
  import opened Config

  type NodeId = nat

  datatype Vec3 = Vec3(x: real, y: real, z: real)

  /** A node's local position, rotation (Euler angles) and scale. */
  datatype Transform = Transform(position: Vec3, rotation: Vec3, scale: Vec3)

  /** The transform of a freshly created object, and what `resetCoordinate` restores. */
  const Identity := Transform(Vec3(0.0, 0.0, 0.0), Vec3(0.0, 0.0, 0.0), Vec3(1.0, 1.0, 1.0))

  /** An engine geometry: one supplied with the scene, or the edges derived from another. */
  datatype Geometry = Shape(id: nat) | EdgesOf(base: Geometry)

  /** The materials the representation builders create, by their settings. */
  datatype Material =
    | EdgeLine(color: int)
    | PickBox(opacity: real)
    | PipeBase(color: int, opacity: real)
    | PipeFlow(flowColor: string, flowOpacity: real, flowNumber: int, flowRotation: real)
    | PointCloud(size: real, color: int)

  /** Everything about a node except its place in the tree. */
  datatype Node<C> = Node(
    name: string,
    geometry: Option<Geometry>,
    material: Option<Material>,
    transform: Transform,
    layers: set<nat>,
    renderOrder: int,
    userData: Option<UserData>,
    controller: Option<C>)

  type Content<C> = map<NodeId, Node<C>>

  /** A node's place in the tree. */
  datatype Links = Links(parent: Option<NodeId>, children: seq<NodeId>)

  type Tree = map<NodeId, Links>

  /** Layer 0 is the only layer a new object is enabled on. */
  const DefaultLayers: set<nat> := {0}

  /** The links of a newly created object. */
  const Detached := Links(None, [])

  ghost predicate NoDup<T>(s: seq<T>) {
    forall i, j :: 0 <= i < j < |s| ==> s[i] != s[j]
  }

  /** Every listed child exists and names the listing node as its parent. */
  ghost predicate ChildrenAgree(t: Tree) {
    forall n, c {:trigger c in t[n].children} :: n in t && c in t[n].children ==> c in t && t[c].parent == Some(n)
  }

  /** Every parent exists, is not the node itself, and lists the node among its children. */
  ghost predicate ParentsAgree(t: Tree) {
    forall n {:trigger t[n].parent} :: n in t && t[n].parent.Some? ==>
      t[n].parent.value in t && t[n].parent.value != n && n in t[t[n].parent.value].children
  }

  /** No children list repeats a node. */
  ghost predicate Distinct(t: Tree) {
    forall n {:trigger t[n].children} :: n in t ==> NoDup(t[n].children)
  }

  /**
   * Parent links and children lists agree, so that every node is the child
   * of at most one other and appears once in its parent's list.
   */
  ghost predicate Wf(t: Tree) {
    ChildrenAgree(t) && ParentsAgree(t) && Distinct(t)
  }

  /** `Array.prototype.splice(indexOf(x), 1)`: the first occurrence of `x` is dropped. */
  function RemoveFirst<T(==)>(s: seq<T>, x: T): (r: seq<T>)
    ensures |r| == if x in s then |s| - 1 else |s|
    ensures forall y {:trigger y in r} :: y in r ==> y in s
    ensures forall y {:trigger y in s} :: y in s && y != x ==> y in r
  {
    if s == [] then []
    else if s[0] == x then s[1..]
    else
      assert s == [s[0]] + s[1..];
      [s[0]] + RemoveFirst(s[1..], x)
  }

  lemma {:induction false} RemoveFirstSplit<T>(a: seq<T>, x: T, b: seq<T>)
    requires x !in a
    ensures RemoveFirst(a + [x] + b, x) == a + b
  {
    if a == [] {
      assert a + [x] + b == [x] + b;
    } else {
      assert (a + [x] + b)[1..] == a[1..] + [x] + b;
      RemoveFirstSplit(a[1..], x, b);
      assert a + b == [a[0]] + (a[1..] + b);
    }
  }

  lemma {:induction false} RemoveFirstNoDup<T>(s: seq<T>, x: T)
    requires NoDup(s)
    ensures NoDup(RemoveFirst(s, x)) && x !in RemoveFirst(s, x)
  {
    if s != [] {
      assert NoDup(s[1..]) by {
        forall i, j | 0 <= i < j < |s[1..]| ensures s[1..][i] != s[1..][j] {
          assert s[1..][i] == s[i + 1] && s[1..][j] == s[j + 1];
        }
      }
      if s[0] != x {
        RemoveFirstNoDup(s[1..], x);
        var r := RemoveFirst(s[1..], x);
        assert s[0] !in s[1..] by {
          forall k | 0 <= k < |s[1..]| ensures s[1..][k] != s[0] {
            assert s[1..][k] == s[k + 1];
          }
        }
        forall i, j | 0 <= i < j < |[s[0]] + r| ensures ([s[0]] + r)[i] != ([s[0]] + r)[j] {
          if i == 0 {
            assert ([s[0]] + r)[j] == r[j - 1];
            assert r[j - 1] in r;
          }
        }
      } else {
        forall k | 0 <= k < |s[1..]| ensures s[1..][k] != x {
          assert s[1..][k] == s[k + 1];
        }
      }
    }
  }

  lemma {:induction false} RemoveFirstAppend<T>(s: seq<T>, x: T, y: T)
    requires x in s
    ensures RemoveFirst(s + [y], x) == RemoveFirst(s, x) + [y]
  {
    assert (s + [y])[1..] == s[1..] + [y];
    if s[0] != x {
      RemoveFirstAppend(s[1..], x, y);
    }
  }

  lemma AppendNoDup<T>(s: seq<T>, x: T)
    requires NoDup(s) && x !in s
    ensures NoDup(s + [x])
  {
    forall i, j | 0 <= i < j < |s + [x]| ensures (s + [x])[i] != (s + [x])[j] {
      if j == |s| {
        assert (s + [x])[i] == s[i];
        assert s[i] in s;
      }
    }
  }

  /** Three.js `p.remove(c)`: when `c` is one of `p`'s children it leaves the list and loses its parent. */
  function Detach(t: Tree, p: NodeId, c: NodeId): Tree
    requires p in t && c in t
  {
    if c in t[p].children then
      var t1 := t[p := t[p].(children := RemoveFirst(t[p].children, c))];
      t1[c := t1[c].(parent := None)]
    else t
  }

  /**
   * Three.js `p.add(c)`: refused when `c` is `p` itself; otherwise `c` is first
   * removed from its current parent, then gets `p` as parent and is appended to
   * the end of `p`'s children (so re-adding a child moves it to the end).
   */
  function Attach(t: Tree, p: NodeId, c: NodeId): Tree
    requires p in t && c in t
    requires t[c].parent.Some? ==> t[c].parent.value in t
  {
    if p == c then t
    else
      var t1 := if t[c].parent.Some? then Detach(t, t[c].parent.value, c) else t;
      var t2 := t1[c := t1[c].(parent := Some(p))];
      t2[p := t2[p].(children := t2[p].children + [c])]
  }

  /** Every parent and every child a node names is a node of the tree. */
  ghost predicate Closed(t: Tree) {
    && (forall n {:trigger t[n].parent} :: n in t && t[n].parent.Some? ==> t[n].parent.value in t)
    && (forall n, c {:trigger c in t[n].children} :: n in t && c in t[n].children ==> c in t)
  }

  /** A well-formed tree is closed. */
  lemma WfClosed(t: Tree)
    requires Wf(t)
    ensures Closed(t)
  {
  }

  /** The parent of `c`, if it has one, is another node of the tree that lists `c`. */
  ghost predicate Listed(t: Tree, c: NodeId)
    requires c in t
  {
    t[c].parent.Some? ==> t[c].parent.value in t && t[c].parent.value != c && c in t[t[c].parent.value].children
  }

  /** `add` and `remove` create and delete no node and name no parent outside the tree. */
  lemma ClosedKept(t: Tree, p: NodeId, c: NodeId)
    requires Closed(t) && p in t && c in t
    ensures Closed(Detach(t, p, c)) && Detach(t, p, c).Keys == t.Keys
    ensures Closed(Attach(t, p, c)) && Attach(t, p, c).Keys == t.Keys
  {
    if p != c && t[c].parent.Some? {
      var t1 := Detach(t, t[c].parent.value, c);
      assert Closed(t1);
    }
  }

  /** Where `remove` puts things: only `p`'s list and `c`'s parent change, and only when `c` was listed. */
  lemma DetachEffect(t: Tree, p: NodeId, c: NodeId)
    requires p in t && c in t && p != c
    ensures var r := Detach(t, p, c);
      && r.Keys == t.Keys
      && (c in t[p].children ==> r[c] == t[c].(parent := None) && r[p] == t[p].(children := RemoveFirst(t[p].children, c)))
      && (c !in t[p].children ==> r == t)
      && (forall n :: n in t && n != p && n != c ==> r[n] == t[n])
  {
  }

  /** `remove` keeps the tree well formed and touches only the two nodes involved. */
  lemma DetachWf(t: Tree, p: NodeId, c: NodeId)
    requires Wf(t) && p in t && c in t
    ensures var r := Detach(t, p, c);
      && Wf(r) && r.Keys == t.Keys
      && (forall n :: n in t && n != p && n != c ==> r[n] == t[n])
      && (c in t[p].children ==> r[c].parent.None? && r[p].children == RemoveFirst(t[p].children, c))
      && (c in t[p].children ==> r[c].children == t[c].children && r[p].parent == t[p].parent)
      && (c !in t[p].children ==> r == t)
  {
    if c in t[p].children {
      var r := Detach(t, p, c);
      RemoveFirstNoDup(t[p].children, c);
      assert p != c;
      assert ChildrenAgree(r) by {
        forall n, d | n in r && d in r[n].children ensures d in r && r[d].parent == Some(n) {
          assert d in t[n].children;
          assert d != c;
        }
      }
      assert ParentsAgree(r) by {
        forall n | n in r && r[n].parent.Some?
          ensures r[n].parent.value in r && r[n].parent.value != n && n in r[r[n].parent.value].children
        {
          assert n != c;
          var q := t[n].parent.value;
          if q == p {
            assert n in t[p].children;
          }
        }
      }
    }
  }

  /** `add` keeps the tree well formed. */
  lemma AttachWf(t: Tree, p: NodeId, c: NodeId)
    requires Wf(t) && p in t && c in t
    ensures Wf(Attach(t, p, c)) && Attach(t, p, c).Keys == t.Keys
  {
    if p != c {
      var t1 := if t[c].parent.Some? then Detach(t, t[c].parent.value, c) else t;
      if t[c].parent.Some? {
        DetachWf(t, t[c].parent.value, c);
      }
      assert Wf(t1) && t1[c].parent.None?;
      assert c !in t1[p].children;
      AppendNoDup(t1[p].children, c);
      var r := Attach(t, p, c);
      assert r == t1[c := t1[c].(parent := Some(p))][p := t1[p].(children := t1[p].children + [c])];
      assert ChildrenAgree(r) by {
        forall n, d | n in r && d in r[n].children ensures d in r && r[d].parent == Some(n) {
          if n == p {
            if d != c {
              assert d in t1[p].children;
            }
          } else {
            assert d in t1[n].children;
            assert d != c;
          }
        }
      }
      assert ParentsAgree(r) by {
        forall n | n in r && r[n].parent.Some?
          ensures r[n].parent.value in r && r[n].parent.value != n && n in r[r[n].parent.value].children
        {
          if n != c {
            var q := t1[n].parent.value;
            assert n in t1[q].children;
            if q != p {
              assert r[q].children == t1[q].children;
            }
          }
        }
      }
    }
  }

  /**
   * Where `add` puts things: `c` becomes the last child of `p` and `p` its
   * parent; `c`'s former parent loses it; no other node's links change.
   */
  lemma AttachEffect(t: Tree, p: NodeId, c: NodeId)
    requires p in t && c in t && p != c && Listed(t, c)
    ensures var r := Attach(t, p, c);
      && r[c] == Links(Some(p), t[c].children)
      && r[p].parent == t[p].parent
      && r[p].children == (if t[c].parent == Some(p) then RemoveFirst(t[p].children, c) else t[p].children) + [c]
      && (t[c].parent.Some? && t[c].parent.value != p ==>
            r[t[c].parent.value] == t[t[c].parent.value].(children := RemoveFirst(t[t[c].parent.value].children, c)))
      && (forall n :: n in t && n != p && n != c && Some(n) != t[c].parent ==> r[n] == t[n])
  {
  }

  /** The nodes of the scene that carry a geometry (the ones `hasGeometry` accepts). */
  function Geometric<C>(content: Content<C>): (r: set<NodeId>)
    ensures forall x :: x in r <==> x in content && content[x].geometry.Some?
  {
    set x | x in content && content[x].geometry.Some?
  }

  /** The members of `s` outside `geo` (the nodes without geometry), in order. */
  function WithoutGeometry(s: seq<NodeId>, geo: set<NodeId>): (r: seq<NodeId>)
    ensures forall x {:trigger x in r} :: x in r ==> x in s && x !in geo
  {
    if s == [] then []
    else WithoutGeometry(s[..|s| - 1], geo) + (if s[|s| - 1] !in geo then [s[|s| - 1]] else [])
  }

  /** The members of `s` inside `geo` (the nodes with geometry), in order. */
  function WithGeometry(s: seq<NodeId>, geo: set<NodeId>): (r: seq<NodeId>)
    ensures forall x {:trigger x in r} :: x in r ==> x in s && x in geo
  {
    if s == [] then []
    else WithGeometry(s[..|s| - 1], geo) + (if s[|s| - 1] in geo then [s[|s| - 1]] else [])
  }

  lemma SplitStep<T>(w: seq<T>, n: seq<T>, init: seq<T>, last: T, toFirst: bool)
    requires multiset(w + n) == multiset(init)
    ensures multiset((if toFirst then w + [last] else w) + (if toFirst then n else n + [last])) == multiset(init + [last])
  {
    assert multiset(init + [last]) == multiset(init) + multiset{last};
    if toFirst {
      assert multiset(w + [last] + n) == multiset(w) + multiset{last} + multiset(n);
    } else {
      assert w + (n + [last]) == (w + n) + [last];
    }
  }

  /** Splitting a list by geometry loses and duplicates nothing. */
  lemma {:induction false} GeometrySplit(s: seq<NodeId>, geo: set<NodeId>)
    ensures multiset(WithGeometry(s, geo) + WithoutGeometry(s, geo)) == multiset(s)
  {
    if s != [] {
      var init, last := s[..|s| - 1], s[|s| - 1];
      GeometrySplit(init, geo);
      assert s == init + [last];
      SplitStep(WithGeometry(init, geo), WithoutGeometry(init, geo), init, last, last in geo);
    }
  }

  lemma {:induction false} FiltersConcat(a: seq<NodeId>, b: seq<NodeId>, geo: set<NodeId>)
    ensures WithoutGeometry(a + b, geo) == WithoutGeometry(a, geo) + WithoutGeometry(b, geo)
    ensures WithGeometry(a + b, geo) == WithGeometry(a, geo) + WithGeometry(b, geo)
  {
    if b != [] {
      var bi := b[..|b| - 1];
      assert (a + b)[..|a + b| - 1] == a + bi;
      FiltersConcat(a, bi, geo);
    } else {
      assert a + b == a;
    }
  }

  /** A list whose members all carry geometry is its own geometry part and has no other. */
  lemma {:induction false} AllGeometry(s: seq<NodeId>, geo: set<NodeId>)
    requires forall x :: x in s ==> x in geo
    ensures WithGeometry(s, geo) == s && WithoutGeometry(s, geo) == []
  {
    if s != [] {
      AllGeometry(s[..|s| - 1], geo);
      assert s == s[..|s| - 1] + [s[|s| - 1]];
    }
  }

  /** A list without geometry is its own geometry-free part. */
  lemma {:induction false} NoGeometry(s: seq<NodeId>, geo: set<NodeId>)
    requires forall x :: x in s ==> x !in geo
    ensures WithoutGeometry(s, geo) == s && WithGeometry(s, geo) == []
  {
    if s != [] {
      NoGeometry(s[..|s| - 1], geo);
      assert s == s[..|s| - 1] + [s[|s| - 1]];
    }
  }

  /**
   * Step 1 of the swap, over a snapshot of the old object's children: each one
   * without geometry is added to `target`, in the snapshot's order.
   */
  function MoveChildren(t: Tree, geo: set<NodeId>, snapshot: seq<NodeId>, target: NodeId): (r: Tree)
    requires Closed(t) && target in t
    requires forall x :: x in snapshot ==> x in t
    ensures Closed(r) && r.Keys == t.Keys
    decreases |snapshot|
  {
    if snapshot == [] then t
    else
      var prev := MoveChildren(t, geo, snapshot[..|snapshot| - 1], target);
      var x := snapshot[|snapshot| - 1];
      if x !in geo then ClosedKept(prev, target, x); Attach(prev, target, x)
      else prev
  }

  lemma {:induction false} MoveChildrenWf(t: Tree, geo: set<NodeId>, snapshot: seq<NodeId>, target: NodeId)
    requires Wf(t) && target in t
    requires forall x :: x in snapshot ==> x in t
    ensures Wf(MoveChildren(t, geo, snapshot, target))
  {
    if snapshot != [] {
      MoveChildrenWf(t, geo, snapshot[..|snapshot| - 1], target);
      var prev := MoveChildren(t, geo, snapshot[..|snapshot| - 1], target);
      AttachWf(prev, target, snapshot[|snapshot| - 1]);
    }
  }

  /** Step 2 of the swap: `p.add(newObj).remove(oldObj)`. */
  function Replace(t: Tree, p: NodeId, oldObj: NodeId, newObj: NodeId): (r: Tree)
    requires Closed(t) && p in t && oldObj in t && newObj in t
    ensures Closed(r) && r.Keys == t.Keys
  {
    ClosedKept(t, p, newObj);
    var t' := Attach(t, p, newObj);
    ClosedKept(t', p, oldObj);
    Detach(t', p, oldObj)
  }

  /**
   * The links after the controller swaps the active object `oldObj` for
   * `newObj`: the children of `oldObj` without geometry move to `newObj`, then,
   * when `oldObj` has a parent, `parent.add(newObj).remove(oldObj)`. (The
   * swap's last step, the transform copy, is on the contents.)
   */
  function SwapLinks(t: Tree, geo: set<NodeId>, oldObj: NodeId, newObj: NodeId): (r: Tree)
    requires Closed(t) && oldObj in t && newObj in t
    ensures Closed(r) && r.Keys == t.Keys
  {
    var t1 := MoveChildren(t, geo, t[oldObj].children, newObj);
    if t1[oldObj].parent.Some? then Replace(t1, t1[oldObj].parent.value, oldObj, newObj) else t1
  }

  /** The swap keeps the tree well formed. */
  lemma SwapLinksWf(t: Tree, geo: set<NodeId>, oldObj: NodeId, newObj: NodeId)
    requires Wf(t) && oldObj in t && newObj in t
    ensures Wf(SwapLinks(t, geo, oldObj, newObj))
  {
    MoveChildrenWf(t, geo, t[oldObj].children, newObj);
    var t1 := MoveChildren(t, geo, t[oldObj].children, newObj);
    if t1[oldObj].parent.Some? {
      var p := t1[oldObj].parent.value;
      AttachWf(t1, p, newObj);
      DetachWf(Attach(t1, p, newObj), p, oldObj);
    }
  }

  /**
   * The situation every swap the controller makes starts from: distinct old and
   * new objects, the new one detached, the old one's parent (if any) neither the
   * new object nor one of the old object's own children.
   */
  ghost predicate SwapReady(t: Tree, oldObj: NodeId, newObj: NodeId) {
    && Wf(t) && oldObj in t && newObj in t && oldObj != newObj
    && (forall x :: x in t[oldObj].children ==> x in t)
    && t[newObj].parent.None?
    && t[oldObj].parent != Some(newObj)
    && (t[oldObj].parent.Some? ==> t[oldObj].parent.value !in t[oldObj].children)
  }

  /** Re-adding a child to its own parent changes only the two of them, and not the parent's parent. */
  lemma AttachAgain(h: Tree, x: NodeId, c: NodeId)
    requires x in h && c in h && x != c && h[c].parent == Some(x)
    ensures var r := Attach(h, x, c);
      && r[x].parent == h[x].parent
      && forall n :: n in h && n != x && n != c ==> r[n] == h[n]
  {
  }

  /**
   * The move loop run from an object into itself: each child without geometry
   * is re-added to the object it already belongs to; the object keeps its
   * parent, and no node outside the visited children changes.
   */
  lemma {:induction false} MoveToSelf(t: Tree, geo: set<NodeId>, x: NodeId, k: nat)
    requires Wf(t) && x in t && k <= |t[x].children|
    ensures Closed(t) && forall y :: y in t[x].children[..k] ==> y in t
    ensures var r := MoveChildren(t, geo, t[x].children[..k], x);
      && r[x].parent == t[x].parent
      && forall n :: n in t && n != x && n !in t[x].children[..k] ==> r[n] == t[n]
  {
    WfClosed(t);
    var cs := t[x].children;
    assert forall y :: y in cs[..k] ==> y in cs;
    if k > 0 {
      MoveToSelf(t, geo, x, k - 1);
      var c := cs[k - 1];
      assert cs[..k] == cs[..k - 1] + [c];
      assert c in cs;
      assert c !in cs[..k - 1] by {
        forall j | 0 <= j < k - 1 ensures cs[j] != c {
          assert NoDup(cs);
        }
      }
      var prev := MoveChildren(t, geo, cs[..k - 1], x);
      assert cs[..k][..k - 1] == cs[..k - 1];
      assert prev[c] == t[c];
      if c !in geo {
        AttachAgain(prev, x, c);
      }
    }
  }

  /**
   * The swap asked to replace the active object by itself: the object leaves
   * its parent and is left without one, because `parent.add(obj)` moves it to
   * the end of the parent's children and `remove(obj)` then takes it out.
   */
  lemma SelfSwapDetaches(t: Tree, geo: set<NodeId>, x: NodeId)
    requires Wf(t) && x in t && t[x].parent.Some? && t[x].parent.value !in t[x].children
    ensures Closed(t)
    ensures var r := SwapLinks(t, geo, x, x);
      && r[x].parent.None? && x !in r[t[x].parent.value].children
  {
    WfClosed(t);
    var cs := t[x].children;
    var p := t[x].parent.value;
    MoveToSelf(t, geo, x, |cs|);
    assert cs[..|cs|] == cs;
    var t1 := MoveChildren(t, geo, cs, x);
    assert t1[p] == t[p] && t1[x].parent == Some(p);
    assert NoDup(t[p].children) && x in t[p].children;
    AttachEffect(t1, p, x);
    var t2 := Attach(t1, p, x);
    RemoveFirstNoDup(t[p].children, x);
    RemoveFirstSplit(RemoveFirst(t[p].children, x), x, []);
    assert RemoveFirst(t[p].children, x) + [x] + [] == t2[p].children;
    DetachEffect(t2, p, x);
  }

  /**
   * The links part-way through the move loop: `moved` has been appended to the
   * new object's children and re-parented, the old object's list is now
   * `kept` followed by the children not yet visited, and nothing else changed.
   */
  ghost predicate Moved(t: Tree, oldObj: NodeId, newObj: NodeId, moved: seq<NodeId>, kept: seq<NodeId>, rest: seq<NodeId>, h: Tree)
    requires oldObj in t && newObj in t
  {
    && h.Keys == t.Keys
    && h[newObj] == t[newObj].(children := t[newObj].children + moved)
    && h[oldObj] == t[oldObj].(children := kept + rest)
    && forall y :: y in t && y != oldObj && y != newObj ==>
         h[y] == if y in moved then t[y].(parent := Some(newObj)) else t[y]
  }

  /** Adding the next unvisited child to the new object extends `moved` by it. */
  lemma MoveOne(t: Tree, oldObj: NodeId, newObj: NodeId, moved: seq<NodeId>, kept: seq<NodeId>, x: NodeId, rest: seq<NodeId>, h: Tree)
    requires oldObj in t && newObj in t && oldObj != newObj
    requires Moved(t, oldObj, newObj, moved, kept, [x] + rest, h)
    requires x in t && x != oldObj && x != newObj && x !in moved && x !in kept && t[x].parent == Some(oldObj)
    ensures x in h && h[x].parent == Some(oldObj) && oldObj in h
    ensures Moved(t, oldObj, newObj, moved + [x], kept, rest, Attach(h, newObj, x))
  {
    assert h[x] == t[x];
    assert x in h[oldObj].children;
    AttachEffect(h, newObj, x);
    assert h[oldObj].children == kept + [x] + rest;
    RemoveFirstSplit(kept, x, rest);
    var r := Attach(h, newObj, x);
    forall y | y in t && y != oldObj && y != newObj
      ensures r[y] == if y in moved + [x] then t[y].(parent := Some(newObj)) else t[y]
    {
      if y != x {
        assert r[y] == h[y];
        assert (y in moved + [x]) == (y in moved);
      }
    }
  }

  /** Passing over the next unvisited child, which has geometry, keeps it with the old object. */
  lemma KeepOne(t: Tree, oldObj: NodeId, newObj: NodeId, moved: seq<NodeId>, kept: seq<NodeId>, x: NodeId, rest: seq<NodeId>, h: Tree)
    requires oldObj in t && newObj in t
    requires Moved(t, oldObj, newObj, moved, kept, [x] + rest, h)
    ensures Moved(t, oldObj, newObj, moved, kept + [x], rest, h)
  {
    assert kept + [x] + rest == kept + ([x] + rest);
  }

  /** The state of the move loop after its first `k` steps. */
  ghost predicate MovedUpTo(t: Tree, geo: set<NodeId>, oldObj: NodeId, newObj: NodeId, k: nat, h: Tree)
    requires SwapReady(t, oldObj, newObj) && k <= |t[oldObj].children|
  {
    var cs := t[oldObj].children;
    Moved(t, oldObj, newObj, WithoutGeometry(cs[..k], geo), WithGeometry(cs[..k], geo), cs[k..], h)
  }

  /** Facts about the `k`-th child of the old object that every step of the move loop uses. */
  lemma SnapshotFacts(t: Tree, oldObj: NodeId, newObj: NodeId, k: nat)
    requires SwapReady(t, oldObj, newObj) && k < |t[oldObj].children|
    ensures var cs := t[oldObj].children;
      && cs[..k + 1] == cs[..k] + [cs[k]] && cs[k..] == [cs[k]] + cs[k + 1..]
      && cs[k] !in cs[..k] && cs[k] in t && cs[k] != oldObj && cs[k] != newObj
      && t[cs[k]].parent == Some(oldObj)
  {
    var cs := t[oldObj].children;
    assert cs[k] in cs;
    assert NoDup(cs);
    forall j | 0 <= j < k ensures cs[..k][j] != cs[k] {
      assert cs[..k][j] == cs[j];
    }
  }

  /** Extending a prefix by one element extends one of its two filtered parts by it. */
  lemma FilterStep(s: seq<NodeId>, k: nat, geo: set<NodeId>)
    requires k < |s|
    ensures s[k] !in geo ==>
      WithoutGeometry(s[..k + 1], geo) == WithoutGeometry(s[..k], geo) + [s[k]] && WithGeometry(s[..k + 1], geo) == WithGeometry(s[..k], geo)
    ensures s[k] in geo ==>
      WithoutGeometry(s[..k + 1], geo) == WithoutGeometry(s[..k], geo) && WithGeometry(s[..k + 1], geo) == WithGeometry(s[..k], geo) + [s[k]]
  {
    assert s[..k + 1][..k] == s[..k];
  }

  /** One step of the move loop keeps `MovedUpTo`. */
  lemma MoveStep(t: Tree, geo: set<NodeId>, oldObj: NodeId, newObj: NodeId, k: nat)
    requires SwapReady(t, oldObj, newObj) && k < |t[oldObj].children|
    requires MovedUpTo(t, geo, oldObj, newObj, k, MoveChildren(t, geo, t[oldObj].children[..k], newObj))
    ensures MovedUpTo(t, geo, oldObj, newObj, k + 1, MoveChildren(t, geo, t[oldObj].children[..k + 1], newObj))
  {
    var cs := t[oldObj].children;
    var x := cs[k];
    var prev := MoveChildren(t, geo, cs[..k], newObj);
    SnapshotFacts(t, oldObj, newObj, k);
    FilterStep(cs, k, geo);
    assert cs[..k + 1][..k] == cs[..k];
    var w := WithGeometry(cs[..k], geo);
    var m := WithoutGeometry(cs[..k], geo);
    assert x !in m && x !in w;
    var next := MoveChildren(t, geo, cs[..k + 1], newObj);
    if x !in geo {
      assert next == Attach(prev, newObj, x);
      MoveOne(t, oldObj, newObj, m, w, x, cs[k + 1..], prev);
    } else {
      assert next == prev;
      KeepOne(t, oldObj, newObj, m, w, x, cs[k + 1..], prev);
    }
  }

  /** What the first `k` steps of the move loop have done. */
  lemma {:induction false} MovePrefix(t: Tree, geo: set<NodeId>, oldObj: NodeId, newObj: NodeId, k: nat)
    requires SwapReady(t, oldObj, newObj) && k <= |t[oldObj].children|
    ensures MovedUpTo(t, geo, oldObj, newObj, k, MoveChildren(t, geo, t[oldObj].children[..k], newObj))
  {
    var cs := t[oldObj].children;
    if k == 0 {
      assert cs[..0] == [] && cs[0..] == cs;
    } else {
      MovePrefix(t, geo, oldObj, newObj, k - 1);
      MoveStep(t, geo, oldObj, newObj, k - 1);
    }
  }

  /** Step 2 of the swap, once the move loop is over. */
  lemma SwapParentStep(t: Tree, geo: set<NodeId>, oldObj: NodeId, newObj: NodeId, t1: Tree)
    requires SwapReady(t, oldObj, newObj) && t[oldObj].parent.Some?
    requires Moved(t, oldObj, newObj, WithoutGeometry(t[oldObj].children, geo), WithGeometry(t[oldObj].children, geo), [], t1)
    requires Closed(t1)
    ensures var q := t[oldObj].parent.value;
      var r := Replace(t1, q, oldObj, newObj);
      var moved := WithoutGeometry(t[oldObj].children, geo);
      && r[newObj] == Links(Some(q), t[newObj].children + moved)
      && r[oldObj] == Links(None, WithGeometry(t[oldObj].children, geo))
      && r[q] == t[q].(children := RemoveFirst(t[q].children, oldObj) + [newObj])
      && (forall n :: n in t && n != oldObj && n != newObj && n != q ==> r[n] == t1[n])
  {
    var q := t[oldObj].parent.value;
    var moved := WithoutGeometry(t[oldObj].children, geo);
    assert q !in moved;
    assert t1[q] == t[q];
    assert oldObj in t1[q].children;
    AttachEffect(t1, q, newObj);
    var t' := Attach(t1, q, newObj);
    assert t'[q].children == t[q].children + [newObj];
    RemoveFirstAppend(t[q].children, oldObj, newObj);
    DetachEffect(t', q, oldObj);
  }

  /**
   * The swap's effect on the links: the new object gains the old one's
   * children without geometry (appended, in order) and the old object keeps
   * only those with geometry; the old object's parent, if any, loses it and
   * gains the new object at the end of its children, and with no parent nobody
   * gains the new object; no other node's links change.
   */
  lemma SwapEffect(t: Tree, geo: set<NodeId>, oldObj: NodeId, newObj: NodeId)
    requires SwapReady(t, oldObj, newObj)
    ensures var r := SwapLinks(t, geo, oldObj, newObj);
      var moved := WithoutGeometry(t[oldObj].children, geo);
      var p := t[oldObj].parent;
      && r[newObj] == Links(p, t[newObj].children + moved)
      && r[oldObj] == Links(None, WithGeometry(t[oldObj].children, geo))
      && (forall x :: x in moved ==> r[x] == t[x].(parent := Some(newObj)))
      && (p.Some? ==> r[p.value] == t[p.value].(children := RemoveFirst(t[p.value].children, oldObj) + [newObj]))
      && (forall n :: n in t && n != oldObj && n != newObj && n !in moved && Some(n) != p ==> r[n] == t[n])
  {
    var cs := t[oldObj].children;
    MovePrefix(t, geo, oldObj, newObj, |cs|);
    assert cs[..|cs|] == cs && cs[|cs|..] == [];
    var t1 := MoveChildren(t, geo, cs, newObj);
    var p := t[oldObj].parent;
    if p.Some? {
      SwapParentStep(t, geo, oldObj, newObj, t1);
    }
  }

  /**
   * A representation container at rest: detached from any parent, and holding
   * only leaves that carry geometry and are not the node itself.
   */
  ghost predicate Clean(t: Tree, geo: set<NodeId>, container: NodeId, node: NodeId) {
    && container in t && t[container].parent.None?
    && forall x :: x in t[container].children ==> x in t && x in geo && x != node && t[x].children == []
  }

  /** The first half of a round trip: the node's children without geometry join the container. */
  lemma SwapOut(t: Tree, geo: set<NodeId>, node: NodeId, container: NodeId)
    requires SwapReady(t, node, container) && Clean(t, geo, container, node)
    ensures var t1 := SwapLinks(t, geo, node, container);
      && SwapReady(t1, container, node)
      && t1[container] == Links(t[node].parent, t[container].children + WithoutGeometry(t[node].children, geo))
      && t1[node].children == WithGeometry(t[node].children, geo)
      && (forall x :: x in t[container].children ==> t1[x] == t[x])
  {
    var cs := t[node].children;
    var moved := WithoutGeometry(cs, geo);
    var p := t[node].parent;
    SwapEffect(t, geo, node, container);
    SwapLinksWf(t, geo, node, container);
    var t1 := SwapLinks(t, geo, node, container);
    if p.Some? {
      assert node in t[p.value].children;
      assert p.value !in t[container].children;
    }
    forall x | x in t[container].children ensures t1[x] == t[x] {
      assert x != node && x != container && x !in moved && Some(x) != p;
    }
  }

  /** The second half of a round trip, stated on the container's two parts. */
  lemma SwapBack(t1: Tree, geo: set<NodeId>, node: NodeId, container: NodeId, own: seq<NodeId>, moved: seq<NodeId>)
    requires SwapReady(t1, container, node) && t1[container].children == own + moved
    requires forall x :: x in own ==> x in geo && x != node
    requires forall x :: x in moved ==> x !in geo
    ensures var t2 := SwapLinks(t1, geo, container, node);
      && t2[node] == Links(t1[container].parent, t1[node].children + moved)
      && t2[container] == Links(None, own)
      && (forall x :: x in own && Some(x) != t1[container].parent ==> t2[x] == t1[x])
  {
    FiltersConcat(own, moved, geo);
    AllGeometry(own, geo);
    NoGeometry(moved, geo);
    assert WithoutGeometry(own + moved, geo) == moved;
    assert WithGeometry(own + moved, geo) == own;
    SwapEffect(t1, geo, container, node);
    var t2 := SwapLinks(t1, geo, container, node);
    forall x | x in own && Some(x) != t1[container].parent ensures t2[x] == t1[x] {
      assert x in t1[container].children;
      assert x != container;
      assert x !in moved;
    }
  }

  /**
   * Swapping a node out for a clean container and back restores the node's
   * parent and children (the same multiset, possibly reordered because `add`
   * appends), gives the container back its own children, and leaves it clean.
   */
  lemma RoundTrip(t: Tree, geo: set<NodeId>, node: NodeId, container: NodeId)
    requires SwapReady(t, node, container) && Clean(t, geo, container, node)
    ensures var t1 := SwapLinks(t, geo, node, container);
      && SwapReady(t1, container, node)
      && var t2 := SwapLinks(t1, geo, container, node);
      && t2[node].parent == t[node].parent
      && multiset(t2[node].children) == multiset(t[node].children)
      && t2[container].children == t[container].children
      && Clean(t2, geo, container, node)
  {
    var cs := t[node].children;
    var own := t[container].children;
    var moved := WithoutGeometry(cs, geo);
    SwapOut(t, geo, node, container);
    var t1 := SwapLinks(t, geo, node, container);
    SwapBack(t1, geo, node, container, own, moved);
    var t2 := SwapLinks(t1, geo, container, node);
    GeometrySplit(cs, geo);
    SwapLinksWf(t1, geo, container, node);
    forall x | x in own ensures x in t2 && t2[x].children == [] {
      if t[node].parent.Some? {
        assert node in t[t[node].parent.value].children;
      }
      assert t2[x] == t[x];
    }
  }
}
