/**
 * What the controller's three builders put into a representation container:
 * for every geometry-bearing source node, the line builder makes an edge
 * outline and a transparent picking box, the pipe builder a recoloured copy
 * of the mesh and a copy carrying the arrow texture, and the points builder
 * a point cloud.
 */
module Representations {
  import opened Wrappers
  import opened Config
  import opened SceneGraph

  /** An object a builder creates, by the geometry, material and transform it gets. */
  datatype Drawable = Drawable(geometry: Geometry, material: Material, transform: Transform)

  /**
   * A builder and its resolved settings. `reset` is the line builder's
   * coordinate policy: true when the node itself has geometry, in which case
   * the drawables keep the default transform instead of copying their source's.
   */
  datatype Kind =
    | LineKind(line: LineStyle, reset: bool)
    | PipeKind(pipe: PipeStyle)
    | PointsKind(points: PointsStyle)

  /** The drawables made for one source node with geometry `g` and transform `at`, in `add` order. */
  function Parts(k: Kind, g: Geometry, at: Transform): seq<Drawable> {
    match k
    case LineKind(s, reset) =>
      var t := if reset then Identity else at;
      [Drawable(EdgesOf(g), EdgeLine(s.color), t), Drawable(g, PickBox(s.opacity), t)]
    case PipeKind(s) =>
      [Drawable(g, PipeBase(s.color, s.opacity), Identity),
       Drawable(g, PipeFlow(s.flowColor, s.flowOpacity, s.flowNumber, s.flowRotation), Identity)]
    case PointsKind(s) =>
      [Drawable(g, PointCloud(s.size, s.color), Identity)]
  }

  /** The drawables a builder's loop over `sources` appends to its container, in order. */
  function Expand<C>(content: Content<C>, sources: seq<NodeId>, k: Kind): seq<Drawable>
    requires forall x :: x in sources ==> x in content
  {
    if sources == [] then []
    else
      var v := content[sources[|sources| - 1]];
      Expand(content, sources[..|sources| - 1], k) + (if v.geometry.Some? then Parts(k, v.geometry.value, v.transform) else [])
  }

  /** One more iteration of a builder's loop appends the drawables of one more source. */
  lemma ExpandStep<C>(content: Content<C>, sources: seq<NodeId>, i: nat, k: Kind)
    requires i < |sources| && forall x :: x in sources ==> x in content
    ensures var v := content[sources[i]];
      Expand(content, sources[..i + 1], k)
        == Expand(content, sources[..i], k) + (if v.geometry.Some? then Parts(k, v.geometry.value, v.transform) else [])
  {
    assert sources[..i + 1][..i] == sources[..i];
  }

  /** The drawables for the `j`-th geometry-bearing source. */
  function PartsFor<C>(content: Content<C>, x: NodeId, k: Kind): seq<Drawable>
    requires x in content && content[x].geometry.Some?
  {
    Parts(k, content[x].geometry.value, content[x].transform)
  }

  /**
   * The line and pipe builders make exactly two drawables per geometry-bearing
   * source and none for the others, the `j`-th pair made from the `j`-th
   * geometry-bearing source; the points builder makes one each.
   */
  lemma {:induction false} ExpandShape<C>(content: Content<C>, sources: seq<NodeId>, k: Kind)
    requires forall x :: x in sources ==> x in content
    ensures var gs := WithGeometry(sources, Geometric(content));
      var e := Expand(content, sources, k);
      && (forall j :: 0 <= j < |gs| ==> gs[j] in content && content[gs[j]].geometry.Some?)
      && (k.PointsKind? ==> |e| == |gs| && forall j :: 0 <= j < |gs| ==> [e[j]] == PartsFor(content, gs[j], k))
      && (!k.PointsKind? ==> |e| == 2 * |gs| && forall j :: 0 <= j < |gs| ==> e[2 * j .. 2 * j + 2] == PartsFor(content, gs[j], k))
  {
    if sources != [] {
      var init, x := sources[..|sources| - 1], sources[|sources| - 1];
      ExpandShape(content, init, k);
      var geo := Geometric(content);
      var gs0, e0 := WithGeometry(init, geo), Expand(content, init, k);
      if x in geo {
        var p := PartsFor(content, x, k);
        var e := e0 + p;
        var gs := gs0 + [x];
        assert Expand(content, sources, k) == e;
        if k.PointsKind? {
          forall j | 0 <= j < |gs| ensures [e[j]] == PartsFor(content, gs[j], k) {
            if j < |gs0| {
              assert e[j] == e0[j];
            }
          }
        } else {
          forall j | 0 <= j < |gs| ensures e[2 * j .. 2 * j + 2] == PartsFor(content, gs[j], k) {
            if j < |gs0| {
              assert e[2 * j .. 2 * j + 2] == e0[2 * j .. 2 * j + 2];
            } else {
              assert e[2 * j .. 2 * j + 2] == p;
            }
          }
        }
      }
    }
  }

  /** A drawable as a node of the scene: unnamed, childless, on layer 0, without a controller. */
  function Leaf<C>(d: Drawable): Node<C> {
    Node("", Some(d.geometry), Some(d.material), d.transform, DefaultLayers, 0, Some(EmptyUserData), None)
  }

  /** A new `THREE.Group` named `name` whose `$controller` is `ctrl`. */
  function Group<C>(name: string, ctrl: C): Node<C> {
    Node(name, None, None, Identity, DefaultLayers, 0, Some(EmptyUserData), Some(ctrl))
  }

  function LineName(name: string): string { name + "_lineObject3d" }
  function PipeName(name: string): string { name + "_pipeObject3d" }
  function PointsName(name: string): string { name + "_pointsObject3d" }

  /** The key under which the pipe builder registers its texture animation. */
  function PipeAnimationKey(name: string): string { name + "-pipe" }
}
