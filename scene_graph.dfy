/** The scene graph of lib/SGNode.java, lib/TransformNode.java,
    lib/ModelNode.java and lib/LightNode.java.

    Java gives each node kind its own subclass of SGNode; here one class
    `SGNode` carries a `kind` that says which subclass the object is.  The
    matrices a node holds (its local transform and its world transform) are
    kept as values: the Java code copies every matrix it stores in a
    TransformNode and never changes a matrix after storing it. */
module SceneGraph {
  import opened Matrices

  /** Opaque reference to an external Model (mesh, material, textures). */
  type ModelRef = nat

  /** Opaque reference to an external Light. */
  type LightRef = nat

  /** Which subclass of SGNode a node is. */
  datatype NodeKind =
    | Group                      // SGNode itself, and NameNode
    | TransformNode(local: Mat)  // the node's own `transform` matrix
    | ModelNode(model: ModelRef)
    | LightNode(light: LightRef)

  /** One call that `draw` makes on an external renderable:
      `model.render(gl, worldTransform)` or `light.render(gl, worldTransform)`. */
  datatype RenderCall =
    | RenderModel(model: ModelRef, world: Mat)
    | RenderLight(light: LightRef, world: Mat)

  /** The value of a subtree: each node's kind and world transform, and its
      children in insertion order. */
  datatype Scene = Scene(kind: NodeKind, world: Mat, kids: seq<Scene>)

  /** Two subtrees that differ at most in their world transforms. */
  predicate SameShape(a: Scene, b: Scene)
    decreases a
  {
    && a.kind == b.kind
    && |a.kids| == |b.kids|
    && forall i :: 0 <= i < |a.kids| ==> SameShape(a.kids[i], b.kids[i])
  }

  /** The frame a node passes to its children when it receives `t`:
      a TransformNode passes `t x local`, every other node passes `t` itself. */
  function ChildFrame(kind: NodeKind, t: Mat): Mat {
    if kind.TransformNode? then Product(t, kind.local) else t
  }

  /** What `update(t)` does to a subtree: the node keeps the incoming frame
      `t` as its world transform and every child receives `ChildFrame`.
      Nothing but world transforms changes. */
  function Propagate(s: Scene, t: Mat): (r: Scene)
    ensures SameShape(r, s)
    decreases s
  {
    Scene(s.kind, t, seq(|s.kids|, i requires 0 <= i < |s.kids| => Propagate(s.kids[i], ChildFrame(s.kind, t))))
  }

  /** The render calls that `draw` makes on a subtree, in order.  A model
      node renders itself and then its children; a light node renders the
      light and never visits its children; other nodes only visit their
      children. */
  function Trace(s: Scene): seq<RenderCall>
    decreases s, 1
  {
    match s.kind
    case LightNode(l) => [RenderLight(l, s.world)]
    case ModelNode(m) => [RenderModel(m, s.world)] + TraceAll(s.kids)
    case _ => TraceAll(s.kids)
  }

  /** The render calls for a list of children drawn one after the other. */
  function TraceAll(ks: seq<Scene>): seq<RenderCall>
    decreases ks, 0
  {
    if ks == [] then [] else TraceAll(ks[..|ks| - 1]) + Trace(ks[|ks| - 1])
  }

  /** Drawing one more child appends that child's calls. */
  lemma TraceAllSnoc(ks: seq<Scene>, i: int)
    requires 0 <= i < |ks|
    ensures TraceAll(ks[..i + 1]) == TraceAll(ks[..i]) + Trace(ks[i])
  {
    assert ks[..i + 1][..i] == ks[..i];
  }

  /** Only the shape of a subtree matters to `update`: the world transforms
      it held before are all overwritten. */
  lemma {:induction false} PropagateIgnoresOldWorlds(a: Scene, b: Scene, t: Mat)
    requires SameShape(a, b)
    ensures Propagate(a, t) == Propagate(b, t)
    decreases a
  {
    var ra, rb := Propagate(a, t), Propagate(b, t);
    forall i | 0 <= i < |a.kids|
      ensures ra.kids[i] == rb.kids[i]
    {
      PropagateIgnoresOldWorlds(a.kids[i], b.kids[i], ChildFrame(a.kind, t));
    }
  }

  /** Updating twice with the same frame is the same as updating once; in
      particular `update()` right after `update()` changes nothing. */
  lemma UpdateIsIdempotent(s: Scene, t: Mat)
    ensures Propagate(s, t).world == t
    ensures Propagate(Propagate(s, t), t) == Propagate(s, t)
  {
    PropagateIgnoresOldWorlds(Propagate(s, t), s, t);
  }

  /** A path from the root: the child index to follow at each level. */
  predicate IsPath(s: Scene, p: seq<nat>)
    decreases |p|
  {
    p == [] || (p[0] < |s.kids| && IsPath(s.kids[p[0]], p[1..]))
  }

  /** The node a path leads to. */
  function At(s: Scene, p: seq<nat>): Scene
    requires IsPath(s, p)
    decreases |p|
  {
    if p == [] then s else At(s.kids[p[0]], p[1..])
  }

  /** The local matrices of the TransformNodes strictly above the end of a
      path, from the root down. */
  function TransformsAbove(s: Scene, p: seq<nat>): seq<Mat>
    requires IsPath(s, p)
    decreases |p|
  {
    if p == [] then []
    else (if s.kind.TransformNode? then [s.kind.local] else []) + TransformsAbove(s.kids[p[0]], p[1..])
  }

  /** `t x L1 x ... x Lk`, multiplied from the left as `update` does. */
  function Compose(t: Mat, ls: seq<Mat>): Mat
    decreases |ls|
  {
    if ls == [] then t else Compose(Product(t, ls[0]), ls[1..])
  }

  /** After `update(t)` on the root, every node's world transform is `t`
      times the local transforms of the TransformNodes above it, in order
      from the root; a TransformNode's own transform reaches only its
      descendants. */
  lemma {:induction false} WorldAlongPath(s: Scene, t: Mat, p: seq<nat>)
    requires IsPath(s, p)
    ensures IsPath(Propagate(s, t), p)
    ensures At(Propagate(s, t), p).world == Compose(t, TransformsAbove(s, p))
    decreases |p|
  {
    if p != [] {
      WorldAlongPath(s.kids[p[0]], ChildFrame(s.kind, t), p[1..]);
      if s.kind.TransformNode? {
        assert ([s.kind.local] + TransformsAbove(s.kids[p[0]], p[1..]))[1..] == TransformsAbove(s.kids[p[0]], p[1..]);
      } else {
        assert [] + TransformsAbove(s.kids[p[0]], p[1..]) == TransformsAbove(s.kids[p[0]], p[1..]);
      }
    }
  }

  /** Children are drawn in the order of the child list: the calls for
      `xs + ys` are those for `xs` followed by those for `ys`. */
  lemma {:induction false} TraceAllConcat(xs: seq<Scene>, ys: seq<Scene>)
    ensures TraceAll(xs + ys) == TraceAll(xs) + TraceAll(ys)
    decreases |ys|
  {
    if ys == [] {
      assert xs + ys == xs;
    } else {
      var zs, last := ys[..|ys| - 1], ys[|ys| - 1];
      TraceAllConcat(xs, zs);
      assert (xs + ys)[..|xs + ys| - 1] == xs + zs;
      assert (xs + ys)[|xs + ys| - 1] == last;
      calc {
        TraceAll(xs + ys);
        TraceAll(xs + zs) + Trace(last);
        TraceAll(xs) + TraceAll(zs) + Trace(last);
        TraceAll(xs) + (TraceAll(zs) + Trace(last));
        TraceAll(xs) + TraceAll(ys);
      }
    }
  }

  /** A child added last is drawn last (which is why a transparent part is
      added after everything it should show): unless the parent is a light,
      its calls follow all the others. */
  lemma AddedChildDrawnLast(s: Scene, c: Scene)
    requires !s.kind.LightNode?
    ensures Trace(Scene(s.kind, s.world, s.kids + [c])) == Trace(s) + Trace(c)
  {
    TraceAllConcat(s.kids, [c]);
    assert [c][..0] == [];
  }

  /** Which heap objects form a subtree, with their children in order.  A
      pass over the heap is given this skeleton; since it is a finite value,
      a subtree that matches it has no cycle. */
  datatype Tree = Tree(node: SGNode, kids: seq<Tree>)

  /** The nodes of a skeleton. */
  ghost function Nodes(tr: Tree): (ns: set<SGNode>)
    ensures tr.node in ns
    ensures forall i :: 0 <= i < |tr.kids| ==> Nodes(tr.kids[i]) <= ns
    decreases tr, 2
  {
    {tr.node} + Below(tr)
  }

  /** The nodes of a skeleton strictly below its root. */
  ghost function Below(tr: Tree): (ns: set<SGNode>)
    ensures forall i :: 0 <= i < |tr.kids| ==> Nodes(tr.kids[i]) <= ns
    decreases tr, 1
  {
    NodesOfFirst(tr, |tr.kids|)
  }

  /** The nodes of the first `k` children's subtrees. */
  ghost function NodesOfFirst(tr: Tree, k: nat): (ns: set<SGNode>)
    requires k <= |tr.kids|
    ensures forall i :: 0 <= i < k ==> Nodes(tr.kids[i]) <= ns
    decreases tr, 0, k
  {
    if k == 0 then {} else NodesOfFirst(tr, k - 1) + Nodes(tr.kids[k - 1])
  }

  /** A node that is in none of the children's subtrees is not below the root. */
  lemma {:induction false} NotInFirst(tr: Tree, n: SGNode, k: nat)
    requires k <= |tr.kids|
    requires forall i :: 0 <= i < k ==> n !in Nodes(tr.kids[i])
    ensures n !in NodesOfFirst(tr, k)
    decreases k
  {
    if k > 0 {
      NotInFirst(tr, n, k - 1);
    }
  }

  /** Every node of a skeleton is an allocated object, so a loop or a call
      that changes nothing outside its frame leaves the other nodes alone. */
  lemma {:induction false} NodesAllocated(tr: Tree)
    ensures forall n :: n in Nodes(tr) ==> allocated(n)
    decreases tr, 1
  {
    assert Nodes(tr) == {tr.node} + NodesOfFirst(tr, |tr.kids|);
    FirstAllocated(tr, |tr.kids|);
  }

  /** The nodes of the first `k` children's subtrees are allocated. */
  lemma {:induction false} FirstAllocated(tr: Tree, k: nat)
    requires k <= |tr.kids|
    ensures forall n :: n in NodesOfFirst(tr, k) ==> allocated(n)
    decreases tr, 0, k
  {
    if k > 0 {
      FirstAllocated(tr, k - 1);
      NodesAllocated(tr.kids[k - 1]);
    }
  }

  /** A subtree whose nodes kept their kinds and world transforms keeps
      its value. */
  twostate lemma AbsFramed(tr: Tree)
    requires forall n :: n in Nodes(tr) ==> old(allocated(n))
    requires forall n :: n in Nodes(tr) ==> n.kind == old(n.kind) && n.worldTransform == old(n.worldTransform)
    ensures Abs(tr) == old(Abs(tr))
  {
  }

  /** When only the nodes of child `i`'s subtree changed, every other
      child's subtree keeps its value. */
  twostate lemma SiblingsFramed(tr: Tree, new i: int)
    requires 0 <= i < |tr.kids|
    requires Distinct(tr)
    requires forall n :: n in Nodes(tr) ==> old(allocated(n))
    requires forall n :: n in Nodes(tr) && n !in Nodes(tr.kids[i]) ==>
      n.kind == old(n.kind) && n.worldTransform == old(n.worldTransform)
    ensures forall k :: 0 <= k < |tr.kids| && k != i ==> Abs(tr.kids[k]) == old(Abs(tr.kids[k]))
  {
    forall k | 0 <= k < |tr.kids| && k != i
      ensures Abs(tr.kids[k]) == old(Abs(tr.kids[k]))
    {
      assert Nodes(tr.kids[k]) !! Nodes(tr.kids[i]);
      AbsFramed(tr.kids[k]);
    }
  }

  /** The heap matches the skeleton: every node's child list holds exactly
      the skeleton's children, in order. */
  ghost predicate Shaped(tr: Tree)
    reads Nodes(tr)`children
    decreases tr
  {
    && |tr.node.children| == |tr.kids|
    && forall i :: 0 <= i < |tr.kids| ==> tr.node.children[i] == tr.kids[i].node && Shaped(tr.kids[i])
  }

  /** No node appears twice in the skeleton: the subtree is a tree, not a
      graph with shared nodes. */
  ghost predicate Distinct(tr: Tree)
    decreases tr
  {
    && (forall i :: 0 <= i < |tr.kids| ==> tr.node !in Nodes(tr.kids[i]) && Distinct(tr.kids[i]))
    && (forall i, j :: 0 <= i < j < |tr.kids| ==> Nodes(tr.kids[i]) !! Nodes(tr.kids[j]))
  }

  /** The current value of the subtree laid out by a skeleton. */
  ghost function Abs(tr: Tree): Scene
    reads Nodes(tr)`kind, Nodes(tr)`worldTransform
    decreases tr, 1
  {
    Scene(tr.node.kind, tr.node.worldTransform, AbsKids(tr, |tr.kids|))
  }

  /** The values of the first `n` children of a skeleton's root. */
  ghost function AbsKids(tr: Tree, n: nat): (ss: seq<Scene>)
    requires n <= |tr.kids|
    reads Nodes(tr)`kind, Nodes(tr)`worldTransform
    ensures |ss| == n
    ensures forall i :: 0 <= i < n ==> ss[i] == Abs(tr.kids[i])
    decreases tr, 0, n
  {
    if n == 0 then [] else AbsKids(tr, n - 1) + [Abs(tr.kids[n - 1])]
  }

  class SGNode {
    const name: string
    var kind: NodeKind
    var children: seq<SGNode>
    var worldTransform: Mat

    /** `new SGNode(name)`, and `new NameNode(name)`: no children and the
        identity as world transform. */
    constructor (name: string)
      ensures this.name == name && kind == Group
      ensures children == [] && worldTransform == Identity()
    {
      this.name := name;
      kind := Group;
      children := [];
      worldTransform := Identity();
    }

    /** `new TransformNode(name, t)`: stores a copy of `t`, so later changes
        to the object `t` do not reach the node. */
    constructor Transform(name: string, t: Mat4)
      requires t.Valid()
      ensures this.name == name && kind == TransformNode(t.Value())
      ensures children == [] && worldTransform == Identity()
    {
      this.name := name;
      kind := TransformNode(t.Value());
      children := [];
      worldTransform := Identity();
    }

    /** `new ModelNode(name, m)`: keeps the model reference. */
    constructor Model(name: string, m: ModelRef)
      ensures this.name == name && kind == ModelNode(m)
      ensures children == [] && worldTransform == Identity()
    {
      this.name := name;
      kind := ModelNode(m);
      children := [];
      worldTransform := Identity();
    }

    /** `new LightNode(name, l)`: keeps the light reference. */
    constructor Light(name: string, l: LightRef)
      ensures this.name == name && kind == LightNode(l)
      ensures children == [] && worldTransform == Identity()
    {
      this.name := name;
      kind := LightNode(l);
      children := [];
      worldTransform := Identity();
    }

    /** `addChild(child)`: appends `child` at the end of the child list.
        There is no check for a duplicate child or for a cycle. */
    method AddChild(child: SGNode)
      modifies this`children
      ensures children == old(children) + [child]
    {
      children := children + [child];
    }

    /** `addAllChildren(name, transform, model)`: this node gets `name` as
        its last child, then `name` gets `transform` and `transform` gets
        `model`, building the chain name -> transform -> model.  The three
        arguments are a NameNode, a TransformNode and a ModelNode, so they
        are three different objects; this node may be any one of them. */
    method AddAllChildren(name: SGNode, transform: SGNode, model: SGNode)
      requires name.kind == Group && transform.kind.TransformNode? && model.kind.ModelNode?
      modifies this`children, name`children, transform`children
      ensures children == old(children) + [name]
                          + (if this == name then [transform] else [])
                          + (if this == transform then [model] else [])
      ensures this != name ==> name.children == old(name.children) + [transform]
      ensures this != transform ==> transform.children == old(transform.children) + [model]
      ensures this != model ==> model.children == old(model.children)
    {
      AddChild(name);
      name.AddChild(transform);
      transform.AddChild(model);
    }

    /** `getTransform()` of a TransformNode: its local matrix. */
    method GetTransform() returns (m: Mat)
      requires kind.TransformNode?
      ensures m == kind.local
    {
      m := kind.local;
    }

    /** `setTransform(m)` of a TransformNode: the local matrix becomes a
        copy of `m`; nothing else changes. */
    method SetTransform(m: Mat4)
      requires kind.TransformNode? && m.Valid()
      modifies this`kind
      ensures kind == TransformNode(m.Value())
    {
      kind := TransformNode(m.Value());
    }

    /** `update(t)`: this node's world transform becomes `t` and each child,
        in order, is updated with `t`, or with `t x transform` when this is
        a TransformNode.  Only world transforms change. */
    method UpdateFrom(t: Mat, ghost tr: Tree)
      requires tr.node == this && Shaped(tr) && Distinct(tr)
      modifies Nodes(tr)`worldTransform
      ensures Abs(tr) == Propagate(old(Abs(tr)), t)
      decreases tr, 1
    {
      ghost var before := Abs(tr);
      NodesAllocated(tr);
      label Entry:
      worldTransform := t;
      forall k | 0 <= k < |tr.kids|
        ensures Abs(tr.kids[k]) == before.kids[k]
      {
        AbsFramed@Entry(tr.kids[k]);
      }
      var frame := t;
      if kind.TransformNode? {
        frame := Product(worldTransform, kind.local);
      }
      assert frame == ChildFrame(before.kind, t);
      NotInFirst(tr, this, |tr.kids|);
      UpdateChildren(frame, tr);
      assert AbsKids(tr, |tr.kids|) == Propagate(before, t).kids;
    }

    /** The loop of `update(t)`: each child, in order, is updated with
        `frame`; this node itself does not change. */
    method UpdateChildren(frame: Mat, ghost tr: Tree)
      requires tr.node == this && Shaped(tr) && Distinct(tr)
      modifies Below(tr)`worldTransform
      ensures forall k :: 0 <= k < |tr.kids| ==> Abs(tr.kids[k]) == Propagate(old(Abs(tr.kids[k])), frame)
      decreases tr, 0
    {
      ghost var before := AbsKids(tr, |tr.kids|);
      NodesAllocated(tr);
      var i := 0;
      while i < |children|
        invariant 0 <= i <= |children| == |tr.kids| == |before|
        invariant Shaped(tr)
        invariant forall k :: 0 <= k < i ==> Abs(tr.kids[k]) == Propagate(before[k], frame)
        invariant forall k :: i <= k < |tr.kids| ==> Abs(tr.kids[k]) == before[k]
      {
        NodesAllocated(tr);
        label L:
        children[i].UpdateFrom(frame, tr.kids[i]);
        SiblingsFramed@L(tr, i);
        i := i + 1;
      }
    }

    /** `update()`: re-propagates this node's own current world transform. */
    method Update(ghost tr: Tree)
      requires tr.node == this && Shaped(tr) && Distinct(tr)
      modifies Nodes(tr)`worldTransform
      ensures Abs(tr) == Propagate(old(Abs(tr)), old(worldTransform))
    {
      UpdateFrom(worldTransform, tr);
    }

    /** `draw(gl)`, dispatched on the node's class: returns the render
        calls it makes, in order, and changes nothing in the tree.  A plain
        node (SGNode, NameNode, TransformNode) only draws its children. */
    method Draw(ghost tr: Tree) returns (calls: seq<RenderCall>)
      requires tr.node == this && Shaped(tr)
      ensures calls == Trace(Abs(tr))
      decreases tr, 2
    {
      match kind
      case LightNode(_) =>
        calls := DrawLight(tr);
      case ModelNode(_) =>
        calls := DrawModel(tr);
      case _ =>
        calls := DrawChildren(tr);
    }

    /** `draw(gl)` of a ModelNode: renders its model with its world
        transform, then draws its children. */
    method DrawModel(ghost tr: Tree) returns (calls: seq<RenderCall>)
      requires tr.node == this && Shaped(tr) && kind.ModelNode?
      ensures calls == Trace(Abs(tr))
      ensures calls[0] == RenderModel(kind.model, worldTransform)
      decreases tr, 1
    {
      var rest := DrawChildren(tr);
      calls := [RenderModel(kind.model, worldTransform)] + rest;
    }

    /** `draw(gl)` of a LightNode: renders its light with its world
        transform and does not visit its children. */
    method DrawLight(ghost tr: Tree) returns (calls: seq<RenderCall>)
      requires tr.node == this && Shaped(tr) && kind.LightNode?
      ensures calls == Trace(Abs(tr))
      ensures calls == [RenderLight(kind.light, worldTransform)]
    {
      calls := [RenderLight(kind.light, worldTransform)];
    }

    /** The loop of `draw`: the children's render calls, child by child. */
    method DrawChildren(ghost tr: Tree) returns (calls: seq<RenderCall>)
      requires tr.node == this && Shaped(tr)
      ensures calls == TraceAll(AbsKids(tr, |tr.kids|))
      decreases tr, 0
    {
      ghost var kids := AbsKids(tr, |tr.kids|);
      NodesAllocated(tr);
      calls := [];
      var i := 0;
      while i < |children|
        invariant 0 <= i <= |children| == |tr.kids| == |kids|
        invariant Shaped(tr)
        invariant AbsKids(tr, |tr.kids|) == kids
        invariant calls == TraceAll(kids[..i])
      {
        NodesAllocated(tr);
        var more := children[i].Draw(tr.kids[i]);
        assert more == Trace(kids[i]) by {
          assert AbsKids(tr, |tr.kids|) == kids;
        }
        calls := calls + more;
        TraceAllSnoc(kids, i);
        i := i + 1;
      }
      assert kids[..i] == kids;
    }
  }
}
