/** The part of Python's abstract syntax tree (module `ast`) that the code modifier
    reads and rewrites, with node addressing by child-index paths and the traversal
    order of `ast.walk`. */
module PyAst {
  import opened Base

  /** The value held by an `ast.Constant`. */
  datatype Literal = IntLit(i: int) | FloatLit(r: real) | StrLit(s: string) | BoolLit(b: bool) | NoneLit

  /** A syntax node. `FunctionDef` keeps the fields `ast.walk` visits in their declared
      order: the `arguments` node, the body, the decorator list and the optional return
      annotation (zero or one node). Every other statement or expression is `Other`,
      which keeps its children in field order. */
  datatype Node =
    | Module(body: seq<Node>)
    | FunctionDef(name: string, arguments: Node, body: seq<Node>, decorators: seq<Node>, annotation: seq<Node>)
    | Call(func: Node, args: seq<Node>, keywords: seq<Node>)
    | Keyword(arg: Option<string>, value: Node)
    | Attribute(value: Node, attr: string)
    | Name(id: string)
    | Constant(literal: Literal)
    | Other(tag: string, children: seq<Node>)

  /** What a node holds besides its children: two nodes with the same head and the same
      children are the same node. */
  datatype Head =
    | HModule
    | HFunctionDef(name: string, bodyLength: nat, decoratorCount: nat)
    | HCall(argCount: nat)
    | HKeyword(arg: Option<string>)
    | HAttribute(attr: string)
    | HName(id: string)
    | HConstant(literal: Literal)
    | HOther(tag: string)

  function HeadOf(n: Node): Head
  {
    match n
    case Module(_) => HModule
    case FunctionDef(name, _, body, decs, _) => HFunctionDef(name, |body|, |decs|)
    case Call(_, args, _) => HCall(|args|)
    case Keyword(arg, _) => HKeyword(arg)
    case Attribute(_, attr) => HAttribute(attr)
    case Name(id) => HName(id)
    case Constant(lit) => HConstant(lit)
    case Other(tag, _) => HOther(tag)
  }

  /** `ast.iter_child_nodes`: the direct children, in field order. */
  function Children(n: Node): (cs: seq<Node>)
    ensures forall c :: c in cs ==> c < n
  {
    match n
    case Module(body) => body
    case FunctionDef(_, a, body, decs, rets) => [a] + body + decs + rets
    case Call(f, args, kws) => [f] + args + kws
    case Keyword(_, v) => [v]
    case Attribute(v, _) => [v]
    case Name(_) => []
    case Constant(_) => []
    case Other(_, cs) => cs
  }

  lemma SplitFour(cs: seq<Node>, a: nat, b: nat)
    requires 1 <= a <= b <= |cs|
    ensures [cs[0]] + cs[1..a] + cs[a..b] + cs[b..] == cs
  {
  }

  lemma SplitThree(cs: seq<Node>, a: nat)
    requires 1 <= a <= |cs|
    ensures [cs[0]] + cs[1..a] + cs[a..] == cs
  {
  }

  /** The node `n` with its children replaced, position for position, by `cs`. */
  function WithChildren(n: Node, cs: seq<Node>): (r: Node)
    requires |cs| == |Children(n)|
    ensures Children(r) == cs && HeadOf(r) == HeadOf(n)
  {
    match n
    case Module(_) => Module(cs)
    case FunctionDef(name, _, body, decs, _) =>
      SplitFour(cs, 1 + |body|, 1 + |body| + |decs|);
      FunctionDef(name, cs[0], cs[1..1 + |body|], cs[1 + |body|..1 + |body| + |decs|], cs[1 + |body| + |decs|..])
    case Call(_, args, _) =>
      SplitThree(cs, 1 + |args|);
      Call(cs[0], cs[1..1 + |args|], cs[1 + |args|..])
    case Keyword(arg, _) => Keyword(arg, cs[0])
    case Attribute(_, attr) => Attribute(cs[0], attr)
    case Name(_) => n
    case Constant(_) => n
    case Other(tag, _) => Other(tag, cs)
  }

  /** A node is determined by its head and its children. */
  lemma HeadAndChildrenDetermine(a: Node, b: Node)
    requires HeadOf(a) == HeadOf(b) && Children(a) == Children(b)
    ensures a == b
  {
    match a
    case FunctionDef(_, _, body, decs, rets) =>
      var cs := Children(a);
      assert a.arguments == cs[0] == b.arguments;
      assert a.body == cs[1..1 + |body|] == b.body;
      assert a.decorators == cs[1 + |body|..1 + |body| + |decs|] == b.decorators;
      assert a.annotation == cs[1 + |body| + |decs|..] == b.annotation;
    case Call(_, args, _) =>
      var cs := Children(a);
      assert a.func == cs[0] == b.func;
      assert a.args == cs[1..1 + |args|] == b.args;
      assert a.keywords == cs[1 + |args|..] == b.keywords;
    case _ =>
  }

  /** Rebuilding a node from its own children gives the node back. */
  lemma WithOwnChildren(n: Node)
    ensures WithChildren(n, Children(n)) == n
  {
    HeadAndChildrenDetermine(WithChildren(n, Children(n)), n);
  }

  // ---------------------------------------------------------------------------
  // Addressing nodes by paths of child indices

  type Path = seq<nat>

  predicate ValidPath(n: Node, p: Path)
    decreases |p|
  {
    p == [] || (p[0] < |Children(n)| && ValidPath(Children(n)[p[0]], p[1..]))
  }

  /** The node found by following `p` from `n`. */
  function At(n: Node, p: Path): Node
    requires ValidPath(n, p)
    decreases |p|
  {
    if p == [] then n else At(Children(n)[p[0]], p[1..])
  }

  /** The tree `n` with the node at `p` replaced by `x`; everything off the path is shared. */
  function ReplaceAt(n: Node, p: Path, x: Node): Node
    requires ValidPath(n, p)
    decreases |p|
  {
    if p == [] then x
    else
      var cs := Children(n);
      WithChildren(n, cs[p[0] := ReplaceAt(cs[p[0]], p[1..], x)])
  }

  lemma {:induction false} AtAppend(n: Node, p: Path, i: nat)
    requires ValidPath(n, p) && i < |Children(At(n, p))|
    ensures ValidPath(n, p + [i]) && At(n, p + [i]) == Children(At(n, p))[i]
    decreases |p|
  {
    if p != [] {
      assert (p + [i])[1..] == p[1..] + [i];
      AtAppend(Children(n)[p[0]], p[1..], i);
    }
  }

  lemma {:induction false} AtConcat(n: Node, p: Path, q: Path)
    requires ValidPath(n, p) && ValidPath(At(n, p), q)
    ensures ValidPath(n, p + q) && At(n, p + q) == At(At(n, p), q)
    decreases |p|
  {
    if p == [] {
      assert p + q == q;
    } else {
      assert (p + q)[1..] == p[1..] + q;
      AtConcat(Children(n)[p[0]], p[1..], q);
    }
  }

  /** After the replacement, `p` leads to the new node. */
  lemma {:induction false} ReplaceAtHit(n: Node, p: Path, x: Node)
    requires ValidPath(n, p)
    ensures ValidPath(ReplaceAt(n, p, x), p) && At(ReplaceAt(n, p, x), p) == x
    decreases |p|
  {
    if p != [] {
      ReplaceAtHit(Children(n)[p[0]], p[1..], x);
    }
  }

  /** Neither path is a prefix of the other: the two nodes lie in separate subtrees. */
  predicate Apart(p: Path, q: Path)
  {
    !(p <= q) && !(q <= p)
  }

  lemma PrefixTail(p: Path, q: Path)
    requires p != [] && q != [] && p[0] == q[0]
    ensures p <= q <==> p[1..] <= q[1..]
  {
    assert p == [p[0]] + p[1..] && q == [q[0]] + q[1..];
  }

  /** Every node apart from the replaced one keeps its whole subtree. */
  lemma {:induction false} ReplaceAtApart(n: Node, p: Path, x: Node, q: Path)
    requires ValidPath(n, p) && ValidPath(n, q) && Apart(p, q)
    ensures ValidPath(ReplaceAt(n, p, x), q) && At(ReplaceAt(n, p, x), q) == At(n, q)
    decreases |p|
  {
    var cs := Children(n);
    var r := ReplaceAt(n, p, x);
    assert Children(r) == cs[p[0] := ReplaceAt(cs[p[0]], p[1..], x)];
    if q[0] == p[0] {
      PrefixTail(p, q);
      PrefixTail(q, p);
      ReplaceAtApart(cs[p[0]], p[1..], x, q[1..]);
    }
  }

  /** Every node on the way to the replaced one (a proper prefix of `p`) keeps its own head
      and its number of children; only one child on the path changes. */
  lemma {:induction false} ReplaceAtAncestor(n: Node, p: Path, x: Node, q: Path)
    requires ValidPath(n, p) && q < p
    ensures ValidPath(n, q) && ValidPath(ReplaceAt(n, p, x), q)
    ensures HeadOf(At(ReplaceAt(n, p, x), q)) == HeadOf(At(n, q))
    ensures |Children(At(ReplaceAt(n, p, x), q))| == |Children(At(n, q))|
    decreases |p|
  {
    var cs := Children(n);
    if q != [] {
      assert q[0] == p[0];
      assert q[1..] < p[1..];
      ReplaceAtAncestor(cs[p[0]], p[1..], x, q[1..]);
    }
  }

  /** The whole frame of one replacement: `x` sits at `p`, every node apart from `p` is
      unchanged, and every node above `p` keeps its head. */
  lemma ReplaceAtFrame(n: Node, p: Path, x: Node)
    requires ValidPath(n, p)
    ensures ValidPath(ReplaceAt(n, p, x), p) && At(ReplaceAt(n, p, x), p) == x
    ensures forall q :: ValidPath(n, q) && Apart(p, q) ==>
      ValidPath(ReplaceAt(n, p, x), q) && At(ReplaceAt(n, p, x), q) == At(n, q)
    ensures forall q :: q < p ==>
      ValidPath(n, q) && ValidPath(ReplaceAt(n, p, x), q) && HeadOf(At(ReplaceAt(n, p, x), q)) == HeadOf(At(n, q))
  {
    ReplaceAtHit(n, p, x);
    forall q | ValidPath(n, q) && Apart(p, q)
      ensures ValidPath(ReplaceAt(n, p, x), q) && At(ReplaceAt(n, p, x), q) == At(n, q)
    {
      ReplaceAtApart(n, p, x, q);
    }
    forall q | q < p
      ensures ValidPath(n, q) && ValidPath(ReplaceAt(n, p, x), q) && HeadOf(At(ReplaceAt(n, p, x), q)) == HeadOf(At(n, q))
    {
      ReplaceAtAncestor(n, p, x, q);
    }
  }

  // ---------------------------------------------------------------------------
  // `ast.walk`: breadth-first, from a queue whose head is removed, whose tail is
  // extended with that node's children, and which yields the removed node.

  /** A node visited by the walk, together with its path from the walk's root. */
  datatype Entry = Entry(path: Path, node: Node)

  ghost function Size(n: Node): nat
  {
    1 + SizeOf(Children(n), n)
  }

  ghost function SizeOf(cs: seq<Node>, parent: Node): nat
    requires forall c :: c in cs ==> c < parent
    decreases parent, |cs|
  {
    if cs == [] then 0
    else
      assert cs[0] in cs;
      assert forall c :: c in cs[1..] ==> c in cs;
      Size(cs[0]) + SizeOf(cs[1..], parent)
  }

  ghost function TotalSize(ns: seq<Node>): nat
  {
    if ns == [] then 0 else Size(ns[0]) + TotalSize(ns[1..])
  }

  lemma {:induction false} SizeOfIsTotal(cs: seq<Node>, parent: Node)
    requires forall c :: c in cs ==> c < parent
    ensures SizeOf(cs, parent) == TotalSize(cs)
    decreases |cs|
  {
    if cs != [] {
      assert forall c :: c in cs[1..] ==> c in cs;
      SizeOfIsTotal(cs[1..], parent);
    }
  }

  lemma {:induction false} TotalSizeAppend(a: seq<Node>, b: seq<Node>)
    ensures TotalSize(a + b) == TotalSize(a) + TotalSize(b)
    decreases |a|
  {
    if a != [] {
      var ab := a + b;
      assert ab != [] && ab[0] == a[0] && ab[1..] == a[1..] + b;
      assert TotalSize(ab) == Size(a[0]) + TotalSize(a[1..] + b);
      TotalSizeAppend(a[1..], b);
    } else {
      assert a + b == b;
    }
  }

  function NodesOf(q: seq<Entry>): (ns: seq<Node>)
    ensures |ns| == |q| && forall i :: 0 <= i < |q| ==> ns[i] == q[i].node
  {
    seq(|q|, i requires 0 <= i < |q| => q[i].node)
  }

  /** The entries `ast.walk` appends to its queue when it removes `e`. */
  function Kids(e: Entry): (ks: seq<Entry>)
    ensures |ks| == |Children(e.node)|
    ensures forall i :: 0 <= i < |ks| ==> ks[i] == Entry(e.path + [i], Children(e.node)[i])
  {
    seq(|Children(e.node)|, i requires 0 <= i < |Children(e.node)| => Entry(e.path + [i], Children(e.node)[i]))
  }

  lemma QueueShrinks(queue: seq<Entry>)
    requires queue != []
    ensures TotalSize(NodesOf(queue[1..] + Kids(queue[0]))) < TotalSize(NodesOf(queue))
  {
    var n := queue[0].node;
    assert NodesOf(queue[1..] + Kids(queue[0])) == NodesOf(queue[1..]) + Children(n);
    assert NodesOf(queue) == [n] + NodesOf(queue[1..]);
    TotalSizeAppend(NodesOf(queue[1..]), Children(n));
    SizeOfIsTotal(Children(n), n);
  }

  function WalkQueue(queue: seq<Entry>): seq<Entry>
    decreases TotalSize(NodesOf(queue))
  {
    if queue == [] then []
    else
      QueueShrinks(queue);
      [queue[0]] + WalkQueue(queue[1..] + Kids(queue[0]))
  }

  /** `ast.walk(root)`, each visited node paired with its path from `root`. */
  function Walk(root: Node): (w: seq<Entry>)
    ensures |w| > 0 && w[0] == Entry([], root)
  {
    WalkQueue([Entry([], root)])
  }

  /** Every entry of the walk names a real node of the tree by its path. */
  predicate Located(root: Node, e: Entry)
  {
    ValidPath(root, e.path) && At(root, e.path) == e.node
  }

  lemma {:induction false} WalkQueueLocated(root: Node, queue: seq<Entry>)
    requires forall e :: e in queue ==> Located(root, e)
    ensures forall e :: e in WalkQueue(queue) ==> Located(root, e)
    decreases TotalSize(NodesOf(queue))
  {
    if queue != [] {
      var e0 := queue[0];
      var next := queue[1..] + Kids(e0);
      assert e0 in queue;
      forall k | k in Kids(e0)
        ensures Located(root, k)
      {
        var i :| 0 <= i < |Kids(e0)| && Kids(e0)[i] == k;
        AtAppend(root, e0.path, i);
      }
      assert forall e :: e in queue[1..] ==> e in queue;
      QueueShrinks(queue);
      WalkQueueLocated(root, next);
    }
  }

  lemma WalkLocated(root: Node)
    ensures forall e :: e in Walk(root) ==> Located(root, e)
  {
    WalkQueueLocated(root, [Entry([], root)]);
  }

  lemma WalkQueueUnfold(queue: seq<Entry>)
    requires queue != []
    ensures WalkQueue(queue) == [queue[0]] + WalkQueue(queue[1..] + Kids(queue[0]))
  {
  }

  /** What the walk of the queue left after removing its head yields, the walk of the
      queue yields too. */
  lemma InRestOfWalk(queue: seq<Entry>, x: Entry)
    requires queue != [] && x in WalkQueue(queue[1..] + Kids(queue[0]))
    ensures x in WalkQueue(queue)
  {
    WalkQueueUnfold(queue);
  }

  lemma {:induction false} WalkQueueComplete(queue: seq<Entry>, k: nat, r: Path)
    requires k < |queue| && ValidPath(queue[k].node, r)
    ensures Entry(queue[k].path + r, At(queue[k].node, r)) in WalkQueue(queue)
    decreases TotalSize(NodesOf(queue)), 1
  {
    if k == 0 && r == [] {
      WalkQueueUnfold(queue);
      assert queue[0].path + r == queue[0].path && At(queue[0].node, r) == queue[0].node;
      assert WalkQueue(queue)[0] == queue[0];
    } else if k == 0 {
      WalkQueueCompleteBelowHead(queue, r);
    } else {
      WalkQueueCompleteBehindHead(queue, k, r);
    }
  }

  /** A node below the head of the queue is reached through the child entry that removing
      the head appends. */
  lemma {:induction false} WalkQueueCompleteBelowHead(queue: seq<Entry>, r: Path)
    requires queue != [] && r != [] && ValidPath(queue[0].node, r)
    ensures Entry(queue[0].path + r, At(queue[0].node, r)) in WalkQueue(queue)
    decreases TotalSize(NodesOf(queue)), 0
  {
    var next := queue[1..] + Kids(queue[0]);
    var idx := |queue| - 1 + r[0];
    QueueShrinks(queue);
    KidStep(queue, r);
    WalkQueueComplete(next, idx, r[1..]);
    InRestOfWalk(queue, Entry(next[idx].path + r[1..], At(next[idx].node, r[1..])));
  }

  /** A node below a later entry of the queue is reached once the head is removed. */
  lemma {:induction false} WalkQueueCompleteBehindHead(queue: seq<Entry>, k: nat, r: Path)
    requires 0 < k < |queue| && ValidPath(queue[k].node, r)
    ensures Entry(queue[k].path + r, At(queue[k].node, r)) in WalkQueue(queue)
    decreases TotalSize(NodesOf(queue)), 0
  {
    var next := queue[1..] + Kids(queue[0]);
    QueueShrinks(queue);
    assert next[k - 1] == queue[k];
    WalkQueueComplete(next, k - 1, r);
    InRestOfWalk(queue, Entry(queue[k].path + r, At(queue[k].node, r)));
  }

  /** Following `r` from the head of the queue is following `r[1..]` from the child
      entry that removing the head appends. */
  lemma KidStep(queue: seq<Entry>, r: Path)
    requires queue != [] && r != [] && ValidPath(queue[0].node, r)
    ensures var next := queue[1..] + Kids(queue[0]);
      var idx := |queue| - 1 + r[0];
      idx < |next| && ValidPath(next[idx].node, r[1..])
      && next[idx].path + r[1..] == queue[0].path + r
      && At(next[idx].node, r[1..]) == At(queue[0].node, r)
  {
    var e0 := queue[0];
    var next := queue[1..] + Kids(e0);
    var idx := |queue| - 1 + r[0];
    assert next[idx] == Kids(e0)[r[0]];
    assert e0.path + [r[0]] + r[1..] == e0.path + r;
  }

  /** `ast.walk` reaches every node of the tree. */
  lemma WalkComplete(root: Node, p: Path)
    requires ValidPath(root, p)
    ensures Entry(p, At(root, p)) in Walk(root)
  {
    WalkQueueComplete([Entry([], root)], 0, p);
    assert [] + p == p;
  }
}
