/** The one-pass tree builder of task_tree (cmd/smind/mcp_tree_tools.go). */
module TaskTree {
  import opened Common

  /** A flat node; `payload` stands for the fields that ride along. */
  datatype Node = Node(id: int, parent: Option<int>, payload: int)

  datatype Tree = Tree(node: Node, children: seq<Tree>)

  type Forest = seq<Tree>

  function Leaf(n: Node): Tree { Tree(n, []) }

  // ---------------------------------------------------------------- forests

  function Ids(f: Forest): set<int>
    decreases f
  {
    if f == [] then {} else {f[0].node.id} + Ids(f[0].children) + Ids(f[1..])
  }

  function Preorder(f: Forest): seq<Node>
    decreases f
  {
    if f == [] then [] else [f[0].node] + Preorder(f[0].children) + Preorder(f[1..])
  }

  /** Every id names one node. */
  predicate DistinctForest(f: Forest)
    decreases f
  {
    f == [] ||
    (&& DistinctForest(f[0].children) && DistinctForest(f[1..])
     && f[0].node.id !in Ids(f[0].children) && f[0].node.id !in Ids(f[1..])
     && Ids(f[0].children) !! Ids(f[1..]))
  }

  /** Every node below the roots names the node above it as its parent. */
  predicate Linked(f: Forest)
    decreases f
  {
    f == [] || (Linked(f[0].children) && ChildrenOf(f[0].children, f[0].node.id) && Linked(f[1..]))
  }

  predicate ChildrenOf(f: Forest, pid: int) { forall i :: 0 <= i < |f| ==> f[i].node.parent == Some(pid) }

  /** No root names a parent among `ids`. */
  predicate RootsOutside(f: Forest, ids: set<int>) {
    forall i :: 0 <= i < |f| ==> f[i].node.parent.Some? ==> f[i].node.parent.value !in ids
  }

  /** The parent-child pairs of a forest. */
  function Edges(f: Forest): set<(int, int)>
    decreases f
  {
    if f == [] then {}
    else Links(f[0].node.id, f[0].children) + Edges(f[0].children) + Edges(f[1..])
  }

  function Links(pid: int, f: Forest): set<(int, int)> {
    if f == [] then {} else {(pid, f[0].node.id)} + Links(pid, f[1..])
  }

  /** The root nodes, in order. */
  function Roots(f: Forest): seq<Node> {
    if f == [] then [] else [f[0].node] + Roots(f[1..])
  }

  /** Append `ts` to the children of the node with id `pid`. */
  function Graft(f: Forest, pid: int, ts: Forest): Forest
    decreases f
  {
    if f == [] then []
    else
      var cs := Graft(f[0].children, pid, ts);
      [Tree(f[0].node, if f[0].node.id == pid then cs + ts else cs)] + Graft(f[1..], pid, ts)
  }

  /** The simple form of one pass of the loop: under its parent if that is there, else a root. */
  function Insert(f: Forest, n: Node): Forest {
    if n.parent.Some? && n.parent.value in Ids(f) then Graft(f, n.parent.value, [Leaf(n)]) else f + [Leaf(n)]
  }

  function NestFrom(f: Forest, nodes: seq<Node>): Forest
    decreases |nodes|
  {
    if nodes == [] then f else NestFrom(Insert(f, nodes[0]), nodes[1..])
  }

  function Nest(nodes: seq<Node>): Forest { NestFrom([], nodes) }

  predicate DistinctNodes(nodes: seq<Node>) {
    forall i, j :: 0 <= i < j < |nodes| ==> nodes[i].id != nodes[j].id
  }

  predicate NoSelfParent(nodes: seq<Node>) {
    forall i :: 0 <= i < |nodes| ==> nodes[i].parent != Some(nodes[i].id)
  }

  // ---------------------------------------------------------------- algebra of Graft

  lemma TailAppend<T>(a: seq<T>, b: seq<T>)
    requires a != []
    ensures a + b != [] && (a + b)[0] == a[0] && (a + b)[1..] == a[1..] + b
  {}

  lemma AppendAssociates<T>(a: seq<T>, b: seq<T>, c: seq<T>)
    ensures a + b + c == a + (b + c)
  {}

  lemma MoveHead<T>(a: seq<T>, b: seq<T>)
    requires b != []
    ensures a + [b[0]] + b[1..] == a + b
  {}

  lemma {:induction false} IdsAppend(a: Forest, b: Forest)
    ensures Ids(a + b) == Ids(a) + Ids(b)
  {
    if a == [] {
      assert a + b == b;
    } else {
      TailAppend(a, b);
      IdsAppend(a[1..], b);
    }
  }

  lemma {:induction false} GraftAbsent(f: Forest, pid: int, ts: Forest)
    requires pid !in Ids(f)
    ensures Graft(f, pid, ts) == f
    decreases f
  {
    if f != [] {
      GraftAbsent(f[0].children, pid, ts);
      GraftAbsent(f[1..], pid, ts);
    }
  }

  lemma {:induction false} GraftIds(f: Forest, pid: int, ts: Forest)
    ensures Ids(Graft(f, pid, ts)) == if pid in Ids(f) then Ids(f) + Ids(ts) else Ids(f)
    decreases f
  {
    if f != [] {
      GraftIds(f[0].children, pid, ts);
      GraftIds(f[1..], pid, ts);
      IdsAppend(Graft(f[0].children, pid, ts), ts);
    }
  }

  lemma {:induction false} GraftAppend(a: Forest, b: Forest, pid: int, ts: Forest)
    ensures Graft(a + b, pid, ts) == Graft(a, pid, ts) + Graft(b, pid, ts)
  {
    if a == [] {
      assert a + b == b;
    } else {
      TailAppend(a, b);
      GraftAppend(a[1..], b, pid, ts);
    }
  }

  /** The same at a node that is the place itself. */
  lemma GraftTwiceHere(cs: Forest, pid: int, ts: Forest, us: Forest)
    requires pid !in Ids(ts) && Graft(Graft(cs, pid, ts), pid, us) == Graft(cs, pid, ts + us)
    ensures Graft(Graft(cs, pid, ts) + ts, pid, us) + us == Graft(cs, pid, ts + us) + (ts + us)
  {
    var twice := Graft(cs, pid, ts + us);
    assert Graft(Graft(cs, pid, ts) + ts, pid, us) == twice + ts by {
      GraftAppend(Graft(cs, pid, ts), ts, pid, us);
      GraftAbsent(ts, pid, us);
    }
    AppendAssociates(twice, ts, us);
  }

  lemma GraftHead(f: Forest, pid: int, ts: Forest)
    requires f != []
    ensures var (f', cs) := (Graft(f, pid, ts), Graft(f[0].children, pid, ts));
      && f' != [] && f'[1..] == Graft(f[1..], pid, ts)
      && f'[0] == Tree(f[0].node, if f[0].node.id == pid then cs + ts else cs)
  {}

  /** Two grafts in one place are one graft, when the place is not inside what was grafted. */
  lemma {:induction false} GraftTwice(f: Forest, pid: int, ts: Forest, us: Forest)
    requires pid !in Ids(ts)
    ensures Graft(Graft(f, pid, ts), pid, us) == Graft(f, pid, ts + us)
    decreases f
  {
    if f != [] {
      GraftTwice(f[0].children, pid, ts, us);
      GraftTwice(f[1..], pid, ts, us);
      GraftTwiceHere(f[0].children, pid, ts, us);
      GraftHead(f, pid, ts);
      GraftHead(Graft(f, pid, ts), pid, us);
      GraftHead(f, pid, ts + us);
      var a, b := Graft(Graft(f, pid, ts), pid, us), Graft(f, pid, ts + us);
      assert a == [a[0]] + a[1..] && b == [b[0]] + b[1..];
    }
  }

  /** Grafting a leaf and then its children is grafting the whole tree. */
  lemma {:induction false} GraftGrows(f: Forest, pid: int, n: Node, kids: Forest)
    requires n.id !in Ids(f)
    ensures Graft(Graft(f, pid, [Leaf(n)]), n.id, kids) == Graft(f, pid, [Tree(n, kids)])
    decreases f
  {
    if f != [] {
      var cs := Graft(f[0].children, pid, [Leaf(n)]);
      GraftGrows(f[0].children, pid, n, kids);
      GraftGrows(f[1..], pid, n, kids);
      GraftAppend(cs, [Leaf(n)], n.id, kids);
      GraftLeaf(n, kids);
    }
  }

  lemma GraftLeaf(n: Node, kids: Forest)
    ensures Graft([Leaf(n)], n.id, kids) == [Tree(n, kids)]
  {
    assert Graft([], n.id, kids) == [];
    assert [] + kids == kids;
  }

  lemma RootGrows(f: Forest, n: Node, kids: Forest)
    requires n.id !in Ids(f)
    ensures Graft(f + [Leaf(n)], n.id, kids) == f + [Tree(n, kids)]
  {
    GraftAppend(f, [Leaf(n)], n.id, kids);
    GraftAbsent(f, n.id, kids);
    GraftLeaf(n, kids);
  }

  lemma SingleIds(t: Tree)
    ensures Ids([t]) == {t.node.id} + Ids(t.children)
  {
    assert [t][1..] == [];
  }

  lemma {:induction false} NestAppend(f: Forest, a: seq<Node>, b: seq<Node>)
    ensures NestFrom(f, a + b) == NestFrom(NestFrom(f, a), b)
    decreases |a|
  {
    if a == [] {
      assert a + b == b;
    } else {
      TailAppend(a, b);
      NestAppend(Insert(f, a[0]), a[1..], b);
    }
  }

  lemma NestTreeFirst(f: Forest, n: Node, kids: seq<Node>, rest: seq<Node>)
    ensures NestFrom(f, [n] + kids + rest) == NestFrom(NestFrom(Insert(f, n), kids), rest)
  {
    assert [n] + kids + rest == [n] + (kids + rest);
    assert ([n] + (kids + rest))[1..] == kids + rest;
    NestAppend(Insert(f, n), kids, rest);
  }

  // ---------------------------------------------------------------- nesting undoes flattening

  /** The pre-order list of some children of `pid` nests to exactly those children. */
  lemma {:induction false} NestChildren(f: Forest, pid: int, cs: Forest)
    requires pid in Ids(f) && Ids(f) !! Ids(cs)
    requires DistinctForest(cs) && Linked(cs) && ChildrenOf(cs, pid)
    ensures NestFrom(f, Preorder(cs)) == Graft(f, pid, cs)
    decreases cs
  {
    if cs == [] {
      GraftNothing(f, pid);
    } else {
      var n, kids, rest := cs[0].node, cs[0].children, cs[1..];
      var f1 := Graft(f, pid, [Leaf(n)]);
      var f2 := Graft(f, pid, [cs[0]]);
      GraftIds(f, pid, [Leaf(n)]);
      GraftIds(f, pid, [cs[0]]);
      SingleIds(Leaf(n));
      SingleIds(cs[0]);
      NestTreeFirst(f, n, Preorder(kids), Preorder(rest));
      NestChildren(f1, n.id, kids);
      GraftGrows(f, pid, n, kids);
      assert cs[0] == Tree(n, kids);
      NestChildren(f2, pid, rest);
      GraftTwice(f, pid, [cs[0]], rest);
      assert [cs[0]] + rest == cs;
    }
  }

  lemma {:induction false} GraftNothing(f: Forest, pid: int)
    ensures Graft(f, pid, []) == f
    decreases f
  {
    if f != [] {
      GraftNothing(f[0].children, pid);
      GraftNothing(f[1..], pid);
      assert f[0].children + [] == f[0].children;
    }
  }

  /** One root tree, read after the forest `f`, becomes the next root. */
  lemma NestRootTree(f: Forest, n: Node, kids: Forest, rest: seq<Node>)
    requires n.id !in Ids(f) && n.id !in Ids(kids) && Ids(f) !! Ids(kids)
    requires n.parent.Some? ==> n.parent.value !in Ids(f)
    requires DistinctForest(kids) && Linked(kids) && ChildrenOf(kids, n.id)
    ensures NestFrom(f, [n] + Preorder(kids) + rest) == NestFrom(f + [Tree(n, kids)], rest)
  {
    NestTreeFirst(f, n, Preorder(kids), rest);
    IdsAppend(f, [Leaf(n)]);
    SingleIds(Leaf(n));
    NestChildren(f + [Leaf(n)], n.id, kids);
    RootGrows(f, n, kids);
  }

  lemma {:induction false} NestRoots(f: Forest, fs: Forest, ids: set<int>)
    requires Ids(f) !! Ids(fs) && Ids(f) + Ids(fs) <= ids
    requires DistinctForest(fs) && Linked(fs) && RootsOutside(fs, ids)
    ensures NestFrom(f, Preorder(fs)) == f + fs
    decreases fs
  {
    if fs == [] {
      assert f + fs == f;
    } else {
      var n, kids, rest := fs[0].node, fs[0].children, fs[1..];
      assert fs[0] == Tree(n, kids);
      NestRootTree(f, n, kids, Preorder(rest));
      IdsAppend(f, [fs[0]]);
      SingleIds(fs[0]);
      NestRoots(f + [fs[0]], rest, ids);
      MoveHead(f, fs);
    }
  }

  /** Nesting undoes pre-order flattening: every forest with distinct ids, whose nodes name
      their parents and whose roots name none of the forest's nodes, comes back as it was. */
  lemma NestUndoesPreorder(fs: Forest)
    requires DistinctForest(fs) && Linked(fs) && RootsOutside(fs, Ids(fs))
    ensures Nest(Preorder(fs)) == fs
  {
    NestRoots([], fs, Ids(fs));
    assert [] + fs == fs;
  }

  // ---------------------------------------------------------------- any list

  /** How many nodes carry `pid`. */
  function Occurs(f: Forest, pid: int): nat
    decreases f
  {
    if f == [] then 0
    else (if f[0].node.id == pid then 1 else 0) + Occurs(f[0].children, pid) + Occurs(f[1..], pid)
  }

  lemma {:induction false} PreorderAppend(a: Forest, b: Forest)
    ensures Preorder(a + b) == Preorder(a) + Preorder(b)
  {
    if a == [] {
      assert a + b == b;
    } else {
      TailAppend(a, b);
      PreorderAppend(a[1..], b);
    }
  }

  /** A graft in a place that occurs at most once adds the grafted nodes as often. */
  lemma {:induction false} GraftNodes(f: Forest, pid: int, ts: Forest)
    requires Occurs(f, pid) <= 1
    ensures multiset(Preorder(Graft(f, pid, ts))) ==
      multiset(Preorder(f)) + (if Occurs(f, pid) == 1 then multiset(Preorder(ts)) else multiset{})
    decreases f
  {
    if f != [] {
      GraftNodes(f[0].children, pid, ts);
      GraftNodes(f[1..], pid, ts);
      PreorderAppend(Graft(f[0].children, pid, ts), ts);
    }
  }

  lemma {:induction false} OccursIffIn(f: Forest, pid: int)
    ensures Occurs(f, pid) > 0 <==> pid in Ids(f)
    decreases f
  {
    if f != [] {
      OccursIffIn(f[0].children, pid);
      OccursIffIn(f[1..], pid);
    }
  }

  lemma {:induction false} OccursAppend(a: Forest, b: Forest, pid: int)
    ensures Occurs(a + b, pid) == Occurs(a, pid) + Occurs(b, pid)
  {
    if a == [] {
      assert a + b == b;
    } else {
      TailAppend(a, b);
      OccursAppend(a[1..], b, pid);
    }
  }

  lemma {:induction false} GraftOccurs(f: Forest, pid: int, ts: Forest, x: int)
    requires Occurs(f, pid) <= 1
    ensures Occurs(Graft(f, pid, ts), x) == Occurs(f, x) + if Occurs(f, pid) == 1 then Occurs(ts, x) else 0
    decreases f
  {
    if f != [] {
      GraftOccurs(f[0].children, pid, ts, x);
      GraftOccurs(f[1..], pid, ts, x);
      OccursAppend(Graft(f[0].children, pid, ts), ts, x);
    }
  }

  /** What the loop keeps: each id once, exactly the nodes read so far, exactly the links whose
      parent was read earlier, exactly the roots that have none. */
  ghost predicate NestedSoFar(f: Forest, nodes: seq<Node>) {
    && (forall x :: Occurs(f, x) <= 1)
    && Ids(f) == (set i | 0 <= i < |nodes| :: nodes[i].id)
    && multiset(Preorder(f)) == multiset(nodes)
    && Edges(f) == EarlierLinks(nodes)
    && Roots(f) == Orphans(nodes)
  }

  /** (parent, child) for every node whose parent occurs earlier in the list. */
  function EarlierLinks(nodes: seq<Node>): set<(int, int)> {
    set i, j | 0 <= i < j < |nodes| && nodes[j].parent == Some(nodes[i].id) :: (nodes[i].id, nodes[j].id)
  }

  predicate HasEarlierParent(nodes: seq<Node>, j: nat)
    requires j < |nodes|
  {
    exists i :: 0 <= i < j && nodes[j].parent == Some(nodes[i].id)
  }

  /** The nodes without an earlier parent, in order. */
  function Orphans(nodes: seq<Node>): seq<Node> {
    if nodes == [] then []
    else
      var n := |nodes| - 1;
      Orphans(nodes[..n]) + if HasEarlierParent(nodes, n) then [] else [nodes[n]]
  }

  lemma {:induction false} EdgesAppend(a: Forest, b: Forest)
    ensures Edges(a + b) == Edges(a) + Edges(b)
  {
    if a == [] {
      assert a + b == b;
    } else {
      TailAppend(a, b);
      EdgesAppend(a[1..], b);
    }
  }

  lemma {:induction false} LinksAppend(a: Forest, b: Forest, pid: int)
    ensures Links(pid, a + b) == Links(pid, a) + Links(pid, b)
  {
    if a == [] {
      assert a + b == b;
    } else {
      TailAppend(a, b);
      LinksAppend(a[1..], b, pid);
    }
  }

  lemma {:induction false} RootsAppend(a: Forest, b: Forest)
    ensures Roots(a + b) == Roots(a) + Roots(b)
  {
    if a == [] {
      assert a + b == b;
    } else {
      TailAppend(a, b);
      RootsAppend(a[1..], b);
      AppendAssociates([a[0].node], Roots(a[1..]), Roots(b));
    }
  }

  lemma {:induction false} GraftKeepsRoots(f: Forest, pid: int, ts: Forest, x: int)
    ensures Roots(Graft(f, pid, ts)) == Roots(f) && Links(x, Graft(f, pid, ts)) == Links(x, f)
  {
    if f != [] {
      GraftKeepsRoots(f[1..], pid, ts, x);
    }
  }

  lemma LeafFacts(n: Node, pid: int)
    ensures Edges([Leaf(n)]) == {} && Links(pid, [Leaf(n)]) == {(pid, n.id)} && Roots([Leaf(n)]) == [n]
    ensures Preorder([Leaf(n)]) == [n] && Ids([Leaf(n)]) == {n.id}
    ensures forall x :: Occurs([Leaf(n)], x) == if x == n.id then 1 else 0
  {
    assert [Leaf(n)][1..] == [];
  }

  lemma {:induction false} GraftEdges(f: Forest, pid: int, n: Node)
    ensures Edges(Graft(f, pid, [Leaf(n)])) == if pid in Ids(f) then Edges(f) + {(pid, n.id)} else Edges(f)
    decreases f
  {
    if f != [] {
      var cs, r := f[0].children, f[0].node.id;
      var cs' := Graft(cs, pid, [Leaf(n)]);
      GraftEdges(cs, pid, n);
      GraftEdges(f[1..], pid, n);
      GraftKeepsRoots(cs, pid, [Leaf(n)], r);
      EdgesAppend(cs', [Leaf(n)]);
      LinksAppend(cs', [Leaf(n)], r);
      LeafFacts(n, r);
    }
  }

  lemma InsertNests(f: Forest, nodes: seq<Node>, n: Node)
    requires NestedSoFar(f, nodes) && DistinctNodes(nodes + [n])
    ensures NestedSoFar(Insert(f, n), nodes + [n])
  {
    assert forall i :: 0 <= i < |nodes| ==> (nodes + [n])[i] == nodes[i] && nodes[i].id != (nodes + [n])[|nodes|].id;
    var pid := if n.parent.Some? then n.parent.value else 0;
    LeafFacts(n, pid);
    if n.parent.Some? && pid in Ids(f) {
      InsertUnder(f, nodes, n, pid);
    } else {
      InsertRoot(f, nodes, n);
    }
  }

  lemma InsertUnder(f: Forest, nodes: seq<Node>, n: Node, pid: int)
    requires NestedSoFar(f, nodes) && n.parent == Some(pid) && pid in Ids(f) && n.id !in Ids(f)
    ensures NestedSoFar(Graft(f, pid, [Leaf(n)]), nodes + [n])
  {
    var f', nodes' := Graft(f, pid, [Leaf(n)]), nodes + [n];
    LeafFacts(n, pid);
    OccursIffIn(f, pid);
    OccursIffIn(f, n.id);
    forall x ensures Occurs(f', x) <= 1 {
      GraftOccurs(f, pid, [Leaf(n)], x);
    }
    GraftIds(f, pid, [Leaf(n)]);
    GraftNodes(f, pid, [Leaf(n)]);
    GraftEdges(f, pid, n);
    GraftKeepsRoots(f, pid, [Leaf(n)], pid);
    ExtendList(nodes, n);
  }

  lemma InsertRoot(f: Forest, nodes: seq<Node>, n: Node)
    requires NestedSoFar(f, nodes) && n.id !in Ids(f)
    requires n.parent.Some? ==> n.parent.value !in Ids(f)
    ensures NestedSoFar(f + [Leaf(n)], nodes + [n])
  {
    LeafFacts(n, 0);
    OccursIffIn(f, n.id);
    forall x ensures Occurs(f + [Leaf(n)], x) <= 1 {
      OccursAppend(f, [Leaf(n)], x);
    }
    IdsAppend(f, [Leaf(n)]);
    PreorderAppend(f, [Leaf(n)]);
    EdgesAppend(f, [Leaf(n)]);
    RootsAppend(f, [Leaf(n)]);
    ExtendList(nodes, n);
  }

  /** What one more node adds to the reference sets. */
  lemma ExtendList(nodes: seq<Node>, n: Node)
    ensures var ids := set i | 0 <= i < |nodes| :: nodes[i].id;
      var nodes' := nodes + [n];
      && (set i | 0 <= i < |nodes'| :: nodes'[i].id) == ids + {n.id}
      && EarlierLinks(nodes') == EarlierLinks(nodes)
           + (if n.parent.Some? && n.parent.value in ids then {(n.parent.value, n.id)} else {})
      && Orphans(nodes') == Orphans(nodes) + (if n.parent.Some? && n.parent.value in ids then [] else [n])
  {
    var nodes' := nodes + [n];
    assert forall i :: 0 <= i < |nodes| ==> nodes'[i] == nodes[i];
    assert nodes'[|nodes|] == n && nodes'[..|nodes|] == nodes;
  }

  lemma {:induction false} NestIsNested(nodes: seq<Node>)
    requires DistinctNodes(nodes)
    ensures NestedSoFar(Nest(nodes), nodes)
  {
    if nodes != [] {
      var k := |nodes| - 1;
      NestIsNested(nodes[..k]);
      assert nodes == nodes[..k] + [nodes[k]];
      InsertNests(Nest(nodes[..k]), nodes[..k], nodes[k]);
      NestAppend([], nodes[..k], [nodes[k]]);
      assert [nodes[k]][1..] == [];
    }
  }

  /** The simple nesting of any list with distinct ids: every node appears exactly once, a node stands
      under its parent iff the parent occurs earlier in the list, and the others are roots, in order. */
  lemma NestPlacesEveryNode(nodes: seq<Node>)
    requires DistinctNodes(nodes)
    ensures multiset(Preorder(Nest(nodes))) == multiset(nodes)
    ensures Edges(Nest(nodes)) == EarlierLinks(nodes)
    ensures Roots(Nest(nodes)) == Orphans(nodes)
  {
    NestIsNested(nodes);
  }

  // ---------------------------------------------------------------- the loop

  /** The nested objects the loop allocates, one per node read, each holding the positions of
      its children: children come after their parent. */
  predicate Arena(nodes: seq<Node>, children: seq<seq<int>>) {
    && |children| == |nodes|
    && forall k :: 0 <= k < |children| ==> Above(children[k], k, |nodes|)
  }

  predicate Above(ks: seq<int>, lo: int, n: int) { forall j :: 0 <= j < |ks| ==> lo < ks[j] < n }

  /** The forest that the objects at positions `ks` stand for. */
  function Unfold(nodes: seq<Node>, children: seq<seq<int>>, ks: seq<int>, lo: int): Forest
    requires Arena(nodes, children) && -1 <= lo && Above(ks, lo, |nodes|)
    decreases |nodes| - lo, |ks|
  {
    if ks == [] then []
    else
      var k := ks[0];
      [Tree(nodes[k], Unfold(nodes, children, children[k], k))] + Unfold(nodes, children, ks[1..], lo)
  }

  lemma {:induction false} UnfoldAppend(nodes: seq<Node>, children: seq<seq<int>>, ks: seq<int>, k: int, lo: int)
    requires Arena(nodes, children) && -1 <= lo && Above(ks, lo, |nodes|) && lo < k < |nodes|
    requires Above(ks + [k], lo, |nodes|)
    ensures Unfold(nodes, children, ks + [k], lo)
         == Unfold(nodes, children, ks, lo) + [Tree(nodes[k], Unfold(nodes, children, children[k], k))]
    decreases |ks|
  {
    if ks == [] {
      assert ks + [k] == [k] && [k][1..] == [];
    } else {
      assert (ks + [k])[1..] == ks[1..] + [k];
      UnfoldAppend(nodes, children, ks[1..], k, lo);
    }
  }

  /** Appending a fresh object to the children of the one at `p` grafts a leaf there. */
  lemma {:induction false} UnfoldGrafts(
    nodes: seq<Node>, children: seq<seq<int>>, n: Node, p: nat, ks: seq<int>, lo: int)
    requires Arena(nodes, children) && -1 <= lo && Above(ks, lo, |nodes|) && p < |nodes|
    requires DistinctNodes(nodes)
    requires Arena(nodes + [n], children[p := children[p] + [|nodes|]] + [[]])
    ensures Unfold(nodes + [n], children[p := children[p] + [|nodes|]] + [[]], ks, lo)
         == Graft(Unfold(nodes, children, ks, lo), nodes[p].id, [Leaf(n)])
    decreases |nodes| - lo, |ks|
  {
    if ks != [] {
      var nodes', children' := nodes + [n], children[p := children[p] + [|nodes|]] + [[]];
      var k := ks[0];
      UnfoldGrafts(nodes, children, n, p, children[k], k);
      UnfoldGrafts(nodes, children, n, p, ks[1..], lo);
      assert nodes'[k] == nodes[k];
      if k == p {
        UnfoldAppend(nodes', children', children[p], |nodes|, p);
        assert Unfold(nodes', children', [], |nodes|) == [];
      } else {
        assert children'[k] == children[k] && (nodes[k].id == nodes[p].id ==> k == p);
      }
    }
  }

  /** A fresh object that nobody points to changes no forest. */
  lemma {:induction false} UnfoldFrame(nodes: seq<Node>, children: seq<seq<int>>, n: Node, ks: seq<int>, lo: int)
    requires Arena(nodes, children) && -1 <= lo && Above(ks, lo, |nodes|)
    requires Arena(nodes + [n], children + [[]])
    ensures Unfold(nodes + [n], children + [[]], ks, lo) == Unfold(nodes, children, ks, lo)
    decreases |nodes| - lo, |ks|
  {
    if ks != [] {
      UnfoldFrame(nodes, children, n, children[ks[0]], ks[0]);
      UnfoldFrame(nodes, children, n, ks[1..], lo);
    }
  }

  /** The objects and the root list stand for the nesting of the nodes read so far. */
  ghost predicate Represents(seen: seq<Node>, children: seq<seq<int>>, roots: seq<int>) {
    && Arena(seen, children) && Above(roots, -1, |seen|)
    && Unfold(seen, children, roots, -1) == Nest(seen)
  }

  lemma NestNext(seen: seq<Node>, n: Node)
    ensures Nest(seen + [n]) == Insert(Nest(seen), n)
  {
    NestAppend([], seen, [n]);
    assert [n][1..] == [];
  }

  lemma AppendChild(seen: seq<Node>, children: seq<seq<int>>, roots: seq<int>, n: Node, p: nat)
    requires Represents(seen, children, roots) && DistinctNodes(seen) && p < |seen| && n.parent == Some(seen[p].id)
    requires seen[p].id in Ids(Nest(seen))
    ensures Represents(seen + [n], children[p := children[p] + [|seen|]] + [[]], roots)
  {
    var children' := children[p := children[p] + [|seen|]] + [[]];
    assert Arena(seen + [n], children') by {
      forall k | 0 <= k < |children'| ensures Above(children'[k], k, |seen| + 1) {
        assert k < |seen| ==> Above(children[k], k, |seen|);
      }
    }
    UnfoldGrafts(seen, children, n, p, roots, -1);
    NestNext(seen, n);
  }

  lemma AppendRoot(seen: seq<Node>, children: seq<seq<int>>, roots: seq<int>, n: Node)
    requires Represents(seen, children, roots)
    requires n.parent.Some? ==> n.parent.value !in Ids(Nest(seen))
    ensures Represents(seen + [n], children + [[]], roots + [|seen|])
  {
    var nodes', children' := seen + [n], children + [[]];
    assert Arena(nodes', children') by {
      forall k | 0 <= k < |children'| ensures Above(children'[k], k, |seen| + 1) {
        assert k < |seen| ==> Above(children[k], k, |seen|);
      }
    }
    UnfoldFrame(seen, children, n, roots, -1);
    UnfoldAppend(nodes', children', roots, |seen|, -1);
    assert Unfold(nodes', children', [], |seen|) == [];
    NestNext(seen, n);
  }

  /** The object `byID` gives for the parent of the node at `j`, which was itself entered first:
      the last node at or before `j` with that id, or -1. */
  function Owner(nodes: seq<Node>, j: nat): (k: int)
    requires j < |nodes|
    ensures -1 <= k <= j
  {
    if nodes[j].parent.None? then -1 else LastWithId(nodes, nodes[j].parent.value, j + 1)
  }

  function LastWithId(nodes: seq<Node>, id: int, n: nat): (k: int)
    requires n <= |nodes|
    ensures -1 <= k < n
    ensures k >= 0 ==> nodes[k].id == id
    ensures forall i :: k < i < n ==> nodes[i].id != id
  {
    if n == 0 then -1 else if nodes[n - 1].id == id then n - 1 else LastWithId(nodes, id, n - 1)
  }

  /** The positions below `n` owned by `k`, in order. */
  function OwnedBy(nodes: seq<Node>, k: int, n: nat): seq<int>
    requires n <= |nodes|
  {
    if n == 0 then [] else OwnedBy(nodes, k, n - 1) + if Owner(nodes, n - 1) == k then [n - 1] else []
  }

  /** `byID` after the first `n` nodes. */
  ghost predicate Indexes(byID: map<int, int>, nodes: seq<Node>, n: nat)
    requires n <= |nodes|
  {
    && (forall x :: LastWithId(nodes, x, n) == if x in byID then byID[x] else -1)
    && (forall x :: x in byID ==> byID[x] >= 0)
  }

  lemma IndexStep(byID: map<int, int>, nodes: seq<Node>, n: nat)
    requires n < |nodes| && Indexes(byID, nodes, n)
    ensures Indexes(byID[nodes[n].id := n], nodes, n + 1)
  {}

  lemma OwnerFromIndex(byID: map<int, int>, nodes: seq<Node>, i: nat)
    requires i < |nodes| && Indexes(byID, nodes, i + 1)
    ensures var parent := nodes[i].parent;
      Owner(nodes, i) == if parent.Some? && parent.value in byID then byID[parent.value] else -1
    ensures forall x :: x in byID ==> 0 <= byID[x] <= i
  {
    forall x | x in byID ensures 0 <= byID[x] <= i {
      assert LastWithId(nodes, x, i + 1) == byID[x];
    }
  }

  /** What the loop has built from the first `i` nodes. */
  ghost predicate Built(nodes: seq<Node>, i: nat, byID: map<int, int>, children: seq<seq<int>>, roots: seq<int>)
    requires i <= |nodes|
  {
    Indexes(byID, nodes, i) && children == ChildLists(nodes, i) && roots == OwnedBy(nodes, -1, i)
  }

  lemma BuiltNothing(nodes: seq<Node>)
    ensures Built(nodes, 0, map[], [], [])
  {}

  lemma BuiltNext(nodes: seq<Node>, i: nat, byID: map<int, int>, children: seq<seq<int>>, roots: seq<int>)
    requires i < |nodes| && Built(nodes, i, byID, children, roots)
    ensures |children| == i
    ensures var (n, byID', next) := (nodes[i], byID[nodes[i].id := i], children + [[]]);
      if n.parent.Some? && n.parent.value in byID' then
        var p := byID'[n.parent.value];
        0 <= p <= i && Built(nodes, i + 1, byID', next[p := next[p] + [i]], roots)
      else Built(nodes, i + 1, byID', next, roots + [i])
  {
    IndexStep(byID, nodes, i);
    OwnerFromIndex(byID[nodes[i].id := i], nodes, i);
    ListsStep(nodes, i);
  }

  /** nestTaskTree's loop, on any list: every node goes to the object `byID` holds for its
      parent, or to the roots; each list keeps the order of arrival. */
  method NestTaskTree(nodes: seq<Node>) returns (children: seq<seq<int>>, roots: seq<int>)
    ensures children == ChildLists(nodes, |nodes|)
    ensures roots == OwnedBy(nodes, -1, |nodes|)
  {
    var byID: map<int, int> := map[];
    children, roots := [], [];
    var i := 0;
    BuiltNothing(nodes);
    while i < |nodes|
      invariant 0 <= i <= |nodes| && Built(nodes, i, byID, children, roots)
    {
      var n := nodes[i];
      BuiltNext(nodes, i, byID, children, roots);
      byID := byID[n.id := i];
      children := children + [[]];
      if n.parent.Some? && n.parent.value in byID {
        var p := byID[n.parent.value];
        children := children[p := children[p] + [i]];
      } else {
        roots := roots + [i];
      }
      i := i + 1;
    }
  }

  function ChildLists(nodes: seq<Node>, n: nat): seq<seq<int>>
    requires n <= |nodes|
  {
    seq(n, k requires 0 <= k < n => OwnedBy(nodes, k, n))
  }

  lemma {:induction false} OwnedByLater(nodes: seq<Node>, k: nat, n: nat)
    requires n <= |nodes| && n <= k
    ensures OwnedBy(nodes, k, n) == []
  {
    if n > 0 { OwnedByLater(nodes, k, n - 1); }
  }

  lemma OwnedNext(nodes: seq<Node>, k: int, i: nat)
    requires i < |nodes|
    ensures OwnedBy(nodes, k, i + 1) ==
      if Owner(nodes, i) == k then OwnedBy(nodes, k, i) + [i] else OwnedBy(nodes, k, i)
  {}

  /** What the node at `i` does to the list at `k`. */
  lemma ListNext(nodes: seq<Node>, k: nat, i: nat)
    requires k <= i < |nodes|
    ensures var next := ChildLists(nodes, i) + [[]];
      ChildLists(nodes, i + 1)[k] == if Owner(nodes, i) == k then next[k] + [i] else next[k]
  {
    OwnedNext(nodes, k, i);
    if k == i { OwnedByLater(nodes, i, i); }
  }

  lemma ListsStep(nodes: seq<Node>, i: nat)
    requires i < |nodes|
    ensures var (next, p) := (ChildLists(nodes, i) + [[]], Owner(nodes, i));
      ChildLists(nodes, i + 1) == if p == -1 then next else next[p := next[p] + [i]]
    ensures OwnedBy(nodes, -1, i + 1) == OwnedBy(nodes, -1, i) + if Owner(nodes, i) == -1 then [i] else []
  {
    var next, p, lists := ChildLists(nodes, i) + [[]], Owner(nodes, i), ChildLists(nodes, i + 1);
    OwnedNext(nodes, -1, i);
    assert |lists| == |next| == i + 1;
    forall k | 0 <= k <= i ensures lists[k] == if p == k then next[k] + [i] else next[k] {
      ListNext(nodes, k, i);
    }
    if p == -1 {
      assert lists == next;
    } else {
      assert lists == next[p := next[p] + [i]];
    }
  }

  /** A node is reachable from the roots. */
  predicate Rooted(nodes: seq<Node>, j: nat)
    requires j < |nodes|
  {
    var k := Owner(nodes, j);
    k == -1 || (k < j && Rooted(nodes, k))
  }

  predicate NoneOwnsItself(nodes: seq<Node>) { forall j :: 0 <= j < |nodes| ==> Owner(nodes, j) != j }

  /** On any list, every node is reachable from the roots iff none became its own child; with
      distinct ids a node becomes its own child iff it names itself as its parent. */
  lemma {:induction false} AllRootedIff(nodes: seq<Node>)
    ensures (forall j :: 0 <= j < |nodes| ==> Rooted(nodes, j)) <==> NoneOwnsItself(nodes)
    ensures DistinctNodes(nodes) ==> (NoneOwnsItself(nodes) <==> NoSelfParent(nodes))
  {
    if NoneOwnsItself(nodes) {
      forall j | 0 <= j < |nodes| ensures Rooted(nodes, j) { RootedFrom(nodes, j); }
    } else {
      var j :| 0 <= j < |nodes| && Owner(nodes, j) == j;
      assert !Rooted(nodes, j);
    }
    forall j | 0 <= j < |nodes| && nodes[j].parent == Some(nodes[j].id) ensures Owner(nodes, j) == j {}
  }

  lemma {:induction false} RootedFrom(nodes: seq<Node>, j: nat)
    requires j < |nodes| && NoneOwnsItself(nodes)
    ensures Rooted(nodes, j)
  {
    if Owner(nodes, j) >= 0 { RootedFrom(nodes, Owner(nodes, j)); }
  }

  /** On a list with distinct ids and no self-parented node, the objects the loop built stand
      for the nesting of the list. */
  lemma {:induction false} LoopBuildsNest(nodes: seq<Node>, i: nat)
    requires DistinctNodes(nodes) && NoSelfParent(nodes) && i <= |nodes|
    ensures Represents(nodes[..i], ChildLists(nodes, i), OwnedBy(nodes, -1, i))
  {
    if i > 0 {
      LoopBuildsNest(nodes, i - 1);
      LoopStep(nodes, i - 1, nodes[..i - 1], ChildLists(nodes, i - 1), OwnedBy(nodes, -1, i - 1));
      assert nodes[..i] == nodes[..i - 1] + [nodes[i - 1]];
    }
  }

  lemma UpdateThenAppend<T>(a: seq<T>, x: T, p: nat, y: T)
    requires p < |a|
    ensures (a + [x])[p] == a[p] && (a + [x])[p := y] == a[p := y] + [x]
  {}

  /** The node at `i` goes under an earlier one. */
  lemma LoopUnder(nodes: seq<Node>, i: nat, seen: seq<Node>, lists: seq<seq<int>>, roots: seq<int>, p: nat)
    requires DistinctNodes(nodes) && i < |nodes| && seen == nodes[..i] && Represents(seen, lists, roots)
    requires p < i && nodes[i].parent == Some(nodes[p].id)
    ensures Represents(seen + [nodes[i]], lists[p := lists[p] + [i]] + [[]], roots)
  {
    assert seen[p] == nodes[p] && seen[p].id in Ids(Nest(seen)) by { SeenIds(nodes, i); }
    AppendChild(seen, lists, roots, nodes[i], p);
  }

  /** The node at `i` is a root. */
  lemma LoopRoot(nodes: seq<Node>, i: nat, seen: seq<Node>, lists: seq<seq<int>>, roots: seq<int>)
    requires DistinctNodes(nodes) && i < |nodes| && seen == nodes[..i] && Represents(seen, lists, roots)
    requires nodes[i].parent.Some? ==> forall k :: 0 <= k < i ==> nodes[k].id != nodes[i].parent.value
    ensures Represents(seen + [nodes[i]], lists + [[]], roots + [i])
  {
    assert nodes[i].parent.Some? ==> nodes[i].parent.value !in Ids(Nest(seen)) by { SeenIds(nodes, i); }
    AppendRoot(seen, lists, roots, nodes[i]);
  }

  lemma OwnerMeaning(nodes: seq<Node>, i: nat)
    requires NoSelfParent(nodes) && i < |nodes|
    ensures var p := Owner(nodes, i);
      if p >= 0 then p < i && nodes[i].parent == Some(nodes[p].id)
      else nodes[i].parent.Some? ==> forall k :: 0 <= k < i ==> nodes[k].id != nodes[i].parent.value
  {}

  lemma ListsUnder(nodes: seq<Node>, i: nat, lists: seq<seq<int>>, p: nat)
    requires p < i < |nodes| && Owner(nodes, i) == p && lists == ChildLists(nodes, i)
    ensures |lists| == i && ChildLists(nodes, i + 1) == lists[p := lists[p] + [i]] + [[]]
    ensures OwnedBy(nodes, -1, i + 1) == OwnedBy(nodes, -1, i)
  {
    ListsStep(nodes, i);
    UpdateThenAppend(lists, [], p, lists[p] + [i]);
  }

  lemma ListsRoot(nodes: seq<Node>, i: nat, lists: seq<seq<int>>)
    requires i < |nodes| && Owner(nodes, i) == -1 && lists == ChildLists(nodes, i)
    ensures ChildLists(nodes, i + 1) == lists + [[]]
    ensures OwnedBy(nodes, -1, i + 1) == OwnedBy(nodes, -1, i) + [i]
  {
    ListsStep(nodes, i);
  }

  lemma LoopStep(nodes: seq<Node>, i: nat, seen: seq<Node>, lists: seq<seq<int>>, roots: seq<int>)
    requires DistinctNodes(nodes) && NoSelfParent(nodes) && i < |nodes|
    requires seen == nodes[..i] && lists == ChildLists(nodes, i) && roots == OwnedBy(nodes, -1, i)
    requires Represents(seen, lists, roots)
    ensures Represents(seen + [nodes[i]], ChildLists(nodes, i + 1), OwnedBy(nodes, -1, i + 1))
  {
    var p := Owner(nodes, i);
    OwnerMeaning(nodes, i);
    if p >= 0 {
      ListsUnder(nodes, i, lists, p);
      LoopUnder(nodes, i, seen, lists, roots, p);
    } else {
      ListsRoot(nodes, i, lists);
      LoopRoot(nodes, i, seen, lists, roots);
    }
  }

  lemma SeenIds(nodes: seq<Node>, i: nat)
    requires DistinctNodes(nodes) && i <= |nodes|
    ensures Ids(Nest(nodes[..i])) == set k | 0 <= k < i :: nodes[k].id
  {
    NestIsNested(nodes[..i]);
    assert forall k :: 0 <= k < i ==> nodes[..i][k] == nodes[k];
  }

  /** On any list with distinct ids and no self-parented node, the objects the loop built hold every
      node exactly once, a node under its parent iff the parent occurs earlier in the list, and the
      others as roots, in order. A self-parented node is not reachable from the roots: AllRootedIff. */
  lemma LoopPlacesEveryNode(nodes: seq<Node>)
    requires DistinctNodes(nodes) && NoSelfParent(nodes)
    ensures var children, roots := ChildLists(nodes, |nodes|), OwnedBy(nodes, -1, |nodes|);
      && Represents(nodes, children, roots)
      && multiset(Preorder(Unfold(nodes, children, roots, -1))) == multiset(nodes)
      && Edges(Unfold(nodes, children, roots, -1)) == EarlierLinks(nodes)
      && Roots(Unfold(nodes, children, roots, -1)) == Orphans(nodes)
  {
    LoopBuildsNest(nodes, |nodes|);
    assert nodes[..|nodes|] == nodes;
    NestPlacesEveryNode(nodes);
  }

  lemma {:induction false} PreorderOk(f: Forest)
    requires DistinctForest(f) && Linked(f) && forall i :: 0 <= i < |f| ==> f[i].node.parent != Some(f[i].node.id)
    ensures forall i :: 0 <= i < |Preorder(f)| ==> Preorder(f)[i].id in Ids(f)
    ensures DistinctNodes(Preorder(f)) && NoSelfParent(Preorder(f))
    decreases f
  {
    if f != [] {
      forall i | 0 <= i < |f[0].children| ensures f[0].children[i].node.id in Ids(f[0].children) {
        RootIn(f[0].children, i);
      }
      PreorderOk(f[0].children);
      PreorderOk(f[1..]);
    }
  }

  /** So the loop undoes pre-order flattening. */
  lemma LoopUndoesPreorder(fs: Forest)
    requires DistinctForest(fs) && Linked(fs) && RootsOutside(fs, Ids(fs))
    ensures var nodes := Preorder(fs);
      Represents(nodes, ChildLists(nodes, |nodes|), OwnedBy(nodes, -1, |nodes|))
      && Unfold(nodes, ChildLists(nodes, |nodes|), OwnedBy(nodes, -1, |nodes|), -1) == fs
  {
    var nodes := Preorder(fs);
    forall i | 0 <= i < |fs| ensures fs[i].node.id in Ids(fs) { RootIn(fs, i); }
    PreorderOk(fs);
    LoopBuildsNest(nodes, |nodes|);
    assert nodes[..|nodes|] == nodes;
    NestUndoesPreorder(fs);
  }

  lemma {:induction false} RootIn(fs: Forest, i: nat)
    requires i < |fs|
    ensures fs[i].node.id in Ids(fs)
  {
    if i > 0 { RootIn(fs[1..], i - 1); }
  }
}
