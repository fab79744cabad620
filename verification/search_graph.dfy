/** The roadmap graph, as the planner uses it: nodes are object identities,
    edges are undirected, inserting an edge twice leaves one edge, and removing
    a node detaches every edge incident to it. */
module SearchGraph {

  /** A node's identity. Two nodes at the same pose are distinct nodes. */
  type NodeId = nat

  /** An undirected edge. Its endpoints are stored in increasing order, so the
      unordered pair {a, b} has exactly one representation. */
  datatype Edge = Edge(lo: NodeId, hi: NodeId) {

    predicate Touches(n: NodeId) {
      lo == n || hi == n
    }
  }

  /** The edge joining two distinct nodes. */
  function Between(a: NodeId, b: NodeId): (e: Edge)
    requires a != b
    ensures e.lo < e.hi
    ensures (e.lo == a && e.hi == b) || (e.lo == b && e.hi == a)
  {
    if a < b then Edge(a, b) else Edge(b, a)
  }

  lemma BetweenSymmetric(a: NodeId, b: NodeId)
    requires a != b
    ensures Between(a, b) == Between(b, a)
  {
  }

  predicate Distinct(s: seq<NodeId>) {
    forall i, j :: 0 <= i < j < |s| ==> s[i] != s[j]
  }

  /** Nodes in insertion order, and a set of edges. */
  datatype Graph = Graph(nodes: seq<NodeId>, edges: set<Edge>) {

    /** No node twice, no self-loop, and every edge's endpoints are nodes. */
    predicate WellFormed() {
      && Distinct(nodes)
      && forall e :: e in edges ==> e.lo < e.hi && e.lo in nodes && e.hi in nodes
    }
  }

  const EmptyGraph: Graph := Graph([], {})

  /** `s` with every occurrence of `n` dropped, order kept. */
  function Without(s: seq<NodeId>, n: NodeId): (r: seq<NodeId>)
    ensures forall m :: m in r <==> m in s && m != n
    ensures Distinct(s) ==> Distinct(r)
  {
    if s == [] then []
    else
      var rest := Without(s[1..], n);
      if s[0] == n then rest
      else
        assert forall m :: m in s[1..] ==> m in s;
        assert Distinct(s) ==> s[0] !in s[1..];
        [s[0]] + rest
  }

  lemma {:induction false} WithoutAbsent(s: seq<NodeId>, n: NodeId)
    requires n !in s
    ensures Without(s, n) == s
  {
    if s != [] {
      WithoutAbsent(s[1..], n);
    }
  }

  lemma {:induction false} WithoutConcat(a: seq<NodeId>, b: seq<NodeId>, n: NodeId)
    ensures Without(a + b, n) == Without(a, n) + Without(b, n)
  {
    if a == [] {
      assert a + b == b;
    } else {
      assert (a + b)[1..] == a[1..] + b;
      WithoutConcat(a[1..], b, n);
    }
  }

  /** Adding a node that is already present changes nothing; a new node goes
      to the end. */
  function AddNode(g: Graph, n: NodeId): (r: Graph)
    ensures r.edges == g.edges
    ensures forall m :: m in r.nodes <==> m in g.nodes || m == n
    ensures n !in g.nodes ==> r.nodes == g.nodes + [n]
    ensures n in g.nodes ==> r == g
    ensures g.WellFormed() ==> r.WellFormed()
  {
    if n in g.nodes then g
    else
      var r := Graph(g.nodes + [n], g.edges);
      assert forall m :: m in g.nodes ==> m in r.nodes;
      r
  }

  /** Adding the edge {a, b}; adding it again leaves one edge. */
  function AddEdge(g: Graph, a: NodeId, b: NodeId): (r: Graph)
    requires a != b
    ensures r.nodes == g.nodes
    ensures Between(a, b) in r.edges && Between(b, a) in r.edges
    ensures forall e :: e in r.edges <==> e in g.edges || e == Between(a, b)
    ensures g.WellFormed() && a in g.nodes && b in g.nodes ==> r.WellFormed()
  {
    Graph(g.nodes, g.edges + {Between(a, b)})
  }

  /** Asking for an edge that is already present, in either direction, adds
      nothing: there are never parallel edges. */
  lemma AddEdgeIdempotent(g: Graph, a: NodeId, b: NodeId)
    requires a != b
    ensures AddEdge(AddEdge(g, a, b), a, b) == AddEdge(g, a, b)
    ensures AddEdge(AddEdge(g, a, b), b, a) == AddEdge(g, a, b)
  {
    assert Between(b, a) == Between(a, b);
  }

  /** Removing a node also removes every edge incident to it. */
  function RemoveNode(g: Graph, n: NodeId): (r: Graph)
    ensures forall m :: m in r.nodes <==> m in g.nodes && m != n
    ensures forall e :: e in r.edges <==> e in g.edges && !e.Touches(n)
    ensures g.WellFormed() ==> r.WellFormed()
  {
    Graph(Without(g.nodes, n), set e | e in g.edges && !e.Touches(n))
  }

  /** Removing a node that was just added, to a graph none of whose edges
      touch it, gives back the graph exactly. */
  lemma AddThenRemove(g: Graph, n: NodeId)
    requires n !in g.nodes
    requires forall e :: e in g.edges ==> !e.Touches(n)
    ensures RemoveNode(AddNode(g, n), n) == g
  {
    WithoutConcat(g.nodes, [n], n);
    WithoutAbsent(g.nodes, n);
    assert Without([n], n) == [];
    var r := RemoveNode(AddNode(g, n), n);
    assert r.edges == g.edges;
  }

  /** Removing two nodes appended to `base`, when every edge added since
      touches one of them, gives back `base` exactly. */
  lemma {:induction false} RemoveAppendedPair(base: Graph, g: Graph, s: NodeId, t: NodeId)
    requires s != t && s !in base.nodes && t !in base.nodes
    requires forall e :: e in base.edges ==> !e.Touches(s) && !e.Touches(t)
    requires g.nodes == base.nodes + [s, t]
    requires base.edges <= g.edges
    requires forall e :: e in g.edges && e !in base.edges ==> e.Touches(s) || e.Touches(t)
    ensures RemoveNode(RemoveNode(g, s), t) == base
  {
    var r := RemoveNode(RemoveNode(g, s), t);
    WithoutConcat(base.nodes, [s, t], s);
    WithoutAbsent(base.nodes, s);
    assert Without([s, t], s) == [t] by {
      assert [s, t][1..] == [t];
      assert Without([t], s) == [t] by {
        assert [t][1..] == [];
      }
    }
    WithoutConcat(base.nodes, [t], t);
    WithoutAbsent(base.nodes, t);
    assert Without([t], t) == [] by {
      assert [t][1..] == [];
    }
    assert r.nodes == base.nodes;
    assert r.edges == base.edges;
  }
}
