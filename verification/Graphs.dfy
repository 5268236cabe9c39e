/** Finite directed graphs, reachability and strongly connected components. */
module Graphs {

  type Graph = map<string, set<string>>

  ghost predicate ClosedGraph(g: Graph) {
    forall v :: v in g ==> g[v] <= g.Keys
  }

  /** A walk of edges; every vertex on it is a key of the graph. */
  ghost predicate IsWalk(g: Graph, p: seq<string>) {
    && |p| > 0
    && (forall i :: 0 <= i < |p| ==> p[i] in g)
    && (forall i, j :: 0 <= i && j == i + 1 < |p| ==> p[j] in g[p[i]])
  }

  ghost predicate WalkBetween(g: Graph, a: string, p: seq<string>, b: string) {
    IsWalk(g, p) && p[0] == a && p[|p| - 1] == b
  }

  ghost predicate Reach(g: Graph, a: string, b: string) {
    exists p :: WalkBetween(g, a, p, b)
  }

  ghost predicate Mutual(g: Graph, a: string, b: string) {
    Reach(g, a, b) && Reach(g, b, a)
  }

  /** The strongly connected component of `v`. */
  ghost function Scc(g: Graph, v: string): set<string> {
    set w | w in g.Keys && Mutual(g, v, w)
  }

  ghost predicate EdgeClosed(g: Graph, s: set<string>) {
    forall v, w :: v in s && v in g && w in g[v] ==> w in s
  }

  lemma ReachSelf(g: Graph, a: string)
    requires a in g
    ensures Reach(g, a, a)
  {
    assert WalkBetween(g, a, [a], a);
  }

  lemma ReachEdge(g: Graph, a: string, b: string)
    requires a in g && b in g && b in g[a]
    ensures Reach(g, a, b)
  {
    assert WalkBetween(g, a, [a, b], b);
  }

  lemma ReachTrans(g: Graph, a: string, b: string, c: string)
    requires Reach(g, a, b) && Reach(g, b, c)
    ensures Reach(g, a, c)
  {
    var p :| WalkBetween(g, a, p, b);
    var q :| WalkBetween(g, b, q, c);
    var r := p + q[1..];
    forall i, j | 0 <= i && j == i + 1 < |r|
      ensures r[j] in g[r[i]]
    {
      if j < |p| {
        assert r[i] == p[i] && r[j] == p[j];
      } else if i == |p| - 1 {
        assert r[i] == q[0] && r[j] == q[1];
      } else {
        assert r[i] == q[i - |p| + 1] && r[j] == q[j - |p| + 1];
      }
    }
    assert WalkBetween(g, a, r, c);
  }

  /** Nothing outside an edge-closed set can be reached from inside it. */
  lemma ReachStaysInside(g: Graph, s: set<string>, a: string, b: string)
    requires EdgeClosed(g, s) && a in s && Reach(g, a, b)
    ensures b in s
  {
    var p :| WalkBetween(g, a, p, b);
    var i := 0;
    while i < |p| - 1
      invariant 0 <= i < |p| && p[i] in s
    {
      assert p[i + 1] in g[p[i]];
      i := i + 1;
    }
  }

  /** Adding edges can only merge components. */
  lemma SccGrowsWithEdges(g: Graph, h: Graph, v: string)
    requires g.Keys == h.Keys && forall u :: u in g ==> g[u] <= h[u]
    ensures Scc(g, v) <= Scc(h, v)
  {
    forall a, b | Reach(g, a, b)
      ensures Reach(h, a, b)
    {
      var p :| WalkBetween(g, a, p, b);
      assert WalkBetween(h, a, p, b);
    }
  }

  /** Reachability as a value: a relation that contains the edges, is reflexive and
      transitive, and leaves no edge-closed set. Only `ReachPairs` is such a relation. */
  type Relation = set<(string, string)>

  ghost function ReachPairs(g: Graph): Relation {
    set a, b | a in g.Keys && b in g.Keys && Reach(g, a, b) :: (a, b)
  }

  ghost predicate Preorder(g: Graph, rel: Relation) {
    && (forall a :: a in g ==> (a, a) in rel)
    && (forall a, b :: a in g && b in g[a] ==> (a, b) in rel)
    && (forall a, b, c :: Chained(rel, a, b, c) ==> (a, c) in rel)
  }

  ghost predicate Chained(rel: Relation, a: string, b: string, c: string) {
    (a, b) in rel && (b, c) in rel
  }

  ghost predicate Confined(g: Graph, rel: Relation) {
    forall s: set<string>, a, b {:trigger EdgeClosed(g, s), (a, b) in rel} ::
      EdgeClosed(g, s) && a in s && (a, b) in rel ==> b in s
  }

  ghost function ClassOf(rel: Relation, keys: set<string>, v: string): set<string> {
    set w | w in keys && (v, w) in rel && (w, v) in rel
  }

  lemma ReachPairsIsReachability(g: Graph)
    requires ClosedGraph(g)
    ensures Preorder(g, ReachPairs(g)) && Confined(g, ReachPairs(g))
    ensures forall v :: v in g ==> ClassOf(ReachPairs(g), g.Keys, v) == Scc(g, v)
  {
    var rel := ReachPairs(g);
    forall a | a in g ensures (a, a) in rel { ReachSelf(g, a); }
    forall a, b | a in g && b in g[a] ensures (a, b) in rel { ReachEdge(g, a, b); }
    forall a, b, c | Chained(rel, a, b, c) ensures (a, c) in rel { ReachTrans(g, a, b, c); }
    forall s: set<string>, a, b | EdgeClosed(g, s) && a in s && (a, b) in rel ensures b in s {
      ReachStaysInside(g, s, a, b);
    }
  }
}
