/**
 * The import-cycle finder of the kernel audit: Tarjan's algorithm over shared
 * index, low-link, stack and active structures.
 *
 * A vertex is white (not indexed), gray (its visit is running) or black (its
 * visit has returned). Gray is proof state only. Settled vertices are those
 * already popped from the stack. `rel` is the graph's reachability relation.
 */
module ImportAudit {
  import opened Collections
  import opened Ordering
  import opened Graphs

  /** The five structures the nested visit shares. */
  datatype Search = Search(
    indices: map<string, nat>,
    low: map<string, nat>,
    stack: seq<string>,
    active: set<string>,
    result: seq<seq<string>>)

  ghost function Settled(s: Search): set<string> {
    s.indices.Keys - s.active
  }

  // ---------------------------------------------------------------- invariant

  ghost predicate Shape(g: Graph, s: Search, gray: set<string>) {
    && s.indices.Keys <= g.Keys
    && s.low.Keys == s.indices.Keys
    && s.active == Elems(s.stack)
    && s.active <= s.indices.Keys
    && gray <= s.active
    && (forall v :: v in s.indices ==> s.indices[v] < |s.indices|)
  }

  /** The stack is in strictly increasing index order, so it has no repeats. */
  ghost predicate StackOrdered(s: Search) {
    && (forall i :: 0 <= i < |s.stack| ==> s.stack[i] in s.indices)
    && (forall i, j :: 0 <= i < j < |s.stack| ==> s.indices[s.stack[i]] < s.indices[s.stack[j]])
  }

  /** A finished vertex has no white successor. */
  ghost predicate NoBlackToWhite(g: Graph, s: Search, gray: set<string>) {
    forall v, w :: v in s.indices && v !in gray && v in g && w in g[v] ==> w in s.indices
  }

  ghost predicate Anchored(rel: Relation, s: Search, gray: set<string>, y: string) {
    exists x :: x in gray && x in s.indices && y in s.indices && s.indices[x] <= s.indices[y] && (y, x) in rel
  }

  /** Every vertex on the stack reaches a gray vertex at or below it. */
  ghost predicate ReachesGray(rel: Relation, s: Search, gray: set<string>) {
    forall y {:trigger Anchored(rel, s, gray, y)} :: y in s.active ==> Anchored(rel, s, gray, y)
  }

  /** A gray vertex reaches everything at or above it on the stack. */
  ghost predicate GrayReaches(rel: Relation, s: Search, gray: set<string>) {
    forall x, y :: x in gray && AtOrAbove(s, x, y) ==> (x, y) in rel
  }

  ghost predicate AtOrAbove(s: Search, x: string, y: string) {
    x in s.indices && y in s.indices && y in s.active && s.indices[x] <= s.indices[y]
  }

  ghost predicate Inv(g: Graph, rel: Relation, s: Search, gray: set<string>) {
    && Shape(g, s, gray)
    && StackOrdered(s)
    && NoBlackToWhite(g, s, gray)
    && EdgeClosed(g, Settled(s))
    && ReachesGray(rel, s, gray)
    && GrayReaches(rel, s, gray)
  }

  // -------------------------------------------------- what a visit guarantees

  /** `s` extends `s0`: old entries are untouched and new stack entries are new vertices. */
  ghost predicate Extends(s0: Search, s: Search) {
    && (forall v :: v in s0.indices ==> v in s.indices && s.indices[v] == s0.indices[v])
    && (forall v :: v in s0.low ==> v in s.low && s.low[v] == s0.low[v])
    && s0.stack <= s.stack
    && (forall j :: |s0.stack| <= j < |s.stack| ==> s.stack[j] !in s0.indices)
  }

  /** The low-link is the vertex's own index or the index of an older stack vertex it reaches. */
  ghost predicate LowAttained(rel: Relation, s0: Search, s: Search, source: string) {
    && source in s.indices && source in s.low
    && s.low[source] <= s.indices[source]
    && (s.low[source] == s.indices[source]
        || exists y :: y in s0.stack && y in s.indices && s.indices[y] == s.low[source] && (source, y) in rel)
  }

  /** No edge from the new stack part to the old part undercuts the low-link;
      of `source` itself only the edges in `seen` are considered. */
  ghost predicate LowBounds(g: Graph, s0: Search, s: Search, source: string, seen: set<string>) {
    && source in s.low
    && (forall j, w :: |s0.stack| <= j < |s.stack| && w in s0.stack && w in s.indices
                       && s.stack[j] in g && w in g[s.stack[j]]
                       && (s.stack[j] != source || w in seen)
                       ==> s.low[source] <= s.indices[w])
  }

  ghost predicate Visited(g: Graph, rel: Relation, s0: Search, s: Search, gray: set<string>, source: string) {
    && source in g
    && Inv(g, rel, s, gray)
    && Extends(s0, s)
    && source in s.indices && s.indices[source] == |s0.indices|
    && LowAttained(rel, s0, s, source)
    && LowBounds(g, s0, s, source, g[source])
  }

  /** What a visit knows apart from the invariant itself. */
  ghost predicate Frame(g: Graph, rel: Relation, s0: Search, s: Search, source: string, seen: set<string>) {
    && Extends(s0, s)
    && |s.stack| > |s0.stack| && s.stack[|s0.stack|] == source
    && source in s.indices && s.indices[source] == |s0.indices|
    && seen <= s.indices.Keys
    && LowAttained(rel, s0, s, source)
    && LowBounds(g, s0, s, source, seen)
  }

  /** The state inside a visit of `source` after its successors in `seen`. */
  ghost predicate Visiting(g: Graph, rel: Relation, s0: Search, s: Search, gray: set<string>, source: string, seen: set<string>) {
    && source in g && source !in s0.indices && source !in gray
    && Inv(g, rel, s, gray + {source})
    && Frame(g, rel, s0, s, source, seen)
  }

  // ------------------------------------------------------- steps of one visit

  function Push(s: Search, source: string): Search {
    Search(s.indices[source := |s.indices|], s.low[source := |s.indices|],
           s.stack + [source], s.active + {source}, s.result)
  }

  lemma PushShape(g: Graph, s0: Search, gray: set<string>, source: string)
    requires Shape(g, s0, gray) && source in g && source !in s0.indices
    ensures Shape(g, Push(s0, source), gray + {source})
    ensures Settled(Push(s0, source)) == Settled(s0)
  {
    var s := Push(s0, source);
    assert s.indices.Keys == s0.indices.Keys + {source};
    assert |s.indices| == |s.indices.Keys| == |s0.indices.Keys| + 1 == |s0.indices| + 1;
    assert s.active == Elems(s.stack);
  }

  lemma PushAnchors(g: Graph, rel: Relation, s0: Search, gray: set<string>, source: string)
    requires (source, source) in rel && ReachesGray(rel, s0, gray) && source !in s0.indices
    ensures ReachesGray(rel, Push(s0, source), gray + {source})
  {
    var s := Push(s0, source);
    forall y | y in s.active
      ensures Anchored(rel, s, gray + {source}, y)
    {
      if y == source {
        assert source in gray + {source};
      } else {
        assert Anchored(rel, s0, gray, y);
        var x :| x in gray && x in s0.indices && y in s0.indices && s0.indices[x] <= s0.indices[y] && (y, x) in rel;
        assert x in gray + {source};
      }
    }
  }

  lemma PushReaches(g: Graph, rel: Relation, s0: Search, gray: set<string>, source: string)
    requires (source, source) in rel && Shape(g, s0, gray) && GrayReaches(rel, s0, gray) && source !in s0.indices
    requires forall x :: x in gray ==> (x, source) in rel
    ensures GrayReaches(rel, Push(s0, source), gray + {source})
  {
    var s := Push(s0, source);
    forall x, y | x in gray + {source} && AtOrAbove(s, x, y)
      ensures (x, y) in rel
    {
      if x != source && y != source {
        assert AtOrAbove(s0, x, y);
      }
    }
  }

  lemma PushStarts(g: Graph, rel: Relation, s0: Search, gray: set<string>, source: string)
    requires (source, source) in rel && Inv(g, rel, s0, gray)
    requires source in g && source !in s0.indices
    requires forall x :: x in gray ==> (x, source) in rel
    ensures Visiting(g, rel, s0, Push(s0, source), gray, source, {})
  {
    PushShape(g, s0, gray, source);
    PushAnchors(g, rel, s0, gray, source);
    PushReaches(g, rel, s0, gray, source);
  }

  /** On the stack, an index below the source's is in the older part. */
  lemma OlderPart(s0: Search, s: Search, source: string, y: string)
    requires StackOrdered(s) && s0.stack <= s.stack && |s0.stack| < |s.stack| && s.stack[|s0.stack|] == source
    requires y in s.stack && s.indices[y] < s.indices[source]
    ensures y in s0.stack
  {
    var j :| 0 <= j < |s.stack| && s.stack[j] == y;
    assert j < |s0.stack|;
    assert s0.stack[j] == y;
  }

  function Min(a: nat, b: nat): nat {
    if b < a then b else a
  }

  function Lower(s: Search, source: string, bound: nat): Search
    requires source in s.low
  {
    s.(low := s.low[source := Min(s.low[source], bound)])
  }

  lemma LowerKeepsInv(g: Graph, rel: Relation, s: Search, gray: set<string>, source: string, bound: nat)
    requires Inv(g, rel, s, gray) && source in s.low
    ensures Inv(g, rel, Lower(s, source, bound), gray)
  {
    var t := Lower(s, source, bound);
    assert t.low.Keys == s.low.Keys;
    assert Settled(t) == Settled(s);
    forall y | y in t.active ensures Anchored(rel, t, gray, y) {
      assert Anchored(rel, s, gray, y);
    }
  }

  lemma BackEdgeAttained(rel: Relation, s0: Search, s: Search, source: string, target: string)
    requires StackOrdered(s) && s0.stack <= s.stack && |s0.stack| < |s.stack| && s.stack[|s0.stack|] == source
    requires LowAttained(rel, s0, s, source) && (source, target) in rel && target in s.stack
    ensures LowAttained(rel, s0, Lower(s, source, s.indices[target]), source)
  {
    if s.indices[target] < s.low[source] {
      OlderPart(s0, s, source, target);
    }
  }

  /** Back edge to a vertex still on the stack. */
  lemma BackEdge(g: Graph, rel: Relation, s0: Search, s: Search, gray: set<string>, source: string, seen: set<string>, target: string)
    requires Visiting(g, rel, s0, s, gray, source, seen)
    requires (source, target) in rel && target in s.active
    requires source !in s0.low
    ensures Visiting(g, rel, s0, Lower(s, source, s.indices[target]), gray, source, seen + {target})
  {
    LowerKeepsInv(g, rel, s, gray + {source}, source, s.indices[target]);
    BackEdgeAttained(rel, s0, s, source, target);
  }

  /** An edge to a settled vertex changes nothing. */
  lemma SettledEdge(g: Graph, rel: Relation, s0: Search, s: Search, gray: set<string>, source: string, seen: set<string>, target: string)
    requires Visiting(g, rel, s0, s, gray, source, seen)
    requires target in s.indices && target !in s.active
    ensures Visiting(g, rel, s0, s, gray, source, seen + {target})
  {
    assert forall j :: 0 <= j < |s0.stack| ==> s0.stack[j] == s.stack[j] && s.stack[j] in Elems(s.stack);
  }

  /** After the visit of a white successor. */
  lemma TreeEdge(g: Graph, rel: Relation, s0: Search, s: Search, t: Search, source: string, seen: set<string>, target: string)
    requires Preorder(g, rel) && source in g && target in g && target in g[source] && target !in s.indices
    requires StackOrdered(s) && s.indices.Keys == s.low.Keys && Frame(g, rel, s0, s, source, seen)
    requires source !in s0.low && Elems(s0.stack) <= s0.indices.Keys && s.indices[source] < |s.indices|
    requires Extends(s, t) && target in t.indices && t.indices[target] == |s.indices|
    requires LowAttained(rel, s, t, target) && LowBounds(g, s, t, target, g[target])
    ensures source in t.low
    ensures Frame(g, rel, s0, Lower(t, source, t.low[target]), source, seen + {target})
  {
    var u := Lower(t, source, t.low[target]);
    assert Extends(s0, u) by { ExtendsTrans(s0, s, t, u, source); }
    assert LowAttained(rel, s0, u, source) by { TreeEdgeAttained(g, rel, s0, s, t, source, target); }
    assert LowBounds(g, s0, u, source, seen + {target}) by { TreeEdgeBounds(g, s0, s, t, source, seen, target); }
  }

  lemma TreeEdgeVisiting(g: Graph, rel: Relation, s0: Search, s: Search, t: Search, gray: set<string>, source: string, seen: set<string>, target: string)
    requires Preorder(g, rel) && Visiting(g, rel, s0, s, gray, source, seen)
    requires source !in s0.low && Elems(s0.stack) <= s0.indices.Keys
    requires target in g && target in g[source] && target !in s.indices
    requires Visited(g, rel, s, t, gray + {source}, target)
    ensures source in t.low
    ensures Visiting(g, rel, s0, Lower(t, source, t.low[target]), gray, source, seen + {target})
  {
    TreeEdge(g, rel, s0, s, t, source, seen, target);
    LowerKeepsInv(g, rel, t, gray + {source}, source, t.low[target]);
  }

  lemma ExtendsTrans(s0: Search, s: Search, t: Search, u: Search, source: string)
    requires Extends(s0, s) && Extends(s, t) && source !in s0.low
    requires u.indices == t.indices && u.stack == t.stack
    requires u.low.Keys == t.low.Keys && forall v :: v in t.low && v != source ==> u.low[v] == t.low[v]
    ensures Extends(s0, u)
  {
    forall j | |s0.stack| <= j < |u.stack| ensures u.stack[j] !in s0.indices {
      if j < |s.stack| { assert u.stack[j] == s.stack[j]; }
    }
  }

  lemma TreeEdgeAttained(g: Graph, rel: Relation, s0: Search, s: Search, t: Search, source: string, target: string)
    requires Preorder(g, rel) && StackOrdered(s) && Extends(s0, s) && Extends(s, t)
    requires |s0.stack| < |s.stack| && s.stack[|s0.stack|] == source
    requires source in g && target in g[source]
    requires source in s.indices && s.indices[source] < |s.indices|
    requires target in t.indices && t.indices[target] == |s.indices|
    requires LowAttained(rel, s0, s, source) && LowAttained(rel, s, t, target)
    ensures source in t.low && LowAttained(rel, s0, Lower(t, source, t.low[target]), source)
  {
    var u := Lower(t, source, t.low[target]);
    if t.low[target] < t.low[source] {
      var y :| y in s.stack && y in t.indices && t.indices[y] == t.low[target] && (target, y) in rel;
      var j :| 0 <= j < |s.stack| && s.stack[j] == y;
      OlderPart(s0, s, source, y);
      assert Chained(rel, source, target, y);
      assert u.indices[y] == u.low[source];
    }
  }

  lemma TreeEdgeBounds(g: Graph, s0: Search, s: Search, t: Search, source: string, seen: set<string>, target: string)
    requires Extends(s0, s) && Extends(s, t)
    requires source in g && target in g && target !in s.indices && source in s.low
    requires Elems(s0.stack) <= s.indices.Keys && source in s.indices
    requires LowBounds(g, s0, s, source, seen) && LowBounds(g, s, t, target, g[target])
    ensures source in t.low && LowBounds(g, s0, Lower(t, source, t.low[target]), source, seen + {target})
  {
    var u := Lower(t, source, t.low[target]);
    forall j, w | |s0.stack| <= j < |u.stack| && w in s0.stack && w in u.indices
                  && u.stack[j] in g && w in g[u.stack[j]] && (u.stack[j] != source || w in seen + {target})
      ensures u.low[source] <= u.indices[w]
    {
      assert w in Elems(s0.stack) && w in s.indices && w != target;
      if j < |s.stack| {
        assert u.stack[j] == s.stack[j];
        assert s.low[source] <= s.indices[w];
      } else {
        var k :| 0 <= k < |s0.stack| && s0.stack[k] == w;
        assert s.stack[k] == w;
        assert t.low[target] <= t.indices[w];
      }
    }
  }

  // ------------------------------------------------------------- end of visit

  lemma StillAnchored(g: Graph, rel: Relation, s0: Search, s: Search, gray: set<string>, source: string)
    requires Preorder(g, rel) && s0.active == Elems(s0.stack) && ReachesGray(rel, s0, gray) && Extends(s0, s)
    requires ReachesGray(rel, s, gray + {source})
    requires LowAttained(rel, s0, s, source) && s.low[source] != s.indices[source]
    ensures ReachesGray(rel, s, gray)
  {
    var older :| older in s0.stack && older in s.indices && s.indices[older] == s.low[source] && (source, older) in rel;
    assert older in s0.active && Anchored(rel, s0, gray, older);
    var x0 :| x0 in gray && x0 in s0.indices && s0.indices[x0] <= s0.indices[older] && (older, x0) in rel;
    assert Chained(rel, source, older, x0);
    forall y | y in s.active
      ensures Anchored(rel, s, gray, y)
    {
      assert Anchored(rel, s, gray + {source}, y);
      var x :| x in gray + {source} && x in s.indices && y in s.indices && s.indices[x] <= s.indices[y] && (y, x) in rel;
      if x == source {
        assert Chained(rel, y, source, x0);
        assert x0 in gray && s.indices[x0] <= s.indices[y];
      } else {
        assert x in gray;
      }
    }
  }

  /** The source stays on the stack: an older vertex is reachable. */
  lemma StaysOpen(g: Graph, rel: Relation, s0: Search, s: Search, gray: set<string>, source: string)
    requires Preorder(g, rel) && s0.active == Elems(s0.stack) && ReachesGray(rel, s0, gray) && source in g
    requires Visiting(g, rel, s0, s, gray, source, g[source]) && s.low[source] != s.indices[source]
    ensures Visited(g, rel, s0, s, gray, source)
  {
    StillAnchored(g, rel, s0, s, gray, source);
  }

  /** The part of the stack from the source upwards. */
  ghost function Top(s0: Search, s: Search): set<string>
    requires |s0.stack| <= |s.stack|
  {
    Elems(s.stack[|s0.stack|..])
  }

  lemma TopMembers(g: Graph, rel: Relation, s0: Search, s: Search, gray: set<string>, source: string, y: string)
    requires Preorder(g, rel) && Inv(g, rel, s, gray + {source}) && Extends(s0, s)
    requires |s.stack| > |s0.stack| && s.stack[|s0.stack|] == source
    requires forall x :: x in gray ==> (x, source) in rel
    requires y in Top(s0, s)
    ensures y in s.active && y !in s0.indices
    ensures (source, y) in rel && (y, source) in rel
  {
    var j :| |s0.stack| <= j < |s.stack| && s.stack[j] == y;
    assert y in Elems(s.stack);
    assert source in gray + {source};
    assert AtOrAbove(s, source, y);
    assert Anchored(rel, s, gray + {source}, y);
    var x :| x in gray + {source} && x in s.indices && s.indices[x] <= s.indices[y] && (y, x) in rel;
    assert x == source || Chained(rel, y, x, source);
  }

  /** When nothing older is reachable, the top part is edge-closed up to settled vertices. */
  lemma TopEdgeClosed(g: Graph, s0: Search, s: Search, gray: set<string>, source: string)
    requires Shape(g, s, gray + {source}) && StackOrdered(s) && NoBlackToWhite(g, s, gray + {source})
    requires EdgeClosed(g, Settled(s)) && Extends(s0, s) && gray <= s0.indices.Keys
    requires |s.stack| > |s0.stack| && s.stack[|s0.stack|] == source && source in g && g[source] <= s.indices.Keys
    requires LowBounds(g, s0, s, source, g[source]) && s.low[source] == s.indices[source]
    ensures EdgeClosed(g, Top(s0, s) + Settled(s))
  {
    forall v, w | v in Top(s0, s) && v in g && w in g[v]
      ensures w in Top(s0, s) + Settled(s)
    {
      var k :| |s0.stack| <= k < |s.stack| && s.stack[k] == v;
      TopEdge(g, s0, s, gray, source, k, w);
    }
  }

  lemma TopEdge(g: Graph, s0: Search, s: Search, gray: set<string>, source: string, k: nat, w: string)
    requires Shape(g, s, gray + {source}) && StackOrdered(s) && NoBlackToWhite(g, s, gray + {source})
    requires Extends(s0, s) && gray <= s0.indices.Keys
    requires |s.stack| > |s0.stack| && s.stack[|s0.stack|] == source && source in g && g[source] <= s.indices.Keys
    requires LowBounds(g, s0, s, source, g[source]) && s.low[source] == s.indices[source]
    requires |s0.stack| <= k < |s.stack| && s.stack[k] in g && w in g[s.stack[k]]
    ensures w in Top(s0, s) + Settled(s)
  {
    var v := s.stack[k];
    assert v in s.indices && v !in gray;
    assert w in s.indices;
  }

  /** The popped part is exactly the component of the source. */
  lemma TopIsComponent(g: Graph, rel: Relation, s0: Search, s: Search, gray: set<string>, source: string)
    requires Preorder(g, rel) && Confined(g, rel) && gray <= s0.indices.Keys && source in g
    requires Visiting(g, rel, s0, s, gray, source, g[source]) && s.low[source] == s.indices[source]
    requires forall x :: x in gray ==> (x, source) in rel
    ensures Top(s0, s) == ClassOf(rel, g.Keys, source)
  {
    forall y | y in Top(s0, s)
      ensures y in ClassOf(rel, g.Keys, source)
    {
      TopMembers(g, rel, s0, s, gray, source, y);
    }
    TopEdgeClosed(g, s0, s, gray, source);
    assert s.stack[|s0.stack|..][0] == source;
    assert source in Elems(s.stack);
    forall y | y in ClassOf(rel, g.Keys, source)
      ensures y in Top(s0, s)
    {
      assert y in Top(s0, s) + Settled(s);
      assert y !in Settled(s);
    }
  }

  /** The state after popping the component and reporting `report`. */
  function Pop(s0: Search, s: Search, report: seq<seq<string>>): Search
    requires |s0.stack| <= |s.stack|
  {
    s.(stack := s.stack[..|s0.stack|], active := Elems(s.stack[..|s0.stack|]), result := s.result + report)
  }

  lemma PopSettles(g: Graph, s0: Search, s: Search, gray: set<string>, report: seq<seq<string>>)
    requires Shape(g, s, gray) && Extends(s0, s) && s0.active == Elems(s0.stack) && s0.active <= s0.indices.Keys
    ensures Pop(s0, s, report).stack == s0.stack && Pop(s0, s, report).active == s0.active
    ensures Settled(Pop(s0, s, report)) == Settled(s) + Top(s0, s)
    ensures Top(s0, s) !! Settled(s)
  {
    var t := Pop(s0, s, report);
    assert s.stack == s.stack[..|s0.stack|] + s.stack[|s0.stack|..];
    assert t.stack == s0.stack;
    forall y | y in Top(s0, s) ensures y !in t.active && y in s.active {
      var j :| |s0.stack| <= j < |s.stack| && s.stack[j] == y;
      assert y !in s0.indices;
      assert y in Elems(s.stack);
    }
  }

  lemma AnchorsBelow(rel: Relation, s0: Search, t: Search, gray: set<string>)
    requires ReachesGray(rel, s0, gray) && t.active == s0.active
    requires forall v :: v in s0.indices ==> v in t.indices && t.indices[v] == s0.indices[v]
    ensures ReachesGray(rel, t, gray)
  {
    forall y | y in t.active
      ensures Anchored(rel, t, gray, y)
    {
      assert Anchored(rel, s0, gray, y);
    }
  }

  lemma ReachesBelow(rel: Relation, s: Search, t: Search, gray: set<string>, more: set<string>)
    requires GrayReaches(rel, s, more) && gray <= more && t.indices == s.indices && t.active <= s.active
    ensures GrayReaches(rel, t, gray)
  {
    forall x, y | x in gray && AtOrAbove(t, x, y) ensures (x, y) in rel {
      assert AtOrAbove(s, x, y);
    }
  }

  /** Closing a component ends the visit. */
  lemma Closes(g: Graph, rel: Relation, s0: Search, s: Search, gray: set<string>, source: string, report: seq<seq<string>>)
    requires Shape(g, s0, gray) && ReachesGray(rel, s0, gray) && source in g
    requires Visiting(g, rel, s0, s, gray, source, g[source]) && s.low[source] == s.indices[source]
    ensures Visited(g, rel, s0, Pop(s0, s, report), gray, source)
  {
    var t := Pop(s0, s, report);
    PopSettles(g, s0, s, gray + {source}, report);
    assert EdgeClosed(g, Settled(t)) by {
      TopEdgeClosed(g, s0, s, gray, source);
      assert Settled(t) == Top(s0, s) + Settled(s);
    }
    AnchorsBelow(rel, s0, t, gray);
    ReachesBelow(rel, s, t, gray, gray + {source});
  }

  // -------------------------------------------------------------- the report

  /** A reported group: at least two members, sorted, and a whole component. */
  ghost predicate IsGroup(rel: Relation, keys: set<string>, c: seq<string>) {
    && |c| >= 2
    && SortedBy(StringLeq, c) && Distinct(c)
    && (forall v :: v in c ==> v in keys && Elems(c) == ClassOf(rel, keys, v))
  }

  ghost predicate Listed(v: string, result: seq<seq<string>>) {
    exists k :: 0 <= k < |result| && v in result[k]
  }

  /** Exactly the settled components with at least two members are reported, each once. */
  ghost predicate Reported(rel: Relation, keys: set<string>, settled: set<string>, result: seq<seq<string>>) {
    && (forall k :: 0 <= k < |result| ==> IsGroup(rel, keys, result[k]) && Elems(result[k]) <= settled)
    && Distinct(result)
    && (forall v :: v in settled && |ClassOf(rel, keys, v)| >= 2 ==> Listed(v, result))
  }

  lemma ClassOfMember(g: Graph, rel: Relation, v: string, w: string)
    requires Preorder(g, rel) && w in ClassOf(rel, g.Keys, v)
    ensures ClassOf(rel, g.Keys, w) == ClassOf(rel, g.Keys, v)
  {
    forall u | u in g.Keys
      ensures u in ClassOf(rel, g.Keys, w) <==> u in ClassOf(rel, g.Keys, v)
    {
      assert Chained(rel, v, w, u) || Chained(rel, w, v, u) || ((v, u) !in rel && (w, u) !in rel);
      assert Chained(rel, u, w, v) || Chained(rel, u, v, w) || ((u, v) !in rel && (u, w) !in rel);
    }
  }

  lemma ReportsComponent(g: Graph, rel: Relation, settled: set<string>, result: seq<seq<string>>, source: string, group: seq<string>)
    requires Preorder(g, rel) && Reported(rel, g.Keys, settled, result)
    requires source in group && Elems(group) == ClassOf(rel, g.Keys, source) && Elems(group) !! settled
    requires |group| >= 2 && SortedBy(StringLeq, group) && Distinct(group)
    ensures Reported(rel, g.Keys, settled + Elems(group), result + [group])
  {
    forall v | v in group ensures v in g.Keys && Elems(group) == ClassOf(rel, g.Keys, v) {
      assert v in Elems(group);
      ClassOfMember(g, rel, source, v);
    }
    NewGroupIsDistinct(settled, result, group);
    forall v | v in settled + Elems(group) && |ClassOf(rel, g.Keys, v)| >= 2 ensures Listed(v, result + [group]) {
      assert v in settled ==> Listed(v, result);
      StaysListed(v, result, group);
    }
  }

  lemma NewGroupIsDistinct(settled: set<string>, result: seq<seq<string>>, group: seq<string>)
    requires Distinct(result) && group != [] && Elems(group) !! settled
    requires forall k :: 0 <= k < |result| ==> Elems(result[k]) <= settled
    ensures Distinct(result + [group])
  {
    assert group[0] in Elems(group);
    forall k | 0 <= k < |result| ensures result[k] != group { assert Elems(result[k]) <= settled; }
  }

  lemma StaysListed(v: string, result: seq<seq<string>>, group: seq<string>)
    requires Listed(v, result) || v in Elems(group)
    ensures Listed(v, result + [group])
  {
    var out := result + [group];
    if Listed(v, result) {
      var k :| 0 <= k < |result| && v in result[k];
      assert out[k] == result[k];
    } else {
      assert out[|result|] == group && v in group;
    }
  }

  lemma SkipsSingleton(g: Graph, rel: Relation, settled: set<string>, result: seq<seq<string>>, source: string)
    requires Preorder(g, rel) && Reported(rel, g.Keys, settled, result)
    requires ClassOf(rel, g.Keys, source) == {source}
    ensures Reported(rel, g.Keys, settled + {source}, result)
  {
    assert |ClassOf(rel, g.Keys, source)| == 1;
  }

  /** Settling the group of `source` and listing it, when it is large enough, keeps the report exact. */
  lemma ReportsGroup(g: Graph, rel: Relation, settled: set<string>, result: seq<seq<string>>, source: string, group: seq<string>)
    requires Preorder(g, rel) && Reported(rel, g.Keys, settled, result)
    requires source in group && Elems(group) == ClassOf(rel, g.Keys, source) && Elems(group) !! settled
    requires SortedBy(StringLeq, group) && Distinct(group)
    ensures Reported(rel, g.Keys, settled + Elems(group), result + if |group| > 1 then [group] else [])
  {
    if |group| > 1 {
      ReportsComponent(g, rel, settled, result, source, group);
    } else {
      assert group == [source] && Elems(group) == {source};
      SkipsSingleton(g, rel, settled, result, source);
      assert result + [] == result;
    }
  }

  lemma OneMore(s: seq<string>, i: nat)
    requires i < |s|
    ensures s[i] in Elems(s) && Elems(s[..i + 1]) == Elems(s[..i]) + {s[i]}
  {
    assert s[..i + 1] == s[..i] + [s[i]];
  }

  // ------------------------------------------------------------ the algorithm

  class ComponentFinder {
    const graph: Graph
    ghost const rel: Relation
    var indices: map<string, nat>
    var low: map<string, nat>
    var stack: seq<string>
    var active: set<string>
    var result: seq<seq<string>>

    ghost function View(): Search
      reads this
    {
      Search(indices, low, stack, active, result)
    }

    ghost predicate Ready() {
      ClosedGraph(graph) && Preorder(graph, rel) && Confined(graph, rel)
    }

    constructor (graph: Graph, ghost rel: Relation)
      ensures this.graph == graph && this.rel == rel && View() == Search(map[], map[], [], {}, [])
    {
      this.graph, this.rel := graph, rel;
      indices, low, stack, active, result := map[], map[], [], {}, [];
    }

    method Visit(source: string, ghost gray: set<string>)
      requires Ready() && Inv(graph, rel, View(), gray)
      requires Reported(rel, graph.Keys, Settled(View()), result)
      requires source in graph && source !in indices
      requires forall x :: x in gray ==> (x, source) in rel
      modifies this
      ensures Visited(graph, rel, old(View()), View(), gray, source)
      ensures Reported(rel, graph.Keys, Settled(View()), result)
      decreases graph.Keys - indices.Keys, 3
    {
      ghost var s0 := View();
      Enter(source, gray);
      Explore(source, s0, gray);
      Leave(source, s0, gray);
    }

    /** The loop over the sorted successors. */
    method Explore(source: string, ghost s0: Search, ghost gray: set<string>)
      requires Ready() && Visiting(graph, rel, s0, View(), gray, source, {})
      requires Reported(rel, graph.Keys, Settled(View()), result)
      requires source !in s0.low && Elems(s0.stack) <= s0.indices.Keys
      requires forall x :: x in gray ==> (x, source) in rel
      modifies this
      ensures Visiting(graph, rel, s0, View(), gray, source, graph[source])
      ensures Reported(rel, graph.Keys, Settled(View()), result)
      decreases graph.Keys - s0.indices.Keys, 2
    {
      var targets := SortedSet(graph[source]);
      FollowAll(source, targets, s0, gray);
    }

    method FollowAll(source: string, targets: seq<string>, ghost s0: Search, ghost gray: set<string>)
      requires Ready() && Visiting(graph, rel, s0, View(), gray, source, {})
      requires Reported(rel, graph.Keys, Settled(View()), result)
      requires source !in s0.low && Elems(s0.stack) <= s0.indices.Keys && Elems(targets) == graph[source]
      requires forall x :: x in gray ==> (x, source) in rel
      modifies this
      ensures Visiting(graph, rel, s0, View(), gray, source, graph[source])
      ensures Reported(rel, graph.Keys, Settled(View()), result)
      decreases graph.Keys - s0.indices.Keys, 1
    {
      var i := 0;
      assert Elems(targets[..0]) == {};
      while i < |targets|
        invariant 0 <= i <= |targets|
        invariant Visiting(graph, rel, s0, View(), gray, source, Elems(targets[..i]))
        invariant Reported(rel, graph.Keys, Settled(View()), result)
      {
        OneMore(targets, i);
        Follow(source, targets[i], s0, gray, Elems(targets[..i]));
        i := i + 1;
      }
      assert targets[..i] == targets;
    }

    method Leave(source: string, ghost s0: Search, ghost gray: set<string>)
      requires Ready() && source in graph && Inv(graph, rel, s0, gray)
      requires Visiting(graph, rel, s0, View(), gray, source, graph[source])
      requires Reported(rel, graph.Keys, Settled(View()), result)
      requires forall x :: x in gray ==> (x, source) in rel
      modifies this
      ensures Visited(graph, rel, s0, View(), gray, source)
      ensures Reported(rel, graph.Keys, Settled(View()), result)
    {
      if low[source] == indices[source] {
        Settle(source, s0, gray);
      } else {
        StaysOpen(graph, rel, s0, View(), gray, source);
      }
    }

    method Enter(source: string, ghost gray: set<string>)
      requires Ready() && Inv(graph, rel, View(), gray) && source in graph && source !in indices
      requires forall x :: x in gray ==> (x, source) in rel
      modifies this
      ensures Visiting(graph, rel, old(View()), View(), gray, source, {})
      ensures Settled(View()) == old(Settled(View())) && result == old(result)
    {
      ghost var s0 := View();
      PushStarts(graph, rel, s0, gray, source);
      PushShape(graph, s0, gray, source);
      low := low[source := |indices|];
      indices := indices[source := |indices|];
      stack := stack + [source];
      active := active + {source};
      assert View() == Push(s0, source);
    }

    /** One edge of the loop over the sorted successors. */
    method Follow(source: string, target: string, ghost s0: Search, ghost gray: set<string>, ghost seen: set<string>)
      requires Ready() && Visiting(graph, rel, s0, View(), gray, source, seen)
      requires Reported(rel, graph.Keys, Settled(View()), result)
      requires source !in s0.low && Elems(s0.stack) <= s0.indices.Keys
      requires target in graph[source]
      requires forall x :: x in gray ==> (x, source) in rel
      modifies this
      ensures Visiting(graph, rel, s0, View(), gray, source, seen + {target})
      ensures Reported(rel, graph.Keys, Settled(View()), result)
      decreases graph.Keys - s0.indices.Keys, 0
    {
      ghost var s := View();
      if target !in indices {
        forall x | x in gray + {source} ensures (x, target) in rel {
          assert x == source || Chained(rel, x, source, target);
        }
        Visit(target, gray + {source});
        ghost var t := View();
        TreeEdgeVisiting(graph, rel, s0, s, t, gray, source, seen, target);
        low := low[source := Min(low[source], low[target])];
        assert View() == Lower(t, source, t.low[target]);
      } else if target in active {
        BackEdge(graph, rel, s0, s, gray, source, seen, target);
        low := low[source := Min(low[source], indices[target])];
        assert View() == Lower(s, source, s.indices[target]);
      } else {
        SettledEdge(graph, rel, s0, s, gray, source, seen, target);
      }
    }

    /** Pops the stack down to `source` and reports the popped group. */
    method Settle(source: string, ghost s0: Search, ghost gray: set<string>)
      requires Ready() && source in graph && Inv(graph, rel, s0, gray)
      requires Visiting(graph, rel, s0, View(), gray, source, graph[source]) && low[source] == indices[source]
      requires Reported(rel, graph.Keys, Settled(View()), result)
      requires forall x :: x in gray ==> (x, source) in rel
      modifies this
      ensures Visited(graph, rel, s0, View(), gray, source)
      ensures Reported(rel, graph.Keys, Settled(View()), result)
    {
      ghost var s := View();
      TopIsComponent(graph, rel, s0, s, gray, source);
      assert Distinct(stack);
      var group := PopGroup(source, |s0.stack|);
      assert View() == s.(stack := s.stack[..|s0.stack|], active := Elems(s.stack[..|s0.stack|]));
      var sorted := group;
      if |group| > 1 {
        StringsTotallyOrdered();
        sorted := Sorted(StringLeq, group);
        SameElements(sorted, group);
        result := result + [sorted];
      }
      ghost var report := if |group| > 1 then [sorted] else [];
      assert result == s.result + report;
      assert View() == Pop(s0, s, report);
      PopSettles(graph, s0, s, gray + {source}, report);
      assert source in Elems(sorted);
      ReportsGroup(graph, rel, Settled(s), s.result, source, sorted);
      Closes(graph, rel, s0, s, gray, source, report);
    }

    method PopGroup(source: string, ghost floor: nat) returns (group: seq<string>)
      requires floor < |stack| && stack[floor] == source && Distinct(stack) && active == Elems(stack)
      modifies this`stack, this`active
      ensures stack == old(stack)[..floor] && active == Elems(stack)
      ensures Elems(group) == Elems(old(stack)[floor..]) && Distinct(group)
    {
      group := [];
      var target := stack[|stack| - 1];
      stack := stack[..|stack| - 1];
      active := active - {target};
      group := group + [target];
      ghost var all := old(stack);
      assert all == all[..|stack|] + [target];
      while target != source
        invariant floor <= |stack| < |all|
        invariant target == all[|stack|]
        invariant stack == all[..|stack|]
        invariant active == Elems(stack)
        invariant Elems(group) == Elems(all[|stack|..])
        invariant Distinct(group)
        decreases |stack|
      {
        ghost var n := |stack|;
        target := stack[|stack| - 1];
        assert all[..n] == all[..n - 1] + [target];
        assert all[n - 1..] == [target] + all[n..];
        assert target !in Elems(all[n..]);
        stack := stack[..|stack| - 1];
        active := active - {target};
        assert target !in Elems(group);
        assert Elems(group + [target]) == Elems(group) + {target} == Elems([target] + all[n..]);
        group := group + [target];
      }
    }
  }

  /** What the caller is promised: the sorted list of all components of two or more modules. */
  ghost predicate ListsComponents(g: Graph, r: seq<seq<string>>) {
    && SortedBy(GroupLeq, r) && Distinct(r)
    && (forall c :: c in r <==> IsComponentList(g, c))
  }

  /** A component of at least two modules, written out in order. */
  ghost predicate IsComponentList(g: Graph, c: seq<string>) {
    && |c| >= 2
    && SortedBy(StringLeq, c) && Distinct(c)
    && exists v :: v in g && Elems(c) == Scc(g, v)
  }

  method Components(g: Graph) returns (r: seq<seq<string>>)
    requires ClosedGraph(g)
    ensures ListsComponents(g, r)
  {
    ghost var rel := ReachPairs(g);
    ReachPairsIsReachability(g);
    var finder := new ComponentFinder(g, rel);
    VisitAll(finder);
    GroupsTotallyOrdered();
    r := Sorted(GroupLeq, finder.result);
    SameElements(r, finder.result);
    ReportIsComplete(g, finder.result, r);
  }

  method VisitAll(finder: ComponentFinder)
    requires finder.Ready() && finder.View() == Search(map[], map[], [], {}, [])
    modifies finder
    ensures Reported(finder.rel, finder.graph.Keys, finder.graph.Keys, finder.result)
  {
    var g := finder.graph;
    var sources := SortedSet(g.Keys);
    var i := 0;
    while i < |sources|
      invariant 0 <= i <= |sources|
      invariant Inv(g, finder.rel, finder.View(), {})
      invariant Reported(finder.rel, g.Keys, Settled(finder.View()), finder.result)
      invariant Elems(sources[..i]) <= finder.indices.Keys
    {
      OneMore(sources, i);
      if sources[i] !in finder.indices {
        finder.Visit(sources[i], {});
      }
      i := i + 1;
    }
    assert sources[..i] == sources;
    NothingLeftOpen(g, finder.rel, finder.View());
  }

  /** With no visit running, the stack is empty. */
  lemma NothingLeftOpen(g: Graph, rel: Relation, s: Search)
    requires Inv(g, rel, s, {}) && g.Keys <= s.indices.Keys
    ensures Settled(s) == g.Keys
  {
    assert forall y :: y in s.active ==> Anchored(rel, s, {}, y);
  }

  lemma ReportIsComplete(g: Graph, result: seq<seq<string>>, r: seq<seq<string>>)
    requires ClosedGraph(g) && Reported(ReachPairs(g), g.Keys, g.Keys, result)
    requires Elems(r) == Elems(result)
    ensures forall c :: c in r <==> IsComponentList(g, c)
  {
    ReachPairsIsReachability(g);
    forall c ensures c in r <==> IsComponentList(g, c) {
      assert c in Elems(r) <==> c in Elems(result);
      if c in result {
        assert c[0] in c && Elems(c) == Scc(g, c[0]);
      }
      if IsComponentList(g, c) {
        var v :| v in g && Elems(c) == Scc(g, v);
        DistinctIff(c);
        assert Listed(v, result);
        var k :| 0 <= k < |result| && v in result[k];
        assert Elems(result[k]) == Scc(g, v);
        StringsTotallyOrdered();
        forall x ensures x in c <==> x in result[k] { assert x in Elems(c) <==> x in Elems(result[k]); }
        SortedIsCanonical(StringLeq, c, result[k]);
      }
    }
  }

  /** The promise leaves no freedom: two lists that meet it are equal. */
  lemma ComponentsAreUnique(g: Graph, r: seq<seq<string>>, t: seq<seq<string>>)
    requires ListsComponents(g, r) && ListsComponents(g, t)
    ensures r == t
  {
    GroupsTotallyOrdered();
    SortedIsCanonical(GroupLeq, r, t);
  }

  // --------------------------------------------------------- the scanned graph

  datatype Scope = TopLevel | Deferred | TypeChecking

  datatype ImportEdge = ImportEdge(source: string, target: string, scope: Scope, line: nat)

  /** The scope that the visitor's counters select: a type-checking block counts before a function body. */
  predicate InScope(scope: Scope, typeChecking: nat, deferred: nat) {
    && (scope == TypeChecking <==> typeChecking > 0)
    && (scope == TopLevel <==> typeChecking == 0 && deferred == 0)
  }

  ghost predicate IsImport(e: ImportEdge, source: string, target: string, typeChecking: nat, deferred: nat, line: nat) {
    e.source == source && e.target == target && e.line == line && InScope(e.scope, typeChecking, deferred)
  }

  /** `ImportVisitor.add`: an import becomes an edge exactly when its target was scanned, and is the only edge
      added. */
  function Add(modules: set<string>, edges: set<ImportEdge>, source: string, target: string,
               typeChecking: nat, deferred: nat, line: nat): (r: set<ImportEdge>)
    requires source in modules && forall e :: e in edges ==> e.source in modules && e.target in modules
    ensures forall e :: e in r ==> e.source in modules && e.target in modules
    ensures edges <= r
    ensures forall e :: e in r && e !in edges ==> target in modules && IsImport(e, source, target, typeChecking, deferred, line)
    ensures target in modules ==> exists e :: e in r && IsImport(e, source, target, typeChecking, deferred, line)
  {
    if target in modules then
      var scope := if typeChecking > 0 then TypeChecking else if deferred > 0 then Deferred else TopLevel;
      assert IsImport(ImportEdge(source, target, scope, line), source, target, typeChecking, deferred, line);
      edges + {ImportEdge(source, target, scope, line)}
    else edges
  }

  /** The graph of one report row: all modules, and the edges whose scope is selected. */
  method ScopeGraph(modules: set<string>, edges: seq<ImportEdge>, scopes: set<Scope>) returns (g: Graph)
    requires forall e :: e in edges ==> e.source in modules && e.target in modules
    ensures ClosedGraph(g) && g.Keys == modules
    ensures forall m, t :: m in modules ==>
      (t in g[m] <==> exists e :: e in edges && e.source == m && e.target == t && e.scope in scopes)
  {
    g := map m | m in modules :: {};
    for i := 0 to |edges|
      invariant g.Keys == modules && ClosedGraph(g)
      invariant forall m, t :: m in modules ==>
        (t in g[m] <==> exists e :: e in edges[..i] && e.source == m && e.target == t && e.scope in scopes)
    {
      var edge := edges[i];
      assert edges[..i + 1] == edges[..i] + [edge];
      if edge.scope in scopes {
        g := g[edge.source := g[edge.source] + {edge.target}];
      }
    }
    assert edges[..|edges|] == edges;
  }

  lemma SortedListOf(s: set<string>) returns (c: seq<string>)
    ensures SortedBy(StringLeq, c) && Distinct(c) && Elems(c) == s
  {
    if s == {} {
      c := [];
    } else {
      var x :| x in s;
      var d := SortedListOf(s - {x});
      assert x !in Elems(d);
      c := Inserted(d, x);
    }
  }

  lemma Inserted(d: seq<string>, x: string) returns (c: seq<string>)
    requires SortedBy(StringLeq, d) && Distinct(d) && x !in d
    ensures SortedBy(StringLeq, c) && Distinct(c) && Elems(c) == Elems(d) + {x}
  {
    StringsTotallyOrdered();
    if d == [] || StringLeq(x, d[0]) {
      c := [x] + d;
    } else {
      var e := Inserted(d[1..], x);
      c := [d[0]] + e;
      assert d == [d[0]] + d[1..];
      assert Elems(d) == {d[0]} + Elems(d[1..]);
      forall j | 0 <= j < |e| ensures StringLeq(d[0], e[j]) && d[0] != e[j] {
        assert e[j] in Elems(e) && e[j] in Elems(d[1..]) + {x};
      }
    }
  }

  /** A wider import scope can only merge cycles: every reported cycle of the narrower
      graph lies inside a reported cycle of the wider one. */
  lemma WiderScopeKeepsCycles(g: Graph, h: Graph, r: seq<seq<string>>, t: seq<seq<string>>, c: seq<string>)
    requires g.Keys == h.Keys && forall m :: m in g ==> g[m] <= h[m]
    requires ListsComponents(g, r) && ListsComponents(h, t) && c in r
    ensures exists d :: d in t && Elems(c) <= Elems(d)
  {
    var v :| v in g && Elems(c) == Scc(g, v);
    SccGrowsWithEdges(g, h, v);
    var d := SortedListOf(Scc(h, v));
    DistinctIff(c);
    DistinctIff(d);
    SubsetSize(Elems(c), Elems(d));
    assert IsComponentList(h, d);
  }
}
