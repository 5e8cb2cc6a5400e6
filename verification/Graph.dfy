/** Dependency graphs: every identifier maps to the identifiers it depends on. */
module Graph {

  type DependencyGraph = map<string, seq<string>>

  /** Dependencies on identifiers outside the graph are ignored. */
  predicate Edge(g: DependencyGraph, a: string, b: string) {
    a in g && b in g && b in g[a]
  }

  predicate Walk(g: DependencyGraph, p: seq<string>) {
    forall i :: 0 <= i < |p| - 1 ==> Edge(g, p[i], p[i + 1])
  }

  predicate ClosedWalk(g: DependencyGraph, p: seq<string>) {
    |p| >= 2 && p[0] == p[|p| - 1] && Walk(g, p)
  }

  ghost predicate Cyclic(g: DependencyGraph) {
    exists p :: ClosedWalk(g, p)
  }

  predicate Distinct(s: seq<string>) {
    forall i, j :: 0 <= i < j < |s| ==> s[i] != s[j]
  }

  /** Every element's dependencies inside the graph come before it. */
  ghost predicate DependenciesFirst(g: DependencyGraph, order: seq<string>) {
    forall i, d :: 0 <= i < |order| && Edge(g, order[i], d) ==> d in order[..i]
  }

  /** Along a walk, positions in a dependencies-first order strictly decrease. */
  lemma {:induction false} WalkDescends(g: DependencyGraph, order: seq<string>, p: seq<string>, n: nat)
    returns (at: nat)
    requires DependenciesFirst(g, order)
    requires Walk(g, p) && n < |p|
    requires p[0] in order
    ensures at < |order| && order[at] == p[n]
    ensures forall k :: 0 <= k < |order| && order[k] == p[0] && Distinct(order) ==> at + n <= k
  {
    if n == 0 {
      at :| 0 <= at < |order| && order[at] == p[0];
    } else {
      var prior := WalkDescends(g, order, p, n - 1);
      assert Edge(g, p[n - 1], p[n]);
      at :| 0 <= at < prior && order[..prior][at] == p[n];
    }
  }

  lemma OrderedIsAcyclic(g: DependencyGraph, order: seq<string>)
    requires Distinct(order) && DependenciesFirst(g, order)
    requires forall id :: id in g ==> id in order
    ensures !Cyclic(g)
  {
    forall p | ClosedWalk(g, p) ensures false {
      assert Edge(g, p[0], p[1]);
      var k :| 0 <= k < |order| && order[k] == p[0];
      var at := WalkDescends(g, order, p, |p| - 1);
    }
  }

  lemma {:induction false} Pigeonhole(p: seq<string>, s: set<string>) returns (i: nat, j: nat)
    requires forall x :: x in p ==> x in s
    requires |p| > |s|
    ensures i < j < |p| && p[i] == p[j]
  {
    var last := p[|p| - 1];
    assert last in p;
    if k :| 0 <= k < |p| - 1 && p[k] == last {
      i, j := k, |p| - 1;
    } else {
      i, j := Pigeonhole(p[..|p| - 1], s - {last});
    }
  }

  ghost predicate StaysInside(g: DependencyGraph, s: set<string>, a: string) {
    exists b :: b in s && Edge(g, a, b)
  }

  /** Nobody in `s` can be ordered before the rest of `s`. */
  ghost predicate Trapped(g: DependencyGraph, s: set<string>) {
    s != {} && forall a {:trigger StaysInside(g, s, a)} :: a in s ==> StaysInside(g, s, a)
  }

  /** Inside a trapped set one can keep walking for ever. */
  lemma {:induction false} LongWalk(g: DependencyGraph, s: set<string>, start: string, n: nat)
    returns (p: seq<string>)
    requires Trapped(g, s) && start in s
    ensures |p| == n + 1 && Walk(g, p) && (forall x :: x in p ==> x in s)
  {
    if n == 0 {
      p := [start];
    } else {
      var q := LongWalk(g, s, start, n - 1);
      assert q[n - 1] in q;
      assert StaysInside(g, s, q[n - 1]);
      var b :| b in s && Edge(g, q[n - 1], b);
      p := q + [b];
    }
  }

  lemma TrappedIsCyclic(g: DependencyGraph, s: set<string>)
    requires Trapped(g, s)
    ensures Cyclic(g)
  {
    var start :| start in s;
    var p := LongWalk(g, s, start, |s|);
    var i, j := Pigeonhole(p, s);
    var q := p[i..j + 1];
    assert Walk(g, q);
    assert ClosedWalk(g, q);
  }

  /** Removing nodes, or edges with them, cannot create a cycle. */
  lemma SubgraphOfAcyclic(g: DependencyGraph, sub: DependencyGraph)
    requires forall id :: id in sub ==> id in g && sub[id] == g[id]
    requires !Cyclic(g)
    ensures !Cyclic(sub)
  {
    forall p | ClosedWalk(sub, p) ensures false {
      assert forall i :: 0 <= i < |p| - 1 ==> Edge(sub, p[i], p[i + 1]) ==> Edge(g, p[i], p[i + 1]);
      assert ClosedWalk(g, p);
    }
  }
}
