/** Kahn's algorithm with a priority tie-break, as the recovery planner runs it. */
module Kahn {
  import opened Basics
  import opened Graph
  import opened Hosts
  import opened Plan
  import opened Sorting

  predicate Keyed(e: map<string, HostConfig>) {
    forall id :: id in e ==> e[id].id == id
  }

  /** How many entries of `deps` (with repetition) lie in `s`. */
  ghost function CountIn(deps: seq<string>, s: set<string>): nat {
    if deps == [] then 0
    else CountIn(deps[..|deps| - 1], s) + if deps[|deps| - 1] in s then 1 else 0
  }

  lemma {:induction false} CountInMinus(deps: seq<string>, s: set<string>, x: string)
    requires x in s
    ensures CountIn(deps, s) == CountIn(deps, s - {x}) + multiset(deps)[x]
  {
    if deps != [] {
      CountInMinus(deps[..|deps| - 1], s, x);
      assert deps == deps[..|deps| - 1] + [deps[|deps| - 1]];
    }
  }

  lemma {:induction false} CountInZero(deps: seq<string>, s: set<string>)
    ensures CountIn(deps, s) == 0 <==> forall d :: d in deps ==> d !in s
  {
    if deps != [] {
      CountInZero(deps[..|deps| - 1], s);
      assert deps == deps[..|deps| - 1] + [deps[|deps| - 1]];
    }
  }

  /** Every eligible host's counter is the number of its dependencies not yet planned. */
  ghost predicate Counted(e: map<string, HostConfig>, planned: set<string>, indegree: map<string, int>) {
    indegree.Keys == e.Keys
    && forall id :: id in e ==> indegree[id] == CountIn(e[id].dependsOn, e.Keys - planned)
  }

  function Children(children: map<string, seq<string>>, id: string): seq<string> {
    if id in children then children[id] else []
  }

  /** `children` inverts the dependency lists, with repetition, for the hosts in `done`. */
  ghost predicate Inverted(e: map<string, HostConfig>, done: set<string>, children: map<string, seq<string>>) {
    && done <= e.Keys
    && forall d, c :: Links(children, d, c) == if d in e && c in done then multiset(e[c].dependsOn)[d] else 0
  }

  /** How often `c` is listed as a child of `d`. */
  ghost function Links(children: map<string, seq<string>>, d: string, c: string): nat {
    multiset(Children(children, d))[c]
  }

  ghost function LinksSoFar(e: map<string, HostConfig>, before: map<string, seq<string>>, id: string, deps: seq<string>,
                            d: string, c: string): nat {
    if c == id && d in e then multiset(deps)[d] else Links(before, d, c)
  }

  ghost predicate LinkedSoFar(e: map<string, HostConfig>, before: map<string, seq<string>>, children: map<string, seq<string>>,
                              id: string, deps: seq<string>) {
    forall d, c :: Links(children, d, c) == LinksSoFar(e, before, id, deps, d, c)
  }

  lemma AddLink(e: map<string, HostConfig>, before: map<string, seq<string>>, children: map<string, seq<string>>,
                id: string, seen: seq<string>, dep: string, after: map<string, seq<string>>)
    requires LinkedSoFar(e, before, children, id, seen)
    requires after == if dep in e then children[dep := Children(children, dep) + [id]] else children
    ensures LinkedSoFar(e, before, after, id, seen + [dep])
  {
    assert multiset(seen + [dep]) == multiset(seen) + multiset{dep};
    forall d, c ensures Links(after, d, c) == LinksSoFar(e, before, id, seen + [dep], d, c) {
      assert Links(children, d, c) == LinksSoFar(e, before, id, seen, d, c);
      if dep in e && d == dep {
        assert Children(after, d) == Children(children, d) + [id];
        assert multiset(Children(after, d)) == multiset(Children(children, d)) + multiset{id};
      } else {
        assert Children(after, d) == Children(children, d);
      }
    }
  }

  /** The waiting list holds, once each, exactly the unplanned hosts whose counter is zero; planned hosts wait for nothing. */
  ghost predicate Frontier(e: map<string, HostConfig>, planned: set<string>, indegree: map<string, int>, ready: seq<HostConfig>)
    requires indegree.Keys == e.Keys
  {
    && (forall i, j :: 0 <= i < j < |ready| ==> ready[i] != ready[j])
    && (forall h :: h in ready ==> h.id in e && e[h.id] == h)
    && (forall id :: id in e ==> (e[id] in ready <==> id !in planned && indegree[id] == 0))
    && (forall id :: id in e && id in planned ==> indegree[id] == 0)
  }

  method CountDependencies(e: map<string, HostConfig>) returns (indegree: map<string, int>, children: map<string, seq<string>>)
    requires Keyed(e)
    ensures Counted(e, {}, indegree) && Inverted(e, e.Keys, children)
  {
    indegree := map id | id in e :: 0;
    children := map[];
    var pending := e.Keys;
    while pending != {}
      invariant pending <= e.Keys && indegree.Keys == e.Keys
      invariant forall id :: id in e ==> indegree[id] == if id in pending then 0 else CountIn(e[id].dependsOn, e.Keys)
      invariant Inverted(e, e.Keys - pending, children)
    {
      var id :| id in pending;
      indegree, children := CountHost(e, id, e.Keys - pending, indegree, children);
      pending := pending - {id};
    }
    assert e.Keys - {} == e.Keys;
  }

  method CountHost(e: map<string, HostConfig>, id: string, ghost done: set<string>,
                   indegree0: map<string, int>, children0: map<string, seq<string>>)
    returns (indegree: map<string, int>, children: map<string, seq<string>>)
    requires id in e && id !in done && indegree0.Keys == e.Keys && indegree0[id] == 0
    requires Inverted(e, done, children0)
    ensures indegree == indegree0[id := CountIn(e[id].dependsOn, e.Keys)]
    ensures Inverted(e, done + {id}, children)
  {
    var deps := e[id].dependsOn;
    indegree, children := indegree0, children0;
    ghost var seen := [];
    for i := 0 to |deps|
      invariant seen == deps[..i]
      invariant indegree == indegree0[id := CountIn(seen, e.Keys)]
      invariant LinkedSoFar(e, children0, children, id, seen)
    {
      ghost var before := children;
      if deps[i] in e {
        indegree := indegree[id := indegree[id] + 1];
        children := children[deps[i] := Children(children, deps[i]) + [id]];
      }
      AddLink(e, children0, before, id, seen, deps[i], children);
      seen := seen + [deps[i]];
      assert seen[..i] == deps[..i];
    }
    assert seen == deps;
  }

  /** Plans `next`: its children lose one dependency each, and those left with none become ready. */
  method Emit(e: map<string, HostConfig>, next: string, ghost planned: set<string>, children: map<string, seq<string>>,
              indegree0: map<string, int>, ready0: seq<HostConfig>)
    returns (indegree: map<string, int>, ready: seq<HostConfig>)
    requires Inverted(e, e.Keys, children) && Counted(e, planned, indegree0)
    requires Keyed(e) && next in e && next !in planned && indegree0[next] == 0
    requires Frontier(e, planned + {next}, indegree0, ready0)
    ensures Counted(e, planned + {next}, indegree)
    ensures Frontier(e, planned + {next}, indegree, ready)
  {
    ghost var now := planned + {next};
    var kids := Children(children, next);
    indegree, ready := indegree0, ready0;
    forall id | id in e
      ensures indegree[id] == CountIn(e[id].dependsOn, e.Keys - now) + multiset(kids)[id]
    {
      CountInMinus(e[id].dependsOn, e.Keys - planned, next);
      assert e.Keys - planned - {next} == e.Keys - now;
      assert Links(children, next, id) == multiset(e[id].dependsOn)[next];
    }
    forall id | id in kids ensures id in e {
      assert Links(children, next, id) > 0;
    }
    assert kids[0..] == kids;
    for j := 0 to |kids|
      invariant PartlyCounted(e, now, kids[j..], indegree)
      invariant Frontier(e, now, indegree, ready)
    {
      Release(e, now, kids[j..], indegree, ready);
      assert kids[j..][1..] == kids[j + 1..];
      var child := kids[j];
      indegree := indegree[child := indegree[child] - 1];
      if indegree[child] == 0 {
        ready := ready + [e[child]];
      }
    }
    assert kids[|kids|..] == [];
  }

  /** Counters while the children `left` still have to be decremented. */
  ghost predicate PartlyCounted(e: map<string, HostConfig>, planned: set<string>, left: seq<string>, indegree: map<string, int>) {
    indegree.Keys == e.Keys
    && forall id :: id in e ==> indegree[id] == CountIn(e[id].dependsOn, e.Keys - planned) + multiset(left)[id]
  }

  lemma Release(e: map<string, HostConfig>, planned: set<string>, left: seq<string>, indegree: map<string, int>,
                ready: seq<HostConfig>)
    requires Keyed(e) && left != [] && left[0] in e
    requires PartlyCounted(e, planned, left, indegree) && Frontier(e, planned, indegree, ready)
    ensures var after := indegree[left[0] := indegree[left[0]] - 1];
      && PartlyCounted(e, planned, left[1..], after)
      && Frontier(e, planned, after, if after[left[0]] == 0 then ready + [e[left[0]]] else ready)
  {
    assert left == [left[0]] + left[1..];
    assert multiset(left) == multiset{left[0]} + multiset(left[1..]);
    ReleaseToFrontier(e, planned, left[0], indegree, ready);
  }

  lemma ReleaseToFrontier(e: map<string, HostConfig>, planned: set<string>, child: string, indegree: map<string, int>,
                          ready: seq<HostConfig>)
    requires Keyed(e) && child in e && indegree.Keys == e.Keys && indegree[child] > 0
    requires Frontier(e, planned, indegree, ready)
    ensures var after := indegree[child := indegree[child] - 1];
      Frontier(e, planned, after, if after[child] == 0 then ready + [e[child]] else ready)
  {
    var after := indegree[child := indegree[child] - 1];
    assert e[child] !in ready;
    if after[child] == 0 {
      var grown := ready + [e[child]];
      assert forall h :: h in grown <==> h in ready || h == e[child];
    }
  }

  /** With an exact frontier, an element no other frontier element precedes is the least ready host. */
  lemma FirstIsLeastReady(e: map<string, HostConfig>, planned: seq<string>, indegree: map<string, int>,
                          ready: seq<HostConfig>, next: HostConfig)
    requires Keyed(e)
    requires Counted(e, Members(planned), indegree) && Frontier(e, Members(planned), indegree, ready)
    requires next in ready && forall h :: h in ready ==> !Before(WakeRank(h), WakeRank(next))
    ensures LeastReady(e, planned, next.id)
  {
    forall id | id in e ensures ReadyAfter(e, planned, id) <==> e[id] in ready {
      CountInZero(e[id].dependsOn, e.Keys - Members(planned));
    }
    forall o | ReadyAfter(e, planned, o) && o != next.id
      ensures Before(WakeRank(e[next.id]), WakeRank(e[o]))
    {
      BeforeIsTotal(WakeRank(e[next.id]), WakeRank(e[o]));
    }
  }

  /** Hosts that never become ready depend on one another in a circle. */
  lemma StuckIsCyclic(e: map<string, HostConfig>, planned: seq<string>, indegree: map<string, int>)
    requires Counted(e, Members(planned), indegree) && Frontier(e, Members(planned), indegree, [])
    requires Members(planned) < e.Keys
    ensures Cyclic(EligibleGraph(e))
  {
    var g := EligibleGraph(e);
    var rest := e.Keys - Members(planned);
    var stuck :| stuck in e && stuck !in Members(planned);
    assert stuck in rest;
    forall id | id in rest ensures StaysInside(g, rest, id) {
      CountInZero(e[id].dependsOn, rest);
      assert e[id] !in [];
      var d :| d in e[id].dependsOn && d in rest;
      assert Edge(g, id, d);
    }
    TrappedIsCyclic(g, rest);
  }

  /** A complete plan is itself the witness that there is no cycle. */
  lemma PlannedIsAcyclic(e: map<string, HostConfig>, plan: seq<string>)
    requires IsRecoveryPlan(e, plan)
    ensures !Cyclic(EligibleGraph(e))
  {
    PlanIsTopologicalPermutation(e, plan);
    forall id | id in e ensures id in plan {
      assert id in Members(plan);
    }
    OrderedIsAcyclic(EligibleGraph(e), plan);
  }

  /** What the queue loop keeps: exact counters, an exact waiting list, and a greedy result. */
  ghost predicate Queue(e: map<string, HostConfig>, indegree: map<string, int>, ready: seq<HostConfig>, result: seq<string>) {
    && Counted(e, Members(result), indegree) && Frontier(e, Members(result), indegree, ready)
    && GreedyPlan(e, result) && Distinct(result) && Members(result) <= e.Keys
  }

  /** Plans the first host of the sorted waiting list. */
  method PlanNext(e: map<string, HostConfig>, children: map<string, seq<string>>,
                  indegree0: map<string, int>, ready0: seq<HostConfig>, result0: seq<string>)
    returns (indegree: map<string, int>, ready: seq<HostConfig>, result: seq<string>)
    requires Keyed(e) && Inverted(e, e.Keys, children)
    requires Queue(e, indegree0, ready0, result0) && ready0 != []
    ensures Queue(e, indegree, ready, result)
    ensures |result| == |result0| + 1
  {
    var next;
    next, ready := TakeFirst(e, result0, indegree0, ready0);
    result := result0 + [next.id];
    GreedyPlanGrows(e, result0, next.id);
    indegree, ready := Emit(e, next.id, Members(result0), children, indegree0, ready);
  }

  lemma PlannedSize(e: map<string, HostConfig>, result: seq<string>)
    requires Distinct(result) && Members(result) <= e.Keys
    ensures |result| <= |e| && (|result| == |e| ==> Members(result) == e.Keys)
  {
    DistinctMembers(result);
    SubsetSize(Members(result), e.Keys);
    if |result| == |e| {
      SubsetOfSameSize(Members(result), e.Keys);
    }
  }

  method DrainQueue(e: map<string, HostConfig>, children: map<string, seq<string>>,
                    indegree0: map<string, int>, ready0: seq<HostConfig>)
    returns (result: seq<string>)
    requires Keyed(e) && Inverted(e, e.Keys, children)
    requires Counted(e, {}, indegree0) && Frontier(e, {}, indegree0, ready0)
    ensures GreedyPlan(e, result)
    ensures |result| != |e| ==> Cyclic(EligibleGraph(e))
  {
    var indegree, ready := indegree0, ready0;
    result := [];
    assert Members(result) == {};
    while ready != []
      invariant Queue(e, indegree, ready, result)
      decreases |e| - |result|
    {
      PlannedSize(e, result);
      indegree, ready, result := PlanNext(e, children, indegree, ready, result);
      PlannedSize(e, result);
    }
    PlannedSize(e, result);
    if |result| != |e| {
      assert Members(result) != e.Keys by { DistinctMembers(result); }
      StuckIsCyclic(e, result, indegree);
    }
  }

  lemma GreedyPlanGrows(e: map<string, HostConfig>, plan: seq<string>, next: string)
    requires GreedyPlan(e, plan) && LeastReady(e, plan, next) && Distinct(plan)
    ensures GreedyPlan(e, plan + [next]) && Distinct(plan + [next])
    ensures Members(plan + [next]) == Members(plan) + {next}
  {
    var longer := plan + [next];
    forall k | 0 <= k < |longer| ensures LeastReadyAt(e, longer, k) {
      if k < |plan| {
        assert LeastReadyAt(e, plan, k) && longer[..k] == plan[..k];
      } else {
        assert longer[..k] == plan;
      }
    }
    assert next in longer;
    assert forall x :: x in longer <==> x in plan || x == next;
  }

  method CollectEligible(hosts: seq<HostConfig>, states: HostStates) returns (e: map<string, HostConfig>)
    ensures e == Eligible(hosts, states)
  {
    e := map[];
    for i := 0 to |hosts|
      invariant e == Eligible(hosts[..i], states)
    {
      assert hosts[..i + 1][..i] == hosts[..i];
      var h := hosts[i];
      if h.id in states && EligibleForRestore(h, states[h.id]) {
        e := e[h.id := h];
      }
    }
    assert hosts[..|hosts|] == hosts;
  }

  /** `None` is the "dependency cycle detected" error. */
  method BuildRecoveryPlan(hosts: seq<HostConfig>, states: HostStates) returns (plan: Option<seq<string>>)
    ensures plan.None? <==> Cyclic(EligibleGraph(Eligible(hosts, states)))
    ensures plan.Some? ==> IsRecoveryPlan(Eligible(hosts, states), plan.value)
  {
    var e := CollectEligible(hosts, states);
    EligibleMembers(hosts, states);
    var indegree, children := CountDependencies(e);
    var ready := InitialFrontier(e, indegree);
    var result := DrainQueue(e, children, indegree, ready);
    if |result| != |e| {
      plan := None;
    } else {
      PlannedIsAcyclic(e, result);
      plan := Some(result);
    }
  }

  method InitialFrontier(e: map<string, HostConfig>, indegree: map<string, int>) returns (ready: seq<HostConfig>)
    requires indegree.Keys == e.Keys
    requires Keyed(e)
    ensures Frontier(e, {}, indegree, ready)
  {
    ready := [];
    var pending := e.Keys;
    while pending != {}
      invariant pending <= e.Keys
      invariant forall i, j :: 0 <= i < j < |ready| ==> ready[i] != ready[j]
      invariant forall h :: h in ready ==> h.id in e && e[h.id] == h && h.id !in pending
      invariant forall id :: id in e && id !in pending ==> (e[id] in ready <==> indegree[id] == 0)
    {
      var id :| id in pending;
      pending := pending - {id};
      if indegree[id] == 0 {
        ready := ready + [e[id]];
      }
    }
  }

  /** Sorts the waiting list and removes its head, which is the least ready host. */
  method TakeFirst(e: map<string, HostConfig>, ghost planned: seq<string>, indegree: map<string, int>, ready0: seq<HostConfig>)
    returns (next: HostConfig, ready: seq<HostConfig>)
    requires Keyed(e) && Counted(e, Members(planned), indegree)
    requires Frontier(e, Members(planned), indegree, ready0) && ready0 != []
    ensures LeastReady(e, planned, next.id) && indegree[next.id] == 0
    ensures Frontier(e, Members(planned) + {next.id}, indegree, ready)
  {
    var sorted := StableSort(ready0, WakeRank);
    StableSortSorts(ready0, WakeRank);
    SameMembers(sorted, ready0);
    next, ready := sorted[0], sorted[1..];
    assert sorted == [next] + ready;
    SortKeepsDistinct(ready0, sorted);
    RemoveHead(e, Members(planned), indegree, next, ready);
    BeforeIsTotal(WakeRank(next), WakeRank(next));
    forall h | h in ready0 ensures !Before(WakeRank(h), WakeRank(next)) {
      assert h in sorted;
      var k :| 0 <= k < |sorted| && sorted[k] == h;
    }
    FirstIsLeastReady(e, planned, indegree, ready0, next);
  }

  lemma RemoveHead(e: map<string, HostConfig>, planned: set<string>, indegree: map<string, int>,
                   next: HostConfig, rest: seq<HostConfig>)
    requires Keyed(e) && indegree.Keys == e.Keys && Frontier(e, planned, indegree, [next] + rest)
    ensures next.id in e && next.id !in planned && indegree[next.id] == 0
    ensures Frontier(e, planned + {next.id}, indegree, rest)
  {
    var ready := [next] + rest;
    assert ready[0] == next && forall i :: 0 <= i < |rest| ==> ready[i + 1] == rest[i];
    assert next in ready;
    assert forall h :: h in ready <==> h == next || h in rest;
    assert next !in rest;
  }
}
