/** Shutdown order and recovery order of the managed hosts. */
module Plan {
  import opened Basics
  import opened Graph
  import opened Hosts
  import opened Sorting

  // ---------------------------------------------------------------- recovery plan: specification

  /** The restore-eligible hosts by identifier; only hosts with a record take part. */
  function Eligible(hosts: seq<HostConfig>, states: HostStates): map<string, HostConfig> {
    if hosts == [] then map[]
    else
      var h := hosts[|hosts| - 1];
      var rest := Eligible(hosts[..|hosts| - 1], states);
      if h.id in states && EligibleForRestore(h, states[h.id]) then rest[h.id := h] else rest
  }

  lemma {:induction false} EligibleMembers(hosts: seq<HostConfig>, states: HostStates)
    ensures forall id :: id in Eligible(hosts, states) ==>
      Eligible(hosts, states)[id] in hosts && Eligible(hosts, states)[id].id == id
      && id in states && EligibleForRestore(Eligible(hosts, states)[id], states[id])
    ensures forall h :: h in hosts && h.id in states && EligibleForRestore(h, states[h.id]) ==> h.id in Eligible(hosts, states)
  {
    if hosts != [] {
      EligibleMembers(hosts[..|hosts| - 1], states);
    }
  }

  /** The dependency graph restricted to the eligible hosts. */
  function EligibleGraph(e: map<string, HostConfig>): DependencyGraph {
    map id | id in e :: e[id].dependsOn
  }

  function WakeRank(h: HostConfig): Rank { Rank(h.wakePriority, h.id) }

  /** Everything `id` depends on among the eligible hosts has already been planned. */
  ghost predicate ReadyAfter(e: map<string, HostConfig>, planned: seq<string>, id: string) {
    id in e && id !in planned && forall d :: d in e[id].dependsOn && d in e ==> d in planned
  }

  ghost predicate LeastReady(e: map<string, HostConfig>, planned: seq<string>, id: string) {
    && ReadyAfter(e, planned, id)
    && forall o :: ReadyAfter(e, planned, o) ==> o == id || Before(WakeRank(e[id]), WakeRank(e[o]))
  }

  /** The reference order: at each position the least ready host. */
  ghost predicate GreedyPlan(e: map<string, HostConfig>, plan: seq<string>) {
    forall k :: 0 <= k < |plan| ==> LeastReadyAt(e, plan, k)
  }

  ghost predicate LeastReadyAt(e: map<string, HostConfig>, plan: seq<string>, k: int)
    requires 0 <= k < |plan|
  {
    LeastReady(e, plan[..k], plan[k])
  }

  ghost predicate IsRecoveryPlan(e: map<string, HostConfig>, plan: seq<string>) {
    GreedyPlan(e, plan) && |plan| == |e|
  }

  ghost function Members(s: seq<string>): set<string> { set x | x in s }

  lemma {:induction false} DistinctMembers(s: seq<string>)
    requires Distinct(s)
    ensures |Members(s)| == |s|
  {
    if s == [] {
      assert Members(s) == {};
    } else {
      var init := s[..|s| - 1];
      DistinctMembers(init);
      assert Members(s) == Members(init) + {s[|s| - 1]};
      assert s[|s| - 1] !in init;
    }
  }

  /** A recovery plan is a permutation of the eligible hosts with dependencies first. */
  lemma PlanIsTopologicalPermutation(e: map<string, HostConfig>, plan: seq<string>)
    requires IsRecoveryPlan(e, plan)
    ensures Distinct(plan) && Members(plan) == e.Keys
    ensures DependenciesFirst(EligibleGraph(e), plan)
  {
    forall i, j | 0 <= i < j < |plan| ensures plan[i] != plan[j] {
      assert LeastReadyAt(e, plan, j);
      assert plan[..j][i] == plan[i];
    }
    forall i, d | 0 <= i < |plan| && Edge(EligibleGraph(e), plan[i], d) ensures d in plan[..i] {
      assert LeastReadyAt(e, plan, i);
    }
    forall x | x in plan ensures x in e {
      var k :| 0 <= k < |plan| && plan[k] == x;
      assert LeastReadyAt(e, plan, k);
    }
    DistinctMembers(plan);
    SubsetOfSameSize(Members(plan), e.Keys);
  }

  lemma SubsetOfSameSize(a: set<string>, b: set<string>)
    requires a <= b && |a| == |b|
    ensures a == b
  {
    assert |b - a| == |b| - |a|;
  }

  lemma LeastReadyIsUnique(e: map<string, HostConfig>, planned: seq<string>, a: string, b: string)
    requires LeastReady(e, planned, a) && LeastReady(e, planned, b)
    ensures a == b
  {
    BeforeIsTotal(WakeRank(e[a]), WakeRank(e[b]));
  }

  /** Two plans that agree so far choose the same host next. */
  lemma SameNext(e: map<string, HostConfig>, p: seq<string>, q: seq<string>, k: nat)
    requires GreedyPlan(e, p) && GreedyPlan(e, q) && k < |p| && k < |q| && p[..k] == q[..k]
    ensures p[k] == q[k]
  {
    assert LeastReadyAt(e, p, k) && LeastReadyAt(e, q, k);
    LeastReadyIsUnique(e, p[..k], p[k], q[k]);
  }

  lemma LongerPrefixesAgree(p: seq<string>, q: seq<string>, k: nat)
    requires k < |p| && k < |q| && p[..k] == q[..k] && p[k] == q[k]
    ensures p[..k + 1] == q[..k + 1]
  {
    assert p[..k + 1] == p[..k] + [p[k]] && q[..k + 1] == q[..k] + [q[k]];
  }

  /** At each position of a plan, no other host that could stand there has a lower wake priority, or the same and a smaller identifier. */
  lemma LowestPriorityFirst(hosts: seq<HostConfig>, states: HostStates, plan: seq<string>, k: nat, other: string)
    requires IsRecoveryPlan(Eligible(hosts, states), plan) && k < |plan| && plan[k] != other
    requires other in Eligible(hosts, states) && other !in plan[..k]
    requires forall d :: d in Eligible(hosts, states)[other].dependsOn && d in Eligible(hosts, states) ==> d in plan[..k]
    ensures var e := Eligible(hosts, states);
      && plan[k] in e
      && (e[plan[k]].wakePriority < e[other].wakePriority
          || (e[plan[k]].wakePriority == e[other].wakePriority && Less(plan[k], other)))
  {
    EligibleMembers(hosts, states);
    assert LeastReadyAt(Eligible(hosts, states), plan, k);
    assert ReadyAfter(Eligible(hosts, states), plan[..k], other);
  }

  /** The hosts to be restored: configured to be woken, always or because they were running before the outage. */
  lemma EligibleHosts(hosts: seq<HostConfig>, states: HostStates, h: HostConfig)
    requires UniqueIds(hosts) && h in hosts
    ensures h.id in Eligible(hosts, states) <==>
      h.id in states && h.wakeEnabled
      && (h.restorePolicy == "always" || (h.restorePolicy in {"", "previous-state"} && states[h.id].wasOnline == Some(true)))
  {
    EligibleMembers(hosts, states);
    if h.id in Eligible(hosts, states) {
      FindFinds(hosts, h.id);
    }
  }

  /** The plan is determined by the eligible hosts alone, whatever order maps are enumerated in. */
  lemma {:induction false} PlanIsUnique(e: map<string, HostConfig>, p: seq<string>, q: seq<string>, n: nat)
    requires IsRecoveryPlan(e, p) && IsRecoveryPlan(e, q) && n <= |e|
    ensures p[..n] == q[..n]
  {
    if n > 0 {
      PlanIsUnique(e, p, q, n - 1);
      SameNext(e, p, q, n - 1);
      LongerPrefixesAgree(p, q, n - 1);
    }
  }

  /** A configuration accepted by the cycle check can be planned whatever the hosts' records say. */
  lemma AcceptedConfigurationPlans(hosts: seq<HostConfig>, states: HostStates)
    requires UniqueIds(hosts) && !Cyclic(GraphOf(hosts))
    ensures !Cyclic(EligibleGraph(Eligible(hosts, states)))
  {
    var e := Eligible(hosts, states);
    EligibleMembers(hosts, states);
    GraphOfUnique(hosts);
    forall id | id in e ensures id in GraphOf(hosts) && EligibleGraph(e)[id] == GraphOf(hosts)[id] {
      var i :| 0 <= i < |hosts| && hosts[i] == e[id];
    }
    SubgraphOfAcyclic(GraphOf(hosts), EligibleGraph(e));
  }

  // ---------------------------------------------------------------- shutdown plan

  /** Hosts shut down by the agent itself, before the UPS is told to force a shutdown. */
  predicate Direct(h: HostConfig) {
    h.shutdownMethod != "nut" && h.shutdownMethod != "none" && h.shutdownMethod != ""
  }

  /** Hosts that power down on the UPS's forced-shutdown signal. */
  predicate NutManaged(h: HostConfig) { h.shutdownMethod == "nut" }

  function ShutdownRank(h: HostConfig): Rank { Rank(h.shutdownPriority, h.id) }
  function IdRank(h: HostConfig): Rank { Rank(0, h.id) }

  datatype ShutdownPlan = ShutdownPlan(preFsd: seq<HostConfig>, nutGroup: seq<HostConfig>)

  function Select(hosts: seq<HostConfig>, p: HostConfig -> bool): seq<HostConfig> {
    if hosts == [] then []
    else Select(hosts[..|hosts| - 1], p) + if p(hosts[|hosts| - 1]) then [hosts[|hosts| - 1]] else []
  }

  function ShutdownPlanOf(hosts: seq<HostConfig>): ShutdownPlan {
    ShutdownPlan(StableSort(Select(hosts, Direct), ShutdownRank), StableSort(Select(hosts, NutManaged), IdRank))
  }

  method BuildShutdownPlan(hosts: seq<HostConfig>) returns (plan: ShutdownPlan)
    ensures plan == ShutdownPlanOf(hosts)
  {
    var pre: seq<HostConfig> := [];
    var nut: seq<HostConfig> := [];
    for i := 0 to |hosts|
      invariant pre == Select(hosts[..i], Direct) && nut == Select(hosts[..i], NutManaged)
    {
      assert hosts[..i + 1][..i] == hosts[..i];
      if hosts[i].shutdownMethod == "nut" {
        nut := nut + [hosts[i]];
      } else if hosts[i].shutdownMethod != "none" && hosts[i].shutdownMethod != "" {
        pre := pre + [hosts[i]];
      }
    }
    assert hosts[..|hosts|] == hosts;
    plan := ShutdownPlan(StableSort(pre, ShutdownRank), StableSort(nut, IdRank));
  }

  lemma {:induction false} SelectMembers(hosts: seq<HostConfig>, p: HostConfig -> bool)
    ensures forall h :: h in Select(hosts, p) <==> h in hosts && p(h)
    ensures UniqueIds(hosts) ==> UniqueIds(Select(hosts, p))
  {
    if hosts != [] {
      var init := hosts[..|hosts| - 1];
      SelectMembers(init, p);
      assert hosts == init + [hosts[|hosts| - 1]];
      if UniqueIds(hosts) {
        forall h | h in Select(init, p) ensures h.id != hosts[|hosts| - 1].id {
          assert h in init;
        }
      }
    }
  }

  lemma SortedUniqueIds(xs: seq<HostConfig>, key: HostConfig -> Rank)
    requires UniqueIds(xs) && forall h :: key(h).id == h.id
    ensures UniqueIds(StableSort(xs, key))
    ensures forall i, j :: 0 <= i < j < |xs| ==>
      |StableSort(xs, key)| == |xs| && Before(key(StableSort(xs, key)[i]), key(StableSort(xs, key)[j]))
    ensures forall h :: h in StableSort(xs, key) <==> h in xs
  {
    var ys := StableSort(xs, key);
    StableSortSorts(xs, key);
    SameMembers(ys, xs);
    SortKeepsDistinct(xs, ys);
    forall i, j | 0 <= i < j < |ys| ensures ys[i].id != ys[j].id && Before(key(ys[i]), key(ys[j])) {
      assert ys[i] in xs && ys[j] in xs && ys[i] != ys[j];
      BeforeIsTotal(key(ys[i]), key(ys[j]));
    }
  }

  /**
   * The plan partitions the managed hosts by shutdown method: those the agent shuts down itself, by priority and then
   * identifier, and those the UPS's forced shutdown takes down, by identifier.
   */
  lemma ShutdownPlanPartitions(hosts: seq<HostConfig>)
    requires UniqueIds(hosts)
    ensures var plan := ShutdownPlanOf(hosts);
      && (forall h :: h in plan.preFsd <==> h in hosts && h.shutdownMethod !in {"nut", "none", ""})
      && (forall h :: h in plan.nutGroup <==> h in hosts && h.shutdownMethod == "nut")
      && UniqueIds(plan.preFsd) && UniqueIds(plan.nutGroup)
      && (forall a, b :: a in plan.preFsd && b in plan.nutGroup ==> a.id != b.id)
      && (forall i, j :: 0 <= i < j < |plan.preFsd| ==> ShutDownBefore(plan.preFsd[i], plan.preFsd[j]))
      && forall i, j :: 0 <= i < j < |plan.nutGroup| ==> Less(plan.nutGroup[i].id, plan.nutGroup[j].id)
  {
    var plan := ShutdownPlanOf(hosts);
    SelectMembers(hosts, Direct);
    SelectMembers(hosts, NutManaged);
    SortedUniqueIds(Select(hosts, Direct), ShutdownRank);
    SortedUniqueIds(Select(hosts, NutManaged), IdRank);
    SameMembers(plan.preFsd, Select(hosts, Direct));
    SameMembers(plan.nutGroup, Select(hosts, NutManaged));
    forall a, b | a in plan.preFsd && b in plan.nutGroup ensures a.id != b.id {
      assert a in hosts && b in hosts && a != b;
    }
    forall i, j | 0 <= i < j < |plan.preFsd| ensures ShutDownBefore(plan.preFsd[i], plan.preFsd[j]) {
      assert Before(ShutdownRank(plan.preFsd[i]), ShutdownRank(plan.preFsd[j]));
    }
    forall i, j | 0 <= i < j < |plan.nutGroup| ensures Less(plan.nutGroup[i].id, plan.nutGroup[j].id) {
      assert Before(IdRank(plan.nutGroup[i]), IdRank(plan.nutGroup[j]));
    }
  }

  /** Lower priority first, ties broken by identifier. */
  predicate ShutDownBefore(a: HostConfig, b: HostConfig) {
    a.shutdownPriority < b.shutdownPriority || (a.shutdownPriority == b.shutdownPriority && Less(a.id, b.id))
  }
}
