/** Choosing the next host to restore, cascading failures, and the measure that makes recovery end. */
module Recovery {
  import opened Basics
  import opened Graph
  import opened Hosts
  import opened Plan
  import opened Kahn
  import opened Histories

  // ---------------------------------------------------------------- the next host

  ghost predicate Open(hosts: seq<HostConfig>, states: HostStates, id: string) {
    && !Terminal(Record(states, id).recoveryState)
    && Find(hosts, id).Some? && DependenciesOnline(hosts, states, Find(hosts, id).value)
  }

  /** The first open host of a plan. */
  ghost function NextOf(hosts: seq<HostConfig>, states: HostStates, plan: seq<string>): Option<HostConfig> {
    if plan == [] then None
    else if Open(hosts, states, plan[0]) then Find(hosts, plan[0])
    else NextOf(hosts, states, plan[1..])
  }

  datatype Next = CycleDetected | Nobody | Candidate(host: HostConfig)

  ghost function Choice(hosts: seq<HostConfig>, states: HostStates, plan: seq<string>): Next {
    var c := NextOf(hosts, states, plan);
    if c.Some? then Candidate(c.value) else Nobody
  }

  ghost predicate IsNext(hosts: seq<HostConfig>, states: HostStates, next: Next) {
    var e := Eligible(hosts, states);
    if Cyclic(EligibleGraph(e)) then next == CycleDetected
    else exists plan :: IsRecoveryPlan(e, plan) && next == Choice(hosts, states, plan)
  }

  /** Two selections on the same records agree. */
  lemma NextIsDetermined(hosts: seq<HostConfig>, states: HostStates, a: Next, b: Next)
    requires IsNext(hosts, states, a) && IsNext(hosts, states, b)
    ensures a == b
  {
    var e := Eligible(hosts, states);
    if !Cyclic(EligibleGraph(e)) {
      var p :| IsRecoveryPlan(e, p) && a == Choice(hosts, states, p);
      var q :| IsRecoveryPlan(e, q) && b == Choice(hosts, states, q);
      PlanIsUnique(e, p, q, |e|);
      assert p[..|e|] == p && q[..|e|] == q;
    }
  }

  method DependenciesAreOnline(hosts: seq<HostConfig>, states: HostStates, c: HostConfig) returns (ready: bool)
    ensures ready <==> DependenciesOnline(hosts, states, c)
  {
    for i := 0 to |c.dependsOn|
      invariant forall j :: 0 <= j < i ==> DependencyOnline(hosts, states, c.dependsOn[j])
    {
      if !DependencyOnline(hosts, states, c.dependsOn[i]) {
        return false;
      }
    }
    return true;
  }

  method NextRecoveryHost(hosts: seq<HostConfig>, states: HostStates) returns (next: Next)
    ensures IsNext(hosts, states, next)
  {
    var plan := BuildRecoveryPlan(hosts, states);
    if plan.None? {
      return CycleDetected;
    }
    EligibleMembers(hosts, states);
    PlanIsTopologicalPermutation(Eligible(hosts, states), plan.value);
    PlannedIsAcyclic(Eligible(hosts, states), plan.value);
    for i := 0 to |plan.value|
      invariant NextOf(hosts, states, plan.value) == NextOf(hosts, states, plan.value[i..])
    {
      var id := plan.value[i];
      assert plan.value[i..][0] == id && plan.value[i..][1..] == plan.value[i + 1..];
      assert id in Members(plan.value);
      FindFinds(hosts, id);
      if !Terminal(Record(states, id).recoveryState) {
        var ready := DependenciesAreOnline(hosts, states, Find(hosts, id).value);
        if ready {
          return Candidate(Find(hosts, id).value);
        }
      }
    }
    return Nobody;
  }

  /** The chosen host is restore-eligible, unfinished, and waits for nobody. */
  lemma {:induction false} NextOfIsOpen(hosts: seq<HostConfig>, states: HostStates, plan: seq<string>)
    requires NextOf(hosts, states, plan).Some?
    ensures var c := NextOf(hosts, states, plan).value;
      && c in hosts && c.id in plan && Find(hosts, c.id) == Some(c) && Open(hosts, states, c.id)
  {
    if Open(hosts, states, plan[0]) {
      FindFinds(hosts, plan[0]);
    } else {
      NextOfIsOpen(hosts, states, plan[1..]);
    }
  }

  lemma CandidateIsEligible(hosts: seq<HostConfig>, states: HostStates, c: HostConfig)
    requires IsNext(hosts, states, Candidate(c)) && UniqueIds(hosts)
    ensures c in hosts && c.id in states && Find(hosts, c.id) == Some(c)
    ensures EligibleForRestore(c, states[c.id]) && !Terminal(states[c.id].recoveryState)
    ensures DependenciesOnline(hosts, states, c)
  {
    var e := Eligible(hosts, states);
    var plan :| IsRecoveryPlan(e, plan) && Candidate(c) == Choice(hosts, states, plan);
    NextOfIsOpen(hosts, states, plan);
    PlanIsTopologicalPermutation(e, plan);
    EligibleMembers(hosts, states);
    assert c.id in Members(plan);
    FindFinds(hosts, c.id);
  }

  // ---------------------------------------------------------------- cascading failures

  predicate Unfinished(h: HostConfig, hs: HostState) {
    EligibleForRestore(h, hs) && hs.recoveryState != Online && hs.recoveryState != RecoveryFailed
  }

  /** Nobody unfinished depends on a failed host. */
  ghost predicate Unblocked(hosts: seq<HostConfig>, states: HostStates, some: seq<HostConfig>) {
    forall h, d :: h in some && Unfinished(h, Record(states, h.id)) && d in h.dependsOn ==> !FailedDependency(hosts, states, d)
  }

  method HasFailedDependency(hosts: seq<HostConfig>, states: HostStates, h: HostConfig) returns (blocked: bool)
    ensures blocked <==> exists d :: d in h.dependsOn && FailedDependency(hosts, states, d)
  {
    for i := 0 to |h.dependsOn|
      invariant forall j :: 0 <= j < i ==> !FailedDependency(hosts, states, h.dependsOn[j])
    {
      if FailedDependency(hosts, states, h.dependsOn[i]) {
        return true;
      }
    }
    return false;
  }

  function MarkFailed(hs: HostState): HostState { hs.(recoveryState := RecoveryFailed) }

  /** An unfinished host that depends on a failed one. */
  ghost predicate Blocked(hosts: seq<HostConfig>, states: HostStates, h: HostConfig) {
    Unfinished(h, Record(states, h.id)) && exists d :: d in h.dependsOn && FailedDependency(hosts, states, d)
  }

  /**
   * One pass over the hosts: every host blocked at its beginning is failed, and nobody else but unfinished hosts
   * with a dependency that has failed by its end.
   */
  method MarkBlockedRecovery(hosts: seq<HostConfig>, states0: HostStates) returns (states: HostStates, changed: bool)
    requires UniqueIds(hosts)
    ensures changed ==> Work(hosts, states) < Work(hosts, states0) && !Unblocked(hosts, states0, hosts)
    ensures !changed ==> states == states0 && Unblocked(hosts, states0, hosts)
    ensures Cascaded(hosts, states0, states)
    ensures forall h :: h in hosts && Blocked(hosts, states0, h) ==> Record(states, h.id).recoveryState == RecoveryFailed
  {
    states, changed := states0, false;
    for i := 0 to |hosts|
      invariant Cascaded(hosts, states0, states)
      invariant changed ==> Work(hosts, states) < Work(hosts, states0) && !Unblocked(hosts, states0, hosts)
      invariant !changed ==> states == states0 && Unblocked(hosts, states0, hosts[..i])
      invariant forall j :: 0 <= j < i && Blocked(hosts, states0, hosts[j]) ==> Record(states, hosts[j].id).recoveryState == RecoveryFailed
    {
      var h := hosts[i];
      var hs := Record(states, h.id);
      if Unfinished(h, hs) {
        var blocked := HasFailedDependency(hosts, states, h);
        if blocked {
          CascadeOneMore(hosts, states0, states, h);
          FailingShrinksWork(hosts, states, h);
          states := states[h.id := MarkFailed(hs)];
          changed := true;
        } else {
          StaysUnblocked(hosts, states0, states, h);
        }
      }
    }
    assert hosts[..|hosts|] == hosts;
  }

  /** Failures only accumulate, so who is not blocked now was not blocked at the beginning. */
  lemma StaysUnblocked(hosts: seq<HostConfig>, before: HostStates, states: HostStates, h: HostConfig)
    requires Cascaded(hosts, before, states) && Unfinished(h, Record(states, h.id)) && !Blocked(hosts, states, h)
    ensures !Blocked(hosts, before, h)
  {
    forall d ensures FailedDependency(hosts, before, d) ==> FailedDependency(hosts, states, d) {
      assert d in states ==> CascadedRecord(hosts, before, states, d);
    }
  }

  lemma CascadeOneMore(hosts: seq<HostConfig>, before: HostStates, states: HostStates, h: HostConfig)
    requires h in hosts && Cascaded(hosts, before, states)
    requires Unfinished(h, Record(states, h.id)) && exists d :: d in h.dependsOn && FailedDependency(hosts, states, d)
    ensures Cascaded(hosts, before, states[h.id := MarkFailed(Record(states, h.id))])
  {
    var after := states[h.id := MarkFailed(Record(states, h.id))];
    assert LostDependency(hosts, h, states);
    FailuresStay(hosts, h, states, h.id);
    forall id | id in after ensures CascadedRecord(hosts, before, after, id) {
      if id != h.id && !(states[id] == Record(before, id)) {
        var x :| x in hosts && x.id == id && Unfinished(x, Record(before, id)) && LostDependency(hosts, x, states);
        FailuresStay(hosts, x, states, h.id);
      }
    }
  }

  lemma FailingShrinksWork(hosts: seq<HostConfig>, states: HostStates, h: HostConfig)
    requires UniqueIds(hosts) && h in hosts && Unfinished(h, Record(states, h.id))
    ensures Work(hosts, states[h.id := MarkFailed(Record(states, h.id))]) < Work(hosts, states)
  {
    WorkAfterUpdate(hosts, states, h, MarkFailed(Record(states, h.id)));
  }

  /** One more failure takes none away. */
  lemma FailuresStay(hosts: seq<HostConfig>, h: HostConfig, states: HostStates, id: string)
    ensures LostDependency(hosts, h, states) ==> LostDependency(hosts, h, states[id := MarkFailed(Record(states, id))])
  {
    forall d ensures FailedDependency(hosts, states, d) ==> FailedDependency(hosts, states[id := MarkFailed(Record(states, id))], d) {
    }
  }

  predicate LostDependency(hosts: seq<HostConfig>, h: HostConfig, states: HostStates) {
    exists d :: d in h.dependsOn && FailedDependency(hosts, states, d)
  }

  /** `after` differs from `before` only in hosts that were unfinished and are now failed. */
  ghost predicate Cascaded(hosts: seq<HostConfig>, before: HostStates, after: HostStates) {
    && before.Keys <= after.Keys
    && forall id :: id in after ==> CascadedRecord(hosts, before, after, id)
  }

  predicate CascadedRecord(hosts: seq<HostConfig>, before: HostStates, after: HostStates, id: string)
    requires id in after
  {
    || after[id] == Record(before, id)
    || (after[id] == MarkFailed(Record(before, id))
        && exists h :: h in hosts && h.id == id && Unfinished(h, Record(before, id)) && LostDependency(hosts, h, after))
  }

  // ---------------------------------------------------------------- the measure

  /** Steps this host can still take before it is online or failed. */
  function HostWork(h: HostConfig, hs: HostState): nat {
    if !Unfinished(h, hs) then 0
    else if hs.recoveryState == RecoveryNotRequired || hs.wakeAttempts >= MaxWakeAttempts(h) then 1
    else MaxWakeAttempts(h) - hs.wakeAttempts + 1
  }

  /** Steps the whole recovery can still take. */
  function Work(hosts: seq<HostConfig>, states: HostStates): nat {
    if hosts == [] then 0
    else
      var h := hosts[|hosts| - 1];
      Work(hosts[..|hosts| - 1], states) + HostWork(h, Record(states, h.id))
  }

  lemma {:induction false} WorkIgnoresOthers(hosts: seq<HostConfig>, states: HostStates, id: string, hs: HostState)
    requires forall h :: h in hosts ==> h.id != id
    ensures Work(hosts, states[id := hs]) == Work(hosts, states)
  {
    if hosts != [] {
      WorkIgnoresOthers(hosts[..|hosts| - 1], states, id, hs);
    }
  }

  lemma {:induction false} WorkAfterUpdate(hosts: seq<HostConfig>, states: HostStates, h: HostConfig, hs: HostState)
    requires UniqueIds(hosts) && h in hosts
    ensures Work(hosts, states[h.id := hs]) + HostWork(h, Record(states, h.id)) == Work(hosts, states) + HostWork(h, hs)
  {
    var init, last := hosts[..|hosts| - 1], hosts[|hosts| - 1];
    if h == last {
      WorkIgnoresOthers(init, states, h.id, hs);
    } else {
      assert h in init;
      WorkAfterUpdate(init, states, h, hs);
    }
  }

  // ---------------------------------------------------------------- when there is nobody left to work on

  /** A recorded host that recovery is for and has not finished. */
  predicate Waits(h: HostConfig, states: HostStates) {
    h.id in states && EligibleForRestore(h, states[h.id]) && !Terminal(states[h.id].recoveryState)
  }

  /**
   * A chain of dependencies through waiting hosts that ends at a host recovery is for although its record says that
   * none is required, so that nobody will ever bring it online.
   */
  predicate Chain(e: map<string, HostConfig>, states: HostStates, w: seq<string>) {
    && |w| >= 2 && Walk(EligibleGraph(e), w)
    && (forall i :: 0 <= i < |w| - 1 ==> !Terminal(Record(states, w[i]).recoveryState))
    && Record(states, w[|w| - 1]).recoveryState == RecoveryNotRequired
  }

  ghost predicate Held(hosts: seq<HostConfig>, states: HostStates, id: string) {
    exists w :: Chain(Eligible(hosts, states), states, w) && w[0] == id
  }

  /** Recovery is not over and every host it still waits for is held. */
  ghost predicate Stalled(hosts: seq<HostConfig>, states: HostStates) {
    && !RecoverySettled(hosts, states) && Unblocked(hosts, states, hosts)
    && forall h :: h in hosts && Waits(h, states) ==> Held(hosts, states, h.id)
  }

  /** While recovery is unsettled and nobody is blocked, a host can be restored next unless recovery is stalled. */
  lemma UnsettledHasCandidate(hosts: seq<HostConfig>, states: HostStates, next: Next)
    requires UniqueIds(hosts) && Unblocked(hosts, states, hosts) && !RecoverySettled(hosts, states)
    requires IsNext(hosts, states, next) && !next.CycleDetected?
    ensures next.Candidate? <==> !Stalled(hosts, states)
  {
    if next.Candidate? {
      CandidateIsEligible(hosts, states, next.host);
      CandidateIsNotHeld(hosts, states, next.host);
    } else {
      NobodyIsFree(hosts, states, next);
    }
  }

  lemma CandidateIsNotHeld(hosts: seq<HostConfig>, states: HostStates, c: HostConfig)
    requires UniqueIds(hosts) && c in hosts && Waits(c, states) && DependenciesOnline(hosts, states, c)
    ensures !Held(hosts, states, c.id)
  {
    var e := Eligible(hosts, states);
    EligibleMembers(hosts, states);
    FindFinds(hosts, c.id);
    forall d | Edge(EligibleGraph(e), c.id, d) ensures Record(states, d).recoveryState == Online {
      FindFinds(hosts, d);
      assert e[c.id] == c && DependencyOnline(hosts, states, d);
    }
    forall w ensures !(Chain(e, states, w) && w[0] == c.id) {
      assert |w| >= 2 && Walk(EligibleGraph(e), w) ==> Edge(EligibleGraph(e), w[0], w[1]);
    }
  }

  lemma NobodyIsFree(hosts: seq<HostConfig>, states: HostStates, next: Next)
    requires UniqueIds(hosts) && Unblocked(hosts, states, hosts) && IsNext(hosts, states, next) && next.Nobody?
    ensures forall h :: h in hosts && Waits(h, states) ==> Held(hosts, states, h.id)
  {
    var e := Eligible(hosts, states);
    var plan :| IsRecoveryPlan(e, plan) && next == Choice(hosts, states, plan);
    PlanIsTopologicalPermutation(e, plan);
    EligibleMembers(hosts, states);
    forall h | h in hosts && Waits(h, states) ensures Held(hosts, states, h.id) {
      assert h.id in Members(plan);
      var k :| 0 <= k < |plan| && plan[k] == h.id;
      NotFreeIsHeld(hosts, states, plan, k);
    }
  }

  /** The `k`-th host of the plan waits and is not open; by the order of the plan its chain is finite. */
  lemma {:induction false} NotFreeIsHeld(hosts: seq<HostConfig>, states: HostStates, plan: seq<string>, k: nat)
    requires UniqueIds(hosts) && Unblocked(hosts, states, hosts) && k < |plan|
    requires Distinct(plan) && Members(plan) == Eligible(hosts, states).Keys
    requires DependenciesFirst(EligibleGraph(Eligible(hosts, states)), plan)
    requires NextOf(hosts, states, plan).None? && !Terminal(Record(states, plan[k]).recoveryState)
    ensures Held(hosts, states, plan[k])
  {
    var e := Eligible(hosts, states);
    var id := plan[k];
    var d := Hindrance(hosts, states, plan, k);
    assert Edge(EligibleGraph(e), id, d);
    if states[d].recoveryState == RecoveryNotRequired {
      assert Chain(e, states, [id, d]);
    } else {
      assert d in plan[..k];
      var j :| 0 <= j < k && plan[j] == d;
      NotFreeIsHeld(hosts, states, plan, j);
      var w :| Chain(e, states, w) && w[0] == d;
      ChainGrows(e, states, id, w);
    }
  }

  lemma ChainGrows(e: map<string, HostConfig>, states: HostStates, id: string, w: seq<string>)
    requires Chain(e, states, w) && Edge(EligibleGraph(e), id, w[0]) && !Terminal(Record(states, id).recoveryState)
    ensures Chain(e, states, [id] + w)
  {
    var longer := [id] + w;
    forall i | 0 <= i < |longer| - 1
      ensures Edge(EligibleGraph(e), longer[i], longer[i + 1]) && !Terminal(Record(states, longer[i]).recoveryState)
    {
      if i > 0 {
        assert longer[i] == w[i - 1] && longer[i + 1] == w[i];
      }
    }
  }

  /** What keeps a waiting host that is not open: an eligible dependency that is still away and has not failed. */
  lemma Hindrance(hosts: seq<HostConfig>, states: HostStates, plan: seq<string>, k: nat) returns (d: string)
    requires UniqueIds(hosts) && Unblocked(hosts, states, hosts) && k < |plan|
    requires Members(plan) == Eligible(hosts, states).Keys
    requires NextOf(hosts, states, plan).None? && !Terminal(Record(states, plan[k]).recoveryState)
    ensures Edge(EligibleGraph(Eligible(hosts, states)), plan[k], d) && d in states
    ensures states[d].recoveryState == RecoveryNotRequired || !Terminal(states[d].recoveryState)
  {
    var id := plan[k];
    if Open(hosts, states, id) {
      OpenIsFound(hosts, states, plan, k);
    }
    assert id in Members(plan);
    EligibleMembers(hosts, states);
    FindFinds(hosts, id);
    var c := Find(hosts, id).value;
    d :| d in c.dependsOn && !DependencyOnline(hosts, states, d);
    FindFinds(hosts, d);
    assert Unfinished(c, Record(states, c.id));
    assert !FailedDependency(hosts, states, d);
  }

  lemma {:induction false} OpenIsFound(hosts: seq<HostConfig>, states: HostStates, plan: seq<string>, k: nat)
    requires k < |plan| && Open(hosts, states, plan[k])
    ensures NextOf(hosts, states, plan).Some?
  {
    if k > 0 && !Open(hosts, states, plan[0]) {
      OpenIsFound(hosts, states, plan[1..], k - 1);
    }
  }

  // ---------------------------------------------------------------- records that recovery can finish

  /** No record says that a host recovery is for needs none. */
  predicate Tracked(h: HostConfig, states: HostStates) {
    EligibleForRestore(h, Record(states, h.id)) ==> Record(states, h.id).recoveryState != RecoveryNotRequired
  }

  ghost predicate AllTracked(hosts: seq<HostConfig>, states: HostStates) {
    forall h :: h in hosts ==> Tracked(h, states)
  }

  /** With such records recovery never stalls. */
  lemma TrackedNeverStalls(hosts: seq<HostConfig>, states: HostStates)
    requires AllTracked(hosts, states)
    ensures !Stalled(hosts, states)
  {
    var e := Eligible(hosts, states);
    EligibleMembers(hosts, states);
    forall id | id in e ensures states[id].recoveryState != RecoveryNotRequired {
      assert Tracked(e[id], states);
    }
    forall w ensures !Chain(e, states, w) {
      assert |w| >= 2 && Walk(EligibleGraph(e), w) ==> Edge(EligibleGraph(e), w[|w| - 2], w[|w| - 1]);
    }
    forall id ensures !Held(hosts, states, id) {
    }
    assert RecoverySettled(hosts, states) || exists h :: h in hosts && Waits(h, states);
  }

  /**
   * Recovery does stall: while its key was missing, the storage host was left out of the outage snapshot's recovery;
   * after a restart with the key back it is to be restored again, nobody wakes it, and the server waits for it.
   */
  lemma StallHappens()
    ensures UniqueIds(LEFT_OUT) && !Cyclic(GraphOf(LEFT_OUT)) && Stalled(LEFT_OUT, LEFT_OUT_RECORDS)
  {
    LeftOutIsAccepted();
    var states := LEFT_OUT_RECORDS;
    var e := Eligible(LEFT_OUT, states);
    EligibleMembers(LEFT_OUT, states);
    assert LEFT_OUT[1] == SERVER && Waits(SERVER, states);
    assert e["server"] == SERVER && Edge(EligibleGraph(e), "server", "storage");
    assert Chain(e, states, ["server", "storage"]);
    assert !Waits(STORAGE, states);
    FindFinds(LEFT_OUT, "storage");
    assert !FailedDependency(LEFT_OUT, states, "storage");
  }

  const STORAGE := HostConfig("storage", true, "ping", "ssh", 10, true, 10, 3, 0, "previous-state", [])
  const SERVER := HostConfig("server", true, "ping", "ssh", 20, true, 20, 3, 0, "previous-state", ["storage"])
  const LEFT_OUT: seq<HostConfig> := [STORAGE, SERVER]
  const LEFT_OUT_RECORDS: HostStates :=
    map["storage" := HostState(Some(true), NotRequired, RecoveryNotRequired, 0, 0), "server" := HostState(Some(true), Completed, Waiting, 1, 0)]

  lemma LeftOutIsAccepted()
    ensures UniqueIds(LEFT_OUT) && !Cyclic(GraphOf(LEFT_OUT))
  {
    GraphOfUnique(LEFT_OUT);
    var g := GraphOf(LEFT_OUT);
    assert g[LEFT_OUT[0].id] == [] && g[LEFT_OUT[1].id] == ["storage"];
    assert forall id :: id in g ==> id == "storage" || id == "server";
    assert ["storage", "server"][..1] == ["storage"];
    OrderedIsAcyclic(g, ["storage", "server"]);
  }
}
