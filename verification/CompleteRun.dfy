/**
 * Concrete runs: one complete outage, from power loss to the first wake, so the guards of a legal history can all be
 * met; a second loss of power after which a marker of the first one survives; and a restart that finds a host back
 * which was excluded when the outage began, so that recovery stalls.
 */
module CompleteRun {
  import opened Basics
  import opened Hosts
  import opened Snapshots
  import opened Plan
  import opened Power
  import opened Policy
  import opened Histories
  import opened Recovery
  import opened Environment
  import opened Coordination
  import opened Renewal
  import opened Exclusions

  const OUT := STORAGE.(shutdownMethod := "none", wakeEnabled := false)
  const POLICY := Config(0, 0, None, 0, 0, None, 10, None, 0, 10, 0)
  const AGENT := AgentConfig("r1", POLICY, [OUT, SERVER], false)

  const BEFORE := HostState(Some(true), Planned, Waiting, 0, 0)
  const ASKED := BEFORE.(shutdownState := Requested, shutdownAttempts := 1)
  const AGREED := ASKED.(shutdownState := Acknowledged)
  const DOWN := ASKED.(shutdownState := Completed)
  const WOKEN := DOWN.(recoveryState := WolSent, wakeAttempts := 1)

  /** The server's record changes; the storage was left out and keeps its own. */
  function Only(hs: HostState): HostStates {
    map["storage" := LEFT_OUT_RECORDS["storage"], "server" := hs]
  }

  function Generation(sequence: nat, power: PowerState, committed: bool, recovering: bool, hosts: HostStates): State {
    State(VERSION, "tx", "", sequence, power, committed, recovering, "r1", 0, hosts)
  }

  function Reading(utility: Utility, low: bool): Inputs {
    Inputs(Ups(utility, low, false, None, None), true, true)
  }

  function Saved(h: History, st: State, why: Cause): History {
    Then(h, Write(st, why, Done))
  }

  /** The process is between transitions over this generation, and has not begun to wake anybody. */
  ghost predicate RestsAs(cfg: AgentConfig, h: History, st: State, m: Memory) {
    && Legal(h) && LastWake(h).None? && FirstSelection(h).None? && Replay(h) == System(Some(st), Some(Process(cfg, m, None, false)), {"tx"})
    && forall x :: x in Started(h) ==> x == AGENT || x == cfg
  }

  ghost predicate Rests(h: History, st: State, m: Memory) {
    RestsAs(AGENT, h, st, m)
  }

  lemma AgentIsValid()
    ensures ValidConfig(AGENT)
  {
    LeftOutIsAccepted();
    SameGraph(AGENT.hosts, LEFT_OUT);
  }

  lemma SameGraph(a: seq<HostConfig>, b: seq<HostConfig>)
    requires |a| == |b| && forall i :: 0 <= i < |a| ==> a[i].id == b[i].id && a[i].dependsOn == b[i].dependsOn
    ensures GraphOf(a) == GraphOf(b)
  {
    if a != [] {
      SameGraph(a[..|a| - 1], b[..|b| - 1]);
    }
  }

  const M0 := Memory(Generation(1, BootReconcile, false, false, map[]), BootReconcile, None, None, None, None, None, 0)

  lemma BootsAs(cfg: AgentConfig, id: string) returns (h: History)
    requires ValidConfig(cfg) && cfg.revision == "r1"
    ensures RestsAs(cfg, h, M0.st, M0) && LastStep(h).None? && Forced(h) == 0 && !SentSinceCommit(h, id)
  {
    var provisioned := Then(Origin, Provisioned(M0.st));
    assert Replay(provisioned) == System(Some(M0.st), None, {"tx"});
    assert Legal(Origin) && Legal(provisioned);
    assert Enabled(provisioned, Booted(cfg));
    assert Started(provisioned) == [] && !SentSinceCommit(provisioned, id);
    h := Then(provisioned, Booted(cfg));
  }

  lemma Boots() returns (h: History)
    ensures Rests(h, M0.st, M0) && !SentSinceCommit(h, "server") && LastStep(h).None?
  {
    AgentIsValid();
    h := BootsAs(AGENT, "server");
  }

  lemma NothingStarted(h: History, e: Event)
    requires !e.Booted?
    ensures Started(Then(h, e)) == Started(h)
  {
    assert Started(h) + [] == Started(h);
  }

  /** A changed step and the write of its outcome. */
  lemma StepAndSaveAs(cfg: AgentConfig, h: History, st: State, m: Memory, now: int, inp: Inputs, m1: Memory, id: string) returns (after: History)
    requires cfg.policy == POLICY && RestsAs(cfg, h, st, m) && (LastStep(h).Some? ==> LastStep(h).value.now <= now)
    requires m.st.power == BootReconcile ==> !Interrupted(st)
    requires Step(POLICY, m, now, inp).Accepted? && Step(POLICY, m, now, inp).decision.changed
    requires m1.st.sequence == st.sequence + 1 && m1 == Step(POLICY, m, now, inp).memory.(st := m1.st)
    requires SameButSequence(m1.st, Step(POLICY, m, now, inp).memory.st) && ValidSemantic(m1.st) && m1.st.transactionId == "tx"
    ensures RestsAs(cfg, after, m1.st, m1) && LastStep(after) == Some(Stepped(now, inp)) && !WokeSinceStep(after)
    ensures CutOf(h, after) && Forced(after) == Forced(h) && (!SentSinceCommit(h, id) ==> !SentSinceCommit(after, id))
  {
    var stepped := Then(h, Stepped(now, inp));
    assert Enabled(h, Stepped(now, inp));
    assert Replay(stepped) == System(Some(st), Some(Process(cfg, Step(POLICY, m, now, inp).memory, Some(m.st), false)), {"tx"});
    assert Enabled(stepped, Write(m1.st, Decided, Done));
    assert {"tx"} + {"tx"} == {"tx"};
    after := Saved(stepped, m1.st, Decided);
    assert CutOf(h, stepped);
    NothingStarted(h, stepped.last);
    NothingStarted(stepped, after.last);
  }

  lemma StepAndSave(h: History, st: State, m: Memory, now: int, inp: Inputs, m1: Memory) returns (after: History)
    requires Rests(h, st, m) && (LastStep(h).Some? ==> LastStep(h).value.now <= now)
    requires m.st.power == BootReconcile ==> !Interrupted(st)
    requires Step(POLICY, m, now, inp).Accepted? && Step(POLICY, m, now, inp).decision.changed
    requires m1.st.sequence == st.sequence + 1 && m1 == Step(POLICY, m, now, inp).memory.(st := m1.st)
    requires SameButSequence(m1.st, Step(POLICY, m, now, inp).memory.st) && ValidSemantic(m1.st) && m1.st.transactionId == "tx"
    ensures Rests(after, m1.st, m1) && LastStep(after) == Some(Stepped(now, inp)) && !WokeSinceStep(after)
    ensures CutOf(h, after) && (!SentSinceCommit(h, "server") ==> !SentSinceCommit(after, "server"))
  {
    after := StepAndSaveAs(AGENT, h, st, m, now, inp, m1, "server");
  }

  /** A write about one host needs only that host's record to be in order. */
  lemma MayRecord(h: History, p: Process, id: string, hs: HostState, states: HostStates)
    requires Replay(h).process == Some(p) && p.memory.st.power in {ShutdownInProgress, RestoreHosts}
    requires HostMayBecome(h, p.cfg.hosts, p.memory.st.hosts, id, hs) && states == p.memory.st.hosts[id := hs]
    ensures HostsAdvance(p.memory.st, states) && Witnessed(h, states)
  {
    OneHostMayBeWritten(h, id, hs);
  }

  /** A write of host records. */
  lemma SaveHostsAs(cfg: AgentConfig, h: History, m: Memory, st: State, id: string)
    requires RestsAs(cfg, h, m.st, m) && m.st.power in {OnBattery, ShutdownInProgress, RestoreHosts}
    requires st == m.st.(hosts := st.hosts, sequence := m.st.sequence + 1) && st.transactionId == "tx"
    requires ValidSemantic(st) && HostsAdvance(m.st, st.hosts) && Witnessed(h, st.hosts)
    requires m.st.power == OnBattery ==> Snapshotted(cfg.hosts, m.st.hosts, st.hosts)
    ensures RestsAs(cfg, Saved(h, st, HostRecords), st, m.(st := st)) && Forced(Saved(h, st, HostRecords)) == Forced(h)
    ensures LastStep(Saved(h, st, HostRecords)) == LastStep(h) && WokeSinceStep(Saved(h, st, HostRecords)) == WokeSinceStep(h)
    ensures SentSinceCommit(Saved(h, st, HostRecords), id) == SentSinceCommit(h, id)
  {
    assert Enabled(h, Write(st, HostRecords, Done));
    assert {"tx"} + {"tx"} == {"tx"};
    NothingStarted(h, Write(st, HostRecords, Done));
  }

  lemma SaveHosts(h: History, m: Memory, hs: HostState, st: State)
    requires Rests(h, m.st, m) && m.st.power in {OnBattery, ShutdownInProgress, RestoreHosts}
    requires st == m.st.(hosts := Only(hs), sequence := m.st.sequence + 1) && st.transactionId == "tx"
    requires ValidSemantic(st) && HostsAdvance(m.st, st.hosts) && Witnessed(h, st.hosts)
    requires m.st.power == OnBattery ==> Snapshotted(AGENT.hosts, m.st.hosts, st.hosts)
    ensures Rests(Saved(h, st, HostRecords), st, m.(st := st))
    ensures LastStep(Saved(h, st, HostRecords)) == LastStep(h) && WokeSinceStep(Saved(h, st, HostRecords)) == WokeSinceStep(h)
    ensures SentSinceCommit(Saved(h, st, HostRecords), "server") == SentSinceCommit(h, "server")
  {
    SaveHostsAs(AGENT, h, m, st, "server");
  }

  /** An event that leaves disk and memory as they are. */
  lemma ObserveAs(cfg: AgentConfig, h: History, m: Memory, e: Event)
    requires RestsAs(cfg, h, m.st, m) && Enabled(h, e) && (e.Probed? || e.ShutdownSent? || e.FsdRequested?)
    ensures RestsAs(cfg, Then(h, e), m.st, m) && LastStep(Then(h, e)) == LastStep(h)
    ensures Forced(Then(h, e)) == Forced(h) + if e.FsdRequested? then 1 else 0
  {
    NothingStarted(h, e);
  }

  lemma Observe(h: History, m: Memory, e: Event)
    requires Rests(h, m.st, m) && Enabled(h, e) && (e.Probed? || e.ShutdownSent?)
    ensures Rests(Then(h, e), m.st, m) && LastStep(Then(h, e)) == LastStep(h)
  {
    ObserveAs(AGENT, h, m, e);
  }

  function At(m: Memory, st: State): Memory { m.(st := st) }

  // Power fails, the host is recorded as running, the battery runs low.
  const M1 := Memory(Generation(2, OnBattery, false, false, map[]), BootReconcile, Some(0), None, None, None, Some(0), 0)
  const M2 := At(M1, Generation(3, OnBattery, false, false, Only(BEFORE)))
  const M3 := At(M2, Generation(4, ShutdownCommitted, true, false, Only(BEFORE)))
  const M4 := At(M3, Generation(5, ShutdownInProgress, true, false, Only(BEFORE)))

  lemma SnapshotOfBoth()
    ensures Snapshotted(AGENT.hosts, map[], Only(BEFORE))
  {
    assert AGENT.hosts[0] == OUT && AGENT.hosts[1] == SERVER;
    assert Snapped(OUT, map[], Only(BEFORE)) && Snapped(SERVER, map[], Only(BEFORE));
  }

  /** What a snapshot records of these two hosts is what was just read of them. */
  lemma SnapshotIsWitnessed(h: History)
    requires h.Then? && h.last == Probed("server", Some(true)) && h.past.Then? && h.past.last == Probed("storage", Some(true))
    requires Replay(h).process == Some(Process(AGENT, M1, None, false))
    ensures HostsAdvance(M1.st, Only(BEFORE)) && Witnessed(h, Only(BEFORE))
  {
    assert ReadingThisTick(h, "storage") == ReadingThisTick(h.past, "storage") == Some(Some(true));
    assert ReadingThisTick(h, "server") == Some(Some(true));
    forall c | c in AGENT.hosts ensures c == OUT || c == SERVER {
    }
  }

  lemma BothAreObserved(before: History) returns (h: History)
    requires Rests(before, M1.st, M1) && !SentSinceCommit(before, "server")
    ensures Rests(h, M1.st, M1) && LastStep(h) == LastStep(before) && !SentSinceCommit(h, "server")
    ensures HostsAdvance(M1.st, Only(BEFORE)) && Witnessed(h, Only(BEFORE))
  {
    Observe(before, M1, Probed("storage", Some(true)));
    var between := Then(before, Probed("storage", Some(true)));
    Observe(between, M1, Probed("server", Some(true)));
    h := Then(between, Probed("server", Some(true)));
    SnapshotIsWitnessed(h);
  }

  lemma OutageBegins() returns (h: History)
    ensures Rests(h, M2.st, M2) && !SentSinceCommit(h, "server") && LastStep(h).Some? && LastStep(h).value.now == 0
  {
    h := Boots();
    h := StepAndSave(h, M0.st, M0, 0, Reading(UtilityOnBattery, false), M1);
    h := BothAreObserved(h);
    SnapshotOfBoth();
    SaveHosts(h, M1, BEFORE, M2.st);
    h := Saved(h, M2.st, HostRecords);
  }

  lemma PowerFails() returns (h: History)
    ensures Rests(h, M4.st, M4) && !SentSinceCommit(h, "server") && LastStep(h).Some? && LastStep(h).value.now == 1
  {
    h := OutageBegins();
    h := StepAndSave(h, M2.st, M2, 1, Reading(UtilityOnBattery, true), M3);
    h := StepAndSave(h, M3.st, M3, 1, Reading(UtilityOnBattery, true), M4);
  }

  // The host is asked to shut down, agrees, and is seen to go.
  const M5 := At(M4, Generation(6, ShutdownInProgress, true, false, Only(ASKED)))
  const M6 := At(M5, Generation(7, ShutdownInProgress, true, false, Only(AGREED)))
  const M7 := At(M6, Generation(8, ShutdownInProgress, true, false, Only(DOWN)))

  lemma PlanOfBoth()
    ensures ShutdownPlanOf(AGENT.hosts).preFsd == [SERVER]
  {
    assert [OUT, SERVER][..1] == [OUT] && [OUT][..0] == [];
    assert Select([OUT], Direct) == Select([], Direct) + [];
    assert Select([OUT, SERVER], Direct) == Select([OUT], Direct) + [SERVER];
  }

  lemma FirstInOrder(states: HostStates)
    ensures var order := ShutdownPlanOf(AGENT.hosts).preFsd;
      exists k :: 0 <= k < |order| && order[k].id == "server" && forall j :: 0 <= j < k ==> Settled(order[j], states)
  {
    PlanOfBoth();
    assert ShutdownPlanOf(AGENT.hosts).preFsd[0].id == "server";
  }

  lemma MayAsk(before: History, h: History)
    requires h == Saved(before, M5.st, HostRecords) && !SentSinceCommit(h, "server")
    requires Replay(before).process == Some(Process(AGENT, M4, None, false)) && Replay(h).process == Some(Process(AGENT, M5, None, false))
    ensures ShutdownAllowed(h, "server")
  {
    assert JustRecorded(h, "server", DirectShutdown);
    FirstInOrder(M5.st.hosts);
  }

  lemma RequestIsRecorded(before: History) returns (h: History)
    requires Rests(before, M4.st, M4) && !SentSinceCommit(before, "server")
    ensures CutOf(before, h)
    ensures Rests(h, M5.st, M5) && LastStep(h) == LastStep(before) && ShutdownAllowed(h, "server")
  {
    SaveHosts(before, M4, ASKED, M5.st);
    h := Saved(before, M5.st, HostRecords);
    MayAsk(before, h);
  }

  lemma ShutdownIsAsked(before: History) returns (h: History)
    requires Rests(before, M5.st, M5) && ShutdownAllowed(before, "server")
    ensures CutOf(before, h)
    ensures Rests(h, M5.st, M5) && LastStep(h) == LastStep(before) && h.Then? && h.last == ShutdownSent("server", Some(DirectRequested))
  {
    Observe(before, M5, ShutdownSent("server", Some(DirectRequested)));
    h := Then(before, ShutdownSent("server", Some(DirectRequested)));
  }

  lemma MayAgree(h: History)
    requires h.Then? && h.last == ShutdownSent("server", Some(DirectRequested)) && Replay(h).process == Some(Process(AGENT, M5, None, false))
    ensures HostsAdvance(M5.st, Only(AGREED)) && Witnessed(h, Only(AGREED))
  {
    assert Told(h, "server");
  }

  lemma HostAgrees(before: History) returns (h: History)
    requires Rests(before, M5.st, M5) && before.Then? && before.last == ShutdownSent("server", Some(DirectRequested))
    ensures CutOf(before, h)
    ensures Rests(h, M6.st, M6) && LastStep(h) == LastStep(before)
  {
    MayAgree(before);
    SaveHosts(before, M5, AGREED, M6.st);
    h := Saved(before, M6.st, HostRecords);
  }

  lemma HostIsSeenOffline(before: History) returns (h: History)
    requires Rests(before, M6.st, M6)
    ensures CutOf(before, h)
    ensures Rests(h, M6.st, M6) && LastStep(h) == LastStep(before) && h.Then? && h.last == Probed("server", Some(false))
  {
    Observe(before, M6, Probed("server", Some(false)));
    h := Then(before, Probed("server", Some(false)));
  }

  lemma MayFinish(h: History)
    requires h.Then? && h.last == Probed("server", Some(false)) && Replay(h).process == Some(Process(AGENT, M6, None, false))
    ensures HostsAdvance(M6.st, Only(DOWN)) && Witnessed(h, Only(DOWN))
  {
    assert JustSeen(h, "server", false);
    MayRecord(h, Process(AGENT, M6, None, false), "server", DOWN, Only(DOWN));
  }

  lemma HostIsDown(before: History) returns (h: History)
    requires Rests(before, M6.st, M6) && before.Then? && before.last == Probed("server", Some(false))
    ensures CutOf(before, h)
    ensures Rests(h, M7.st, M7) && LastStep(h) == LastStep(before)
  {
    MayFinish(before);
    SaveHosts(before, M6, DOWN, M7.st);
    h := Saved(before, M7.st, HostRecords);
  }

  // The phase is over, power returns and proves itself, recovery is committed and wakes the host.
  const M8 := At(M7, Generation(9, WaitingForAC, true, false, Only(DOWN)))
  const ONLINE := Reading(UtilityOnline, false)
  const M9 := At(M8, Generation(10, RecoveryWait, true, false, Only(DOWN))).(onlineSince := Some(2))
  const M10 := At(M9, Generation(11, RecoveryStarted, true, true, Only(DOWN)))
  const M11 := At(M10, Generation(12, RestoreHosts, true, true, Only(DOWN)))
  const M12 := At(M11, Generation(13, RestoreHosts, true, true, Only(WOKEN)))

  /** The server is down and nothing forces a shutdown, so the phase may end. */
  lemma PhaseMayEnd(before: History) returns (done: History)
    requires Rests(before, M7.st, M7)
    ensures done == Then(before, ShutdownPhaseDone) && Legal(done) && LastWake(done).None? && FirstSelection(done).None?
    ensures Replay(done) == System(Some(M7.st), Some(Process(AGENT, At(M7, M7.st.(power := WaitingForAC)), Some(M7.st), false)), {"tx"})
    ensures Started(done) == Started(before)
  {
    done := Then(before, ShutdownPhaseDone);
    assert Enabled(before, ShutdownPhaseDone);
    NothingStarted(before, done.last);
  }

  lemma PhaseEnds(before: History) returns (h: History)
    requires Rests(before, M7.st, M7)
    ensures CutOf(before, h)
    ensures Rests(h, M8.st, M8) && LastStep(h) == LastStep(before)
  {
    var done := PhaseMayEnd(before);
    assert Enabled(done, Write(M8.st, Decided, Done));
    assert {"tx"} + {"tx"} == {"tx"};
    h := Saved(done, M8.st, Decided);
    assert CutOf(before, done);
    NothingStarted(done, h.last);
  }

  lemma PowerReturns(before: History) returns (h: History)
    requires Rests(before, M8.st, M8) && LastStep(before).Some? && LastStep(before).value.now == 1
    ensures CutOf(before, h)
    ensures Rests(h, M9.st, M9) && LastStep(h) == Some(Stepped(2, ONLINE))
  {
    h := StepAndSave(before, M8.st, M8, 2, ONLINE, M9);
  }

  lemma RecoveryBegins(before: History) returns (h: History)
    requires Rests(before, M9.st, M9) && LastStep(before) == Some(Stepped(2, ONLINE))
    ensures CutOf(before, h)
    ensures Rests(h, M11.st, M11) && LastStep(h) == Some(Stepped(13, ONLINE)) && !WokeSinceStep(h)
  {
    var committed := StepAndSave(before, M9.st, M9, 12, ONLINE, M10);
    h := StepAndSave(committed, M10.st, M10, 13, ONLINE, M11);
    CutOfIsTransitive(before, committed, h);
  }

  lemma WakeIsRecorded(before: History) returns (h: History)
    requires Rests(before, M11.st, M11) && LastStep(before) == Some(Stepped(13, ONLINE)) && !WokeSinceStep(before)
    ensures CutOf(before, h)
    ensures Rests(h, M12.st, M12) && WakeAllowed(h, "server")
  {
    var looked := Then(before, Probed("server", Some(false)));
    Observe(before, M11, looked.last);
    MayRecord(looked, Process(AGENT, M11, None, false), "server", WOKEN, Only(WOKEN));
    SaveHosts(looked, M11, WOKEN, M12.st);
    h := Saved(looked, M12.st, HostRecords);
    assert CutOf(before, looked);
    MayWake(looked, h);
  }

  lemma MayWake(before: History, h: History)
    requires h == Saved(before, M12.st, HostRecords) && LastStep(h).Some? && !WokeSinceStep(h)
    requires before.Then? && before.last == Probed("server", Some(false))
    requires Replay(before).process == Some(Process(AGENT, M11, None, false)) && Replay(h).process == Some(Process(AGENT, M12, None, false))
    requires LastWake(h).None? && FirstSelection(h).None?
    ensures WakeAllowed(h, "server")
  {
    assert JustRecorded(h, "server", Wake);
    assert ReadingThisTick(h, "server") == ReadingThisTick(before, "server") == Some(Some(false));
    assert AGENT.hosts[0] == OUT && AGENT.hosts[1] == SERVER;
    NobodyToWaitFor();
  }

  lemma NobodyToWaitFor()
    ensures DependenciesOnline(AGENT.hosts, Only(WOKEN), SERVER)
  {
    AgentIsValid();
    assert AGENT.hosts[0] == OUT;
    FindFinds(AGENT.hosts, "storage");
  }

  /** A host that was running when the power failed is asked to shut down and seen to go; recovery then begins. */
  lemma RestoreBegins() returns (asked: History, seen: History, h: History)
    ensures Rests(h, M11.st, M11) && LastStep(h) == Some(Stepped(13, ONLINE)) && !WokeSinceStep(h)
    ensures asked.Then? && asked.last == ShutdownSent("server", Some(DirectRequested)) && CutOf(asked, seen)
    ensures seen.Then? && seen.last == Probed("server", Some(false)) && CutOf(seen, h)
  {
    var h0 := PowerFails();
    var recorded := RequestIsRecorded(h0);
    asked := ShutdownIsAsked(recorded);
    var agreed := HostAgrees(asked);
    seen := HostIsSeenOffline(agreed);
    CutOfIsTransitive(asked, agreed, seen);
    h := Restored(seen);
  }

  lemma Restored(seen: History) returns (h: History)
    requires Rests(seen, M6.st, M6) && seen.Then? && seen.last == Probed("server", Some(false))
    requires LastStep(seen).Some? && LastStep(seen).value.now == 1
    ensures Rests(h, M11.st, M11) && LastStep(h) == Some(Stepped(13, ONLINE)) && !WokeSinceStep(h) && CutOf(seen, h)
  {
    var down := HostIsDown(seen);
    var ended := PhaseEnds(down);
    CutOfIsTransitive(seen, down, ended);
    var returned := PowerReturns(ended);
    CutOfIsTransitive(seen, ended, returned);
    h := RecoveryBegins(returned);
    CutOfIsTransitive(seen, returned, h);
  }

  /** After its request and the sighting that it is down, the host is woken again. */
  lemma RecoveryWakes() returns (asked: History, seen: History, h: History)
    ensures Legal(h) && h.Then? && h.last == Woke("server")
    ensures asked.Then? && asked.last == ShutdownSent("server", Some(DirectRequested)) && CutOf(asked, seen)
    ensures seen.Then? && seen.last == Probed("server", Some(false)) && CutOf(seen, h)
  {
    var before;
    asked, seen, before := RestoreBegins();
    var recorded := WakeIsRecorded(before);
    CutOfIsTransitive(seen, before, recorded);
    h := Then(recorded, Woke("server"));
  }

  // Power fails again before the host is woken, and the agent with it, once the engine's answer is on disk. The
  // restarted agent reads ONLINE, then ON_BATTERY.
  const D13 := Generation(13, OnBattery, true, false, Only(DOWN))
  const OFF := Reading(UtilityOnBattery, false)
  const M13 := At(M11, D13).(onlineSince := None)
  const M14 := Boot(D13).(st := Generation(14, RecoveryWait, true, false, Only(DOWN)), onlineSince := Some(0))
  const M15 := M14.(st := Generation(15, WaitingForAC, true, false, Only(DOWN)), onlineSince := None)

  lemma PowerFailsAgain(before: History) returns (h: History)
    requires Rests(before, M11.st, M11) && LastStep(before) == Some(Stepped(13, ONLINE))
    ensures Rests(h, D13, Boot(D13)) && LastStep(h).None? && h.Then? && h.last == Booted(AGENT) && CutOf(before, h)
  {
    var stopped := StepAndSave(before, M11.st, M11, 14, OFF, M13);
    AgentIsValid();
    assert Enabled(stopped, Booted(AGENT));
    h := Then(stopped, Booted(AGENT));
  }

  /**
   * The limit of the promise that a renewed outage leaves nobody marked as shut down. A run ends with an ON_BATTERY
   * reading, the first since a restart on a disk inside a renewal; only an ONLINE one came between. The
   * host is still marked as shut down, for the transaction it was shut down in.
   */
  lemma StaleMarkerSurvives() returns (restarted: History, h: History)
    ensures Legal(h) && CutOf(restarted, h) && restarted.Then? && restarted.last == Booted(AGENT)
    ensures Replay(restarted).disk == Some(D13) && InRenewal(D13) && D13.shutdownCommitted && RecoveryEnabled(POLICY)
    ensures LastStep(h) == Some(Stepped(1, OFF)) && OFF.ups.utility == UtilityOnBattery
    ensures Replay(h).process.Some? && Replay(h).process.value.memory == M15
    ensures M15.st.power == WaitingForAC && M15.st.transactionId == D13.transactionId && M15.st.hosts["server"].shutdownState == Completed
  {
    hide Legal, Replay, LastWake, FirstSelection, Started, Forced, SentSinceCommit;
    var asked, seen, before := RestoreBegins();
    restarted := PowerFailsAgain(before);
    var waiting := StepAndSave(restarted, D13, Boot(D13), 0, ONLINE, M14);
    h := StepAndSave(waiting, M14.st, M14, 1, OFF, M15);
    CutOfIsTransitive(restarted, waiting, h);
  }

  // The key of the storage is back when the agent restarts while it waits for power.
  const WHOLE := AGENT.(hosts := LEFT_OUT)
  const N9 := Boot(M8.st).(st := M9.st, onlineSince := Some(0))
  const N10 := N9.(st := M10.st)
  const N11 := N10.(st := M11.st)

  lemma BothRunTheRevision()
    ensures ValidConfig(WHOLE) && AGENT.hosts == WithExclusions(LEFT_OUT, {"storage"}) && WHOLE.hosts == WithExclusions(LEFT_OUT, {})
  {
    LeftOutIsAccepted();
    ExclusionLeavesRecord();
    assert LEFT_OUT[..1] == [STORAGE] && [STORAGE][..0] == [];
    assert WithExclusions([STORAGE], {"storage"}) == [OUT];
  }

  lemma RestartsWhole(before: History) returns (h: History)
    requires Rests(before, M8.st, M8)
    ensures RestsAs(WHOLE, h, M8.st, Boot(M8.st)) && LastStep(h).None? && h == Then(before, Booted(WHOLE))
  {
    BothRunTheRevision();
    assert Enabled(before, Booted(WHOLE));
    h := Then(before, Booted(WHOLE));
  }

  lemma WaitsForPower() returns (h: History)
    ensures Rests(h, M8.st, M8)
  {
    h := PowerFails();
    h := RequestIsRecorded(h);
    h := ShutdownIsAsked(h);
    h := HostAgrees(h);
    h := HostIsSeenOffline(h);
    h := HostIsDown(h);
    h := PhaseEnds(h);
  }

  lemma WaitsWhole(before: History) returns (h: History)
    requires RestsAs(WHOLE, before, M8.st, Boot(M8.st)) && LastStep(before).None?
    ensures RestsAs(WHOLE, h, N9.st, N9) && LastStep(h) == Some(Stepped(0, ONLINE))
  {
    h := StepAndSaveAs(WHOLE, before, M8.st, Boot(M8.st), 0, ONLINE, N9, "server");
  }

  lemma RestoresWhole(before: History) returns (h: History)
    requires RestsAs(WHOLE, before, N9.st, N9) && LastStep(before) == Some(Stepped(0, ONLINE))
    ensures RestsAs(WHOLE, h, N11.st, N11)
  {
    h := StepAndSaveAs(WHOLE, before, N9.st, N9, 10, ONLINE, N10, "server");
    h := StepAndSaveAs(WHOLE, h, N10.st, N10, 11, ONLINE, N11, "server");
  }

  lemma {:induction false} StartedRunRevisions(h: History, table: Configurations)
    requires forall cfg :: cfg in Started(h) ==> RunsRevision(cfg, table)
    ensures RunsRevisions(h, table)
  {
    if h.Then? {
      assert forall cfg :: cfg in Started(h.past) ==> cfg in Started(h);
      assert h.last.Booted? ==> h.last.cfg in Started(h);
      StartedRunRevisions(h.past, table);
    }
  }

  /**
   * The limit of the promise that recovery ends: a legal run of two processes of one revision, the second with the
   * host back that the first had to leave out, after which recovery is stalled.
   */
  lemma RecoveryStalls() returns (h: History)
    ensures Legal(h) && RunsRevisions(h, map["r1" := LEFT_OUT])
    ensures Replay(h).process == Some(Process(WHOLE, N11, None, false))
    ensures N11.st.power == RestoreHosts && Stalled(WHOLE.hosts, N11.st.hosts)
  {
    var waiting := WaitsForPower();
    var restarted := RestartsWhole(waiting);
    h := WaitsWhole(restarted);
    h := RestoresWhole(h);
    BothRunTheRevision();
    ExclusionLeavesRecord();
    var table := map["r1" := LEFT_OUT];
    assert Excludable(LEFT_OUT, {"storage"}) && Excludable(LEFT_OUT, {});
    assert RunsRevision(AGENT, table) && RunsRevision(WHOLE, table);
    StartedRunRevisions(h, table);
    StallHappens();
    assert N11.st.hosts == LEFT_OUT_RECORDS;
  }
}
