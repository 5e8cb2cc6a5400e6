/** Order, repetition and bounds of shutdown requests within one committed shutdown. */
module ShutdownTheorems {
  import opened Basics
  import opened Hosts
  import opened Plan
  import opened Power
  import opened Policy
  import opened Histories
  import opened Invariants
  import opened EffectTheorems

  predicate ShuttingDown(power: PowerState) {
    power == ShutdownCommitted || power == ShutdownInProgress
  }

  predicate IsCommit(h: History) {
    h.Then? && h.last.Stepped? && LastAction(h) == CommitShutdown
  }

  /** All forced-shutdown requests since the shutdown was last committed. */
  function FsdSince(h: History): nat {
    if h.Origin? || IsCommit(h) then 0
    else FsdSince(h.past) + if h.last.FsdRequested? then 1 else 0
  }

  predicate InNutGroup(cfg: AgentConfig, id: string) {
    exists h :: h in cfg.hosts && h.id == id && NutManaged(h)
  }

  /** Every process since the commit was configured with `id` as a NUT-managed host. */
  predicate AlwaysNut(h: History, id: string) {
    h.Then? &&
    if IsCommit(h) then Replay(h).process.Some? && InNutGroup(Replay(h).process.value.cfg, id)
    else AlwaysNut(h.past, id) && (h.last.Booted? ==> InNutGroup(h.last.cfg, id))
  }

  lemma {:induction false} AlwaysNutIsConfigured(h: History, id: string)
    requires Legal(h) && AlwaysNut(h, id) && Replay(h).process.Some?
    ensures InNutGroup(Replay(h).process.value.cfg, id)
  {
    if !IsCommit(h) {
      LegalIsQuiet(h);
      if !h.last.Booted? {
        AlwaysNutIsConfigured(h.past, id);
      }
    }
  }

  /** What the record of `id` shows about the shutdown under way. */
  predicate Progress(h: History, id: string, st: State) {
    ShuttingDown(st.power) ==>
      var r := Record(st.hosts, id);
      && FsdFor(h, id) <= r.shutdownAttempts
      && (SentSinceCommit(h, id) ==> !Untouched(r))
      && (AlwaysNut(h, id) && r.shutdownState != Completed ==> FsdFor(h, id) == FsdSince(h))
  }

  ghost predicate InProgress(h: History, id: string) {
    var s := Replay(h);
    && (s.disk.Some? ==> Progress(h, id, s.disk.value))
    && (s.process.Some? ==> Progress(h, id, s.process.value.memory.st))
  }

  /** The engine only enters the shutdown phase by committing. */
  lemma ShuttingDownStep(cfg: Config, m: Memory, now: int, inp: Inputs)
    requires !m.st.power.Unsupported?
    ensures var t := Advance(cfg, m, now, inp);
      && (ShuttingDown(t.memory.st.power) ==> t.decision.action == CommitShutdown || ShuttingDown(m.st.power))
      && t.memory.st.hosts == m.st.hosts
  {
    match m.st.power {
      case BootReconcile =>
      case OnBattery =>
      case RecoveryWait =>
      case RecoveryStarted =>
      case RestoreHosts =>
      case _ =>
    }
  }

  lemma {:induction false} ShutdownProgresses(h: History, id: string)
    requires Legal(h)
    ensures InProgress(h, id)
  {
    if h.Then? {
      ShutdownProgresses(h.past, id);
      if h.last.Stepped? {
        LegalIsSound(h.past);
        StepKeepsProgress(h, id, Replay(h.past).process.value);
      } else if h.last.Write? {
        LegalIsSound(h.past);
        WritesContinue(Replay(h.past), h.last.st, h.last.why, id);
        WriteKeepsProgress(h, id);
      } else if h.last.FsdRequested? || h.last.ShutdownSent? {
        RequestKeepsProgress(h, id);
      } else {
        LegalIsQuiet(h);
        QuietKeepsProgress(h, id);
      }
    }
  }

  lemma StepKeepsProgress(h: History, id: string, p: Process)
    requires h.Then? && h.last.Stepped? && Replay(h.past).process == Some(p) && !p.memory.st.power.Unsupported?
    requires InProgress(h.past, id)
    ensures InProgress(h, id)
  {
    ShuttingDownStep(p.cfg.policy, p.memory, h.last.now, h.last.inp);
  }

  /** A generation written during shutdown continues what memory, or on resumption the disk, recorded. */
  predicate Continues(s: System, st: State, why: Cause, id: string) {
    s.process.Some? && s.disk.Some? && (ShuttingDown(st.power) ==>
      var now := if why == Resumed then s.disk.value else s.process.value.memory.st;
      && ShuttingDown(now.power)
      && Record(now.hosts, id).shutdownAttempts <= Record(st.hosts, id).shutdownAttempts
      && (Untouched(Record(st.hosts, id)) ==> Untouched(Record(now.hosts, id)))
      && (Record(now.hosts, id).shutdownState == Completed ==> Record(st.hosts, id).shutdownState == Completed))
  }

  lemma WritesContinue(s: System, st: State, why: Cause, id: string)
    requires Sound(s) && WriteAllowed(s, st, why)
    ensures Continues(s, st, why, id)
  {
  }

  lemma WriteKeepsProgress(h: History, id: string)
    requires h.Then? && h.last.Write? && Continues(Replay(h.past), h.last.st, h.last.why, id)
    requires InProgress(h.past, id)
    ensures InProgress(h, id)
  {
  }

  lemma RequestKeepsProgress(h: History, id: string)
    requires Legal(h) && h.Then? && (h.last.FsdRequested? || h.last.ShutdownSent?) && InProgress(h.past, id)
    ensures InProgress(h, id)
  {
    MemoryMirrorsDisk(h.past);
    if AlwaysNut(h.past, id) {
      AlwaysNutIsConfigured(h.past, id);
    }
    RequestCounts(h, id, Replay(h.past).disk.value);
  }

  /** A request made with memory and disk in step is reflected in the record both hold. */
  lemma RequestCounts(h: History, id: string, st: State)
    requires h.Then? && Replay(h.past).disk == Some(st) && Replay(h.past).process.Some?
    requires Replay(h.past).process.value.memory.st == st
    requires InProgress(h.past, id) && (AlwaysNut(h.past, id) ==> InNutGroup(Replay(h.past).process.value.cfg, id))
    requires h.last.FsdRequested? || (h.last.ShutdownSent? && Record(st.hosts, h.last.id).shutdownState == Requested)
    requires h.last.FsdRequested? && Outstanding(Replay(h.past), id) ==> FsdFor(h.past, id) < Record(st.hosts, id).shutdownAttempts
    ensures InProgress(h, id)
  {
  }

  lemma QuietKeepsProgress(h: History, id: string)
    requires h.Then? && Quiet(h) && InProgress(h.past, id)
    requires !h.last.Stepped? && !h.last.Write? && !h.last.FsdRequested? && !h.last.ShutdownSent?
    requires h.last.Provisioned? ==> h.last.st.power == BootReconcile
    ensures InProgress(h, id)
  {
  }

  // ---------------------------------------------------------------- theorems

  /** Counting only requests made while it was not Completed, no NUT-managed host sees more than six. */
  lemma {:induction false} FsdRequestsAreBounded(h: History, id: string)
    requires Legal(h)
    ensures FsdFor(h, id) <= 6
  {
    if h.Then? {
      FsdRequestsAreBounded(h.past, id);
    }
  }

  /** A forced shutdown requested while some host is outstanding is at most the sixth request of this shutdown. */
  lemma FsdWhileOutstandingIsBounded(h: History, id: string)
    requires Legal(h) && h.Then? && h.last.FsdRequested?
    requires AlwaysNut(h.past, id) && Outstanding(Replay(h.past), id)
    ensures FsdSince(h) <= 6
  {
    ShutdownProgresses(h.past, id);
    FsdRequestsAreBounded(h, id);
  }

  /** Within one committed shutdown a host is sent a second request only right after a probe found it online. */
  lemma RepeatedShutdownFollowsProbe(h: History, id: string)
    requires Legal(h) && h.Then? && Asks(h.last, id) && SentSinceCommit(h.past, id)
    ensures h.past.past.Then? && h.past.past.last == Probed(id, Some(true))
  {
  }

  /** When a direct shutdown is sent, every host that comes before it in (priority, id) order is settled on disk. */
  lemma ShutdownOrderIsRespected(h: History, c: HostConfig, d: HostConfig)
    requires Legal(h) && h.Then? && Asks(h.last, d.id)
    requires var cfg := Replay(h).process.value.cfg;
      && c in cfg.hosts && d in cfg.hosts && c.shutdownMethod !in {"nut", "none", ""}
      && (c.shutdownPriority < d.shutdownPriority || (c.shutdownPriority == d.shutdownPriority && Less(c.id, d.id)))
    ensures Replay(h).disk.Some? && NeedsNothing(c, Record(Replay(h).disk.value.hosts, c.id).shutdownState)
  {
    hide ShutdownPlanOf, SentSinceCommit, FsdFor, ReadingThisTick;
    LegalIsSound(h.past);
    MemoryMirrorsDisk(h.past);
    var p := Replay(h.past).process.value;
    var order := ShutdownPlanOf(p.cfg.hosts).preFsd;
    var k :| 0 <= k < |order| && order[k].id == d.id && forall j :: 0 <= j < k ==> Settled(order[j], p.memory.st.hosts);
    var i := PlanPrefixCovers(p.cfg.hosts, c, d, k);
  }

  /** In the plan, a host ranked before `d` stands before it. */
  lemma PlanPrefixCovers(hosts: seq<HostConfig>, c: HostConfig, d: HostConfig, k: nat) returns (i: nat)
    requires UniqueIds(hosts) && c in hosts && d in hosts && Direct(c) && ShutDownBefore(c, d)
    requires k < |ShutdownPlanOf(hosts).preFsd| && ShutdownPlanOf(hosts).preFsd[k].id == d.id
    ensures i < k && ShutdownPlanOf(hosts).preFsd[i] == c
  {
    ShutdownPlanPartitions(hosts);
    var order := ShutdownPlanOf(hosts).preFsd;
    assert order[k] in order && order[k] in hosts;
    i :| 0 <= i < |order| && order[i] == c;
    LessIsTotal(c.id, d.id);
    assert order[k] == d;
  }

  /** Forced shutdown, and the end of the shutdown phase, come only after every direct host is settled on disk. */
  lemma FsdComesLast(h: History, c: HostConfig)
    requires Legal(h) && h.Then? && (h.last.FsdRequested? || h.last.ShutdownPhaseDone?)
    requires c in Replay(h).process.value.cfg.hosts && c.shutdownMethod !in {"nut", "none", ""}
    ensures Replay(h).disk.Some? && NeedsNothing(c, Record(Replay(h).disk.value.hosts, c.id).shutdownState)
  {
    MemoryMirrorsDisk(h.past);
    assert Direct(c);
  }

  /** Seen down, or nothing to do; or asked and agreed where nobody can look. */
  predicate NeedsNothing(c: HostConfig, state: ShutdownState) {
    state in {Completed, NotRequired} || (state == Acknowledged && (!c.hasAddress || c.statusMethod == "none"))
  }

  /** The phase is only completed, with a NUT-managed host configured, after a forced shutdown was accepted on the same tick. */
  lemma PhaseEndIsForced(h: History, c: HostConfig) returns (forced: History)
    requires Legal(h) && h.Then? && h.last.ShutdownPhaseDone?
    requires c in Replay(h).process.value.cfg.hosts && c.shutdownMethod == "nut"
    ensures CutOf(forced, h) && forced.Then? && forced.last == FsdRequested(true) && LastStep(forced) == LastStep(h)
    ensures Replay(forced.past).disk.Some? && Replay(forced.past).disk.value.power == ShutdownInProgress
  {
    assert NutManaged(c);
    forced := AcceptedThisTick(h.past);
    MemoryMirrorsDisk(forced.past);
  }

  lemma {:induction false} AcceptedThisTick(h: History) returns (forced: History)
    requires Legal(h) && FsdThisTick(h) == Some(true)
    ensures Legal(forced) && CutOf(forced, h) && forced.Then? && forced.last == FsdRequested(true) && LastStep(forced) == LastStep(h)
  {
    if h.last.FsdRequested? {
      forced := h;
    } else {
      forced := AcceptedThisTick(h.past);
    }
  }

  // ---------------------------------------------------------------- leaving the shutdown

  /** A process that finds an interrupted shutdown is behind the boot mask, in the shutdown itself, or has just completed it. */
  ghost predicate StaysInShutdown(h: History) {
    var s := Replay(h);
    s.process.Some? && s.disk.Some? && Interrupted(s.disk.value) ==>
      var p := s.process.value;
      if p.memory.st.power == BootReconcile then p.pending.None?
      else ShuttingDown(p.memory.st.power) || (p.pending.Some? && p.memory.st.power == WaitingForAC && PhaseDoneThisTick(h))
  }

  lemma {:induction false} ShutdownIsKept(h: History)
    requires Legal(h)
    ensures StaysInShutdown(h)
  {
    if h.Then? {
      ShutdownIsKept(h.past);
      LegalIsSound(h.past);
      if h.last.Stepped? {
        StepStaysInShutdown(h, Replay(h.past).process.value, Replay(h.past).disk.value);
      } else if h.last.Write? {
        WriteStaysInShutdown(Replay(h.past), h.last.st, h.last.why, h.last.outcome);
      }
    }
  }

  lemma StepStaysInShutdown(h: History, p: Process, disk: State)
    requires h.Then? && h.last.Stepped? && Replay(h.past).process == Some(p) && Replay(h.past).disk == Some(disk) && StaysInShutdown(h.past)
    requires p.pending.None? && Mirrors(p.memory.st, disk, p.behind) && Coherent(disk)
    requires p.memory.st.power == BootReconcile ==> !Interrupted(disk)
    ensures StaysInShutdown(h)
  {
  }

  lemma WriteStaysInShutdown(s: System, st: State, why: Cause, outcome: Outcome)
    requires Sound(s) && WriteAllowed(s, st, why)
    ensures var t := Apply(s, Write(st, why, outcome));
      t.process.Some? && Interrupted(t.disk.value) ==>
        || ShuttingDown(t.process.value.memory.st.power)
        || (outcome != Done && t.process.value == s.process.value.(behind := true))
  {
  }

  /**
   * On disk, a committed shutdown that is under way stays so, still committed and under the same transaction,
   * until a pass over the hosts has been completed on that very tick or the shutdown is given up, whatever restarts
   * and power cuts come between. A process behind the boot mask takes no step on it.
   */
  lemma ShutdownEndsProperly(h: History)
    requires Legal(h) && h.Then? && Replay(h.past).disk.Some?
    requires Replay(h.past).disk.value.shutdownCommitted && Replay(h.past).disk.value.power in {ShutdownCommitted, ShutdownInProgress}
    ensures Replay(h).disk.Some? && Replay(h).disk.value.shutdownCommitted
    ensures Replay(h).disk.value.transactionId == Replay(h.past).disk.value.transactionId
    ensures Replay(h).disk.value.power in {ShutdownCommitted, ShutdownInProgress}
      || (Replay(h).disk.value.power == WaitingForAC && PhaseDoneThisTick(h.past))
      || (Replay(h).disk.value.power == FailedSafe && h.last.Write? && h.last.why == GaveUp)
    ensures h.last.Stepped? ==> Replay(h.past).process.Some? && Replay(h.past).process.value.memory.st.power != BootReconcile
  {
    LegalIsSound(h.past);
    ShutdownIsKept(h.past);
    if h.last.Write? {
      WriteLeavesShutdown(Replay(h.past), h.last.st, h.last.why);
    }
  }

  lemma WriteLeavesShutdown(s: System, st: State, why: Cause)
    requires Sound(s) && WriteAllowed(s, st, why) && Interrupted(s.disk.value)
    requires var p := s.process.value;
      if p.memory.st.power == BootReconcile then p.pending.None?
      else ShuttingDown(p.memory.st.power) || (p.pending.Some? && p.memory.st.power == WaitingForAC)
    ensures st.shutdownCommitted && st.transactionId == s.disk.value.transactionId
    ensures ShuttingDown(st.power) || (st.power == WaitingForAC && s.process.value.memory.st.power == WaitingForAC)
      || (st.power == FailedSafe && why == GaveUp)
  {
  }

  /** In this process and its present recovery, `x` was woken at `time`. */
  predicate WokenAt(h: History, x: string, time: int) {
    h.Then? && !h.last.Provisioned? && !h.last.Booted? && !h.last.RecoveryDone? && !(h.last.Write? && h.last.why == NewOutage)
    && ((h.last == Woke(x) && LastStep(h.past).Some? && LastStep(h.past).value.now == time) || WokenAt(h.past, x, time))
  }

  lemma {:induction false} LastWakeIsNewest(h: History, x: string, time: int)
    requires Legal(h) && WokenAt(h, x, time)
    ensures LastWake(h).Some? && time <= LastWake(h).value.0
  {
    if h.last.Woke? && LastStep(h.past).Some? {
      if WokenAt(h.past, x, time) {
        LastWakeIsNewest(h.past, x, time);
        LastWakeIsPast(h.past);
      }
    } else {
      LastWakeIsNewest(h.past, x, time);
    }
  }

  /** The newest wake keeps its host's distance from every earlier wake of another host, however often its own was retried. */
  lemma {:induction false} LastWakeIsSpaced(h: History, x: string, time: int)
    requires Legal(h) && WokenAt(h, x, time) && Replay(h).process.Some?
    ensures LastWake(h).Some?
    ensures x != LastWake(h).value.1 ==> LastWake(h).value.0 - time >= WakeDelay(Replay(h).process.value.cfg.hosts, LastWake(h).value.1)
  {
    LastWakeIsNewest(h, x, time);
    LegalIsQuiet(h);
    if WokenAt(h.past, x, time) {
      LastWakeIsSpaced(h.past, x, time);
      LastWakeIsNewest(h.past, x, time);
      LastWakeIsPast(h.past);
    }
  }

  /** Whatever was woken in between, a wake keeps its host's configured distance from every earlier wake of another host. */
  lemma WakesAreSpaced(h: History, id: string, x: string, time: int)
    requires Legal(h) && h.Then? && h.last == Woke(id) && WokenAt(h.past, x, time) && x != id
    ensures forall c :: c in Replay(h).process.value.cfg.hosts && c.id == id ==>
      LastStep(h).value.now - time >= c.wakeDelaySeconds * 1_000_000_000
  {
    LastWakeIsSpaced(h, x, time);
    LegalIsSound(h);
    FindFinds(Replay(h).process.value.cfg.hosts, id);
  }

  /** Recovery had begun before this process selected its first host: somebody had been woken, or found online. */
  ghost predicate ResumedAt(h: History, at: int) {
    match h
    case Origin => false
    case Then(past, e) =>
      if e.Provisioned? || e.Booted? || e.RecoveryDone? || (e.Write? && e.why == NewOutage) then false
      else if e.Selected? && FirstSelection(past).None? then
        && LastStep(past).Some? && LastStep(past).value.now == at && Replay(past).process.Some?
        && exists x :: x in Replay(past).process.value.memory.st.hosts
             && (Replay(past).process.value.memory.st.hosts[x].wakeAttempts > 0
                 || Replay(past).process.value.memory.st.hosts[x].recoveryState in {WolSent, Online})
      else ResumedAt(past, at)
  }

  /** The first host selected in this process and recovery would have to wait for the one before it. */
  ghost predicate SpacedAt(h: History) {
    match h
    case Origin => false
    case Then(past, e) =>
      if e.Selected? && FirstSelection(past).None? then
        Replay(past).process.Some? && exists c :: c in Replay(past).process.value.cfg.hosts && c.id == e.id && c.wakeDelaySeconds > 0
      else SpacedAt(past)
  }

  lemma {:induction false} ResumptionIsKnown(h: History, at: int)
    requires Legal(h) && ResumedAt(h, at) && SpacedAt(h)
    ensures FirstSelection(h) == Some(Selection(at, true))
  {
    if h.last.Selected? && FirstSelection(h.past).None? {
      LegalIsSound(h.past);
      FindFinds(Replay(h.past).process.value.cfg.hosts, h.last.id);
    } else {
      ResumptionIsKnown(h.past, at);
    }
  }

  /** After a restart into a recovery that had already begun, the first wake waits a full delay from the first selection. */
  lemma ResumedRecoveryWaits(h: History, id: string, at: int, c: HostConfig)
    requires Legal(h) && h.Then? && h.last == Woke(id) && LastWake(h.past).None? && id != "__resume__"
    requires ResumedAt(h.past, at) && SpacedAt(h.past) && c in Replay(h).process.value.cfg.hosts && c.id == id && c.wakeDelaySeconds > 0
    ensures LastStep(h).value.now - at >= c.wakeDelaySeconds * 1_000_000_000
  {
    ResumptionIsKnown(h.past, at);
    LegalIsSound(h.past);
    FindFinds(Replay(h.past).process.value.cfg.hosts, id);
  }
}
