/** What every legal history guarantees about wakes, direct shutdowns and forced-shutdown requests. */
module EffectTheorems {
  import opened Basics
  import opened Hosts
  import opened Snapshots
  import opened Power
  import opened Policy
  import opened Histories
  import opened Invariants

  // ---------------------------------------------------------------- memory and disk

  /**
   * Between transitions and write failures the engine remembers exactly what the disk holds, apart from the
   * boot mask; both are always coherent.
   */
  lemma MemoryMirrorsDisk(h: History)
    requires Legal(h) && Steady(Replay(h))
    ensures var s := Replay(h); var st := s.process.value.memory.st;
      && s.disk.Some? && Coherent(s.disk.value)
      && if st.power == BootReconcile then s.process.value.memory == Boot(s.disk.value) else st == s.disk.value
  {
    LegalIsSound(h);
  }

  predicate IsSideEffect(e: Event) {
    e.Write? || e.ShutdownSent? || e.FsdRequested? || e.Woke?
  }

  /** FAILED_SAFE: until the process is restarted nothing more is written, sent or woken, and memory stands still. */
  lemma FailedSafeIsInert(h: History)
    requires Legal(h) && h.Then? && Replay(h.past).process.Some?
    requires Replay(h.past).process.value.memory.st.power == FailedSafe && Replay(h.past).process.value.pending.None?
    ensures !IsSideEffect(h.last)
    ensures h.last.Booted? || h.last.Provisioned? || Replay(h).process == Replay(h.past).process
  {
  }

  // ---------------------------------------------------------------- wake safety

  /** This process committed recovery and has not stopped it since. */
  predicate RecoveryOpen(h: History) {
    h.Then? &&
    match h.last
    case Provisioned(_) => false
    case Booted(_) => false
    case Stepped(_, _) =>
      LastAction(h) == CommitRecovery || (LastAction(h) != StopRecovery && RecoveryOpen(h.past))
    case _ => RecoveryOpen(h.past)
  }

  predicate SafeToWake(cfg: Config, inp: Inputs) {
    && RecoveryEnabled(cfg) && inp.ups.utility == UtilityOnline && !inp.ups.lowBattery && !inp.ups.fsd
    && inp.networkReady && inp.healthSafe
  }

  lemma RestoringStep(cfg: Config, m: Memory, now: int, inp: Inputs)
    requires !m.st.power.Unsupported?
    ensures var t := Advance(cfg, m, now, inp);
      && (t.memory.st.power == RestoreHosts ==> SafeToWake(cfg, inp) && m.st.power in {RecoveryStarted, RestoreHosts})
      && (t.memory.st.power == RecoveryStarted ==>
            t.decision.action == CommitRecovery || m.st.power in {RecoveryStarted, RestoreHosts})
      && (t.memory.st.power in {RecoveryStarted, RestoreHosts} ==> t.decision.action != StopRecovery)
  {
  }

  ghost predicate RestoringSafely(h: History) {
    Replay(h).process.Some? ==>
      var p := Replay(h).process.value;
      && (p.memory.st.power in {RecoveryStarted, RestoreHosts} ==> RecoveryOpen(h))
      && (p.memory.st.power == RestoreHosts ==> LastStep(h).Some? && SafeToWake(p.cfg.policy, LastStep(h).value.inp))
  }

  lemma {:induction false} RestoringIsSafe(h: History)
    requires Legal(h)
    ensures RestoringSafely(h)
  {
    if h.Then? {
      RestoringIsSafe(h.past);
      if h.last.Stepped? {
        LegalIsSound(h.past);
        var p := Replay(h.past).process.value;
        RestoringStep(p.cfg.policy, p.memory, h.last.now, h.last.inp);
      } else {
        LegalIsQuiet(h);
        RestoringKeeps(h);
      }
    }
  }

  lemma RestoringKeeps(h: History)
    requires h.Then? && !h.last.Stepped? && Quiet(h) && RestoringSafely(h.past)
    ensures RestoringSafely(h)
  {
  }

  /**
   * A host is only woken on a tick that observed safe power, a ready network and a healthy control stack,
   * under a recovery this process committed, with the attempt already on disk, and at most once a tick.
   */
  lemma WakeIsSafe(h: History, id: string)
    requires Legal(h) && h.Then? && h.last == Woke(id)
    ensures var disk := Replay(h).disk.value; var p := Replay(h).process.value;
      && LastStep(h).Some? && SafeToWake(p.cfg.policy, LastStep(h).value.inp)
      && disk.power == RestoreHosts && disk.shutdownCommitted && disk.recoveryStarted
      && p.memory.st == disk
      && h.past.Then? && Replay(h.past.past).process.Some?
      && Record(disk.hosts, id).wakeAttempts == Record(Replay(h.past.past).process.value.memory.st.hosts, id).wakeAttempts + 1
      && RecoveryOpen(h)
      && !WokeSinceStep(h.past)
  {
    RestoringIsSafe(h.past);
    MemoryMirrorsDisk(h.past);
  }

  /**
   * A host is only woken after it was looked at on that very tick and not found running; if it is configured to be
   * woken and either always, or because it was running before the outage; and once every such host it depends on
   * is back online.
   */
  lemma WakeFollowsLook(h: History, id: string)
    requires Legal(h) && h.Then? && h.last == Woke(id)
    ensures ReadingThisTick(h, id) in {Some(Some(false)), Some(None)}
    ensures exists c :: c in Replay(h).process.value.cfg.hosts && c.id == id && MayBeWoken(Replay(h).process.value.cfg.hosts, Replay(h).disk.value.hosts, c)
  {
    MemoryMirrorsDisk(h.past);
    LegalIsSound(h.past);
    var p := Replay(h.past).process.value;
    NotRunningIs(h.past, id);
    var c :| c in p.cfg.hosts && c.id == id && id in p.memory.st.hosts && EligibleForRestore(c, p.memory.st.hosts[id])
      && DependenciesOnline(p.cfg.hosts, p.memory.st.hosts, c);
    RestorableIs(p.cfg.hosts, p.memory.st.hosts, c);
  }

  lemma NotRunningIs(h: History, id: string)
    requires NotSeenRunning(h, id)
    ensures ReadingThisTick(h, id) in {Some(Some(false)), Some(None)}
  {
    var reading := ReadingThisTick(h, id).value;
    assert reading.None? || reading.value == false;
  }

  lemma RestorableIs(hosts: seq<HostConfig>, states: HostStates, c: HostConfig)
    requires UniqueIds(hosts) && c.id in states && EligibleForRestore(c, states[c.id]) && DependenciesOnline(hosts, states, c)
    ensures MayBeWoken(hosts, states, c)
  {
    forall d | d in hosts && d.id in c.dependsOn && ToBeRestored(d, states) ensures Record(states, d.id).recoveryState == Online {
      assert DependencyOnline(hosts, states, d.id);
      FindFinds(hosts, d.id);
    }
  }

  /** The host is configured to be woken, always or because it was running before the outage. */
  predicate ToBeRestored(c: HostConfig, states: HostStates) {
    c.id in states && c.wakeEnabled
    && (c.restorePolicy == "always" || (c.restorePolicy in {"", "previous-state"} && states[c.id].wasOnline == Some(true)))
  }

  predicate MayBeWoken(hosts: seq<HostConfig>, states: HostStates, c: HostConfig) {
    ToBeRestored(c, states) && forall d :: d in hosts && d.id in c.dependsOn && ToBeRestored(d, states) ==>
      Record(states, d.id).recoveryState == Online
  }

  /**
   * Recovery of a host is only given up after its configured attempts, five if none are, when it was just looked at
   * and not found running; or because a host it depends on, itself to be restored, has failed.
   */
  lemma FailureIsEarned(h: History, id: string)
    requires Legal(h) && h.Then? && h.last.Write? && h.last.why == HostRecords && id in h.last.st.hosts
    requires Replay(h.past).process.Some? && Replay(h.past).process.value.memory.st.power != OnBattery
    requires h.last.st.hosts[id].recoveryState == RecoveryFailed != Record(Replay(h.past).process.value.memory.st.hosts, id).recoveryState
    ensures exists c :: (
      c in Replay(h.past).process.value.cfg.hosts && c.id == id
      && (DependsOnFailed(Replay(h.past).process.value.cfg.hosts, c, h.last.st.hosts)
          || (ReadingThisTick(h.past, id) in {Some(Some(false)), Some(None)}
              && Record(Replay(h.past).process.value.memory.st.hosts, id).wakeAttempts >= if c.wakeMaxAttempts > 0 then c.wakeMaxAttempts else 5)))
  {
    var p := Replay(h.past).process.value;
    assert RecordWitnessed(h.past, p.cfg.hosts, Record(p.memory.st.hosts, id), h.last.st.hosts, id);
    var c :| c in p.cfg.hosts && c.id == id
      && ((Record(p.memory.st.hosts, id).wakeAttempts >= MaxWakeAttempts(c) && NotSeenRunning(h.past, id)) || exists d :: d in c.dependsOn && FailedDependency(p.cfg.hosts, h.last.st.hosts, d));
    if d :| d in c.dependsOn && FailedDependency(p.cfg.hosts, h.last.st.hosts, d) {
      FindFinds(p.cfg.hosts, d);
    } else {
      NotRunningIs(h.past, id);
    }
  }

  /** Recovery is only ever over once every host to be restored is online, has failed, or is set aside. */
  lemma RecoveryIsFinished(h: History, c: HostConfig)
    requires Legal(h) && h.Then? && h.last.RecoveryDone?
    requires Replay(h.past).process.Some? && c in Replay(h.past).process.value.cfg.hosts
    requires ToBeRestored(c, Replay(h.past).process.value.memory.st.hosts)
    ensures Replay(h.past).process.value.memory.st.hosts[c.id].recoveryState in {Online, RecoveryFailed, RecoveryNotRequired}
  {
  }

  predicate DependsOnFailed(hosts: seq<HostConfig>, c: HostConfig, states: HostStates) {
    exists d :: d in hosts && d.id in c.dependsOn && ToBeRestored(d, states) && states[d.id].recoveryState == RecoveryFailed
  }

  // ---------------------------------------------------------------- attempt bounds

  predicate Sends(e: Event, effect: Effect, id: string) {
    if effect == DirectShutdown then Asks(e, id) else e == Woke(id)
  }

  /** How often `effect` reached `id` under transaction `tx`, over all processes. */
  function Sent(h: History, effect: Effect, tx: string, id: string): nat {
    if h.Origin? then 0
    else Sent(h.past, effect, tx, id) + if Sends(h.last, effect, id) && Transaction(h.past) == Some(tx) then 1 else 0
  }

  function Transaction(h: History): Option<string> {
    if Replay(h).process.None? then None else Some(Replay(h).process.value.memory.st.transactionId)
  }

  /** Side effects never outnumber the attempts recorded for them, in memory or on disk. */
  ghost predicate Backed(h: History, effect: Effect, tx: string, id: string) {
    var s := Replay(h);
    && (tx !in s.issued ==> Sent(h, effect, tx, id) == 0)
    && (s.disk.Some? ==> BackedBy(h, effect, tx, id, s.disk.value))
    && (s.process.Some? ==> BackedBy(h, effect, tx, id, s.process.value.memory.st))
  }

  predicate BackedBy(h: History, effect: Effect, tx: string, id: string, st: State) {
    st.transactionId == tx ==> Sent(h, effect, tx, id) <= Attempts(effect, Record(st.hosts, id))
  }

  lemma {:induction false} AttemptsBackEffects(h: History, effect: Effect, tx: string, id: string)
    requires Legal(h)
    ensures Backed(h, effect, tx, id)
  {
    if h.Then? {
      AttemptsBackEffects(h.past, effect, tx, id);
      if Sends(h.last, effect, id) && Transaction(h.past) == Some(tx) {
        AttemptsBackEffects(h.past.past, effect, tx, id);
        SendKeepsBacked(h, effect, tx, id);
      } else if h.last.Write? {
        CheckedWriteKeepsBacked(h, effect, tx, id);
      } else if h.last.Provisioned? || h.last.Booted? {
        StartKeepsBacked(h, effect, tx, id);
      } else {
        OnlyWritesTouchHosts(h);
        ThoughtKeepsBacked(h, effect, tx, id);
      }
    }
  }

  lemma CheckedWriteKeepsBacked(h: History, effect: Effect, tx: string, id: string)
    requires Legal(h) && h.Then? && h.last.Write? && Backed(h.past, effect, tx, id)
    ensures Backed(h, effect, tx, id)
  {
    LegalIsSound(h.past);
    WriteKeepsAttempts(Replay(h.past), h.last.st, h.last.why, effect, id);
    WriteKeepsBacked(h, effect, tx, id);
  }

  lemma StartKeepsBacked(h: History, effect: Effect, tx: string, id: string)
    requires h.Then? && (h.last.Provisioned? ==> h.last.st.transactionId !in Replay(h.past).issued)
    requires h.last.Provisioned? || h.last.Booted?
    requires Backed(h.past, effect, tx, id)
    ensures Backed(h, effect, tx, id)
  {
  }

  lemma ThoughtKeepsBacked(h: History, effect: Effect, tx: string, id: string)
    requires h.Then? && HostsUntouched(h) && Backed(h.past, effect, tx, id)
    requires !(Sends(h.last, effect, id) && Transaction(h.past) == Some(tx))
    ensures Backed(h, effect, tx, id)
  {
  }

  lemma WriteKeepsBacked(h: History, effect: Effect, tx: string, id: string)
    requires h.Then? && h.last.Write? && Replay(h.past).process.Some? && Backed(h.past, effect, tx, id)
    requires KeepsAttempts(Replay(h.past), h.last.st, effect, id)
    ensures Backed(h, effect, tx, id)
  {
  }

  ghost predicate KeepsAttempts(s: System, st: State, effect: Effect, id: string)
    requires s.process.Some?
  {
    st.transactionId !in s.issued
    || (st.transactionId == s.process.value.memory.st.transactionId
        && Attempts(effect, Record(st.hosts, id)) >= Attempts(effect, Record(s.process.value.memory.st.hosts, id)))
  }

  /** Within a transaction no write takes attempts away from what memory or disk already recorded. */
  lemma WriteKeepsAttempts(s: System, st: State, why: Cause, effect: Effect, id: string)
    requires Sound(s) && WriteAllowed(s, st, why)
    ensures KeepsAttempts(s, st, effect, id)
  {
    if why == Resumed {
      assert s.process.value.memory.st.hosts == s.disk.value.hosts;
    }
  }

  lemma SendKeepsBacked(h: History, effect: Effect, tx: string, id: string)
    requires Legal(h) && h.Then? && Sends(h.last, effect, id) && Transaction(h.past) == Some(tx)
    requires h.past.Then? && Backed(h.past.past, effect, tx, id)
    ensures Backed(h, effect, tx, id)
  {
    MemoryMirrorsDisk(h.past);
    WriteStaysInTransaction(h.past);
    LegalIsSound(h.past);
    SendIsBacked(h, effect, tx, id);
  }

  lemma SendIsBacked(h: History, effect: Effect, tx: string, id: string)
    requires h.Then? && Sends(h.last, effect, id) && Transaction(h.past) == Some(tx)
    requires JustRecorded(h.past, id, effect) && Transaction(h.past.past) == Some(tx) && Backed(h.past.past, effect, tx, id)
    requires Replay(h.past).process.value.memory.st == h.past.last.st
    requires Replay(h.past).disk == Some(h.past.last.st) && tx in Replay(h.past).issued
    ensures Backed(h, effect, tx, id)
  {
  }

  lemma WriteStaysInTransaction(h: History)
    requires Legal(h) && h.Then? && h.last.Write? && h.last.why == HostRecords && h.last.outcome == Done
    ensures Replay(h.past).process.Some? && Transaction(h) == Transaction(h.past)
    ensures Replay(h).process.value.memory.st == h.last.st && Replay(h).disk == Some(h.last.st)
  {
  }

  /** At most three direct shutdowns ever reach a host under one transaction, whatever restarts happen. */
  lemma {:induction false} DirectShutdownsAreBounded(h: History, tx: string, id: string)
    requires Legal(h)
    ensures Sent(h, DirectShutdown, tx, id) <= 3
  {
    if h.Then? {
      DirectShutdownsAreBounded(h.past, tx, id);
      if Asks(h.last, id) && Transaction(h.past) == Some(tx) {
        AttemptsBackEffects(h, DirectShutdown, tx, id);
        OnlyWritesTouchHosts(h);
      }
    }
  }

  /** Each wake stays within the host's configured number of attempts, or five, counted over all processes of the transaction. */
  lemma WakesAreBounded(h: History, tx: string, id: string)
    requires Legal(h) && h.Then? && h.last == Woke(id) && Transaction(h.past) == Some(tx)
    ensures exists c :: (
      c in Replay(h).process.value.cfg.hosts && c.id == id && Sent(h, Wake, tx, id) <= if c.wakeMaxAttempts > 0 then c.wakeMaxAttempts else 5)
  {
    AttemptsBackEffects(h, Wake, tx, id);
    OnlyWritesTouchHosts(h);
    var p := Replay(h).process.value;
    var c :| c in p.cfg.hosts && c.id == id && Record(p.memory.st.hosts, id).wakeAttempts <= MaxWakeAttempts(c);
  }

  /** Wakes lie in the past of the tick that asks about them. */
  lemma {:induction false} LastWakeIsPast(h: History)
    requires Legal(h) && LastWake(h).Some?
    ensures LastStep(h).Some? && LastWake(h).value.0 <= LastStep(h).value.now
  {
    if !(h.last.Woke? && LastStep(h.past).Some?) {
      LastWakeIsPast(h.past);
    }
  }

  // ---------------------------------------------------------------- markers rest on observations

  /** Under transaction `tx` some probe found the host in this condition. */
  predicate SeenUnder(h: History, tx: string, id: string, online: bool) {
    h.Then? && ((h.last == Probed(id, Some(online)) && Transaction(h.past) == Some(tx)) || SeenUnder(h.past, tx, id, online))
  }

  ghost predicate ClaimsAreSeen(h: History, id: string, online: bool) {
    var s := Replay(h);
    && (s.disk.Some? ==> ClaimSeen(h, s.disk.value, id, online))
    && (s.process.Some? ==> ClaimSeen(h, s.process.value.memory.st, id, online))
  }

  predicate ClaimSeen(h: History, st: State, id: string, online: bool) {
    Claims(Record(st.hosts, id), online) ==> SeenUnder(h, st.transactionId, id, online)
  }

  /**
   * No host is ever marked Completed, or Online, unless a probe under the very same transaction saw it offline, or
   * online: across restarts, power cuts and failed writes, in memory as on disk.
   */
  lemma {:induction false} MarkersRestOnObservations(h: History, id: string, online: bool)
    requires Legal(h)
    ensures ClaimsAreSeen(h, id, online)
  {
    if h.Then? {
      MarkersRestOnObservations(h.past, id, online);
      if h.last.Write? {
        LegalIsSound(h.past);
        WriteKeepsTransaction(Replay(h.past), h.last.st, h.last.why);
        WrittenClaimIsSeen(h, id, online);
        WrittenClaimsAreSeen(h, id, online);
      } else if !h.last.Provisioned? && !h.last.Booted? {
        OnlyWritesTouchHosts(h);
      }
    }
  }

  lemma WriteKeepsTransaction(s: System, st: State, why: Cause)
    requires Sound(s) && WriteAllowed(s, st, why)
    ensures why != NewOutage ==> st.transactionId == s.process.value.memory.st.transactionId
    ensures why == Decided || why == Resumed ==> st.hosts == s.process.value.memory.st.hosts
    ensures why == NewOutage ==> st.hosts == map[]
  {
  }

  lemma WrittenClaimsAreSeen(h: History, id: string, online: bool)
    requires h.Then? && h.last.Write? && ClaimsAreSeen(h.past, id, online) && ClaimSeen(h, h.last.st, id, online)
    requires h.last.why != NewOutage ==>
      Replay(h.past).process.Some? && h.last.st.transactionId == Replay(h.past).process.value.memory.st.transactionId
    ensures ClaimsAreSeen(h, id, online)
  {
  }

  lemma WrittenClaimIsSeen(h: History, id: string, online: bool)
    requires Legal(h) && h.Then? && h.last.Write? && ClaimsAreSeen(h.past, id, online) && Replay(h.past).process.Some?
    requires var now := Replay(h.past).process.value.memory.st; var st, why := h.last.st, h.last.why;
      && (why != NewOutage ==> st.transactionId == now.transactionId)
      && (why == Decided || why == Resumed ==> st.hosts == now.hosts)
      && (why == NewOutage ==> st.hosts == map[])
    ensures ClaimSeen(h, h.last.st, id, online)
  {
    var now := Replay(h.past).process.value.memory.st;
    if id in h.last.st.hosts && (h.last.why == HostRecords || h.last.why == GaveUp) {
      assert ClaimWitnessed(h.past, Record(now.hosts, id), h.last.st.hosts[id], id, online);
    }
  }

  // ---------------------------------------------------------------- what a host was doing before the outage

  ghost predicate SnapshotsAreSeen(h: History, id: string, online: bool) {
    var s := Replay(h);
    && (s.disk.Some? ==> SnapshotIsSeen(h, s.disk.value, id, online))
    && (s.process.Some? ==> SnapshotIsSeen(h, s.process.value.memory.st, id, online))
  }

  predicate SnapshotIsSeen(h: History, st: State, id: string, online: bool) {
    Record(st.hosts, id).wasOnline == Some(online) ==> SeenUnder(h, st.transactionId, id, online)
  }

  lemma {:induction false} ReadingIsSeen(h: History, id: string, online: bool)
    requires Legal(h) && ReadingThisTick(h, id) == Some(Some(online)) && Replay(h).process.Some?
    ensures SeenUnder(h, Replay(h).process.value.memory.st.transactionId, id, online)
  {
    if !(h.last.Probed? && h.last.id == id) {
      KeepsRunning(h);
      ReadingIsSeen(h.past, id, online);
    }
  }

  /** A process that goes on keeps its transaction, unless it writes a new one. */
  lemma KeepsRunning(h: History)
    requires Legal(h) && h.Then? && Replay(h).process.Some? && !h.last.Booted? && !h.last.Provisioned?
    requires !(h.last.Write? && h.last.why == NewOutage)
    ensures Replay(h.past).process.Some? && Transaction(h) == Transaction(h.past)
  {
    LegalIsSound(h.past);
    if h.last.Write? {
      WriteKeepsTransaction(Replay(h.past), h.last.st, h.last.why);
    } else {
      OnlyWritesTouchHosts(h);
    }
  }

  /**
   * No record says that a host was running, or was not, when the outage began unless a probe under the very same
   * transaction said so: across restarts, power cuts and failed writes, in memory as on disk.
   */
  lemma {:induction false} SnapshotsRestOnObservations(h: History, id: string, online: bool)
    requires Legal(h)
    ensures SnapshotsAreSeen(h, id, online)
  {
    if h.Then? {
      SnapshotsRestOnObservations(h.past, id, online);
      if h.last.Write? {
        LegalIsSound(h.past);
        WriteKeepsTransaction(Replay(h.past), h.last.st, h.last.why);
        WrittenSnapshotIsSeen(h, id, online);
        WrittenSnapshotsAreSeen(h, id, online);
      } else if !h.last.Provisioned? && !h.last.Booted? {
        OnlyWritesTouchHosts(h);
      }
    }
  }

  lemma WrittenSnapshotsAreSeen(h: History, id: string, online: bool)
    requires h.Then? && h.last.Write? && SnapshotsAreSeen(h.past, id, online) && SnapshotIsSeen(h, h.last.st, id, online)
    requires h.last.why != NewOutage ==>
      Replay(h.past).process.Some? && h.last.st.transactionId == Replay(h.past).process.value.memory.st.transactionId
    ensures SnapshotsAreSeen(h, id, online)
  {
  }

  lemma WrittenSnapshotIsSeen(h: History, id: string, online: bool)
    requires Legal(h) && h.Then? && h.last.Write? && SnapshotsAreSeen(h.past, id, online) && Replay(h.past).process.Some?
    requires var now := Replay(h.past).process.value.memory.st; var st, why := h.last.st, h.last.why;
      && (why != NewOutage ==> st.transactionId == now.transactionId)
      && (why == Decided || why == Resumed ==> st.hosts == now.hosts)
      && (why == NewOutage ==> st.hosts == map[])
    ensures SnapshotIsSeen(h, h.last.st, id, online)
  {
    var p := Replay(h.past).process.value;
    var now := p.memory.st;
    if id in h.last.st.hosts && (h.last.why == HostRecords || h.last.why == GaveUp) {
      if now.power == OnBattery {
        SnapshotTakesWhatIsSeen(h.past, p, h.last.st.hosts, id);
        if ReadingThisTick(h.past, id) == Some(Some(online)) {
          ReadingIsSeen(h.past, id, online);
        }
      } else {
        assert Record(now.hosts, id).wasOnline == h.last.st.hosts[id].wasOnline;
      }
    }
  }

  /** A record whose earlier power state changes in a snapshot was looked at on this tick. */
  lemma SnapshotTakesWhatIsSeen(h: History, p: Process, states: HostStates, id: string)
    requires Replay(h).process == Some(p) && p.memory.st.power == OnBattery && id in states
    requires Witnessed(h, states) && Snapshotted(p.cfg.hosts, p.memory.st.hosts, states)
    ensures states[id].wasOnline in {None, Record(p.memory.st.hosts, id).wasOnline}
      || ReadingThisTick(h, id) == Some(states[id].wasOnline)
  {
    if c :| c in p.cfg.hosts && c.id == id {
      assert Snapped(c, p.memory.st.hosts, states);
      assert SnapshotSeen(h, c, Record(p.memory.st.hosts, id), states[id]);
    }
  }
}
