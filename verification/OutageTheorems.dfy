/** When shutdown and recovery are committed, and what the durable outage clock guarantees. */
module OutageTheorems {
  import opened Basics
  import opened Power
  import opened Policy
  import opened Histories
  import opened Invariants

  // ---------------------------------------------------------------- utility stability

  predicate CalmReading(inp: Inputs) {
    inp.ups.utility == UtilityOnline && !inp.ups.lowBattery && !inp.ups.fsd
  }

  /**
   * Within this process some observation at time `t0` saw the utility ONLINE, and every later one saw it
   * ONLINE with neither low battery nor forced shutdown.
   */
  predicate UnbrokenSince(h: History, t0: int) {
    match h
    case Origin => false
    case Then(past, e) =>
      match e
      case Provisioned(_) => false
      case Booted(_) => false
      case Stepped(now, inp) =>
        (now == t0 && inp.ups.utility == UtilityOnline) || (CalmReading(inp) && UnbrokenSince(past, t0))
      case _ => UnbrokenSince(past, t0)
  }

  /** How one step may start or keep the stability timer, and when it may commit recovery. */
  lemma TimerStep(cfg: Config, m: Memory, now: int, inp: Inputs)
    requires !m.st.power.Unsupported?
    ensures var t := Advance(cfg, m, now, inp);
      && (t.memory.st.power == RecoveryWait && t.memory.onlineSince.Some? ==>
            || (t.memory.onlineSince == Some(now) && inp.ups.utility == UtilityOnline)
            || (m.st.power == RecoveryWait && m.onlineSince == t.memory.onlineSince
                && (CalmReading(inp) || (t.memory.st == m.st && t.memory.onlineSince == None))))
      && (t.decision.action == CommitRecovery ==>
            && m.st.power == RecoveryWait && CalmReading(inp)
            && var since := if m.onlineSince.None? then now else m.onlineSince.value;
            now - since >= cfg.utilityStable)
  {
  }

  lemma {:induction false} TimerIsUnbroken(h: History)
    requires Legal(h)
    ensures var s := Replay(h);
      s.process.Some? && s.process.value.memory.st.power == RecoveryWait && s.process.value.memory.onlineSince.Some? ==>
        UnbrokenSince(h, s.process.value.memory.onlineSince.value)
  {
    if h.Then? {
      TimerIsUnbroken(h.past);
      LegalIsQuiet(h);
      if h.last.Stepped? {
        LegalIsSound(h.past);
        var p := Replay(h.past).process.value;
        TimerStep(p.cfg.policy, p.memory, h.last.now, h.last.inp);
      }
    }
  }

  /** Recovery is only ever committed at the end of an unbroken stable interval of this very process. */
  lemma RecoveryCommitIsEarned(h: History)
    requires Legal(h) && h.Then? && h.last.Stepped? && LastAction(h) == CommitRecovery
    ensures exists t0 :: UnbrokenSince(h, t0) && h.last.now - t0 >= Replay(h.past).process.value.cfg.policy.utilityStable
  {
    LegalIsSound(h.past);
    TimerIsUnbroken(h.past);
    var p := Replay(h.past).process.value;
    TimerStep(p.cfg.policy, p.memory, h.last.now, h.last.inp);
    var since := if p.memory.onlineSince.None? then h.last.now else p.memory.onlineSince.value;
    assert UnbrokenSince(h, since);
  }

  // ---------------------------------------------------------------- entering an outage

  /**
   * How the current outage began in this process, if it was entered from NORMAL or at boot: when, how much
   * outage time was carried over, and whether the disk already recorded an uncommitted outage (`resumed`)
   * or an interrupted abort of recovery (`aborted`).
   */
  datatype Entry = Entry(at: int, carried: int, resumed: bool, aborted: bool)

  function EntryAt(p: Process, now: int): Option<Entry> {
    var m := p.memory;
    if m.st.power == Normal then Some(Entry(now, 0, false, false))
    else if m.st.power == BootReconcile then
      if m.st.shutdownCommitted then Some(Entry(now, 0, false, true))
      else
        var recorded := m.st.outageElapsedSeconds * SECOND;
        var resumed := m.resume == OnBattery;
        Some(Entry(now, if resumed && recorded < p.cfg.policy.gracePeriod then p.cfg.policy.gracePeriod else recorded, resumed, false))
    else None
  }

  /** Meaningful while the engine is in ON_BATTERY. */
  function OutageEntry(h: History): Option<Entry> {
    match h
    case Origin => None
    case Then(past, e) =>
      if e.Provisioned? || e.Booted? then None
      else if e.Stepped? && Replay(past).process.Some? && Replay(past).process.value.memory.st.power != OnBattery then
        EntryAt(Replay(past).process.value, e.now)
      else OutageEntry(past)
  }

  /** Every observation of this process from time `t0` on was UNKNOWN. */
  predicate UnknownSince(h: History, t0: int) {
    match h
    case Origin => false
    case Then(past, e) =>
      match e
      case Provisioned(_) => false
      case Booted(_) => false
      case Stepped(now, inp) => inp.ups.utility == UtilityUnknown && (now == t0 || UnknownSince(past, t0))
      case _ => UnknownSince(past, t0)
  }

  predicate LastReadingOnline(h: History) {
    LastStep(h).Some? && LastStep(h).value.inp.ups.utility == UtilityOnline
  }

  /** What an outage entered from NORMAL or at boot knows about its own timers. */
  ghost predicate OutageClock(h: History) {
    Replay(h).process.Some? && Replay(h).process.value.memory.st.power == OnBattery && OutageEntry(h).Some? ==>
      var m := Replay(h).process.value.memory;
      var e := OutageEntry(h).value;
      && LastStep(h).Some? && e.at <= LastStep(h).value.now && e.carried >= 0
      && (m.onBatterySince.Some? ==> m.onBatterySince.value >= e.at - e.carried)
      && (!e.aborted ==> m.onBatterySince == Some(e.at - e.carried))
      && (m.unknownSince.Some? ==> UnknownSince(h, m.unknownSince.value))
      && 0 <= m.onlineConfirmations <= 1
      && (m.onlineConfirmations == 1 ==> LastReadingOnline(h))
  }

  /** The engine's side of `OutageClock`: entering ON_BATTERY and stepping inside it. */
  lemma EnterOutage(p: Process, disk: State, now: int, inp: Inputs)
    requires !p.memory.st.power.Unsupported? && p.memory.st.power != OnBattery
    requires p.memory.st.power == BootReconcile ==> Coherent(disk) && p.memory == Boot(disk)
    ensures var t := Advance(p.cfg.policy, p.memory, now, inp);
      t.memory.st.power == OnBattery && EntryAt(p, now).Some? ==>
        var e := EntryAt(p, now).value;
        && e.at == now && t.memory.unknownSince == None && t.memory.onlineConfirmations == 0
        && if e.aborted then t.memory.onBatterySince == None else t.memory.onBatterySince == Some(now - e.carried)
  {
  }

  lemma StayInOutage(cfg: Config, m: Memory, now: int, inp: Inputs)
    requires m.st.power == OnBattery
    ensures var t := Advance(cfg, m, now, inp);
      t.memory.st.power == OnBattery ==>
        && (t.memory.onBatterySince == m.onBatterySince || (m.onBatterySince == None && t.memory.onBatterySince == Some(now)))
        && (t.memory.unknownSince.Some? ==>
              inp.ups.utility == UtilityUnknown && (t.memory.unknownSince == Some(now) || t.memory.unknownSince == m.unknownSince))
        && (t.memory.onlineConfirmations == 0
            || (inp.ups.utility == UtilityOnline && t.memory.onlineConfirmations == m.onlineConfirmations + 1 < PRE_COMMIT_ONLINE_CONFIRMATIONS))
  {
  }

  lemma {:induction false} OutageClockRuns(h: History)
    requires Legal(h)
    ensures OutageClock(h)
  {
    if h.Then? {
      OutageClockRuns(h.past);
      if h.last.Stepped? {
        LegalIsSound(h.past);
        var p := Replay(h.past).process.value;
        if p.memory.st.power == OnBattery {
          OutageClockTicks(h, p);
        } else {
          OutageClockStarts(h, p, Replay(h.past).disk.value);
        }
      } else {
        LegalIsQuiet(h);
        OutageClockKeeps(h);
      }
    }
  }

  lemma OutageClockKeeps(h: History)
    requires h.Then? && !h.last.Stepped? && Quiet(h) && OutageClock(h.past)
    ensures OutageClock(h)
  {
  }

  lemma OutageClockStarts(h: History, p: Process, disk: State)
    requires h.Then? && h.last.Stepped? && Replay(h.past).process == Some(p)
    requires p.memory.st.power != OnBattery && !p.memory.st.power.Unsupported?
    requires p.memory.st.power == BootReconcile ==> Coherent(disk) && p.memory == Boot(disk)
    ensures OutageClock(h)
  {
    EnterOutage(p, disk, h.last.now, h.last.inp);
  }

  lemma OutageClockTicks(h: History, p: Process)
    requires h.Then? && h.last.Stepped? && Replay(h.past).process == Some(p) && p.memory.st.power == OnBattery
    requires OutageClock(h.past) && (LastStep(h.past).Some? ==> LastStep(h.past).value.now <= h.last.now)
    ensures OutageClock(h)
  {
    StayInOutage(p.cfg.policy, p.memory, h.last.now, h.last.inp);
  }

  // ---------------------------------------------------------------- commit and cancellation

  /** The outage as its process and the disk can prove it has lasted. */
  function ProvenOutage(e: Entry, now: int): int { now - e.at + e.carried }

  /** What justifies committing a shutdown on the observation `h` ends with. */
  ghost predicate CommitJustified(h: History)
    requires h.Then? && h.last.Stepped? && Replay(h.past).process.Some?
  {
    var cfg := Replay(h.past).process.value.cfg.policy;
    var ups := h.last.inp.ups;
    || ups.fsd
    || (ups.lowBattery && ups.utility != UtilityOnline)
    || (cfg.communicationLossGrace > 0 && exists t0 :: UnknownSince(h, t0) && h.last.now - t0 >= cfg.communicationLossGrace)
    || (ups.utility == UtilityOnBattery && OutageEntry(h.past).Some? &&
        var lasted := ProvenOutage(OutageEntry(h.past).value, h.last.now);
        lasted >= cfg.gracePeriod && ThresholdCrossed(cfg, ups, lasted))
  }

  /** Why an on-battery step commits. */
  lemma CommitStep(cfg: Config, m: Memory, now: int, inp: Inputs)
    requires !m.st.power.Unsupported?
    requires Advance(cfg, m, now, inp).decision.action == CommitShutdown
    ensures var ups := inp.ups;
      || ups.fsd || (m.st.power == OnBattery && ups.lowBattery && ups.utility != UtilityOnline)
      || (m.st.power == OnBattery && ups.utility == UtilityUnknown && cfg.communicationLossGrace > 0
          && now - (if m.unknownSince.None? then now else m.unknownSince.value) >= cfg.communicationLossGrace)
      || (m.st.power == OnBattery && ups.utility == UtilityOnBattery &&
          var elapsed := now - (if m.onBatterySince.None? then now else m.onBatterySince.value);
          elapsed >= cfg.gracePeriod && ThresholdCrossed(cfg, ups, elapsed))
  {
  }

  lemma ShutdownCommitIsJustified(h: History)
    requires Legal(h) && h.Then? && h.last.Stepped? && LastAction(h) == CommitShutdown
    requires Replay(h.past).process.value.memory.st.power == OnBattery ==> OutageEntry(h.past).Some?
    ensures CommitJustified(h)
  {
    LegalIsSound(h.past);
    OutageClockRuns(h.past);
    CommitIsJustifiedByClock(h, Replay(h.past).process.value);
  }

  lemma CommitIsJustifiedByClock(h: History, p: Process)
    requires h.Then? && h.last.Stepped? && LastAction(h) == CommitShutdown && Replay(h.past).process == Some(p)
    requires !p.memory.st.power.Unsupported? && OutageClock(h.past)
    requires p.memory.st.power == OnBattery ==> OutageEntry(h.past).Some?
    requires LastStep(h.past).Some? ==> LastStep(h.past).value.now <= h.last.now
    ensures CommitJustified(h)
  {
    CommitStep(p.cfg.policy, p.memory, h.last.now, h.last.inp);
    if h.last.inp.ups.utility == UtilityUnknown && p.memory.st.power == OnBattery {
      assert UnknownSince(h, if p.memory.unknownSince.None? then h.last.now else p.memory.unknownSince.value);
    }
  }

  lemma CancelStep(cfg: Config, m: Memory, now: int, inp: Inputs)
    requires m.st.power == OnBattery
    requires Advance(cfg, m, now, inp).memory.st.power == Normal
    ensures inp.ups.utility == UtilityOnline && m.onlineConfirmations + 1 >= PRE_COMMIT_ONLINE_CONFIRMATIONS
    ensures !m.st.shutdownCommitted
  {
  }

  /** An outage is only cancelled, uncommitted, by two consecutive ONLINE observations. */
  lemma CancellationIsConfirmed(h: History)
    requires Legal(h) && h.Then? && h.last.Stepped? && OutageEntry(h.past).Some?
    requires Replay(h.past).process.value.memory.st.power == OnBattery
    requires Replay(h).process.value.memory.st.power == Normal
    ensures h.last.inp.ups.utility == UtilityOnline && LastReadingOnline(h.past)
    ensures !Replay(h.past).process.value.memory.st.shutdownCommitted
  {
    OutageClockRuns(h.past);
    var p := Replay(h.past).process.value;
    CancelStep(p.cfg.policy, p.memory, h.last.now, h.last.inp);
  }

  /** Exactly when an uncommitted on-battery reading commits, once the outage is known to exceed the grace period. */
  lemma DischargingStep(cfg: Config, m: Memory, now: int, inp: Inputs)
    requires m.st.power == OnBattery && !m.st.shutdownCommitted && m.onBatterySince.Some?
    requires inp.ups.utility == UtilityOnBattery && now - m.onBatterySince.value >= cfg.gracePeriod
    ensures Advance(cfg, m, now, inp).decision.action == CommitShutdown <==>
      inp.ups.fsd || inp.ups.lowBattery || ThresholdCrossed(cfg, inp.ups, now - m.onBatterySince.value)
  {
  }

  /**
   * After rebooting into an outage the disk already recorded, no on-battery step waits for grace again: the
   * shutdown commits exactly when a threshold is crossed, counting the time since the boot observation on top
   * of the recorded outage.
   */
  lemma ResumedOutageSkipsGrace(h: History)
    requires Legal(h) && h.Then? && h.last.Stepped?
    requires Replay(h.past).process.value.memory.st.power == OnBattery && !Replay(h.past).process.value.memory.st.shutdownCommitted
    requires OutageEntry(h.past).Some? && OutageEntry(h.past).value.resumed
    requires h.last.inp.ups.utility == UtilityOnBattery
    ensures LastAction(h) == CommitShutdown <==>
      h.last.inp.ups.fsd || h.last.inp.ups.lowBattery
      || ThresholdCrossed(Replay(h.past).process.value.cfg.policy, h.last.inp.ups, ProvenOutage(OutageEntry(h.past).value, h.last.now))
  {
    LegalIsSound(h.past);
    OutageClockRuns(h.past);
    ResumedCarriesGrace(h.past);
    var p := Replay(h.past).process.value;
    DischargingStep(p.cfg.policy, p.memory, h.last.now, h.last.inp);
  }

  /** A resumed outage starts with at least the grace period on its clock. */
  lemma {:induction false} ResumedCarriesGrace(h: History)
    requires Legal(h)
    ensures Replay(h).process.Some? && OutageEntry(h).Some? && OutageEntry(h).value.resumed ==>
      OutageEntry(h).value.carried >= Replay(h).process.value.cfg.policy.gracePeriod && !OutageEntry(h).value.aborted
  {
    if h.Then? {
      ResumedCarriesGrace(h.past);
      LegalIsQuiet(h);
    }
  }

  // ---------------------------------------------------------------- the durable record

  /** The disk as the newest event left it, against the disk before. */
  lemma DurableChange(h: History)
    requires Legal(h) && h.Then? && Replay(h.past).disk.Some?
    ensures Replay(h).disk.Some?
    ensures var before, after := Replay(h.past).disk.value, Replay(h).disk.value;
      // The outage clock only runs backwards when the outage ends or a new one starts from NORMAL.
      && (after.outageElapsedSeconds < before.outageElapsedSeconds ==>
            after.power == Normal || (before.power == Normal && after.power == OnBattery))
      // The commit is only withdrawn by a completed recovery or by a new outage linked to the old transaction.
      && (before.shutdownCommitted && !after.shutdownCommitted ==>
            || (before.power == RestoreHosts && after.power == Normal && after.transactionId == before.transactionId)
            || (h.last.Write? && h.last.why == NewOutage && after.parentTransactionId == before.transactionId
                && after.transactionId !in Replay(h.past).issued && after.hosts == map[]))
      && before.sequence <= after.sequence
  {
    LegalIsSound(h.past);
    if h.last.Write? {
      DurableWrite(Replay(h.past), h.last.st, h.last.why);
    }
  }

  /** The same of the generation a running process writes, whether or not it gets there. */
  lemma DurableWrite(s: System, st: State, why: Cause)
    requires Sound(s) && WriteAllowed(s, st, why)
    ensures var before := s.disk.value;
      && before.sequence <= st.sequence
      && (st.outageElapsedSeconds < before.outageElapsedSeconds ==>
            st.power == Normal || (before.power == Normal && st.power == OnBattery))
      && (before.shutdownCommitted && !st.shutdownCommitted ==>
            || (before.power == RestoreHosts && st.power == Normal && st.transactionId == before.transactionId)
            || (why == NewOutage && st.parentTransactionId == before.transactionId
                && st.transactionId !in s.issued && st.hosts == map[]))
  {
  }
}
