/**
 * The engine's decisions in terms of the configuration and the observations alone: when each power state is left,
 * and over whole histories, what must happen once the observations call for it.
 */
module PolicyLaws {
  import opened Basics
  import opened Power
  import opened Policy
  import opened Histories
  import opened Invariants
  import opened OutageTheorems

  // ---------------------------------------------------------------- one step

  /** Forced shutdown commits at once; short of it, only an outage leaves NORMAL, with its clock at zero. */
  lemma NormalStep(cfg: Config, m: Memory, now: int, inp: Inputs)
    requires m.st.power == Normal && !m.st.shutdownCommitted
    ensures var r := Step(cfg, m, now, inp);
      && r.Accepted?
      && (r.decision.action == CommitShutdown <==> inp.ups.fsd)
      && (r.memory.st.power == OnBattery <==> !inp.ups.fsd && inp.ups.utility == UtilityOnBattery)
      && (r.memory.st.power == OnBattery ==>
            r.decision == Decision(true, NoAction) && r.memory.st.outageElapsedSeconds == 0 && r.memory.onBatterySince == Some(now))
      && (!inp.ups.fsd && inp.ups.utility != UtilityOnBattery ==> r.decision == Decision(false, NoAction) && r.memory == m)
  {
  }

  /** What has been measured of an outage so far. */
  function Elapsed(m: Memory, now: int): int {
    if m.onBatterySince.Some? then now - m.onBatterySince.value else 0
  }

  /** An uncommitted outage commits exactly on forced shutdown, low battery, lost communication, or a crossed threshold. */
  lemma OutageCommits(cfg: Config, m: Memory, now: int, inp: Inputs)
    requires m.st.power == OnBattery && !m.st.shutdownCommitted
    ensures var r, ups := Step(cfg, m, now, inp), inp.ups;
      r.Accepted? && (r.decision.action == CommitShutdown <==>
        || ups.fsd
        || (ups.lowBattery && ups.utility != UtilityOnline)
        || (ups.utility == UtilityUnknown && m.unknownSince.Some? && cfg.communicationLossGrace > 0
            && now - m.unknownSince.value >= cfg.communicationLossGrace)
        || (ups.utility == UtilityOnBattery && Elapsed(m, now) >= cfg.gracePeriod
            && (|| (cfg.criticalRuntime > 0 && ups.runtimeSeconds.Some? && ups.runtimeSeconds.value * 1_000_000_000 <= cfg.criticalRuntime)
                || (cfg.criticalCharge.Some? && ups.charge.Some? && ups.charge.value <= cfg.criticalCharge.value)
                || (cfg.maxOnBattery > 0 && Elapsed(m, now) >= cfg.maxOnBattery))))
  {
  }

  /** A commit is one change of the durable state; a crossed threshold also records how long the outage has lasted. */
  lemma CommitCommits(cfg: Config, m: Memory, now: int, inp: Inputs)
    requires m.onBatterySince.Some? ==> m.onBatterySince.value <= now
    ensures var r := Step(cfg, m, now, inp);
      r.Accepted? && r.decision.action == CommitShutdown ==>
        && r.decision.changed
        && r.memory.st == m.st.(power := ShutdownCommitted, shutdownCommitted := true, outageElapsedSeconds := r.memory.st.outageElapsedSeconds)
        && var lasted := Elapsed(m, now) / 1_000_000_000;
           r.memory.st.outageElapsedSeconds ==
             if m.st.power == OnBattery && inp.ups.utility == UtilityOnBattery && !inp.ups.lowBattery && !(inp.ups.fsd && !m.st.shutdownCommitted)
                && lasted > m.st.outageElapsedSeconds
             then lasted else m.st.outageElapsedSeconds
  {
  }

  /** An uncommitted outage ends exactly on the second ONLINE reading in a row, with no elapsed time left. */
  lemma OutageEnds(cfg: Config, m: Memory, now: int, inp: Inputs)
    requires m.st.power == OnBattery && !m.st.shutdownCommitted && 0 <= m.onlineConfirmations
    ensures var r := Step(cfg, m, now, inp);
      && r.Accepted?
      && (r.memory.st.power == Normal <==> inp.ups.utility == UtilityOnline && !inp.ups.fsd && m.onlineConfirmations >= 1)
      && (r.memory.st.power == Normal ==>
            r.decision == Decision(true, NoAction) && r.memory.st.outageElapsedSeconds == 0 && r.memory.onBatterySince == None)
      && r.memory.st.power in {Normal, OnBattery, ShutdownCommitted}
  {
  }

  /**
   * While the outage goes on, the durable clock is brought up to date every thirty seconds and not before. The outage
   * is measured from its first reading on; so are the thirty seconds.
   */
  lemma DurableClockAdvances(cfg: Config, m: Memory, now: int, inp: Inputs)
    requires m.st.power == OnBattery && !m.st.shutdownCommitted && inp.ups.utility == UtilityOnBattery
    requires m.onBatterySince.Some? ==> m.onBatterySince.value <= now
    requires Step(cfg, m, now, inp).Accepted? && Step(cfg, m, now, inp).decision.action != CommitShutdown
    ensures var r, lasted := Step(cfg, m, now, inp), Elapsed(m, now) / 1_000_000_000;
      && r.memory.onBatterySince == (if m.onBatterySince.Some? then m.onBatterySince else Some(now))
      && if m.onBatterySince.None? || m.lastCheckpoint.None? then
           r.memory.st == m.st && !r.decision.changed && r.memory.lastCheckpoint == Some(now)
         else if now - m.lastCheckpoint.value < 30 * 1_000_000_000 then
           r.memory.st == m.st && !r.decision.changed && r.memory.lastCheckpoint == m.lastCheckpoint
         else
           && r.memory.st == m.st.(outageElapsedSeconds := if lasted > m.st.outageElapsedSeconds then lasted else m.st.outageElapsedSeconds)
           && (r.decision.changed <==> lasted > m.st.outageElapsedSeconds) && r.memory.lastCheckpoint == Some(now)
  {
  }

  /** WAITING_FOR_AC is left exactly for power that is back, if recovery is enabled; the stability window then begins. */
  lemma WaitingForPower(cfg: Config, m: Memory, now: int, inp: Inputs)
    requires m.st.power == WaitingForAC && m.st.shutdownCommitted
    ensures var r := Step(cfg, m, now, inp);
      && r.Accepted?
      && if inp.ups.utility == UtilityOnline && cfg.recoveryEnabled != Some(false) then
           r.decision == Decision(true, NoAction) && r.memory == m.(st := m.st.(power := RecoveryWait), onlineSince := Some(now), networkWaitSince := None)
         else r.decision == Decision(false, NoAction) && r.memory == m
  {
  }

  /**
   * The battery is charged far enough: charge decides if it is reported and has a minimum, otherwise runtime,
   * otherwise the time since power came back.
   */
  predicate Charged(cfg: Config, ups: Ups, lasted: int) {
    if cfg.recoveryChargeMin.Some? && ups.charge.Some? then ups.charge.value >= cfg.recoveryChargeMin.value
    else if cfg.recoveryRuntimeMin > 0 && ups.runtimeSeconds.Some? then ups.runtimeSeconds.value * 1_000_000_000 >= cfg.recoveryRuntimeMin
    else cfg.recoveryRechargeTime > 0 && lasted >= cfg.recoveryRechargeTime
  }

  /**
   * Recovery is committed exactly at the end of a stability window, with a battery charged far enough, the network
   * ready and the control stack healthy.
   */
  lemma RecoveryCommits(cfg: Config, m: Memory, now: int, inp: Inputs)
    requires m.st.power == RecoveryWait && m.st.shutdownCommitted && cfg.utilityStable > 0
    ensures var r, ups := Step(cfg, m, now, inp), inp.ups;
      r.Accepted? && (r.decision.action == CommitRecovery <==>
        && cfg.recoveryEnabled != Some(false)
        && ups.utility == UtilityOnline && !ups.lowBattery && !ups.fsd
        && m.onlineSince.Some? && now - m.onlineSince.value >= cfg.utilityStable
        && Charged(cfg, ups, now - m.onlineSince.value)
        && inp.networkReady && inp.healthSafe)
  {
  }

  /**
   * Short of that, RECOVERY_WAIT is left for an unsafe reading or because recovery is disabled, or fails safe when
   * everything but the network has been ready for too long. The two timers run only while what they time goes on.
   */
  lemma RecoveryWaitEnds(cfg: Config, m: Memory, now: int, inp: Inputs)
    requires m.st.power == RecoveryWait && m.st.shutdownCommitted && cfg.utilityStable > 0
    ensures var r, ups := Step(cfg, m, now, inp), inp.ups;
      && r.Accepted?
      && (r.memory.st.power == WaitingForAC <==>
            cfg.recoveryEnabled == Some(false) || ups.utility == UtilityOnBattery || ups.lowBattery || ups.fsd)
      && var calm := ups.utility == UtilityOnline && !ups.lowBattery && !ups.fsd && cfg.recoveryEnabled != Some(false);
      && var awaiting := calm && m.onlineSince.Some? && now - m.onlineSince.value >= cfg.utilityStable
                         && Charged(cfg, ups, now - m.onlineSince.value) && !inp.networkReady;
      && (r.memory.st.power == FailedSafe <==>
            awaiting && cfg.recoveryNetworkWait > 0 && m.networkWaitSince.Some? && now - m.networkWaitSince.value >= cfg.recoveryNetworkWait)
      && r.memory.onlineSince == (if !calm then None else if m.onlineSince.Some? then m.onlineSince else Some(now))
      && r.memory.networkWaitSince == (if !awaiting then None else if m.networkWaitSince.Some? then m.networkWaitSince else Some(now))
      && r.memory.st.power in {RecoveryWait, WaitingForAC, FailedSafe, RecoveryStarted}
      && (r.memory.st.power == RecoveryStarted <==> r.decision.action == CommitRecovery)
  {
  }

  predicate Unsafe(ups: Ups) {
    ups.utility != UtilityOnline || ups.lowBattery || ups.fsd
  }

  /** A committed recovery starts restoring, is stopped for an outage or by configuration, fails safe, or waits for the network. */
  lemma CommittedRecoveryStep(cfg: Config, m: Memory, now: int, inp: Inputs)
    requires m.st.power in {RecoveryStarted, RestoreHosts} && m.st.shutdownCommitted && m.st.recoveryStarted
    ensures var r, enabled := Step(cfg, m, now, inp), cfg.recoveryEnabled != Some(false);
      var timedOut := cfg.recoveryNetworkWait > 0 && m.networkWaitSince.Some? && now - m.networkWaitSince.value >= cfg.recoveryNetworkWait;
      && r.Accepted?
      && (r.memory.st.power == WaitingForAC <==> !enabled)
      && (r.memory.st.power == OnBattery <==> enabled && Unsafe(inp.ups))
      && (r.memory.st.power == FailedSafe <==>
            enabled && !Unsafe(inp.ups) && (!inp.healthSafe || (m.st.power == RecoveryStarted && !inp.networkReady && timedOut)))
      && (r.memory.st.power == RestoreHosts <==> enabled && !Unsafe(inp.ups) && inp.healthSafe && inp.networkReady)
      && (r.memory.st.power in {RecoveryStarted, RestoreHosts} <==> r.memory.st.recoveryStarted && r.memory.st.power != FailedSafe)
      && (r.memory.st.power in {WaitingForAC, OnBattery} <==> r.decision.action == StopRecovery)
      && (r.decision.action == StartRestore <==> m.st.power == RecoveryStarted && r.memory.st.power == RestoreHosts)
      && (r.memory.st.power == RecoveryStarted ==> r.memory.networkWaitSince == if m.networkWaitSince.Some? then m.networkWaitSince else Some(now))
      && (r.memory.st.power == RestoreHosts ==> r.memory.networkWaitSince == None)
  {
  }

  /** Where a restarted process goes, by what the disk held and the first reading that says something. */
  lemma BootStep(cfg: Config, d: State, now: int, inp: Inputs)
    requires Coherent(d)
    ensures var r, ups, enabled := Step(cfg, Boot(d), now, inp), inp.ups, cfg.recoveryEnabled != Some(false);
      && r.Accepted?
      && if ups.utility == UtilityUnknown then r.decision == Decision(false, NoAction) && r.memory == Boot(d)
         else if d.recoveryStarted then
           && !r.memory.st.recoveryStarted
           && r.memory.st.power == (if !enabled then WaitingForAC else if Unsafe(ups) then OnBattery else RecoveryWait)
           && (r.decision.action == StopRecovery <==> r.memory.st.power != RecoveryWait)
         else if d.shutdownCommitted then
           && (r.decision.action == StopRecovery <==> d.power == OnBattery && ups.utility == UtilityOnBattery)
           && r.memory.st.power == (if d.power == OnBattery && ups.utility == UtilityOnBattery then OnBattery
                                    else if ups.utility == UtilityOnline && enabled then RecoveryWait else WaitingForAC)
         else r.memory.st.power == (if ups.utility == UtilityOnBattery then OnBattery else Normal) && r.decision.action == NoAction
  {
  }

  /** An outage nobody committed goes on after a restart with the time the disk has recorded, and at least the grace period if it had begun. */
  lemma BootCarriesOutage(cfg: Config, d: State, now: int, inp: Inputs)
    requires Coherent(d) && !d.shutdownCommitted && inp.ups.utility == UtilityOnBattery
    ensures var r, recorded := Step(cfg, Boot(d), now, inp), d.outageElapsedSeconds * 1_000_000_000;
      r.Accepted? && r.memory.onBatterySince.Some?
      && now - r.memory.onBatterySince.value == if d.power == OnBattery && recorded < cfg.gracePeriod then cfg.gracePeriod else recorded
  {
  }

  /** A committed shutdown proceeds at once; from there, and from FAILED_SAFE, no reading moves the engine. */
  lemma ShutdownStep(cfg: Config, m: Memory, now: int, inp: Inputs)
    requires m.st.power in {ShutdownCommitted, ShutdownInProgress, FailedSafe} && (m.st.power != FailedSafe ==> m.st.shutdownCommitted)
    ensures Step(cfg, m, now, inp) ==
      if m.st.power == ShutdownCommitted then Accepted(m.(st := m.st.(power := ShutdownInProgress)), Decision(true, NoAction))
      else Accepted(m, Decision(false, NoAction))
  {
  }

  /** The two ends of a transaction's phases: hosts down, and hosts restored with flags and clocks cleared. */
  lemma PhasesEnd(m: Memory)
    ensures m.st.power in {ShutdownCommitted, ShutdownInProgress} ==>
      ShutdownPhaseComplete(m) == Transition(m.(st := m.st.(power := WaitingForAC)), Decision(true, NoAction))
    ensures m.st.power == RestoreHosts ==>
      var t := RecoveryComplete(m);
      && t.decision == Decision(true, NoAction)
      && t.memory.st == m.st.(power := Normal, shutdownCommitted := false, recoveryStarted := false, outageElapsedSeconds := 0)
      && t.memory.onBatterySince.None? && t.memory.onlineSince.None? && t.memory.unknownSince.None? && t.memory.onlineConfirmations == 0
  {
  }

  /** A stability window that is not configured lasts two minutes. */
  lemma WindowIsConfigured(cfg: Config)
    ensures Normalised(cfg) == if cfg.utilityStable <= 0 then cfg.(utilityStable := 120 * 1_000_000_000) else cfg
  {
  }

  // ---------------------------------------------------------------- whole histories

  /** Every recovery commit found the battery charged far enough, after a run of readings that nothing has broken. */
  lemma CommittedRecoveryIsCharged(h: History)
    requires Legal(h) && h.Then? && h.last.Stepped? && LastAction(h) == CommitRecovery
    ensures var cfg, ups := Replay(h.past).process.value.cfg.policy, h.last.inp.ups;
      && h.last.inp.networkReady && h.last.inp.healthSafe && CalmReading(h.last.inp)
      && exists t0 :: UnbrokenSince(h, t0) && h.last.now - t0 >= cfg.utilityStable && Charged(cfg, ups, h.last.now - t0)
  {
    LegalIsSound(h.past);
    TimerIsUnbroken(h.past);
    var p := Replay(h.past).process.value;
    CommitsOnlyWaiting(p.cfg.policy, p.memory, h.last.now, h.last.inp);
    RecoveryCommits(p.cfg.policy, p.memory, h.last.now, h.last.inp);
    assert UnbrokenSince(h, p.memory.onlineSince.value);
  }

  lemma CommitsOnlyWaiting(cfg: Config, m: Memory, now: int, inp: Inputs)
    requires !m.st.power.Unsupported? && Step(cfg, m, now, inp).Accepted? && Step(cfg, m, now, inp).decision.action == CommitRecovery
    ensures m.st.power == RecoveryWait
  {
  }

  /** Since a reading at `t0`, every reading of this process was calm and left it waiting for recovery. */
  predicate WaitedSince(h: History, t0: int) {
    h.Then? && !h.last.Provisioned? && !h.last.Booted? &&
    if h.last.Stepped? then
      && CalmReading(h.last.inp) && Replay(h).process.Some? && Replay(h).process.value.memory.st.power == RecoveryWait
      && (h.last.now == t0 || WaitedSince(h.past, t0))
    else WaitedSince(h.past, t0)
  }

  lemma {:induction false} UnbrokenIsPast(h: History, t0: int)
    requires Legal(h) && UnbrokenSince(h, t0)
    ensures LastStep(h).Some? && t0 <= LastStep(h).value.now
  {
    if h.last.Stepped? {
      if !(h.last.now == t0 && h.last.inp.ups.utility == UtilityOnline) {
        UnbrokenIsPast(h.past, t0);
      }
    } else {
      UnbrokenIsPast(h.past, t0);
    }
  }

  /** The stability window is known to have begun by `t0`. */
  predicate WindowBegunBy(m: Memory, t0: int) {
    m.st.power == RecoveryWait && m.onlineSince.Some? && m.onlineSince.value <= t0
  }

  /** While it waits so, the window is known to have begun. */
  lemma {:induction false} WindowHasBegun(h: History, t0: int)
    requires Legal(h) && WaitedSince(h, t0) && Replay(h).process.Some?
    ensures WindowBegunBy(Replay(h).process.value.memory, t0)
  {
    LegalIsQuiet(h);
    if !h.last.Stepped? {
      WindowHasBegun(h.past, t0);
    } else {
      if h.last.now != t0 {
        WindowHasBegun(h.past, t0);
      }
      WindowGoesOn(h, t0);
    }
  }

  lemma WindowGoesOn(h: History, t0: int)
    requires Legal(h) && h.Then? && h.last.Stepped? && WaitedSince(h, t0)
    requires h.last.now != t0 ==> WindowBegunBy(Replay(h.past).process.value.memory, t0)
    ensures WindowBegunBy(Replay(h).process.value.memory, t0)
  {
    LegalIsSound(h.past);
    var p := Replay(h.past).process.value;
    WaitKeepsWindow(p.cfg.policy, p.memory, h.last.now, h.last.inp);
    if h.last.now == t0 {
      TimerIsUnbroken(h);
      UnbrokenIsPast(h, Replay(h).process.value.memory.onlineSince.value);
    }
  }

  lemma WaitKeepsWindow(cfg: Config, m: Memory, now: int, inp: Inputs)
    requires !m.st.power.Unsupported? && CalmReading(inp)
    ensures var t := Advance(cfg, m, now, inp);
      t.memory.st.power == RecoveryWait ==>
        t.memory.onlineSince.Some? && (m.st.power == RecoveryWait && m.onlineSince.Some? ==> t.memory.onlineSince == m.onlineSince)
  {
  }

  /**
   * The other direction: after a whole window of calm readings, the next calm one commits the recovery if it is
   * enabled and finds the battery charged far enough, the network ready and the control stack healthy.
   */
  lemma StableRecoveryCommits(h: History, t0: int)
    requires Legal(h) && h.Then? && h.last.Stepped? && WaitedSince(h.past, t0) && CalmReading(h.last.inp)
    requires Replay(h.past).process.Some? && h.last.inp.networkReady && h.last.inp.healthSafe
    requires var cfg, ups := Replay(h.past).process.value.cfg.policy, h.last.inp.ups;
      && cfg.recoveryEnabled != Some(false) && h.last.now - t0 >= cfg.utilityStable
      && Charged(cfg, ups, h.last.now - t0)
    ensures LastAction(h) == CommitRecovery
  {
    LegalIsSound(h.past);
    WindowHasBegun(h.past, t0);
    var p := Replay(h.past).process.value;
    RecoveryCommits(p.cfg.policy, p.memory, h.last.now, h.last.inp);
  }

  /** The newest reading of this process was ONLINE and met an uncommitted outage. */
  predicate OnlineInOutage(h: History) {
    h.Then? && !h.last.Provisioned? && !h.last.Booted? &&
    if h.last.Stepped? then
      && h.last.inp.ups.utility == UtilityOnline && !h.last.inp.ups.fsd && Replay(h.past).process.Some?
      && Replay(h.past).process.value.memory.st.power == OnBattery && !Replay(h.past).process.value.memory.st.shutdownCommitted
    else OnlineInOutage(h.past)
  }

  lemma {:induction false} ConfirmationsCount(h: History)
    requires Legal(h) && Replay(h).process.Some?
    ensures Replay(h).process.value.memory.onlineConfirmations >= 0
    ensures OnlineInOutage(h) && Replay(h).process.value.memory.st.power == OnBattery ==>
      Replay(h).process.value.memory.onlineConfirmations >= 1
  {
    LegalIsQuiet(h);
    if !h.last.Booted? {
      ConfirmationsCount(h.past);
      if h.last.Stepped? {
        LegalIsSound(h.past);
        var p := Replay(h.past).process.value;
        StepCounts(p.cfg.policy, p.memory, h.last.now, h.last.inp);
      }
    }
  }

  lemma StepCounts(cfg: Config, m: Memory, now: int, inp: Inputs)
    requires !m.st.power.Unsupported? && m.onlineConfirmations >= 0
    ensures var t := Advance(cfg, m, now, inp);
      && t.memory.onlineConfirmations >= 0
      && (m.st.power == OnBattery && !m.st.shutdownCommitted && inp.ups.utility == UtilityOnline && !inp.ups.fsd && t.memory.st.power == OnBattery ==>
            t.memory.onlineConfirmations >= 1)
  {
  }

  /** Two ONLINE readings in a row end an uncommitted outage. */
  lemma ConfirmedPowerEndsOutage(h: History)
    requires Legal(h) && h.Then? && h.last.Stepped? && OnlineInOutage(h.past) && OnlineInOutage(h)
    ensures Replay(h).process.Some? && Replay(h).process.value.memory.st.power == Normal
    ensures Replay(h).process.value.memory.st.outageElapsedSeconds == 0 && LastAction(h) == NoAction
  {
    LegalIsSound(h.past);
    ConfirmationsCount(h.past);
    var p := Replay(h.past).process.value;
    OutageEnds(p.cfg.policy, p.memory, h.last.now, h.last.inp);
    OutageCommits(p.cfg.policy, p.memory, h.last.now, h.last.inp);
  }

  /** Since a reading at `t0`, every reading of this process was UNKNOWN and met an outage. */
  predicate UnknownInOutage(h: History, t0: int) {
    h.Then? && !h.last.Provisioned? && !h.last.Booted? &&
    if h.last.Stepped? then
      && h.last.inp.ups.utility == UtilityUnknown && Replay(h.past).process.Some? && Replay(h.past).process.value.memory.st.power == OnBattery
      && (h.last.now == t0 || UnknownInOutage(h.past, t0))
    else UnknownInOutage(h.past, t0)
  }

  lemma StepMarksUnknown(cfg: Config, m: Memory, now: int, inp: Inputs)
    requires !m.st.power.Unsupported?
    ensures var t := Advance(cfg, m, now, inp);
      && t.memory.unknownSince in {None, m.unknownSince, Some(now)}
      && (m.st.power == OnBattery && inp.ups.utility == UtilityUnknown && t.memory.st.power == OnBattery ==>
            t.memory.unknownSince == if m.unknownSince.Some? then m.unknownSince else Some(now))
  {
  }

  lemma {:induction false} UnknownIsPast(h: History)
    requires Legal(h) && Replay(h).process.Some? && Replay(h).process.value.memory.unknownSince.Some?
    ensures LastStep(h).Some? && Replay(h).process.value.memory.unknownSince.value <= LastStep(h).value.now
  {
    LegalIsQuiet(h);
    var p := Replay(h.past).process;
    if h.last.Stepped? {
      LegalIsSound(h.past);
      StepMarksUnknown(p.value.cfg.policy, p.value.memory, h.last.now, h.last.inp);
      if p.value.memory.unknownSince.Some? {
        UnknownIsPast(h.past);
      }
    } else if !h.last.Booted? && !h.last.RecoveryDone? {
      UnknownIsPast(h.past);
    }
  }

  /** As long as the outage goes on, such a run is known to have begun by `t0`. */
  lemma {:induction false} UnknownRunIsKnown(h: History, t0: int)
    requires Legal(h) && UnknownInOutage(h, t0) && Replay(h).process.Some? && Replay(h).process.value.memory.st.power == OnBattery
    ensures Replay(h).process.value.memory.unknownSince.Some? && Replay(h).process.value.memory.unknownSince.value <= t0
  {
    LegalIsQuiet(h);
    if h.last.Stepped? {
      LegalIsSound(h.past);
      var p := Replay(h.past).process.value;
      StepMarksUnknown(p.cfg.policy, p.memory, h.last.now, h.last.inp);
      if h.last.now == t0 {
        UnknownIsPast(h);
      } else {
        UnknownRunIsKnown(h.past, t0);
      }
    } else {
      UnknownRunIsKnown(h.past, t0);
    }
  }

  /** A run of UNKNOWN readings that outlasts its grace commits the shutdown. */
  lemma LostCommunicationCommits(h: History, t0: int)
    requires Legal(h) && h.Then? && h.last.Stepped? && UnknownInOutage(h, t0) && h.last.now > t0
    requires !Replay(h.past).process.value.memory.st.shutdownCommitted
    requires var grace := Replay(h.past).process.value.cfg.policy.communicationLossGrace; grace > 0 && h.last.now - t0 >= grace
    ensures LastAction(h) == CommitShutdown
  {
    LegalIsSound(h.past);
    UnknownRunIsKnown(h.past, t0);
    var p := Replay(h.past).process.value;
    OutageCommits(p.cfg.policy, p.memory, h.last.now, h.last.inp);
  }
}
