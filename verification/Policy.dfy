/** The outage and recovery state machine, as a function of its memory, the clock and one observation. */
module Policy {
  import opened Basics
  import opened Power

  const CHECKPOINT_INTERVAL: int := 30 * SECOND
  const DEFAULT_UTILITY_STABLE: int := 120 * SECOND
  const PRE_COMMIT_ONLINE_CONFIRMATIONS := 2

  datatype Config = Config(
    gracePeriod: int,
    maxOnBattery: int,
    criticalCharge: Option<real>,
    criticalRuntime: int,
    communicationLossGrace: int,
    recoveryEnabled: Option<bool>,
    utilityStable: int,
    recoveryChargeMin: Option<real>,
    recoveryRuntimeMin: int,
    recoveryRechargeTime: int,
    recoveryNetworkWait: int)

  datatype Action = NoAction | CommitShutdown | StopRecovery | CommitRecovery | StartRestore

  datatype Decision = Decision(changed: bool, action: Action)

  /** Everything the engine holds; only `st` is durable. */
  datatype Memory = Memory(
    st: State,
    resume: PowerState,
    onBatterySince: Option<int>,
    onlineSince: Option<int>,
    unknownSince: Option<int>,
    networkWaitSince: Option<int>,
    lastCheckpoint: Option<int>,
    onlineConfirmations: int)

  datatype Transition = Transition(memory: Memory, decision: Decision)

  /** `Rejected` is the engine's error return. */
  datatype StepResult = Accepted(memory: Memory, decision: Decision) | Rejected

  const IDLE := Decision(false, NoAction)
  const MOVED := Decision(true, NoAction)

  /** Integer division that truncates toward zero. */
  function WholeSeconds(d: int): int {
    if d >= 0 then d / SECOND else -((-d) / SECOND)
  }

  function Normalised(cfg: Config): Config {
    if cfg.utilityStable <= 0 then cfg.(utilityStable := DEFAULT_UTILITY_STABLE) else cfg
  }

  function Boot(persisted: State): Memory {
    var st := if persisted.stateVersion == 0 then persisted.(stateVersion := VERSION) else persisted;
    Memory(st.(power := BootReconcile), persisted.power, None, None, None, None, None, 0)
  }

  predicate RecoveryEnabled(cfg: Config) {
    cfg.recoveryEnabled.None? || cfg.recoveryEnabled.value
  }

  predicate UnsafeUps(ups: Ups) {
    ups.utility == UtilityOnBattery || ups.utility == UtilityUnknown || ups.lowBattery || ups.fsd
  }

  predicate RechargeGate(cfg: Config, ups: Ups, stableFor: int) {
    if cfg.recoveryChargeMin.Some? then
      if ups.charge.Some? then ups.charge.value >= cfg.recoveryChargeMin.value
      else if cfg.recoveryRuntimeMin > 0 && ups.runtimeSeconds.Some? then
        ups.runtimeSeconds.value * SECOND >= cfg.recoveryRuntimeMin
      else cfg.recoveryRechargeTime > 0 && stableFor >= cfg.recoveryRechargeTime
    else if cfg.recoveryRuntimeMin > 0 then
      if ups.runtimeSeconds.Some? then ups.runtimeSeconds.value * SECOND >= cfg.recoveryRuntimeMin
      else cfg.recoveryRechargeTime > 0 && stableFor >= cfg.recoveryRechargeTime
    else cfg.recoveryRechargeTime > 0 && stableFor >= cfg.recoveryRechargeTime
  }

  function Enter(m: Memory, power: PowerState): Memory {
    m.(st := m.st.(power := power))
  }

  function Commit(m: Memory): Transition {
    Transition(m.(st := m.st.(shutdownCommitted := true, power := ShutdownCommitted)), Decision(true, CommitShutdown))
  }

  function FailSafe(m: Memory): Transition {
    Transition(Enter(m, FailedSafe), MOVED)
  }

  /** Leaves recovery: to `power`, with the recovery flag withdrawn. */
  function Stop(m: Memory, power: PowerState): Transition {
    Transition(m.(st := m.st.(recoveryStarted := false, power := power)), Decision(true, StopRecovery))
  }

  function StartRecoveryWait(m: Memory, now: int): Memory {
    Enter(m.(onlineSince := Some(now), networkWaitSince := None), RecoveryWait)
  }

  function ReconcileBoot(cfg: Config, m: Memory, now: int, inp: Inputs): Transition {
    var ups := inp.ups;
    if ups.utility == UtilityUnknown then Transition(m, IDLE)
    else if m.st.recoveryStarted then
      if !RecoveryEnabled(cfg) then Stop(m, WaitingForAC)
      else if ups.utility == UtilityOnBattery || ups.lowBattery || ups.fsd then Stop(m, OnBattery)
      else Transition(StartRecoveryWait(m.(st := m.st.(recoveryStarted := false)), now), MOVED)
    else if m.st.shutdownCommitted && m.resume == OnBattery && ups.utility == UtilityOnBattery then
      Transition(Enter(m, OnBattery), Decision(true, StopRecovery))
    else if m.st.shutdownCommitted then
      if ups.utility == UtilityOnline then
        if !RecoveryEnabled(cfg) then
          Transition(Enter(m, WaitingForAC), Decision(m.resume != WaitingForAC, NoAction))
        else Transition(StartRecoveryWait(m, now), MOVED)
      else Transition(Enter(m, WaitingForAC), MOVED)
    else if ups.utility == UtilityOnBattery then
      var recorded := m.st.outageElapsedSeconds * SECOND;
      var elapsed := if m.resume == OnBattery && recorded < cfg.gracePeriod then cfg.gracePeriod else recorded;
      Transition(Enter(m.(onBatterySince := Some(now - elapsed), lastCheckpoint := Some(now), onlineConfirmations := 0), OnBattery), MOVED)
    else
      Transition(Enter(m.(st := m.st.(outageElapsedSeconds := 0)), Normal), MOVED)
  }

  function RecordElapsed(m: Memory, elapsed: int): Memory {
    if WholeSeconds(elapsed) > m.st.outageElapsedSeconds
    then m.(st := m.st.(outageElapsedSeconds := WholeSeconds(elapsed))) else m
  }

  function Checkpoint(m: Memory, now: int, elapsed: int): Transition {
    if m.lastCheckpoint.None? then Transition(m.(lastCheckpoint := Some(now)), IDLE)
    else if now - m.lastCheckpoint.value < CHECKPOINT_INTERVAL then Transition(m, IDLE)
    else
      var after := RecordElapsed(m, elapsed).(lastCheckpoint := Some(now));
      Transition(after, Decision(after.st.outageElapsedSeconds != m.st.outageElapsedSeconds, NoAction))
  }

  /** A configured shutdown threshold is crossed `elapsed` into the outage. */
  predicate ThresholdCrossed(cfg: Config, ups: Ups, elapsed: int) {
    || (cfg.criticalRuntime > 0 && ups.runtimeSeconds.Some? && ups.runtimeSeconds.value * SECOND <= cfg.criticalRuntime)
    || (cfg.criticalCharge.Some? && ups.charge.Some? && ups.charge.value <= cfg.criticalCharge.value)
    || (cfg.maxOnBattery > 0 && elapsed >= cfg.maxOnBattery)
  }

  function StepOnBattery(cfg: Config, m: Memory, now: int, inp: Inputs): Transition {
    var ups := inp.ups;
    if ups.utility == UtilityOnline && !m.st.shutdownCommitted then
      var seen := m.(unknownSince := None, onlineConfirmations := m.onlineConfirmations + 1);
      if seen.onlineConfirmations < PRE_COMMIT_ONLINE_CONFIRMATIONS then Transition(seen, IDLE)
      else
        var calm := seen.(onlineConfirmations := 0, onBatterySince := None, lastCheckpoint := None);
        Transition(Enter(calm.(st := calm.st.(outageElapsedSeconds := 0)), Normal), MOVED)
    else
      var m := m.(onlineConfirmations := 0);
      if ups.lowBattery && ups.utility != UtilityOnline then Commit(m)
      else if ups.utility == UtilityUnknown then
        var since := if m.unknownSince.None? then now else m.unknownSince.value;
        var m := m.(unknownSince := Some(since));
        if cfg.communicationLossGrace > 0 && now - since >= cfg.communicationLossGrace then Commit(m)
        else Transition(m, IDLE)
      else
        var m := m.(unknownSince := None);
        if ups.utility != UtilityOnBattery then Transition(m, IDLE)
        else
          var m := if m.onBatterySince.None? then m.(onBatterySince := Some(now), lastCheckpoint := Some(now)) else m;
          var elapsed := now - m.onBatterySince.value;
          if elapsed < cfg.gracePeriod then Checkpoint(m, now, elapsed)
          else if ThresholdCrossed(cfg, ups, elapsed) then Commit(RecordElapsed(m, elapsed))
          else Checkpoint(m, now, elapsed)
  }

  function StepRecoveryWait(cfg: Config, m: Memory, now: int, inp: Inputs): Transition {
    var ups := inp.ups;
    if !RecoveryEnabled(cfg) then
      Transition(Enter(m.(onlineSince := None, networkWaitSince := None), WaitingForAC), MOVED)
    else if ups.utility != UtilityOnline || ups.lowBattery || ups.fsd then
      var reset := m.(onlineSince := None, networkWaitSince := None);
      if ups.utility == UtilityOnBattery || ups.lowBattery || ups.fsd then Transition(Enter(reset, WaitingForAC), MOVED)
      else Transition(reset, IDLE)
    else
      var since := if m.onlineSince.None? then now else m.onlineSince.value;
      var m := m.(onlineSince := Some(since));
      var stableFor := now - since;
      if stableFor < cfg.utilityStable then Transition(m.(networkWaitSince := None), IDLE)
      else if !RechargeGate(cfg, ups, stableFor) then Transition(m.(networkWaitSince := None), IDLE)
      else if !inp.networkReady then
        var waiting := AwaitNetwork(m, now);
        if NetworkTimedOut(cfg, waiting, now) then FailSafe(waiting) else Transition(waiting, IDLE)
      else
        var m := m.(networkWaitSince := None);
        if !inp.healthSafe then Transition(m, IDLE)
        else Transition(m.(st := m.st.(recoveryStarted := true, power := RecoveryStarted)), Decision(true, CommitRecovery))
  }

  function AwaitNetwork(m: Memory, now: int): Memory {
    if m.networkWaitSince.None? then m.(networkWaitSince := Some(now)) else m
  }

  predicate NetworkTimedOut(cfg: Config, m: Memory, now: int)
    requires m.networkWaitSince.Some?
  {
    cfg.recoveryNetworkWait > 0 && now - m.networkWaitSince.value >= cfg.recoveryNetworkWait
  }

  function StepRecoveryStarted(cfg: Config, m: Memory, now: int, inp: Inputs): Transition {
    if !RecoveryEnabled(cfg) then Stop(m, WaitingForAC)
    else if UnsafeUps(inp.ups) then Stop(m.(onlineSince := None, networkWaitSince := None), OnBattery)
    else if !inp.healthSafe then FailSafe(m)
    else if !inp.networkReady then
      var waiting := AwaitNetwork(m, now);
      if NetworkTimedOut(cfg, waiting, now) then FailSafe(waiting) else Transition(waiting, IDLE)
    else Transition(Enter(m.(networkWaitSince := None), RestoreHosts), Decision(true, StartRestore))
  }

  function StepRestoreHosts(cfg: Config, m: Memory, now: int, inp: Inputs): Transition {
    if !RecoveryEnabled(cfg) then Stop(m, WaitingForAC)
    else if UnsafeUps(inp.ups) then Stop(m.(onlineSince := None, networkWaitSince := None), OnBattery)
    else if !inp.healthSafe then FailSafe(m)
    else if !inp.networkReady then Transition(Enter(AwaitNetwork(m, now), RecoveryStarted), MOVED)
    else Transition(m.(networkWaitSince := None), IDLE)
  }

  function StepNormal(m: Memory, now: int, inp: Inputs): Transition {
    if inp.ups.utility == UtilityOnBattery then
      var begun := m.(onBatterySince := Some(now), lastCheckpoint := Some(now), unknownSince := None, onlineConfirmations := 0);
      Transition(Enter(begun.(st := begun.st.(outageElapsedSeconds := 0)), OnBattery), MOVED)
    else Transition(m, IDLE)
  }

  function StepWaitingForAC(cfg: Config, m: Memory, now: int, inp: Inputs): Transition {
    if inp.ups.utility == UtilityOnline && RecoveryEnabled(cfg) then Transition(StartRecoveryWait(m, now), MOVED)
    else Transition(m, IDLE)
  }

  /** One call of the engine in a supported power state. */
  function Advance(cfg: Config, m: Memory, now: int, inp: Inputs): Transition
    requires !m.st.power.Unsupported?
  {
    if m.st.power == FailedSafe then Transition(m, IDLE)
    else if m.st.power == BootReconcile then ReconcileBoot(cfg, m, now, inp)
    else if inp.ups.fsd && !m.st.shutdownCommitted then Commit(m)
    else match m.st.power
      case Normal => StepNormal(m, now, inp)
      case OnBattery => StepOnBattery(cfg, m, now, inp)
      case ShutdownCommitted => Transition(Enter(m, ShutdownInProgress), MOVED)
      case ShutdownInProgress => Transition(m, IDLE)
      case WaitingForAC => StepWaitingForAC(cfg, m, now, inp)
      case RecoveryWait => StepRecoveryWait(cfg, m, now, inp)
      case RecoveryStarted => StepRecoveryStarted(cfg, m, now, inp)
      case RestoreHosts => StepRestoreHosts(cfg, m, now, inp)
  }

  function Step(cfg: Config, m: Memory, now: int, inp: Inputs): StepResult {
    if m.st.power.Unsupported? then
      if inp.ups.fsd && !m.st.shutdownCommitted then var t := Commit(m); Accepted(t.memory, t.decision) else Rejected
    else
      var t := Advance(cfg, m, now, inp);
      Accepted(t.memory, t.decision)
  }

  function ShutdownPhaseComplete(m: Memory): Transition {
    if m.st.power != ShutdownInProgress && m.st.power != ShutdownCommitted then Transition(m, IDLE)
    else Transition(Enter(m, WaitingForAC), MOVED)
  }

  function RecoveryComplete(m: Memory): Transition {
    if m.st.power != RestoreHosts then Transition(m, IDLE)
    else
      Transition(
        Memory(m.st.(power := Normal, shutdownCommitted := false, recoveryStarted := false, outageElapsedSeconds := 0),
               Normal, None, None, None, None, None, 0),
        MOVED)
  }
}
