/** The policy engine as the agent holds it: an object whose fields are updated in place. */
module EngineObject {
  import opened Basics
  import opened Power
  import opened Policy

  class Engine {
    const cfg: Config
    var st: State
    var resumeState: PowerState
    var onBatterySince: Option<int>
    var onlineSince: Option<int>
    var unknownSince: Option<int>
    var networkWaitSince: Option<int>
    var lastOutageCheckpoint: Option<int>
    var onlineConfirmations: int

    ghost function View(): Memory
      reads this
    {
      Memory(st, resumeState, onBatterySince, onlineSince, unknownSince, networkWaitSince, lastOutageCheckpoint, onlineConfirmations)
    }

    constructor (config: Config, persisted: State)
      ensures cfg == Normalised(config) && View() == Boot(persisted)
    {
      cfg := if config.utilityStable <= 0 then config.(utilityStable := DEFAULT_UTILITY_STABLE) else config;
      var loaded := if persisted.stateVersion == 0 then persisted.(stateVersion := VERSION) else persisted;
      resumeState := persisted.power;
      st := loaded.(power := BootReconcile);
      onBatterySince, onlineSince, unknownSince, networkWaitSince, lastOutageCheckpoint := None, None, None, None, None;
      onlineConfirmations := 0;
    }

    /** `None` is the error return. */
    method Step(now: int, inp: Inputs) returns (r: Option<Decision>)
      modifies this
      ensures match Policy.Step(cfg, old(View()), now, inp)
        case Rejected => r.None? && View() == old(View())
        case Accepted(memory, decision) => r == Some(decision) && View() == memory
    {
      if st.power == FailedSafe {
        return Some(IDLE);
      }
      var d;
      if st.power == BootReconcile {
        d := ReconcileBoot(now, inp);
        return Some(d);
      }
      if inp.ups.fsd && !st.shutdownCommitted {
        d := CommitShutdown();
        return Some(d);
      }
      match st.power {
        case Normal => d := StepNormal(now, inp);
        case OnBattery => d := StepOnBattery(now, inp);
        case ShutdownCommitted =>
          st := st.(power := ShutdownInProgress);
          d := MOVED;
        case ShutdownInProgress => d := IDLE;
        case WaitingForAC => d := StepWaitingForAC(now, inp);
        case RecoveryWait => d := StepRecoveryWait(now, inp);
        case RecoveryStarted => d := StepRecoveryStarted(now, inp);
        case RestoreHosts => d := StepRestoreHosts(now, inp);
        case _ => return None;
      }
      return Some(d);
    }

    method StepNormal(now: int, inp: Inputs) returns (d: Decision)
      modifies this
      ensures Transition(View(), d) == Policy.StepNormal(old(View()), now, inp)
    {
      if inp.ups.utility == UtilityOnBattery {
        onBatterySince := Some(now);
        lastOutageCheckpoint := Some(now);
        unknownSince := None;
        onlineConfirmations := 0;
        st := st.(outageElapsedSeconds := 0, power := OnBattery);
        return MOVED;
      }
      return IDLE;
    }

    method StepWaitingForAC(now: int, inp: Inputs) returns (d: Decision)
      modifies this
      ensures Transition(View(), d) == Policy.StepWaitingForAC(cfg, old(View()), now, inp)
    {
      if inp.ups.utility == UtilityOnline {
        if !RecoveryEnabled(cfg) {
          return IDLE;
        }
        onlineSince := Some(now);
        networkWaitSince := None;
        st := st.(power := RecoveryWait);
        return MOVED;
      }
      return IDLE;
    }

    method StopRecovering(power: PowerState) returns (d: Decision)
      modifies this`st
      ensures Transition(View(), d) == Stop(old(View()), power)
    {
      st := st.(recoveryStarted := false);
      st := st.(power := power);
      d := Decision(true, StopRecovery);
    }

    method StepRecoveryStarted(now: int, inp: Inputs) returns (d: Decision)
      modifies this
      ensures Transition(View(), d) == Policy.StepRecoveryStarted(cfg, old(View()), now, inp)
    {
      if !RecoveryEnabled(cfg) {
        d := StopRecovering(WaitingForAC);
        return;
      }
      if UnsafeUps(inp.ups) {
        onlineSince := None;
        networkWaitSince := None;
        d := StopRecovering(OnBattery);
        return;
      }
      if !inp.healthSafe {
        d := EnterFailedSafe();
        return;
      }
      if !inp.networkReady {
        if networkWaitSince.None? {
          networkWaitSince := Some(now);
        }
        if cfg.recoveryNetworkWait > 0 && now - networkWaitSince.value >= cfg.recoveryNetworkWait {
          d := EnterFailedSafe();
          return;
        }
        return IDLE;
      }
      networkWaitSince := None;
      st := st.(power := RestoreHosts);
      return Decision(true, StartRestore);
    }

    method StepRestoreHosts(now: int, inp: Inputs) returns (d: Decision)
      modifies this
      ensures Transition(View(), d) == Policy.StepRestoreHosts(cfg, old(View()), now, inp)
    {
      if !RecoveryEnabled(cfg) {
        d := StopRecovering(WaitingForAC);
        return;
      }
      if UnsafeUps(inp.ups) {
        onlineSince := None;
        networkWaitSince := None;
        d := StopRecovering(OnBattery);
        return;
      }
      if !inp.healthSafe {
        d := EnterFailedSafe();
        return;
      }
      if !inp.networkReady {
        if networkWaitSince.None? {
          networkWaitSince := Some(now);
        }
        st := st.(power := RecoveryStarted);
        return MOVED;
      }
      networkWaitSince := None;
      return IDLE;
    }

    method MarkShutdownPhaseComplete() returns (d: Decision)
      modifies this`st
      ensures Transition(View(), d) == ShutdownPhaseComplete(old(View()))
    {
      if st.power != ShutdownInProgress && st.power != ShutdownCommitted {
        return IDLE;
      }
      st := st.(power := WaitingForAC);
      return MOVED;
    }

    method MarkRecoveryComplete() returns (d: Decision)
      modifies this
      ensures Transition(View(), d) == RecoveryComplete(old(View()))
    {
      if st.power != RestoreHosts {
        return IDLE;
      }
      st := st.(power := Normal, shutdownCommitted := false, recoveryStarted := false, outageElapsedSeconds := 0);
      resumeState := Normal;
      onBatterySince, onlineSince, unknownSince, networkWaitSince, lastOutageCheckpoint := None, None, None, None, None;
      onlineConfirmations := 0;
      return MOVED;
    }

    method ReconcileBoot(now: int, inp: Inputs) returns (d: Decision)
      modifies this
      ensures Transition(View(), d) == Policy.ReconcileBoot(cfg, old(View()), now, inp)
    {
      if inp.ups.utility == UtilityUnknown {
        return IDLE;
      }
      if st.recoveryStarted {
        if !RecoveryEnabled(cfg) {
          d := StopRecovering(WaitingForAC);
          return;
        }
        if inp.ups.utility == UtilityOnBattery || inp.ups.lowBattery || inp.ups.fsd {
          d := StopRecovering(OnBattery);
          return;
        }
        st := st.(recoveryStarted := false);
        onlineSince := Some(now);
        networkWaitSince := None;
        st := st.(power := RecoveryWait);
        return MOVED;
      }
      if st.shutdownCommitted && resumeState == OnBattery && inp.ups.utility == UtilityOnBattery {
        st := st.(power := OnBattery);
        return Decision(true, StopRecovery);
      }
      if st.shutdownCommitted {
        if inp.ups.utility == UtilityOnline {
          if !RecoveryEnabled(cfg) {
            st := st.(power := WaitingForAC);
            return Decision(resumeState != WaitingForAC, NoAction);
          }
          onlineSince := Some(now);
          networkWaitSince := None;
          st := st.(power := RecoveryWait);
          return MOVED;
        }
        st := st.(power := WaitingForAC);
        return MOVED;
      }
      if inp.ups.utility == UtilityOnBattery {
        var elapsed := st.outageElapsedSeconds * SECOND;
        if resumeState == OnBattery && elapsed < cfg.gracePeriod {
          elapsed := cfg.gracePeriod;
        }
        onBatterySince := Some(now - elapsed);
        lastOutageCheckpoint := Some(now);
        onlineConfirmations := 0;
        st := st.(power := OnBattery);
        return MOVED;
      }
      st := st.(outageElapsedSeconds := 0);
      st := st.(power := Normal);
      return MOVED;
    }

    method StepOnBattery(now: int, inp: Inputs) returns (d: Decision)
      modifies this
      ensures Transition(View(), d) == Policy.StepOnBattery(cfg, old(View()), now, inp)
    {
      if inp.ups.utility == UtilityOnline && !st.shutdownCommitted {
        unknownSince := None;
        onlineConfirmations := onlineConfirmations + 1;
        if onlineConfirmations < PRE_COMMIT_ONLINE_CONFIRMATIONS {
          return IDLE;
        }
        onlineConfirmations := 0;
        onBatterySince := None;
        lastOutageCheckpoint := None;
        st := st.(outageElapsedSeconds := 0);
        st := st.(power := Normal);
        return MOVED;
      }
      onlineConfirmations := 0;
      if inp.ups.lowBattery && inp.ups.utility != UtilityOnline {
        d := CommitShutdown();
        return;
      }
      if inp.ups.utility == UtilityUnknown {
        if unknownSince.None? {
          unknownSince := Some(now);
        }
        if cfg.communicationLossGrace > 0 && now - unknownSince.value >= cfg.communicationLossGrace {
          d := CommitShutdown();
          return;
        }
        return IDLE;
      }
      unknownSince := None;
      if inp.ups.utility != UtilityOnBattery {
        return IDLE;
      }
      if onBatterySince.None? {
        onBatterySince := Some(now);
        lastOutageCheckpoint := Some(now);
      }
      d := StepDischarging(now, inp.ups);
    }

    /** The part of an on-battery step that runs on a confirmed on-battery reading. */
    method StepDischarging(now: int, ups: Ups) returns (d: Decision)
      requires onBatterySince.Some?
      modifies this
      ensures var m := old(View()); var elapsed := now - m.onBatterySince.value;
        Transition(View(), d)
        == if elapsed < cfg.gracePeriod then Policy.Checkpoint(m, now, elapsed)
           else if ThresholdCrossed(cfg, ups, elapsed) then Commit(RecordElapsed(m, elapsed))
           else Policy.Checkpoint(m, now, elapsed)
    {
      var elapsed := now - onBatterySince.value;
      if elapsed < cfg.gracePeriod {
        d := CheckpointOutage(now, elapsed);
        return;
      }
      if cfg.criticalRuntime > 0 && ups.runtimeSeconds.Some? && ups.runtimeSeconds.value * SECOND <= cfg.criticalRuntime {
        RecordOutageElapsed(elapsed);
        d := CommitShutdown();
        return;
      }
      if cfg.criticalCharge.Some? && ups.charge.Some? && ups.charge.value <= cfg.criticalCharge.value {
        RecordOutageElapsed(elapsed);
        d := CommitShutdown();
        return;
      }
      if cfg.maxOnBattery > 0 && elapsed >= cfg.maxOnBattery {
        RecordOutageElapsed(elapsed);
        d := CommitShutdown();
        return;
      }
      d := CheckpointOutage(now, elapsed);
    }

    method CheckpointOutage(now: int, elapsed: int) returns (d: Decision)
      modifies this
      ensures Transition(View(), d) == Policy.Checkpoint(old(View()), now, elapsed)
    {
      if lastOutageCheckpoint.None? {
        lastOutageCheckpoint := Some(now);
        return IDLE;
      }
      if now - lastOutageCheckpoint.value < CHECKPOINT_INTERVAL {
        return IDLE;
      }
      var before := st.outageElapsedSeconds;
      RecordOutageElapsed(elapsed);
      lastOutageCheckpoint := Some(now);
      if st.outageElapsedSeconds != before {
        return MOVED;
      }
      return IDLE;
    }

    method RecordOutageElapsed(elapsed: int)
      modifies this`st
      ensures View() == RecordElapsed(old(View()), elapsed)
    {
      var seconds := WholeSeconds(elapsed);
      if seconds > st.outageElapsedSeconds {
        st := st.(outageElapsedSeconds := seconds);
      }
    }

    method CommitShutdown() returns (d: Decision)
      modifies this`st
      ensures Transition(View(), d) == Commit(old(View()))
    {
      st := st.(shutdownCommitted := true);
      st := st.(power := ShutdownCommitted);
      d := Decision(true, Policy.CommitShutdown);
    }

    method StepRecoveryWait(now: int, inp: Inputs) returns (d: Decision)
      modifies this
      ensures Transition(View(), d) == Policy.StepRecoveryWait(cfg, old(View()), now, inp)
    {
      if !RecoveryEnabled(cfg) {
        onlineSince := None;
        networkWaitSince := None;
        st := st.(power := WaitingForAC);
        return MOVED;
      }
      if inp.ups.utility != UtilityOnline || inp.ups.lowBattery || inp.ups.fsd {
        onlineSince := None;
        networkWaitSince := None;
        if inp.ups.utility == UtilityOnBattery || inp.ups.lowBattery || inp.ups.fsd {
          st := st.(power := WaitingForAC);
          return MOVED;
        }
        return IDLE;
      }
      if onlineSince.None? {
        onlineSince := Some(now);
      }
      var stableFor := now - onlineSince.value;
      if stableFor < cfg.utilityStable {
        networkWaitSince := None;
        return IDLE;
      }
      if !RechargeGate(cfg, inp.ups, stableFor) {
        networkWaitSince := None;
        return IDLE;
      }
      if !inp.networkReady {
        if networkWaitSince.None? {
          networkWaitSince := Some(now);
        }
        if cfg.recoveryNetworkWait > 0 && now - networkWaitSince.value >= cfg.recoveryNetworkWait {
          d := EnterFailedSafe();
          return;
        }
        return IDLE;
      }
      networkWaitSince := None;
      if !inp.healthSafe {
        return IDLE;
      }
      st := st.(recoveryStarted := true);
      st := st.(power := RecoveryStarted);
      return Decision(true, CommitRecovery);
    }

    method EnterFailedSafe() returns (d: Decision)
      modifies this`st
      ensures Transition(View(), d) == FailSafe(old(View()))
    {
      st := st.(power := FailedSafe);
      d := MOVED;
    }
  }
}
