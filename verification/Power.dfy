/** The durable power-transaction record and the observations that drive it. */
module Power {
  import opened Basics
  import opened Hosts

  /** Durations and instants are counted in nanoseconds. */
  const SECOND: int := 1_000_000_000

  const VERSION := 1

  datatype PowerState =
    | BootReconcile | Normal | OnBattery | ShutdownCommitted | ShutdownInProgress
    | WaitingForAC | RecoveryWait | RecoveryStarted | RestoreHosts | FailedSafe
    | Unsupported(name: string)

  datatype State = State(
    stateVersion: int,
    transactionId: string,
    parentTransactionId: string,
    sequence: nat,
    power: PowerState,
    shutdownCommitted: bool,
    recoveryStarted: bool,
    configRevision: string,
    outageElapsedSeconds: nat,
    hosts: HostStates)

  /** What the store demands of every generation it writes or loads. */
  predicate ValidSemantic(st: State) {
    && st.stateVersion == VERSION
    && st.transactionId != ""
    && st.configRevision != ""
    && (st.recoveryStarted ==> st.shutdownCommitted)
    && (st.power == RestoreHosts ==> st.recoveryStarted)
  }

  function NewState(transactionId: string, configRevision: string): State {
    State(VERSION, transactionId, "", 0, BootReconcile, false, false, configRevision, 0, map[])
  }

  /** The store numbers a generation after the newest one it can load and fills in a missing version. */
  function Numbered(newest: Option<State>, next: State): State {
    next.(sequence := (if newest.Some? then newest.value.sequence else 0) + 1,
          stateVersion := if next.stateVersion == 0 then VERSION else next.stateVersion)
  }

  datatype Utility = UtilityOnline | UtilityOnBattery | UtilityUnknown

  datatype Ups = Ups(utility: Utility, lowBattery: bool, fsd: bool, charge: Option<real>, runtimeSeconds: Option<int>)

  datatype Inputs = Inputs(ups: Ups, networkReady: bool, healthSafe: bool)
}
