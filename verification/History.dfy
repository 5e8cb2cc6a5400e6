/**
 * What the outside world sees of the agent: disk writes, process starts, observations and side effects.
 * A history is legal when every event was permitted by what had happened before it. Legality is closed
 * under dropping the newest events, so a power cut at any point leaves a legal history behind, which the
 * next process start extends.
 */
module Histories {
  import opened Basics
  import opened Graph
  import opened Hosts
  import opened Snapshots
  import opened Plan
  import opened Power
  import opened Policy

  const MAX_DIRECT_SHUTDOWN_ATTEMPTS := 3
  const MAX_FSD_ATTEMPTS := 6
  const DEFAULT_WAKE_ATTEMPTS := 5

  /** Stands in the controller for "the last host woken" until this process has woken one itself. */
  const RESUME_MARKER := "__resume__"

  /** The configuration one process runs with. */
  datatype AgentConfig = AgentConfig(revision: string, policy: Config, hosts: seq<HostConfig>, remoteClient: bool)

  /** What configuration validation guarantees before a process is armed. */
  ghost predicate ValidConfig(cfg: AgentConfig) {
    && cfg.revision != ""
    && cfg.policy == Normalised(cfg.policy)
    && UniqueIds(cfg.hosts)
    && !Cyclic(GraphOf(cfg.hosts))
  }

  /** Why a running process writes a generation. */
  datatype Cause =
    | Decided        // the engine's own transition
    | HostRecords    // progress on managed hosts
    | NewOutage      // a renewed or new outage gets its own transaction
    | GaveUp         // host shutdown exhausted its attempts
    | Resumed        // start-up re-enters a committed shutdown

  /** `Unreported`: the generation reached the disk although the writer was told it failed. */
  datatype Outcome = Done | Lost | Unreported

  /** What can go wrong other than a write; each ends the tick or the start-up it happens in. */
  datatype Fault =
    | Unavailable        // no durable state can be read or written at start-up, or no transaction identifier made
    | Delegated(id: string)  // a host to be shut down directly turned out to be left to the UPS
    | RemoteClient       // this machine may not force a shutdown

  /** The answer to a direct shutdown request; there is none if the command failed. */
  datatype Disposition = DirectRequested | ManagedByNut | NothingRequired

  datatype Event =
    | Provisioned(st: State)                        // start-up writes a generation before an engine exists
    | Booted(cfg: AgentConfig)
    | Stepped(now: int, inp: Inputs)
    | ShutdownPhaseDone
    | RecoveryDone
    | Write(st: State, why: Cause, outcome: Outcome)
    | Selected(id: string)                          // recovery picked its next host
    | Probed(id: string, reading: Option<bool>)
    | ShutdownSent(id: string, reply: Option<Disposition>)
    | FsdRequested(accepted: bool)
    | Woke(id: string)
    | Faulted(fault: Fault)

  datatype History = Origin | Then(past: History, last: Event)

  /** `pending` holds the state before an engine transition that is not yet on disk. */
  datatype Process = Process(cfg: AgentConfig, memory: Memory, pending: Option<State>, behind: bool)

  datatype System = System(disk: Option<State>, process: Option<Process>, issued: set<string>)

  // ---------------------------------------------------------------- replay

  function Replay(h: History): System {
    match h
    case Origin => System(None, None, {})
    case Then(past, e) => Apply(Replay(past), e)
  }

  function Apply(s: System, e: Event): System {
    match e
    case Provisioned(st) => System(Some(st), None, s.issued + {st.transactionId})
    case Booted(cfg) =>
      if s.disk.None? then s
      else s.(process := Some(Process(cfg, Boot(s.disk.value), None, false)))
    case Write(st, why, outcome) =>
      System(if outcome == Lost then s.disk else Some(st), AfterWrite(s.process, st, why, outcome), s.issued + {st.transactionId})
    case _ =>
      if s.process.None? then s else s.(process := Some(Think(s.process.value, e)))
  }

  /** A failed write ends the process, except that host bookkeeping may carry on with what it remembers. */
  function AfterWrite(process: Option<Process>, st: State, why: Cause, outcome: Outcome): Option<Process> {
    if process.None? then None
    else if outcome == Done then
      Some(process.value.(memory := process.value.memory.(st := st), pending := None, behind := false))
    else if why == HostRecords then Some(process.value.(behind := true))
    else None
  }

  /** Events that only move the engine's memory. */
  function Think(p: Process, e: Event): Process {
    match e
    case Stepped(now, inp) =>
      var r := Step(p.cfg.policy, p.memory, now, inp);
      if r.Rejected? then p
      else p.(memory := r.memory, pending := if r.decision.changed then Some(p.memory.st) else None)
    case ShutdownPhaseDone =>
      p.(memory := ShutdownPhaseComplete(p.memory).memory, pending := Some(p.memory.st))
    case RecoveryDone =>
      p.(memory := RecoveryComplete(p.memory).memory, pending := Some(p.memory.st))
    case _ => p
  }

  // ---------------------------------------------------------------- what history remembers

  /** The engine step that opened the current tick of this process, if there was one. */
  function LastStep(h: History): (step: Option<Event>)
    ensures step.Some? ==> step.value.Stepped?
  {
    match h
    case Origin => None
    case Then(past, e) =>
      if e.Provisioned? || e.Booted? then None
      else if e.Stepped? then Some(e)
      else LastStep(past)
  }

  /** The action the engine chose in the step `h` ends with. */
  function LastAction(h: History): Action
    requires h.Then? && h.last.Stepped?
  {
    var s := Replay(h.past);
    if s.process.None? then NoAction
    else
      var r := Step(s.process.value.cfg.policy, s.process.value.memory, h.last.now, h.last.inp);
      if r.Rejected? then NoAction else r.decision.action
  }

  predicate WokeSinceStep(h: History) {
    h.Then? && !h.last.Stepped? && !h.last.Booted? && (h.last.Woke? || WokeSinceStep(h.past))
  }

  /** The newest wake of this recovery in this process, as (time, host). */
  function LastWake(h: History): Option<(int, string)> {
    match h
    case Origin => None
    case Then(past, e) =>
      if e.Provisioned? || e.Booted? || e.RecoveryDone? || (e.Write? && e.why == NewOutage) then None
      else if e.Woke? && LastStep(past).Some? then Some((LastStep(past).value.now, e.id))
      else LastWake(past)
  }

  /** The first host selection of this recovery in this process: its time, and whether waking had already begun. */
  datatype Selection = Selection(at: int, resuming: bool)

  function FirstSelection(h: History): Option<Selection> {
    match h
    case Origin => None
    case Then(past, e) =>
      if e.Provisioned? || e.Booted? || e.RecoveryDone? || (e.Write? && e.why == NewOutage) then None
      else if e.Selected? && FirstSelection(past).None? && Replay(past).process.Some? && LastStep(past).Some? then
        var p := Replay(past).process.value;
        Some(Selection(LastStep(past).value.now, PriorWake(p.memory.st.hosts) && WakeDelay(p.cfg.hosts, e.id) > 0))
      else FirstSelection(past)
  }

  /** Some host was already woken or found online by this recovery. */
  predicate PriorWake(states: HostStates) {
    exists id :: id in states && (states[id].wakeAttempts > 0 || states[id].recoveryState == WolSent || states[id].recoveryState == Online)
  }

  function WakeDelay(hosts: seq<HostConfig>, id: string): int {
    if Find(hosts, id).None? then 0 else Find(hosts, id).value.wakeDelaySeconds * SECOND
  }

  predicate Asks(e: Event, id: string) {
    e.ShutdownSent? && e.id == id
  }

  /** A direct shutdown was sent to `id` since the shutdown was last committed. */
  predicate SentSinceCommit(h: History, id: string) {
    h.Then? && !(h.last.Stepped? && LastAction(h) == CommitShutdown)
    && (Asks(h.last, id) || SentSinceCommit(h.past, id))
  }

  /** How many forced-shutdown requests were made since the commit while NUT-managed host `id` was not Completed. */
  function FsdFor(h: History, id: string): nat {
    match h
    case Origin => 0
    case Then(past, e) =>
      if e.Stepped? && LastAction(h) == CommitShutdown then 0
      else if e.FsdRequested? && Outstanding(Replay(past), id) then FsdFor(past, id) + 1
      else FsdFor(past, id)
  }

  predicate Outstanding(s: System, id: string) {
    s.process.Some? && (exists h :: h in s.process.value.cfg.hosts && h.id == id && NutManaged(h))
    && Record(s.process.value.memory.st.hosts, id).shutdownState != Completed
  }

  /** The newest event begins a process, a transaction, or the host records of an outage. */
  predicate OpensAge(h: History) {
    h.Then? &&
    match h.last
    case Provisioned(_) => true
    case Booted(_) => true
    case Write(_, why, _) =>
      why == NewOutage
      || (why == HostRecords && Replay(h.past).process.Some? && Replay(h.past).process.value.memory.st.power == OnBattery)
    case _ => false
  }

  /** How many such beginnings there have been. */
  function Ages(h: History): nat {
    if h.Origin? then 0 else Ages(h.past) + if OpensAge(h) then 1 else 0
  }

  /** How many forced shutdowns were ever requested. */
  function Forced(h: History): nat {
    if h.Origin? then 0 else Forced(h.past) + if h.last.FsdRequested? then 1 else 0
  }

  /** The configurations of all processes so far. */
  function Started(h: History): seq<AgentConfig> {
    if h.Origin? then [] else Started(h.past) + if h.last.Booted? then [h.last.cfg] else []
  }

  /** How often something went wrong, failed writes included. */
  function Faults(h: History): nat {
    if h.Origin? then 0
    else Faults(h.past) + if h.last.Faulted? || (h.last.Write? && h.last.outcome != Done) then 1 else 0
  }

  /** What the newest status probe of `id` on this tick, and under this transaction, read, if there was one. */
  function ReadingThisTick(h: History, id: string): Option<Option<bool>> {
    if h.Origin? || h.last.Stepped? || h.last.Booted? || h.last.Provisioned? || (h.last.Write? && h.last.why == NewOutage) then None
    else if h.last.Probed? && h.last.id == id then Some(h.last.reading)
    else ReadingThisTick(h.past, id)
  }

  /** This tick has looked at `id` and did not find it running. */
  predicate NotSeenRunning(h: History, id: string) {
    ReadingThisTick(h, id).Some? && ReadingThisTick(h, id).value != Some(true)
  }

  /** What the newest direct shutdown of `id` on this tick was answered, if there was one. */
  function ReplyThisTick(h: History, id: string): Option<Option<Disposition>> {
    if h.Origin? || h.last.Stepped? || h.last.Booted? || h.last.Provisioned? then None
    else if Asks(h.last, id) then Some(h.last.reply)
    else ReplyThisTick(h.past, id)
  }

  /** Whether the newest forced shutdown requested on this tick was accepted, if there was one. */
  function FsdThisTick(h: History): Option<bool> {
    if h.Origin? || h.last.Stepped? || h.last.Booted? || h.last.Provisioned? then None
    else if h.last.FsdRequested? then Some(h.last.accepted)
    else FsdThisTick(h.past)
  }

  /** The shutdown phase was completed on this tick. */
  predicate PhaseDoneThisTick(h: History) {
    h.Then? && !h.last.Stepped? && !h.last.Booted? && (h.last.ShutdownPhaseDone? || PhaseDoneThisTick(h.past))
  }

  /** A new transaction was begun on this tick. */
  predicate BegunThisTick(h: History) {
    h.Then? && !h.last.Stepped? && !h.last.Booted? && ((h.last.Write? && h.last.why == NewOutage) || BegunThisTick(h.past))
  }

  /** A committed shutdown that was under way when the process writing this ended. */
  predicate Interrupted(d: State) {
    d.shutdownCommitted && (d.power == ShutdownCommitted || d.power == ShutdownInProgress)
  }

  // ---------------------------------------------------------------- what may happen next

  /** A pre-FSD host needs no further attention before the UPS is told to force a shutdown. */
  predicate Settled(h: HostConfig, states: HostStates) {
    var r := Record(states, h.id).shutdownState;
    r == Completed || r == NotRequired || (!Verifiable(h) && r == Acknowledged)
  }

  ghost predicate AllDirectSettled(cfg: AgentConfig, states: HostStates) {
    forall h :: h in cfg.hosts && Direct(h) ==> Settled(h, states)
  }

  /** Every restore-eligible host with a record has reached a terminal recovery state. */
  predicate RecoverySettled(hosts: seq<HostConfig>, states: HostStates) {
    forall h :: h in hosts && h.id in states && EligibleForRestore(h, states[h.id]) ==> Terminal(states[h.id].recoveryState)
  }

  predicate Terminal(r: RecoveryState) {
    r == Online || r == RecoveryFailed || r == RecoveryNotRequired
  }

  function MaxWakeAttempts(h: HostConfig): nat {
    if h.wakeMaxAttempts <= 0 then DEFAULT_WAKE_ATTEMPTS else h.wakeMaxAttempts
  }

  /**
   * Host bookkeeping never forgets attempts. Outside the outage snapshot it never takes a shutdown back, nor
   * revises what the snapshot decided about restoring a host.
   */
  ghost predicate HostsAdvance(st: State, states: HostStates) {
    && st.hosts.Keys <= states.Keys
    && forall id :: id in states ==>
      var before, after := Record(st.hosts, id), states[id];
      && before.shutdownAttempts <= after.shutdownAttempts
      && before.wakeAttempts <= after.wakeAttempts
      && (st.power != OnBattery ==> (before.shutdownState == Completed ==> after.shutdownState == Completed)
                                    && (Untouched(after) ==> Untouched(before))
                                    && after.wasOnline == before.wasOnline
                                    && (after.recoveryState == RecoveryNotRequired ==> before.recoveryState == RecoveryNotRequired))
  }

  /** No shutdown of this host has been attempted in this outage. */
  predicate Untouched(hs: HostState) {
    hs.shutdownState == ShutdownUnset || hs.shutdownState == Planned
  }

  predicate SameButSequence(a: State, b: State) {
    a == b.(sequence := a.sequence)
  }

  /** On this tick `id` was told to shut down, directly or through the UPS, and the request was accepted. */
  predicate Told(h: History, id: string) {
    ReplyThisTick(h, id) == Some(Some(DirectRequested)) || FsdThisTick(h) == Some(true)
  }

  predicate JustSeen(h: History, id: string, online: bool) {
    h.Then? && h.last == Probed(id, Some(online))
  }

  /** `dep` is a managed dependency whose own restoration failed. */
  predicate FailedDependency(hosts: seq<HostConfig>, states: HostStates, dep: string) {
    var d := Find(hosts, dep);
    d.Some? && EligibleForRestore(d.value, Record(states, dep)) && Record(states, dep).recoveryState == RecoveryFailed
  }

  /** Recovery may be given up on this host: its attempts are used up in vain, or a host it depends on has failed. */
  ghost predicate Hopeless(h: History, hosts: seq<HostConfig>, before: HostState, states: HostStates, id: string) {
    exists c :: c in hosts && c.id == id
      && ((before.wakeAttempts >= MaxWakeAttempts(c) && NotSeenRunning(h, id)) || exists d :: d in c.dependsOn && FailedDependency(hosts, states, d))
  }

  /** The host is marked as shut down, or as restored. */
  predicate Claims(hs: HostState, online: bool) {
    if online then hs.recoveryState == Online else hs.shutdownState == Completed
  }

  /** A host only comes to count as shut down or restored right after it was seen so. */
  predicate ClaimWitnessed(h: History, before: HostState, after: HostState, id: string, online: bool) {
    Claims(after, online) && !Claims(before, online) ==> JustSeen(h, id, online)
  }

  /** Nothing else is recorded about a host that was not requested or attempted. */
  ghost predicate RecordWitnessed(h: History, hosts: seq<HostConfig>, before: HostState, states: HostStates, id: string) {
    var after := Record(states, id);
    && (after.shutdownState == Acknowledged != before.shutdownState ==> Told(h, id))
    && (after.shutdownState == NotRequired != before.shutdownState ==> ReplyThisTick(h, id) == Some(Some(NothingRequired)))
    && (after.recoveryState == RecoveryFailed != before.recoveryState ==> Hopeless(h, hosts, before, states, id))
  }

  /** Host records rest on what was requested and observed; the outage snapshot resets them. */
  ghost predicate Witnessed(h: History, states: HostStates) {
    Replay(h).process.Some? &&
    var p := Replay(h).process.value;
    forall id :: id in states ==>
      && ClaimWitnessed(h, Record(p.memory.st.hosts, id), states[id], id, false)
      && ClaimWitnessed(h, Record(p.memory.st.hosts, id), states[id], id, true)
      && (if p.memory.st.power != OnBattery then RecordWitnessed(h, p.cfg.hosts, Record(p.memory.st.hosts, id), states, id)
          else SnapshotWitnessed(h, p.cfg.hosts, Record(p.memory.st.hosts, id), states[id], id))
  }

  /** What a snapshot takes from a reading: running, or also not running where that can be trusted. */
  function Taken(reading: Option<bool>, offlineKnown: bool): Option<bool> {
    if reading.Some? && !reading.value && !offlineKnown then None else reading
  }

  /**
   * What a snapshot says about a host whose earlier power state was not known is what this tick has seen of it:
   * running or, when the outage is new, not running.
   */
  predicate SnapshotSeen(h: History, c: HostConfig, before: HostState, after: HostState) {
    before.wasOnline.None? ==>
      if Verifiable(c) then
        ReadingThisTick(h, c.id).Some? && after.wasOnline == Taken(ReadingThisTick(h, c.id).value, BegunThisTick(h))
      else after.wasOnline.None?
  }

  predicate SnapshotWitnessed(h: History, hosts: seq<HostConfig>, before: HostState, after: HostState, id: string) {
    forall c :: c in hosts && c.id == id ==> SnapshotSeen(h, c, before, after)
  }

  ghost predicate WriteAllowed(s: System, st: State, why: Cause) {
    s.disk.Some? && s.process.Some? && ValidSemantic(st) && st.sequence == s.disk.value.sequence + 1 &&
    var p := s.process.value;
    var now := p.memory.st;
    if why == Decided then p.pending.Some? && SameButSequence(st, now)
    else p.pending.None? && match why
      case HostRecords =>
        && (now.power == OnBattery || now.power == ShutdownInProgress || now.power == RestoreHosts)
        && SameButSequence(st, now.(hosts := st.hosts)) && HostsAdvance(now, st.hosts)
        && (now.power == OnBattery ==> Snapshotted(p.cfg.hosts, now.hosts, st.hosts))
      case GaveUp =>
        && now.power == ShutdownInProgress
        && SameButSequence(st, now.(hosts := st.hosts, power := FailedSafe)) && HostsAdvance(now, st.hosts)
      case NewOutage =>
        && now.power == OnBattery && !p.behind
        && st.transactionId !in s.issued
        && SameButSequence(st, now.(transactionId := st.transactionId, parentTransactionId := now.transactionId,
                                    hosts := map[], shutdownCommitted := false, recoveryStarted := false))
      case Resumed =>
        var d := s.disk.value;
        && now.power == BootReconcile && d.shutdownCommitted
        && (d.power == ShutdownCommitted || d.power == ShutdownInProgress)
        && SameButSequence(st, d.(power := ShutdownInProgress))
  }

  ghost predicate ProvisionAllowed(s: System, st: State) {
    && ValidSemantic(st) && st.transactionId !in s.issued
    && if s.disk.None? then st == NewState(st.transactionId, st.configRevision).(sequence := 1)
       else
         var d := s.disk.value;
         && !d.shutdownCommitted && !d.recoveryStarted && (d.power == Normal || d.power == BootReconcile)
         && d.configRevision != st.configRevision
         && st == d.(parentTransactionId := d.transactionId, transactionId := st.transactionId,
                     configRevision := st.configRevision, hosts := map[], power := BootReconcile, sequence := d.sequence + 1)
  }

  /** The process is between transitions and what it remembers is what the disk holds. */
  predicate Steady(s: System) {
    s.process.Some? && s.process.value.pending.None? && !s.process.value.behind
  }

  /** The two per-host side effects that are counted before they are sent. */
  datatype Effect = DirectShutdown | Wake

  function Attempts(effect: Effect, hs: HostState): nat {
    if effect == DirectShutdown then hs.shutdownAttempts else hs.wakeAttempts
  }

  /** No managed dependency that is itself being restored is still away. */
  ghost predicate DependenciesOnline(hosts: seq<HostConfig>, states: HostStates, c: HostConfig) {
    forall d :: d in c.dependsOn ==> DependencyOnline(hosts, states, d)
  }

  predicate DependencyOnline(hosts: seq<HostConfig>, states: HostStates, dep: string) {
    var d := Find(hosts, dep);
    d.Some? && dep in states && EligibleForRestore(d.value, states[dep]) ==> states[dep].recoveryState == Online
  }

  /** The newest event durably gave `id` one more attempt at `effect`. */
  ghost predicate JustRecorded(h: History, id: string, effect: Effect) {
    && h.Then? && h.last.Write? && h.last.why == HostRecords && h.last.outcome == Done
    && Replay(h.past).process.Some?
    && Attempts(effect, Record(h.last.st.hosts, id))
       == Attempts(effect, Record(Replay(h.past).process.value.memory.st.hosts, id)) + 1
  }

  ghost predicate ShutdownAllowed(h: History, id: string) {
    && Steady(Replay(h)) && JustRecorded(h, id, DirectShutdown) &&
    var p := Replay(h).process.value;
    var states := p.memory.st.hosts;
    var order := ShutdownPlanOf(p.cfg.hosts).preFsd;
    && p.memory.st.power == ShutdownInProgress
    && Record(states, id).shutdownState == Requested
    && Record(states, id).shutdownAttempts <= MAX_DIRECT_SHUTDOWN_ATTEMPTS
    && (exists k :: 0 <= k < |order| && order[k].id == id && forall j :: 0 <= j < k ==> Settled(order[j], states))
    && (SentSinceCommit(h, id) ==> h.past.Then? && h.past.last == Probed(id, Some(true)))
  }

  ghost predicate FsdAllowed(h: History) {
    Steady(Replay(h)) &&
    var p := Replay(h).process.value;
    && p.memory.st.power == ShutdownInProgress
    && AllDirectSettled(p.cfg, p.memory.st.hosts)
    && (forall c :: c in p.cfg.hosts && NutManaged(c) ==> LookedAt(h, c, p.memory.st.hosts))
    && forall id :: Outstanding(Replay(h), id) ==>
         FsdFor(h, id) < Record(p.memory.st.hosts, id).shutdownAttempts <= MAX_FSD_ATTEMPTS
  }

  /** Whoever can be observed and is not down was looked at on this tick, and not found off. */
  predicate LookedAt(h: History, c: HostConfig, states: HostStates) {
    Verifiable(c) && Record(states, c.id).shutdownState != Completed ==>
      ReadingThisTick(h, c.id).Some? && ReadingThisTick(h, c.id).value != Some(false)
  }

  /** Enough time has passed since the last wake, or since a resumed recovery first picked a host. */
  predicate Paced(h: History, hosts: seq<HostConfig>, id: string) {
    LastStep(h).Some? &&
    var now := LastStep(h).value.now;
    var delay := WakeDelay(hosts, id);
    && (LastWake(h).Some? && LastWake(h).value.1 != id ==> now - LastWake(h).value.0 >= delay)
    && (LastWake(h).None? && FirstSelection(h).Some? && FirstSelection(h).value.resuming && id != RESUME_MARKER ==>
          delay > 0 ==> now - FirstSelection(h).value.at >= delay)
  }

  ghost predicate WakeAllowed(h: History, id: string) {
    && Steady(Replay(h)) && JustRecorded(h, id, Wake) && !WokeSinceStep(h) &&
    var p := Replay(h).process.value;
    && p.memory.st.power == RestoreHosts
    && NotSeenRunning(h, id)
    && (exists c :: c in p.cfg.hosts && c.id == id && Record(p.memory.st.hosts, id).wakeAttempts <= MaxWakeAttempts(c)
          && id in p.memory.st.hosts && EligibleForRestore(c, p.memory.st.hosts[id]) && DependenciesOnline(p.cfg.hosts, p.memory.st.hosts, c))
    && Paced(h, p.cfg.hosts, id)
  }

  ghost predicate Enabled(h: History, e: Event) {
    var s := Replay(h);
    match e
    case Provisioned(st) => ProvisionAllowed(s, st)
    case Booted(cfg) => s.disk.Some? && ValidConfig(cfg) && s.disk.value.configRevision == cfg.revision
    case Stepped(now, inp) =>
      && s.process.Some? && s.process.value.pending.None?
      && Step(s.process.value.cfg.policy, s.process.value.memory, now, inp).Accepted?
      && (LastStep(h).Some? ==> LastStep(h).value.now <= now)
      && (s.process.value.memory.st.power == BootReconcile ==> s.disk.Some? && !Interrupted(s.disk.value))
    case ShutdownPhaseDone =>
      && Steady(s) && s.process.value.memory.st.power in {ShutdownInProgress, ShutdownCommitted}
      && ((exists c :: c in s.process.value.cfg.hosts && NutManaged(c)) ==> FsdThisTick(h) == Some(true))
      && AllDirectSettled(s.process.value.cfg, s.process.value.memory.st.hosts)
    case RecoveryDone =>
      && s.process.Some? && s.process.value.pending.None? && s.process.value.memory.st.power == RestoreHosts
      && RecoverySettled(s.process.value.cfg.hosts, s.process.value.memory.st.hosts)
    case Write(st, why, _) => WriteAllowed(s, st, why) && (why == HostRecords || why == GaveUp ==> Witnessed(h, st.hosts))
    case Selected(_) => s.process.Some? && s.process.value.memory.st.power == RestoreHosts
    case Probed(_, _) => s.process.Some?
    case ShutdownSent(id, _) => ShutdownAllowed(h, id)
    case FsdRequested(_) => FsdAllowed(h)
    case Woke(id) => WakeAllowed(h, id)
    case Faulted(Unavailable) => true
    case Faulted(Delegated(id)) => h.Then? && h.last == ShutdownSent(id, Some(ManagedByNut))
    case Faulted(RemoteClient) =>
      s.process.Some? && s.process.value.cfg.remoteClient && exists c :: c in s.process.value.cfg.hosts && NutManaged(c)
  }

  ghost predicate Legal(h: History) {
    h.Then? ==> Legal(h.past) && Enabled(h.past, h.last)
  }

  /** `p` is what a power cut may leave of `h`. */
  ghost predicate CutOf(p: History, h: History) {
    p == h || (h.Then? && CutOf(p, h.past))
  }
}
