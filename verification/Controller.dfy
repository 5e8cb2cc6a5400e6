/** Turns policy decisions into ordered shutdowns, forced shutdown and host restoration. */
module Orchestrator {
  import opened Basics
  import opened Graph
  import opened Hosts
  import opened Snapshots
  import opened Plan
  import opened Power
  import opened Policy
  import opened Histories
  import opened Invariants
  import opened EffectTheorems
  import opened ShutdownTheorems
  import opened Environment
  import opened DirectShutdowns
  import opened Coordination
  import opened Recovery
  import opened Restoration
  import opened Renewal

  const FIRST_FSD_RETRY: int := 5 * SECOND
  const LAST_FSD_RETRY: int := 60 * SECOND

  /** Only the listed hosts' records differ. */
  ghost predicate OnlyChanged(group: seq<HostConfig>, before: HostStates, after: HostStates) {
    forall id :: (forall h :: h in group ==> h.id != id) ==> Record(after, id) == Record(before, id)
  }

  /** Back-off between forced-shutdown requests: five seconds, doubling, at most a minute. */
  function RetryDelay(attempt: nat): int {
    if attempt <= 1 then FIRST_FSD_RETRY
    else if 2 * RetryDelay(attempt - 1) > LAST_FSD_RETRY then LAST_FSD_RETRY
    else 2 * RetryDelay(attempt - 1)
  }

  /** In seconds: 5, 10, 20, 40, and 60 from the fifth request on. */
  lemma {:induction false} RetryDelayDoubles(attempt: nat)
    ensures RetryDelay(attempt) ==
      (if attempt <= 1 then 5 else if attempt == 2 then 10 else if attempt == 3 then 20 else if attempt == 4 then 40 else 60) * 1_000_000_000
  {
    if attempt > 1 {
      RetryDelayDoubles(attempt - 1);
    }
  }

  class Controller {
    const cfg: AgentConfig
    const policy: Coordinator
    const recovery: RecoveryExecutor
    var lastRecoveryWakeAt: Option<int>
    var lastRecoveryWakeHost: string
    var resumeWakeDelayEvaluated: bool
    var nutFsdTransactionId: string
    var nutFsdNextAttempt: Option<int>

    /** When this process last stepped its engine. */
    ghost var clock: Option<int>

    constructor (config: AgentConfig, coordinator: Coordinator, runner: RecoveryExecutor)
      requires runner.store == coordinator
      requires coordinator.Valid() && coordinator.world.Now().process.value.cfg == config
      requires LastWake(coordinator.world.history).None? && FirstSelection(coordinator.world.history).None?
      requires !ResumeIsDue(coordinator.world.Now())
      ensures cfg == config && policy == coordinator && Alive()
    {
      cfg, policy, recovery := config, coordinator, runner;
      lastRecoveryWakeAt, lastRecoveryWakeHost, resumeWakeDelayEvaluated := None, "", false;
      nutFsdTransactionId, nutFsdNextAttempt := "", None;
      clock := StepTime(coordinator.world.history);
    }

    /** The process runs this configuration, and the wake clock agrees with what was actually sent. */
    ghost predicate Alive()
      reads this, policy, policy.engine, policy.world
    {
      && policy.Valid() && recovery.store == policy
      && policy.world.Now().process.value.cfg == cfg
      && ClockAgrees(policy.world.history) && StepTime(policy.world.history) == clock
      && !ResumeIsDue(policy.world.Now())
    }

    ghost predicate ClockAgrees(h: History)
      reads this
    {
      && (resumeWakeDelayEvaluated <==> FirstSelection(h).Some?)
      && if LastWake(h).Some? then
           FirstSelection(h).Some? && lastRecoveryWakeAt == Some(LastWake(h).value.0) && lastRecoveryWakeHost == LastWake(h).value.1
         else if FirstSelection(h).Some? && FirstSelection(h).value.resuming then
           lastRecoveryWakeAt == Some(FirstSelection(h).value.at) && lastRecoveryWakeHost == RESUME_MARKER
         else lastRecoveryWakeAt.None?
    }

    /** When this transaction's forced shutdown may be requested again, if it has to wait. */
    ghost function NextFsd(tx: string): Option<int>
      reads this
    {
      if nutFsdTransactionId == tx then nutFsdNextAttempt else None
    }

    ghost predicate InShutdown()
      reads this, policy, policy.engine, policy.world
    {
      Alive() && policy.engine.st.power == ShutdownInProgress
    }

    /** The disk holds what the engine remembers. */
    ghost predicate InStep()
      reads policy, policy.world
    {
      Steady(policy.world.Now())
    }

    /** The environment's own bookkeeping holds, and memory and history agree on the transaction. */
    lemma AliveIsSound()
      requires Alive()
      ensures policy.world.Valid() && TransactionOf(policy.world.history) == policy.engine.st.transactionId
    {
    }

    lemma RunsUnique()
      requires Alive()
      ensures UniqueIds(cfg.hosts)
    {
      RunsUniqueHosts(policy.world.history, cfg);
    }

    /** What the history says of this process. */
    lemma RunsThis()
      requires Alive()
      ensures Legal(policy.world.history)
      ensures policy.world.Now().process.Some? && policy.world.Now().process.value.cfg == cfg
      ensures policy.world.Now().process.value.memory == policy.engine.View() && policy.world.Now().process.value.pending.None?
      ensures policy.world.started == Started(policy.world.history)
    {
    }

    // -------------------------------------------------------------- bookkeeping

    /** Durably replaces one host's record while hosts are being shut down. */
    method PersistHost(id: string, hs: HostState) returns (ok: bool)
      requires InShutdown() && HostMayBecome(policy.world.history, cfg.hosts, policy.engine.st.hosts, id, hs)
      modifies policy.engine`st, policy.world`history
      ensures policy.world.Valid() && InShutdown() && HostsWritten(old(policy.world.history), policy.world.history, ok)
      ensures if ok then InStep() && policy.engine.st.hosts == old(policy.engine.st.hosts)[id := hs]
              else policy.engine.st == old(policy.engine.st)
      ensures ok ==> policy.world.history == Then(old(policy.world.history), Write(policy.engine.st, HostRecords, Done))
      ensures Works(old(policy.world.history), policy.world.history, ok)
    {
      OneHostMayBeWritten(policy.world.history, id, hs);
      ok := policy.WriteHosts(policy.State().hosts[id := hs]);
    }

    method ProbeHost(h: HostConfig) returns (reading: Option<bool>)
      requires Alive()
      modifies policy.world`history
      ensures Alive() && policy.world.history == Then(old(policy.world.history), Probed(h.id, reading))
      ensures policy.world.Now() == old(policy.world.Now())
      ensures FsdThisTick(policy.world.history) == old(FsdThisTick(policy.world.history))
      ensures SameCountsBut(old(policy.world.history), policy.world.history, h.id)
      ensures Works(old(policy.world.history), policy.world.history, true) && Faults(policy.world.history) == old(Faults(policy.world.history))
    {
      reading := policy.world.Probe(h.id);
    }

    method WaitForOffline(h: HostConfig) returns (offline: bool)
      requires Alive()
      modifies policy.world`history
      ensures Alive() && policy.world.Now() == old(policy.world.Now())
      ensures policy.world.history == Then(old(policy.world.history), Probed(h.id, if offline then Some(false) else None))
      ensures FsdThisTick(policy.world.history) == old(FsdThisTick(policy.world.history))
      ensures SameCountsBut(old(policy.world.history), policy.world.history, h.id)
      ensures Works(old(policy.world.history), policy.world.history, true) && Faults(policy.world.history) == old(Faults(policy.world.history))
    {
      offline := policy.world.WaitOffline(h.id);
    }

    /** Stops the whole transaction, with the given hosts recorded as failed. */
    method PersistFailedSafe(states: HostStates) returns (ok: bool)
      requires InShutdown() && GivesUp(policy.engine.st.hosts, states)
      modifies policy.engine`st, policy.world`history
      ensures policy.world.Valid()
      ensures ok ==> Alive() && InStep() && policy.engine.st.power == FailedSafe && policy.engine.st.hosts == states
      ensures ok ==> SameCounts(old(policy.world.history), policy.world.history)
      ensures Works(old(policy.world.history), policy.world.history, ok)
    {
      GivingUpIsAllowed(policy.world.history, states);
      var written := policy.Write(policy.State().(hosts := states, power := FailedSafe), GaveUp);
      ok := written.Some?;
    }

    /** Records that `id` cannot be shut down and stops the whole transaction. */
    method EnterShutdownFailedSafe(id: string, hs: HostState) returns (ok: bool)
      requires InShutdown() && hs == Record(policy.engine.st.hosts, id) && hs.shutdownState != Completed
      modifies policy.engine`st, policy.world`history
      ensures policy.world.Valid()
      ensures ok ==> Alive() && InStep() && policy.engine.st.power == FailedSafe
      ensures ok ==> policy.engine.st.hosts == old(policy.engine.st.hosts)[id := hs.(shutdownState := Failed)]
      ensures ok ==> SameCount(old(policy.world.history), policy.world.history, id)
      ensures Works(old(policy.world.history), policy.world.history, ok)
    {
      ok := PersistFailedSafe(policy.State().hosts[id := hs.(shutdownState := Failed)]);
    }

    // -------------------------------------------------------------- direct shutdowns

    /**
     * Tries to bring one directly managed host to rest. `k` is its place in the shutdown order, whose earlier
     * hosts are already settled.
     */
    method SettleDirect(h: HostConfig, ghost k: nat) returns (outcome: Settling, ghost a: Answers)
      requires InShutdown() && InStep() && Turn(h, k)
      modifies policy.engine`st, policy.world`history
      ensures policy.world.Valid() && (outcome != Broken ==> Concluded(outcome))
      ensures outcome != Broken ==>
        var pass := SettlePass(h, Record(old(policy.engine.st.hosts), h.id), a);
        && outcome == pass.outcome && Became(h, old(policy.engine.st.hosts), policy.engine.st.hosts, pass)
        && Heard(policy.world.history, h, Record(old(policy.engine.st.hosts), h.id), a)
      ensures Works(old(policy.world.history), policy.world.history, outcome != Broken)
    {
      hide Controller.Alive, Controller.InStep, World.Valid, Faults, TransactionOf, Replay;
      a := Answers(None, None, false);
      AliveIsSound();
      var hs := Record(policy.State().hosts, h.id);
      if hs.shutdownState == Completed || hs.shutdownState == NotRequired {
        return HostSettled, a;
      }
      if hs.shutdownState == Failed {
        outcome := GiveUp(h, hs);
        return;
      }
      if hs.shutdownState == Requested || hs.shutdownState == Acknowledged || hs.shutdownState == Unverified {
        outcome, a := Revisit(h, k, hs);
        return;
      }
      ghost var reply, wentDown;
      outcome, reply, wentDown := Pursue(h, k, hs);
      a := a.(reply := reply, wentDown := wentDown);
    }

    /** Settles a host that was asked before: what became of it comes first. */
    method Revisit(h: HostConfig, ghost k: nat, hs: HostState) returns (outcome: Settling, ghost a: Answers)
      requires InShutdown() && InStep() && Turn(h, k) && hs == Record(policy.engine.st.hosts, h.id) && Pending(hs)
      modifies policy.engine`st, policy.world`history
      ensures policy.world.Valid() && (outcome != Broken ==> Concluded(outcome))
      ensures outcome != Broken ==>
        var pass := SettlePass(h, hs, a);
        && outcome == pass.outcome && policy.engine.st.hosts == old(policy.engine.st.hosts)[h.id := pass.record]
        && Heard(policy.world.history, h, hs, a)
      ensures Works(old(policy.world.history), policy.world.history, outcome != Broken)
    {
      hide Controller.Alive, Controller.InStep, World.Valid, Faults, TransactionOf, SettledUpTo, Replay, SettlePass;
      hide Pursued, Heard, Followed, SameCount;
      var done;
      ghost var reading, reply, wentDown;
      done, reading := Reconcile(h, hs);
      if done.Some? {
        if done != Some(Broken) {
          ReconcileIsPass(policy.world.history, h, hs, reading);
        }
        return done.value, Answers(reading, None, false);
      }
      ghost var h0 := policy.world.history;
      outcome, reply, wentDown := Pursue(h, k, hs);
      if outcome != Broken {
        PursuitIsPass(h0, policy.world.history, h, hs, reply, wentDown);
      }
      a := Answers(reading, reply, wentDown);
    }

    /** Asks the host to shut down unless the attempts are used up. */
    method Pursue(h: HostConfig, ghost k: nat, hs: HostState)
      returns (outcome: Settling, ghost reply: Option<Disposition>, ghost wentDown: bool)
      requires InShutdown() && InStep() && Turn(h, k) && hs == Record(policy.engine.st.hosts, h.id)
      requires hs.shutdownState !in {Completed, NotRequired, Failed}
      requires !Untouched(hs) ==> policy.world.history.Then? && policy.world.history.last == Probed(h.id, Some(true))
      modifies policy.engine`st, policy.world`history
      ensures policy.world.Valid() && (outcome != Broken ==> Concluded(outcome))
      ensures outcome != Broken ==>
        var pass := Pursued(h, hs, reply, wentDown);
        && outcome == pass.outcome && policy.engine.st.hosts == old(policy.engine.st.hosts)[h.id := pass.record]
        && if hs.shutdownAttempts >= MAX_DIRECT_SHUTDOWN_ATTEMPTS then SameCount(old(policy.world.history), policy.world.history, h.id)
           else Followed(policy.world.history, h, reply, wentDown)
      ensures Works(old(policy.world.history), policy.world.history, outcome != Broken)
    {
      if hs.shutdownAttempts >= MAX_DIRECT_SHUTDOWN_ATTEMPTS {
        reply, wentDown := None, false;
        outcome := GiveUp(h, hs);
        return;
      }
      outcome, reply, wentDown := SendDirect(h, k, hs);
    }

    /** `h` is the `k`-th host of the shutdown order, and all before it are settled. */
    ghost predicate Turn(h: HostConfig, k: nat)
      reads this, policy, policy.engine
    {
      var order := ShutdownPlanOf(cfg.hosts).preFsd;
      k < |order| && order[k] == h && SettledUpTo(order, k, policy.engine.st.hosts)
    }

    /** Where a pass over one host that was carried to its end leaves the controller. */
    ghost predicate Concluded(outcome: Settling)
      reads this, policy, policy.engine, policy.world
    {
      Alive() && InStep() && policy.engine.st.power == if outcome == GaveUpSafely then FailedSafe else ShutdownInProgress
    }

    /**
     * Looks what became of an earlier request; `None` means the host was just seen online and is asked again. A
     * host nobody can observe always has to wait for another pass.
     */
    method Reconcile(h: HostConfig, hs: HostState) returns (done: Option<Settling>, ghost reading: Option<bool>)
      requires InShutdown() && InStep() && hs == Record(policy.engine.st.hosts, h.id) && Pending(hs)
      modifies policy.engine`st, policy.world`history
      ensures policy.world.Valid() && (done != Some(Broken) ==> InShutdown() && InStep())
      ensures done.None? ==> Verifiable(h) && reading == Some(true)
      ensures done.None? ==> policy.engine.st == old(policy.engine.st) && JustSeen(policy.world.history, h.id, true)
      ensures done.Some? && done.value != Broken ==>
        && (Verifiable(h) ==> reading != Some(true) && ReadingThisTick(policy.world.history, h.id) == Some(reading))
        && policy.engine.st.hosts == old(policy.engine.st.hosts)[h.id := hs.(shutdownState := if done.value == HostSettled then Completed else Unverified)]
        && done.value == if Verifiable(h) && reading == Some(false) then HostSettled else RetryPending
      ensures Works(old(policy.world.history), policy.world.history, done != Some(Broken))
    {
      hide Controller.Alive, World.Valid, Faults, LastWake, FirstSelection, FsdFor, ReplyThisTick, FsdThisTick;
      hide TransactionOf, Replay;
      var outcome;
      reading := None;
      if !Verifiable(h) {
        outcome := Conclude(h, hs, Unverified);
        return Some(outcome), reading;
      }
      var seen := ProbeHost(h);
      reading := seen;
      if seen.Some? && seen.value {
        AliveIsSound();
        return None, reading;
      }
      outcome := Conclude(h, hs, if seen.None? then Unverified else Completed);
      done := Some(outcome);
    }

    /** Persists the host's new shutdown state; anything but a settled one asks for a later retry. */
    method Conclude(h: HostConfig, hs: HostState, result: ShutdownState) returns (outcome: Settling)
      requires InShutdown() && InStep() && hs == Record(policy.engine.st.hosts, h.id)
      requires hs.shutdownState != Completed && result in {Unverified, Completed, NotRequired}
      requires result == Completed ==> JustSeen(policy.world.history, h.id, false)
      requires result == NotRequired ==> ReplyThisTick(policy.world.history, h.id) == Some(Some(NothingRequired))
      modifies policy.engine`st, policy.world`history
      ensures policy.world.Valid()
      ensures outcome != Broken ==> InShutdown() && InStep()
      ensures outcome in {if result == Unverified then RetryPending else HostSettled, Broken}
      ensures outcome != Broken ==> policy.engine.st.hosts == old(policy.engine.st.hosts)[h.id := hs.(shutdownState := result)]
      ensures outcome != Broken ==> SameCount(old(policy.world.history), policy.world.history, h.id)
      ensures Works(old(policy.world.history), policy.world.history, outcome != Broken)
    {
      var ok := PersistHost(h.id, hs.(shutdownState := result));
      return if !ok then Broken else if result == Unverified then RetryPending else HostSettled;
    }

    method GiveUp(h: HostConfig, hs: HostState) returns (outcome: Settling)
      requires InShutdown() && InStep() && hs == Record(policy.engine.st.hosts, h.id) && hs.shutdownState != Completed
      modifies policy.engine`st, policy.world`history
      ensures policy.world.Valid() && outcome in {GaveUpSafely, Broken}
      ensures outcome == GaveUpSafely ==>
        && Alive() && InStep() && policy.engine.st.power == FailedSafe
        && policy.engine.st.hosts == old(policy.engine.st.hosts)[h.id := hs.(shutdownState := Failed)]
      ensures outcome != Broken ==> SameCount(old(policy.world.history), policy.world.history, h.id)
      ensures Works(old(policy.world.history), policy.world.history, outcome != Broken)
    {
      var ok := EnterShutdownFailedSafe(h.id, hs);
      return if ok then GaveUpSafely else Broken;
    }

    /** Durably records one more attempt, then sends the shutdown. `None` means the attempt could not be recorded. */
    method Request(h: HostConfig, ghost k: nat, hs0: HostState) returns (hs: HostState, answer: Option<Option<Disposition>>)
      requires InShutdown() && InStep() && Turn(h, k) && MayAsk(policy.world.history, h, hs0)
      requires hs0 == Record(policy.engine.st.hosts, h.id)
      modifies policy.engine`st, policy.world`history
      ensures policy.world.Valid() && hs == AskedOnceMore(hs0)
      ensures answer.Some? ==>
        && InShutdown() && InStep() && policy.engine.st.hosts == old(policy.engine.st.hosts)[h.id := hs]
        && JustAsked(policy.world.history, h.id, answer.value)
      ensures Works(old(policy.world.history), policy.world.history, answer.Some?)
    {
      hs := hs0.(shutdownAttempts := hs0.shutdownAttempts + 1, shutdownState := Requested);
      answer := None;
      var ok := RecordAttempt(h, k, hs0, hs);
      if ok {
        var reply := Dispatch(h);
        answer := Some(reply);
      }
    }

    /** Afterwards the shutdown may be sent. */
    method RecordAttempt(h: HostConfig, ghost k: nat, ghost hs0: HostState, hs: HostState) returns (ok: bool)
      requires InShutdown() && InStep() && Turn(h, k) && MayAsk(policy.world.history, h, hs0)
      requires hs0 == Record(policy.engine.st.hosts, h.id) && hs == AskedOnceMore(hs0)
      modifies policy.engine`st, policy.world`history
      ensures policy.world.Valid()
      ensures ok ==>
        && InShutdown() && InStep() && policy.engine.st.hosts == old(policy.engine.st.hosts)[h.id := hs]
        && ShutdownAllowed(policy.world.history, h.id)
      ensures Works(old(policy.world.history), policy.world.history, ok)
    {
      ghost var before := policy.world.history;
      ok := PersistHost(h.id, hs);
      if ok {
        AttemptIsAllowed(before, policy.world.history, cfg, h, k, hs0);
      }
    }

    method Dispatch(h: HostConfig) returns (answer: Option<Disposition>)
      requires InShutdown() && InStep() && ShutdownAllowed(policy.world.history, h.id)
      modifies policy.world`history
      ensures InShutdown() && InStep() && JustAsked(policy.world.history, h.id, answer)
      ensures Faults(policy.world.history) == old(Faults(policy.world.history))
    {
      ghost var before := policy.world.history;
      answer := policy.world.SendShutdown(h.id);
      SendingIsQuiet(before, h.id, answer);
    }

    /** Sends one more direct shutdown and follows it up. */
    method SendDirect(h: HostConfig, ghost k: nat, hs0: HostState)
      returns (outcome: Settling, ghost reply: Option<Disposition>, ghost wentDown: bool)
      requires InShutdown() && InStep() && Turn(h, k) && MayAsk(policy.world.history, h, hs0)
      requires hs0 == Record(policy.engine.st.hosts, h.id)
      modifies policy.engine`st, policy.world`history
      ensures policy.world.Valid() && (outcome != Broken ==> Concluded(outcome))
      ensures outcome != Broken ==>
        var pass := AfterReply(h, AskedOnceMore(hs0), reply, wentDown);
        && outcome == pass.outcome && policy.engine.st.hosts == old(policy.engine.st.hosts)[h.id := pass.record]
        && Followed(policy.world.history, h, reply, wentDown)
      ensures Works(old(policy.world.history), policy.world.history, outcome != Broken)
    {
      ghost var states := policy.engine.st.hosts;
      reply, wentDown := None, false;
      var hs, answer := Request(h, k, hs0);
      if answer.None? {
        return Broken, reply, wentDown;
      }
      reply := answer.value;
      outcome, wentDown := Answered(h, hs, answer.value);
      RecordedTwice(states, h.id, hs, AfterReply(h, hs, reply, wentDown).record);
    }

    /** What follows from the answer to a shutdown request. */
    method Answered(h: HostConfig, hs: HostState, answer: Option<Disposition>) returns (outcome: Settling, ghost wentDown: bool)
      requires InShutdown() && InStep() && hs == Record(policy.engine.st.hosts, h.id) && hs.shutdownState == Requested
      requires JustAsked(policy.world.history, h.id, answer)
      modifies policy.engine`st, policy.world`history
      ensures policy.world.Valid() && (outcome != Broken ==> Concluded(outcome))
      ensures outcome != Broken ==>
        var pass := AfterReply(h, hs, answer, wentDown);
        && outcome == pass.outcome && policy.engine.st.hosts == old(policy.engine.st.hosts)[h.id := pass.record]
        && Followed(policy.world.history, h, answer, wentDown)
      ensures Works(old(policy.world.history), policy.world.history, outcome != Broken)
    {
      hide Controller.Alive, Controller.InStep, World.Valid, LastWake, FirstSelection;
      wentDown := false;
      match answer {
        case None =>
          if hs.shutdownAttempts >= MAX_DIRECT_SHUTDOWN_ATTEMPTS {
            outcome := GiveUp(h, hs);
          } else {
            outcome := Conclude(h, hs, Unverified);
          }
        case Some(NothingRequired) =>
          outcome := Conclude(h, hs, NotRequired);
        case Some(ManagedByNut) =>
          Complain(h);
          outcome := Broken;
        case Some(DirectRequested) =>
          outcome, wentDown := FollowUp(h, hs);
      }
    }

    /** A host to be shut down directly must not be left to the UPS. */
    method Complain(h: HostConfig)
      requires InShutdown() && JustAsked(policy.world.history, h.id, Some(ManagedByNut))
      modifies policy.world`history
      ensures policy.world.Valid() && Works(old(policy.world.history), policy.world.history, false)
    {
      policy.world.Note(Faulted(Delegated(h.id)));
    }

    /** After an accepted request: acknowledge it and, where the host can be observed, wait for it to go down. */
    method FollowUp(h: HostConfig, hs0: HostState) returns (outcome: Settling, ghost wentDown: bool)
      requires InShutdown() && InStep() && hs0 == Record(policy.engine.st.hosts, h.id) && hs0.shutdownState == Requested
      requires ReplyThisTick(policy.world.history, h.id) == Some(Some(DirectRequested))
      modifies policy.engine`st, policy.world`history
      ensures policy.world.Valid() && (outcome != Broken ==> InShutdown() && InStep())
      ensures outcome != Broken ==>
        && outcome == (if Verifiable(h) && !wentDown then RetryPending else HostSettled)
        && policy.engine.st.hosts == old(policy.engine.st.hosts)[h.id := hs0.(shutdownState :=
             if !Verifiable(h) then Acknowledged else if wentDown then Completed else Unverified)]
      ensures outcome != Broken ==> Followed(policy.world.history, h, Some(DirectRequested), wentDown)
      ensures Works(old(policy.world.history), policy.world.history, outcome != Broken)
    {
      ghost var states := policy.engine.st.hosts;
      wentDown := false;
      var ok := Acknowledge(h, hs0);
      if !ok {
        return Broken, wentDown;
      }
      if !Verifiable(h) {
        return HostSettled, wentDown;
      }
      var offline := WaitForOffline(h);
      wentDown := offline;
      var result := if offline then Completed else Unverified;
      outcome := Conclude(h, hs0.(shutdownState := Acknowledged), result);
      RecordedTwice(states, h.id, hs0.(shutdownState := Acknowledged), hs0.(shutdownState := result));
    }

    method Acknowledge(h: HostConfig, hs0: HostState) returns (ok: bool)
      requires InShutdown() && InStep() && hs0 == Record(policy.engine.st.hosts, h.id) && hs0.shutdownState == Requested
      requires Told(policy.world.history, h.id)
      modifies policy.engine`st, policy.world`history
      ensures policy.world.Valid()
      ensures ok ==>
        InShutdown() && InStep() && policy.engine.st.hosts == old(policy.engine.st.hosts)[h.id := hs0.(shutdownState := Acknowledged)]
      ensures ok ==> SameCount(old(policy.world.history), policy.world.history, h.id)
      ensures Works(old(policy.world.history), policy.world.history, ok)
    {
      ok := PersistHost(h.id, hs0.(shutdownState := Acknowledged));
    }

    // -------------------------------------------------------------- NUT-managed hosts

    /** Notices group members that are already offline. */
    method PrepareNutGroup(group: seq<HostConfig>) returns (ok: bool)
      requires InShutdown() && InStep() && UniqueIds(group)
      modifies policy.engine`st, policy.world`history
      ensures policy.world.Valid()
      ensures ok ==> InShutdown() && InStep() && Passed(group, old(policy.engine.st.hosts), policy.engine.st.hosts, CompletedAtMost)
      ensures ok ==> AllLookedAt(policy.world.history, group, policy.engine.st.hosts)
      ensures Works(old(policy.world.history), policy.world.history, ok)
    {
      ghost var before := policy.engine.st.hosts;
      for i := 0 to |group|
        invariant InShutdown() && InStep() && Passed(group[..i], before, policy.engine.st.hosts, CompletedAtMost)
        invariant Works(old(policy.world.history), policy.world.history, true)
        invariant AllLookedAt(policy.world.history, group[..i], policy.engine.st.hosts)
      {
        ghost var states, h0 := policy.engine.st.hosts, policy.world.history;
        ok := PrepareOne(group[i]);
        if !ok {
          return;
        }
        OneLookedAt(group, i, h0, states, policy.world.history, policy.engine.st.hosts);
        OnePassed(group, i, before, states, policy.engine.st.hosts, CompletedAtMost);
      }
      assert group[..|group|] == group;
      return true;
    }

    method PrepareOne(h: HostConfig) returns (ok: bool)
      requires InShutdown()
      modifies policy.engine`st, policy.world`history
      ensures policy.world.Valid() && InShutdown() && (ok && old(InStep()) ==> InStep())
      ensures ok ==> Passed([h], old(policy.engine.st.hosts), policy.engine.st.hosts, CompletedAtMost)
      ensures ok ==> LookedAt(policy.world.history, h, policy.engine.st.hosts)
      ensures SameCountsBut(old(policy.world.history), policy.world.history, h.id)
      ensures Works(old(policy.world.history), policy.world.history, ok)
    {
      hide Controller.Alive, World.Valid, LastWake, FirstSelection, Faults, TransactionOf, FsdFor, Replay;
      var hs := Record(policy.State().hosts, h.id);
      NonePasses(h, policy.engine.st.hosts, CompletedAtMost);
      if hs.shutdownState != Completed && Verifiable(h) {
        var reading := ProbeHost(h);
        if reading == Some(false) {
          OnePasses(h, policy.engine.st.hosts, hs.(shutdownState := Completed), CompletedAtMost);
          ghost var seen := policy.world.history;
          ok := PersistHost(h.id, hs.(shutdownState := Completed));
          CountsChainBut(old(policy.world.history), seen, policy.world.history, h.id);
          return;
        }
      }
      AliveIsSound();
      return true;
    }

    /** Counts one more forced-shutdown attempt for every member that is not Completed. */
    method MarkNutRequested(group: seq<HostConfig>) returns (ok: bool)
      requires InShutdown() && InStep() && UniqueIds(group)
      modifies policy.engine`st, policy.world`history
      ensures policy.world.Valid()
      ensures ok ==> InShutdown() && InStep() && Passed(group, old(policy.engine.st.hosts), policy.engine.st.hosts, Requested1)
      ensures SameCounts(old(policy.world.history), policy.world.history)
      ensures Works(old(policy.world.history), policy.world.history, ok)
    {
      ok := true;
      ghost var before := policy.engine.st.hosts;
      for i := 0 to |group|
        invariant Works(old(policy.world.history), policy.world.history, ok)
        invariant InShutdown() && (ok ==> InStep() && Passed(group[..i], before, policy.engine.st.hosts, Requested1))
        invariant SameCounts(old(policy.world.history), policy.world.history)
      {
        ghost var states, h0 := policy.engine.st.hosts, policy.world.history;
        var written := RequestOne(group[i]);
        CountsChain(old(policy.world.history), h0, policy.world.history);
        if ok && written {
          OnePassed(group, i, before, states, policy.engine.st.hosts, Requested1);
        }
        ok := ok && written;
      }
      assert group[..|group|] == group;
    }

    method RequestOne(h: HostConfig) returns (ok: bool)
      requires InShutdown()
      modifies policy.engine`st, policy.world`history
      ensures policy.world.Valid() && InShutdown() && (ok && old(InStep()) ==> InStep())
      ensures ok ==> Passed([h], old(policy.engine.st.hosts), policy.engine.st.hosts, Requested1)
      ensures SameCounts(old(policy.world.history), policy.world.history)
      ensures Works(old(policy.world.history), policy.world.history, ok)
    {
      var hs := Record(policy.State().hosts, h.id);
      if hs.shutdownState == Completed {
        NonePasses(h, policy.engine.st.hosts, Requested1);
        return true;
      }
      var next := hs.(shutdownAttempts := hs.shutdownAttempts + 1, shutdownState := Requested);
      OnePasses(h, policy.engine.st.hosts, next, Requested1);
      ok := PersistHost(h.id, next);
    }

    method MaxNutAttempts(group: seq<HostConfig>) returns (most: nat)
      ensures IsMost(group, policy.engine.st.hosts, most)
    {
      most := 0;
      for i := 0 to |group|
        invariant forall j :: 0 <= j < i ==> Record(policy.engine.st.hosts, group[j].id).shutdownAttempts <= most
        invariant most == 0 || exists h :: h in group && Record(policy.engine.st.hosts, h.id).shutdownAttempts == most
      {
        var n := Record(policy.State().hosts, group[i].id).shutdownAttempts;
        if n > most {
          most := n;
          assert group[i] in group;
        }
      }
    }

    method ShouldAttemptNutFsd(now: int, transactionId: string) returns (attempt: bool)
      requires InShutdown()
      modifies this`nutFsdTransactionId, this`nutFsdNextAttempt
      ensures InShutdown() && nutFsdTransactionId == transactionId
      ensures nutFsdNextAttempt == if old(nutFsdTransactionId) == transactionId then old(nutFsdNextAttempt) else None
      ensures attempt <==> nutFsdNextAttempt.None? || now >= nutFsdNextAttempt.value
    {
      if nutFsdTransactionId != transactionId {
        nutFsdTransactionId := transactionId;
        nutFsdNextAttempt := None;
      }
      return nutFsdNextAttempt.None? || now >= nutFsdNextAttempt.value;
    }

    method ScheduleNutFsdRetry(now: int, transactionId: string, attempt: nat)
      modifies this`nutFsdTransactionId, this`nutFsdNextAttempt
      ensures nutFsdTransactionId == transactionId && nutFsdNextAttempt == Some(now + RetryDelay(attempt))
    {
      nutFsdTransactionId := transactionId;
      var delay := FIRST_FSD_RETRY;
      var i := 1;
      while i < attempt && delay < LAST_FSD_RETRY
        invariant 1 <= i && (i <= attempt || i == 1)
        invariant FIRST_FSD_RETRY <= delay && RetryDelay(i) == if delay > LAST_FSD_RETRY then LAST_FSD_RETRY else delay
      {
        delay := delay * 2;
        i := i + 1;
      }
      if delay > LAST_FSD_RETRY {
        delay := LAST_FSD_RETRY;
      }
      RetryDelaySaturates(i, attempt);
      nutFsdNextAttempt := Some(now + delay);
    }

    /** The retry is nobody else's business. */
    method ComeBackLater(now: int, transactionId: string, attempt: nat)
      requires InShutdown()
      modifies this`nutFsdTransactionId, this`nutFsdNextAttempt
      ensures InShutdown() && nutFsdTransactionId == transactionId && nutFsdNextAttempt == Some(now + RetryDelay(attempt))
    {
      ScheduleNutFsdRetry(now, transactionId, attempt);
    }

    /** After an accepted request; the first failed write is remembered, the other members still tried. */
    method MarkNutAcknowledged(group: seq<HostConfig>) returns (ok: bool)
      requires InShutdown() && InStep() && UniqueIds(group) && FsdThisTick(policy.world.history) == Some(true)
      modifies policy.engine`st, policy.world`history
      ensures policy.world.Valid() && FsdThisTick(policy.world.history) == Some(true)
      ensures ok ==> InShutdown() && InStep() && Passed(group, old(policy.engine.st.hosts), policy.engine.st.hosts, AcknowledgedIfRequested)
      ensures SameCounts(old(policy.world.history), policy.world.history)
      ensures Works(old(policy.world.history), policy.world.history, ok)
    {
      ok := true;
      ghost var before := policy.engine.st.hosts;
      for i := 0 to |group|
        invariant SameCounts(old(policy.world.history), policy.world.history)
        invariant Works(old(policy.world.history), policy.world.history, ok)
        invariant InShutdown() && FsdThisTick(policy.world.history) == Some(true) && (ok ==> InStep() && Passed(group[..i], before, policy.engine.st.hosts, AcknowledgedIfRequested))
      {
        ghost var states, h0 := policy.engine.st.hosts, policy.world.history;
        var written := AcknowledgeOne(group[i]);
        CountsChain(old(policy.world.history), h0, policy.world.history);
        if ok && written {
          OnePassed(group, i, before, states, policy.engine.st.hosts, AcknowledgedIfRequested);
        }
        ok := ok && written;
      }
      assert group[..|group|] == group;
    }

    method AcknowledgeOne(h: HostConfig) returns (ok: bool)
      requires InShutdown() && FsdThisTick(policy.world.history) == Some(true)
      modifies policy.engine`st, policy.world`history
      ensures policy.world.Valid() && InShutdown() && (ok && old(InStep()) ==> InStep())
      ensures ok ==> Passed([h], old(policy.engine.st.hosts), policy.engine.st.hosts, AcknowledgedIfRequested)
      ensures FsdThisTick(policy.world.history) == Some(true)
      ensures SameCounts(old(policy.world.history), policy.world.history)
      ensures Works(old(policy.world.history), policy.world.history, ok)
    {
      var hs := Record(policy.State().hosts, h.id);
      if hs.shutdownState != Requested {
        NonePasses(h, policy.engine.st.hosts, AcknowledgedIfRequested);
        return true;
      }
      OnePasses(h, policy.engine.st.hosts, hs.(shutdownState := Acknowledged), AcknowledgedIfRequested);
      ok := PersistHost(h.id, hs.(shutdownState := Acknowledged));
    }

    /** After a refused request. */
    method MarkNutError(group: seq<HostConfig>) returns (ok: bool)
      requires InShutdown() && InStep() && UniqueIds(group)
      modifies policy.engine`st, policy.world`history
      ensures policy.world.Valid()
      ensures ok ==>
        InShutdown() && InStep() && Passed(group, old(policy.engine.st.hosts), policy.engine.st.hosts, UnverifiedUnlessCompleted)
      ensures SameCounts(old(policy.world.history), policy.world.history)
      ensures Works(old(policy.world.history), policy.world.history, ok)
    {
      ok := true;
      ghost var before := policy.engine.st.hosts;
      for i := 0 to |group|
        invariant SameCounts(old(policy.world.history), policy.world.history)
        invariant Works(old(policy.world.history), policy.world.history, ok)
        invariant InShutdown() && (ok ==> InStep() && Passed(group[..i], before, policy.engine.st.hosts, UnverifiedUnlessCompleted))
      {
        ghost var states, h0 := policy.engine.st.hosts, policy.world.history;
        var written := MarkErrorOne(group[i]);
        CountsChain(old(policy.world.history), h0, policy.world.history);
        if ok && written {
          OnePassed(group, i, before, states, policy.engine.st.hosts, UnverifiedUnlessCompleted);
        }
        ok := ok && written;
      }
      assert group[..|group|] == group;
    }

    method MarkErrorOne(h: HostConfig) returns (ok: bool)
      requires InShutdown()
      modifies policy.engine`st, policy.world`history
      ensures policy.world.Valid() && InShutdown() && (ok && old(InStep()) ==> InStep())
      ensures ok ==> Passed([h], old(policy.engine.st.hosts), policy.engine.st.hosts, UnverifiedUnlessCompleted)
      ensures SameCounts(old(policy.world.history), policy.world.history)
      ensures Works(old(policy.world.history), policy.world.history, ok)
    {
      var hs := Record(policy.State().hosts, h.id);
      if hs.shutdownState == Completed {
        NonePasses(h, policy.engine.st.hosts, UnverifiedUnlessCompleted);
        return true;
      }
      OnePasses(h, policy.engine.st.hosts, hs.(shutdownState := Unverified), UnverifiedUnlessCompleted);
      ok := PersistHost(h.id, hs.(shutdownState := Unverified));
    }

    /** Waits for every member that can be observed to go down. */
    method VerifyNutGroup(group: seq<HostConfig>) returns (ok: bool)
      requires InShutdown() && InStep() && UniqueIds(group) && FsdThisTick(policy.world.history) == Some(true)
      modifies policy.engine`st, policy.world`history
      ensures policy.world.Valid()
      ensures ok ==> InShutdown() && InStep() && Passed(group, old(policy.engine.st.hosts), policy.engine.st.hosts, VerifiedIfPossible)
      ensures FsdThisTick(policy.world.history) == Some(true)
      ensures ok ==> AllLookedAt(policy.world.history, group, policy.engine.st.hosts)
      ensures Works(old(policy.world.history), policy.world.history, ok)
    {
      ok := true;
      ghost var before := policy.engine.st.hosts;
      for i := 0 to |group|
        invariant Works(old(policy.world.history), policy.world.history, ok)
        invariant InShutdown() && FsdThisTick(policy.world.history) == Some(true) && (ok ==> InStep() && Passed(group[..i], before, policy.engine.st.hosts, VerifiedIfPossible))
        invariant ok ==> AllLookedAt(policy.world.history, group[..i], policy.engine.st.hosts)
      {
        ghost var states, h0 := policy.engine.st.hosts, policy.world.history;
        var written := VerifyOne(group[i]);
        if ok && written {
          OnePassed(group, i, before, states, policy.engine.st.hosts, VerifiedIfPossible);
          OneLookedAt(group, i, h0, states, policy.world.history, policy.engine.st.hosts);
        }
        ok := ok && written;
      }
      assert group[..|group|] == group;
    }

    method VerifyOne(h: HostConfig) returns (ok: bool)
      requires InShutdown() && FsdThisTick(policy.world.history) == Some(true)
      modifies policy.engine`st, policy.world`history
      ensures policy.world.Valid() && InShutdown() && FsdThisTick(policy.world.history) == Some(true) && (ok && old(InStep()) ==> InStep())
      ensures ok ==> Passed([h], old(policy.engine.st.hosts), policy.engine.st.hosts, VerifiedIfPossible)
      ensures ok ==> LookedAt(policy.world.history, h, policy.engine.st.hosts)
      ensures SameCountsBut(old(policy.world.history), policy.world.history, h.id)
      ensures Works(old(policy.world.history), policy.world.history, ok)
    {
      hide Controller.Alive, Controller.InStep, World.Valid, LastWake, FirstSelection, Faults, TransactionOf, FsdFor;
      hide Replay;
      var hs := Record(policy.State().hosts, h.id);
      if hs.shutdownState == Completed || !Verifiable(h) {
        NonePasses(h, policy.engine.st.hosts, VerifiedIfPossible);
        AliveIsSound();
        return true;
      }
      var offline := WaitForOffline(h);
      var next := hs.(shutdownState := if offline then Completed else Unverified);
      OnePasses(h, policy.engine.st.hosts, next, VerifiedIfPossible);
      ghost var seen := policy.world.history;
      ok := PersistHost(h.id, next);
      CountsChainBut(old(policy.world.history), seen, policy.world.history, h.id);
    }

    method EnterNutGroupFailedSafe(group: seq<HostConfig>) returns (ok: bool)
      requires InShutdown() && InStep() && UniqueIds(group)
      modifies policy.engine`st, policy.world`history
      ensures policy.world.Valid()
      ensures ok ==> Alive() && InStep() && policy.engine.st.power == FailedSafe
      ensures ok ==> Passed(group, old(policy.engine.st.hosts), policy.engine.st.hosts, FailedUnlessCompleted)
      ensures ok ==> SameCounts(old(policy.world.history), policy.world.history)
      ensures Works(old(policy.world.history), policy.world.history, ok)
    {
      var states := FailOutstanding(group, policy.State().hosts);
      ok := PersistFailedSafe(states);
    }

    method FailOutstanding(group: seq<HostConfig>, states0: HostStates) returns (states: HostStates)
      requires UniqueIds(group)
      ensures GivesUp(states0, states) && Passed(group, states0, states, FailedUnlessCompleted)
    {
      states := states0;
      for i := 0 to |group|
        invariant GivesUp(states0, states) && Passed(group[..i], states0, states, FailedUnlessCompleted)
      {
        ghost var between := states;
        var hs := Record(states, group[i].id);
        if hs.shutdownState != Completed {
          OnePasses(group[i], states, hs.(shutdownState := Failed), FailedUnlessCompleted);
          states := states[group[i].id := hs.(shutdownState := Failed)];
        } else {
          NonePasses(group[i], states, FailedUnlessCompleted);
        }
        OnePassed(group, i, states0, between, states, FailedUnlessCompleted);
      }
      assert group[..|group|] == group;
    }

    /** Asks the UPS to force a shutdown, with the attempt already on disk for every outstanding member. */
    method RequestGroupFsd(group: seq<HostConfig>) returns (requested: bool, accepted: bool)
      requires InShutdown() && InStep() && group == ShutdownPlanOf(cfg.hosts).nutGroup
      requires AllDirectSettled(cfg, policy.engine.st.hosts) && NoneSpent(group, policy.engine.st.hosts)
      requires AllLookedAt(policy.world.history, group, policy.engine.st.hosts)
      modifies policy.engine`st, policy.world`history, policy.world`forced
      ensures policy.world.Valid() && Works(old(policy.world.history), policy.world.history, requested)
      ensures requested ==>
        && InShutdown() && InStep() && AllDirectSettled(cfg, policy.engine.st.hosts) && FsdThisTick(policy.world.history) == Some(accepted)
        && Passed(group, old(policy.engine.st.hosts), policy.engine.st.hosts, Requested1)
        && AllLookedAt(policy.world.history, group, policy.engine.st.hosts)
        && policy.world.forced == old(policy.world.forced) + 1
    {
      ghost var before := policy.world.history;
      ghost var states := policy.engine.st.hosts;
      RunsUniqueHosts(before, cfg);
      GroupHasUniqueIds(cfg.hosts);
      requested := MarkNutRequested(group);
      if !requested {
        return false, false;
      }
      MarkedGroupMayRequest(before, policy.world.history, cfg, states);
      DirectStaysSettled(cfg, states, policy.engine.st.hosts);
      StaysLookedAt(group, before, states, policy.world.history, policy.engine.st.hosts, Requested1);
      ghost var marked := policy.world.history;
      accepted := DispatchFsd();
      RequestKeepsSight(group, marked, accepted, policy.engine.st.hosts);
    }

    method DispatchFsd() returns (accepted: bool)
      requires InShutdown() && InStep() && FsdAllowed(policy.world.history)
      modifies policy.world`history, policy.world`forced
      ensures InShutdown() && InStep() && policy.world.history == Then(old(policy.world.history), FsdRequested(accepted))
      ensures Works(old(policy.world.history), policy.world.history, true) && policy.world.forced == old(policy.world.forced) + 1
    {
      accepted := policy.world.RequestFsd();
    }

    /** The NUT-managed part of a shutdown pass. `proceed` means the phase may be completed. */
    method ShutDownNutGroup(now: int, group: seq<HostConfig>) returns (ok: bool, proceed: bool)
      requires InShutdown() && InStep() && group == ShutdownPlanOf(cfg.hosts).nutGroup && group != []
      requires AllDirectSettled(cfg, policy.engine.st.hosts) && UniqueIds(cfg.hosts)
      modifies policy.engine`st, policy.world`history, policy.world`forced, this`nutFsdTransactionId, this`nutFsdNextAttempt
      ensures policy.world.Valid() && Works(old(policy.world.history), policy.world.history, ok)
      ensures ok && proceed ==> FsdThisTick(policy.world.history) == Some(true)
      ensures ok ==> GroupPursued(group, old(policy.engine.st.hosts), old(NextFsd(policy.engine.st.transactionId)), now,
        policy.world.forced - old(policy.world.forced), NextFsd(old(policy.engine.st.transactionId)), proceed)
    {
      hide Controller.Alive, Controller.InStep, World.Valid, Faults, TransactionOf, Replay, AllDirectSettled, GroupEnds;
      hide AllChanged, FsdThisTick, AllLookedAt, ShutdownPlanOf, Verdict;
      if cfg.remoteClient {
        Refuse();
        return false, false;
      }
      ghost var states := policy.engine.st.hosts;
      GroupHasUniqueIds(cfg.hosts);
      AliveIsSound();
      ok := PrepareNutGroup(group);
      if !ok {
        return false, false;
      }
      AliveIsSound();
      DirectStaysSettled(cfg, states, policy.engine.st.hosts);
      ghost var prepared := policy.engine.st.hosts;
      ok, proceed := PursueNutGroup(now, group);
      if ok {
        PreparedGroupEnds(group, states, prepared, old(NextFsd(policy.engine.st.transactionId)), now, policy.world.history,
                          policy.world.forced - old(policy.world.forced), NextFsd(old(policy.engine.st.transactionId)),
                          Verdict(policy.engine.st.power, proceed), policy.engine.st.hosts);
      }
    }

    /** A remote client may not force a shutdown. */
    method Refuse()
      requires InShutdown() && cfg.remoteClient && ShutdownPlanOf(cfg.hosts).nutGroup != []
      modifies policy.world`history
      ensures policy.world.Valid() && Works(old(policy.world.history), policy.world.history, false)
    {
      RemoteFaults(policy.world.history, cfg);
      policy.world.Note(Faulted(RemoteClient));
    }

    /** The group was pursued to an end, and the directly managed hosts stayed as they were. */
    ghost predicate GroupPursued(group: seq<HostConfig>, before: HostStates, next0: Option<int>, now: int, requested: int, next: Option<int>, proceed: bool)
      reads this, policy, policy.engine, policy.world
    {
      && Alive() && InStep() && AllDirectSettled(cfg, policy.engine.st.hosts) && OnlyChanged(group, before, policy.engine.st.hosts)
      && policy.engine.st.power == (if proceed then ShutdownInProgress else policy.engine.st.power)
      && GroupEnds(group, before, next0, now, policy.world.history, requested, next, Verdict(policy.engine.st.power, proceed), policy.engine.st.hosts)
    }

    /** Gives up once the attempts are used up; otherwise forces the shutdown when it is due. */
    method PursueNutGroup(now: int, group: seq<HostConfig>) returns (ok: bool, proceed: bool)
      requires InShutdown() && InStep() && group == ShutdownPlanOf(cfg.hosts).nutGroup && group != []
      requires UniqueIds(cfg.hosts) && UniqueIds(group) && AllDirectSettled(cfg, policy.engine.st.hosts)
      requires AllLookedAt(policy.world.history, group, policy.engine.st.hosts)
      modifies policy.engine`st, policy.world`history, policy.world`forced, this`nutFsdTransactionId, this`nutFsdNextAttempt
      ensures policy.world.Valid() && Works(old(policy.world.history), policy.world.history, ok)
      ensures ok && proceed ==> FsdThisTick(policy.world.history) == Some(true)
      ensures ok ==> GroupPursued(group, old(policy.engine.st.hosts), old(NextFsd(policy.engine.st.transactionId)), now,
        policy.world.forced - old(policy.world.forced), NextFsd(old(policy.engine.st.transactionId)), proceed)
    {
      hide Controller.Alive, Controller.InStep, World.Valid, Faults, TransactionOf, Replay, AllDirectSettled;
      hide AllLookedAt, AllSeenOr, GroupEnds, NoneSpent, IsMost, FsdThisTick, AllChanged, OnlyChanged, RetryDelay;
      hide ShutdownPlanOf;
      AliveIsSound();
      var attempts := MaxNutAttempts(group);
      MostDecides(group, policy.engine.st.hosts, attempts);
      ghost var before, next0 := policy.engine.st.hosts, NextFsd(policy.engine.st.transactionId);
      if attempts >= MAX_FSD_ATTEMPTS {
        ok := GiveUpNutGroup(group);
        if ok {
          GivenUpEnds(group, before, next0, now, policy.world.history, policy.engine.st.hosts);
        }
        return ok, false;
      }
      var tx := policy.State().transactionId;
      var due := ShouldAttemptNutFsd(now, tx);
      if !due {
        NotDueEnds(group, before, next0, now, policy.world.history);
        return true, false;
      }
      ok, proceed := ForceGroupShutdown(now, group, tx, attempts);
      if ok {
        ForcedEnds(group, before, next0, now, policy.world.history, proceed, NextFsd(tx), attempts, policy.engine.st.hosts);
      }
    }

    method GiveUpNutGroup(group: seq<HostConfig>) returns (ok: bool)
      requires InShutdown() && InStep() && group == ShutdownPlanOf(cfg.hosts).nutGroup && UniqueIds(cfg.hosts) && UniqueIds(group)
      requires AllDirectSettled(cfg, policy.engine.st.hosts) && AllLookedAt(policy.world.history, group, policy.engine.st.hosts)
      modifies policy.engine`st, policy.world`history
      ensures policy.world.Valid() && Works(old(policy.world.history), policy.world.history, ok)
      ensures ok ==>
        && Alive() && InStep() && policy.engine.st.power == FailedSafe && AllDirectSettled(cfg, policy.engine.st.hosts)
        && Passed(group, old(policy.engine.st.hosts), policy.engine.st.hosts, FailedUnlessCompleted)
        && AllLookedAt(policy.world.history, group, policy.engine.st.hosts)
    {
      ghost var h0, states := policy.world.history, policy.engine.st.hosts;
      ok := EnterNutGroupFailedSafe(group);
      if ok {
        DirectStaysSettled(cfg, states, policy.engine.st.hosts);
        StaysLookedAt(group, h0, states, policy.world.history, policy.engine.st.hosts, FailedUnlessCompleted);
      }
    }

    /** Requests the forced shutdown that is due, and schedules a retry or follows it up. */
    method ForceGroupShutdown(now: int, group: seq<HostConfig>, tx: string, attempts: nat) returns (ok: bool, proceed: bool)
      requires InShutdown() && InStep() && group == ShutdownPlanOf(cfg.hosts).nutGroup && tx == policy.engine.st.transactionId
      requires UniqueIds(cfg.hosts) && UniqueIds(group) && AllDirectSettled(cfg, policy.engine.st.hosts) && NoneSpent(group, policy.engine.st.hosts)
      requires AllLookedAt(policy.world.history, group, policy.engine.st.hosts)
      modifies policy.engine`st, policy.world`history, policy.world`forced, this`nutFsdTransactionId, this`nutFsdNextAttempt
      ensures policy.world.Valid() && Works(old(policy.world.history), policy.world.history, ok)
      ensures ok ==> Forced(group, old(policy.engine.st.hosts), proceed) && policy.world.forced == old(policy.world.forced) + 1
      ensures ok ==> NextFsd(tx) == if proceed then None else Some(now + RetryDelay(attempts + 1))
    {
      hide AllDirectSettled, AllLookedAt, Passed, World.Valid, Faults, TransactionOf, Controller.InStep, Replay;
      hide RetryDelay, NoneSpent, FsdThisTick;
      ghost var states := policy.engine.st.hosts;
      var accepted;
      ok, accepted := RequestGroupFsd(group);
      if !ok {
        return false, false;
      }
      ghost var requested := policy.engine.st.hosts;
      if accepted {
        nutFsdTransactionId, nutFsdNextAttempt := tx, None;
        ok := ConcludeNutGroup(group);
      } else {
        ok := RetryLater(now, group, tx, attempts);
      }
      proceed := ok && accepted;
      if ok {
        ForceCounts(group, states, requested, policy.engine.st.hosts, proceed);
      }
    }

    /** One forced shutdown was requested on this tick, and its answer followed up. */
    ghost predicate Forced(group: seq<HostConfig>, before: HostStates, accepted: bool)
      reads this, policy, policy.engine, policy.world
    {
      && InShutdown() && InStep() && AllDirectSettled(cfg, policy.engine.st.hosts)
      && FsdThisTick(policy.world.history) == Some(accepted) && AllLookedAt(policy.world.history, group, policy.engine.st.hosts)
      && Passed(group, before, policy.engine.st.hosts, if accepted then ForcedDown else ForceRefused)
    }

    /** After a refused request. */
    method RetryLater(now: int, group: seq<HostConfig>, tx: string, attempts: nat) returns (ok: bool)
      requires InShutdown() && InStep() && group == ShutdownPlanOf(cfg.hosts).nutGroup && UniqueIds(cfg.hosts) && UniqueIds(group)
      requires AllDirectSettled(cfg, policy.engine.st.hosts) && AllLookedAt(policy.world.history, group, policy.engine.st.hosts)
      modifies policy.engine`st, policy.world`history, this`nutFsdTransactionId, this`nutFsdNextAttempt
      ensures policy.world.Valid() && Works(old(policy.world.history), policy.world.history, ok)
      ensures ok ==>
        && InShutdown() && InStep() && AllDirectSettled(cfg, policy.engine.st.hosts)
        && Passed(group, old(policy.engine.st.hosts), policy.engine.st.hosts, UnverifiedUnlessCompleted)
        && AllLookedAt(policy.world.history, group, policy.engine.st.hosts)
        && FsdThisTick(policy.world.history) == old(FsdThisTick(policy.world.history))
        && nutFsdTransactionId == tx && nutFsdNextAttempt == Some(now + RetryDelay(attempts + 1))
    {
      hide Controller.Alive, Controller.InStep, World.Valid, Faults, TransactionOf, Replay, AllDirectSettled;
      hide AllLookedAt, AllChanged, OnlyChanged, FsdThisTick, RetryDelay, SameCounts, UnverifiedUnlessCompleted;
      ghost var h0, states := policy.world.history, policy.engine.st.hosts;
      ok := MarkNutError(group);
      if ok {
        DirectStaysSettled(cfg, states, policy.engine.st.hosts);
        RefusalKeepsSight(group, h0, states, policy.world.history, policy.engine.st.hosts);
        ComeBackLater(now, tx, attempts + 1);
      }
    }

    /** After an accepted request. */
    method ConcludeNutGroup(group: seq<HostConfig>) returns (ok: bool)
      requires InShutdown() && InStep() && group == ShutdownPlanOf(cfg.hosts).nutGroup && UniqueIds(cfg.hosts) && UniqueIds(group)
      requires AllDirectSettled(cfg, policy.engine.st.hosts) && FsdThisTick(policy.world.history) == Some(true)
      modifies policy.engine`st, policy.world`history
      ensures policy.world.Valid() && Works(old(policy.world.history), policy.world.history, ok)
      ensures ok ==>
        && InShutdown() && InStep() && AllDirectSettled(cfg, policy.engine.st.hosts)
        && Passed(group, old(policy.engine.st.hosts), policy.engine.st.hosts, VerifiedAfterAcknowledged)
        && AllLookedAt(policy.world.history, group, policy.engine.st.hosts) && FsdThisTick(policy.world.history) == Some(true)
    {
      ghost var states := policy.engine.st.hosts;
      ok := MarkNutAcknowledged(group);
      if !ok {
        return;
      }
      ghost var acknowledged := policy.engine.st.hosts;
      DirectStaysSettled(cfg, states, acknowledged);
      ok := VerifyNutGroup(group);
      if ok {
        DirectStaysSettled(cfg, acknowledged, policy.engine.st.hosts);
        PassedTwice(group, states, acknowledged, policy.engine.st.hosts, AcknowledgedIfRequested, VerifiedIfPossible, VerifiedAfterAcknowledged);
      }
    }

    /** Settles the `k`-th host of the order, with all before it; the pass began with the records `start`. */
    method SettleInOrder(h: HostConfig, ghost k: nat, ghost start: HostStates) returns (outcome: Settling, ghost a: Answers)
      requires InShutdown() && InStep() && UniqueIds(cfg.hosts) && Turn(h, k)
      requires PassedUpTo(ShutdownPlanOf(cfg.hosts).preFsd, k, start, policy.engine.st.hosts)
      modifies policy.engine`st, policy.world`history
      ensures policy.world.Valid() && (outcome != Broken ==> Concluded(outcome))
      ensures outcome == HostSettled ==> PassedUpTo(ShutdownPlanOf(cfg.hosts).preFsd, k + 1, start, policy.engine.st.hosts)
      ensures outcome in {RetryPending, GaveUpSafely} ==>
        StoppedAt(policy.world.history, ShutdownPlanOf(cfg.hosts).preFsd, k, a, start, policy.engine.st.hosts, outcome)
      ensures Works(old(policy.world.history), policy.world.history, outcome != Broken)
    {
      ghost var states := policy.engine.st.hosts;
      outcome, a := SettleDirect(h, k);
      if outcome != Broken {
        OneHostPassed(cfg.hosts, k, start, states, policy.world.history, policy.engine.st.hosts, a);
      }
    }

    /**
     * Settles the directly managed hosts in order, stopping at the first that has to wait. It gets to the end only
     * if every one of them could be got past.
     */
    method SettleDirectHosts(plan: seq<HostConfig>) returns (outcome: Settling, ghost k: nat, ghost a: Answers)
      requires InShutdown() && InStep() && UniqueIds(cfg.hosts) && plan == ShutdownPlanOf(cfg.hosts).preFsd
      modifies policy.engine`st, policy.world`history
      ensures policy.world.Valid() && (outcome != Broken ==> Concluded(outcome))
      ensures outcome == HostSettled ==> PassedUpTo(plan, |plan|, old(policy.engine.st.hosts), policy.engine.st.hosts)
      ensures outcome in {RetryPending, GaveUpSafely} ==>
        StoppedAt(policy.world.history, plan, k, a, old(policy.engine.st.hosts), policy.engine.st.hosts, outcome)
      ensures Works(old(policy.world.history), policy.world.history, outcome != Broken)
    {
      k, a := 0, Answers(None, None, false);
      for i := 0 to |plan|
        invariant InShutdown() && InStep() && PassedUpTo(plan, i, old(policy.engine.st.hosts), policy.engine.st.hosts)
        invariant Works(old(policy.world.history), policy.world.history, true)
      {
        k := i;
        outcome, a := SettleInOrder(plan[i], i, old(policy.engine.st.hosts));
        if outcome != HostSettled {
          return;
        }
      }
      outcome := HostSettled;
    }

    method CompleteShutdownPhase() returns (ok: bool)
      requires InShutdown() && InStep() && AllDirectSettled(cfg, policy.engine.st.hosts)
      requires (exists h :: h in cfg.hosts && NutManaged(h)) ==> FsdThisTick(policy.world.history) == Some(true)
      modifies policy.engine`st, policy.world`history
      ensures policy.world.Valid()
      ensures ok ==>
        && Alive() && InStep() && policy.engine.st.power == WaitingForAC && policy.engine.st.hosts == old(policy.engine.st.hosts)
        && SameCounts(old(policy.world.history), policy.world.history)
      ensures Works(old(policy.world.history), policy.world.history, ok)
    {
      ghost var h0 := policy.world.history;
      ok := policy.MarkShutdownPhaseComplete();
      if ok {
        PhaseEndIsQuiet(h0, policy.world.history);
      }
    }

    /** One pass of the shutdown phase: direct hosts in order, then the NUT group, then the end of the phase. */
    method ExecuteShutdown(now: int) returns (ok: bool)
      requires InShutdown() && InStep()
      modifies policy.engine`st, policy.world`history, policy.world`forced, this`nutFsdTransactionId, this`nutFsdNextAttempt
      ensures policy.world.Valid() && Works(old(policy.world.history), policy.world.history, ok)
      ensures ok ==> Alive() && InStep()
      ensures PassEnds(cfg.hosts, old(policy.engine.st.hosts), old(NextFsd(policy.engine.st.transactionId)), now, policy.world.history,
        policy.world.forced - old(policy.world.forced), NextFsd(old(policy.engine.st.transactionId)), policy.engine.st, ok)
    {
      hide Controller.Alive, Controller.InStep, World.Valid, Faults, TransactionOf, Replay, PassEnds, PassCompleted;
      hide PassedUpTo, StoppedAt, OnlyChanged, SettledUpTo;
      ghost var states := policy.engine.st.hosts;
      RunsUnique();
      AliveIsSound();
      var plan := BuildShutdownPlan(cfg.hosts);
      ghost var k, a;
      var outcome;
      outcome, k, a := SettleDirectHosts(plan.preFsd);
      if outcome != HostSettled {
        if outcome != Broken {
          StoppedPassEnds(cfg.hosts, k, a, states, old(NextFsd(policy.engine.st.transactionId)), now, policy.world.history, policy.engine.st, outcome);
        } else {
          NoPassEnds(cfg.hosts, states, old(NextFsd(policy.engine.st.transactionId)), now, policy.world.history, policy.engine.st);
        }
        return outcome != Broken;
      }
      AliveIsSound();
      ghost var settled := policy.engine.st.hosts;
      ok := FinishPass(now, plan.nutGroup, states);
      FinishedPassEnds(cfg.hosts, states, settled, old(NextFsd(policy.engine.st.transactionId)), now, policy.world.history,
                       policy.world.forced - old(policy.world.forced), NextFsd(old(policy.engine.st.transactionId)), policy.engine.st, ok);
    }

    /** The rest of a pass that began with the records `start`, once the directly managed hosts are settled. */
    method FinishPass(now: int, group: seq<HostConfig>, ghost start: HostStates) returns (ok: bool)
      requires InShutdown() && InStep() && group == ShutdownPlanOf(cfg.hosts).nutGroup && UniqueIds(cfg.hosts)
      requires var plan := ShutdownPlanOf(cfg.hosts).preFsd; PassedUpTo(plan, |plan|, start, policy.engine.st.hosts)
      modifies policy.engine`st, policy.world`history, policy.world`forced, this`nutFsdTransactionId, this`nutFsdNextAttempt
      ensures policy.world.Valid() && Works(old(policy.world.history), policy.world.history, ok)
      ensures ok ==>
        Alive() && InStep() && PassCompleted(cfg.hosts, start, old(NextFsd(policy.engine.st.transactionId)), now, policy.world.history,
        policy.world.forced - old(policy.world.forced), NextFsd(old(policy.engine.st.transactionId)), policy.engine.st)
      ensures ok ==> OnlyChanged(ShutdownPlanOf(cfg.hosts).nutGroup, old(policy.engine.st.hosts), policy.engine.st.hosts)
    {
      hide Controller.Alive, Controller.InStep, World.Valid, Faults, TransactionOf, Replay, AllLookedAt;
      hide AllDirectSettled, PassedUpTo, GroupEnds, PassCompleted, SameCounts, FsdThisTick, OnlyChanged, ShutdownPlanOf;
      ghost var states := policy.engine.st.hosts;
      WholePlanSettled(cfg, start, states);
      var proceed := true;
      if |group| > 0 {
        ok, proceed := ShutDownNutGroup(now, group);
        if !ok || !proceed {
          if ok {
            GroupEndsPass(cfg.hosts, start, states, old(NextFsd(policy.engine.st.transactionId)), now, policy.world.history,
                          policy.world.forced - old(policy.world.forced), NextFsd(old(policy.engine.st.transactionId)), policy.engine.st);
          }
          return;
        }
      }
      NothingChanged(group, states);
      ghost var h0 := policy.world.history;
      ok := CompleteShutdownPhase();
      if ok {
        PhaseEndsPass(cfg.hosts, start, states, old(NextFsd(policy.engine.st.transactionId)), now, h0, policy.world.history,
                      policy.world.forced - old(policy.world.forced), NextFsd(old(policy.engine.st.transactionId)), policy.engine.st);
      }
    }

    // -------------------------------------------------------------- restoring hosts

    ghost predicate InRestore()
      reads this, policy, policy.engine, policy.world
    {
      Alive() && policy.engine.st.power == RestoreHosts
    }

    /** Fails every unfinished host with a failed dependency and makes that durable. */
    method CascadeFailures() returns (ok: bool, changed: bool)
      requires InRestore()
      modifies policy.engine`st, policy.world`history
      ensures policy.world.Valid()
      ensures ok ==> InRestore() && Cascaded(cfg.hosts, old(policy.engine.st.hosts), policy.engine.st.hosts)
      ensures ok ==> SameTempo(old(policy.world.history), policy.world.history)
      ensures ok ==> if changed
        then Work(cfg.hosts, policy.engine.st.hosts) < Work(cfg.hosts, old(policy.engine.st.hosts)) && !Unblocked(cfg.hosts, old(policy.engine.st.hosts), cfg.hosts)
        else policy.engine.st == old(policy.engine.st) && Unblocked(cfg.hosts, policy.engine.st.hosts, cfg.hosts)
      ensures Faults(policy.world.history) == old(Faults(policy.world.history)) + if ok then 0 else 1
    {
      RunsUniqueHosts(policy.world.history, cfg);
      var st := policy.State();
      var states;
      states, changed := MarkBlockedRecovery(cfg.hosts, st.hosts);
      if !changed {
        return true, false;
      }
      ok := PersistCascade(states);
    }

    method PersistCascade(states: HostStates) returns (ok: bool)
      requires InRestore() && Cascaded(cfg.hosts, policy.engine.st.hosts, states)
      modifies policy.engine`st, policy.world`history
      ensures policy.world.Valid()
      ensures ok ==> InRestore() && policy.engine.st.hosts == states && SameTempo(old(policy.world.history), policy.world.history)
      ensures Faults(policy.world.history) == old(Faults(policy.world.history)) + if ok then 0 else 1
    {
      CascadeIsAllowed(policy.world.history, cfg.hosts, states);
      ok := policy.WriteHosts(states);
    }

    method ResetRecoveryWakeDelay()
      modifies this`lastRecoveryWakeAt, this`lastRecoveryWakeHost, this`resumeWakeDelayEvaluated
      ensures lastRecoveryWakeAt == None && lastRecoveryWakeHost == "" && !resumeWakeDelayEvaluated
    {
      lastRecoveryWakeAt, lastRecoveryWakeHost, resumeWakeDelayEvaluated := None, "", false;
    }

    method CompleteRecovery() returns (ok: bool)
      requires InRestore() && RecoverySettled(cfg.hosts, policy.engine.st.hosts)
      modifies policy.engine, policy.world`history, this`lastRecoveryWakeAt, this`lastRecoveryWakeHost, this`resumeWakeDelayEvaluated
      ensures policy.world.Valid()
      ensures ok ==> Alive() && InStep() && policy.engine.st.power == Normal && policy.engine.st.hosts == old(policy.engine.st.hosts)
      ensures if ok then Faults(policy.world.history) == old(Faults(policy.world.history))
              else Faults(policy.world.history) > old(Faults(policy.world.history))
    {
      ResetRecoveryWakeDelay();
      ok := policy.MarkRecoveryComplete();
      assert ok ==> LastWake(policy.world.history.past).None? && FirstSelection(policy.world.history.past).None?
                    && LastStep(policy.world.history.past) == old(LastStep(policy.world.history));
    }

    /** Notes the selection and decides whether the configured spacing lets this host be worked on now. */
    method DueForWake(now: int, c: HostConfig) returns (due: bool)
      requires InRestore() && InTick(policy.world.history, now) && Find(cfg.hosts, c.id) == Some(c)
      modifies policy.world`history, this`lastRecoveryWakeAt, this`lastRecoveryWakeHost, this`resumeWakeDelayEvaluated
      ensures InRestore() && InTick(policy.world.history, now)
      ensures policy.world.Now() == old(policy.world.Now())
      ensures Faults(policy.world.history) == old(Faults(policy.world.history))
      ensures FirstSelection(policy.world.history).Some? && (due ==> Paced(policy.world.history, cfg.hosts, c.id))
      ensures NothingWoken(old(policy.world.history), policy.world.history)
      ensures due <==> !TooSoon(old(policy.world.history), cfg.hosts, policy.engine.st.hosts, c.id)
    {
      if LastWake(policy.world.history).Some? {
        LastWakeIsPast(policy.world.history);
      }
      ghost var before := policy.world.history;
      policy.world.Note(Selected(c.id));
      SelectionIsNoted(before, c.id);
      var delay := c.wakeDelaySeconds * SECOND;
      if !resumeWakeDelayEvaluated {
        resumeWakeDelayEvaluated := true;
        if PriorWake(policy.State().hosts) && delay > 0 {
          lastRecoveryWakeAt, lastRecoveryWakeHost := Some(now), RESUME_MARKER;
          return false;
        }
      }
      return !(delay > 0 && lastRecoveryWakeAt.Some? && c.id != lastRecoveryWakeHost && now - lastRecoveryWakeAt.value < delay);
    }

    /** Lets the executor work on the selected host; it selects for itself, but cannot select another. */
    method RunSelected(next: Option<HostConfig>) returns (id: Option<string>, failed: bool)
      requires policy.Valid() && recovery.store == policy && policy.engine.st.power == RestoreHosts
      requires policy.world.Now().process.value.cfg.hosts == cfg.hosts
      requires LastStep(policy.world.history).Some? && !WokeSinceStep(policy.world.history) && UniqueIds(cfg.hosts)
      requires IsNext(cfg.hosts, policy.engine.st.hosts, NextAs(next))
      requires next.Some? ==> Paced(policy.world.history, cfg.hosts, next.value.id)
      modifies policy.engine`st, policy.world`history
      ensures policy.Valid() && policy.engine.st.power == RestoreHosts
      ensures if next.Some? then id == Some(next.value.id) else id.None? && !failed
      ensures next.None? ==> policy.engine.st == old(policy.engine.st) && policy.world.history == old(policy.world.history)
      ensures next.Some? ==>
        Attempted(cfg.hosts, next.value, old(policy.world.history), old(policy.engine.st.hosts), policy.world.history, policy.engine.st.hosts)
    {
      ghost var states := policy.engine.st.hosts;
      forall other | IsNext(cfg.hosts, states, other) ensures other == NextAs(next) {
        NextIsDetermined(cfg.hosts, states, other, NextAs(next));
      }
      id, failed := recovery.RunNext(cfg.hosts);
    }

    /** Works on the next host, and remembers when it was woken; its own errors are durable and not this tick's. */
    method RestoreNext(now: int, c: HostConfig)
      requires InRestore() && InTick(policy.world.history, now) && UniqueIds(cfg.hosts)
      requires IsNext(cfg.hosts, policy.engine.st.hosts, NextAs(Some(c)))
      requires Paced(policy.world.history, cfg.hosts, c.id) && FirstSelection(policy.world.history).Some?
      modifies policy.engine`st, policy.world`history, this`lastRecoveryWakeAt, this`lastRecoveryWakeHost
      ensures InRestore()
      ensures Attempted(cfg.hosts, c, old(policy.world.history), old(policy.engine.st.hosts), policy.world.history, policy.engine.st.hosts)
    {
      var beforeAttempts := Record(policy.State().hosts, c.id).wakeAttempts;
      ghost var h0, states := policy.world.history, policy.engine.st.hosts;
      var id, failed := RunSelected(Some(c));
      NoteWake(now, c, beforeAttempts, h0, states);
    }

    method NoteWake(now: int, c: HostConfig, beforeAttempts: nat, ghost h0: History, ghost states: HostStates)
      requires ClockAgrees(h0) && StepTime(h0) == Some(now) && FirstSelection(h0).Some?
      requires Attempted(cfg.hosts, c, h0, states, policy.world.history, policy.engine.st.hosts)
      requires beforeAttempts == Record(states, c.id).wakeAttempts
      modifies this`lastRecoveryWakeAt, this`lastRecoveryWakeHost
      ensures ClockAgrees(policy.world.history) && RunningConfig(policy.world.history) == RunningConfig(h0) && StepTime(policy.world.history) == StepTime(h0)
    {
      AttemptPaces(cfg.hosts, c, h0, states, policy.world.history, policy.engine.st.hosts);
      if Record(policy.State().hosts, c.id).wakeAttempts > beforeAttempts {
        lastRecoveryWakeAt, lastRecoveryWakeHost := Some(now), c.id;
      }
    }

    /** Works on the chosen host unless it has to wait for the spacing. */
    method RestoreChosen(now: int, c: HostConfig) returns (ok: bool)
      requires InRestore() && InTick(policy.world.history, now) && UniqueIds(cfg.hosts)
      requires IsNext(cfg.hosts, policy.engine.st.hosts, Candidate(c))
      modifies policy.engine`st, policy.world`history, this`lastRecoveryWakeAt, this`lastRecoveryWakeHost, this`resumeWakeDelayEvaluated
      ensures ok && InRestore()
      ensures Faults(policy.world.history) >= old(Faults(policy.world.history))
      ensures Faults(policy.world.history) == old(Faults(policy.world.history)) ==>
        ChoiceWorkedOn(cfg.hosts, old(policy.world.history), c, old(policy.engine.st.hosts), policy.world.history, policy.engine.st.hosts)
    {
      CandidateIsEligible(cfg.hosts, policy.engine.st.hosts, c);
      var due := DueForWake(now, c);
      if !due {
        return true;
      }
      ghost var h0, states0 := policy.world.history, policy.engine.st.hosts;
      assert NextAs(Some(c)) == Candidate(c);
      RestoreNext(now, c);
      ok := true;
      AttemptWorksOn(cfg.hosts, c, old(policy.world.history), h0, states0, policy.world.history, policy.engine.st.hosts);
    }

    /** With nobody to work on, recovery may be over. */
    method FinishIfSettled(now: int) returns (ok: bool)
      requires InRestore() && InTick(policy.world.history, now) && UniqueIds(cfg.hosts)
      requires IsNext(cfg.hosts, policy.engine.st.hosts, Nobody)
      modifies policy.engine, policy.world`history, this`lastRecoveryWakeAt, this`lastRecoveryWakeHost, this`resumeWakeDelayEvaluated
      ensures policy.world.Valid()
      ensures ok ==> Alive() && (InRestore() || (InStep() && policy.engine.st.power == Normal))
      ensures ok ==> policy.engine.st.hosts == old(policy.engine.st.hosts)
      ensures ok && policy.engine.st.power == RestoreHosts ==> policy.world.history == old(policy.world.history)
      ensures old(RecoverySettled(cfg.hosts, policy.engine.st.hosts)) && ok ==> policy.engine.st.power == Normal
      ensures !old(RecoverySettled(cfg.hosts, policy.engine.st.hosts)) && ok ==> InRestore()
      ensures if ok then Faults(policy.world.history) == old(Faults(policy.world.history))
              else Faults(policy.world.history) > old(Faults(policy.world.history))
    {
      assert NextAs(None) == Nobody;
      var id, failed := RunSelected(None);
      ok := !failed;
      if ok && id.None? && RecoverySettled(cfg.hosts, policy.State().hosts) {
        ok := CompleteRecovery();
      }
    }

    method RestoreSomebody(now: int) returns (ok: bool, ghost next: Next)
      requires InRestore() && InTick(policy.world.history, now) && UniqueIds(cfg.hosts) && !Cyclic(GraphOf(cfg.hosts))
      modifies policy.engine, policy.world`history, this`lastRecoveryWakeAt, this`lastRecoveryWakeHost, this`resumeWakeDelayEvaluated
      ensures policy.world.Valid() && IsNext(cfg.hosts, old(policy.engine.st.hosts), next) && !next.CycleDetected?
      ensures ok ==> Alive() && (InRestore() || (InStep() && policy.engine.st.power == Normal))
      ensures !old(RecoverySettled(cfg.hosts, policy.engine.st.hosts)) && ok ==> InRestore()
      ensures Faults(policy.world.history) >= old(Faults(policy.world.history))
      ensures Faults(policy.world.history) == old(Faults(policy.world.history)) ==>
        ok && Handled(cfg.hosts, old(policy.world.history), next, old(policy.engine.st.hosts), policy.world.history, policy.engine.st)
    {
      AcceptedConfigurationPlans(cfg.hosts, policy.engine.st.hosts);
      var selected := NextRecoveryHost(cfg.hosts, policy.State().hosts);
      next := selected;
      match selected {
        case CycleDetected => ok := false;
        case Candidate(c) => ok := RestoreChosen(now, c);
        case Nobody => ok := FinishIfSettled(now);
      }
    }

    /**
     * One recovery step. Unless a write fails, it finishes the recovery, brings it measurably closer to its end,
     * or waits for the configured spacing between wakes, whatever probes and wakes answer; unless recovery is
     * stalled, in which case it changes nothing.
     */
    method ExecuteRecoveryStep(now: int) returns (ok: bool)
      requires InRestore() && InTick(policy.world.history, now)
      modifies policy.engine, policy.world`history, this`lastRecoveryWakeAt, this`lastRecoveryWakeHost, this`resumeWakeDelayEvaluated
      ensures policy.world.Valid()
      ensures ok ==> Alive() && (InRestore() || (InStep() && policy.engine.st.power == Normal))
      ensures Faults(policy.world.history) == old(Faults(policy.world.history)) ==>
        ok && RecoveryAdvanced(cfg.hosts, old(policy.world.history), old(policy.engine.st.hosts), policy.world.history, policy.engine.st)
      ensures Blames(old(policy.world.history), policy.world.history, ok)
    {
      RunsSchedulableHosts(policy.world.history, cfg);
      ghost var h0 := policy.world.history;
      ghost var states0 := policy.engine.st.hosts;
      var changed;
      ok, changed := CascadeFailures();
      if !ok {
        return false;
      }
      ghost var states1 := policy.engine.st.hosts;
      if RecoverySettled(cfg.hosts, policy.State().hosts) {
        ok := CompleteRecovery();
        return;
      }
      ghost var h1 := policy.world.history;
      ghost var next;
      ok, next := RestoreSomebody(now);
      if !changed {
        UnsettledHasCandidate(cfg.hosts, states1, next);
      }
      if Faults(policy.world.history) == Faults(h0) {
        StepAdvances(cfg.hosts, h0, states0, h1, states1, changed, next, policy.world.history, policy.engine.st);
      }
    }

    // -------------------------------------------------------------- outages

    ghost predicate InOutage()
      reads this, policy, policy.engine, policy.world
    {
      Alive() && InStep() && policy.engine.st.power == OnBattery
    }

    /** Whether the host is known to be running, or also known not to be when offline answers can be trusted. */
    method Observe(h: HostConfig, offlineKnown: bool) returns (wasOnline: Option<bool>)
      requires InOutage()
      modifies policy.world`history
      ensures InOutage() && policy.world.Now() == old(policy.world.Now())
      ensures policy.world.history == old(policy.world.history)
        || (policy.world.history.Then? && policy.world.history.past == old(policy.world.history))
      ensures if Verifiable(h) then ReadingThisTick(policy.world.history, h.id).Some? && wasOnline == Taken(ReadingThisTick(policy.world.history, h.id).value, offlineKnown)
              else wasOnline.None?
      ensures SameCountsBut(old(policy.world.history), policy.world.history, h.id)
      ensures Faults(policy.world.history) == old(Faults(policy.world.history)) && BegunThisTick(policy.world.history) == old(BegunThisTick(policy.world.history))
    {
      if !Verifiable(h) {
        return None;
      }
      var reading := ProbeHost(h);
      assert ReadingThisTick(policy.world.history, h.id) == Some(reading);
      return if reading == Some(true) || (reading.Some? && offlineKnown) then reading else None;
    }

    /** Observes every host whose earlier power state is not known yet. */
    method ObserveHosts(offlineKnown: bool) returns (states: HostStates)
      requires InOutage() && BegunThisTick(policy.world.history) == offlineKnown
      modifies policy.world`history
      ensures InOutage() && policy.world.Now() == old(policy.world.Now()) && BegunThisTick(policy.world.history) == offlineKnown
      ensures Snapshotted(cfg.hosts, policy.engine.st.hosts, states) && AllSeen(policy.world.history, cfg.hosts, policy.engine.st.hosts, states)
      ensures InRenewal(policy.engine.st) ==> RenewalSince(old(policy.world.history), policy.world.history)
      ensures Faults(policy.world.history) == old(Faults(policy.world.history))
    {
      states := policy.State().hosts;
      ghost var before := states;
      MemoryMirrorsDisk(policy.world.history);
      RunsUniqueHosts(policy.world.history, cfg);
      for i := 0 to |cfg.hosts|
        invariant InOutage() && policy.world.Now() == old(policy.world.Now()) && BegunThisTick(policy.world.history) == offlineKnown
        invariant Snapshotted(cfg.hosts[..i], before, states) && AllSeen(policy.world.history, cfg.hosts[..i], before, states)
        invariant InRenewal(policy.engine.st) ==> RenewalSince(old(policy.world.history), policy.world.history)
        invariant Faults(policy.world.history) == old(Faults(policy.world.history))
      {
        states := ObserveOne(i, offlineKnown, before, states);
      }
      assert cfg.hosts[..|cfg.hosts|] == cfg.hosts;
    }

    method ObserveOne(i: nat, offlineKnown: bool, ghost before: HostStates, states0: HostStates) returns (states: HostStates)
      requires InOutage() && UniqueIds(cfg.hosts) && BegunThisTick(policy.world.history) == offlineKnown
      requires i < |cfg.hosts| && Snapshotted(cfg.hosts[..i], before, states0) && AllSeen(policy.world.history, cfg.hosts[..i], before, states0)
      modifies policy.world`history
      ensures InOutage() && policy.world.Now() == old(policy.world.Now()) && BegunThisTick(policy.world.history) == offlineKnown
      ensures policy.world.history == old(policy.world.history)
        || (policy.world.history.Then? && policy.world.history.past == old(policy.world.history))
      ensures Snapshotted(cfg.hosts[..i + 1], before, states) && AllSeen(policy.world.history, cfg.hosts[..i + 1], before, states)
      ensures Faults(policy.world.history) == old(Faults(policy.world.history))
    {
      hide World.Valid, Snapshotted, AllSeen, Replay;
      states := states0;
      ghost var h0 := policy.world.history;
      var h := cfg.hosts[i];
      var hs := Record(states, h.id);
      SnappedSoFar(cfg.hosts, i, before, states);
      if hs.wasOnline.None? {
        var wasOnline := Observe(h, offlineKnown);
        states := states[h.id := SnapshotRecord(h, hs, wasOnline)];
      }
      SnapOneMore(cfg.hosts, i, before, states0, states);
      SeeOneMore(cfg.hosts, i, h0, policy.world.history, before, states0, states);
    }

    /** Records, in one write, what every managed host was doing when the outage began. */
    method SnapshotHosts(offlineKnown: bool) returns (ok: bool)
      requires InOutage() && BegunThisTick(policy.world.history) == offlineKnown
      modifies policy.engine`st, policy.world`history, policy.world`ages
      ensures policy.world.Valid()
      ensures ok ==> InOutage() && Snapshotted(cfg.hosts, old(policy.engine.st.hosts), policy.engine.st.hosts)
      ensures ok ==> AllSeen(policy.world.history, cfg.hosts, old(policy.engine.st.hosts), policy.engine.st.hosts)
      ensures ok ==> BegunThisTick(policy.world.history) == offlineKnown
      ensures ok ==> SameButSequence(policy.engine.st, old(policy.engine.st).(hosts := policy.engine.st.hosts))
      ensures ok ==> old(policy.world.Now().issued) <= policy.world.Now().issued
      ensures InRenewal(old(policy.engine.st)) ==> RenewalSince(old(policy.world.history), policy.world.history)
      ensures Blames(old(policy.world.history), policy.world.history, ok)
    {
      hide Controller.InOutage, World.Valid, AllSeen, Snapshotted, RenewalSince, InRenewal, BegunThisTick;
      var states := ObserveHosts(offlineKnown);
      ok := PersistSnapshot(states);
    }

    method PersistSnapshot(states: HostStates) returns (ok: bool)
      requires InOutage() && Snapshotted(cfg.hosts, policy.engine.st.hosts, states)
      requires AllSeen(policy.world.history, cfg.hosts, policy.engine.st.hosts, states)
      modifies policy.engine`st, policy.world`history, policy.world`ages
      ensures policy.world.Valid()
      ensures ok ==> InOutage() && SameButSequence(policy.engine.st, old(policy.engine.st).(hosts := states))
      ensures ok ==> AllSeen(policy.world.history, cfg.hosts, old(policy.engine.st.hosts), states)
      ensures BegunThisTick(policy.world.history) == old(BegunThisTick(policy.world.history))
      ensures ok ==> old(policy.world.Now().issued) <= policy.world.Now().issued
      ensures forall start :: InRenewal(old(policy.engine.st)) && RenewalSince(start, old(policy.world.history)) ==>
        RenewalSince(start, policy.world.history)
      ensures Blames(old(policy.world.history), policy.world.history, ok)
    {
      hide AllSeen, Snapshotted, BegunThisTick, HostsAdvance, SameCounts, Faults;
      ghost var before := policy.world.history;
      MemoryMirrorsDisk(before);
      SnapshotIsAllowed(cfg.hosts, policy.State(), states);
      SnapshotMayBeWritten(before, states);
      var written := policy.WriteOpening(policy.State().(hosts := states), HostRecords);
      ok := written.Some?;
      HostWriteFacts(before, policy.world.history, ok);
      SeenAfterWrite(before, policy.world.history, ok, cfg.hosts, old(policy.engine.st.hosts), states);
    }

    /** Starts a new transaction for a new outage: linked to the old one, uncommitted, with every host snapshotted afresh. */
    method BeginFreshOutage() returns (ok: bool)
      requires InOutage()
      modifies policy.engine`st, policy.world`history, policy.world`ages, this`lastRecoveryWakeAt,
        this`lastRecoveryWakeHost, this`resumeWakeDelayEvaluated
      ensures policy.world.Valid()
      ensures ok ==> InOutage() && Renewed(cfg.hosts, old(policy.engine.st), old(policy.world.Now().issued), policy.engine.st)
      ensures ok ==> SeenAfresh(policy.world.history, cfg.hosts, policy.engine.st.hosts)
      ensures InRenewal(old(policy.engine.st)) ==> RenewalSince(old(policy.world.history), policy.world.history)
      ensures Blames(old(policy.world.history), policy.world.history, ok)
    {
      ResetRecoveryWakeDelay();
      MemoryMirrorsDisk(policy.world.history);
      var id := policy.world.NewTransactionId();
      if id == "" {
        return false;
      }
      ghost var start := policy.world.history;
      ok := PersistNewOutage(id);
      if !ok {
        return false;
      }
      ghost var begun := policy.world.history;
      ok := SnapshotHosts(true);
      RenewalMayChain(start, begun, policy.world.history);
      if ok {
        EmptySnapshotIsFresh(cfg.hosts, policy.engine.st.hosts);
        EmptySnapshotIsSeen(policy.world.history, cfg.hosts, policy.engine.st.hosts);
      }
    }

    method PersistNewOutage(id: string) returns (ok: bool)
      requires policy.Valid() && InOutageBut() && id != "" && id !in policy.world.Now().issued
      requires lastRecoveryWakeAt.None? && !resumeWakeDelayEvaluated
      modifies policy.engine`st, policy.world`history, policy.world`ages
      ensures policy.world.Valid()
      ensures ok ==> InOutage() && SameButSequence(policy.engine.st,
        old(policy.engine.st).(transactionId := id, parentTransactionId := old(policy.engine.st.transactionId),
                               hosts := map[], shutdownCommitted := false, recoveryStarted := false))
      ensures ok ==> BegunThisTick(policy.world.history)
      ensures InRenewal(old(policy.engine.st)) ==> RenewalSince(old(policy.world.history), policy.world.history)
      ensures Blames(old(policy.world.history), policy.world.history, ok)
    {
      MemoryMirrorsDisk(policy.world.history);
      var st := policy.State();
      var next := st.(transactionId := id, parentTransactionId := st.transactionId,
                      hosts := map[], shutdownCommitted := false, recoveryStarted := false);
      var written := policy.WriteOpening(next, NewOutage);
      ok := written.Some?;
    }

    /** An outage whose wake clock has just been reset. */
    ghost predicate InOutageBut()
      reads this, policy, policy.engine, policy.world
    {
      && policy.Valid() && recovery.store == policy && policy.world.Now().process.value.cfg == cfg
      && InStep() && policy.engine.st.power == OnBattery && StepTime(policy.world.history) == clock
    }

    // -------------------------------------------------------------- one tick

    /** Between ticks memory and disk agree, unless a host write failed while hosts are being restored. */
    ghost predicate Ready()
      reads this, policy, policy.engine, policy.world
    {
      Alive() && (InStep() || policy.engine.st.power == RestoreHosts)
    }

    /** The engine's transition, made durable. */
    method StepPolicy(now: int, inp: Inputs) returns (decision: Option<Decision>)
      requires Ready() && (clock.Some? ==> clock.value <= now)
      modifies policy.engine, policy.world`history, policy.world`mark, this`clock
      ensures policy.world.Valid() && policy.world.mark == Then(old(policy.world.history), Stepped(now, inp))
      ensures decision.Some? ==>
        && Alive() && clock == Some(now) && Meaning(cfg.policy, old(policy.engine.View()), old(policy.world.Now().disk), now, inp, decision.value, policy.engine.View())
        && Decides(cfg.policy, old(policy.engine.View()), now, inp, decision.value)
      ensures StepOutcome(old(policy.world.history), policy.world.history, now, inp, decision)
      ensures old(RenewsFrom(inp)) ==> RenewalSince(old(policy.world.history), policy.world.history)
      ensures decision.None? ==> !(old(policy.engine.st.power) == BootReconcile && inp.ups.utility == UtilityUnknown)
      ensures Blames(old(policy.world.history), policy.world.history, decision.Some?)
    {
      hide Meaning, RenewalSince, StepEffect, StepLost, Renews, Faults, BegunThisTick, WokeSinceStep, Step, ResumeIsDue;
      ghost var h0 := policy.world.history;
      decision := policy.Step(now, inp);
      clock := Some(now);
      StepLeavesNothingDue(h0, policy.world.history, now, inp, decision);
      StepFacts(h0, policy.world.history, now, inp, decision);
      StepMeans(h0, policy.world.history, now, inp, decision);
      StepRenewal(h0, policy.world.history, now, inp, decision);
    }

    /** The disk is inside a renewal and the next step sees unsafe power. */
    ghost predicate RenewsFrom(inp: Inputs)
      reads policy, policy.engine, policy.world, this
    {
      Renews(cfg.policy, policy.engine.View(), policy.world.Now().disk, inp)
    }

    /** A new outage gets its snapshot: afresh from NORMAL, on top of what the disk knows after a restart. */
    method EnterOutage(before: PowerState) returns (ok: bool)
      requires InOutage() && EntersOutage(before, OnBattery) && !BegunThisTick(policy.world.history)
      modifies policy.engine`st, policy.world`history, policy.world`ages, this`lastRecoveryWakeAt,
        this`lastRecoveryWakeHost, this`resumeWakeDelayEvaluated
      ensures policy.world.Valid() && (ok ==> InOutage())
      ensures before == Normal && ok ==>
        && Renewed(cfg.hosts, old(policy.engine.st), old(policy.world.Now().issued), policy.engine.st)
        && SeenAfresh(policy.world.history, cfg.hosts, policy.engine.st.hosts)
      ensures before == BootReconcile && ok ==>
        KeptOnBoot(policy.world.history, cfg.hosts, old(policy.engine.st), policy.engine.st) && old(policy.world.Now().issued) <= policy.world.Now().issued
      ensures InRenewal(old(policy.engine.st)) ==> RenewalSince(old(policy.world.history), policy.world.history)
      ensures Blames(old(policy.world.history), policy.world.history, ok)
    {
      if before == Normal {
        ok := BeginFreshOutage();
      } else {
        ok := SnapshotOnBoot();
      }
    }

    method SnapshotOnBoot() returns (ok: bool)
      requires InOutage() && !BegunThisTick(policy.world.history)
      modifies policy.engine`st, policy.world`history, policy.world`ages
      ensures policy.world.Valid()
      ensures ok ==>
        InOutage() && KeptOnBoot(policy.world.history, cfg.hosts, old(policy.engine.st), policy.engine.st) && old(policy.world.Now().issued) <= policy.world.Now().issued
      ensures InRenewal(old(policy.engine.st)) ==> RenewalSince(old(policy.world.history), policy.world.history)
      ensures Blames(old(policy.world.history), policy.world.history, ok)
    {
      var st := policy.State();
      ok := SnapshotHosts(false);
      if ok {
        SnapshotIsAllowed(cfg.hosts, st, policy.engine.st.hosts);
      }
    }

    /** The commitment is on disk; so is SHUTDOWN_IN_PROGRESS before the first host is touched. */
    method CommitAndShutDown(now: int, inp: Inputs) returns (ok: bool)
      requires Alive() && InStep() && policy.engine.st.power == ShutdownCommitted && InTick(policy.world.history, now)
      modifies policy.engine, policy.world`history, policy.world`mark, policy.world`forced, this`nutFsdTransactionId,
        this`nutFsdNextAttempt, this`clock
      ensures policy.world.Valid() && CutOf(old(policy.world.mark), policy.world.mark)
      ensures ok ==> Alive() && InStep() && clock == Some(now)
      ensures PassEnds(cfg.hosts, old(policy.engine.st.hosts), old(NextFsd(policy.engine.st.transactionId)), now, policy.world.history,
          policy.world.forced - old(policy.world.forced), NextFsd(old(policy.engine.st.transactionId)), policy.engine.st, ok)
      ensures Blames(old(policy.world.history), policy.world.history, ok)
    {
      hide PassEnds, Faults, RenewalSince, Step;
      var second := StepPolicy(now, inp);
      if second.None? {
        NoPassEnds(cfg.hosts, old(policy.engine.st.hosts), old(NextFsd(policy.engine.st.transactionId)), now, policy.world.history, policy.engine.st);
        return false;
      }
      ok := ExecuteShutdown(now);
    }

    /** What a step that left the engine in its present state entitles this tick to do. */
    ghost predicate MayAct(now: int, d: Decision)
      reads this, policy, policy.engine, policy.world
    {
      && Ready()
      && (policy.engine.st.power in {RestoreHosts, ShutdownCommitted} ==> InTick(policy.world.history, now))
      && (d.action == CommitShutdown ==> policy.engine.st.power == ShutdownCommitted)
      && (d.action == StartRestore ==> policy.engine.st.power == RestoreHosts)
      && (d.action == StopRecovery ==> policy.engine.st.power in {OnBattery, WaitingForAC})
    }

    /** Carries a decision out. */
    method Act(now: int, inp: Inputs, d: Decision) returns (ok: bool)
      requires MayAct(now, d)
      modifies policy.engine, policy.world`history, policy.world`mark, policy.world`ages, policy.world`forced, this
      ensures policy.world.Valid() && CutOf(old(policy.world.mark), policy.world.mark)
      ensures ok ==> Ready() && clock in {old(clock), Some(now)}
      ensures d.action == StopRecovery && old(policy.engine.st.power) == OnBattery ==>
        && (ok ==> Renewed(cfg.hosts, old(policy.engine.st), old(policy.world.Now().issued), policy.engine.st)
                   && SeenAfresh(policy.world.history, cfg.hosts, policy.engine.st.hosts))
        && (InRenewal(old(policy.engine.st)) ==> RenewalSince(old(policy.world.history), policy.world.history))
      ensures !(d.action == StopRecovery && old(policy.engine.st.power) == OnBattery) ==> policy.world.ages == old(policy.world.ages)
      ensures Passive(d, old(policy.engine.st.power)) ==>
        && ok && policy.engine.View() == old(policy.engine.View())
        && policy.world.history == old(policy.world.history) && policy.world.forced == old(policy.world.forced)
      ensures d.action == CommitShutdown || (d.action == NoAction && old(policy.engine.st.power) == ShutdownInProgress) ==>
        PassEnds(cfg.hosts, old(policy.engine.st.hosts), old(NextFsd(policy.engine.st.transactionId)), now, policy.world.history,
          policy.world.forced - old(policy.world.forced), NextFsd(old(policy.engine.st.transactionId)), policy.engine.st, ok)
      ensures (d.action in {NoAction, StartRestore} && old(policy.engine.st.power) == RestoreHosts
               && Faults(policy.world.history) == old(Faults(policy.world.history))) ==>
        ok && RecoveryAdvanced(cfg.hosts, old(policy.world.history), old(policy.engine.st.hosts), policy.world.history, policy.engine.st)
      ensures Blames(old(policy.world.history), policy.world.history, ok)
    {
      hide PassEnds, RecoveryAdvanced, Renewed, SeenAfresh, RenewalSince, InRenewal, Faults, World.Valid, Replay;
      hide BegunThisTick;
      ok := true;
      match d.action {
        case CommitShutdown => ok := CommitAndShutDown(now, inp);
        case StartRestore => ok := ExecuteRecoveryStep(now);
        case StopRecovery =>
          // Given up for an outage, which starts from nothing; given up to wait for power, it is merely dropped.
          if policy.State().power == OnBattery {
            ok := BeginFreshOutage();
          }
        case CommitRecovery =>
        case NoAction =>
          if policy.State().power == ShutdownInProgress {
            ok := ExecuteShutdown(now);
          } else if policy.State().power == RestoreHosts {
            ok := ExecuteRecoveryStep(now);
          }
      }
    }

    /** The rest of a tick, once the step from `before` is durable. */
    method CarryOut(now: int, inp: Inputs, before: PowerState, d: Decision) returns (ok: bool)
      requires EntersOutage(before, policy.engine.st.power) ==> !BegunThisTick(policy.world.history)
      requires MayAct(now, d) && Shape(before, d, policy.engine.st.power) && (d.changed ==> InStep())
      modifies policy.engine, policy.world`history, policy.world`mark, policy.world`ages, policy.world`forced, this
      ensures policy.world.Valid() && CutOf(old(policy.world.mark), policy.world.mark)
      ensures ok ==> Ready() && clock in {old(clock), Some(now)}
      ensures BeginsAfresh(before, d, old(policy.engine.st.power)) && ok ==>
        && Renewed(cfg.hosts, old(policy.engine.st), old(policy.world.Now().issued), policy.engine.st)
        && SeenAfresh(policy.world.history, cfg.hosts, policy.engine.st.hosts)
      ensures !BeginsAfresh(before, d, old(policy.engine.st.power)) && !GoesOn(before, d, old(policy.engine.st.power)) ==>
        policy.world.ages == old(policy.world.ages)
      ensures GoesOn(before, d, old(policy.engine.st.power)) && ok ==>
        KeptOnBoot(policy.world.history, cfg.hosts, old(policy.engine.st), policy.engine.st)
      ensures Renewing(before, d, old(policy.engine.st)) ==> RenewalSince(old(policy.world.history), policy.world.history)
      ensures Passive(d, old(policy.engine.st.power)) && !EntersOutage(before, old(policy.engine.st.power)) ==>
        && ok && policy.engine.View() == old(policy.engine.View())
        && policy.world.history == old(policy.world.history) && policy.world.forced == old(policy.world.forced)
      ensures old(policy.engine.st.power) in {ShutdownCommitted, ShutdownInProgress} ==>
        PassEnds(cfg.hosts, old(policy.engine.st.hosts), old(NextFsd(policy.engine.st.transactionId)), now, policy.world.history,
          policy.world.forced - old(policy.world.forced), NextFsd(old(policy.engine.st.transactionId)), policy.engine.st, ok)
      ensures (old(policy.engine.st.power) == RestoreHosts
               && Faults(policy.world.history) == old(Faults(policy.world.history))) ==>
        ok && RecoveryAdvanced(cfg.hosts, old(policy.world.history), old(policy.engine.st.hosts), policy.world.history, policy.engine.st)
      ensures Blames(old(policy.world.history), policy.world.history, ok)
    {
      hide PassEnds, RecoveryAdvanced, Renewed, SeenAfresh, KeptOnBoot, RenewalSince, InRenewal, World.Valid, Faults;
      hide Controller.Alive, Controller.InStep;
      if EntersOutage(before, policy.State().power) {
        ok := OpenOutage(now, inp, before, d);
      } else {
        ok := Act(now, inp, d);
      }
    }

    /** The same on entering an outage: its snapshot comes first. */
    method OpenOutage(now: int, inp: Inputs, before: PowerState, d: Decision) returns (ok: bool)
      requires !BegunThisTick(policy.world.history)
      requires MayAct(now, d) && Shape(before, d, policy.engine.st.power) && InStep() && EntersOutage(before, policy.engine.st.power)
      modifies policy.engine, policy.world`history, policy.world`mark, policy.world`ages, policy.world`forced, this
      ensures policy.world.Valid() && CutOf(old(policy.world.mark), policy.world.mark)
      ensures ok ==> Ready() && clock in {old(clock), Some(now)}
      ensures BeginsAfresh(before, d, OnBattery) && ok ==>
        && Renewed(cfg.hosts, old(policy.engine.st), old(policy.world.Now().issued), policy.engine.st)
        && SeenAfresh(policy.world.history, cfg.hosts, policy.engine.st.hosts)
      ensures GoesOn(before, d, OnBattery) && ok ==> KeptOnBoot(policy.world.history, cfg.hosts, old(policy.engine.st), policy.engine.st)
      ensures Renewing(before, d, old(policy.engine.st)) ==> RenewalSince(old(policy.world.history), policy.world.history)
      ensures Blames(old(policy.world.history), policy.world.history, ok)
    {
      hide PassEnds, RecoveryAdvanced, Renewed, SeenAfresh, KeptOnBoot, RenewalSince, InRenewal, World.Valid, Faults;
      hide Controller.InStep, Replay, BegunThisTick, WokeSinceStep;
      ok := EnterOutage(before);
      if !ok {
        return false;
      }
      ghost var snapped, st, issued := policy.world.history, policy.engine.st, policy.world.Now().issued;
      if before == BootReconcile {
        KeptGoesOn(snapped, cfg.hosts, old(policy.engine.st), st);
      }
      ok := Act(now, inp, d);
      if BeginsAfresh(before, d, OnBattery) && ok && before == BootReconcile {
        RenewedFrom(cfg.hosts, old(policy.engine.st), old(policy.world.Now().issued), st, issued, policy.engine.st);
      }
      RenewalMayChain(old(policy.world.history), snapped, policy.world.history);
    }

    /**
     * One pass of the control loop: `None` is an error, after which the process ends.
     *
     * A tick promises: a fresh outage, with its own transaction, on exactly the readings that call for one; on all
     * others but the one that resumes an outage, no new transaction and no new snapshot; from recovery, a disk that
     * can finish the renewal wherever a power cut falls; after a restart on such a disk, nobody marked as shut down
     * once an uncommitted outage goes on; and what a waiting transaction waits for, what a shutdown pass cannot get
     * past, and that a safe tick advances the recovery.
     */
    method Tick(now: int, inp: Inputs) returns (decision: Option<Decision>)
      requires Ready() && (clock.Some? ==> clock.value <= now)
      modifies policy.engine, policy.world`history, policy.world`ages, policy.world`forced, policy.world`mark, this
      ensures policy.world.Valid() && CutOf(Then(old(policy.world.history), Stepped(now, inp)), policy.world.mark)
      ensures decision.Some? ==> Ready() && clock == Some(now) && Decides(cfg.policy, old(policy.engine.View()), now, inp, decision.value)
      ensures old(RenewsOutage(cfg.policy, policy.engine.View(), inp.ups)) && decision.Some? ==>
        && Renewed(cfg.hosts, old(policy.engine.st), old(policy.world.Now().issued), policy.engine.st)
        && SeenAfresh(policy.world.history, cfg.hosts, policy.engine.st.hosts)
      ensures old(!RenewsOutage(cfg.policy, policy.engine.View(), inp.ups) && !ResumesOutage(policy.engine.View(), inp.ups)) ==>
        policy.world.ages == old(policy.world.ages)
      ensures old(ResumesOutage(policy.engine.View(), inp.ups)) && decision.Some? ==>
        policy.engine.st.power == OnBattery && !policy.engine.st.shutdownCommitted
        && policy.engine.st.transactionId == old(policy.engine.st.transactionId)
        && (NoneCompleted(old(policy.engine.st.hosts)) ==> NoneCompleted(policy.engine.st.hosts))
        && Snapshotted(cfg.hosts, old(policy.engine.st.hosts), policy.engine.st.hosts)
        && AllSeen(policy.world.history, cfg.hosts, old(policy.engine.st.hosts), policy.engine.st.hosts)
      ensures old(RenewsFrom(inp)) ==> RenewalSince(old(policy.world.history), policy.world.history)
      ensures old(policy.engine.st.power) == BootReconcile && inp.ups.utility == UtilityUnknown ==>
        && decision.Some? && policy.engine.View() == old(policy.engine.View())
        && policy.world.history == Then(old(policy.world.history), Stepped(now, inp))
      ensures decision.Some? ==> WaitsOn(cfg.policy, old(policy.engine.View()), now, inp.ups, decision.value, policy.engine.View())
      ensures old(policy.engine.st.power) == FailedSafe ==>
        policy.world.forced == old(policy.world.forced) && (decision.Some? ==> policy.engine.st == old(policy.engine.st))
      ensures old(Pursues(cfg.policy, policy.engine.View(), now, inp)) ==>
        PassEnds(cfg.hosts, old(policy.engine.st.hosts), old(NextFsd(policy.engine.st.transactionId)), now, policy.world.history,
          policy.world.forced - old(policy.world.forced), NextFsd(old(policy.engine.st.transactionId)), policy.engine.st, decision.Some?)
      ensures (old(LeadsTo(cfg.policy, policy.engine.View(), now, inp, RestoreHosts))
               && Faults(policy.world.history) == old(Faults(policy.world.history))) ==>
        decision.Some? && RecoveryAdvanced(cfg.hosts, Then(old(policy.world.history), Stepped(now, inp)), old(policy.engine.st.hosts),
                                            policy.world.history, policy.engine.st)
      ensures Blames(old(policy.world.history), policy.world.history, decision.Some?)
    {
      hide PassEnds, RecoveryAdvanced, SeenAfresh, RenewalSince, World.Valid, Faults, Controller.Alive, Stands, Step;
      hide FreshRecord, AllSeen, Snapshotted, InRenewal, WokeSinceStep;
      var before := policy.State().power;
      decision := StepPolicy(now, inp);
      if decision.None? {
        NoPassEnds(cfg.hosts, old(policy.engine.st.hosts), old(NextFsd(policy.engine.st.transactionId)), now, policy.world.history, policy.engine.st);
        return;
      }
      ghost var stepped := policy.world.history;
      var ok := CarryOut(now, inp, before, decision.value);
      RenewalMayChain(old(policy.world.history), stepped, policy.world.history);
      TempoAdvances(cfg.hosts, Then(old(policy.world.history), Stepped(now, inp)), stepped, old(policy.engine.st.hosts), policy.world.history, policy.engine.st);
      if !ok {
        decision := None;
      }
    }
  }

  predicate Decides(cfg: Config, m: Memory, now: int, inp: Inputs, d: Decision) {
    var r := Step(cfg, m, now, inp);
    r.Accepted? && r.decision == d
  }

  /** An error has a cause on record. */
  predicate Blames(h0: History, h: History, ok: bool) {
    Faults(h0) <= Faults(h) && (!ok ==> Faults(h0) < Faults(h))
  }

  function TransactionOf(h: History): string {
    if Replay(h).process.None? then "" else Replay(h).process.value.memory.st.transactionId
  }

  /** As Blames, and success leaves the transaction alone. */
  predicate Works(h0: History, h: History, ok: bool) {
    Blames(h0, h, ok) && (ok ==> TransactionOf(h) == TransactionOf(h0))
  }

  /** A transition that only has to be made durable. */
  predicate Passive(d: Decision, power: PowerState) {
    match d.action
    case NoAction => power != ShutdownInProgress && power != RestoreHosts
    case CommitRecovery => true
    case StopRecovery => power != OnBattery
    case _ => false
  }

  /** The step from `before` entered an outage that has to be snapshotted. */
  predicate EntersOutage(before: PowerState, after: PowerState) {
    (before == Normal || before == BootReconcile) && after == OnBattery
  }

  /** That outage, or the end of a recovery, begins a transaction of its own. */
  predicate BeginsAfresh(before: PowerState, d: Decision, after: PowerState) {
    after == OnBattery && (before == Normal || d.action == StopRecovery)
  }

  /** The outage goes on where the last process left it. */
  predicate GoesOn(before: PowerState, d: Decision, after: PowerState) {
    after == OnBattery && before == BootReconcile && d.action == NoAction
  }

  /** What the NUT group makes of a pass: over, or where it left the state. */
  function Verdict(power: PowerState, proceed: bool): PowerState {
    if proceed then WaitingForAC else power
  }

  /**
   * The pass stopped at the `k`-th host of the order: all before it are settled, nobody after it was touched, and
   * what became of it follows from the answers given.
   */
  ghost predicate StoppedAt(h: History, plan: seq<HostConfig>, k: nat, a: Answers, before: HostStates, after: HostStates, outcome: Settling) {
    && k < |plan| && SettledUpTo(plan, k, after) && OnlyChanged(plan, before, after) && AllHeldUpStay(plan, before, after)
    && (forall j :: k < j < |plan| ==> Record(after, plan[j].id) == Record(before, plan[j].id))
    && var pass := SettlePass(plan[k], Record(before, plan[k].id), a);
    && pass.outcome == outcome && Record(after, plan[k].id) == pass.record && Heard(h, plan[k], Record(before, plan[k].id), a)
  }

  /**
   * How a pass over the hosts ends. While one of them cannot be got past, no forced shutdown is requested and the
   * phase is not over; a host that holds the shutdown up goes on doing so. Without errors the pass stops at a
   * directly managed host, to look again or for good, or ends as the NUT group does; without such a group the
   * phase is over.
   */
  ghost predicate PassEnds(hosts: seq<HostConfig>, before: HostStates, next0: Option<int>, now: int, h: History, requested: int,
                           next: Option<int>, st: State, ok: bool)
  {
    && (Obstructed(hosts, before) ==> requested == 0 && (ok ==> st.power != WaitingForAC))
    && (ok ==>
      && AllHeldUpStay(hosts, before, st.hosts)
      && ((Stopped(hosts, before, h, st) && requested == 0 && next == next0)
          || PassCompleted(hosts, before, next0, now, h, requested, next, st)))
  }

  ghost predicate Stopped(hosts: seq<HostConfig>, before: HostStates, h: History, st: State) {
    exists k, a ::
      || (st.power == ShutdownInProgress && StoppedAt(h, ShutdownPlanOf(hosts).preFsd, k, a, before, st.hosts, RetryPending))
      || (st.power == FailedSafe && StoppedAt(h, ShutdownPlanOf(hosts).preFsd, k, a, before, st.hosts, GaveUpSafely))
  }

  /** Every directly managed host is settled, and the pass ends as the NUT group does. */
  ghost predicate PassCompleted(hosts: seq<HostConfig>, before: HostStates, next0: Option<int>, now: int, h: History, requested: int,
                                next: Option<int>, st: State)
  {
    var plan := ShutdownPlanOf(hosts);
    && SettledUpTo(plan.preFsd, |plan.preFsd|, st.hosts)
    && if plan.nutGroup == [] then requested == 0 && next == next0 && st.power == WaitingForAC
       else GroupEnds(plan.nutGroup, before, next0, now, h, requested, next, st.power, st.hosts)
  }

  /** A committed transaction waits, after a restart or for power, and this reading does not renew it. */
  predicate Stands(cfg: Config, m: Memory, ups: Ups) {
    m.st.shutdownCommitted && (m.st.power == BootReconcile || Awaits(m.st.power)) && !RenewsOutage(cfg, m, ups)
  }

  /**
   * A committed transaction that is not renewed stays behind the boot mask while the utility is unknown, and
   * afterwards waits until a recovery is committed.
   */
  predicate WaitsOn(cfg: Config, before: Memory, now: int, ups: Ups, d: Decision, after: Memory) {
    Stands(cfg, before, ups) ==>
      && after.st.shutdownCommitted && (after.onlineSince in {None, before.onlineSince} || (after.onlineSince == Some(now) && ups.utility == UtilityOnline))
      && if before.st.power == BootReconcile && ups.utility == UtilityUnknown then after == before
         else Awaits(after.st.power) || (after.st.power == RecoveryStarted && d.action == CommitRecovery)
  }

  /** The chosen host came closer to its end, or has to wait for the spacing; either way it is on record as selected. */
  ghost predicate ChoiceWorkedOn(hosts: seq<HostConfig>, h0: History, c: HostConfig, before: HostStates, h: History, after: HostStates) {
    && FirstSelection(h).Some?
    && (Work(hosts, after) < Work(hosts, before) || (after == before && TooSoon(h0, hosts, before, c.id) && NothingWoken(h0, h)))
  }

  /** Nobody was woken, and a selection already on record is still the first. */
  predicate NothingWoken(h0: History, h: History) {
    LastWake(h) == LastWake(h0) && (FirstSelection(h0).Some? ==> FirstSelection(h) == FirstSelection(h0))
  }

  ghost predicate Handled(hosts: seq<HostConfig>, h0: History, next: Next, before: HostStates, h: History, st: State) {
    if next.Candidate? then ChoiceWorkedOn(hosts, h0, next.host, before, h, st.hosts)
    else st.hosts == before && (st.power == RestoreHosts ==> h == h0)
  }

  /** Recovery is over, strictly closer to its end, withheld by the spacing between wakes, or stalled. */
  ghost predicate RecoveryAdvanced(hosts: seq<HostConfig>, h0: History, before: HostStates, h: History, st: State) {
    if Stalled(hosts, before) then st.hosts == before && st.power == RestoreHosts
    else
      || st.power == Normal
      || (st.power == RestoreHosts && Work(hosts, st.hosts) < Work(hosts, before) && (FirstSelection(h0).Some? ==> FirstSelection(h).Some?))
      || (st.power == RestoreHosts && st.hosts == before && FirstSelection(h).Some? && NothingWoken(h0, h)
          && exists c :: IsNext(hosts, before, Candidate(c)) && TooSoon(h0, hosts, before, c.id))
  }

  lemma StepAdvances(hosts: seq<HostConfig>, h0: History, before: HostStates, h1: History, between: HostStates,
                     changed: bool, next: Next, h: History, st: State)
    requires SameTempo(h0, h1) && IsNext(hosts, between, next)
    requires if changed then Work(hosts, between) < Work(hosts, before) && !Unblocked(hosts, before, hosts)
             else between == before && (next.Candidate? <==> !Stalled(hosts, before))
    requires st.power == RestoreHosts && !next.CycleDetected?
    requires Handled(hosts, h1, next, between, h, st)
    ensures RecoveryAdvanced(hosts, h0, before, h, st)
  {
  }

  /** What recovery makes of a tick depends on the history before it only through what paces wakes. */
  lemma TempoAdvances(hosts: seq<HostConfig>, h0: History, h1: History, before: HostStates, h: History, st: State)
    ensures SameTempo(h0, h1) && RecoveryAdvanced(hosts, h1, before, h, st) ==> RecoveryAdvanced(hosts, h0, before, h, st)
  {
  }

  /** The step commits a shutdown or goes on with one. */
  predicate Pursues(cfg: Config, m: Memory, now: int, inp: Inputs) {
    LeadsTo(cfg, m, now, inp, ShutdownCommitted) || LeadsTo(cfg, m, now, inp, ShutdownInProgress)
  }

  /** What an attempt means for the pacing of wakes. */
  lemma AttemptPaces(hosts: seq<HostConfig>, c: HostConfig, h0: History, before: HostStates, h: History, after: HostStates)
    requires Attempted(hosts, c, h0, before, h, after)
    ensures RunningConfig(h) == RunningConfig(h0) && LastStep(h) == LastStep(h0) && FirstSelection(h) == FirstSelection(h0)
    ensures LastWake(h) ==
      if Record(after, c.id).wakeAttempts > Record(before, c.id).wakeAttempts then WakeNow(h0, c.id) else LastWake(h0)
  {
  }

  lemma AttemptWorksOn(hosts: seq<HostConfig>, c: HostConfig, tick: History, h0: History, before: HostStates, h: History, after: HostStates)
    requires Attempted(hosts, c, h0, before, h, after) && FirstSelection(h0).Some?
    ensures Faults(h) == Faults(h0) ==> ChoiceWorkedOn(hosts, tick, c, before, h, after)
  {
  }

  lemma RunsSchedulableHosts(h: History, cfg: AgentConfig)
    requires Legal(h) && Replay(h).process.Some? && Replay(h).process.value.cfg == cfg
    ensures UniqueIds(cfg.hosts) && !Cyclic(GraphOf(cfg.hosts))
  {
    LegalIsSound(h);
  }

  function NextAs(next: Option<HostConfig>): Next {
    if next.Some? then Candidate(next.value) else Nobody
  }

  function StepTime(h: History): Option<int> {
    if LastStep(h).None? then None else Some(LastStep(h).value.now)
  }

  predicate SameClock(before: History, after: History) {
    LastWake(after) == LastWake(before) && FirstSelection(after) == FirstSelection(before)
  }

  /** A recovery in progress, or what a power cut left of its renewal, observes unsafe power. */
  predicate Renews(cfg: Config, m: Memory, disk: Option<State>, inp: Inputs) {
    && RecoveryEnabled(cfg)
    && if m.st.power == BootReconcile then disk.Some? && InRenewal(disk.value) && inp.ups.utility == UtilityOnBattery
       else m.st.power in {RecoveryStarted, RestoreHosts} && UnsafeUps(inp.ups)
  }

  /** The outage goes on after a restart: hosts not known before are recorded as they are found, and nobody new counts as shut down. */
  ghost predicate KeptOnBoot(h: History, hosts: seq<HostConfig>, before: State, after: State) {
    && SameButSequence(after, before.(hosts := after.hosts)) && (NoneCompleted(before.hosts) ==> NoneCompleted(after.hosts))
    && Snapshotted(hosts, before.hosts, after.hosts) && AllSeen(h, hosts, before.hosts, after.hosts) && !BegunThisTick(h)
  }

  /** The outage kept on boot is still the same transaction, and as much inside a renewal as before. */
  lemma KeptGoesOn(h: History, hosts: seq<HostConfig>, before: State, after: State)
    requires KeptOnBoot(h, hosts, before, after)
    ensures after.transactionId == before.transactionId && (InRenewal(before) ==> InRenewal(after))
  {
  }

  lemma RenewedFrom(hosts: seq<HostConfig>, st0: State, issued0: set<string>, st1: State, issued1: set<string>, after: State)
    requires Renewed(hosts, st1, issued1, after) && st1.transactionId == st0.transactionId && issued0 <= issued1
    ensures Renewed(hosts, st0, issued0, after)
  {
  }

  /** The step that leaves a recovery for a new outage, with the renewal still to be done or nothing left to renew. */
  predicate Renewing(before: PowerState, d: Decision, st: State) {
    && d.changed && st.power == OnBattery && InRenewal(st) && !st.recoveryStarted
    && if st.shutdownCommitted then d.action == StopRecovery
       else d.action == NoAction && before == BootReconcile && NoneCompleted(st.hosts)
  }

  /** What a decision says about the power state it leaves behind. */
  predicate Shape(before: PowerState, d: Decision, after: PowerState) {
    && (d.action == CommitShutdown ==> d.changed && after == ShutdownCommitted)
    && (d.action == StartRestore ==> d.changed && after == RestoreHosts)
    && (d.action == CommitRecovery ==> d.changed && after == RecoveryStarted)
    && (d.action == StopRecovery ==> d.changed && after in {OnBattery, WaitingForAC})
    && (after == ShutdownCommitted ==> d.action == CommitShutdown) && (after == ShutdownInProgress ==> d.action == NoAction)
    && (d.action == NoAction && after == ShutdownInProgress ==> d.changed || before == ShutdownInProgress)
    && (d.action == NoAction && after == RestoreHosts ==> !d.changed && before == RestoreHosts)
    && (before in {Normal, BootReconcile} && after == OnBattery ==> d.changed)
    && (before == Normal && after == OnBattery ==> d.action == NoAction)
    && (!d.changed && before == RestoreHosts ==> after == RestoreHosts)
  }

  /** The step from this memory leads to this power state. */
  predicate LeadsTo(cfg: Config, m: Memory, now: int, inp: Inputs, power: PowerState) {
    var r := Step(cfg, m, now, inp);
    r.Accepted? && r.memory.st.power == power
  }

  /** What a tick may rely on after a step from memory `m0` to `m1`. */
  predicate Meaning(cfg: Config, m0: Memory, disk: Option<State>, now: int, inp: Inputs, d: Decision, m1: Memory) {
    && Shape(m0.st.power, d, m1.st.power)
    && m1.st.hosts == m0.st.hosts && m1.st.transactionId == m0.st.transactionId && LeadsTo(cfg, m0, now, inp, m1.st.power)
    && (m0.st.power == ShutdownCommitted ==> d.changed && m1.st.power == ShutdownInProgress)
    && (m0.st.power in {ShutdownInProgress, FailedSafe} ==> d == IDLE && m1 == m0)
    && (RenewsOutage(cfg, m0, inp.ups) <==> BeginsAfresh(m0.st.power, d, m1.st.power))
    && (ResumesOutage(m0, inp.ups) <==> GoesOn(m0.st.power, d, m1.st.power))
    && (ResumesOutage(m0, inp.ups) ==> !m1.st.shutdownCommitted)
    && (m0.st.power == RestoreHosts && SafeToWake(cfg, inp) ==> d == IDLE)
    && (m0.st.power == BootReconcile && inp.ups.utility == UtilityUnknown ==> d == IDLE && m1 == m0)
    && (Renews(cfg, m0, disk, inp) ==> Renewing(m0.st.power, d, m1.st))
    && WaitsOn(cfg, m0, now, inp.ups, d, m1)
    && (Stands(cfg, m0, inp.ups) ==> Passive(d, m1.st.power) && !EntersOutage(m0.st.power, m1.st.power))
  }

  lemma StepShape(s: System, now: int, inp: Inputs)
    requires Sound(s) && s.process.Some? && s.process.value.pending.None?
    ensures var p := s.process.value; var r := Step(p.cfg.policy, p.memory, now, inp);
      r.Accepted? && Meaning(p.cfg.policy, p.memory, s.disk, now, inp, r.decision, r.memory)
  {
    var p := s.process.value;
    StepIsAccepted(p.cfg.policy, p.memory, s.disk.value, p.behind, now, inp);
    if Renews(p.cfg.policy, p.memory, s.disk, inp) {
      RenewalStep(s, now, inp);
    }
  }

  lemma StepMeans(h0: History, h: History, now: int, inp: Inputs, decision: Option<Decision>)
    requires Legal(h0) && Replay(h0).process.Some? && Replay(h0).process.value.pending.None?
    requires if decision.Some? then StepEffect(h0, h, now, inp, decision.value) else StepLost(h0, h, now, inp)
    ensures decision.None? ==> !(Replay(h0).process.value.memory.st.power == BootReconcile && inp.ups.utility == UtilityUnknown)
    ensures decision.Some? ==>
      && Replay(h).process.Some?
      && Meaning(Replay(h0).process.value.cfg.policy, Replay(h0).process.value.memory, Replay(h0).disk, now, inp, decision.value,
                 Replay(h).process.value.memory)
  {
    LegalIsSound(h0);
    StepShape(Replay(h0), now, inp);
  }

  lemma RenewalStep(s: System, now: int, inp: Inputs)
    requires Sound(s) && s.process.Some? && s.process.value.pending.None?
    requires Renews(s.process.value.cfg.policy, s.process.value.memory, s.disk, inp)
    ensures var p := s.process.value; var r := Step(p.cfg.policy, p.memory, now, inp);
      && r.Accepted? && Renewing(p.memory.st.power, r.decision, r.memory.st) && r.memory.st.hosts == p.memory.st.hosts
  {
  }

  /** What one coordinator step adds to the history. */
  ghost predicate StepOutcome(h0: History, h: History, now: int, inp: Inputs, decision: Option<Decision>) {
    if decision.None? then Faults(h) > Faults(h0)
    else
      && InTick(h, now) && SameClock(h0, h) && Faults(h) == Faults(h0) && !BegunThisTick(h)
      && SameTempo(Then(h0, Stepped(now, inp)), h)
      && Replay(h0).issued <= Replay(h).issued && RunningConfig(h) == RunningConfig(h0)
      && if decision.value.changed then Steady(Replay(h)) else h == Then(h0, Stepped(now, inp)) && Steady(Replay(h)) == Steady(Replay(h0))
  }

  lemma StepLeavesNothingDue(h0: History, h: History, now: int, inp: Inputs, decision: Option<Decision>)
    requires Legal(h0) && Replay(h0).process.Some? && Replay(h0).process.value.pending.None? && !ResumeIsDue(Replay(h0))
    requires decision.Some? ==> StepEffect(h0, h, now, inp, decision.value)
    ensures decision.Some? ==> !ResumeIsDue(Replay(h))
  {
    LegalIsSound(h0);
  }

  lemma StepFacts(h0: History, h: History, now: int, inp: Inputs, decision: Option<Decision>)
    requires Legal(h0) && Replay(h0).process.Some? && Replay(h0).process.value.pending.None?
    requires if decision.Some? then StepEffect(h0, h, now, inp, decision.value) else StepLost(h0, h, now, inp)
    ensures StepOutcome(h0, h, now, inp, decision)
  {
  }

  lemma StepRenewal(h0: History, h: History, now: int, inp: Inputs, decision: Option<Decision>)
    requires Legal(h0) && Replay(h0).process.Some? && Replay(h0).process.value.pending.None?
    requires if decision.Some? then StepEffect(h0, h, now, inp, decision.value) else StepLost(h0, h, now, inp)
    ensures Replay(h0).disk.Some?
    ensures Renews(Replay(h0).process.value.cfg.policy, Replay(h0).process.value.memory, Replay(h0).disk, inp) ==> RenewalSince(h0, h)
  {
    StepKeepsRenewal(h0, now, inp);
  }

  lemma StepKeepsRenewal(h: History, now: int, inp: Inputs)
    requires Legal(h) && Replay(h).process.Some? && Replay(h).process.value.pending.None?
    ensures var s := Replay(h); var p := s.process.value; var stepped := Then(h, Stepped(now, inp));
      var r := Step(p.cfg.policy, p.memory, now, inp);
      s.disk.Some? && (Renews(p.cfg.policy, p.memory, s.disk, inp) ==>
        && r.Accepted? && r.decision.changed
        && RenewalSince(h, stepped)
        && forall outcome :: RenewalSince(h, Then(stepped, Write(Stamped(s, r.memory.st), Decided, outcome))))
  {
    LegalIsSound(h);
    if Renews(Replay(h).process.value.cfg.policy, Replay(h).process.value.memory, Replay(h).disk, inp) {
      RenewalStep(Replay(h), now, inp);
    }
  }

  /** A snapshot claims nothing and says what was seen, so it may be written whenever an outage stands. */
  lemma SnapshotMayBeWritten(h: History, states: HostStates)
    requires Legal(h) && Replay(h).process.Some? && Replay(h).process.value.pending.None?
    requires var p := Replay(h).process.value;
      p.memory.st.power == OnBattery && Snapshotted(p.cfg.hosts, p.memory.st.hosts, states) && AllSeen(h, p.cfg.hosts, p.memory.st.hosts, states)
    ensures Witnessed(h, states)
    ensures WriteAllowed(Replay(h), Stamped(Replay(h), Replay(h).process.value.memory.st.(hosts := states)), HostRecords)
  {
    LegalIsSound(h);
    SnapshotIsAllowed(Replay(h).process.value.cfg.hosts, Replay(h).process.value.memory.st, states);
    SnapshotIsWitnessed(h, states);
  }

  lemma SnapshotIsWitnessed(h: History, states: HostStates)
    requires Replay(h).process.Some?
    requires var p := Replay(h).process.value;
      p.memory.st.power == OnBattery && Snapshotted(p.cfg.hosts, p.memory.st.hosts, states) && AllSeen(h, p.cfg.hosts, p.memory.st.hosts, states)
    ensures Witnessed(h, states)
  {
    var p := Replay(h).process.value;
    SnapshotIsAllowed(p.cfg.hosts, p.memory.st, states);
    forall id | id in states ensures SnapshotWitnessed(h, p.cfg.hosts, Record(p.memory.st.hosts, id), states[id], id) {
    }
  }

  /** What the snapshot says of every host is what was seen on this tick. */
  ghost predicate AllSeen(h: History, hosts: seq<HostConfig>, before: HostStates, after: HostStates) {
    forall c :: c in hosts ==> SnapshotSeen(h, c, Record(before, c.id), Record(after, c.id))
  }

  lemma SeenAfterWrite(h0: History, h: History, ok: bool, hosts: seq<HostConfig>, before: HostStates, after: HostStates)
    requires HostsWritten(h0, h, ok) && AllSeen(h0, hosts, before, after)
    ensures AllSeen(h, hosts, before, after) && BegunThisTick(h) == BegunThisTick(h0)
  {
    forall c | c in hosts ensures SnapshotSeen(h, c, Record(before, c.id), Record(after, c.id)) {
      assert SameCount(h0, h, c.id) && SnapshotSeen(h0, c, Record(before, c.id), Record(after, c.id));
    }
  }

  /** Every host of a new outage was looked at, and is recorded as it was found. */
  ghost predicate SeenAfresh(h: History, hosts: seq<HostConfig>, states: HostStates) {
    forall c :: c in hosts ==>
      if c.hasAddress && c.statusMethod != "none" then
        ReadingThisTick(h, c.id).Some? && Record(states, c.id).wasOnline == ReadingThisTick(h, c.id).value
      else Record(states, c.id).wasOnline.None?
  }

  lemma EmptySnapshotIsSeen(h: History, hosts: seq<HostConfig>, after: HostStates)
    requires AllSeen(h, hosts, map[], after) && BegunThisTick(h)
    ensures SeenAfresh(h, hosts, after)
  {
    forall c | c in hosts ensures SnapshotSeen(h, c, BLANK, Record(after, c.id)) {
    }
  }

  /** The host whose turn it is has the record it had. */
  lemma SnappedSoFar(hosts: seq<HostConfig>, i: nat, before: HostStates, states: HostStates)
    requires UniqueIds(hosts) && i < |hosts| && Snapshotted(hosts[..i], before, states)
    ensures Record(states, hosts[i].id) == Record(before, hosts[i].id)
  {
    assert forall x :: x in hosts[..i] ==> x.id != hosts[i].id;
  }

  lemma SeeOneMore(hosts: seq<HostConfig>, i: nat, h0: History, h: History, before: HostStates, states: HostStates, after: HostStates)
    requires UniqueIds(hosts) && i < |hosts| && AllSeen(h0, hosts[..i], before, states)
    requires SnapshotSeen(h, hosts[i], Record(before, hosts[i].id), Record(after, hosts[i].id))
    requires SameCountsBut(h0, h, hosts[i].id) && forall x :: x != hosts[i].id ==> Record(after, x) == Record(states, x)
    requires BegunThisTick(h) == BegunThisTick(h0)
    ensures AllSeen(h, hosts[..i + 1], before, after)
  {
    assert hosts[..i + 1] == hosts[..i] + [hosts[i]];
    forall c | c in hosts[..i + 1] ensures SnapshotSeen(h, c, Record(before, c.id), Record(after, c.id)) {
      if c in hosts[..i] {
        assert c.id != hosts[i].id && SameCount(h0, h, c.id) && SnapshotSeen(h0, c, Record(before, c.id), Record(states, c.id));
      }
    }
  }

  /** The tick opened by the engine step at `now` has not woken anybody yet. */
  predicate InTick(h: History, now: int) {
    LastStep(h).Some? && LastStep(h).value.now == now && !WokeSinceStep(h)
  }

  /** Selecting a host moves nothing but, once, the memory of the first selection. */
  lemma SelectionIsNoted(h: History, id: string)
    requires Replay(h).process.Some? && LastStep(h).Some?
    ensures var p := Replay(h).process.value; var noted := Then(h, Selected(id));
      && Replay(noted) == Replay(h) && LastStep(noted) == LastStep(h) && LastWake(noted) == LastWake(h)
      && WokeSinceStep(noted) == WokeSinceStep(h) && Faults(noted) == Faults(h)
      && FirstSelection(noted) == if FirstSelection(h).Some? then FirstSelection(h)
           else Some(Selection(LastStep(h).value.now, PriorWake(p.memory.st.hosts) && WakeDelay(p.cfg.hosts, id) > 0))
  {
  }

  /** The configured spacing keeps `id` waiting on this tick. */
  predicate TooSoon(h: History, hosts: seq<HostConfig>, states: HostStates, id: string) {
    LastStep(h).Some? &&
    var now, delay := LastStep(h).value.now, WakeDelay(hosts, id);
    delay > 0 &&
    if LastWake(h).Some? then id != LastWake(h).value.1 && now - LastWake(h).value.0 < delay
    else if FirstSelection(h).None? then PriorWake(states)
    else FirstSelection(h).value.resuming && id != RESUME_MARKER && now - FirstSelection(h).value.at < delay
  }

  /** Sending a shutdown moves nothing but the record of what was asked. */
  lemma SendingIsQuiet(h: History, id: string, reply: Option<Disposition>)
    requires Replay(h).process.Some?
    ensures var sent := Then(h, ShutdownSent(id, reply)); Replay(sent) == Replay(h) && SameTempo(h, sent)
  {
  }

  predicate JustAsked(h: History, id: string, reply: Option<Disposition>) {
    h.Then? && h.last == ShutdownSent(id, reply)
  }

  /** The request to `c` was answered so, and an accepted one was followed up by looking where that is possible. */
  predicate Followed(h: History, c: HostConfig, reply: Option<Disposition>, wentDown: bool) {
    && ReplyThisTick(h, c.id) == Some(reply)
    && (reply == Some(DirectRequested) && Verifiable(c) ==> ReadingThisTick(h, c.id) == Some(if wentDown then Some(false) else None))
  }

  /** Looking what became of an earlier request is the pass, unless the host was seen running. */
  lemma ReconcileIsPass(h: History, c: HostConfig, hs: HostState, reading: Option<bool>)
    requires Pending(hs) && (Verifiable(c) ==> reading != Some(true) && ReadingThisTick(h, c.id) == Some(reading))
    ensures var a := Answers(reading, None, false);
      && SettlePass(c, hs, a) == (if Verifiable(c) && reading == Some(false) then Pass(HostSettled, hs.(shutdownState := Completed))
                                  else Pass(RetryPending, hs.(shutdownState := Unverified)))
      && Heard(h, c, hs, a)
  {
    assert reading.Some? && Verifiable(c) ==> reading.value == false;
  }

  /** And if it was, the pursuit is. */
  lemma PursuitIsPass(h0: History, h: History, c: HostConfig, hs: HostState, reply: Option<Disposition>, wentDown: bool)
    requires Pending(hs) && Verifiable(c) && JustSeen(h0, c.id, true)
    requires if hs.shutdownAttempts >= MAX_DIRECT_SHUTDOWN_ATTEMPTS then SameCount(h0, h, c.id) else Followed(h, c, reply, wentDown)
    ensures var a := Answers(Some(true), reply, wentDown); SettlePass(c, hs, a) == Pursued(c, hs, reply, wentDown) && Heard(h, c, hs, a)
  {
  }

  /** The answers a pass over `c` went by are those that were given. */
  predicate Heard(h: History, c: HostConfig, before: HostState, a: Answers) {
    if SettlePass(c, before, a).record.shutdownAttempts == before.shutdownAttempts then
      Pending(before) && Verifiable(c) ==> ReadingThisTick(h, c.id) == Some(a.reading)
    else Followed(h, c, a.reply, a.wentDown)
  }

  /** Cascading failures only touches recovery states, which is always a permitted host write. */
  lemma CascadeIsAllowed(h: History, hosts: seq<HostConfig>, states: HostStates)
    requires Replay(h).process.Some? && Replay(h).process.value.memory.st.power == RestoreHosts && Replay(h).process.value.cfg.hosts == hosts
    requires Cascaded(hosts, Replay(h).process.value.memory.st.hosts, states)
    ensures MayWriteHosts(h, states)
  {
    forall id | id in states ensures CascadeIsWitnessed(h, states, id) {
      OneCascadeIsWitnessed(h, hosts, states, id);
    }
  }

  /** One record of a cascade says no more than what is known. */
  ghost predicate CascadeIsWitnessed(h: History, states: HostStates, id: string)
    requires Replay(h).process.Some? && id in states
  {
    var p := Replay(h).process.value;
    && ClaimWitnessed(h, Record(p.memory.st.hosts, id), states[id], id, false)
    && ClaimWitnessed(h, Record(p.memory.st.hosts, id), states[id], id, true)
    && RecordWitnessed(h, p.cfg.hosts, Record(p.memory.st.hosts, id), states, id)
  }

  lemma OneCascadeIsWitnessed(h: History, hosts: seq<HostConfig>, states: HostStates, id: string)
    requires Replay(h).process.Some? && id in states && Replay(h).process.value.cfg.hosts == hosts
    requires CascadedRecord(hosts, Replay(h).process.value.memory.st.hosts, states, id)
    ensures CascadeIsWitnessed(h, states, id)
  {
  }

  /** One more request may be recorded for this host: fewer than three so far, and a repeat only if it was just seen online. */
  predicate MayAsk(h: History, c: HostConfig, hs: HostState) {
    && hs.shutdownState !in {Completed, NotRequired, Failed} && hs.shutdownAttempts < MAX_DIRECT_SHUTDOWN_ATTEMPTS
    && (!Untouched(hs) ==> h.Then? && h.last == Probed(c.id, Some(true)))
  }

  lemma RecordedTwice(states: HostStates, id: string, first: HostState, second: HostState)
    ensures states[id := first][id := second] == states[id := second]
  {
  }

  /** Every host up to the `k`-th could be got past. */
  predicate PassableUpTo(plan: seq<HostConfig>, k: nat, states: HostStates) {
    k <= |plan| && forall j :: 0 <= j < k ==> GetsPast(plan[j], Record(states, plan[j].id))
  }

  /** A pass that began at `start` has settled the first `k` hosts and not yet come to the others. */
  ghost predicate PassedUpTo(plan: seq<HostConfig>, k: nat, start: HostStates, states: HostStates) {
    && SettledUpTo(plan, k, states) && PassableUpTo(plan, k, start) && AllHeldUpStay(plan, start, states) && OnlyChanged(plan, start, states)
    && forall j :: k <= j < |plan| ==> Record(states, plan[j].id) == Record(start, plan[j].id)
  }

  /** What the pass over the `k`-th host means for the others and for itself. */
  lemma OneHostPassed(hosts: seq<HostConfig>, k: nat, start: HostStates, before: HostStates, h: History, after: HostStates, a: Answers)
    requires UniqueIds(hosts) && k < |ShutdownPlanOf(hosts).preFsd| && PassedUpTo(ShutdownPlanOf(hosts).preFsd, k, start, before)
    requires var c := ShutdownPlanOf(hosts).preFsd[k];
      Became(c, before, after, SettlePass(c, Record(before, c.id), a)) && Heard(h, c, Record(before, c.id), a)
    ensures var plan := ShutdownPlanOf(hosts).preFsd; var outcome := SettlePass(plan[k], Record(before, plan[k].id), a).outcome;
      && (outcome == HostSettled ==> PassedUpTo(plan, k + 1, start, after))
      && StoppedAt(h, plan, k, a, start, after, outcome)
  {
    ShutdownPlanPartitions(hosts);
    var plan := ShutdownPlanOf(hosts).preFsd;
    var c := plan[k];
    assert c in [c];
    PassSettles(c, before, after, a);
    SomeAnswersGetPast(c, Record(before, c.id));
    EarlierHostsStaySettled(hosts, k, before, after);
    forall j | 0 <= j < |plan| && j != k ensures Record(after, plan[j].id) == Record(before, plan[j].id) {
      assert plan[j].id != c.id;
    }
  }

  /** What holds of every host of the order holds of every directly managed host; nobody else was touched. */
  lemma PlanCoversHosts(hosts: seq<HostConfig>, before: HostStates, after: HostStates)
    requires UniqueIds(hosts)
    ensures var plan := ShutdownPlanOf(hosts).preFsd;
      && (AllHeldUpStay(plan, before, after) ==> AllHeldUpStay(hosts, before, after))
      && (Obstructed(hosts, before) ==> !PassableUpTo(plan, |plan|, before))
    ensures OnlyChanged(ShutdownPlanOf(hosts).preFsd, before, after) ==>
      forall h :: h in ShutdownPlanOf(hosts).nutGroup ==> Record(after, h.id) == Record(before, h.id)
  {
    ShutdownPlanPartitions(hosts);
  }

  lemma NoPassEnds(hosts: seq<HostConfig>, before: HostStates, next: Option<int>, now: int, h: History, st: State)
    ensures PassEnds(hosts, before, next, now, h, 0, next, st, false)
  {
  }

  /** With a NUT-managed host configured, a pass ends the phase only with exactly one forced shutdown, which was accepted. */
  lemma CompletedPassIsForced(hosts: seq<HostConfig>, c: HostConfig, before: HostStates, next0: Option<int>, now: int, h: History, requested: int,
                              next: Option<int>, st: State)
    requires UniqueIds(hosts) && c in hosts && c.shutdownMethod == "nut"
    requires PassEnds(hosts, before, next0, now, h, requested, next, st, true) && st.power == WaitingForAC
    ensures requested == 1 && FsdThisTick(h) == Some(true)
  {
    PlanMembers(hosts, c);
  }

  /** Why a directly managed host stops a pass: it has to be looked at again, or it has failed. */
  lemma StoppedAtSomebody(hosts: seq<HostConfig>, k: nat, a: Answers, before: HostStates, h: History, after: HostStates, outcome: Settling)
    requires UniqueIds(hosts) && StoppedAt(h, ShutdownPlanOf(hosts).preFsd, k, a, before, after, outcome)
    ensures outcome == RetryPending ==> AwaitsAnotherLook(hosts, after)
    ensures outcome == GaveUpSafely ==> SomebodyFailed(hosts, before, after)
  {
    hide Heard, AllHeldUpStay, OnlyChanged, SettledUpTo, ShutdownPlanOf;
    var c := ShutdownPlanOf(hosts).preFsd[k];
    PlanMembers(hosts, c);
    assert outcome == GaveUpSafely ==> FailedInVain(Record(before, c.id), Record(after, c.id));
  }

  lemma PlanMembers(hosts: seq<HostConfig>, c: HostConfig)
    requires UniqueIds(hosts)
    ensures c in ShutdownPlanOf(hosts).preFsd <==> c in hosts && c.shutdownMethod !in {"nut", "none", ""}
    ensures c in ShutdownPlanOf(hosts).nutGroup <==> c in hosts && c.shutdownMethod == "nut"
  {
    ShutdownPlanPartitions(hosts);
  }

  predicate AwaitsAnotherLook(hosts: seq<HostConfig>, states: HostStates) {
    exists c :: c in hosts && c.shutdownMethod !in {"nut", "none", ""} && Record(states, c.id).shutdownState == Unverified
  }

  predicate SomebodyFailed(hosts: seq<HostConfig>, before: HostStates, after: HostStates) {
    exists c :: c in hosts && c.shutdownMethod !in {"nut", "none", ""} && FailedInVain(Record(before, c.id), Record(after, c.id))
  }

  /** It failed already, or has been asked three times. */
  predicate FailedInVain(before: HostState, after: HostState) {
    after.shutdownState == Failed && (before.shutdownState == Failed || after.shutdownAttempts >= 3)
  }

  predicate SomebodySpent(hosts: seq<HostConfig>, states: HostStates) {
    exists c :: c in hosts && c.shutdownMethod == "nut" && Record(states, c.id).shutdownAttempts >= 6
  }

  /**
   * A pass that leaves the shutdown in progress has to look at a directly managed host again, or waits until the UPS
   * may be asked again, or was just refused.
   */
  lemma PendingPassHasCause(hosts: seq<HostConfig>, before: HostStates, next0: Option<int>, now: int, h: History, requested: int,
                            next: Option<int>, st: State)
    requires UniqueIds(hosts) && PassEnds(hosts, before, next0, now, h, requested, next, st, true) && st.power == ShutdownInProgress
    ensures
      || (requested == 0 && AwaitsAnotherLook(hosts, st.hosts))
      || (requested == 0 && next0.Some? && now < next0.value)
      || (requested == 1 && FsdThisTick(h) == Some(false))
  {
    hide StoppedAt, AllHeldUpStay, Obstructed, AllSeenOr, AllLookedAt, NoneSpent, RetryIsSet, AwaitsAnotherLook;
    hide SettledUpTo;
    if k, a :| StoppedAt(h, ShutdownPlanOf(hosts).preFsd, k, a, before, st.hosts, RetryPending) {
      StoppedAtSomebody(hosts, k, a, before, h, st.hosts, RetryPending);
    }
  }

  /** A pass fails safe only over a host asked three times in vain, or a NUT-managed one asked six times. */
  lemma FailedPassHasCause(hosts: seq<HostConfig>, before: HostStates, next0: Option<int>, now: int, h: History, requested: int,
                           next: Option<int>, st: State)
    requires UniqueIds(hosts) && PassEnds(hosts, before, next0, now, h, requested, next, st, true) && st.power == FailedSafe
    ensures requested == 0 && (SomebodySpent(hosts, before) || SomebodyFailed(hosts, before, st.hosts))
  {
    hide StoppedAt, AllHeldUpStay, Obstructed, AllSeenOr, AllLookedAt, RetryIsSet, SettledUpTo, ShutdownPlanOf;
    hide SomebodyFailed;
    var plan := ShutdownPlanOf(hosts);
    if k, a :| StoppedAt(h, plan.preFsd, k, a, before, st.hosts, GaveUpSafely) {
      StoppedAtSomebody(hosts, k, a, before, h, st.hosts, GaveUpSafely);
    } else {
      var c :| c in plan.nutGroup && Record(before, c.id).shutdownAttempts >= 6;
      PlanMembers(hosts, c);
    }
  }

  /** A host the pass had to stop at could not be got past. */
  lemma StoppedPassEnds(hosts: seq<HostConfig>, k: nat, a: Answers, before: HostStates, next: Option<int>, now: int, h: History, st: State,
                        outcome: Settling)
    requires UniqueIds(hosts) && outcome in {RetryPending, GaveUpSafely}
    requires st.power == if outcome == GaveUpSafely then FailedSafe else ShutdownInProgress
    requires StoppedAt(h, ShutdownPlanOf(hosts).preFsd, k, a, before, st.hosts, outcome)
    ensures PassEnds(hosts, before, next, now, h, 0, next, st, true)
  {
    PlanCoversHosts(hosts, before, st.hosts);
  }

  predicate SettledUpTo(plan: seq<HostConfig>, k: nat, states: HostStates) {
    k <= |plan| && forall j :: 0 <= j < k ==> Settled(plan[j], states)
  }

  lemma WholePlanSettled(cfg: AgentConfig, start: HostStates, states: HostStates)
    requires UniqueIds(cfg.hosts)
    requires var plan := ShutdownPlanOf(cfg.hosts).preFsd; PassedUpTo(plan, |plan|, start, states)
    ensures AllDirectSettled(cfg, states)
    ensures ShutdownPlanOf(cfg.hosts).nutGroup == [] ==> forall h :: h in cfg.hosts ==> !NutManaged(h)
  {
    ShutdownPlanPartitions(cfg.hosts);
  }

  /** Some hosts that were not down are now recorded as failed; nothing else has changed. */
  ghost predicate GivesUp(before: HostStates, after: HostStates) {
    before.Keys <= after.Keys && forall id :: id in after ==> FailedIfOutstanding(Record(before, id), after[id])
  }

  predicate FailedIfOutstanding(before: HostState, after: HostState) {
    after == before || (before.shutdownState != Completed && after == before.(shutdownState := Failed))
  }

  /** A member that is not Completed has one more attempt on record; a Completed one is left alone. */
  predicate Requested1(h: HostConfig, before: HostState, after: HostState) {
    after == if before.shutdownState == Completed then before else AskedOnceMore(before)
  }

  /** How one group member's record may change in a pass over the group. */
  type Change = (HostConfig, HostState, HostState) -> bool

  predicate AcknowledgedIfRequested(h: HostConfig, before: HostState, after: HostState) {
    after == if before.shutdownState == Requested then before.(shutdownState := Acknowledged) else before
  }

  predicate UnverifiedUnlessCompleted(h: HostConfig, before: HostState, after: HostState) {
    after == if before.shutdownState == Completed then before else before.(shutdownState := Unverified)
  }

  predicate VerifiedIfPossible(h: HostConfig, before: HostState, after: HostState) {
    if before.shutdownState == Completed || !Verifiable(h) then after == before
    else after in {before.(shutdownState := Completed), before.(shutdownState := Unverified)}
  }

  predicate CompletedAtMost(h: HostConfig, before: HostState, after: HostState) {
    after == before || (Verifiable(h) && after == before.(shutdownState := Completed))
  }

  predicate VerifiedAfterAcknowledged(h: HostConfig, before: HostState, after: HostState) {
    var between := if before.shutdownState == Requested then before.(shutdownState := Acknowledged) else before;
    VerifiedIfPossible(h, between, after)
  }

  /** One more request was made, and what could be observed of it was. */
  predicate ForcedDown(h: HostConfig, before: HostState, after: HostState) {
    var asked := before.(shutdownAttempts := before.shutdownAttempts + 1);
    if before.shutdownState == Completed then after == before
    else if Verifiable(h) then after in {asked.(shutdownState := Completed), asked.(shutdownState := Unverified)}
    else after == asked.(shutdownState := Acknowledged)
  }

  /** One more request was made in vain. */
  predicate ForceRefused(h: HostConfig, before: HostState, after: HostState) {
    after == if before.shutdownState == Completed then before
             else before.(shutdownState := Unverified, shutdownAttempts := before.shutdownAttempts + 1)
  }

  predicate FailedUnlessCompleted(h: HostConfig, before: HostState, after: HostState) {
    after == if before.shutdownState == Completed then before else before.(shutdownState := Failed)
  }

  predicate Unchanged(h: HostConfig, before: HostState, after: HostState) {
    after == before
  }

  ghost predicate AllChanged(some: seq<HostConfig>, before: HostStates, after: HostStates, change: Change) {
    forall h :: h in some ==> change(h, Record(before, h.id), Record(after, h.id))
  }

  /** One pass over `group` has made this change to its members and touched nobody else. */
  ghost predicate Passed(group: seq<HostConfig>, before: HostStates, after: HostStates, change: Change) {
    OnlyChanged(group, before, after) && AllChanged(group, before, after, change)
  }

  lemma NothingChanged(group: seq<HostConfig>, states: HostStates)
    ensures OnlyChanged(group, states, states)
  {
  }

  lemma PassedTwice(group: seq<HostConfig>, before: HostStates, between: HostStates, after: HostStates, first: Change, second: Change, both: Change)
    requires Passed(group, before, between, first) && Passed(group, between, after, second)
    requires forall h: HostConfig, b: HostState, m: HostState, a: HostState :: first(h, b, m) && second(h, m, a) ==> both(h, b, a)
    ensures Passed(group, before, after, both)
  {
    forall h | h in group ensures both(h, Record(before, h.id), Record(after, h.id)) {
      assert first(h, Record(before, h.id), Record(between, h.id)) && second(h, Record(between, h.id), Record(after, h.id));
    }
  }

  // -------------------------------------------------------------- how a pass ends

  /** No member has been asked six times. */
  predicate NoneSpent(group: seq<HostConfig>, states: HostStates) {
    forall h :: h in group ==> Record(states, h.id).shutdownAttempts < 6
  }

  predicate IsMost(group: seq<HostConfig>, states: HostStates, most: nat) {
    && (forall h :: h in group ==> Record(states, h.id).shutdownAttempts <= most)
    && (most == 0 || exists h :: h in group && Record(states, h.id).shutdownAttempts == most)
  }

  /** The members have changed so, or were seen to be off before anything was done. */
  ghost predicate AllSeenOr(group: seq<HostConfig>, before: HostStates, after: HostStates, change: Change) {
    forall h :: h in group ==>
      || change(h, Record(before, h.id), Record(after, h.id))
      || (Verifiable(h) && Record(after, h.id) == Record(before, h.id).(shutdownState := Completed))
  }

  /**
   * How the part of a pass ends that concerns the NUT group: for good once attempts are used up, with nothing done
   * before the next attempt is due, or with exactly one forced shutdown, which ends the phase if it is accepted.
   */
  ghost predicate GroupEnds(group: seq<HostConfig>, before: HostStates, next0: Option<int>, now: int, h: History, requested: int,
                            next: Option<int>, verdict: PowerState, after: HostStates)
  {
    && AllLookedAt(h, group, after)
    && if !NoneSpent(group, before) then verdict == FailedSafe && requested == 0 && AllSeenOr(group, before, after, FailedUnlessCompleted)
       else if next0.Some? && now < next0.value then
         verdict == ShutdownInProgress && requested == 0 && next == next0 && AllSeenOr(group, before, after, Unchanged)
       else
         && requested == 1 && FsdThisTick(h) == Some(verdict == WaitingForAC)
         && if verdict == WaitingForAC then next.None? && AllSeenOr(group, before, after, ForcedDown)
            else verdict == ShutdownInProgress && AllSeenOr(group, before, after, ForceRefused) && RetryIsSet(group, before, now, next)
  }

  /** The next attempt is due after a delay that grows with the number of attempts made. */
  ghost predicate RetryIsSet(group: seq<HostConfig>, before: HostStates, now: int, next: Option<int>) {
    exists most: nat :: IsMost(group, before, most) && next == Some(now + RetryDelay(most + 1))
  }

  lemma MostDecides(group: seq<HostConfig>, states: HostStates, most: nat)
    requires IsMost(group, states, most)
    ensures NoneSpent(group, states) <==> most < 6
  {
  }

  lemma GivenUpEnds(group: seq<HostConfig>, before: HostStates, next: Option<int>, now: int, h: History, after: HostStates)
    requires !NoneSpent(group, before) && AllLookedAt(h, group, after) && Passed(group, before, after, FailedUnlessCompleted)
    ensures GroupEnds(group, before, next, now, h, 0, next, FailedSafe, after)
  {
  }

  lemma NotDueEnds(group: seq<HostConfig>, states: HostStates, next: Option<int>, now: int, h: History)
    requires NoneSpent(group, states) && next.Some? && now < next.value && AllLookedAt(h, group, states)
    ensures GroupEnds(group, states, next, now, h, 0, next, ShutdownInProgress, states) && OnlyChanged(group, states, states)
  {
  }

  lemma ForcedEnds(group: seq<HostConfig>, before: HostStates, next0: Option<int>, now: int, h: History, accepted: bool, next: Option<int>,
                   attempts: nat, after: HostStates)
    requires NoneSpent(group, before) && IsMost(group, before, attempts) && !(next0.Some? && now < next0.value)
    requires AllLookedAt(h, group, after) && FsdThisTick(h) == Some(accepted)
    requires Passed(group, before, after, if accepted then ForcedDown else ForceRefused)
    requires next == if accepted then None else Some(now + RetryDelay(attempts + 1))
    ensures GroupEnds(group, before, next0, now, h, 1, next, Verdict(ShutdownInProgress, accepted), after)
  {
  }

  lemma PreparedGroupEnds(group: seq<HostConfig>, before: HostStates, prepared: HostStates, next0: Option<int>, now: int, h: History,
                          requested: int, next: Option<int>, verdict: PowerState, after: HostStates)
    requires AllChanged(group, before, prepared, CompletedAtMost)
    requires GroupEnds(group, prepared, next0, now, h, requested, next, verdict, after)
    ensures GroupEnds(group, before, next0, now, h, requested, next, verdict, after)
  {
    PreparedThen(group, before, prepared, after, FailedUnlessCompleted);
    PreparedThen(group, before, prepared, after, Unchanged);
    PreparedThen(group, before, prepared, after, ForcedDown);
    PreparedThen(group, before, prepared, after, ForceRefused);
    PreparedCounts(group, before, prepared, now, next);
  }

  lemma PreparedCounts(group: seq<HostConfig>, before: HostStates, prepared: HostStates, now: int, next: Option<int>)
    requires AllChanged(group, before, prepared, CompletedAtMost)
    ensures NoneSpent(group, before) <==> NoneSpent(group, prepared)
    ensures RetryIsSet(group, prepared, now, next) ==> RetryIsSet(group, before, now, next)
  {
    forall h | h in group ensures Record(prepared, h.id).shutdownAttempts == Record(before, h.id).shutdownAttempts {
      assert CompletedAtMost(h, Record(before, h.id), Record(prepared, h.id));
    }
    forall most: nat | IsMost(group, prepared, most) ensures IsMost(group, before, most) {
    }
  }

  /** A change that leaves members alone that are down. */
  ghost predicate SparesCompleted(change: Change) {
    forall h: HostConfig, b: HostState, a: HostState :: change(h, b, a) && b.shutdownState == Completed ==> a == b
  }

  lemma PreparedThen(group: seq<HostConfig>, before: HostStates, prepared: HostStates, after: HostStates, change: Change)
    requires AllChanged(group, before, prepared, CompletedAtMost) && SparesCompleted(change)
    ensures AllSeenOr(group, prepared, after, change) ==> AllSeenOr(group, before, after, change)
  {
    forall h | h in group ensures CompletedAtMost(h, Record(before, h.id), Record(prepared, h.id)) {
    }
  }

  /** A second look at the records after the request, as one change since before it. */
  lemma ForceCounts(group: seq<HostConfig>, before: HostStates, requested: HostStates, after: HostStates, accepted: bool)
    requires Passed(group, before, requested, Requested1)
    requires Passed(group, requested, after, if accepted then VerifiedAfterAcknowledged else UnverifiedUnlessCompleted)
    ensures Passed(group, before, after, if accepted then ForcedDown else ForceRefused)
  {
    if accepted {
      PassedTwice(group, before, requested, after, Requested1, VerifiedAfterAcknowledged, ForcedDown);
    } else {
      PassedTwice(group, before, requested, after, Requested1, UnverifiedUnlessCompleted, ForceRefused);
    }
  }

  /** How a pass ends that has come past every directly managed host: had one obstructed it, it could not have. */
  lemma FinishedPassEnds(hosts: seq<HostConfig>, before: HostStates, settled: HostStates, next0: Option<int>, now: int, h: History,
                         requested: int, next: Option<int>, st: State, ok: bool)
    requires UniqueIds(hosts)
    requires var plan := ShutdownPlanOf(hosts).preFsd; PassedUpTo(plan, |plan|, before, settled)
    requires ok ==>
      OnlyChanged(ShutdownPlanOf(hosts).nutGroup, settled, st.hosts) && PassCompleted(hosts, before, next0, now, h, requested, next, st)
    ensures PassEnds(hosts, before, next0, now, h, requested, next, st, ok)
  {
    PlanCoversHosts(hosts, before, settled);
    if ok {
      DirectStaySettled(hosts, before, settled, st.hosts);
    }
  }

  /** The pass ends as the NUT group does. */
  lemma GroupEndsPass(hosts: seq<HostConfig>, before: HostStates, settled: HostStates, next0: Option<int>, now: int, h: History,
                      requested: int, next: Option<int>, st: State)
    requires UniqueIds(hosts)
    requires var plan := ShutdownPlanOf(hosts); PassedUpTo(plan.preFsd, |plan.preFsd|, before, settled) && OnlyChanged(plan.nutGroup, settled, st.hosts)
    requires var group := ShutdownPlanOf(hosts).nutGroup; group != [] && GroupEnds(group, settled, next0, now, h, requested, next, st.power, st.hosts)
    ensures PassCompleted(hosts, before, next0, now, h, requested, next, st)
  {
    PlanCoversHosts(hosts, before, settled);
    DirectStaySettled(hosts, before, settled, st.hosts);
    PreparedGroupEnds(ShutdownPlanOf(hosts).nutGroup, before, settled, next0, now, h, requested, next, st.power, st.hosts);
  }

  /** The same when the phase is completed after that. */
  lemma PhaseEndsPass(hosts: seq<HostConfig>, before: HostStates, settled: HostStates, next0: Option<int>, now: int, h0: History, h: History,
                      requested: int, next: Option<int>, st: State)
    requires UniqueIds(hosts) && SameCounts(h0, h) && st.power == WaitingForAC
    requires var plan := ShutdownPlanOf(hosts); PassedUpTo(plan.preFsd, |plan.preFsd|, before, settled) && OnlyChanged(plan.nutGroup, settled, st.hosts)
    requires var group := ShutdownPlanOf(hosts).nutGroup;
      if group == [] then requested == 0 && next == next0 else GroupEnds(group, settled, next0, now, h0, requested, next, WaitingForAC, st.hosts)
    ensures PassCompleted(hosts, before, next0, now, h, requested, next, st)
  {
    var group := ShutdownPlanOf(hosts).nutGroup;
    if group == [] {
      DirectStaySettled(hosts, before, settled, st.hosts);
    } else {
      GroupEndsLater(group, settled, next0, now, h0, h, requested, next, WaitingForAC, st.hosts);
      GroupEndsPass(hosts, before, settled, next0, now, h, requested, next, st);
    }
  }

  lemma GroupEndsLater(group: seq<HostConfig>, before: HostStates, next0: Option<int>, now: int, h0: History, h: History, requested: int,
                       next: Option<int>, verdict: PowerState, after: HostStates)
    requires SameCounts(h0, h) && GroupEnds(group, before, next0, now, h0, requested, next, verdict, after)
    ensures GroupEnds(group, before, next0, now, h, requested, next, verdict, after)
  {
    StaysLookedAt(group, h0, after, h, after, Unchanged);
  }

  /** Whatever becomes of the NUT group, the directly managed hosts stay settled, or held up. */
  lemma DirectStaySettled(hosts: seq<HostConfig>, before: HostStates, settled: HostStates, after: HostStates)
    requires UniqueIds(hosts) && OnlyChanged(ShutdownPlanOf(hosts).nutGroup, settled, after)
    requires var plan := ShutdownPlanOf(hosts).preFsd; PassedUpTo(plan, |plan|, before, settled)
    ensures var plan := ShutdownPlanOf(hosts).preFsd; SettledUpTo(plan, |plan|, after) && AllHeldUpStay(hosts, before, after)
  {
    ShutdownPlanPartitions(hosts);
    var plan := ShutdownPlanOf(hosts);
    forall c | c in plan.preFsd ensures Record(after, c.id) == Record(settled, c.id) {
      forall n | n in plan.nutGroup ensures n.id != c.id {
        assert n in hosts && c in hosts && n != c;
      }
    }
  }

  lemma PhaseEndIsQuiet(h0: History, h: History)
    requires Replay(h0).process.Some? && h.Then? && h.past == Then(h0, ShutdownPhaseDone)
    requires h.last.Write? && h.last.why == Decided && h.last.outcome == Done
    ensures SameTempo(h0, h) && SameCounts(h0, h)
  {
    assert SameTempo(h0, h.past);
    forall id ensures SameCount(h0, h, id) {
      assert SameCount(h0, h.past, id);
    }
  }

  /** Nobody is lost from sight by a change that leaves alone who is down, and makes nobody so. */
  lemma StaysLookedAt(group: seq<HostConfig>, h0: History, before: HostStates, h: History, after: HostStates, change: Change)
    requires AllLookedAt(h0, group, before) && AllChanged(group, before, after, change) && SameCounts(h0, h) && KeepsCompletion(change)
    ensures AllLookedAt(h, group, after)
  {
    forall c | c in group ensures LookedAt(h, c, after) {
      assert change(c, Record(before, c.id), Record(after, c.id)) && LookedAt(h0, c, before) && SameCount(h0, h, c.id);
    }
  }

  lemma RefusalKeepsSight(group: seq<HostConfig>, h0: History, before: HostStates, h: History, after: HostStates)
    requires AllLookedAt(h0, group, before) && AllChanged(group, before, after, UnverifiedUnlessCompleted) && SameCounts(h0, h)
    ensures AllLookedAt(h, group, after) && FsdThisTick(h) == FsdThisTick(h0)
  {
    StaysLookedAt(group, h0, before, h, after, UnverifiedUnlessCompleted);
  }

  ghost predicate KeepsCompletion(change: Change) {
    forall c: HostConfig, b: HostState, a: HostState :: change(c, b, a) ==> (a.shutdownState == Completed <==> b.shutdownState == Completed)
  }

  lemma RequestKeepsSight(group: seq<HostConfig>, h: History, accepted: bool, states: HostStates)
    requires AllLookedAt(h, group, states)
    ensures var sent := Then(h, FsdRequested(accepted)); AllLookedAt(sent, group, states) && FsdThisTick(sent) == Some(accepted)
  {
    forall c | c in group ensures LookedAt(Then(h, FsdRequested(accepted)), c, states) {
      assert LookedAt(h, c, states);
    }
  }

  /** One more member looked at, and no other lost from sight. */
  lemma OneLookedAt(group: seq<HostConfig>, i: nat, h0: History, before: HostStates, h: History, after: HostStates)
    requires UniqueIds(group) && i < |group| && AllLookedAt(h0, group[..i], before)
    requires LookedAt(h, group[i], after) && OnlyChanged([group[i]], before, after)
    requires SameCountsBut(h0, h, group[i].id)
    ensures AllLookedAt(h, group[..i + 1], after)
  {
    var g := group[i];
    assert group[..i + 1] == group[..i] + [g];
    forall x | x in group[..i + 1] ensures LookedAt(h, x, after) {
      if x in group[..i] {
        assert LookedAt(h0, x, before) && x.id != g.id;
        assert SameCount(h0, h, x.id) && Record(after, x.id) == Record(before, x.id);
      }
    }
  }

  ghost predicate AllLookedAt(h: History, group: seq<HostConfig>, states: HostStates) {
    forall x :: x in group ==> LookedAt(h, x, states)
  }

  lemma RemoteFaults(h: History, cfg: AgentConfig)
    requires Legal(h) && Replay(h).process.Some? && Replay(h).process.value.cfg == cfg && cfg.remoteClient
    requires ShutdownPlanOf(cfg.hosts).nutGroup != []
    ensures Enabled(h, Faulted(RemoteClient))
  {
    RunsUniqueHosts(h, cfg);
    ShutdownPlanPartitions(cfg.hosts);
    assert ShutdownPlanOf(cfg.hosts).nutGroup[0] in ShutdownPlanOf(cfg.hosts).nutGroup;
  }

  lemma OnePassed(group: seq<HostConfig>, i: nat, before: HostStates, states: HostStates, after: HostStates, change: Change)
    requires UniqueIds(group) && i < |group| && Passed(group[..i], before, states, change)
    requires Passed([group[i]], states, after, change)
    ensures Passed(group[..i + 1], before, after, change)
  {
    var h := group[i];
    assert h in [h];
    assert group[..i + 1] == group[..i] + [h];
    assert forall x :: x in group[..i + 1] <==> x in group[..i] || x == h;
    forall x | x in group[..i] ensures x.id != h.id {
    }
    assert Record(states, h.id) == Record(before, h.id);
    forall x | x in group[..i + 1] ensures change(x, Record(before, x.id), Record(after, x.id)) {
      if x in group[..i] {
        assert Record(after, x.id) == Record(states, x.id);
      }
    }
    forall id | forall x :: x in group[..i + 1] ==> x.id != id ensures Record(after, id) == Record(before, id) {
      assert h in group[..i + 1];
      assert Record(states, id) == Record(before, id);
    }
  }

  lemma OnePasses(h: HostConfig, states: HostStates, hs: HostState, change: Change)
    requires change(h, Record(states, h.id), hs)
    ensures Passed([h], states, states[h.id := hs], change)
  {
    assert h in [h];
  }

  lemma NonePasses(h: HostConfig, states: HostStates, change: Change)
    requires change(h, Record(states, h.id), Record(states, h.id))
    ensures Passed([h], states, states, change)
  {
  }

  lemma {:induction false} RetryDelaySaturates(i: nat, attempt: nat)
    requires 1 <= i
    requires i >= attempt || RetryDelay(i) == LAST_FSD_RETRY
    requires i <= attempt || i == 1
    ensures RetryDelay(attempt) == RetryDelay(i)
    decreases attempt
  {
    if i < attempt {
      RetryDelaySaturates(i, attempt - 1);
    }
  }

  lemma GivingUpIsAllowed(h: History, states: HostStates)
    requires Legal(h) && Replay(h).process.Some? && Replay(h).process.value.pending.None?
    requires Replay(h).process.value.memory.st.power == ShutdownInProgress && GivesUp(Replay(h).process.value.memory.st.hosts, states)
    ensures var st := Replay(h).process.value.memory.st.(hosts := states, power := FailedSafe);
      WriteAllowed(Replay(h), Stamped(Replay(h), st), GaveUp) && Witnessed(h, states)
  {
    GivingUpIsWitnessed(h, states);
    LegalIsSound(h);
  }

  lemma GivingUpIsWitnessed(h: History, states: HostStates)
    requires Replay(h).process.Some? && Replay(h).process.value.memory.st.power == ShutdownInProgress
    requires GivesUp(Replay(h).process.value.memory.st.hosts, states)
    ensures HostsAdvance(Replay(h).process.value.memory.st, states) && Witnessed(h, states)
  {
  }

  lemma RunsUniqueHosts(h: History, cfg: AgentConfig)
    requires Legal(h) && Replay(h).process.Some? && Replay(h).process.value.cfg == cfg
    ensures UniqueIds(cfg.hosts)
  {
    LegalIsSound(h);
  }

  lemma GroupHasUniqueIds(hosts: seq<HostConfig>)
    requires UniqueIds(hosts)
    ensures UniqueIds(ShutdownPlanOf(hosts).nutGroup)
  {
    ShutdownPlanPartitions(hosts);
  }

  /** Work on the NUT group never unsettles a directly managed host. */
  lemma DirectStaysSettled(cfg: AgentConfig, before: HostStates, after: HostStates)
    requires UniqueIds(cfg.hosts) && AllDirectSettled(cfg, before)
    requires OnlyChanged(ShutdownPlanOf(cfg.hosts).nutGroup, before, after)
    ensures AllDirectSettled(cfg, after)
  {
    ShutdownPlanPartitions(cfg.hosts);
    forall h | h in cfg.hosts && Direct(h) ensures Settled(h, after) {
      forall n | n in ShutdownPlanOf(cfg.hosts).nutGroup ensures n.id != h.id {
        assert n in cfg.hosts && n != h;
      }
      assert Record(after, h.id) == Record(before, h.id);
    }
  }

  /** With every outstanding member's attempt recorded, one more forced shutdown stays within its bound. */
  lemma MarkedGroupMayRequest(before: History, after: History, cfg: AgentConfig, states: HostStates)
    requires Legal(before) && Legal(after) && Steady(Replay(after)) && UniqueIds(cfg.hosts)
    requires Replay(before).process.Some? && Replay(before).process.value.memory.st.hosts == states
    requires Replay(before).process.value.memory.st.power == ShutdownInProgress
    requires Replay(after).process.value.cfg == cfg && Replay(after).process.value.memory.st.power == ShutdownInProgress
    requires AllDirectSettled(cfg, states)
    requires NoneSpent(ShutdownPlanOf(cfg.hosts).nutGroup, states)
    requires var now := Replay(after).process.value.memory.st.hosts; var group := ShutdownPlanOf(cfg.hosts).nutGroup;
      && OnlyChanged(group, states, now)
      && AllChanged(group, states, now, Requested1)
    requires SameCounts(before, after) && AllLookedAt(before, ShutdownPlanOf(cfg.hosts).nutGroup, states)
    ensures FsdAllowed(after)
  {
    var now := Replay(after).process.value.memory.st.hosts;
    var group := ShutdownPlanOf(cfg.hosts).nutGroup;
    DirectStaysSettled(cfg, states, now);
    ShutdownPlanPartitions(cfg.hosts);
    StaysLookedAt(group, before, states, after, now, Requested1);
    forall c | c in cfg.hosts && NutManaged(c) ensures LookedAt(after, c, now) {
      assert c in group;
    }
    forall id | Outstanding(Replay(after), id)
      ensures FsdFor(after, id) < Record(now, id).shutdownAttempts <= MAX_FSD_ATTEMPTS
    {
      var h :| h in cfg.hosts && h.id == id && NutManaged(h);
      assert h in group && Requested1(h, Record(states, id), Record(now, id));
      ShutdownProgresses(before, id);
      assert SameCount(before, after, id);
    }
  }

  /** Once the attempt is on disk, sending the shutdown respects order, bound and the probe-before-repeat rule. */
  lemma AttemptIsAllowed(before: History, after: History, cfg: AgentConfig, h: HostConfig, k: nat, hs: HostState)
    requires Legal(before) && Replay(before).process.Some? && Replay(before).process.value.pending.None?
    requires var p := Replay(before).process.value;
      && p.cfg == cfg && p.memory.st.power == ShutdownInProgress && hs == Record(p.memory.st.hosts, h.id)
      && SettledUpTo(ShutdownPlanOf(cfg.hosts).preFsd, k, p.memory.st.hosts)
      && IsHostWrite(before, after, true) && after.last.st.power == ShutdownInProgress
      && after.last.st.hosts == p.memory.st.hosts[h.id := AskedOnceMore(hs)]
    requires MayAsk(before, h, hs)
    requires k < |ShutdownPlanOf(cfg.hosts).preFsd| && ShutdownPlanOf(cfg.hosts).preFsd[k] == h
    ensures ShutdownAllowed(after, h.id)
  {
    LegalIsSound(before);
    ShutdownProgresses(before, h.id);
    EarlierHostsStaySettled(cfg.hosts, k, Replay(before).process.value.memory.st.hosts, after.last.st.hosts);
    RecordedAttemptIsAllowed(before, after.last.st, cfg, h, k, hs);
  }

  /** Changing the record of the `k`-th host leaves the hosts before it settled. */
  lemma EarlierHostsStaySettled(hosts: seq<HostConfig>, k: nat, before: HostStates, after: HostStates)
    requires UniqueIds(hosts) && k < |ShutdownPlanOf(hosts).preFsd|
    requires OnlyChanged([ShutdownPlanOf(hosts).preFsd[k]], before, after)
    requires SettledUpTo(ShutdownPlanOf(hosts).preFsd, k, before)
    ensures SettledUpTo(ShutdownPlanOf(hosts).preFsd, k, after)
  {
    ShutdownPlanPartitions(hosts);
    var plan := ShutdownPlanOf(hosts);
    forall j | 0 <= j < k ensures Settled(plan.preFsd[j], after) {
      assert plan.preFsd[j].id != plan.preFsd[k].id;
    }
  }

  lemma RecordedAttemptIsAllowed(before: History, st: State, cfg: AgentConfig, h: HostConfig, k: nat, hs: HostState)
    requires Replay(before).process.Some? && Replay(before).process.value.pending.None?
    requires var p := Replay(before).process.value;
      && p.cfg == cfg && st.power == ShutdownInProgress && hs == Record(p.memory.st.hosts, h.id)
      && st.hosts == p.memory.st.hosts[h.id := AskedOnceMore(hs)]
    requires MayAsk(before, h, hs)
    requires SentSinceCommit(before, h.id) ==> !Untouched(hs)
    requires k < |ShutdownPlanOf(cfg.hosts).preFsd| && ShutdownPlanOf(cfg.hosts).preFsd[k] == h
    requires SettledUpTo(ShutdownPlanOf(cfg.hosts).preFsd, k, st.hosts)
    ensures ShutdownAllowed(Then(before, Write(st, HostRecords, Done)), h.id)
  {
    var after := Then(before, Write(st, HostRecords, Done));
    var p := Replay(before).process.value;
    assert Replay(after).process == Some(p.(memory := p.memory.(st := st), behind := false));
    assert JustRecorded(after, h.id, DirectShutdown);
    assert SentSinceCommit(after, h.id) ==> SentSinceCommit(before, h.id);
  }
}
