/** One restoration attempt: reconcile the next host, or durably count an attempt and wake it. */
module Restoration {
  import opened Basics
  import opened Hosts
  import opened Power
  import opened Histories
  import opened Coordination
  import opened Recovery

  class RecoveryExecutor {
    const store: Coordinator

    constructor (coordinator: Coordinator)
      ensures store == coordinator
    {
      store := coordinator;
    }

    ghost predicate Restoring(hosts: seq<HostConfig>)
      reads this, store, store.engine, store.world
    {
      && store.Valid() && store.engine.st.power == RestoreHosts
      && store.world.Now().process.value.cfg.hosts == hosts
    }

    /** Durably replaces one host's record while hosts are being restored. */
    method RecordHost(hosts: seq<HostConfig>, id: string, hs: HostState) returns (ok: bool)
      requires Restoring(hosts) && HostMayBecome(store.world.history, hosts, store.engine.st.hosts, id, hs)
      modifies store.engine`st, store.world`history
      ensures Restoring(hosts) && HostsWritten(old(store.world.history), store.world.history, ok)
      ensures if ok then Steady(store.world.Now()) && store.engine.st.hosts == old(store.engine.st.hosts)[id := hs]
              else store.engine.st == old(store.engine.st)
    {
      OneHostMayBeWritten(store.world.history, id, hs);
      ok := store.WriteHosts(store.State().hosts[id := hs]);
    }

    method CheckOnline(hosts: seq<HostConfig>, id: string) returns (reading: Option<bool>)
      requires Restoring(hosts)
      modifies store.world`history
      ensures Restoring(hosts) && SameTempo(old(store.world.history), store.world.history)
      ensures store.world.Now() == old(store.world.Now())
      ensures store.world.history == Then(old(store.world.history), Probed(id, reading))
      ensures Faults(store.world.history) == old(Faults(store.world.history))
    {
      reading := store.world.Probe(id);
    }

    /**
     * Works on at most one host. `id` is the host worked on, if any; `failed` is the error return, which a host
     * out of attempts or a failed wake also takes.
     */
    method RunNext(hosts: seq<HostConfig>) returns (id: Option<string>, failed: bool)
      requires Restoring(hosts) && UniqueIds(hosts)
      requires LastStep(store.world.history).Some? && !WokeSinceStep(store.world.history)
      requires forall c :: IsNext(hosts, store.engine.st.hosts, Candidate(c)) ==> Paced(store.world.history, hosts, c.id)
      modifies store.engine`st, store.world`history
      ensures Restoring(hosts)
      ensures id.None? ==>
        && store.engine.st == old(store.engine.st) && store.world.history == old(store.world.history)
        && IsNext(hosts, store.engine.st.hosts, if failed then CycleDetected else Nobody)
      ensures id.Some? ==> exists c: HostConfig :: (c.id == id.value && IsNext(hosts, old(store.engine.st.hosts), Candidate(c))
        && Attempted(hosts, c, old(store.world.history), old(store.engine.st.hosts), store.world.history, store.engine.st.hosts))
    {
      var next := NextRecoveryHost(hosts, store.State().hosts);
      match next {
        case CycleDetected => return None, true;
        case Nobody => return None, false;
        case Candidate(c) =>
          CandidateIsEligible(hosts, store.State().hosts, c);
          id := Some(c.id);
          failed := WorkOn(hosts, c);
      }
    }

    /** Reconciles one unfinished host: online after all, out of attempts, or due for one more wake. */
    method WorkOn(hosts: seq<HostConfig>, c: HostConfig) returns (failed: bool)
      requires Restoring(hosts) && UniqueIds(hosts) && c in hosts && Restorable(hosts, store.engine.st.hosts, c)
      requires !WokeSinceStep(store.world.history) && Paced(store.world.history, hosts, c.id)
      modifies store.engine`st, store.world`history
      ensures Restoring(hosts)
      ensures Attempted(hosts, c, old(store.world.history), old(store.engine.st.hosts), store.world.history, store.engine.st.hosts)
    {
      var hs := Record(store.State().hosts, c.id);
      var reading := CheckOnline(hosts, c.id);
      if reading == Some(true) {
        failed := Finish(hosts, c, Online);
      } else if hs.wakeAttempts >= MaxWakeAttempts(c) {
        failed := Finish(hosts, c, RecoveryFailed);
        failed := true;
      } else {
        failed := CountAndWake(hosts, c, hs);
      }
    }

    /** Records that a host needs no further wake. */
    method Finish(hosts: seq<HostConfig>, c: HostConfig, result: RecoveryState) returns (failed: bool)
      requires Restoring(hosts) && UniqueIds(hosts) && c in hosts && Restorable(hosts, store.engine.st.hosts, c)
      requires if result == Online then JustSeen(store.world.history, c.id, true)
        else result == RecoveryFailed && store.engine.st.hosts[c.id].wakeAttempts >= MaxWakeAttempts(c) && NotSeenRunning(store.world.history, c.id)
      modifies store.engine`st, store.world`history
      ensures Restoring(hosts)
      ensures Attempted(hosts, c, old(store.world.history), old(store.engine.st.hosts), store.world.history, store.engine.st.hosts)
    {
      hide Coordinator.Valid, FsdFor, LastWake, FirstSelection, Work;
      var hs := store.engine.st.hosts[c.id].(recoveryState := result);
      AttemptIsProgress(hosts, store.engine.st.hosts, c, hs);
      ghost var h0 := store.world.history;
      var ok := RecordHost(hosts, c.id, hs);
      assert SameCount(h0, store.world.history, c.id);
      failed := !ok;
    }

    /** Persists the attempt first, and only then sends the wake. */
    method CountAndWake(hosts: seq<HostConfig>, c: HostConfig, hs0: HostState) returns (failed: bool)
      requires Restoring(hosts) && UniqueIds(hosts) && c in hosts && Restorable(hosts, store.engine.st.hosts, c)
      requires hs0 == store.engine.st.hosts[c.id] && hs0.wakeAttempts < MaxWakeAttempts(c) && NotSeenRunning(store.world.history, c.id)
      requires !WokeSinceStep(store.world.history) && Paced(store.world.history, hosts, c.id)
      modifies store.engine`st, store.world`history
      ensures Restoring(hosts)
      ensures Attempted(hosts, c, old(store.world.history), old(store.engine.st.hosts), store.world.history, store.engine.st.hosts)
    {
      var hs := hs0.(wakeAttempts := hs0.wakeAttempts + 1, recoveryState := WolSent);
      ghost var h0, before := store.world.history, store.engine.st.hosts;
      var ok := RecordAttempt(hosts, c, hs);
      if !ok {
        return true;
      }
      ghost var recorded := store.world.history;
      failed := WakeRecorded(hosts, c, hs);
      WakeIsAttempt(hosts, c, h0, before, recorded, store.world.history, hs);
    }

    /** Sends the wake whose attempt has just been recorded; an error of the wake is stored with the record. */
    method WakeRecorded(hosts: seq<HostConfig>, c: HostConfig, hs: HostState) returns (failed: bool)
      requires Restoring(hosts) && c in hosts && Restorable(hosts, store.engine.st.hosts, c) && store.engine.st.hosts[c.id] == hs
      requires hs.wakeAttempts <= MaxWakeAttempts(c) && hs.recoveryState == WolSent && NotSeenRunning(store.world.history, c.id)
      requires Steady(store.world.Now()) && !WokeSinceStep(store.world.history) && Paced(store.world.history, hosts, c.id)
      requires JustRecorded(store.world.history, c.id, Wake)
      modifies store.engine`st, store.world`history
      ensures Restoring(hosts) && store.engine.st.hosts == old(store.engine.st.hosts)
      ensures Woken(old(store.world.history), store.world.history, c.id)
      ensures Faults(store.world.history) >= old(Faults(store.world.history))
    {
      ghost var h0 := store.world.history;
      var woken := DispatchWake(hosts, c);
      WakeIsLast(h0, store.world.history, c.id);
      if !woken {
        assert store.engine.st.hosts[c.id := hs] == store.engine.st.hosts;
        var ok := RecordHost(hosts, c.id, hs);
      }
      failed := !woken;
    }

    /** Durably counts the attempt that is about to be made. */
    method RecordAttempt(hosts: seq<HostConfig>, c: HostConfig, hs: HostState) returns (ok: bool)
      requires Restoring(hosts) && UniqueIds(hosts) && c in hosts && Restorable(hosts, store.engine.st.hosts, c)
      requires var r := store.engine.st.hosts[c.id]; hs == r.(wakeAttempts := r.wakeAttempts + 1, recoveryState := WolSent)
      requires Paced(store.world.history, hosts, c.id) && NotSeenRunning(store.world.history, c.id)
      modifies store.engine`st, store.world`history
      ensures Restoring(hosts) && SameTempo(old(store.world.history), store.world.history)
      ensures Paced(store.world.history, hosts, c.id) && NotSeenRunning(store.world.history, c.id)
      ensures Restorable(hosts, store.engine.st.hosts, c)
      ensures ok ==>
        && Steady(store.world.Now()) && JustRecorded(store.world.history, c.id, Wake)
        && store.engine.st.hosts == old(store.engine.st.hosts)[c.id := hs]
      ensures !ok ==> store.engine.st == old(store.engine.st)
      ensures Faults(store.world.history) == old(Faults(store.world.history)) + if ok then 0 else 1
    {
      hide FsdFor, LastWake, FirstSelection;
      StaysRestorable(hosts, store.engine.st.hosts, c, hs);
      ok := RecordHost(hosts, c.id, hs);
    }

    method DispatchWake(hosts: seq<HostConfig>, c: HostConfig) returns (woken: bool)
      requires Restoring(hosts) && c in hosts && Restorable(hosts, store.engine.st.hosts, c) && NotSeenRunning(store.world.history, c.id)
      requires store.engine.st.hosts[c.id].wakeAttempts <= MaxWakeAttempts(c)
      requires Steady(store.world.Now()) && !WokeSinceStep(store.world.history) && Paced(store.world.history, hosts, c.id)
      requires JustRecorded(store.world.history, c.id, Wake)
      modifies store.world`history
      ensures store.Valid() && store.world.Now() == old(store.world.Now())
      ensures store.world.history == Then(old(store.world.history), Woke(c.id))
    {
      WakeMayBeSent(store.world.history, hosts, c);
      woken := store.world.SendWake(c.id);
    }
  }

  /** The host was woken, and nothing else happened that paces wakes. */
  ghost predicate Woken(h0: History, h: History, id: string) {
    && RunningConfig(h) == RunningConfig(h0) && LastStep(h) == LastStep(h0) && FirstSelection(h) == FirstSelection(h0)
    && LastWake(h) == WakeNow(h0, id) && ReadingThisTick(h, id) == ReadingThisTick(h0, id)
  }

  /** The host is to be restored, is not done, and waits for no dependency. */
  ghost predicate Restorable(hosts: seq<HostConfig>, states: HostStates, c: HostConfig) {
    && c.id in states && EligibleForRestore(c, states[c.id]) && !Terminal(states[c.id].recoveryState)
    && DependenciesOnline(hosts, states, c)
  }

  /** Counting an attempt leaves the host restorable: it does not depend on itself. */
  lemma StaysRestorable(hosts: seq<HostConfig>, states: HostStates, c: HostConfig, hs: HostState)
    requires UniqueIds(hosts) && c in hosts && Restorable(hosts, states, c)
    requires hs == states[c.id].(wakeAttempts := hs.wakeAttempts, recoveryState := WolSent)
    ensures Restorable(hosts, states[c.id := hs], c)
  {
    FindFinds(hosts, c.id);
    forall d | d in c.dependsOn ensures DependencyOnline(hosts, states[c.id := hs], d) {
      assert DependencyOnline(hosts, states, d);
    }
  }

  lemma WakeIsLast(h0: History, h: History, id: string)
    requires h == Then(h0, Woke(id)) && LastStep(h0).Some?
    ensures Woken(h0, h, id) && Faults(h) == Faults(h0)
  {
  }

  lemma WakeMayBeSent(h: History, hosts: seq<HostConfig>, c: HostConfig)
    requires Steady(Replay(h)) && JustRecorded(h, c.id, Wake) && !WokeSinceStep(h)
    requires Replay(h).process.value.memory.st.power == RestoreHosts && Replay(h).process.value.cfg.hosts == hosts && c in hosts
    requires Restorable(hosts, Replay(h).process.value.memory.st.hosts, c) && NotSeenRunning(h, c.id)
    requires Replay(h).process.value.memory.st.hosts[c.id].wakeAttempts <= MaxWakeAttempts(c) && Paced(h, hosts, c.id)
    ensures WakeAllowed(h, c.id)
  {
  }

  /** A record update that takes work away is visible, and repeating it changes nothing. */
  lemma AttemptIsProgress(hosts: seq<HostConfig>, states: HostStates, c: HostConfig, hs: HostState)
    requires UniqueIds(hosts) && c in hosts && c.id in states && HostWork(c, hs) < HostWork(c, states[c.id])
    ensures Work(hosts, states[c.id := hs]) < Work(hosts, states) && states[c.id := hs] != states
    ensures states[c.id := hs][c.id := hs] == states[c.id := hs]
  {
    WorkAfterUpdate(hosts, states, c, hs);
    assert states[c.id := hs][c.id] == hs;
  }

  /**
   * The one host worked on was looked at, and is then online if it was seen so, failed if it was not and its
   * attempts are used up, and woken once more otherwise; unless a write failed.
   */
  ghost predicate Attempted(hosts: seq<HostConfig>, c: HostConfig, h0: History, before: HostStates, h: History, after: HostStates) {
    && c in hosts && c.id in before && EligibleForRestore(c, before[c.id]) && !Terminal(before[c.id].recoveryState)
    && RunningConfig(h) == RunningConfig(h0)
    && LastStep(h) == LastStep(h0) && FirstSelection(h) == FirstSelection(h0) && Faults(h) >= Faults(h0)
    && if after == before then LastWake(h) == LastWake(h0) && Faults(h) > Faults(h0)
       else
         && c.id in after && after == before[c.id := after[c.id]] && AttemptOutcome(c, before[c.id], after[c.id], ReadingThisTick(h, c.id))
         && Work(hosts, after) < Work(hosts, before)
         && LastWake(h) == if after[c.id].wakeAttempts == before[c.id].wakeAttempts then LastWake(h0) else WakeNow(h0, c.id)
  }

  /** Recording one more attempt and then sending the wake is working on the host. */
  lemma WakeIsAttempt(hosts: seq<HostConfig>, c: HostConfig, h0: History, before: HostStates, recorded: History, h: History, hs: HostState)
    requires c in hosts && c.id in before && EligibleForRestore(c, before[c.id]) && !Terminal(before[c.id].recoveryState)
    requires hs == before[c.id].(recoveryState := WolSent, wakeAttempts := before[c.id].wakeAttempts + 1)
    requires UniqueIds(hosts) && before[c.id].wakeAttempts < MaxWakeAttempts(c)
    requires SameTempo(h0, recorded) && Woken(recorded, h, c.id) && Faults(h0) <= Faults(h) && NotSeenRunning(h, c.id)
    ensures Attempted(hosts, c, h0, before, h, before[c.id := hs])
  {
    AttemptIsProgress(hosts, before, c, hs);
    assert before[c.id := hs][c.id] == hs;
  }

  function WakeNow(h: History, id: string): Option<(int, string)> {
    if LastStep(h).None? then None else Some((LastStep(h).value.now, id))
  }

  predicate AttemptOutcome(c: HostConfig, before: HostState, after: HostState, reading: Option<Option<bool>>) {
    reading.Some? &&
    if reading.value == Some(true) then after == before.(recoveryState := Online)
    else if before.wakeAttempts >= MaxWakeAttempts(c) then after == before.(recoveryState := RecoveryFailed)
    else after == before.(recoveryState := WolSent, wakeAttempts := before.wakeAttempts + 1)
  }
}
