/** Couples the engine to durable writes: no changed decision reaches its caller before it is on disk. */
module Coordination {
  import opened Basics
  import opened Hosts
  import opened Power
  import opened Policy
  import opened EngineObject
  import opened Histories
  import opened Invariants
  import opened Environment

  class Coordinator {
    const engine: Engine
    const world: World

    constructor (e: Engine, w: World)
      ensures engine == e && world == w
    {
      engine, world := e, w;
    }

    /** The engine is the running process's memory, with nothing left unwritten. */
    ghost predicate Valid()
      reads this, engine, world
    {
      && world.Valid()
      && world.Now().process.Some?
      && world.Now().process.value.pending.None?
      && world.Now().process.value.memory == engine.View()
      && world.Now().process.value.cfg.policy == engine.cfg
    }

    function State(): State
      reads this, engine
    {
      engine.st
    }

    /** The state a write produces from `next`. */
    ghost function Payload(next: State): State
      reads world
    {
      Stamped(world.Now(), next)
    }

    method Write(next: State, why: Cause) returns (written: Option<State>)
      requires Valid() && why != Decided && WriteAllowed(world.Now(), Payload(next), why) && !Opening(world.Now(), why)
      requires why == HostRecords || why == GaveUp ==> Witnessed(world.history, next.hosts)
      modifies engine`st, world`history
      ensures world.Valid() && Written(old(world.history), world.history, next, why, written)
      ensures written.Some? ==> Valid() && engine.st == written.value
      ensures written.None? ==> engine.st == old(engine.st) && (why == HostRecords ==> Valid())
    {
      written := world.WriteState(next, why);
      if written.Some? {
        engine.st := written.value;
      }
    }

    /** The same for a new transaction and for the host records of an outage. */
    method WriteOpening(next: State, why: Cause) returns (written: Option<State>)
      requires Valid() && WriteAllowed(world.Now(), Payload(next), why) && Opening(world.Now(), why)
      requires why == HostRecords ==> Witnessed(world.history, next.hosts)
      modifies engine`st, world`history, world`ages
      ensures world.Valid() && Written(old(world.history), world.history, next, why, written)
      ensures written.Some? ==> Valid() && engine.st == written.value
      ensures written.None? ==> engine.st == old(engine.st)
    {
      written := world.WriteOpening(next, why);
      if written.Some? {
        engine.st := written.value;
      }
    }

    /** Makes progress on managed hosts durable; the process may carry on if that fails. */
    method WriteHosts(states: HostStates) returns (ok: bool)
      requires Valid() && MayWriteHosts(world.history, states)
      modifies engine`st, world`history
      ensures Valid() && HostsWritten(old(world.history), world.history, ok)
      ensures if ok then Steady(world.Now()) && SameButSequence(engine.st, old(engine.st).(hosts := states)) else engine.st == old(engine.st)
      ensures world.history.last.st == old(Payload(engine.st.(hosts := states))) && (ok ==> engine.st == world.history.last.st)
    {
      HostsMayBeWritten(world.history, states);
      var h0 := world.history;
      var written := Write(State().(hosts := states), HostRecords);
      ok := written.Some?;
      HostWriteFacts(h0, world.history, ok);
    }

    /** Persists the engine's new state, or puts the old one back. */
    method Persist(before: State) returns (ok: bool)
      requires world.Valid() && world.Now().process.Some? && world.Now().process.value.pending.Some?
      requires world.Now().process.value.memory == engine.View() && world.Now().process.value.cfg.policy == engine.cfg
      modifies engine`st, world`history
      ensures world.Valid()
      ensures ok ==>
        && Valid() && engine.st == old(Payload(engine.st))
        && world.history == Then(old(world.history), Histories.Write(engine.st, Decided, Done))
      ensures !ok ==>
        && engine.st == before
        && FailedWrite(old(world.history), world.history, old(Payload(engine.st)), Decided)
    {
      LegalIsSound(world.history);
      var written := world.WriteState(engine.st, Decided);
      if written.None? {
        engine.st := before;
        return false;
      }
      engine.st := written.value;
      return true;
    }

    /** `None` is an error: the transition could not be made durable and the process gives up. */
    method Step(now: int, inp: Inputs) returns (decision: Option<Decision>)
      requires Valid() && (LastStep(world.history).Some? ==> LastStep(world.history).value.now <= now)
      requires !ResumeIsDue(world.Now())
      modifies engine, world`history, world`mark
      ensures world.Valid() && world.mark == Then(old(world.history), Stepped(now, inp))
      ensures decision.Some? ==> Valid() && StepEffect(old(world.history), world.history, now, inp, decision.value)
      ensures decision.None? ==> engine.st == old(engine.st) && StepLost(old(world.history), world.history, now, inp)
    {
      LegalIsSound(world.history);
      ghost var p := world.Now().process.value;
      StepIsAccepted(engine.cfg, engine.View(), world.Now().disk.value, p.behind, now, inp);
      var before := engine.st;
      decision := engine.Step(now, inp);
      world.Note(Stepped(now, inp));
      world.Mark();
      if !decision.value.changed {
        return;
      }
      var ok := Persist(before);
      if !ok {
        decision := None;
      }
    }

    method MarkShutdownPhaseComplete() returns (ok: bool)
      requires Valid()
      requires engine.st.power in {ShutdownInProgress, ShutdownCommitted} ==> Enabled(world.history, ShutdownPhaseDone)
      modifies engine`st, world`history
      ensures world.Valid()
      ensures old(engine.st.power) in {ShutdownInProgress, ShutdownCommitted} && ok ==>
        && Valid() && engine.st.power == WaitingForAC
        && world.history == Then(Then(old(world.history), ShutdownPhaseDone), Histories.Write(engine.st, Decided, Done))
      ensures old(engine.st.power) !in {ShutdownInProgress, ShutdownCommitted} || !ok ==> engine.st == old(engine.st)
      ensures old(engine.st.power) !in {ShutdownInProgress, ShutdownCommitted} ==> ok && world.history == old(world.history)
      ensures !ok ==> Faults(world.history) > old(Faults(world.history))
    {
      var before := engine.st;
      var decision := engine.MarkShutdownPhaseComplete();
      if !decision.changed {
        return true;
      }
      world.Note(ShutdownPhaseDone);
      ok := Persist(before);
    }

    method MarkRecoveryComplete() returns (ok: bool)
      requires Valid()
      requires engine.st.power == RestoreHosts ==> Enabled(world.history, RecoveryDone)
      modifies engine, world`history
      ensures world.Valid()
      ensures old(engine.st.power) != RestoreHosts ==> ok && world.history == old(world.history)
      ensures old(engine.st.power) == RestoreHosts && ok ==>
        && Valid() && engine.st.power == Normal && engine.st.hosts == old(engine.st.hosts)
        && world.history == Then(Then(old(world.history), RecoveryDone), Histories.Write(engine.st, Decided, Done))
      ensures old(engine.st.power) != RestoreHosts || !ok ==> engine.st == old(engine.st)
      ensures !ok ==> Faults(world.history) > old(Faults(world.history))
    {
      var before := engine.st;
      var decision := engine.MarkRecoveryComplete();
      if !decision.changed {
        return true;
      }
      world.Note(RecoveryDone);
      ok := Persist(before);
    }
  }

  /** A process behind the boot mask has yet to re-enter the committed shutdown it found. */
  predicate ResumeIsDue(s: System) {
    s.process.Some? && s.process.value.memory.st.power == BootReconcile && s.disk.Some? && Interrupted(s.disk.value)
  }

  // ---------------------------------------------------------------- writing host records

  /** The running process is at a point where host records are written, and these say no more than it knows. */
  ghost predicate MayWriteHosts(h: History, states: HostStates) {
    && Replay(h).process.Some? && Replay(h).process.value.memory.st.power in {ShutdownInProgress, RestoreHosts}
    && HostsAdvance(Replay(h).process.value.memory.st, states) && Witnessed(h, states)
  }

  lemma HostsMayBeWritten(h: History, states: HostStates)
    requires Legal(h) && MayWriteHosts(h, states) && Replay(h).process.value.pending.None?
    ensures WriteAllowed(Replay(h), Stamped(Replay(h), Replay(h).process.value.memory.st.(hosts := states)), HostRecords)
  {
    LegalIsSound(h);
  }

  /** What is to be recorded about one host was seen, requested or attempted, and takes nothing back. */
  ghost predicate HostMayBecome(h: History, hosts: seq<HostConfig>, states: HostStates, id: string, hs: HostState) {
    var r := Record(states, id);
    && ClaimWitnessed(h, r, hs, id, false) && ClaimWitnessed(h, r, hs, id, true)
    && RecordWitnessed(h, hosts, r, states[id := hs], id)
    && r.shutdownAttempts <= hs.shutdownAttempts && r.wakeAttempts <= hs.wakeAttempts
    && (r.shutdownState == Completed ==> hs.shutdownState == Completed)
    && (Untouched(hs) ==> Untouched(r)) && KeepsSnapshot(r, hs)
  }

  /** A write about one host needs only that host's record to be in order. */
  lemma OneHostMayBeWritten(h: History, id: string, hs: HostState)
    requires Replay(h).process.Some? && Replay(h).process.value.memory.st.power in {ShutdownInProgress, RestoreHosts}
    requires HostMayBecome(h, Replay(h).process.value.cfg.hosts, Replay(h).process.value.memory.st.hosts, id, hs)
    ensures MayWriteHosts(h, Replay(h).process.value.memory.st.hosts[id := hs])
  {
  }

  /** What the outage snapshot decided about restoring the host still stands. */
  predicate KeepsSnapshot(before: HostState, after: HostState) {
    after.wasOnline == before.wasOnline && (after.recoveryState == RecoveryNotRequired ==> before.recoveryState == RecoveryNotRequired)
  }

  /** The newest event is a write of host records, reported as done or as failed. */
  predicate IsHostWrite(h0: History, h: History, ok: bool) {
    h.Then? && h.past == h0 && h.last.Write? && h.last.why == HostRecords && (ok <==> h.last.outcome == Done)
  }

  /** A write of host records paces, asks and counts nothing. */
  ghost predicate HostsWritten(h0: History, h: History, ok: bool) {
    && IsHostWrite(h0, h, ok) && SameTempo(h0, h)
    && Faults(h) == Faults(h0) + (if ok then 0 else 1)
    && SameCounts(h0, h)
  }

  /** Nothing was requested or observed in between. */
  ghost predicate SameCounts(h0: History, h: History) {
    && FsdThisTick(h) == FsdThisTick(h0)
    && forall id :: SameCount(h0, h, id)
  }

  /** Nothing was requested or observed in between but of host `id`. */
  ghost predicate SameCountsBut(h0: History, h: History, id: string) {
    forall x :: x != id ==> SameCount(h0, h, x)
  }

  predicate SameCount(h0: History, h: History, id: string) {
    FsdFor(h, id) == FsdFor(h0, id) && ReadingThisTick(h, id) == ReadingThisTick(h0, id) && ReplyThisTick(h, id) == ReplyThisTick(h0, id)
  }

  lemma CountsChain(a: History, b: History, c: History)
    requires SameCounts(a, b) && SameCounts(b, c)
    ensures SameCounts(a, c)
  {
    forall id ensures SameCount(a, c, id) {
      assert SameCount(a, b, id) && SameCount(b, c, id);
    }
  }

  lemma CountsChainBut(a: History, b: History, c: History, id: string)
    requires SameCountsBut(a, b, id) && SameCounts(b, c)
    ensures SameCountsBut(a, c, id)
    ensures FsdThisTick(c) == FsdThisTick(b) && ReadingThisTick(c, id) == ReadingThisTick(b, id)
  {
    assert SameCount(b, c, id);
    forall x | x != id ensures SameCount(a, c, x) {
      assert SameCount(a, b, x) && SameCount(b, c, x);
    }
  }

  lemma HostWriteFacts(h0: History, h: History, ok: bool)
    requires IsHostWrite(h0, h, ok) && Replay(h0).process.Some?
    ensures HostsWritten(h0, h, ok)
  {
  }

  function RunningConfig(h: History): Option<AgentConfig> {
    if Replay(h).process.None? then None else Some(Replay(h).process.value.cfg)
  }

  /** Nothing that paces wakes has happened in between. */
  predicate SameTempo(before: History, after: History) {
    && RunningConfig(after) == RunningConfig(before)
    && LastStep(after) == LastStep(before) && WokeSinceStep(after) == WokeSinceStep(before)
    && LastWake(after) == LastWake(before) && FirstSelection(after) == FirstSelection(before)
  }

  /** What a successful coordinator step adds to the history: the step and, if it changed anything, its write. */
  ghost predicate StepEffect(before: History, after: History, now: int, inp: Inputs, d: Decision) {
    var s := Replay(before);
    && s.process.Some?
    && var r := Policy.Step(s.process.value.cfg.policy, s.process.value.memory, now, inp);
    && r.Accepted? && r.decision == d
    && var stepped := Then(before, Stepped(now, inp));
    if d.changed then after == Then(stepped, Write(Stamped(s, r.memory.st), Decided, Done)) else after == stepped
  }

  /** A step whose transition could not be made durable, or only without the writer being told. */
  ghost predicate StepLost(before: History, after: History, now: int, inp: Inputs) {
    var s := Replay(before);
    && s.process.Some?
    && var r := Policy.Step(s.process.value.cfg.policy, s.process.value.memory, now, inp);
    && r.Accepted? && r.decision.changed
    && FailedWrite(Then(before, Stepped(now, inp)), after, Stamped(s, r.memory.st), Decided)
  }
}
