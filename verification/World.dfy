/** The agent's surroundings: the durable state, hosts, the UPS daemon. Answers are arbitrary; requests are recorded. */
module Environment {
  import opened Basics
  import opened Power
  import opened Histories

  function Stamped(s: System, next: State): State {
    Numbered(s.disk, next)
  }

  /** The write of `st` was the newest thing to happen, and it was reported as failed. */
  predicate FailedWrite(before: History, after: History, st: State, why: Cause) {
    && after.Then? && after.past == before
    && after.last.Write? && after.last.st == st && after.last.why == why && after.last.outcome != Done
  }

  /** A write of `next`, as its writer is told about it. */
  predicate Written(before: History, after: History, next: State, why: Cause, written: Option<State>) {
    var payload := Stamped(Replay(before), next);
    if written.Some? then written.value == payload && after == Then(before, Write(payload, why, Done))
    else FailedWrite(before, after, payload, why)
  }

  /** A write for this cause begins a transaction or the host records of an outage. */
  predicate Opening(s: System, why: Cause) {
    why == NewOutage || (why == HostRecords && s.process.Some? && s.process.value.memory.st.power == OnBattery)
  }

  class World {
    var history: History

    /** Some earlier moment, for telling what has been added since. */
    ghost var mark: History

    /** Counters that only the methods naming them can move. */
    ghost var ages: nat
    ghost var forced: nat
    ghost var started: seq<AgentConfig>

    ghost predicate Valid()
      reads this
    {
      Legal(history) && CutOf(mark, history) && ages == Ages(history) && forced == Forced(history) && started == Started(history)
    }

    function Now(): System
      reads this`history
    {
      Replay(history)
    }

    constructor ()
      ensures Valid() && history == Origin
    {
      history, mark, ages, forced, started := Origin, Origin, 0, 0, [];
    }

    ghost method Mark()
      requires Valid()
      modifies this`mark
      ensures Valid() && mark == history
    {
      mark := history;
    }

    method Note(e: Event)
      requires Valid() && Enabled(history, e) && !OpensAge(Then(history, e)) && !e.FsdRequested?
      modifies this`history
      ensures Valid() && history == Then(old(history), e)
    {
      history := Then(history, e);
    }

    /** A process starts. */
    method Boot(cfg: AgentConfig)
      requires Valid() && Enabled(history, Booted(cfg))
      modifies this`history, this`ages, this`started
      ensures Valid() && history == Then(old(history), Booted(cfg))
    {
      history := Then(history, Booted(cfg));
      ages, started := ages + 1, started + [cfg];
    }

    /** A write by a running process; `None` is an error, after which the generation may or may not be on disk. */
    method WriteState(next: State, why: Cause) returns (written: Option<State>)
      requires Valid() && WriteAllowed(Now(), Stamped(Now(), next), why) && !Opening(Now(), why)
      requires why == HostRecords || why == GaveUp ==> Witnessed(history, next.hosts)
      modifies this`history
      ensures Valid() && Written(old(history), history, next, why, written)
    {
      var payload := Stamped(Now(), next);
      var outcome: Outcome := *;
      Note(Write(payload, why, outcome));
      written := if outcome == Done then Some(payload) else None;
    }

    /** The same for a new transaction and for the host records of an outage. */
    method WriteOpening(next: State, why: Cause) returns (written: Option<State>)
      requires Valid() && WriteAllowed(Now(), Stamped(Now(), next), why) && Opening(Now(), why)
      requires why == HostRecords || why == GaveUp ==> Witnessed(history, next.hosts)
      modifies this`history, this`ages
      ensures Valid() && Written(old(history), history, next, why, written)
    {
      var payload := Stamped(Now(), next);
      var outcome: Outcome := *;
      history, ages := Then(history, Write(payload, why, outcome)), ages + 1;
      written := if outcome == Done then Some(payload) else None;
    }

    /** What the store can load; `None` is an error other than finding nothing. */
    method Load() returns (loaded: Option<Option<State>>)
      requires Valid()
      modifies this`history
      ensures Valid()
      ensures loaded.Some? ==> loaded.value == Now().disk && history == old(history)
      ensures loaded.None? ==> history == Then(old(history), Faulted(Unavailable))
    {
      var readable: bool := *;
      loaded := if readable then Some(Now().disk) else None;
      if !readable {
        Note(Faulted(Unavailable));
      }
    }

    /** A write at start-up, before any engine exists. */
    method Provision(next: State) returns (written: Option<State>)
      requires Valid() && (ValidSemantic(Stamped(Now(), next)) ==> ProvisionAllowed(Now(), Stamped(Now(), next)))
      modifies this`history, this`ages
      ensures Valid()
      ensures written.Some? ==> written.value == Stamped(old(Now()), next) && history == Then(old(history), Provisioned(written.value))
      ensures written.None? ==>
        || history == Then(old(history), Faulted(Unavailable))
        || history == Then(Then(old(history), Provisioned(Stamped(old(Now()), next))), Faulted(Unavailable))
      ensures Faults(history) == old(Faults(history)) + if written.None? then 1 else 0
    {
      var payload := Stamped(Now(), next);
      if !ValidSemantic(payload) {
        Note(Faulted(Unavailable));
        return None;
      }
      var outcome: Outcome := *;
      if outcome != Lost {
        history, ages := Then(history, Provisioned(payload)), ages + 1;
      }
      written := if outcome == Done then Some(payload) else None;
      if outcome != Done {
        Note(Faulted(Unavailable));
      }
    }

    /** Transaction identifiers are random; one that is not empty has never been used before. */
    method NewTransactionId() returns (id: string)
      requires Valid()
      modifies this`history
      ensures Valid() && Now() == old(Now())
      ensures Faults(history) >= old(Faults(history))
      ensures if id != "" then id !in Now().issued && history == old(history) else history == Then(old(history), Faulted(Unavailable))
    {
      id := *;
      if id in Now().issued {
        id := "";
      }
      if id == "" {
        Note(Faulted(Unavailable));
      }
    }

    /** A status probe: a definite reading, or `None` for unknown or an error. */
    method Probe(id: string) returns (reading: Option<bool>)
      requires Valid() && Now().process.Some?
      modifies this`history
      ensures Valid() && history == Then(old(history), Probed(id, reading))
    {
      reading := *;
      Note(Probed(id, reading));
    }

    /** Waits for the host to be offline; false on timeout. */
    method WaitOffline(id: string) returns (offline: bool)
      requires Valid() && Now().process.Some?
      modifies this`history
      ensures Valid() && history == Then(old(history), Probed(id, if offline then Some(false) else None))
    {
      offline := *;
      Note(Probed(id, if offline then Some(false) else None));
    }

    /** `None` is an error of the shutdown command. */
    method SendShutdown(id: string) returns (answer: Option<Disposition>)
      requires Valid() && ShutdownAllowed(history, id)
      modifies this`history
      ensures Valid() && history == Then(old(history), ShutdownSent(id, answer))
    {
      answer := *;
      Note(ShutdownSent(id, answer));
    }

    method RequestFsd() returns (ok: bool)
      requires Valid() && FsdAllowed(history)
      modifies this`history, this`forced
      ensures Valid() && history == Then(old(history), FsdRequested(ok)) && forced == old(forced) + 1
    {
      ok := *;
      history := Then(history, FsdRequested(ok));
      forced := forced + 1;
    }

    method SendWake(id: string) returns (ok: bool)
      requires Valid() && WakeAllowed(history, id)
      modifies this`history
      ensures Valid() && history == Then(old(history), Woke(id))
    {
      Note(Woke(id));
      ok := *;
    }

    /** Power is lost: of everything since, only some beginning ever happened. */
    method CutPower(since: History)
      requires Valid() && CutOf(since, history)
      modifies this
      ensures Valid() && CutOf(history, old(history)) && CutOf(since, history) && mark == since
    {
      var more: bool := *;
      ghost var full := history;
      while more && history != since
        invariant Legal(history) && CutOf(history, full) && CutOf(since, history)
        decreases history
      {
        CutOfPast(history, full);
        history := history.past;
        more := *;
      }
      mark, ages, forced, started := since, Ages(history), Forced(history), Started(history);
    }
  }

  lemma {:induction false} CutOfPast(p: History, h: History)
    requires CutOf(p, h) && p.Then?
    ensures CutOf(p.past, h)
  {
    if p != h {
      CutOfPast(p, h.past);
    }
  }

  /** What an event began goes on. */
  lemma Extends(before: History, e: Event, mark: History, h: History)
    requires CutOf(Then(before, e), mark) && CutOf(mark, h)
    ensures CutOf(Then(before, e), h) && CutOf(before, h)
  {
    CutOfIsTransitive(Then(before, e), mark, h);
    CutOfPast(Then(before, e), h);
  }

  lemma {:induction false} CutOfIsTransitive(a: History, b: History, c: History)
    requires CutOf(a, b) && CutOf(b, c)
    ensures CutOf(a, c)
  {
    if b != c {
      CutOfIsTransitive(a, b, c.past);
    }
  }
}
