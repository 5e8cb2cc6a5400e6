/** The armed process: it loads the durable state, resumes a committed shutdown, and ticks until an error or a power cut. */
module Agent {
  import opened Basics
  import opened Graph
  import opened Hosts
  import opened Power
  import opened Policy
  import opened EngineObject
  import opened Histories
  import opened Invariants
  import opened Environment
  import opened Coordination
  import opened Restoration
  import opened Renewal
  import opened Orchestrator

  /** What configuration validation accepts; the engine supplies a missing stability window itself. */
  ghost predicate Acceptable(cfg: AgentConfig) {
    cfg.revision != "" && UniqueIds(cfg.hosts) && !Cyclic(GraphOf(cfg.hosts))
  }

  function Loaded(cfg: AgentConfig): AgentConfig {
    cfg.(policy := Normalised(cfg.policy))
  }

  /** A transaction is under way that belongs to the configuration it began with. */
  predicate InTransaction(d: State) {
    d.shutdownCommitted || d.recoveryStarted || (d.power != Normal && d.power != BootReconcile)
  }

  /** The idle state another configuration revision takes over: a new transaction that names the old one, without hosts. */
  predicate AdoptedFrom(d: State, issued: set<string>, revision: string, st: State) {
    && st.transactionId !in issued
    && st == d.(parentTransactionId := d.transactionId, transactionId := st.transactionId, configRevision := revision,
                hosts := map[], power := BootReconcile, sequence := d.sequence + 1)
  }

  /** This generation belongs to another configuration revision, which may not take over in the middle of a transaction. */
  predicate Refused(disk: Option<State>, cfg: AgentConfig) {
    disk.Some? && disk.value.configRevision != cfg.revision && InTransaction(disk.value)
  }

  /**
   * What a process starts from: the generation found if it is of this revision, or one provisioned for it: from
   * nothing, or in place of an idle one of another revision.
   */
  ghost predicate Prepared(before: History, found: History, cfg: AgentConfig) {
    Replay(found).disk.Some? &&
    var disk, st := Replay(before).disk, Replay(found).disk.value;
    && st.configRevision == cfg.revision && !Refused(disk, cfg)
    && if disk.Some? && disk.value.configRevision == cfg.revision then found == before
       else
         && found == Then(before, Provisioned(st))
         && if disk.Some? then AdoptedFrom(disk.value, Replay(before).issued, cfg.revision, st)
            else
              && st.transactionId !in Replay(before).issued
              && st == State(1, st.transactionId, "", 1, BootReconcile, false, false, cfg.revision, 0, map[])
  }

  /**
   * The generation a process starts from: what was loaded, reconciled with the configuration revision. A generation
   * of this revision is used as it is; one of another revision is refused inside a transaction and adopted otherwise.
   */
  method Reconcile(world: World, cfg: AgentConfig, loaded: Option<State>) returns (persisted: Option<State>)
    requires world.Valid() && Acceptable(cfg) && loaded == world.Now().disk
    modifies world`history, world`ages
    ensures world.Valid()
    ensures persisted.Some? ==> world.Now().disk == persisted && Prepared(old(world.history), world.history, cfg)
    ensures persisted.Some? ==> Faults(world.history) == old(Faults(world.history))
    ensures Refused(loaded, cfg) ==> world.history == old(world.history)
    ensures persisted.None? && !Refused(loaded, cfg) ==> Faults(world.history) > old(Faults(world.history))
    ensures loaded.Some? && loaded.value.configRevision == cfg.revision ==> persisted.Some?
  {
    LegalIsSound(world.history);
    persisted := loaded;
    if persisted.None? {
      var id := world.NewTransactionId();
      persisted := world.Provision(NewState(id, cfg.revision));
    } else if persisted.value.configRevision != cfg.revision {
      var d := persisted.value;
      if d.shutdownCommitted || d.recoveryStarted || (d.power != Normal && d.power != BootReconcile) {
        return None;
      }
      var id := world.NewTransactionId();
      persisted := world.Provision(d.(parentTransactionId := d.transactionId, transactionId := id,
                                      configRevision := cfg.revision, hosts := map[], power := BootReconcile));
    }
  }

  /** Re-enters a committed shutdown instead of restarting the outage. */
  method Resume(coordinator: Coordinator, persisted: State) returns (ok: bool)
    requires coordinator.Valid() && coordinator.world.Now().disk == Some(persisted) && Interrupted(persisted)
    requires coordinator.engine.View() == Boot(persisted)
    modifies coordinator.engine`st, coordinator.world`history
    ensures coordinator.world.Valid()
    ensures ok ==>
      && coordinator.Valid() && Steady(coordinator.world.Now()) && coordinator.world.Now().disk == Some(coordinator.engine.st)
      && SameButSequence(coordinator.engine.st, persisted.(power := ShutdownInProgress))
      && coordinator.engine.View() == Boot(persisted).(st := coordinator.engine.st)
      && coordinator.world.history == Then(old(coordinator.world.history), Write(coordinator.engine.st, Resumed, Done))
    ensures Blames(old(coordinator.world.history), coordinator.world.history, ok)
  {
    LegalIsSound(coordinator.world.history);
    var written := coordinator.Write(persisted.(power := ShutdownInProgress), Resumed);
    ok := written.Some?;
  }

  /** The controller runs on this world alone. */
  predicate StartedOn(c: Controller, world: World, cfg: AgentConfig) {
    c.policy.world == world && c.cfg == Loaded(cfg)
  }

  /**
   * How a process begins on the generation found: an interrupted committed shutdown is back in SHUTDOWN_IN_PROGRESS,
   * on disk and with the host records it had; everything else waits behind the boot mask.
   */
  ghost predicate StartedFrom(found: History, h: History, cfg: AgentConfig, m: Memory) {
    Replay(found).disk.Some? &&
    var d, booted := Replay(found).disk.value, Then(found, Booted(cfg));
    if d.shutdownCommitted && d.power in {ShutdownCommitted, ShutdownInProgress} then
      && h == Then(booted, Write(m.st, Resumed, Done)) && m == Policy.Boot(d).(st := m.st)
      && m.st.power == ShutdownInProgress && SameButSequence(m.st, d.(power := ShutdownInProgress))
    else h == booted && m == Policy.Boot(d)
  }

  /** Nothing has happened in this process yet. */
  ghost predicate JustStarted(h: History) {
    LastStep(h).None? && LastWake(h).None? && FirstSelection(h).None?
  }

  lemma StartIsQuiet(found: History, h: History, cfg: AgentConfig, m: Memory)
    requires StartedFrom(found, h, cfg, m)
    ensures JustStarted(h) && Replay(h).process == Some(Process(cfg, m, None, false)) && Replay(h).disk.Some?
    ensures !ResumeIsDue(Replay(h)) && Faults(h) == Faults(found)
    ensures if m.st.power == BootReconcile then m == Policy.Boot(Replay(h).disk.value) else Replay(h).disk.value == m.st
  {
  }

  /** Loads, reconciles and, if a committed shutdown was interrupted, resumes it; `found` is the history it started on. */
  method StartPolicy(world: World, cfg: AgentConfig) returns (coordinator: Option<Coordinator>, ghost found: History)
    requires world.Valid() && Acceptable(cfg)
    modifies world`history, world`ages, world`started
    ensures world.Valid() && world.started in {old(world.started), old(world.started) + [Loaded(cfg)]}
    ensures coordinator.Some? ==>
      && coordinator.value.world == world && fresh(coordinator.value) && fresh(coordinator.value.engine)
      && coordinator.value.Valid() && world.started == old(world.started) + [Loaded(cfg)]
      && Prepared(old(world.history), found, cfg) && StartedFrom(found, world.history, Loaded(cfg), coordinator.value.engine.View())
      && Faults(world.history) == old(Faults(world.history))
    ensures coordinator.None? && !Refused(old(world.Now().disk), cfg) ==> Faults(world.history) > old(Faults(world.history))
    ensures Refused(old(world.Now().disk), cfg) ==>
      coordinator.None? && world.history in {old(world.history), Then(old(world.history), Faulted(Unavailable))}
    ensures old(world.Now().disk.Some?) && InRenewal(old(world.Now().disk.value)) ==>
      if coordinator.None? then world.history in {old(world.history), Then(old(world.history), Faulted(Unavailable))}
      else BootsRenewal(old(world.history), world.history, coordinator.value.engine.View())
  {
    hide AdoptedFrom, NewState, LastStep, LastWake, FirstSelection, Ages, Prepared, Acceptable;
    coordinator, found := None, world.history;
    LegalIsSound(world.history);
    var loaded := world.Load();
    if loaded.None? {
      return;
    }
    var persisted := Reconcile(world, cfg, loaded.value);
    if persisted.None? {
      return;
    }
    found := world.history;
    var c := Arm(world, cfg, persisted.value);
    if Interrupted(persisted.value) {
      var ok := Resume(c, persisted.value);
      if !ok {
        return;
      }
    }
    coordinator := Some(c);
  }

  /** A process started on what a power cut left of a renewal. */
  ghost predicate BootsRenewal(before: History, h: History, m: Memory) {
    && h.Then? && h.past == before && h.last.Booted?
    && Replay(h).disk == Replay(before).disk && Replay(h).disk.Some? && m == Policy.Boot(Replay(h).disk.value)
  }

  /** A process is refused only a generation of another revision inside a transaction; no other start fails without a fault. */
  method Start(world: World, cfg: AgentConfig) returns (controller: Option<Controller>, ghost found: History)
    requires world.Valid() && Acceptable(cfg)
    modifies world`history, world`ages, world`started
    ensures world.Valid() && world.started in {old(world.started), old(world.started) + [Loaded(cfg)]}
    ensures controller.Some? ==>
      && StartedOn(controller.value, world, cfg) && fresh(controller.value) && fresh(controller.value.policy) && fresh(controller.value.policy.engine)
      && controller.value.Ready() && controller.value.clock.None? && world.started == old(world.started) + [Loaded(cfg)]
      && Prepared(old(world.history), found, cfg)
      && StartedFrom(found, world.history, Loaded(cfg), controller.value.policy.engine.View())
      && Faults(world.history) == old(Faults(world.history))
    ensures controller.None? && !Refused(old(world.Now().disk), cfg) ==> Faults(world.history) > old(Faults(world.history))
    ensures Refused(old(world.Now().disk), cfg) ==>
      controller.None? && world.history in {old(world.history), Then(old(world.history), Faulted(Unavailable))}
    ensures old(world.Now().disk.Some?) && InRenewal(old(world.Now().disk.value)) ==>
      if controller.None? then world.history in {old(world.history), Then(old(world.history), Faulted(Unavailable))}
      else BootsRenewal(old(world.history), world.history, controller.value.policy.engine.View())
  {
    controller := None;
    var coordinator;
    coordinator, found := StartPolicy(world, cfg);
    if coordinator.None? {
      return;
    }
    StartIsQuiet(found, world.history, Loaded(cfg), coordinator.value.engine.View());
    var runner := new RecoveryExecutor(coordinator.value);
    var c := new Controller(Loaded(cfg), coordinator.value, runner);
    controller := Some(c);
  }

  /** The process begins: its engine holds the loaded state behind the boot mask. */
  method Arm(world: World, cfg: AgentConfig, persisted: State) returns (coordinator: Coordinator)
    requires world.Valid() && Acceptable(cfg) && world.Now().disk == Some(persisted) && persisted.configRevision == cfg.revision
    modifies world`history, world`ages, world`started
    ensures coordinator.world == world && fresh(coordinator) && fresh(coordinator.engine)
    ensures coordinator.Valid() && Steady(world.Now()) && world.Now().process.value.cfg == Loaded(cfg)
    ensures world.Now().disk == old(world.Now().disk) && coordinator.engine.View() == Boot(persisted)
    ensures world.history == Then(old(world.history), Booted(Loaded(cfg))) && world.started == old(world.started) + [Loaded(cfg)]
  {
    var engine := new Engine(cfg.policy, persisted);
    world.Boot(Loaded(cfg));
    coordinator := new Coordinator(engine, world);
  }

  /** One reading of the surroundings at one instant. */
  datatype Reading = Reading(now: int, inp: Inputs)

  /** The clock of one process never runs backwards. */
  predicate Forward(readings: seq<Reading>) {
    forall i, j :: 0 <= i < j < |readings| ==> readings[i].now <= readings[j].now
  }

  lemma ForwardSplits(readings: seq<Reading>, last: Reading)
    requires Forward(readings + [last])
    ensures Forward(readings) && forall r :: r in readings ==> r.now <= last.now
  {
    var all := readings + [last];
    forall i | 0 <= i < |readings| ensures readings[i].now <= last.now {
      assert all[i] == readings[i] && all[|readings|] == last;
    }
    forall i, j | 0 <= i < j < |readings| ensures readings[i].now <= readings[j].now {
      assert all[i] == readings[i] && all[j] == readings[j];
    }
  }

  /** The history before each tick and after the last one: every reading was put to the engine, in order. */
  ghost predicate Traced(trace: seq<History>, readings: seq<Reading>) {
    1 <= |trace| <= |readings| + 1 && forall i :: 0 <= i < |trace| - 1 ==> TickedAt(trace, readings, i)
  }

  ghost predicate TickedAt(trace: seq<History>, readings: seq<Reading>, i: nat)
    requires i + 1 < |trace| <= |readings| + 1
  {
    CutOf(Then(trace[i], Stepped(readings[i].now, readings[i].inp)), trace[i + 1])
  }

  lemma OneMoreTick(trace: seq<History>, readings: seq<Reading>, h: History)
    requires Traced(trace, readings) && |trace| <= |readings|
    requires var r := readings[|trace| - 1]; CutOf(Then(trace[|trace| - 1], Stepped(r.now, r.inp)), h)
    ensures Traced(trace + [h], readings)
  {
    var all := trace + [h];
    forall i | 0 <= i < |all| - 1 ensures TickedAt(all, readings, i) {
      if i < |trace| - 1 {
        assert TickedAt(trace, readings, i) && all[i] == trace[i] && all[i + 1] == trace[i + 1];
      }
    }
  }

  /** One turn of the control loop. */
  method TickOn(c: Controller, r: Reading) returns (ok: bool)
    requires c.Ready() && (c.clock.Some? ==> c.clock.value <= r.now)
    modifies c, c.policy.engine, c.policy.world`history, c.policy.world`ages, c.policy.world`forced, c.policy.world`mark
    ensures c.policy.world.Valid() && Blames(old(c.policy.world.history), c.policy.world.history, ok)
    ensures CutOf(Then(old(c.policy.world.history), Stepped(r.now, r.inp)), c.policy.world.history)
    ensures CutOf(old(c.policy.world.history), c.policy.world.history)
    ensures ok ==> c.Ready() && c.clock == Some(r.now)
  {
    hide PassEnds, RecoveryAdvanced, Renewed, SeenAfresh, WaitsOn, RenewsOutage, ResumesOutage, RenewalSince, AllSeen;
    hide LeadsTo, Decides, Faults;
    ghost var before := c.policy.world.history;
    var decision := c.Tick(r.now, r.inp);
    Extends(before, Stepped(r.now, r.inp), c.policy.world.mark, c.policy.world.history);
    ok := decision.Some?;
  }

  /** The control loop, until a tick fails or the readings end. */
  method Run(c: Controller, readings: seq<Reading>) returns (ok: bool, ghost trace: seq<History>)
    requires c.Ready() && c.clock.None? && Forward(readings)
    modifies c, c.policy.engine, c.policy.world`history, c.policy.world`ages, c.policy.world`forced, c.policy.world`mark
    ensures c.policy.world.Valid() && CutOf(old(c.policy.world.history), c.policy.world.history) && (ok ==> c.Ready())
    ensures Traced(trace, readings) && trace[0] == old(c.policy.world.history) && trace[|trace| - 1] == c.policy.world.history
    ensures ok ==> |trace| == |readings| + 1
    ensures Blames(old(c.policy.world.history), c.policy.world.history, ok)
  {
    trace := [c.policy.world.history];
    for i := 0 to |readings|
      invariant c.Ready() && CutOf(old(c.policy.world.history), c.policy.world.history)
      invariant i < |readings| && c.clock.Some? ==> c.clock.value <= readings[i].now
      invariant Traced(trace, readings) && |trace| == i + 1
      invariant trace[0] == old(c.policy.world.history) && trace[i] == c.policy.world.history
      invariant Blames(old(c.policy.world.history), c.policy.world.history, true)
    {
      ghost var before := c.policy.world.history;
      ok := TickOn(c, readings[i]);
      CutOfIsTransitive(old(c.policy.world.history), before, c.policy.world.history);
      OneMoreTick(trace, readings, c.policy.world.history);
      trace := trace + [c.policy.world.history];
      if !ok {
        return false, trace;
      }
    }
    ok := true;
  }

  /** One process lifetime: the configuration it starts with and what it gets to see before it ends. */
  datatype Session = Session(cfg: AgentConfig, readings: seq<Reading>)

  /** What a lifetime did, what the cut at its end left of that, and the history before each of its ticks and after the last. */
  datatype Life = Life(full: History, left: History, trace: seq<History>)

  /** Each lifetime goes on from what the last one left, starts at most one process, and is cut no further back than its own beginning. */
  ghost predicate Chained(start: History, lives: seq<Life>, sessions: seq<Session>) {
    |lives| <= |sessions| && forall i :: 0 <= i < |lives| ==> LivedAt(start, lives, sessions, i)
  }

  ghost predicate LivedAt(start: History, lives: seq<Life>, sessions: seq<Session>, i: nat)
    requires i < |lives| <= |sessions|
  {
    Lived(LeftBefore(start, lives, i), lives[i], sessions[i])
  }

  /** The history as the `i`-th lifetime finds it. */
  function LeftBefore(start: History, lives: seq<Life>, i: nat): History
    requires i <= |lives|
  {
    if i == 0 then start else lives[i - 1].left
  }

  ghost predicate Lived(before: History, life: Life, session: Session) {
    && Legal(life.full) && CutOf(before, life.left) && CutOf(life.left, life.full)
    && Started(life.full) in {Started(before), Started(before) + [Loaded(session.cfg)]}
    && (life.trace != [] ==> Ran(before, life, session))
    && (|life.trace| <= |session.readings| ==> Faults(life.full) > Faults(before) || Refused(Replay(before).disk, session.cfg))
  }

  /** The process started, and put the readings to its engine one after the other. */
  ghost predicate Ran(before: History, life: Life, session: Session)
    requires life.trace != []
  {
    && Started(life.full) == Started(before) + [Loaded(session.cfg)]
    && Traced(life.trace, session.readings) && CutOf(before, life.trace[0]) && life.trace[|life.trace| - 1] == life.full
  }

  /**
   * Any number of lifetimes, each ended by an error or by a power cut that may take back everything down to the
   * beginning of that lifetime. Every lifetime's history is legal, so every theorem about legal histories holds at
   * every moment of every run of the agent.
   */
  method Live(world: World, sessions: seq<Session>) returns (ghost lives: seq<Life>)
    requires world.Valid()
    requires forall s :: s in sessions ==> Acceptable(s.cfg) && Forward(s.readings)
    modifies world
    ensures world.Valid() && |lives| == |sessions| && Chained(old(world.history), lives, sessions)
    ensures world.history == LeftBefore(old(world.history), lives, |lives|)
  {
    lives := [];
    for i := 0 to |sessions|
      invariant world.Valid() && |lives| == i && Chained(old(world.history), lives, sessions)
      invariant world.history == LeftBefore(old(world.history), lives, |lives|)
    {
      ghost var life := LiveOnce(world, sessions[i]);
      OneMoreLife(old(world.history), lives, sessions, life);
      lives := lives + [life];
    }
  }

  lemma OneMoreLife(start: History, lives: seq<Life>, sessions: seq<Session>, life: Life)
    requires Chained(start, lives, sessions) && |lives| < |sessions|
    requires Lived(LeftBefore(start, lives, |lives|), life, sessions[|lives|])
    ensures Chained(start, lives + [life], sessions) && LeftBefore(start, lives + [life], |lives| + 1) == life.left
  {
    var all := lives + [life];
    forall i | 0 <= i < |all| ensures LivedAt(start, all, sessions, i) {
      assert LeftBefore(start, all, i) == LeftBefore(start, lives, i);
      if i < |lives| {
        assert LivedAt(start, lives, sessions, i) && all[i] == lives[i];
      }
    }
  }

  method LiveOnce(world: World, session: Session) returns (ghost life: Life)
    requires world.Valid() && Acceptable(session.cfg) && Forward(session.readings)
    modifies world
    ensures world.Valid() && life.left == world.history && Lived(old(world.history), life, session)
  {
    hide StartedFrom, Prepared, Traced, CutOf;
    var before := world.history;
    world.Mark();
    ghost var found, trace := before, [];
    var controller;
    controller, found := Start(world, session.cfg);
    ghost var booted := world.history;
    var ok := false;
    if controller.Some? {
      ok, trace := Run(controller.value, session.readings);
      CutOfIsTransitive(before, booted, world.history);
    }
    ghost var full := world.history;
    world.CutPower(before);
    life := Life(full, world.history, trace);
  }
}
