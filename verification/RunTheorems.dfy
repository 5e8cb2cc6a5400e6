/** What whole stretches of a process's life come to, reading after reading and restart after restart. */
module RunTheorems {
  import opened Basics
  import opened Hosts
  import opened Snapshots
  import opened Power
  import opened Policy
  import opened Histories
  import opened Invariants
  import opened Environment
  import opened DirectShutdowns
  import opened Renewal
  import opened Orchestrator
  import opened Agent

  // ---------------------------------------------------------------- power lost during a recovery

  predicate SaysNothing(r: Reading) {
    r.inp.ups.utility == UtilityUnknown
  }

  /** After a restart, readings that say nothing about the utility change nothing that matters. */
  method AwaitReading(c: Controller, readings: seq<Reading>)
    requires c.Ready() && c.clock.None? && Forward(readings) && c.policy.engine.st.power == BootReconcile
    requires forall r :: r in readings ==> SaysNothing(r)
    requires RenewalSince(c.policy.world.history, c.policy.world.history)
    modifies c, c.policy.engine, c.policy.world`history, c.policy.world`ages, c.policy.world`forced, c.policy.world`mark
    ensures c.Ready() && (c.clock.Some? ==> exists r :: r in readings && c.clock == Some(r.now))
    ensures Faults(c.policy.world.history) == old(Faults(c.policy.world.history))
    ensures c.policy.engine.View() == old(c.policy.engine.View()) && RenewalSince(old(c.policy.world.history), c.policy.world.history)
  {
    for i := 0 to |readings|
      invariant c.Ready() && c.policy.engine.View() == old(c.policy.engine.View())
      invariant Faults(c.policy.world.history) == old(Faults(c.policy.world.history))
      invariant RenewalSince(old(c.policy.world.history), c.policy.world.history)
      invariant c.clock.Some? ==> exists j :: 0 <= j < i && c.clock == Some(readings[j].now)
    {
      AwaitOne(c, readings[i], old(c.policy.world.history));
    }
  }

  method AwaitOne(c: Controller, r: Reading, ghost start: History)
    requires c.Ready() && (c.clock.Some? ==> c.clock.value <= r.now) && c.policy.engine.st.power == BootReconcile && SaysNothing(r)
    requires RenewalSince(start, c.policy.world.history)
    modifies c, c.policy.engine, c.policy.world`history, c.policy.world`ages, c.policy.world`forced, c.policy.world`mark
    ensures c.Ready() && c.clock == Some(r.now) && Faults(c.policy.world.history) == old(Faults(c.policy.world.history))
    ensures c.policy.engine.View() == old(c.policy.engine.View()) && RenewalSince(start, c.policy.world.history)
  {
    var decision := c.Tick(r.now, r.inp);
  }

  /** A restart: readings that say nothing, then one that says ON_BATTERY. */
  datatype Restart = Restart(cfg: AgentConfig, unknown: seq<Reading>, seen: Reading)

  predicate Sees(r: Restart) {
    && RecoveryEnabled(r.cfg.policy) && Forward(r.unknown + [r.seen])
    && (forall x :: x in r.unknown ==> SaysNothing(x)) && r.seen.inp.ups.utility == UtilityOnBattery
  }

  /** An uncommitted outage is under way in which no host counts as shut down. */
  predicate StartedOver(st: State) {
    st.power == OnBattery && !st.shutdownCommitted && NoneCompleted(st.hosts)
  }

  /**
   * Power is lost during a committed recovery, and the agent goes down before the tick that notices is over, and
   * then in any number of further attempts, each time anywhere it likes. Once a restarted process gets through its
   * first ON_BATTERY reading, with nothing but unknown ones before it, nobody counts as shut down; and nothing but a
   * fault, or the configuration of another revision, keeps the last one from getting through. It found the history
   * `found`.
   */
  method RenewedOutageSurvivesPowerCuts(c: Controller, lost: Reading, failed: seq<Restart>, last: Restart)
    returns (next: Option<Controller>, ghost found: History)
    requires c.Ready() && (c.clock.Some? ==> c.clock.value <= lost.now)
    requires c.policy.engine.st.power in {RecoveryStarted, RestoreHosts} && RecoveryEnabled(c.cfg.policy) && UnsafeUps(lost.inp.ups)
    requires forall r :: r in failed + [last] ==> Acceptable(r.cfg) && Sees(r)
    modifies c, c.policy.engine, c.policy.world
    ensures next.Some? ==> next.value.Ready() && StartedOver(next.value.policy.engine.st)
    ensures next.None? ==> Faults(c.policy.world.history) > Faults(found) || Refused(Replay(found).disk, last.cfg)
  {
    var world := c.policy.world;
    var before := world.history;
    var decision := c.Tick(lost.now, lost.inp);
    CutDuring(world, before);
    for i := 0 to |failed|
      invariant world.Valid() && RenewalSince(world.history, world.history)
    {
      assert failed[i] in failed + [last];
      before := world.history;
      var attempt := Attempt(world, failed[i]);
      CutDuring(world, before);
    }
    assert last in failed + [last];
    found := world.history;
    next := Attempt(world, last);
  }

  /** A power cut inside a renewal. */
  method CutDuring(world: World, before: History)
    requires world.Valid() && RenewalSince(before, world.history)
    modifies world
    ensures world.Valid() && RenewalSince(world.history, world.history)
  {
    ghost var full := world.history;
    RenewalStartsThere(before, full);
    world.CutPower(before);
    CutInsideRenewal(before, full, world.history);
  }

  /** One restart on a disk inside a renewal; it stays inside whatever happens. */
  method Attempt(world: World, r: Restart) returns (next: Option<Controller>)
    requires world.Valid() && RenewalSince(world.history, world.history) && Acceptable(r.cfg) && Sees(r)
    modifies world`history, world`ages, world`started, world`forced, world`mark
    ensures world.Valid() && RenewalSince(old(world.history), world.history)
    ensures next.Some? ==> next.value.Ready() && StartedOver(next.value.policy.engine.st)
    ensures next.None? ==> Faults(world.history) > old(Faults(world.history)) || Refused(old(world.Now().disk), r.cfg)
  {
    ghost var before := world.history;
    ghost var found;
    next, found := Start(world, r.cfg);
    if next.Some? {
      ghost var booted := world.history;
      var seen := Reread(next.value, r);
      RenewalChains(before, booted, world.history);
      if !seen {
        next := None;
      }
    }
  }

  method Reread(c: Controller, r: Restart) returns (ok: bool)
    requires c.Ready() && c.clock.None? && RenewalSince(c.policy.world.history, c.policy.world.history)
    requires c.policy.engine.View() == Boot(c.policy.world.Now().disk.value)
    requires RecoveryEnabled(c.cfg.policy) && Sees(r)
    modifies c, c.policy.engine, c.policy.world`history, c.policy.world`ages, c.policy.world`forced, c.policy.world`mark
    ensures c.policy.world.Valid() && RenewalSince(old(c.policy.world.history), c.policy.world.history)
    ensures Blames(old(c.policy.world.history), c.policy.world.history, ok)
    ensures ok ==> c.Ready() && StartedOver(c.policy.engine.st)
  {
    ForwardSplits(r.unknown, r.seen);
    ghost var start := c.policy.world.history;
    AwaitReading(c, r.unknown);
    ghost var awaited := c.policy.world.history;
    ok := FirstSeen(c, r.seen);
    RenewalChains(start, awaited, c.policy.world.history);
  }

  method FirstSeen(c: Controller, seen: Reading) returns (ok: bool)
    requires c.Ready() && (c.clock.Some? ==> c.clock.value <= seen.now) && RenewalSince(c.policy.world.history, c.policy.world.history)
    requires c.policy.engine.st.power == BootReconcile
    requires RecoveryEnabled(c.cfg.policy) && seen.inp.ups.utility == UtilityOnBattery
    modifies c, c.policy.engine, c.policy.world`history, c.policy.world`ages, c.policy.world`forced, c.policy.world`mark
    ensures c.policy.world.Valid() && RenewalSince(old(c.policy.world.history), c.policy.world.history)
    ensures Blames(old(c.policy.world.history), c.policy.world.history, ok)
    ensures ok ==> c.Ready() && StartedOver(c.policy.engine.st)
  {
    LegalIsSound(c.policy.world.history);
    ghost var st, issued := c.policy.engine.st, c.policy.world.Now().issued;
    var decision := c.Tick(seen.now, seen.inp);
    ok := decision.Some?;
    if ok && st.shutdownCommitted {
      RenewedStartsOver(c.cfg.hosts, st, issued, c.policy.engine.st);
    }
  }

  // ---------------------------------------------------------------- other readings before the ON_BATTERY one

  /** The process has just started on a committed disk inside a renewal. */
  ghost predicate Restarted(c: Controller)
    reads c, c.policy, c.policy.engine, c.policy.world
  {
    && c.Ready() && c.clock.None? && c.policy.world.Now().disk.Some?
    && var d := c.policy.world.Now().disk.value;
       d.shutdownCommitted && InRenewal(d) && c.policy.engine.View() == Boot(d)
  }

  /** The transaction is one that nobody had used at `start`. */
  predicate Fresh(start: History, m: Memory) {
    m.st.transactionId !in Replay(start).issued
  }

  /** `mid` is the history as this reading found it, and `m` what the engine then remembered. */
  ghost predicate Found(start: History, mid: History, m: Memory, r: Reading, h: History) {
    && CutOf(start, mid) && Replay(mid).process.Some? && Replay(mid).process.value.memory == m
    && CutOf(Then(mid, Stepped(r.now, r.inp)), h)
  }

  /** What is known since the process began at `start` on the disk `d`: a transaction of its own, or all markers of `d`. */
  ghost predicate Since(start: History, d: State, h: History, m: Memory) {
    && Legal(h) && CutOf(start, h) && Replay(h).process.Some? && Replay(h).process.value.memory == m && Started(h) == Started(start)
    && Replay(start).process.Some? && Replay(start).process.value.memory == Boot(d) && d.shutdownCommitted
    && Carries(Replay(start), d.transactionId, d.hosts) && d.transactionId in Replay(start).issued
    && (Fresh(start, m) || Ages(h) == Ages(start))
  }

  lemma {:induction false} IssuedGrows(h0: History, h: History)
    requires CutOf(h0, h)
    ensures Replay(h0).issued <= Replay(h).issued && |Started(h0)| <= |Started(h)|
  {
    if h != h0 {
      IssuedGrows(h0, h.past);
    }
  }

  /** Once a process has left the boot state it does not come back to it. */
  lemma {:induction false} BehindTheMask(h0: History, h: History)
    requires Legal(h) && CutOf(h0, h) && Started(h) == Started(h0)
    requires Replay(h).process.Some? && Replay(h).process.value.memory.st.power == BootReconcile
    ensures Replay(h0).process.Some? && Replay(h0).process.value.memory == Replay(h).process.value.memory
  {
    if h != h0 {
      IssuedGrows(h0, h.past);
      StillMasked(h);
      BehindTheMask(h0, h.past);
    }
  }

  lemma StillMasked(h: History)
    requires Legal(h) && h.Then? && !h.last.Booted?
    requires Replay(h).process.Some? && Replay(h).process.value.memory.st.power == BootReconcile
    ensures Replay(h.past).process.Some? && Replay(h.past).process.value.memory == Replay(h).process.value.memory
  {
    LegalIsSound(h.past);
    if h.last.Stepped? {
      var p := Replay(h.past).process.value;
      StepIsAccepted(p.cfg.policy, p.memory, Replay(h.past).disk.value, p.behind, h.last.now, h.last.inp);
    } else if h.last.Write? {
      WritesAreUnmasked(Replay(h.past), h.last.st, h.last.why, h.last.outcome);
    }
  }

  /** No write leaves a process behind that is still in the boot state. */
  lemma WritesAreUnmasked(s: System, st: State, why: Cause, outcome: Outcome)
    requires Sound(s) && WriteAllowed(s, st, why)
    ensures AfterWrite(s.process, st, why, outcome).Some? ==> AfterWrite(s.process, st, why, outcome).value.memory.st.power != BootReconcile
  {
  }

  /** A tick that does not renew keeps the transaction; without a fresh one, it keeps every marker as well. */
  lemma TickKeeps(start: History, d: State, h0: History, m0: Memory, h: History, m: Memory)
    requires Since(start, d, h0, m0) && Legal(h) && CutOf(h0, h) && Replay(h).process.Some? && Replay(h).process.value.memory == m
    requires Started(h) == Started(h0) && (Ages(h) == Ages(h0) || (Fresh(start, m0) && m.st.transactionId == m0.st.transactionId))
    ensures Since(start, d, h, m) && (Fresh(start, m) <==> Fresh(start, m0))
    ensures !Fresh(start, m) ==> Carries(Replay(h), d.transactionId, d.hosts)
  {
    CutOfIsTransitive(start, h0, h);
    LegalIsSound(h0);
    if Fresh(start, m0) {
      if Ages(h) == Ages(h0) {
        MarkersStay(h0, h, m0.st.transactionId, map[]);
      }
    } else {
      MarkersStay(start, h, d.transactionId, d.hosts);
    }
  }

  lemma WatchedTick(cfg: AgentConfig, start: History, d: State, h0: History, m0: Memory, h: History, m: Memory, now: int, ups: Ups, action: Decision)
    requires Since(start, d, h0, m0) && Legal(h) && CutOf(h0, h) && Replay(h).process.Some? && Replay(h).process.value.memory == m
    requires Started(h) == Started(h0)
    requires RenewsOutage(cfg.policy, m0, ups) ==> Renewed(cfg.hosts, m0.st, Replay(h0).issued, m.st)
    requires !RenewsOutage(cfg.policy, m0, ups) && !ResumesOutage(m0, ups) ==> Ages(h) == Ages(h0)
    requires WaitsOn(cfg.policy, m0, now, ups, action, m)
    ensures Since(start, d, h, m)
    ensures Fresh(start, m) <==> Fresh(start, m0) || RenewsOutage(cfg.policy, m0, ups)
    ensures m.st.power == BootReconcile <==> m0.st.power == BootReconcile && ups.utility == UtilityUnknown
    ensures RenewsOutage(cfg.policy, m0, ups) ==> StartedOver(m.st)
    ensures !Fresh(start, m) ==> m.st.transactionId == d.transactionId && KeepsMarkers(d.hosts, m.st.hosts)
  {
    if m0.st.power == BootReconcile {
      BehindTheMask(start, h0);
    }
    if m.st.power == BootReconcile {
      BehindTheMask(h0, h);
    }
    IssuedGrows(start, h0);
    if RenewsOutage(cfg.policy, m0, ups) {
      CutOfIsTransitive(start, h0, h);
      RenewedStartsOver(cfg.hosts, m0.st, Replay(h0).issued, m.st);
    } else {
      TickKeeps(start, d, h0, m0, h, m);
    }
  }

  /** A tick renews the transaction exactly on a reading that renews, and leaves the boot state on a known one. */
  method Watch(c: Controller, r: Reading, ghost start: History, ghost d: State) returns (decision: Option<Decision>)
    requires c.Ready() && (c.clock.Some? ==> c.clock.value <= r.now)
    requires Since(start, d, c.policy.world.history, c.policy.engine.View())
    modifies c, c.policy.engine, c.policy.world
    ensures CutOf(Then(old(c.policy.world.history), Stepped(r.now, r.inp)), c.policy.world.history)
    ensures Blames(old(c.policy.world.history), c.policy.world.history, decision.Some?)
    ensures decision.Some? ==>
      var m0, m := old(c.policy.engine.View()), c.policy.engine.View();
      && c.Ready() && c.clock == Some(r.now) && Since(start, d, c.policy.world.history, m)
      && (Fresh(start, m) <==> Fresh(start, m0) || RenewsOutage(c.cfg.policy, m0, r.inp.ups))
      && (m.st.power == BootReconcile <==> m0.st.power == BootReconcile && SaysNothing(r))
      && (RenewsOutage(c.cfg.policy, m0, r.inp.ups) ==> StartedOver(m.st))
      && (!Fresh(start, m) ==> m.st.transactionId == d.transactionId && KeepsMarkers(d.hosts, m.st.hosts))
      && WaitsOn(c.cfg.policy, m0, r.now, r.inp.ups, decision.value, m)
      && Decides(c.cfg.policy, m0, r.now, r.inp, decision.value)
  {
    var world := c.policy.world;
    ghost var h0, m0 := world.history, c.policy.engine.View();
    decision := c.Tick(r.now, r.inp);
    Extends(h0, Stepped(r.now, r.inp), world.mark, world.history);
    if decision.Some? {
      WatchedTick(c.cfg, start, d, h0, m0, world.history, c.policy.engine.View(), r.now, r.inp.ups, decision.value);
    }
  }

  predicate Calm(readings: seq<Reading>) {
    forall r :: r in readings ==> r.inp.ups.utility != UtilityOnBattery && !r.inp.ups.lowBattery && !r.inp.ups.fsd
  }

  /** Two ONLINE readings at least as far apart as a recovery has to wait. */
  predicate StableWindow(cfg: Config, readings: seq<Reading>) {
    exists i, j :: 0 <= i < |readings| && 0 <= j < |readings| && FarApart(cfg, readings[i], readings[j])
  }

  predicate FarApart(cfg: Config, a: Reading, b: Reading) {
    a.inp.ups.utility == b.inp.ups.utility == UtilityOnline && b.now - a.now >= cfg.utilityStable
  }

  /** A transaction that was not renewed waits, and its timer, if it runs, began with one of these ONLINE readings. */
  predicate Standing(readings: seq<Reading>, m: Memory) {
    && m.st.shutdownCommitted && (m.st.power == BootReconcile || Awaits(m.st.power))
    && (m.onlineSince.Some? ==>
          exists i :: 0 <= i < |readings| && readings[i].inp.ups.utility == UtilityOnline && readings[i].now == m.onlineSince.value)
  }

  /** Where a restarted process stands after some readings: renewed, or waiting, or past a stability window. */
  ghost predicate StandsAfter(cfg: Config, start: History, readings: seq<Reading>, m: Memory) {
    && (m.st.power == BootReconcile <==> forall r :: r in readings ==> SaysNothing(r))
    && (Fresh(start, m) || StableWindow(cfg, readings) || Standing(readings, m))
    && (Calm(readings) && !StableWindow(cfg, readings) ==> !Fresh(start, m))
  }

  lemma StandsOn(cfg: AgentConfig, start: History, readings: seq<Reading>, m0: Memory, r: Reading, d: Decision, m: Memory)
    requires ValidConfig(cfg) && StandsAfter(cfg.policy, start, readings, m0)
    requires WaitsOn(cfg.policy, m0, r.now, r.inp.ups, d, m) && Decides(cfg.policy, m0, r.now, r.inp, d)
    requires m.st.power == BootReconcile <==> m0.st.power == BootReconcile && SaysNothing(r)
    requires Fresh(start, m) <==> Fresh(start, m0) || RenewsOutage(cfg.policy, m0, r.inp.ups)
    ensures StandsAfter(cfg.policy, start, readings + [r], m)
  {
    var all := readings + [r];
    assert all[|readings|] == r && forall i :: 0 <= i < |readings| ==> all[i] == readings[i];
    assert forall x :: x in all <==> x in readings || x == r;
    WindowStays(cfg.policy, readings, r);
    if !Fresh(start, m0) && !StableWindow(cfg.policy, readings) && !RenewsOutage(cfg.policy, m0, r.inp.ups) {
      StillStanding(cfg, readings, m0, r, d, m);
    }
  }

  lemma WindowStays(cfg: Config, readings: seq<Reading>, r: Reading)
    ensures StableWindow(cfg, readings) ==> StableWindow(cfg, readings + [r])
  {
    if i, j :| 0 <= i < |readings| && 0 <= j < |readings| && FarApart(cfg, readings[i], readings[j]) {
      var all := readings + [r];
      assert all[i] == readings[i] && all[j] == readings[j];
    }
  }

  lemma StillStanding(cfg: AgentConfig, readings: seq<Reading>, m0: Memory, r: Reading, d: Decision, m: Memory)
    requires ValidConfig(cfg) && Standing(readings, m0) && !RenewsOutage(cfg.policy, m0, r.inp.ups)
    requires WaitsOn(cfg.policy, m0, r.now, r.inp.ups, d, m) && Decides(cfg.policy, m0, r.now, r.inp, d)
    ensures Standing(readings + [r], m) || StableWindow(cfg.policy, readings + [r])
  {
    var all := readings + [r];
    assert all[|readings|] == r;
    if m0.onlineSince.Some? {
      var i :| 0 <= i < |readings| && readings[i].inp.ups.utility == UtilityOnline && readings[i].now == m0.onlineSince.value;
      assert all[i] == readings[i];
      assert FarApart(cfg.policy, all[i], all[|readings|]) <==> r.inp.ups.utility == UtilityOnline && r.now - all[i].now >= cfg.policy.utilityStable;
    }
  }

  method WatchNext(c: Controller, r: Reading, ghost start: History, ghost d: State, ghost readings: seq<Reading>) returns (ok: bool)
    requires c.Ready() && (c.clock.Some? ==> c.clock.value <= r.now)
    requires Since(start, d, c.policy.world.history, c.policy.engine.View())
    requires StandsAfter(c.cfg.policy, start, readings, c.policy.engine.View())
    modifies c, c.policy.engine, c.policy.world
    ensures Blames(old(c.policy.world.history), c.policy.world.history, ok)
    ensures ok ==>
      && c.Ready() && c.clock == Some(r.now) && Since(start, d, c.policy.world.history, c.policy.engine.View())
      && StandsAfter(c.cfg.policy, start, readings + [r], c.policy.engine.View())
  {
    ghost var m0 := c.policy.engine.View();
    LegalIsSound(c.policy.world.history);
    var decision := Watch(c, r, start, d);
    ok := decision.Some?;
    if ok {
      StandsOn(c.cfg, start, readings, m0, r, decision.value, c.policy.engine.View());
    }
  }

  method WatchAll(c: Controller, readings: seq<Reading>, ghost start: History, ghost d: State) returns (ok: bool)
    requires c.Ready() && c.clock.None? && Forward(readings)
    requires Since(start, d, c.policy.world.history, c.policy.engine.View()) && c.policy.engine.View() == Boot(d)
    modifies c, c.policy.engine, c.policy.world
    ensures Blames(old(c.policy.world.history), c.policy.world.history, ok)
    ensures ok ==>
      && c.Ready() && Since(start, d, c.policy.world.history, c.policy.engine.View())
      && (c.clock.Some? ==> exists r :: r in readings && c.clock == Some(r.now))
      && StandsAfter(c.cfg.policy, start, readings, c.policy.engine.View())
  {
    ok := true;
    if readings != [] {
      var r := readings[|readings| - 1];
      ForwardSplits(readings[..|readings| - 1], r);
      ok := WatchAll(c, readings[..|readings| - 1], start, d);
      if ok {
        assert readings == readings[..|readings| - 1] + [r];
        ok := WatchNext(c, r, start, d, readings[..|readings| - 1]);
      }
    }
  }

  /**
   * After a restart on a committed disk inside a renewal, whatever is read before the first ON_BATTERY reading: that
   * reading, which finds the history `mid` and the memory `m`, leaves a fresh transaction exactly if that memory has
   * one already or renews on it, and every Completed marker stays otherwise. The restarted state lasts as long as the readings say
   * nothing; short of a renewal, it is left only to wait, until a whole stability window has been read online. So
   * without alarms and without such a window, the outage is renewed exactly if nothing was said before.
   */
  method FirstOnBattery(c: Controller, readings: seq<Reading>, seen: Reading) returns (ok: bool, ghost mid: History, ghost m: Memory)
    requires Restarted(c) && Forward(readings + [seen])
    requires seen.inp.ups.utility == UtilityOnBattery
    modifies c, c.policy.engine, c.policy.world
    ensures Blames(old(c.policy.world.history), c.policy.world.history, ok)
    ensures ok ==>
      var start, d, st := old(c.policy.world.history), old(c.policy.world.Now().disk.value), c.policy.engine.st;
      var renewed := st.transactionId !in Replay(start).issued;
      && c.Ready() && Found(start, mid, m, seen, c.policy.world.history)
      && (renewed <==> Fresh(start, m) || RenewsOutage(c.cfg.policy, m, seen.inp.ups))
      && (RenewsOutage(c.cfg.policy, m, seen.inp.ups) ==> StartedOver(st))
      && (!renewed ==> st.transactionId == d.transactionId && KeepsMarkers(d.hosts, st.hosts))
      && (m.st.power == BootReconcile ==> m == Boot(d))
      && (m.st.power == BootReconcile <==> forall r :: r in readings ==> SaysNothing(r))
      && (Fresh(start, m) || StableWindow(c.cfg.policy, readings) || m.st.power == BootReconcile || Awaits(m.st.power))
      && (Calm(readings) && !StableWindow(c.cfg.policy, readings) && RecoveryEnabled(c.cfg.policy) ==>
            (renewed <==> forall r :: r in readings ==> SaysNothing(r)))
  {
    hide Controller.Alive, World.Valid, Since, Faults, StartedOver, StableWindow, Legal;
    ghost var start, d := c.policy.world.history, c.policy.world.Now().disk.value;
    StartsSince(c);
    ForwardSplits(readings, seen);
    ok := WatchAll(c, readings, start, d);
    mid, m := c.policy.world.history, c.policy.engine.View();
    if !ok {
      return;
    }
    MaskedIsBoot(start, d, mid, m);
    var last := Watch(c, seen, start, d);
    ok := last.Some?;
  }

  lemma StartsSince(c: Controller)
    requires Restarted(c)
    ensures Since(c.policy.world.history, c.policy.world.Now().disk.value, c.policy.world.history, c.policy.engine.View())
  {
    LegalIsSound(c.policy.world.history);
  }

  lemma MaskedIsBoot(start: History, d: State, h: History, m: Memory)
    requires Since(start, d, h, m)
    ensures m.st.power == BootReconcile ==> m == Boot(d)
    ensures CutOf(start, h) && Replay(h).process.Some? && Replay(h).process.value.memory == m
  {
    if m.st.power == BootReconcile {
      BehindTheMask(start, h);
    }
  }

  // ---------------------------------------------------------------- a host nobody can observe

  /**
   * While a host that was asked to shut down and cannot be observed stands in the way, the shutdown never ends: no
   * reading makes the agent force it or leave the phase, except to fail safe.
   */
  method HeldUpForEver(c: Controller, h: HostConfig, readings: seq<Reading>) returns (ok: bool)
    requires c.Ready() && c.clock.None? && Forward(readings)
    requires c.policy.engine.st.power == ShutdownInProgress && h in c.cfg.hosts && HeldUp(h, c.policy.engine.st.hosts)
    modifies c, c.policy.engine, c.policy.world`history, c.policy.world`ages, c.policy.world`forced, c.policy.world`mark
    ensures c.policy.world.forced == old(c.policy.world.forced)
    ensures Blames(old(c.policy.world.history), c.policy.world.history, ok)
    ensures ok ==> c.Ready() && c.policy.engine.st.power in {ShutdownInProgress, FailedSafe} && HeldUp(h, c.policy.engine.st.hosts)
  {
    for i := 0 to |readings|
      invariant c.Ready() && c.policy.world.forced == old(c.policy.world.forced)
      invariant c.policy.engine.st.power in {ShutdownInProgress, FailedSafe} && HeldUp(h, c.policy.engine.st.hosts)
      invariant Blames(old(c.policy.world.history), c.policy.world.history, true)
      invariant c.clock.Some? ==> exists j :: 0 <= j < i && c.clock == Some(readings[j].now)
    {
      ok := HoldUp(c, h, readings[i]);
      if !ok {
        return;
      }
    }
    ok := true;
  }

  method HoldUp(c: Controller, h: HostConfig, r: Reading) returns (ok: bool)
    requires c.Ready() && (c.clock.Some? ==> c.clock.value <= r.now)
    requires c.policy.engine.st.power in {ShutdownInProgress, FailedSafe} && h in c.cfg.hosts && HeldUp(h, c.policy.engine.st.hosts)
    modifies c, c.policy.engine, c.policy.world`history, c.policy.world`ages, c.policy.world`forced, c.policy.world`mark
    ensures c.policy.world.forced == old(c.policy.world.forced)
    ensures Blames(old(c.policy.world.history), c.policy.world.history, ok)
    ensures ok ==>
      && c.Ready() && c.clock == Some(r.now)
      && c.policy.engine.st.power in {ShutdownInProgress, FailedSafe} && HeldUp(h, c.policy.engine.st.hosts)
  {
    hide PassEnds, Controller.Alive, World.Valid, Faults, RecoveryAdvanced, Renewed, WaitsOn, Pursues, HeldUp;
    hide RenewalSince, Snapshotted, RenewsOutage, ResumesOutage, LeadsTo;
    ghost var m, next := c.policy.engine.View(), c.NextFsd(c.policy.engine.st.transactionId);
    ghost var forced := c.policy.world.forced;
    if m.st.power == ShutdownInProgress {
      c.RunsThis();
      ShutdownGoesOn(c.policy.world.history, c.cfg, m, r);
    }
    var decision := c.Tick(r.now, r.inp);
    ok := decision.Some?;
    if m.st.power == ShutdownInProgress {
      HeldUpPass(c.cfg.hosts, h, m.st.hosts, next, r.now, c.policy.world.history, c.policy.world.forced - forced,
                 c.NextFsd(m.st.transactionId), c.policy.engine.st, ok);
    }
  }

  lemma ShutdownGoesOn(h: History, cfg: AgentConfig, m: Memory, r: Reading)
    requires Legal(h) && Replay(h).process.Some? && Replay(h).process.value.cfg == cfg && Replay(h).process.value.memory == m
    requires Replay(h).process.value.pending.None? && m.st.power == ShutdownInProgress
    ensures Pursues(cfg.policy, m, r.now, r.inp)
  {
    LegalIsSound(h);
  }

  lemma HeldUpPass(hosts: seq<HostConfig>, h: HostConfig, before: HostStates, next0: Option<int>, now: int, after: History, requested: int,
                   next: Option<int>, st: State, ok: bool)
    requires PassEnds(hosts, before, next0, now, after, requested, next, st, ok) && h in hosts && HeldUp(h, before)
    ensures requested == 0 && (ok ==> st.power in {ShutdownInProgress, FailedSafe} && HeldUp(h, st.hosts))
  {
    assert !GetsPast(h, Record(before, h.id));
  }
}
