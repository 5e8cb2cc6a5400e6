/** How long a recovery takes, reading after reading. */
module RecoveryRuns {
  import opened Basics
  import opened Hosts
  import opened Power
  import opened Policy
  import opened Histories
  import opened EffectTheorems
  import opened Environment
  import opened Recovery
  import opened Renewal
  import opened Orchestrator
  import opened Agent

  /** What is left to do: attempts and outcomes of hosts, and the first selection. */
  ghost function Left(hosts: seq<HostConfig>, h: History, states: HostStates): nat {
    Work(hosts, states) + if FirstSelection(h).None? then 1 else 0
  }

  /** Whatever holds wakes back happened by this time. */
  predicate QuietSince(h: History, time: int) {
    && (LastWake(h).Some? ==> LastWake(h).value.0 <= time)
    && (FirstSelection(h).Some? ==> FirstSelection(h).value.at <= time)
  }

  lemma {:induction false} FirstSelectionIsPast(h: History)
    requires Legal(h) && FirstSelection(h).Some?
    ensures LastStep(h).Some? && FirstSelection(h).value.at <= LastStep(h).value.now
  {
    if FirstSelection(h.past).Some? {
      FirstSelectionIsPast(h.past);
    }
  }

  lemma QuietSinceStep(h: History)
    requires Legal(h) && LastStep(h).Some?
    ensures QuietSince(h, LastStep(h).value.now)
  {
    if LastWake(h).Some? {
      LastWakeIsPast(h);
    }
    if FirstSelection(h).Some? {
      FirstSelectionIsPast(h);
    }
  }

  lemma {:induction false} FailuresGrow(h0: History, h: History)
    requires CutOf(h0, h)
    ensures Faults(h0) <= Faults(h)
  {
    if h != h0 {
      FailuresGrow(h0, h.past);
    }
  }

  /** A bound on every configured distance between wakes. */
  predicate Longest(hosts: seq<HostConfig>, delay: nat) {
    forall h :: h in hosts ==> WakeDelay(hosts, h.id) <= delay
  }

  /** A safe tick gets closer to the end, or comes within the longest distance of what holds wakes back. */
  lemma TickAdvances(hosts: seq<HostConfig>, h0: History, now: int, inp: Inputs, before: HostStates, h: History, st: State, quiet: int, delay: nat)
    requires RecoveryAdvanced(hosts, Then(h0, Stepped(now, inp)), before, h, st) && !Stalled(hosts, before) && st.power != Normal
    requires QuietSince(h0, quiet) && Longest(hosts, delay)
    ensures Left(hosts, h, st.hosts) < Left(hosts, h0, before)
      || (now < quiet + delay && QuietSince(h, quiet) && Left(hosts, h, st.hosts) == Left(hosts, h0, before))
  {
    var stepped := Then(h0, Stepped(now, inp));
    assert FirstSelection(stepped) == FirstSelection(h0) && LastWake(stepped) == LastWake(h0);
    if Left(hosts, h, st.hosts) >= Left(hosts, h0, before) {
      var c :| IsNext(hosts, before, Candidate(c)) && TooSoon(stepped, hosts, before, c.id);
      FindFinds(hosts, c.id);
    }
  }

  /** Either something was done, or it is too early since something was. */
  predicate Advances(before: nat, after: nat, quiet: int, next: int, now: int, delay: nat) {
    (after < before && next == now) || (after == before && next == quiet && now < quiet + delay)
  }

  /** Readings follow one another, and the step at `since`, within `gap`. */
  predicate Gapless(since: int, readings: seq<Reading>, gap: nat) {
    forall i :: 0 <= i < |readings| ==> 0 <= readings[i].now - LastTime(since, readings, i) <= gap
  }

  /** When the last of the first `n` readings was taken. */
  function LastTime(since: int, readings: seq<Reading>, n: nat): int
    requires n <= |readings|
  {
    if n == 0 then since else readings[n - 1].now
  }

  function Times(n: nat, unit: nat): nat {
    if n == 0 then 0 else Times(n - 1, unit) + unit
  }

  lemma {:induction false} TimesGrows(m: nat, n: nat, unit: nat)
    requires m < n
    ensures Times(m, unit) + unit <= Times(n, unit)
  {
    if m < n - 1 {
      TimesGrows(m, n - 1, unit);
    }
  }

  lemma {:induction false} TimesMultiplies(n: nat, unit: nat)
    ensures Times(n, unit) == n * unit
  {
    if n > 0 {
      TimesMultiplies(n - 1, unit);
    }
  }

  /** The time used so far is paid for by what was done, `unit` for each. */
  predicate InBudget(left0: nat, left: nat, since: int, quiet: int, now: int, delay: nat, unit: nat) {
    left <= left0 && quiet - since <= Times(left0 - left, unit) && now <= quiet + delay
  }

  lemma StaysInBudget(left0: nat, before: nat, after: nat, since: int, quiet: int, next: int, last: int, now: int, delay: nat, gap: nat)
    requires InBudget(left0, before, since, quiet, last, delay, delay + gap) && now - last <= gap
    requires Advances(before, after, quiet, next, now, delay)
    ensures InBudget(left0, after, since, next, now, delay, delay + gap)
  {
    if after < before {
      TimesGrows(left0 - before, left0 - after, delay + gap);
    }
  }

  lemma BudgetIsBounded(left0: nat, left: nat, since: int, quiet: int, now: int, delay: nat, unit: nat, work: nat)
    requires InBudget(left0, left, since, quiet, now, delay, unit) && left0 <= work + 1
    ensures now - since <= (work + 1) * unit + delay
  {
    if left0 - left < work + 1 {
      TimesGrows(left0 - left, work + 1, unit);
    }
    TimesMultiplies(work + 1, unit);
  }

  /** Unless a write has failed, a recovery begun at `start` with `left0` to do is stalled or within its budget. */
  ghost predicate OnCourse(hosts: seq<HostConfig>, start: History, left0: nat, since: int, quiet: int, now: int, delay: nat, gap: nat,
                           h: History, states: HostStates)
  {
    Faults(h) == Faults(start) ==>
      Stalled(hosts, states) || InBudget(left0, Left(hosts, h, states), since, quiet, now, delay, delay + gap)
  }

  /** What one tick promises the run, from the states before and after it. */
  ghost predicate Ticked(hosts: seq<HostConfig>, h0: History, before: HostStates, quiet: int, h: History, st: State, next: int, now: int, delay: nat) {
    if Stalled(hosts, before) then st.power == RestoreHosts && Stalled(hosts, st.hosts)
    else st.power == Normal || Advances(Left(hosts, h0, before), Left(hosts, h, st.hosts), quiet, next, now, delay)
  }

  lemma RestoringGoesOn(cfg: Config, m: Memory, now: int, inp: Inputs)
    requires m.st.power == RestoreHosts && SafeToWake(cfg, inp)
    ensures LeadsTo(cfg, m, now, inp, RestoreHosts)
  {
  }

  /** One safe tick, and the time since which nothing holds wakes back. */
  method TickOnce(c: Controller, r: Reading, ghost quiet: int, ghost delay: nat) returns (ok: bool, ghost next: int)
    requires c.Ready() && c.clock.Some? && c.clock.value <= r.now
    requires c.policy.engine.st.power == RestoreHosts && SafeToWake(c.cfg.policy, r.inp)
    requires QuietSince(c.policy.world.history, quiet) && Longest(c.cfg.hosts, delay)
    modifies c, c.policy.engine, c.policy.world`history, c.policy.world`ages, c.policy.world`forced, c.policy.world`mark
    ensures c.policy.world.Valid() && CutOf(old(c.policy.world.history), c.policy.world.history)
    ensures ok ==> c.Ready() && c.clock == Some(r.now) && QuietSince(c.policy.world.history, next)
    ensures Faults(c.policy.world.history) == old(Faults(c.policy.world.history)) ==>
      && ok && c.policy.engine.st.power in {RestoreHosts, Normal}
      && Ticked(c.cfg.hosts, old(c.policy.world.history), old(c.policy.engine.st.hosts), quiet, c.policy.world.history, c.policy.engine.st,
                next, r.now, delay)
  {
    ghost var h0, states := c.policy.world.history, c.policy.engine.st.hosts;
    RestoringGoesOn(c.cfg.policy, c.policy.engine.View(), r.now, r.inp);
    var decision := c.Tick(r.now, r.inp);
    ghost var h := c.policy.world.history;
    Extends(h0, Stepped(r.now, r.inp), c.policy.world.mark, h);
    ok, next := decision.Some?, r.now;
    if ok {
      QuietSinceStep(h);
      if Faults(h) == Faults(h0) && !Stalled(c.cfg.hosts, states) && c.policy.engine.st.power != Normal {
        TickAdvances(c.cfg.hosts, h0, r.now, r.inp, states, h, c.policy.engine.st, quiet, delay);
        if Left(c.cfg.hosts, h, c.policy.engine.st.hosts) >= Left(c.cfg.hosts, h0, states) {
          next := quiet;
        }
      }
    }
  }

  lemma StaysOnCourse(hosts: seq<HostConfig>, start: History, left0: nat, since: int, quiet: int, last: int, delay: nat, gap: nat,
                      h0: History, before: HostStates, h: History, st: State, next: int, now: int)
    requires OnCourse(hosts, start, left0, since, quiet, last, delay, gap, h0, before) && now - last <= gap
    requires CutOf(start, h0) && CutOf(h0, h) && st.power != Normal
    requires Faults(h) == Faults(h0) ==> Ticked(hosts, h0, before, quiet, h, st, next, now, delay)
    ensures OnCourse(hosts, start, left0, since, next, now, delay, gap, h, st.hosts)
  {
    FailuresGrow(start, h0);
    FailuresGrow(h0, h);
    if Faults(h) == Faults(start) && !Stalled(hosts, before) {
      StaysInBudget(left0, Left(hosts, h0, before), Left(hosts, h, st.hosts), since, quiet, next, last, now, delay, gap);
    }
  }

  /** Safe readings from `since` on, until hosts are no longer being restored. */
  method Restore(c: Controller, since: int, readings: seq<Reading>, ghost delay: nat, ghost gap: nat) returns (over: bool, ghost quiet: int)
    requires c.Ready() && c.clock == Some(since) && c.policy.engine.st.power == RestoreHosts
    requires Gapless(since, readings, gap) && Longest(c.cfg.hosts, delay)
    requires forall r :: r in readings ==> SafeToWake(c.cfg.policy, r.inp)
    modifies c, c.policy.engine, c.policy.world`history, c.policy.world`ages, c.policy.world`forced, c.policy.world`mark
    ensures c.policy.world.Valid() && CutOf(old(c.policy.world.history), c.policy.world.history)
    ensures over && Faults(c.policy.world.history) == old(Faults(c.policy.world.history)) ==>
      c.Ready() && c.policy.engine.st.power == Normal
    ensures !over ==>
      && c.Ready() && c.clock == Some(LastTime(since, readings, |readings|)) && c.policy.engine.st.power == RestoreHosts
      && QuietSince(c.policy.world.history, quiet)
      && OnCourse(c.cfg.hosts, old(c.policy.world.history), old(Left(c.cfg.hosts, c.policy.world.history, c.policy.engine.st.hosts)), since, quiet,
                  LastTime(since, readings, |readings|), delay, gap, c.policy.world.history, c.policy.engine.st.hosts)
  {
    if readings == [] {
      QuietSinceStep(c.policy.world.history);
      return false, since;
    }
    var n := |readings| - 1;
    ghost var start, left0 := c.policy.world.history, Left(c.cfg.hosts, c.policy.world.history, c.policy.engine.st.hosts);
    GaplessSplits(since, readings, gap);
    over, quiet := Restore(c, since, readings[..n], delay, gap);
    if !over {
      over, quiet := Go(c, readings[n], start, left0, since, quiet, delay, gap);
    }
  }

  lemma GaplessSplits(since: int, readings: seq<Reading>, gap: nat)
    requires Gapless(since, readings, gap) && readings != []
    ensures var n := |readings| - 1;
      && Gapless(since, readings[..n], gap) && LastTime(since, readings[..n], n) == LastTime(since, readings, n)
      && 0 <= readings[n].now - LastTime(since, readings, n) <= gap
  {
    var n := |readings| - 1;
    forall i | 0 <= i < n ensures 0 <= readings[..n][i].now - LastTime(since, readings[..n], i) <= gap {
      assert LastTime(since, readings[..n], i) == LastTime(since, readings, i);
    }
  }

  /** One reading of that run. */
  method Go(c: Controller, r: Reading, ghost start: History, ghost left0: nat, ghost since: int, ghost quiet: int, ghost delay: nat, ghost gap: nat)
    returns (over: bool, ghost next: int)
    requires c.Ready() && c.clock.Some? && 0 <= r.now - c.clock.value <= gap
    requires c.policy.engine.st.power == RestoreHosts && SafeToWake(c.cfg.policy, r.inp)
    requires QuietSince(c.policy.world.history, quiet) && CutOf(start, c.policy.world.history) && Longest(c.cfg.hosts, delay)
    requires OnCourse(c.cfg.hosts, start, left0, since, quiet, c.clock.value, delay, gap, c.policy.world.history, c.policy.engine.st.hosts)
    modifies c, c.policy.engine, c.policy.world`history, c.policy.world`ages, c.policy.world`forced, c.policy.world`mark
    ensures c.policy.world.Valid() && CutOf(start, c.policy.world.history)
    ensures over && Faults(c.policy.world.history) == Faults(start) ==> c.Ready() && c.policy.engine.st.power == Normal
    ensures !over ==>
      && c.Ready() && c.clock == Some(r.now) && c.policy.engine.st.power == RestoreHosts && QuietSince(c.policy.world.history, next)
      && OnCourse(c.cfg.hosts, start, left0, since, next, r.now, delay, gap, c.policy.world.history, c.policy.engine.st.hosts)
  {
    ghost var h0, states, last := c.policy.world.history, c.policy.engine.st.hosts, c.clock.value;
    var ok;
    ok, next := TickOnce(c, r, quiet, delay);
    CutOfIsTransitive(start, h0, c.policy.world.history);
    FailuresGrow(start, h0);
    FailuresGrow(h0, c.policy.world.history);
    over := !ok || c.policy.State().power != RestoreHosts;
    if !over {
      StaysOnCourse(c.cfg.hosts, start, left0, since, quiet, last, delay, gap, h0, states, c.policy.world.history, c.policy.engine.st, next, r.now);
    }
  }

  /**
   * Restoring hosts takes no longer than the work left when it begins, and one more, times the longest configured
   * distance between wakes and the longest gap between readings: after that, as long as it is safe to go on and no
   * write fails, recovery is over or stalled. It is over if all processes so far have run with the same hosts.
   */
  method RecoveryEnds(c: Controller, since: int, readings: seq<Reading>, ghost delay: nat, ghost gap: nat)
    requires c.Ready() && c.clock == Some(since) && c.policy.engine.st.power == RestoreHosts
    requires Gapless(since, readings, gap) && Longest(c.cfg.hosts, delay)
    requires forall r :: r in readings ==> SafeToWake(c.cfg.policy, r.inp)
    requires LastTime(since, readings, |readings|) - since > (Work(c.cfg.hosts, c.policy.engine.st.hosts) + 1) * (delay + gap) + delay
    modifies c, c.policy.engine, c.policy.world`history, c.policy.world`ages, c.policy.world`forced, c.policy.world`mark
    ensures c.policy.world.Valid() && CutOf(old(c.policy.world.history), c.policy.world.history)
    ensures Faults(c.policy.world.history) == old(Faults(c.policy.world.history)) ==>
      && c.Ready()
      && (c.policy.engine.st.power == Normal
          || (c.policy.engine.st.power == RestoreHosts && Stalled(c.cfg.hosts, c.policy.engine.st.hosts)
              && exists cfg :: cfg in c.policy.world.started && cfg.hosts != c.cfg.hosts))
  {
    hide Controller.Alive, World.Valid, Stalled, OnCourse, QuietSince, CutOf, Faults, Work, Gapless, Longest, Legal;
    hide Replay, Started;
    ghost var start, work := c.policy.world.history, Work(c.cfg.hosts, c.policy.engine.st.hosts);
    ghost var left0 := Left(c.cfg.hosts, start, c.policy.engine.st.hosts);
    var over;
    ghost var quiet;
    over, quiet := Restore(c, since, readings, delay, gap);
    if !over && Faults(c.policy.world.history) == Faults(start) {
      c.RunsThis();
      OutOfTime(c.cfg.hosts, start, left0, since, quiet, LastTime(since, readings, |readings|), delay, gap,
                c.policy.world.history, c.policy.engine.st.hosts, work);
      StallNeedsOtherHosts(c.policy.world.history, c.cfg.hosts);
    }
  }

  lemma OutOfTime(hosts: seq<HostConfig>, start: History, left0: nat, since: int, quiet: int, now: int, delay: nat, gap: nat,
                  h: History, states: HostStates, work: nat)
    requires OnCourse(hosts, start, left0, since, quiet, now, delay, gap, h, states) && Faults(h) == Faults(start)
    requires left0 <= work + 1 && now - since > (work + 1) * (delay + gap) + delay
    ensures Stalled(hosts, states)
  {
    if !Stalled(hosts, states) {
      BudgetIsBounded(left0, Left(hosts, h, states), since, quiet, now, delay, delay + gap, work);
    }
  }

  lemma StallNeedsOtherHosts(h: History, hosts: seq<HostConfig>)
    requires Legal(h) && Replay(h).process.Some? && Stalled(hosts, Replay(h).process.value.memory.st.hosts)
    ensures exists cfg :: cfg in Started(h) && cfg.hosts != hosts
  {
    if forall cfg :: cfg in Started(h) ==> cfg.hosts == hosts {
      StartedIsRun(h, hosts);
      RecoveryNeverStalls(h, hosts);
    }
  }

  lemma {:induction false} StartedIsRun(h: History, hosts: seq<HostConfig>)
    requires forall cfg :: cfg in Started(h) ==> cfg.hosts == hosts
    ensures RunsOnly(h, hosts)
  {
    if h.Then? {
      assert forall cfg :: cfg in Started(h.past) ==> cfg in Started(h);
      assert h.last.Booted? ==> h.last.cfg in Started(h);
      StartedIsRun(h.past, hosts);
    }
  }
}
