/** What every legal history keeps between the engine's memory, the disk and its own flags. */
module Invariants {
  import opened Basics
  import opened Power
  import opened Policy
  import opened Histories

  /** The flags a power state stands for. */
  predicate Coherent(st: State) {
    && ValidSemantic(st)
    && !st.power.Unsupported?
    && (st.power == Normal || st.power == BootReconcile ==> !st.shutdownCommitted && !st.recoveryStarted)
    && (st.power in {ShutdownCommitted, ShutdownInProgress, WaitingForAC, RecoveryWait, RecoveryStarted, RestoreHosts} ==> st.shutdownCommitted)
    && (st.power in {RecoveryStarted, RestoreHosts} ==> st.recoveryStarted)
    && (st.recoveryStarted ==> st.power in {RecoveryStarted, RestoreHosts, FailedSafe})
  }

  /** Memory equals disk, but for the boot mask and for host records whose write failed. */
  predicate Mirrors(st: State, disk: State, behind: bool) {
    if st.power == BootReconcile then !behind && st == disk.(power := BootReconcile)
    else Coherent(st) && st == if behind then disk.(hosts := st.hosts, sequence := st.sequence) else disk
  }

  /** What one engine transition may do to the durable record. */
  predicate Transitioned(before: State, after: State) {
    && after == before.(power := after.power, shutdownCommitted := after.shutdownCommitted,
                        recoveryStarted := after.recoveryStarted, outageElapsedSeconds := after.outageElapsedSeconds)
    && Coherent(after) && after.power != BootReconcile
    && (after.outageElapsedSeconds < before.outageElapsedSeconds ==>
          after.power == Normal || (before.power == Normal && after.power == OnBattery))
    && (before.shutdownCommitted && !after.shutdownCommitted ==> before.power == RestoreHosts && after.power == Normal)
  }

  ghost predicate Sound(s: System) {
    && (s.disk.None? ==> s.process.None?)
    && (s.disk.Some? ==> Coherent(s.disk.value) && s.disk.value.transactionId in s.issued)
    && (s.process.Some? ==>
          var p := s.process.value;
          && ValidConfig(p.cfg)
          && (p.memory.st.power == BootReconcile ==> p.memory == Boot(s.disk.value))
          && match p.pending
             case None => Mirrors(p.memory.st, s.disk.value, p.behind)
             case Some(before) => Mirrors(before, s.disk.value, p.behind) && Transitioned(before, p.memory.st))
  }

  /** A changed decision is one transition of the durable record; an unchanged one leaves it as the disk has it. */
  predicate StepsSoundly(m: Memory, disk: State, t: Transition) {
    && (t.memory.st.power == BootReconcile ==> t.memory == m)
    && if t.decision.changed then Transitioned(m.st, t.memory.st)
       else t.memory.st == m.st || (m.st.power == BootReconcile && t.memory.st == disk)
  }

  lemma BootSteps(cfg: Config, m: Memory, disk: State, now: int, inp: Inputs)
    requires Coherent(disk) && m == Boot(disk)
    ensures StepsSoundly(m, disk, ReconcileBoot(cfg, m, now, inp))
  {
  }

  lemma OutageSteps(cfg: Config, m: Memory, disk: State, now: int, inp: Inputs)
    requires Coherent(m.st) && m.st.power in {Normal, OnBattery, ShutdownCommitted, ShutdownInProgress}
    ensures StepsSoundly(m, disk, Advance(cfg, m, now, inp))
  {
  }

  lemma RecoverySteps(cfg: Config, m: Memory, disk: State, now: int, inp: Inputs)
    requires Coherent(m.st) && m.st.power in {WaitingForAC, RecoveryWait, RecoveryStarted, RestoreHosts, FailedSafe}
    ensures StepsSoundly(m, disk, Advance(cfg, m, now, inp))
  {
  }

  /** The engine never takes its error return from a sound memory. */
  lemma StepIsAccepted(cfg: Config, m: Memory, disk: State, behind: bool, now: int, inp: Inputs)
    requires Coherent(disk) && Mirrors(m.st, disk, behind)
    requires m.st.power == BootReconcile ==> m == Boot(disk)
    ensures Step(cfg, m, now, inp).Accepted?
    ensures var r := Step(cfg, m, now, inp); StepsSoundly(m, disk, Transition(r.memory, r.decision))
  {
    if m.st.power == BootReconcile {
      BootSteps(cfg, m, disk, now, inp);
    } else if m.st.power in {Normal, OnBattery, ShutdownCommitted, ShutdownInProgress} {
      OutageSteps(cfg, m, disk, now, inp);
    } else {
      RecoverySteps(cfg, m, disk, now, inp);
    }
  }

  lemma WriteKeepsSound(s: System, st: State, why: Cause, outcome: Outcome)
    requires Sound(s) && WriteAllowed(s, st, why)
    ensures Sound(Apply(s, Write(st, why, outcome)))
  {
    assert Coherent(st) && st.power != BootReconcile;
  }

  lemma ThinkKeepsSound(s: System, e: Event)
    requires Sound(s) && s.process.Some? && s.process.value.pending.None?
    requires e.Stepped? || (e.ShutdownPhaseDone? && s.process.value.memory.st.power in {ShutdownInProgress, ShutdownCommitted})
      || (e.RecoveryDone? && s.process.value.memory.st.power == RestoreHosts)
    ensures Sound(Apply(s, e))
  {
    if e.Stepped? {
      var p := s.process.value;
      StepIsAccepted(p.cfg.policy, p.memory, s.disk.value, p.behind, e.now, e.inp);
    }
  }

  lemma ApplyKeepsSound(h: History, e: Event)
    requires Sound(Replay(h)) && Enabled(h, e)
    ensures Sound(Replay(Then(h, e)))
  {
    match e
    case Write(st, why, outcome) => WriteKeepsSound(Replay(h), st, why, outcome);
    case Stepped(_, _) => ThinkKeepsSound(Replay(h), e);
    case ShutdownPhaseDone => ThinkKeepsSound(Replay(h), e);
    case RecoveryDone => ThinkKeepsSound(Replay(h), e);
    case _ =>
  }

  lemma {:induction false} LegalIsSound(h: History)
    requires Legal(h)
    ensures Sound(Replay(h))
  {
    if h.Then? {
      LegalIsSound(h.past);
      ApplyKeepsSound(h.past, h.last);
    }
  }

  /** Apart from engine steps, events leave the timers alone and move the power state only along fixed edges. */
  predicate QuietChange(before: Process, after: Process, e: Event) {
    && after.cfg == before.cfg
    && after.memory == before.memory.(st := after.memory.st)
    && (after.memory.st.power == before.memory.st.power
        || (e.ShutdownPhaseDone? && after.memory.st.power == WaitingForAC)
        || (e.Write? && e.why == GaveUp && after.memory.st.power == FailedSafe)
        || (e.Write? && e.why == Resumed && before.memory.st.power == BootReconcile && after.memory.st.power == ShutdownInProgress))
  }

  /** A process that survives an event other than a step is the same process, restarted, or done with recovery. */
  ghost predicate Quiet(h: History) {
    h.Then? && !h.last.Stepped? && Replay(h).process.Some? ==>
      var after := Replay(h).process.value;
      if h.last.Booted? then
        Replay(h.past).disk.Some? && after == Process(h.last.cfg, Boot(Replay(h.past).disk.value), None, false)
      else
        && Replay(h.past).process.Some? && !h.last.Provisioned?
        && if h.last.RecoveryDone? then after.memory.st.power == Normal && Replay(h.past).process.value.memory.st.power == RestoreHosts
           else QuietChange(Replay(h.past).process.value, after, h.last)
  }

  lemma LegalIsQuiet(h: History)
    requires Legal(h)
    ensures Quiet(h)
  {
  }

  /** The newest event left the disk, the transaction and the host records alone. */
  predicate HostsUntouched(h: History)
    requires h.Then?
  {
    var s, t := Replay(h.past), Replay(h);
    && t.disk == s.disk && t.issued == s.issued && (t.process.Some? <==> s.process.Some?)
    && (t.process.Some? ==>
          var before, after := s.process.value, t.process.value;
          && after.cfg == before.cfg && after.memory.st.hosts == before.memory.st.hosts
          && after.memory.st.transactionId == before.memory.st.transactionId)
  }

  /** Only writes and process starts touch the disk, the transaction or the host records. */
  lemma OnlyWritesTouchHosts(h: History)
    requires Legal(h) && h.Then? && !h.last.Write? && !h.last.Booted? && !h.last.Provisioned?
    ensures HostsUntouched(h)
  {
    if h.last.Stepped? {
      LegalIsSound(h.past);
      var p := Replay(h.past).process.value;
      StepIsAccepted(p.cfg.policy, p.memory, Replay(h.past).disk.value, p.behind, h.last.now, h.last.inp);
    }
  }
}
