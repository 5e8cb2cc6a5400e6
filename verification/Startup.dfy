/** Reconciling the configuration history before the agent starts, whatever a crash or damaged pointers left behind. */
module Startup {
  import opened Basics
  import opened Revisions
  import opened ConfigManager

  // ---------------------------------------------------------------- what recovery does when nothing fails

  datatype Recovered = Recovered(d: DiskState, ok: bool)

  /** A known-good revision put back in force; impossible without one whose bytes exist. */
  function Restored(d: DiskState, good: Option<string>): Recovered {
    if good.None? || ContentOf(d.archive, good.value).None? then Recovered(d, false)
    else Recovered(d.(config := ContentOf(d.archive, good.value), active := Points(good.value)), true)
  }

  function Repaired(d: DiskState, good: Option<string>): Recovered {
    var r := Restored(d, good);
    if !r.ok then r else Recovered(r.d.(lastKnownGood := Points(good.value)), true)
  }

  function Target(p: Pointer): Option<string> {
    if p.Points? then Some(p.id) else None
  }

  /** An interrupted transaction brought to an end; `good` is what a repair would fall back on. */
  function Concluded(d: DiskState, good: Option<string>): Recovered {
    if d.active.Damaged? then Repaired(d, good)
    else if d.lastKnownGood.Damaged? && good.None? then Recovered(d, false)
    else
      var d := if d.lastKnownGood.Damaged? then d.(lastKnownGood := Points(good.value)) else d;
      if d.active.Missing? then Recovered(d, true)
      else
        var m := ManifestOf(d.archive, d.active.id);
        var last := Target(d.lastKnownGood);
        if m.None? then Restored(d, last)
        else if d.lastKnownGood == d.active then Recovered(d, m.value.status == KnownGood)
        else match m.value.status
          case KnownGood =>
            Recovered(d.(previousKnownGood := if last.Some? then d.lastKnownGood else d.previousKnownGood, lastKnownGood := d.active), true)
          case RolledBack => Recovered(d, true)
          case _ => Restored(d, last)
  }

  /** There is no active revision to compare the active file with, or the two agree. */
  predicate Fits(d: DiskState) {
    d.active.Missing?
    || (d.active.Points? && ManifestOf(d.archive, d.active.id).Some? && d.config.Some?
        && ContentMatches(ManifestOf(d.archive, d.active.id).value, d.config.value))
  }

  /** The active file checked against the revision it is meant to be. */
  function Checked(d: DiskState, good: Option<string>): Recovered {
    if Fits(d) then Recovered(d, true) else Repaired(d, good)
  }

  // ---------------------------------------------------------------- the fallback

  /** The last known-good revision if it is still sound, else the newest sound one, if any. */
  ghost predicate IsFallback(d: DiskState, good: Option<string>) {
    if d.lastKnownGood.Points? && Verified(d.archive, d.lastKnownGood.id) then good == Some(d.lastKnownGood.id)
    else if good.None? then forall id :: !Verified(d.archive, id)
    else Verified(d.archive, good.value) && forall id :: Verified(d.archive, id) ==> !Older(d.archive, good.value, id)
  }

  predicate Older(a: Archive, x: string, y: string)
    requires ManifestOf(a, x).Some? && ManifestOf(a, y).Some?
  {
    Newer(ManifestOf(a, y).value, ManifestOf(a, x).value)
  }

  method KnownGoodForRepair(m: Manager) returns (good: Option<string>)
    requires WellKept(m.disk.now.archive)
    ensures IsFallback(m.disk.now, good)
  {
    var last := m.disk.now.lastKnownGood;
    if last.Points? {
      var manifest := ManifestOf(m.disk.now.archive, last.id);
      if manifest.Some? && manifest.value.status == KnownGood {
        var content := ContentOf(m.disk.now.archive, last.id);
        if content.Some? && ContentMatches(manifest.value, content.value) {
          return Some(last.id);
        }
      }
    }
    var revisions := m.KnownGoodRevisions();
    for i := 0 to |revisions|
      invariant forall j :: 0 <= j < i ==> !Verified(m.disk.now.archive, revisions[j].revisionId)
    {
      var content := ContentOf(m.disk.now.archive, revisions[i].revisionId);
      if content.Some? && ContentMatches(revisions[i], content.value) {
        assert revisions[i] in revisions;
        NewestVerified(m.disk.now.archive, revisions, i);
        return Some(revisions[i].revisionId);
      }
    }
    NoneVerified(m.disk.now.archive, revisions);
    return None;
  }

  /** The first sound revision of the list is the newest sound one. */
  lemma NewestVerified(a: Archive, listed: seq<Manifest>, i: nat)
    requires WellKept(a) && ListsKnownGood(a, listed) && i < |listed|
    requires ManifestOf(a, listed[i].revisionId) == Some(listed[i])
    requires forall j :: 0 <= j < i ==> !Verified(a, listed[j].revisionId)
    ensures forall id :: Verified(a, id) ==> !Older(a, listed[i].revisionId, id)
  {
    forall id | Verified(a, id) ensures !Older(a, listed[i].revisionId, id) {
      var m := ManifestOf(a, id).value;
      assert m in listed;
      var j :| 0 <= j < |listed| && listed[j] == m;
      LessIsTotal(m.revisionId, listed[i].revisionId);
    }
  }

  lemma NoneVerified(a: Archive, listed: seq<Manifest>)
    requires WellKept(a) && ListsKnownGood(a, listed)
    requires forall j :: 0 <= j < |listed| ==> !Verified(a, listed[j].revisionId)
    ensures forall id :: !Verified(a, id)
  {
    forall id ensures !Verified(a, id) {
      if ManifestOf(a, id).Some? && ManifestOf(a, id).value in listed {
        var j :| 0 <= j < |listed| && listed[j] == ManifestOf(a, id).value;
      }
    }
  }

  // ---------------------------------------------------------------- recovery itself

  /** The runtime, where there is one, said yes to everything it was asked. */
  twostate predicate Calm(r: Runtime?)
    reads r
  {
    r == null || AllYes(old(r.answers), r.answers)
  }

  /** It said yes to everything, and was asked to take over and whether it is healthy if the configuration has `changed`. */
  twostate predicate Agreed(r: Runtime?, changed: bool)
    reads r
  {
    Calm(r) && (r != null && changed ==> |r.answers| >= |old(r.answers)| + 2)
  }

  /** Puts a known-good revision back in force. */
  method RestoreKnownGoodLocked(m: Manager, good: Option<string>, r: Runtime?) returns (ok: bool)
    requires m.disk.Valid()
    requires m.disk.intact && good.Some? ==> Verified(m.disk.now.archive, good.value)
    modifies m.disk, r
    ensures m.disk.Valid() && m.disk.Extends() && m.disk.now.archive == old(m.disk.now.archive)
    ensures ok ==> m.disk.now.errors == old(m.disk.now.errors)
    ensures m.disk.now.errors == old(m.disk.now.errors) ==>
      m.disk.now == Restored(old(m.disk.now), good).d && (ok ==> Restored(old(m.disk.now), good).ok)
      && (Calm(r) ==> ok == Restored(old(m.disk.now), good).ok)
    ensures r != null ==> old(r.answers) <= r.answers
    ensures ok ==> Agreed(r, true)
  {
    if good.None? {
      return false;
    }
    var content := ContentOf(m.disk.now.archive, good.value);
    if content.None? {
      return false;
    }
    ok := m.Install(good.value, content.value);
    if !ok {
      return;
    }
    ok := m.Exercise(r);
  }

  /** Falls back on a sound known-good revision and makes it the last one. */
  method RepairKnownGoodLocked(m: Manager, r: Runtime?) returns (ok: bool, ghost good: Option<string>)
    requires m.disk.Valid() && WellKept(m.disk.now.archive)
    modifies m.disk, r
    ensures m.disk.Valid() && m.disk.Extends() && m.disk.now.archive == old(m.disk.now.archive)
    ensures IsFallback(old(m.disk.now), good)
    ensures ok ==> m.disk.now.errors == old(m.disk.now.errors)
    ensures m.disk.now.errors == old(m.disk.now.errors) && (ok || Calm(r) || old(m.disk.now.lastKnownGood) == PointerTo(good)) ==>
      m.disk.now == Repaired(old(m.disk.now), good).d
    ensures m.disk.now.errors == old(m.disk.now.errors) && Calm(r) ==> ok == Repaired(old(m.disk.now), good).ok
    ensures r != null ==> old(r.answers) <= r.answers
    ensures ok ==> Agreed(r, m.disk.now.config != old(m.disk.now.config))
  {
    var found := KnownGoodForRepair(m);
    good := found;
    if found.None? {
      return false, found;
    }
    ok := RestoreKnownGoodLocked(m, found, r);
    if !ok {
      return;
    }
    ok := m.Point(LastKnownGood, found.value);
  }

  function PointerTo(good: Option<string>): Pointer {
    if good.Some? then Points(good.value) else Missing
  }

  /** A history in the manager's charge, both of whose pointers can be read and relied on. */
  ghost predicate Sane(d: DiskState) {
    Safe(d) && Installed(d)
  }

  /** Brings an interrupted activation, promotion or rollback to an end. */
  method RecoverInterruptedLocked(m: Manager, r: Runtime?) returns (ok: bool, ghost good: Option<string>)
    requires m.disk.Valid() && WellKept(m.disk.now.archive)
    modifies m.disk, r
    ensures m.disk.Valid() && m.disk.Extends() && m.disk.now.archive == old(m.disk.now.archive)
    ensures old(m.disk.now.active.Damaged? || m.disk.now.lastKnownGood.Damaged?) ==> IsFallback(old(m.disk.now), good)
    ensures ok ==> m.disk.now.errors == old(m.disk.now.errors)
    ensures m.disk.now.errors == old(m.disk.now.errors) && (ok || Calm(r) || Sane(old(m.disk.now))) ==>
      m.disk.now == Concluded(old(m.disk.now), good).d
    ensures m.disk.now.errors == old(m.disk.now.errors) && Calm(r) ==> ok == Concluded(old(m.disk.now), good).ok
    ensures m.disk.now.errors == old(m.disk.now.errors) && Sane(old(m.disk.now)) && !ok ==> Settled(m.disk.now)
    ensures old(Settled(m.disk.now)) ==> ok && m.disk.log == old(m.disk.log)
    ensures r != null ==> old(r.answers) <= r.answers
    ensures ok ==> Agreed(r, m.disk.now.config != old(m.disk.now.config))
  {
    if m.disk.now.active.Damaged? {
      ok, good := RepairKnownGoodLocked(m, r);
      return;
    }
    good := None;
    var last := Target(m.disk.now.lastKnownGood);
    if m.disk.now.lastKnownGood.Damaged? {
      last := KnownGoodForRepair(m);
      good := last;
      if last.None? {
        return false, good;
      }
      ok := m.Point(LastKnownGood, last.value);
      if !ok {
        return;
      }
    }
    ok := ConcludeActive(m, last, r);
  }

  /** The rest, once the last-known-good pointer can be read. */
  method ConcludeActive(m: Manager, last: Option<string>, r: Runtime?) returns (ok: bool)
    requires m.disk.Valid() && !m.disk.now.active.Damaged? && !m.disk.now.lastKnownGood.Damaged?
    requires last == Target(m.disk.now.lastKnownGood) && (m.disk.intact ==> Safe(m.disk.now))
    modifies m.disk, r
    ensures m.disk.Valid() && m.disk.Extends() && m.disk.now.archive == old(m.disk.now.archive)
    ensures ok ==> m.disk.now.errors == old(m.disk.now.errors)
    ensures m.disk.now.errors == old(m.disk.now.errors) && (ok || Calm(r) || Sane(old(m.disk.now))) ==>
      m.disk.now == Concluded(old(m.disk.now), None).d
    ensures m.disk.now.errors == old(m.disk.now.errors) && Calm(r) ==> ok == Concluded(old(m.disk.now), None).ok
    ensures m.disk.now.errors == old(m.disk.now.errors) && Sane(old(m.disk.now)) && !ok ==> Settled(m.disk.now)
    ensures old(Settled(m.disk.now)) ==> ok && m.disk.log == old(m.disk.log)
    ensures r != null ==> old(r.answers) <= r.answers
    ensures ok ==> Agreed(r, m.disk.now.config != old(m.disk.now.config))
  {
    if m.disk.now.active.Missing? {
      return true;
    }
    var active := m.disk.now.active.id;
    var manifest := ManifestOf(m.disk.now.archive, active);
    if manifest.None? {
      ok := RestoreKnownGoodLocked(m, last, r);
      return;
    }
    if last == Some(active) {
      return manifest.value.status == KnownGood;
    }
    if manifest.value.status == KnownGood {
      ok := m.MakeLast(active, m.disk.now.lastKnownGood);
      return;
    }
    if manifest.value.status in {Candidate, Validating, Failed} {
      ok := RestoreKnownGoodLocked(m, last, r);
      return;
    }
    return true;
  }

  /** Compares the active file with the active revision, and repairs what does not fit. */
  method CheckActive(m: Manager, r: Runtime?) returns (ok: bool, ghost good: Option<string>)
    requires m.disk.Valid() && WellKept(m.disk.now.archive)
    modifies m.disk, r
    ensures m.disk.Valid() && m.disk.Extends() && m.disk.now.archive == old(m.disk.now.archive)
    ensures r != null ==> old(r.answers) <= r.answers
    ensures ok ==> Agreed(r, m.disk.now.config != old(m.disk.now.config))
    ensures IsFallback(old(m.disk.now), good) || (ok && m.disk.log == old(m.disk.log) && Fits(old(m.disk.now)))
    ensures old(Settled(m.disk.now)) ==> ok && m.disk.log == old(m.disk.log)
    ensures ok ==> m.disk.now.errors == old(m.disk.now.errors)
    ensures m.disk.now.errors == old(m.disk.now.errors) && (ok || Calm(r) || old(m.disk.now.lastKnownGood) == PointerTo(good)) ==>
      m.disk.now == Checked(old(m.disk.now), good).d
    ensures m.disk.now.errors == old(m.disk.now.errors) && Calm(r) ==> ok == Checked(old(m.disk.now), good).ok
  {
    good := None;
    if m.disk.now.active.Damaged? {
      ok, good := RepairKnownGoodLocked(m, r);
      return;
    }
    if m.disk.now.active.Missing? {
      return true, None;
    }
    var manifest := ManifestOf(m.disk.now.archive, m.disk.now.active.id);
    if manifest.Some? && m.disk.now.config.Some? && ContentMatches(manifest.value, m.disk.now.config.value) {
      return true, None;
    }
    ok, good := RepairKnownGoodLocked(m, r);
  }

  /**
   * The start-up entry point; `acquired` says whether the history lock could be had. While somebody else holds it,
   * nothing happens.
   *
   * From any state the manager and its crashes can leave, a run in which no write fails ends with the last
   * known-good revision in force, which is the old one or an active one that was already known good. With damaged
   * pointers and some sound known-good revision left, it does so unless the old state was stuck. A settled history
   * is left alone. Success is reported unless a write failed or the runtime said no, and never for a changed
   * configuration that the runtime was not asked about.
   */
  method RecoverForStartup(m: Manager, acquired: bool, r: Runtime?) returns (ok: bool)
    requires m.disk.Valid() && WellKept(m.disk.now.archive)
    modifies m.disk, r
    ensures m.disk.Valid() && m.disk.Extends() && m.disk.now.archive == old(m.disk.now.archive)
    ensures !acquired || old(Settled(m.disk.now)) ==> ok && m.disk.log == old(m.disk.log)
    ensures ok ==> m.disk.now.errors == old(m.disk.now.errors)
    ensures acquired && Sane(old(m.disk.now)) && m.disk.now.errors == old(m.disk.now.errors) ==>
      && Settled(m.disk.now)
      && (m.disk.now.active == old(m.disk.now.lastKnownGood)
          || (m.disk.now.active == old(m.disk.now.active) && HasStatus(old(m.disk.now.archive), m.disk.now.active.id, KnownGood)))
    ensures r != null ==> old(r.answers) <= r.answers
    ensures ok ==> Agreed(r, m.disk.now.config != old(m.disk.now.config))
    ensures acquired && Sane(old(m.disk.now)) && m.disk.now.errors == old(m.disk.now.errors) && Calm(r) ==> ok
    ensures acquired && Disturbed(old(m.disk.now)) && m.disk.now.errors == old(m.disk.now.errors) && Calm(r) ==> ok
    ensures acquired && Disturbed(old(m.disk.now)) && ok ==> (Settled(m.disk.now) <==> !Stuck(old(m.disk.now)))
  {
    if !acquired {
      return true;
    }
    ghost var d0 := m.disk.now;
    ghost var good1, good2;
    ok, good1 := RecoverInterruptedLocked(m, r);
    ghost var asked := if r == null then [] else r.answers;
    if !ok {
      if Disturbed(d0) && Calm(r) && m.disk.now.errors == d0.errors {
        DisturbedConcludes(d0, good1);
      }
      if Sane(d0) {
        SafeConcludes(d0, good1);
      }
      return;
    }
    ghost var d1 := m.disk.now;
    ok, good2 := CheckActive(m, r);
    if r != null {
      CalmSplits(old(r.answers), asked, r.answers);
    }
    if Sane(d0) {
      SafeConcludes(d0, good1);
      SafeSettles(d0, good1, d1, good2);
    }
    if Disturbed(d0) {
      DisturbedConcludes(d0, good1);
      DisturbedSettles(d0, good1, d1, good2);
    }
  }

  lemma CalmSplits(a: seq<bool>, b: seq<bool>, c: seq<bool>)
    requires a <= b <= c
    ensures AllYes(a, c) <==> AllYes(a, b) && AllYes(b, c)
  {
    assert forall i :: |a| <= i < |b| ==> b[i] == c[i];
  }

  // ---------------------------------------------------------------- crashes

  /** Whatever state a crash leaves of an undamaged, installed history, start-up can conclude it. */
  lemma SafeConcludes(d: DiskState, good: Option<string>)
    requires Sane(d)
    ensures var x := Concluded(d, good);
      && x.ok && Sane(x.d)
      && x.d.archive == d.archive && x.d.lastKnownGood == x.d.active
      && (x.d.active == d.lastKnownGood || (x.d.active == d.active && HasStatus(d.archive, d.active.id, KnownGood)))
  {
  }

  lemma SafeSettles(d: DiskState, good1: Option<string>, d1: DiskState, good2: Option<string>)
    requires Sane(d) && d1 == Concluded(d, good1).d
    requires IsFallback(d1, good2) || Fits(d1)
    ensures var x := Checked(d1, good2); x.ok && Settled(x.d) && x.d.active == d1.active
    ensures good2 == Target(d1.lastKnownGood) || Fits(d1)
  {
    SafeConcludes(d, good1);
  }

  // ---------------------------------------------------------------- damaged pointers

  /** A pointer that should be readable is not, but a sound known-good revision is left. */
  ghost predicate Disturbed(d: DiskState) {
    WellKept(d.archive) && (d.active.Damaged? || d.lastKnownGood.Damaged?) && exists id :: Verified(d.archive, id)
  }

  /**
   * Start-up recovery accepts such a state as it finds it: no active pointer at all, or an active file that matches
   * a rolled-back revision, or a known-good one whose own copy is gone.
   */
  predicate Stuck(d: DiskState) {
    || d.active.Missing?
    || (d.active.Points? && ManifestOf(d.archive, d.active.id).Some? && d.config == Some(ManifestOf(d.archive, d.active.id).value.digest)
        && (HasStatus(d.archive, d.active.id, RolledBack)
            || (HasStatus(d.archive, d.active.id, KnownGood) && !Verified(d.archive, d.active.id))))
  }

  lemma DisturbedConcludes(d: DiskState, good: Option<string>)
    requires Disturbed(d) && IsFallback(d, good)
    ensures good.Some? && Concluded(d, good).ok
    ensures WellKept(Concluded(d, good).d.archive) && exists id :: Verified(Concluded(d, good).d.archive, id)
  {
  }

  lemma DisturbedSettles(d: DiskState, good1: Option<string>, d1: DiskState, good2: Option<string>)
    requires Disturbed(d) && IsFallback(d, good1) && d1 == Concluded(d, good1).d
    requires IsFallback(d1, good2) || Fits(d1)
    ensures Checked(d1, good2).ok && (Settled(Checked(d1, good2).d) <==> !Stuck(d))
  {
    DisturbedConcludes(d, good1);
    assert Verified(d1.archive, good1.value);
  }

  /** Damage to the pointers alone, of a history the manager left, never does that: recovery settles it. */
  lemma DamagedPointersAreNotStuck(d0: DiskState, d: DiskState)
    requires Sane(d0) && d.archive == d0.archive && d.config == d0.config
    requires d.active in {d0.active, Damaged} && d.lastKnownGood in {d0.lastKnownGood, Damaged}
    requires d.active.Damaged? || d.lastKnownGood.Damaged?
    ensures Disturbed(d) && !Stuck(d)
  {
    assert Verified(d.archive, d0.lastKnownGood.id);
  }

  /**
   * A stuck state with the active revision's own manifest and bytes intact: the last-known-good pointer is damaged
   * and the active pointer names a rolled-back revision whose bytes are in force. Recovery reports success. The manager
   * itself never leaves the active pointer on such a revision; it takes more than a damaged pointer to get here.
   */
  lemma RolledBackRevisionStaysActive()
    ensures exists d: DiskState, good ::
      && Disturbed(d) && IsFallback(d, good) && d.active.Points?
      && ManifestOf(d.archive, d.active.id).Some? && ContentOf(d.archive, d.active.id) == Some(ManifestOf(d.archive, d.active.id).value.digest)
      && Concluded(d, good).ok && Checked(Concluded(d, good).d, good).ok && !Settled(Checked(Concluded(d, good).d, good).d)
  {
    var sound := Revision(Some("old"), Kept(Manifest("cfg-a", 1, "install", "", KnownGood, "old")));
    var undone := Revision(Some("new"), Kept(Manifest("cfg-b", 2, "edit", "cfg-a", RolledBack, "new")));
    var d := DiskState(Points("cfg-b"), Damaged, Missing, Some("new"), map["cfg-a" := sound, "cfg-b" := undone], 0, {});
    assert Verified(d.archive, "cfg-a");
    assert forall id :: Verified(d.archive, id) ==> id == "cfg-a";
    LessIsTotal("cfg-a", "cfg-a");
    assert IsFallback(d, Some("cfg-a"));
    DisturbedSettles(d, Some("cfg-a"), Concluded(d, Some("cfg-a")).d, Some("cfg-a"));
  }

  // ---------------------------------------------------------------- whole runs

  datatype Operation =
    | Beginning(source: string, content: Content)
    | Activating(id: string)
    | RollingBack(target: string)
    | Bootstrapping(source: string, content: Content)
    | Pruning(keep: int)
    | Starting(acquired: bool)

  method Perform(m: Manager, op: Operation, r: Runtime?)
    requires m.disk.Valid() && m.disk.intact
    modifies m.disk, m.clock, r
    ensures m.disk.Valid() && m.disk.Extends()
  {
    match op {
      case Beginning(source, content) =>
        var begun := m.Begin(source, content);
      case Activating(id) =>
        var activated := m.ActivateAndValidate(id, r);
      case RollingBack(target) =>
        var ok := m.Rollback(target, r);
      case Bootstrapping(source, content) =>
        var done := m.BootstrapKnownGood(source, content);
      case Pruning(keep) =>
        var ok, listed := m.PruneRevisions(keep);
      case Starting(acquired) =>
        PointersAreSafe(m.disk.log);
        var ok := RecoverForStartup(m, acquired, r);
    }
  }

  /**
   * Any operations, start-up recoveries included, each of which may fail or be cut short by a crash at any of its
   * writes, leave a history that start-up can conclude.
   */
  method Endure(m: Manager, ops: seq<Operation>, r: Runtime?)
    requires m.disk.Valid() && m.disk.intact && Installed(m.disk.now)
    modifies m.disk, m.clock, r
    ensures m.disk.Valid() && Sane(m.disk.now)
  {
    PointersAreSafe(m.disk.log);
    for i := 0 to |ops|
      invariant m.disk.Valid() && Sane(m.disk.now)
    {
      var before := |m.disk.log| - 1;
      Perform(m, ops[i], r);
      InstalledLasts(m.disk.log, before, |m.disk.log| - 1);
      var crash: bool := *;
      if crash {
        m.disk.Crash(before);
        InstalledLasts(m.disk.log, before, |m.disk.log| - 1);
      }
      PointersAreSafe(m.disk.log);
    }
  }

  /**
   * After all that, a start-up that gets the lock puts the last known-good configuration in force, or an active one
   * that had become known good: whenever it reports success, and even if it does not, unless one of its own writes
   * failed. It does report success if none failed and the runtime agreed. `found` is the place in the log that it
   * started from, and `asked` what the runtime had been asked before.
   */
  method SurviveCrashes(m: Manager, ops: seq<Operation>, r: Runtime?) returns (ok: bool, ghost found: nat, ghost asked: seq<bool>)
    requires m.disk.Valid() && m.disk.intact && Installed(m.disk.now)
    modifies m.disk, m.clock, r
    ensures m.disk.Valid() && found < |m.disk.log| && Sane(m.disk.log[found])
    ensures m.disk.log[found].errors == m.disk.now.errors && (r == null || AllYes(asked, r.answers)) ==> ok
    ensures ok || m.disk.log[found].errors == m.disk.now.errors ==>
      && Settled(m.disk.now)
      && (m.disk.now.active == m.disk.log[found].lastKnownGood
          || (m.disk.now.active == m.disk.log[found].active && HasStatus(m.disk.log[found].archive, m.disk.now.active.id, KnownGood)))
  {
    Endure(m, ops, r);
    found, asked := |m.disk.log| - 1, if r == null then [] else r.answers;
    ok := RecoverForStartup(m, true, r);
  }
}
