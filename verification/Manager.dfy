/** The transactional operations on configuration revisions. */
module ConfigManager {
  import opened Basics
  import opened Sorting
  import opened Revisions

  const MAX_REVISION_ID_ATTEMPTS := 100

  type Positive = x: int | x > 0 witness 1

  /** The monotonic clock. */
  class Clock {
    var now: int

    /** How long every sleep was meant to last, and how many were interrupted. */
    ghost var sleeps: seq<nat>
    ghost var interruptions: nat

    constructor ()
    {
      now, sleeps, interruptions := 0, [], 0;
    }

    method Read() returns (t: int)
      modifies this
      ensures t == now >= old(now) && sleeps == old(sleeps) && interruptions == old(interruptions)
    {
      var passed: int :| passed >= 0;
      now := now + passed;
      t := now;
    }

    /** Sleeps at least this long, unless interrupted. */
    method Sleep(d: nat) returns (ok: bool)
      modifies this
      ensures now >= old(now) && (ok ==> now >= old(now) + d)
      ensures sleeps == old(sleeps) + [d] && interruptions == old(interruptions) + if ok then 0 else 1
    {
      var passed: int :| passed >= 0;
      ok := passed >= d;
      now := now + passed;
      sleeps := sleeps + [d];
      if !ok {
        interruptions := interruptions + 1;
      }
    }
  }

  /** The agent under the configuration on trial; its answers are arbitrary, and remembered. */
  class Runtime {
    ghost var answers: seq<bool>

    method Ask() returns (ok: bool)
      modifies this
      ensures answers == old(answers) + [ok]
    {
      ok := *;
      answers := answers + [ok];
    }

    method Apply() returns (ok: bool)
      modifies this
      ensures answers == old(answers) + [ok]
    {
      ok := Ask();
    }

    method Healthy() returns (ok: bool)
      modifies this
      ensures answers == old(answers) + [ok]
    {
      ok := Ask();
    }
  }

  function Decimal(n: nat): string {
    if n < 10 then [['0', '1', '2', '3', '4', '5', '6', '7', '8', '9'][n]]
    else Decimal(n / 10) + Decimal(n % 10)
  }

  /** The identifier tried at the `n`-th attempt. */
  function RevisionId(base: string, n: nat): string {
    if n == 0 then base else base + "-" + Decimal(n)
  }

  /** The number a string of digits stands for. */
  function Value(digits: string): nat {
    if digits == "" || !('0' <= digits[|digits| - 1] <= '9') then 0
    else Value(digits[..|digits| - 1]) * 10 + (digits[|digits| - 1] as nat - '0' as nat)
  }

  lemma {:induction false} DecimalReads(n: nat)
    ensures Value(Decimal(n)) == n && Decimal(n) != ""
  {
    if n < 10 {
      assert Decimal(n)[..0] == "";
    } else {
      DecimalReads(n / 10);
      DecimalReads(n % 10);
      var digits := Decimal(n);
      assert digits[..|digits| - 1] == Decimal(n / 10) && digits[|digits| - 1] == Decimal(n % 10)[0];
    }
  }

  /** The first identifier tried is the base itself; the others append their number, so no two are the same. */
  lemma RevisionIdsDiffer(base: string, m: nat, n: nat)
    requires m < n
    ensures RevisionId(base, 0) == base && RevisionId(base, n) == base + "-" + Decimal(n) && RevisionId(base, m) != RevisionId(base, n)
  {
    DecimalReads(m);
    DecimalReads(n);
    var long := RevisionId(base, n);
    assert long[|base| + 1..] == Decimal(n);
    if m > 0 {
      assert RevisionId(base, m)[|base| + 1..] == Decimal(m);
    }
  }

  /** Newest first, ties by identifier as directories are listed. */
  function AgeRank(m: Manifest): Rank {
    Rank(-m.createdAt, m.revisionId)
  }

  predicate FreeAt(a: Archive, base: string, id: string, n: nat) {
    n < 100 && id == RevisionId(base, n) && forall k :: 0 <= k < n ==> RevisionId(base, k) in a
  }

  /** The first of the hundred identifiers that was not taken. */
  ghost predicate FirstFree(a: Archive, base: string, id: string) {
    id !in a && exists n :: FreeAt(a, base, id, n)
  }

  predicate NoneFree(a: Archive, base: string) {
    forall n :: 0 <= n < 100 ==> RevisionId(base, n) in a
  }

  predicate AnyDamaged(d: DiskState) {
    d.active.Damaged? || d.lastKnownGood.Damaged? || d.previousKnownGood.Damaged?
  }

  /** Exactly the known-good revisions, each once, newest first. */
  ghost predicate ListsKnownGood(a: Archive, out: seq<Manifest>) {
    && (forall m :: m in out <==> HasStatus(a, m.revisionId, KnownGood) && ManifestOf(a, m.revisionId) == Some(m))
    && (forall i, j :: 0 <= i < j < |out| ==> out[i].revisionId != out[j].revisionId)
    && forall i, j :: 0 <= i < j < |out| ==> Newer(out[i], out[j])
  }

  /** Created later, or at the same time under a smaller identifier. */
  predicate Newer(a: Manifest, b: Manifest) {
    a.createdAt > b.createdAt || (a.createdAt == b.createdAt && Less(a.revisionId, b.revisionId))
  }

  /** What the previous known-good pointer names once `id` is the last known-good revision. */
  function OneBack(d: DiskState, id: string): Pointer {
    if d.lastKnownGood.Points? && d.lastKnownGood.id != id then d.lastKnownGood else d.previousKnownGood
  }

  class Manager {
    const disk: Disk
    const clock: Clock
    const probation: Positive
    const healthInterval: Positive
    const revisionKeep: Positive
    const parses: Content -> bool
    const stamp: (int, Content) -> string

    constructor (d: Disk, c: Clock, trial: int, interval: int, keep: int, accepts: Content -> bool, name: (int, Content) -> string)
      ensures disk == d && clock == c
      ensures probation == (if trial <= 0 then 60 else trial) && healthInterval == (if interval <= 0 then 5 else interval)
      ensures revisionKeep == if keep <= 0 then 10 else keep
    {
      disk, clock, parses, stamp := d, c, accepts, name;
      probation := if trial <= 0 then 60 else trial;
      healthInterval := if interval <= 0 then 5 else interval;
      revisionKeep := if keep <= 0 then 10 else keep;
    }

    // -------------------------------------------------------------- beginning a revision

    method UniqueRevisionId(base: string) returns (id: Option<string>)
      ensures id.Some? ==> id.value !in disk.now.archive && FirstFree(disk.now.archive, base, id.value)
      ensures id.None? <==> NoneFree(disk.now.archive, base)
    {
      for n := 0 to MAX_REVISION_ID_ATTEMPTS
        invariant forall k :: 0 <= k < n ==> RevisionId(base, k) in disk.now.archive
      {
        if RevisionId(base, n) !in disk.now.archive {
          assert FreeAt(disk.now.archive, base, RevisionId(base, n), n);
          return Some(RevisionId(base, n));
        }
      }
      return None;
    }

    /** Stores a new candidate next to everything that is already there. */
    method BeginLocked(source: string, content: Content) returns (m: Option<Manifest>)
      requires disk.Valid()
      modifies disk, clock
      ensures disk.Valid() && disk.Extends()
      ensures m.Some? ==>
        && parses(content) && m.value.revisionId !in old(disk.now.archive)
        && m.value.status == Candidate && m.value.digest == content && m.value.source == source
        && disk.now == old(disk.now).(archive := old(disk.now.archive)[m.value.revisionId := Revision(Some(content), Kept(m.value))])
      ensures m.Some? ==>
        && m.value.parent == (if old(disk.now.active.Points?) then old(disk.now.active.id) else "")
        && old(clock.now) <= m.value.createdAt <= clock.now
        && exists t :: old(clock.now) <= t <= m.value.createdAt && FirstFree(old(disk.now.archive), stamp(t, content), m.value.revisionId)
      ensures OnlyAdds(old(disk.now), disk.now)
      ensures !parses(content) ==> m.None? && disk.now == old(disk.now)
      ensures m.None? && parses(content) ==>
        disk.now.errors > old(disk.now.errors)
        || exists t {:trigger stamp(t, content)} :: t >= old(clock.now) && NoneFree(old(disk.now.archive), stamp(t, content))
    {
      if !parses(content) {
        return None;
      }
      var t := clock.Read();
      var id := UniqueRevisionId(stamp(t, content));
      if id.None? {
        assert NoneFree(disk.now.archive, stamp(t, content));
        return None;
      }
      var parent := if disk.now.active.Points? then disk.now.active.id else "";
      m := StoreCandidate(id.value, source, parent, content);
    }

    /** Directory, bytes and manifest of a new revision, in this order. */
    method StoreCandidate(id: string, source: string, parent: string, content: Content) returns (m: Option<Manifest>)
      requires disk.Valid() && id !in disk.now.archive
      modifies disk, clock
      ensures disk.Valid() && disk.Extends() && OnlyAdds(old(disk.now), disk.now)
      ensures m.Some? ==>
        && m.value == Manifest(id, m.value.createdAt, source, parent, Candidate, content)
        && old(clock.now) <= m.value.createdAt <= clock.now
        && disk.now == old(disk.now).(archive := old(disk.now.archive)[id := Revision(Some(content), Kept(m.value))])
      ensures m.None? ==> disk.now.errors > old(disk.now.errors)
    {
      var ok := MakeDirectory(id);
      if !ok {
        return None;
      }
      ok := StoreContent(id, content);
      if !ok {
        return None;
      }
      var t := clock.Read();
      m := StoreManifest(Manifest(id, t, source, parent, Candidate, content));
    }

    method StoreManifest(manifest: Manifest) returns (m: Option<Manifest>)
      requires disk.Valid() && manifest.status == Candidate && manifest.revisionId in disk.now.archive
      requires disk.now.archive[manifest.revisionId].file.NoManifest?
      modifies disk
      ensures disk.Valid() && disk.Extends()
      ensures disk.now == old(disk.now).(archive := disk.now.archive, errors := disk.now.errors)
      ensures disk.now.archive in {old(disk.now.archive), WithManifest(old(disk.now.archive), manifest)}
      ensures m.Some? ==> m.value == manifest && disk.now == old(disk.now).(archive := WithManifest(old(disk.now.archive), manifest))
      ensures m.None? ==> disk.now.errors > old(disk.now.errors)
    {
      if disk.intact {
        FirstManifestIsPermitted(disk.now, manifest);
      }
      var ok := disk.WriteManifest(manifest);
      m := if ok then Some(manifest) else None;
    }

    method MakeDirectory(id: string) returns (ok: bool)
      requires disk.Valid() && id !in disk.now.archive
      modifies disk
      ensures disk.Valid() && disk.Extends() && OnlyAdds(old(disk.now), disk.now)
      ensures ok ==> disk.now == old(disk.now).(archive := old(disk.now.archive)[id := Revision(None, NoManifest)])
      ensures !ok ==> disk.now.errors > old(disk.now.errors)
    {
      var next := disk.now.(archive := disk.now.archive[id := Revision(None, NoManifest)]);
      if disk.intact {
        NewEntryIsPermitted(disk.now, id, Revision(None, NoManifest));
      }
      ok := disk.Commit(next);
    }

    method StoreContent(id: string, content: Content) returns (ok: bool)
      requires disk.Valid() && id in disk.now.archive && disk.now.archive[id] == Revision(None, NoManifest)
      modifies disk
      ensures disk.Valid() && disk.Extends()
      ensures disk.now.archive[id := Revision(None, NoManifest)] == old(disk.now.archive)
      ensures disk.now == old(disk.now).(archive := disk.now.archive, errors := disk.now.errors)
      ensures ok ==> disk.now == old(disk.now).(archive := old(disk.now.archive)[id := Revision(Some(content), NoManifest)])
      ensures !ok ==> disk.now.errors > old(disk.now.errors)
    {
      var next := disk.now.(archive := disk.now.archive[id := Revision(Some(content), NoManifest)]);
      if disk.intact {
        NewEntryIsPermitted(disk.now, id, Revision(Some(content), NoManifest));
      }
      ok := disk.Commit(next);
    }

    method Begin(source: string, content: Content) returns (m: Option<Manifest>)
      requires disk.Valid()
      modifies disk, clock
      ensures disk.Valid() && disk.Extends() && OnlyAdds(old(disk.now), disk.now)
      ensures m.Some? ==> m.value.revisionId !in old(disk.now.archive) && m.value.status == Candidate
      ensures m.None? ==>
        !parses(content) || disk.now.errors > old(disk.now.errors)
        || exists t {:trigger stamp(t, content)} :: t >= old(clock.now) && NoneFree(old(disk.now.archive), stamp(t, content))
      ensures old(Settled(disk.now)) ==> Settled(disk.now)
    {
      m := BeginLocked(source, content);
    }

    // -------------------------------------------------------------- writing manifests and pointers

    /** Moves a revision along its life cycle, from `was` to `n`. */
    method SetStatus(ghost was: Manifest, n: Manifest) returns (ok: bool)
      requires disk.Valid() && ManifestOf(disk.now.archive, n.revisionId) == Some(was)
      requires disk.intact ==> StatusMayChange(disk.now, was, n)
      modifies disk
      ensures disk.Valid() && disk.Extends() && StatusWritten(old(disk.now), disk.now, n, ok) && disk.log == old(disk.log) + [disk.now]
    {
      if disk.intact {
        StatusIsPermitted(disk.now, was, n);
      }
      ok := disk.WriteManifest(n);
    }

    method Point(which: Which, id: string) returns (ok: bool)
      requires disk.Valid()
      requires disk.intact ==> MayPoint(disk.now, which, id)
      modifies disk
      ensures disk.Valid() && disk.Extends()
      ensures var next := WithPointer(old(disk.now), which, Points(id));
        if ok then disk.now == next else FailedEitherWay(old(disk.now), next, disk.now)
      ensures disk.log == old(disk.log) + [disk.now]
    {
      if disk.intact {
        assert Safe(disk.log[|disk.log| - 1]);
      }
      ok := disk.WritePointer(which, id);
    }

    /** Puts the bytes of a revision in force and points the active pointer at it. */
    method Install(id: string, content: Content) returns (ok: bool)
      requires disk.Valid()
      requires disk.intact ==> MayPoint(disk.now, Active, id)
      modifies disk
      ensures disk.Valid() && disk.Extends() && Unmoved(old(disk.now), disk.now)
      ensures disk.now.active in {old(disk.now.active), Points(id)} && disk.now.config in {old(disk.now.config), Some(content)}
      ensures ok ==> disk.now == old(disk.now).(config := Some(content), active := Points(id))
      ensures !ok ==> disk.now.errors > old(disk.now.errors)
      ensures forall k :: |old(disk.log)| <= k < |disk.log| ==> disk.log[k].archive == old(disk.now.archive)
    {
      ok := disk.WriteConfig(content);
      if ok {
        ok := Point(Active, id);
      }
    }

    /** Makes a known-good revision the last one, remembering the one before it. */
    method MakeLast(id: string, oldLast: Pointer) returns (ok: bool)
      requires disk.Valid()
      requires disk.intact ==> MayPoint(disk.now, LastKnownGood, id)
      modifies disk
      ensures disk.Valid() && disk.Extends()
      ensures ok ==> disk.now == old(disk.now).(lastKnownGood := Points(id),
        previousKnownGood := if oldLast.Points? && oldLast.id != id then oldLast else old(disk.now.previousKnownGood))
      ensures !ok ==> disk.now.errors > old(disk.now.errors)
      ensures disk.now == old(disk.now).(lastKnownGood := disk.now.lastKnownGood, previousKnownGood := disk.now.previousKnownGood, errors := disk.now.errors)
      ensures disk.now.lastKnownGood in {old(disk.now.lastKnownGood), Points(id)}
    {
      if oldLast.Points? && oldLast.id != id {
        ok := Point(PreviousKnownGood, oldLast.id);
        if !ok {
          return;
        }
      }
      ok := Point(LastKnownGood, id);
    }

    // -------------------------------------------------------------- known-good revisions

    method KnownGoodRevisions() returns (out: seq<Manifest>)
      ensures WellKept(disk.now.archive) ==> ListsKnownGood(disk.now.archive, out)
      ensures forall m :: m in out ==> m.status == KnownGood
    {
      var found: seq<Manifest> := [];
      var left := disk.now.archive.Keys;
      while left != {}
        invariant left <= disk.now.archive.Keys
        invariant forall m :: m in found ==> m.status == KnownGood
        invariant WellKept(disk.now.archive) ==> Collected(disk.now.archive, left, found)
        decreases |left|
      {
        var id :| id in left;
        left := left - {id};
        var manifest := ManifestOf(disk.now.archive, id);
        if manifest.Some? && manifest.value.status == KnownGood {
          found := found + [manifest.value];
        }
      }
      out := StableSort(found, AgeRank);
      SortedCollection(disk.now.archive, found);
    }

    /** Deletes one revision; its files disappear in any order, and the deletion may stop half-way. */
    method RemoveAll(id: string) returns (ok: bool)
      requires disk.Valid() && disk.intact && id in disk.now.archive && !IsTarget(disk.now, id)
      modifies disk
      ensures disk.Valid() && disk.Extends() && Forgets(old(disk.now), disk.now, iset{id})
      ensures if ok then id !in disk.now.archive else disk.now.errors > old(disk.now.errors)
    {
      var bytesFirst: bool := *;
      var r := disk.now.archive[id];
      ok := Remove(id, Some(if bytesFirst then r.(content := None) else r.(file := NoManifest)));
      if ok {
        ok := Remove(id, Some(Revision(None, NoManifest)));
      }
      if ok {
        ok := Remove(id, None);
      }
    }

    method Remove(id: string, rest: Option<Revision>) returns (ok: bool)
      requires disk.Valid() && disk.intact && id in disk.now.archive && !IsTarget(disk.now, id)
      requires rest.Some? ==>
        rest.value.content in {None, disk.now.archive[id].content} && rest.value.file in {NoManifest, disk.now.archive[id].file}
      modifies disk
      ensures disk.Valid() && disk.Extends() && Forgets(old(disk.now), disk.now, iset{id})
      ensures ok ==> if rest.Some? then id in disk.now.archive else id !in disk.now.archive
      ensures !ok ==> disk.now.errors > old(disk.now.errors)
    {
      var left := if rest.Some? then disk.now.archive[id := rest.value] else disk.now.archive - {id};
      RemovalIsPermitted(disk.now, id, rest, left);
      ok := disk.Commit(disk.now.(archive := left));
    }

    /** Deletes known-good revisions beyond the newest `keep`, sparing whatever a pointer names. */
    method PruneRevisionsLocked(keep: int) returns (ok: bool, ghost listed: seq<Manifest>)
      requires disk.Valid() && disk.intact
      modifies disk
      ensures disk.Valid() && disk.Extends()
      ensures ListsKnownGood(old(disk.now.archive), listed)
      ensures Forgets(old(disk.now), disk.now, Dispensable(old(disk.now), listed, keep))
      ensures ok ==> keep >= 1 && forall id :: id in Dispensable(old(disk.now), listed, keep) ==> id !in disk.now.archive
      ensures !ok ==> disk.now.errors > old(disk.now.errors) || keep < 1 || old(AnyDamaged(disk.now))
    {
      var revisions := KnownGoodRevisions();
      listed := revisions;
      if keep < 1 || disk.now.active.Damaged? || disk.now.lastKnownGood.Damaged? || disk.now.previousKnownGood.Damaged? {
        return false, revisions;
      }
      ok := RemoveDispensable(revisions, keep);
    }

    method RemoveDispensable(revisions: seq<Manifest>, keep: int) returns (ok: bool)
      requires disk.Valid() && disk.intact
      modifies disk
      ensures disk.Valid() && disk.Extends()
      ensures Forgets(old(disk.now), disk.now, Dispensable(old(disk.now), revisions, keep))
      ensures ok ==> Forgotten(disk.now, old(disk.now), revisions, keep, |revisions|)
      ensures !ok ==> disk.now.errors > old(disk.now.errors)
    {
      ghost var start := disk.now;
      for i := 0 to |revisions|
        invariant disk.Valid() && disk.Extends()
        invariant Forgets(start, disk.now, Dispensable(start, revisions, keep))
        invariant Forgotten(disk.now, start, revisions, keep, i)
      {
        var id := revisions[i].revisionId;
        if i >= keep && !IsTarget(disk.now, id) && id in disk.now.archive {
          ghost var before := disk.now;
          ok := RemoveAll(id);
          ForgetsMore(start, before, disk.now, Dispensable(start, revisions, keep), id);
          if !ok {
            return;
          }
        }
      }
      return true;
    }

    method PruneRevisions(keep: int) returns (ok: bool, ghost listed: seq<Manifest>)
      requires disk.Valid() && disk.intact
      modifies disk
      ensures disk.Valid() && disk.Extends()
      ensures ListsKnownGood(old(disk.now.archive), listed)
      ensures forall id :: id in old(disk.now.archive) && id !in Dispensable(old(disk.now), listed, keep) ==>
        id in disk.now.archive && disk.now.archive[id] == old(disk.now.archive)[id]
      ensures forall p :: p in old({disk.now.active, disk.now.lastKnownGood, disk.now.previousKnownGood}) && p.Points? && p.id in old(disk.now.archive) ==>
        p.id in disk.now.archive && disk.now.archive[p.id] == old(disk.now.archive)[p.id]
      ensures ok ==> |KnownGoodIds(disk.now.archive)| <= keep + 3
      ensures !ok ==> disk.now.errors > old(disk.now.errors) || keep < 1 || old(AnyDamaged(disk.now))
      ensures old(Settled(disk.now)) ==> Settled(disk.now)
    {
      ghost var start := disk.now;
      ok, listed := PruneRevisionsLocked(keep);
      if ok {
        PruningLeavesFew(start, disk.now, listed, keep);
      }
    }

    // -------------------------------------------------------------- promotion and rollback

    /** The commit point of a revision whose bytes have proved themselves. */
    method PromoteLocked(was: Manifest) returns (ok: bool)
      requires disk.Valid() && disk.intact && ManifestOf(disk.now.archive, was.revisionId) == Some(was)
      requires was.status in {Candidate, Validating} && ContentOf(disk.now.archive, was.revisionId) == Some(was.digest)
      modifies disk
      ensures disk.Valid() && disk.Extends() && disk.now.config == old(disk.now.config)
      ensures ok ==>
        && disk.now.active == disk.now.lastKnownGood == Points(was.revisionId)
        && Verified(disk.now.archive, was.revisionId) && ContentOf(disk.now.archive, was.revisionId) == Some(was.digest)
      ensures ok ==> disk.now.previousKnownGood == OneBack(old(disk.now), was.revisionId)
      ensures !ok ==> disk.now.errors > old(disk.now.errors)
      ensures disk.now.errors == old(disk.now.errors) && !AnyDamaged(disk.now) ==> |KnownGoodIds(disk.now.archive)| <= revisionKeep + 3
    {
      var id := was.revisionId;
      ok := SetStatus(was, was.(status := KnownGood));
      if !ok {
        return;
      }
      ok := MakeLast(id, disk.now.lastKnownGood);
      if !ok {
        return;
      }
      ok := Point(Active, id);
      if !ok {
        return;
      }
      // Everything above is the commit point; a failed clean-up does not undo it.
      ghost var committed := disk.now;
      var pruned, listed := PruneRevisionsLocked(revisionKeep);
      if pruned {
        PruningLeavesFew(committed, disk.now, listed, revisionKeep);
      }
      return true;
    }

    /** Asks the runtime to take over the configuration in force, if there is one to ask. */
    method Exercise(r: Runtime?) returns (ok: bool)
      modifies r
      ensures r == null ==> ok
      ensures r != null ==> old(r.answers) <= r.answers
      ensures r != null ==> (ok <==> AllYes(old(r.answers), r.answers)) && (ok ==> |r.answers| == |old(r.answers)| + 2)
    {
      if r == null {
        return true;
      }
      ok := r.Apply();
      if ok {
        ok := r.Healthy();
      }
      assert r.answers[|r.answers| - 1] == ok;
    }

    /** Records that a trial has failed, without looking whether that worked. */
    method FailLocked(was: Manifest) returns (ghost marked: bool)
      requires disk.Valid() && disk.intact && ManifestOf(disk.now.archive, was.revisionId) == Some(was) && OnTrial(was.status)
      modifies disk
      ensures disk.Valid() && disk.Extends() && disk.log == old(disk.log) + [disk.now]
      ensures disk.now == old(disk.now).(archive := disk.now.archive, unmarked := disk.now.unmarked, errors := disk.now.errors)
      ensures disk.now.archive == if marked then WithManifest(old(disk.now.archive), was.(status := Failed)) else old(disk.now.archive)
      ensures !marked ==> was.revisionId in disk.now.unmarked && disk.now.errors > old(disk.now.errors)
      ensures marked ==> disk.now.unmarked == old(disk.now.unmarked)
    {
      StatusIsPermitted(disk.now, was, was.(status := Failed));
      var recorded := disk.MarkFailed(was);
      marked := recorded;
    }

    /**
     * Gives the last known-good revision back after a failed trial. `marked` says whether the mark as failed
     * reached the disk, `undone` whether the last write did, with all before it.
     */
    method RollbackLocked(was: Manifest, r: Runtime?) returns (ghost marked: bool, ghost undone: bool)
      requires disk.Valid() && disk.intact && ManifestOf(disk.now.archive, was.revisionId) == Some(was) && OnTrial(was.status)
      modifies disk, r
      ensures disk.Valid() && disk.Extends() && !HasStatus(disk.now.archive, was.revisionId, KnownGood)
      ensures disk.now.lastKnownGood == old(disk.now.lastKnownGood)
      ensures old(disk.now.lastKnownGood.Points?) && disk.now.errors == old(disk.now.errors) ==> Settled(disk.now)
      ensures |disk.log| > |old(disk.log)|
      ensures disk.log[|old(disk.log)|].archive ==
        if marked then WithManifest(old(disk.now.archive), was.(status := Failed)) else old(disk.now.archive)
      ensures HasStatus(disk.now.archive, was.revisionId, RolledBack) <==> undone
      ensures disk.now.errors == old(disk.now.errors) ==> HasStatus(disk.now.archive, was.revisionId, Failed) || undone
      ensures undone && r != null ==> |r.answers| >= |old(r.answers)| + 2
      ensures undone ==> Settled(disk.now) && (r == null || AllYes(old(r.answers), r.answers))
      ensures (old(disk.now.lastKnownGood.Points?) && disk.now.errors == disk.log[|old(disk.log)|].errors
               && (r == null || AllYes(old(r.answers), r.answers))) ==> undone
      ensures SkipsFailed(disk.log, |old(disk.log)|, was.revisionId) <==> !marked && undone
      ensures r != null ==> old(r.answers) <= r.answers
    {
      ghost var from := |disk.log|;
      marked := FailLocked(was);
      undone := false;
      if disk.now.lastKnownGood.Points? {
        undone := GiveBack(ManifestOf(disk.now.archive, was.revisionId).value, was, r);
      }
      RollbackLog(disk.log, from, was.revisionId, marked, undone);
    }

    /** The last known-good bytes again, and then the end of the failed revision, now recorded as `current`. */
    method GiveBack(ghost current: Manifest, was: Manifest, r: Runtime?) returns (ghost undone: bool)
      requires disk.Valid() && disk.intact && disk.now.lastKnownGood.Points?
      requires ManifestOf(disk.now.archive, was.revisionId) == Some(current) && current == was.(status := current.status)
      requires current.status == Failed || (was.revisionId in disk.now.unmarked && OnTrial(current.status))
      modifies disk, r
      ensures disk.Valid() && disk.Extends() && disk.now.lastKnownGood == old(disk.now.lastKnownGood)
      ensures disk.now.errors == old(disk.now.errors) ==> Settled(disk.now)
      ensures ManifestOf(disk.now.archive, was.revisionId) == Some(if undone then was.(status := RolledBack) else current)
      ensures undone && r != null ==> |r.answers| >= |old(r.answers)| + 2
      ensures undone ==> Settled(disk.now) && (r == null || AllYes(old(r.answers), r.answers))
      ensures disk.now.errors == old(disk.now.errors) && (r == null || AllYes(old(r.answers), r.answers)) ==> undone
      ensures forall k :: |old(disk.log)| <= k < |disk.log| - (if undone then 1 else 0) ==> disk.log[k].archive == old(disk.now.archive)
      ensures undone ==> |disk.log| > |old(disk.log)|
      ensures r != null ==> old(r.answers) <= r.answers
    {
      undone := false;
      var good := disk.now.lastKnownGood.id;
      PointersAreSafe(disk.log);
      var content := ContentOf(disk.now.archive, good);
      if content.None? {
        return;
      }
      var ok := Install(good, content.value);
      if !ok {
        return;
      }
      ok := Exercise(r);
      if !ok {
        return;
      }
      ok := SetStatus(current, was.(status := RolledBack));
      undone := HasStatus(disk.now.archive, was.revisionId, RolledBack);
    }

    // -------------------------------------------------------------- the operations

    /** The whole probation: every answer is yes, and by the end it has lasted long enough. */
    method Probation(r: Runtime) returns (passed: bool)
      modifies clock, r
      ensures old(r.answers) <= r.answers
      ensures passed ==> clock.now >= old(clock.now) + probation && |r.answers| >= |old(r.answers)| + 2
      ensures passed <==> AllYes(old(r.answers), r.answers) && clock.interruptions == old(clock.interruptions)
      ensures clock.interruptions >= old(clock.interruptions) && clock.now >= old(clock.now)
      ensures old(clock.sleeps) <= clock.sleeps && forall k :: |old(clock.sleeps)| <= k < |clock.sleeps| ==>
        clock.sleeps[k] <= healthInterval
      ensures passed ==> |r.answers| - |old(r.answers)| >= 2 + |clock.sleeps| - |old(clock.sleeps)|
    {
      passed := Exercise(r);
      if !passed {
        return;
      }
      var start := clock.Read();
      var deadline := start + probation;
      ghost var asked := r.answers;
      var t := clock.Read();
      while t < deadline
        invariant passed && AllYes(old(r.answers), r.answers) && asked <= r.answers && t == clock.now
        invariant clock.interruptions == old(clock.interruptions) && clock.now >= start
        invariant old(clock.sleeps) <= clock.sleeps && forall k :: |old(clock.sleeps)| <= k < |clock.sleeps| ==>
          clock.sleeps[k] <= healthInterval
        invariant |r.answers| - |asked| >= |clock.sleeps| - |old(clock.sleeps)|
        decreases deadline - t
      {
        var again := clock.Read();
        var remaining := deadline - again;
        var wait := if healthInterval > remaining then remaining else healthInterval;
        if wait > 0 {
          passed := clock.Sleep(wait);
          if !passed {
            return;
          }
        }
        passed := r.Healthy();
        if !passed {
          assert !r.answers[|r.answers| - 1];
          return;
        }
        t := clock.Read();
      }
    }

    /** Nothing spoke against the revision on trial: every answer since `before` was yes, and nobody interrupted. */
    ghost predicate Undisturbed(r: Runtime?, before: seq<bool>, interruptions: nat)
      reads r, clock
    {
      r != null && before <= r.answers && AllYes(before, r.answers) && clock.interruptions == interruptions
    }

    /** The trial is over and lost. */
    predicate Abandoned(a: Archive, id: string) {
      HasStatus(a, id, Failed) || HasStatus(a, id, RolledBack)
    }

    /** The archive holds this revision as a candidate or on trial, with bytes that can be run. */
    predicate Triable(d: DiskState, id: string) {
      ManifestOf(d.archive, id).Some? && ContentOf(d.archive, id).Some? &&
      var manifest, content := ManifestOf(d.archive, id).value, ContentOf(d.archive, id).value;
      && (manifest.status == Candidate || manifest.status == Validating)
      && content == manifest.digest && parses(content)
    }

    /**
     * Puts a candidate on trial. Unless a write is lost, it is promoted exactly if its bytes are sound and nothing
     * speaks against it during the whole probation. A candidate whose bytes are not sound is recorded as failed, and
     * what is no candidate, or has no bytes, is left alone.
     */
    method ActivateAndValidate(id: string, r: Runtime?) returns (m: Option<Manifest>)
      requires disk.Valid() && disk.intact
      modifies disk, clock, r
      ensures disk.Valid() && disk.Extends()
      ensures m.Some? ==> Settled(disk.now) && disk.now.active == Points(id)
      ensures HasStatus(disk.now.archive, id, KnownGood) && !old(HasStatus(disk.now.archive, id, KnownGood)) ==>
        r != null && clock.now >= old(clock.now) + probation && AllYes(old(r.answers), r.answers)
      ensures old(Settled(disk.now)) && disk.now.errors == old(disk.now.errors) ==> Settled(disk.now)
      ensures m.Some? ==>
        && old(Triable(disk.now, id)) && m.value == old(ManifestOf(disk.now.archive, id).value).(status := KnownGood)
        && Undisturbed(r, old(if r == null then [] else r.answers), old(clock.interruptions))
      ensures HasStatus(disk.now.archive, id, RolledBack) && r != null && !old(HasStatus(disk.now.archive, id, RolledBack)) ==> |r.answers| >= |old(r.answers)| + 2
      ensures m.Some? ==> disk.now.previousKnownGood == OneBack(old(disk.now), id)
      ensures m.None? && old(Triable(disk.now, id)) && disk.now.errors == old(disk.now.errors) ==> Abandoned(disk.now.archive, id)
      ensures m.None? && old(Triable(disk.now, id)) ==>
        disk.now.errors > old(disk.now.errors) || !Undisturbed(r, old(if r == null then [] else r.answers), old(clock.interruptions))
      ensures !old(Triable(disk.now, id)) ==>
        if old(IsOnTrial(disk.now.archive, id) && ContentOf(disk.now.archive, id).Some?)
        then disk.now.errors > old(disk.now.errors)
          || disk.now == old(disk.now.(archive := WithManifest(disk.now.archive, ManifestOf(disk.now.archive, id).value.(status := Failed))))
        else disk.log == old(disk.log)
    {
      m := None;
      var found := ManifestOf(disk.now.archive, id);
      if found.None? || (found.value.status != Candidate && found.value.status != Validating) {
        return;
      }
      PointersAreSafe(disk.log);
      var manifest := found.value;
      var content := ContentOf(disk.now.archive, id);
      if content.None? {
        return;
      }
      if !ContentMatches(manifest, content.value) || !parses(content.value) {
        ghost var marked := FailLocked(manifest);
        return;
      }
      m := Trial(manifest, content.value, r);
    }

    /** The candidate's bytes are sound; install them, try them, and keep or undo them. */
    method Trial(manifest: Manifest, content: Content, r: Runtime?) returns (m: Option<Manifest>)
      requires disk.Valid() && disk.intact && ManifestOf(disk.now.archive, manifest.revisionId) == Some(manifest)
      requires manifest.status in {Candidate, Validating} && ContentOf(disk.now.archive, manifest.revisionId) == Some(content)
      requires ContentMatches(manifest, content)
      modifies disk, clock, r
      ensures disk.Valid() && disk.Extends()
      ensures m.Some? ==> Settled(disk.now) && disk.now.active == Points(manifest.revisionId)
      ensures HasStatus(disk.now.archive, manifest.revisionId, KnownGood) ==>
        r != null && clock.now >= old(clock.now) + probation && AllYes(old(r.answers), r.answers)
      ensures old(disk.now.lastKnownGood.Points?) && disk.now.errors == old(disk.now.errors) ==> Settled(disk.now)
      ensures m.Some? ==>
        m.value == manifest.(status := KnownGood) && Undisturbed(r, old(if r == null then [] else r.answers), old(clock.interruptions))
      ensures HasStatus(disk.now.archive, manifest.revisionId, RolledBack) && r != null ==> |r.answers| >= |old(r.answers)| + 2
      ensures m.Some? ==> disk.now.previousKnownGood == OneBack(old(disk.now), manifest.revisionId)
      ensures m.None? && disk.now.errors == old(disk.now.errors) ==> Abandoned(disk.now.archive, manifest.revisionId)
      ensures m.None? ==>
        disk.now.errors > old(disk.now.errors) || !Undisturbed(r, old(if r == null then [] else r.answers), old(clock.interruptions))
    {
      m := None;
      var id := manifest.revisionId;
      var ok := disk.WriteConfig(content);
      if !ok {
        ghost var marked := FailLocked(manifest);
        return;
      }
      PointersAreSafe(disk.log);
      ok := Point(Active, id);
      if !ok {
        ghost var marked, undone := RollbackLocked(manifest, r);
        return;
      }
      m := TryActive(manifest, r);
    }

    /** The candidate is active; it stays only if it gets through its probation. */
    method TryActive(manifest: Manifest, r: Runtime?) returns (m: Option<Manifest>)
      requires disk.Valid() && disk.intact && ManifestOf(disk.now.archive, manifest.revisionId) == Some(manifest)
      requires manifest.status in {Candidate, Validating} && ContentOf(disk.now.archive, manifest.revisionId) == Some(manifest.digest)
      requires disk.now.config == Some(manifest.digest)
      modifies disk, clock, r
      ensures disk.Valid() && disk.Extends()
      ensures m.Some? ==> Settled(disk.now) && disk.now.active == Points(manifest.revisionId)
      ensures HasStatus(disk.now.archive, manifest.revisionId, KnownGood) ==>
        r != null && clock.now >= old(clock.now) + probation && AllYes(old(r.answers), r.answers)
      ensures old(disk.now.lastKnownGood.Points?) && disk.now.errors == old(disk.now.errors) ==> Settled(disk.now)
      ensures m.Some? ==>
        m.value == manifest.(status := KnownGood) && Undisturbed(r, old(if r == null then [] else r.answers), old(clock.interruptions))
      ensures HasStatus(disk.now.archive, manifest.revisionId, RolledBack) && r != null ==> |r.answers| >= |old(r.answers)| + 2
      ensures m.Some? ==> disk.now.previousKnownGood == OneBack(old(disk.now), manifest.revisionId)
      ensures m.None? && disk.now.errors == old(disk.now.errors) ==> Abandoned(disk.now.archive, manifest.revisionId)
      ensures m.None? ==>
        disk.now.errors > old(disk.now.errors) || !Undisturbed(r, old(if r == null then [] else r.answers), old(clock.interruptions))
    {
      m := None;
      var validating := manifest.(status := Validating);
      var ok := SetStatus(manifest, validating);
      if !ok {
        return;
      }
      var passed := false;
      if r != null {
        passed := Probation(r);
      }
      if !passed {
        ghost var marked, undone := RollbackLocked(validating, r);
        return;
      }
      ok := PromoteLocked(validating);
      if ok {
        m := Some(validating.(status := KnownGood));
      }
    }

    /** A known-good revision whose bytes are still what its manifest says, and can be run. */
    predicate Restorable(d: DiskState, id: string) {
      Verified(d.archive, id) && parses(ContentOf(d.archive, id).value)
    }

    /** Goes back to a known-good revision on request; if the runtime refuses it, to what was active before. */
    method Rollback(target: string, r: Runtime?) returns (ok: bool)
      requires disk.Valid() && disk.intact
      modifies disk, r
      ensures disk.Valid() && disk.Extends()
      ensures ok ==> Settled(disk.now) && disk.now.active == Points(target) && HasStatus(old(disk.now.archive), target, KnownGood)
      ensures ok && r != null ==> |r.answers| == |old(r.answers)| + 2
      ensures ok ==> disk.now == old(disk.now).(config := ContentOf(old(disk.now.archive), target), active := Points(target),
        lastKnownGood := Points(target), previousKnownGood := OneBack(old(disk.now), target))
      ensures disk.now.archive == old(disk.now.archive)
      ensures old(Settled(disk.now)) && disk.now.errors == old(disk.now.errors) ==> Settled(disk.now)
      ensures !old(Restorable(disk.now, target)) ==> !ok && disk.log == old(disk.log)
      ensures old(Restorable(disk.now, target)) && disk.now.errors == old(disk.now.errors) ==>
        (ok <==> r == null || AllYes(old(r.answers), r.answers))
      ensures (!ok && disk.now.errors == old(disk.now.errors) && old(disk.now.active.Points?)
               && old(ContentOf(disk.now.archive, disk.now.active.id).Some?) && old(Restorable(disk.now, target))) ==>
        disk.now == old(disk.now.(config := ContentOf(disk.now.archive, disk.now.active.id)))
    {
      PointersAreSafe(disk.log);
      var manifest := ManifestOf(disk.now.archive, target);
      if manifest.None? || manifest.value.status != KnownGood {
        return false;
      }
      var content := ContentOf(disk.now.archive, target);
      if content.None? || !ContentMatches(manifest.value, content.value) || !parses(content.value) {
        return false;
      }
      var oldActive, oldLast := disk.now.active, disk.now.lastKnownGood;
      ok := Install(target, content.value);
      if !ok {
        return;
      }
      ok := Exercise(r);
      if !ok {
        RestoreAfterManualRollbackFailure(oldActive, oldLast, r);
        return;
      }
      ok := MakeLast(target, oldLast);
    }

    method RestoreAfterManualRollbackFailure(oldActive: Pointer, oldLast: Pointer, r: Runtime?)
      requires disk.Valid() && disk.intact && oldLast == disk.now.lastKnownGood
      requires oldActive.Points? ==> Activatable(disk.now.archive, oldActive.id)
      modifies disk, r
      ensures disk.Valid() && disk.Extends() && disk.now.archive == old(disk.now.archive)
      ensures oldActive.Points? && ContentOf(disk.now.archive, oldActive.id).Some? && disk.now.errors == old(disk.now.errors) ==>
        disk.now == old(disk.now).(active := oldActive, config := ContentOf(disk.now.archive, oldActive.id))
      ensures r != null ==> old(r.answers) <= r.answers
      ensures r != null && oldActive.Points? && ContentOf(disk.now.archive, oldActive.id).Some? && disk.now.errors == old(disk.now.errors) ==>
        |r.answers| > |old(r.answers)|
    {
      if !oldActive.Points? {
        return;
      }
      var content := ContentOf(disk.now.archive, oldActive.id);
      if content.None? {
        return;
      }
      var ok := disk.WriteConfig(content.value);
      if !ok {
        return;
      }
      ok := Point(Active, oldActive.id);
      if oldLast.Points? {
        PointersAreSafe(disk.log);
        ok := Point(LastKnownGood, oldLast.id);
      }
      ok := Exercise(r);
    }

    /** Records the configuration already in force as the first known-good revision, or confirms that it is. */
    method BootstrapKnownGood(source: string, content: Content) returns (m: Option<Manifest>)
      requires disk.Valid() && disk.intact
      modifies disk, clock
      ensures disk.Valid() && disk.Extends() && disk.now.config == old(disk.now.config)
      ensures m.Some? ==>
        && disk.now.active == disk.now.lastKnownGood == Points(m.value.revisionId)
        && Verified(disk.now.archive, m.value.revisionId) && m.value.digest == content && parses(content)
      ensures m.Some? && old(disk.now.config) == Some(content) ==> Settled(disk.now)
      ensures old(Settled(disk.now)) && disk.now.errors == old(disk.now.errors) ==> Settled(disk.now)
      ensures old(disk.now.lastKnownGood.Points?) ==> disk.now.archive == old(disk.now.archive)
      ensures m.Some? ==> disk.now.previousKnownGood == old(disk.now.previousKnownGood)
      ensures m.None? ==>
        || disk.now.errors > old(disk.now.errors) || !parses(content) || old(disk.now.lastKnownGood.Damaged?)
        || (old(disk.now.lastKnownGood.Points?) && old(ManifestOf(disk.now.archive, disk.now.lastKnownGood.id).value.digest) != content)
        || (old(disk.now.lastKnownGood.Missing?) && exists t {:trigger stamp(t, content)} :: t >= old(clock.now) && NoneFree(old(disk.now.archive), stamp(t, content)))
    {
      m := None;
      if !parses(content) || disk.now.lastKnownGood.Damaged? {
        return;
      }
      PointersAreSafe(disk.log);
      if disk.now.lastKnownGood.Points? {
        var id := disk.now.lastKnownGood.id;
        var manifest := ManifestOf(disk.now.archive, id);
        if manifest.None? || manifest.value.status != KnownGood || !ContentMatches(manifest.value, content) {
          return;
        }
        var ok := Point(Active, id);
        if ok {
          m := manifest;
        }
        return;
      }
      var begun := BeginLocked(source, content);
      if begun.None? {
        return;
      }
      var ok := PromoteLocked(begun.value);
      if ok {
        m := Some(begun.value.(status := KnownGood));
      }
    }
  }

  /** At most a new revision has appeared. */
  predicate OnlyAdds(d: DiskState, e: DiskState) {
    && e == d.(archive := e.archive, errors := e.errors)
    && d.archive.Keys <= e.archive.Keys && forall id :: id in d.archive ==> e.archive[id] == d.archive[id]
  }

  lemma NewEntryIsPermitted(d: DiskState, id: string, r: Revision)
    requires Safe(d) && r.file.NoManifest?
    requires id in d.archive ==> d.archive[id] == Revision(None, NoManifest)
    ensures Permitted(d, d.(archive := d.archive[id := r]))
  {
    var e := d.archive[id := r];
    assert forall x :: ManifestOf(e, x) == ManifestOf(d.archive, x);
    assert forall x :: x != id ==> ContentOf(e, x) == ContentOf(d.archive, x);
  }

  lemma FirstManifestIsPermitted(d: DiskState, m: Manifest)
    requires Safe(d) && ManifestOf(d.archive, m.revisionId).None? && m.status == Candidate
    ensures Permitted(d, d.(archive := WithManifest(d.archive, m)))
  {
    var e := WithManifest(d.archive, m);
    assert forall x :: x != m.revisionId ==> ManifestOf(e, x) == ManifestOf(d.archive, x);
    assert forall x :: ContentOf(e, x) == ContentOf(d.archive, x);
  }

  /** Neither the archive nor the known-good pointers have changed. */
  predicate Unmoved(d: DiskState, e: DiskState) {
    e == d.(config := e.config, active := e.active, errors := e.errors)
  }

  /** A status write, successful or not, left everything else alone. */
  predicate StatusWritten(d: DiskState, e: DiskState, n: Manifest, ok: bool) {
    var next := d.(archive := WithManifest(d.archive, n));
    if ok then e == next else FailedEitherWay(d, next, e)
  }

  predicate StatusMayChange(d: DiskState, was: Manifest, n: Manifest) {
    && n == was.(status := n.status) && MayBecome(was.status, n.status, n.revisionId in d.unmarked)
    && (n.status == KnownGood && was.status != KnownGood ==> ContentOf(d.archive, n.revisionId) == Some(n.digest))
    && (n.status == RolledBack ==> d.active != Points(n.revisionId))
  }

  lemma StatusIsPermitted(d: DiskState, was: Manifest, n: Manifest)
    requires Safe(d) && ManifestOf(d.archive, n.revisionId) == Some(was) && StatusMayChange(d, was, n)
    ensures Permitted(d, d.(archive := WithManifest(d.archive, n)))
  {
    var e := WithManifest(d.archive, n);
    assert forall x :: x != n.revisionId ==> ManifestOf(e, x) == ManifestOf(d.archive, x);
    assert forall x :: ContentOf(e, x) == ContentOf(d.archive, x);
  }

  /** What each pointer may be made to name. */
  predicate MayPoint(d: DiskState, which: Which, id: string) {
    match which
    case Active => Activatable(d.archive, id)
    case LastKnownGood => Verified(d.archive, id)
    case PreviousKnownGood => true
  }

  /** The known-good revisions found outside `left`, each once. */
  ghost predicate Collected(a: Archive, left: set<string>, found: seq<Manifest>) {
    && (forall m :: m in found <==> m.revisionId !in left && HasStatus(a, m.revisionId, KnownGood) && ManifestOf(a, m.revisionId) == Some(m))
    && (forall i, j :: 0 <= i < j < |found| ==> found[i].revisionId != found[j].revisionId)
  }

  lemma SortedCollection(a: Archive, found: seq<Manifest>)
    ensures forall m :: m in StableSort(found, AgeRank) <==> m in found
    ensures Collected(a, {}, found) ==> ListsKnownGood(a, StableSort(found, AgeRank))
  {
    var out := StableSort(found, AgeRank);
    StableSortSorts(found, AgeRank);
    SameMembers(out, found);
    if Collected(a, {}, found) {
      SortKeepsDistinct(found, out);
      forall i, j | 0 <= i < j < |out| ensures out[i].revisionId != out[j].revisionId && Newer(out[i], out[j]) {
        assert out[i] in found && out[j] in found;
        BeforeIsTotal(AgeRank(out[i]), AgeRank(out[j]));
      }
    }
  }

  /** Only revisions in `some` lost anything, and nothing was added. */
  ghost predicate Forgets(d: DiskState, e: DiskState, some: iset<string>) {
    && e == d.(archive := e.archive, errors := e.errors) && e.archive.Keys <= d.archive.Keys
    && forall id :: id in d.archive && id !in some ==> id in e.archive && e.archive[id] == d.archive[id]
  }

  lemma ForgetsMore(d: DiskState, e: DiskState, f: DiskState, some: iset<string>, id: string)
    requires Forgets(d, e, some) && Forgets(e, f, iset{id}) && id in some
    ensures Forgets(d, f, some)
  {
  }

  /** The dispensable ones among the first `n` are gone. */
  predicate Forgotten(e: DiskState, d: DiskState, listed: seq<Manifest>, keep: int, n: nat) {
    n <= |listed| && forall j :: 0 <= j < n && j >= keep && !IsTarget(d, listed[j].revisionId) ==> listed[j].revisionId !in e.archive
  }

  /** Known-good revisions that no pointer names and that are not among the newest `keep`. */
  ghost function Dispensable(d: DiskState, listed: seq<Manifest>, keep: int): iset<string> {
    iset i | 0 <= i < |listed| && i >= keep && !IsTarget(d, listed[i].revisionId) :: listed[i].revisionId
  }

  lemma RemovalIsPermitted(d: DiskState, id: string, rest: Option<Revision>, left: Archive)
    requires Safe(d) && id in d.archive && !IsTarget(d, id)
    requires left == if rest.Some? then d.archive[id := rest.value] else d.archive - {id}
    requires rest.Some? ==> rest.value.content in {None, d.archive[id].content} && rest.value.file in {NoManifest, d.archive[id].file}
    ensures Permitted(d, d.(archive := left))
  {
    assert forall x :: x != id ==> ManifestOf(left, x) == ManifestOf(d.archive, x) && ContentOf(left, x) == ContentOf(d.archive, x);
    assert ManifestOf(left, id) in {None, ManifestOf(d.archive, id)} && ContentOf(left, id) in {None, ContentOf(d.archive, id)};
  }

  predicate AllYes(before: seq<bool>, after: seq<bool>) {
    before <= after && forall i :: |before| <= i < |after| ==> after[i]
  }

  /** In a rollback the revision is as `FailLocked` left it until, with the last write, it is rolled back. */
  lemma RollbackLog(log: seq<DiskState>, from: nat, id: string, marked: bool, undone: bool)
    requires 0 < from < |log| && IsOnTrial(log[from - 1].archive, id)
    requires if marked then HasStatus(log[from].archive, id, Failed) else log[from].archive == log[from - 1].archive
    requires forall k :: from < k < |log| - (if undone then 1 else 0) ==> log[k].archive == log[from].archive
    requires undone ==> |log| > from + 1 && HasStatus(log[|log| - 1].archive, id, RolledBack)
    ensures SkipsFailed(log, from, id) <==> !marked && undone
  {
    if undone && !marked {
      assert SkipsAt(log, from, id, |log| - 1);
    }
  }

  /** On a sound history the pointers can be followed. */
  lemma PointersAreSafe(log: seq<DiskState>)
    requires Sound(log) && |log| > 0
    ensures Safe(log[|log| - 1])
  {
  }

  function KnownGoodIds(a: Archive): set<string> {
    set id | id in a && HasStatus(a, id, KnownGood)
  }

  /** At most the newest `keep` and the three pointer targets survive a completed pruning. */
  lemma PruningLeavesFew(d: DiskState, e: DiskState, listed: seq<Manifest>, keep: int)
    requires ListsKnownGood(d.archive, listed) && keep >= 1
    requires Forgets(d, e, Dispensable(d, listed, keep)) && WellKept(d.archive)
    requires forall id :: id in Dispensable(d, listed, keep) ==> id !in e.archive
    ensures |KnownGoodIds(e.archive)| <= keep + 3
  {
    var newest := set i | 0 <= i < |listed| && i < keep :: listed[i].revisionId;
    var targets := TargetOf(d.active) + TargetOf(d.lastKnownGood) + TargetOf(d.previousKnownGood);
    forall id | id in KnownGoodIds(e.archive) ensures id in newest + targets {
      if id !in Dispensable(d, listed, keep) {
        assert e.archive[id] == d.archive[id];
      }
      var m := ManifestOf(d.archive, id).value;
      assert m in listed;
      var i :| 0 <= i < |listed| && listed[i] == m;
      assert i < keep || IsTarget(d, listed[i].revisionId);
    }
    SubsetSize(KnownGoodIds(e.archive), newest + targets);
    FirstFew(listed, keep);
  }

  function TargetOf(p: Pointer): (s: set<string>)
    ensures |s| <= 1
  {
    if p.Points? then {p.id} else {}
  }

  lemma {:induction false} FirstFew(listed: seq<Manifest>, keep: nat)
    ensures |set i | 0 <= i < |listed| && i < keep :: listed[i].revisionId| <= keep
  {
    var few := set i | 0 <= i < |listed| && i < keep :: listed[i].revisionId;
    if keep > 0 {
      FirstFew(listed, keep - 1);
      var fewer := set i | 0 <= i < |listed| && i < keep - 1 :: listed[i].revisionId;
      if keep <= |listed| {
        assert few == fewer + {listed[keep - 1].revisionId};
      } else {
        assert few == fewer;
      }
    }
  }
}
