/** The configuration history on disk: revisions with manifests, three pointers, one active file. */
module Revisions {
  import opened Basics

  /** Digests are taken to be free of collisions, so content stands for its own digest. */
  type Content = string

  datatype Pointer = Missing | Damaged | Points(id: string)

  datatype Status = Candidate | Validating | KnownGood | Failed | RolledBack

  datatype Manifest = Manifest(revisionId: string, createdAt: int, source: string, parent: string, status: Status, digest: Content)

  datatype ManifestFile = NoManifest | BadManifest | Kept(manifest: Manifest)

  datatype Revision = Revision(content: Option<Content>, file: ManifestFile)

  type Archive = map<string, Revision>

  /**
   * `errors` counts the writes that were reported as failed, whether or not they took effect; `unmarked` names the
   * revisions whose mark as failed was to be written and did not reach the disk.
   */
  datatype DiskState = DiskState(
    active: Pointer,
    lastKnownGood: Pointer,
    previousKnownGood: Pointer,
    config: Option<Content>,
    archive: Archive,
    errors: nat,
    unmarked: set<string>)

  datatype Which = Active | LastKnownGood | PreviousKnownGood

  function PointerTo(d: DiskState, which: Which): Pointer {
    match which
    case Active => d.active
    case LastKnownGood => d.lastKnownGood
    case PreviousKnownGood => d.previousKnownGood
  }

  function WithPointer(d: DiskState, which: Which, p: Pointer): DiskState {
    match which
    case Active => d.(active := p)
    case LastKnownGood => d.(lastKnownGood := p)
    case PreviousKnownGood => d.(previousKnownGood := p)
  }

  function ManifestOf(a: Archive, id: string): Option<Manifest> {
    if id in a && a[id].file.Kept? then Some(a[id].file.manifest) else None
  }

  function ContentOf(a: Archive, id: string): Option<Content> {
    if id in a then a[id].content else None
  }

  function WithManifest(a: Archive, m: Manifest): Archive {
    a[m.revisionId := Revision(ContentOf(a, m.revisionId), Kept(m))]
  }

  predicate HasStatus(a: Archive, id: string, status: Status) {
    ManifestOf(a, id).Some? && ManifestOf(a, id).value.status == status
  }

  predicate IsOnTrial(a: Archive, id: string) {
    ManifestOf(a, id).Some? && OnTrial(ManifestOf(a, id).value.status)
  }

  predicate ContentMatches(m: Manifest, content: Content) {
    m.digest == content
  }

  /** A known-good revision whose bytes still match its digest. */
  predicate Verified(a: Archive, id: string) {
    HasStatus(a, id, KnownGood) && ContentOf(a, id) == Some(ManifestOf(a, id).value.digest)
  }

  /** Every manifest sits in the directory it names. */
  ghost predicate WellKept(a: Archive) {
    forall id :: ManifestOf(a, id).Some? ==> ManifestOf(a, id).value.revisionId == id
  }

  /** What an active pointer may name: a revision on record, not rolled back, and intact if it is known good. */
  predicate Activatable(a: Archive, id: string) {
    && ManifestOf(a, id).Some? && !HasStatus(a, id, RolledBack)
    && (HasStatus(a, id, KnownGood) ==> Verified(a, id))
  }

  /** What every operation keeps: what a readable pointer says can be relied on. */
  ghost predicate Safe(d: DiskState) {
    && WellKept(d.archive)
    && (d.lastKnownGood.Points? ==> Verified(d.archive, d.lastKnownGood.id))
    && (d.active.Points? ==> Activatable(d.archive, d.active.id))
  }

  /** A revision manager has taken charge of the configuration. */
  predicate Installed(d: DiskState) {
    d.active.Points? && d.lastKnownGood.Points?
  }

  /** The configuration in force is the last known-good one, byte for byte. */
  predicate Settled(d: DiskState) {
    && d.active.Points? && d.lastKnownGood == d.active && Verified(d.archive, d.active.id)
    && d.config == ContentOf(d.archive, d.active.id)
  }

  predicate IsTarget(d: DiskState, id: string) {
    d.active == Points(id) || d.lastKnownGood == Points(id) || d.previousKnownGood == Points(id)
  }

  /** The life cycle of a revision. `Failed` is skipped on the way to `RolledBack` only where recording it was lost. */
  predicate MayBecome(s: Status, t: Status, unmarked: bool) {
    || s == t
    || (s == Candidate && t in {Validating, Failed, KnownGood})
    || (s == Validating && t in {KnownGood, Failed})
    || (s == Failed && t == RolledBack)
    || (unmarked && OnTrial(s) && t == RolledBack)
  }

  predicate OnTrial(s: Status) {
    s == Candidate || s == Validating
  }

  /** What one write may do to one revision. */
  predicate RevisionEvolves(d: DiskState, e: Archive, id: string) {
    var a := d.archive;
    && (ContentOf(a, id).Some? ==> ContentOf(e, id) == ContentOf(a, id) || (ContentOf(e, id).None? && !IsTarget(d, id)))
    && (ContentOf(a, id).None? && ContentOf(e, id).Some? ==> ManifestOf(a, id).None?)
    && (ManifestOf(e, id).Some? ==>
          if ManifestOf(a, id).None? then HasStatus(e, id, Candidate)
          else
            var m, n := ManifestOf(a, id).value, ManifestOf(e, id).value;
            && n == m.(status := n.status) && MayBecome(m.status, n.status, id in d.unmarked)
            && (n.status == KnownGood && m.status != KnownGood ==> Verified(e, id)))
    && (ManifestOf(a, id).Some? && ManifestOf(e, id).None? ==> !IsTarget(d, id))
  }

  /** What one write may do to the whole history. */
  ghost predicate Evolves(d: DiskState, e: DiskState) {
    && (e.archive == d.archive || forall id :: RevisionEvolves(d, e.archive, id))
    && (d.active.Points? ==> e.active.Points?) && (d.lastKnownGood.Points? ==> e.lastKnownGood.Points?)
    && d.errors <= e.errors && d.unmarked <= e.unmarked
    && forall id :: id in e.unmarked - d.unmarked ==> e.archive == d.archive && IsOnTrial(d.archive, id) && d.errors < e.errors
  }

  ghost predicate Sound(log: seq<DiskState>) {
    && (forall i :: 0 <= i < |log| ==> Safe(log[i]))
    && (forall i :: 0 < i < |log| ==> Evolves(log[i - 1], log[i]))
  }

  /** One more write on a sound history. */
  ghost predicate Permitted(d: DiskState, e: DiskState) {
    Safe(e) && Evolves(d, e)
  }

  /** A write that failed either way: it left `next`, or what was there before. */
  predicate FailedEitherWay(before: DiskState, next: DiskState, after: DiskState) {
    after.errors == before.errors + 1 && after in {next.(errors := after.errors), before.(errors := after.errors)}
  }

  class Disk {
    var now: DiskState

    /** Every state the disk has been in, oldest first. */
    var log: seq<DiskState>

    /** The archive is as this program and crashes left it, and the pointers that can be read can be relied on. */
    ghost const intact: bool

    constructor (start: DiskState, ghost untouched: bool)
      requires untouched ==> Safe(start)
      ensures Valid() && now == start && log == [start] && intact == untouched
    {
      now, log, intact := start, [start], untouched;
    }

    ghost predicate Valid()
      reads this
    {
      |log| > 0 && log[|log| - 1] == now && (intact ==> Sound(log))
    }

    /** Nothing older is forgotten. */
    twostate predicate Extends()
      reads this
    {
      old(log) <= log && old(now.errors) <= now.errors
    }

    /**
     * One atomic file replacement. It takes effect completely or not at all, and may be reported as failed either
     * way.
     */
    method Commit(next: DiskState) returns (ok: bool)
      requires Valid() && next.errors == now.errors && next.unmarked == now.unmarked && (intact ==> Permitted(now, next))
      modifies this
      ensures Valid() && Extends()
      ensures log == old(log) + [now] && if ok then now == next else FailedEitherWay(old(now), next, now)
    {
      var applied: bool := *;
      ok := *;
      ghost var before := now;
      if ok {
        now := next;
      } else {
        now := (if applied then next else now).(errors := now.errors + 1);
      }
      log := log + [now];
      if intact {
        FailureIsPermitted(before, next);
      }
    }

    method WriteConfig(content: Content) returns (ok: bool)
      requires Valid()
      modifies this
      ensures Valid() && Extends()
      ensures log == old(log) + [now]
      ensures var next := old(now).(config := Some(content)); if ok then now == next else FailedEitherWay(old(now), next, now)
    {
      if intact {
        ConfigIsFree(now, Some(content));
      }
      ok := Commit(now.(config := Some(content)));
    }

    method WritePointer(which: Which, id: string) returns (ok: bool)
      requires Valid() && (intact ==> Permitted(now, WithPointer(now, which, Points(id))))
      modifies this
      ensures Valid() && Extends()
      ensures log == old(log) + [now]
      ensures var next := WithPointer(old(now), which, Points(id)); if ok then now == next else FailedEitherWay(old(now), next, now)
    {
      ok := Commit(WithPointer(now, which, Points(id)));
    }

    method WriteManifest(m: Manifest) returns (ok: bool)
      requires Valid() && (intact ==> Permitted(now, now.(archive := WithManifest(now.archive, m))))
      modifies this
      ensures Valid() && Extends()
      ensures log == old(log) + [now]
      ensures var next := old(now).(archive := WithManifest(old(now).archive, m));
        if ok then now == next else FailedEitherWay(old(now), next, now)
    {
      ok := Commit(now.(archive := WithManifest(now.archive, m)));
    }

    /** Marks a revision on trial as failed. The caller does not look at the result, so a lost mark is remembered here. */
    method MarkFailed(was: Manifest) returns (marked: bool)
      requires Valid() && ManifestOf(now.archive, was.revisionId) == Some(was) && OnTrial(was.status)
      requires intact ==> Permitted(now, now.(archive := WithManifest(now.archive, was.(status := Failed))))
      modifies this
      ensures Valid() && Extends() && log == old(log) + [now]
      ensures now.archive == if marked then WithManifest(old(now.archive), was.(status := Failed)) else old(now.archive)
      ensures now.unmarked == old(now.unmarked) + if marked then {} else {was.revisionId}
      ensures now == old(now).(archive := now.archive, unmarked := now.unmarked, errors := now.errors)
      ensures !marked ==> now.errors > old(now.errors)
    {
      ghost var before := now;
      var next := now.(archive := WithManifest(now.archive, was.(status := Failed)));
      var reported: bool;
      marked, reported := *, *;
      now := (if marked then next else now.(unmarked := now.unmarked + {was.revisionId}))
             .(errors := if marked && reported then now.errors else now.errors + 1);
      log := log + [now];
      if intact {
        FailureIsPermitted(before, next);
        LostMarkIsPermitted(before, was.revisionId);
      }
    }

    /** A crash throws the disk back to some state since `since`. */
    method Crash(since: nat)
      requires Valid() && since < |log|
      modifies this
      ensures Valid() && old(log)[..since + 1] <= log <= old(log)
    {
      var i :| 0 <= i < |log| && since <= i;
      log, now := log[..i + 1], log[i];
    }
  }

  lemma FailureIsPermitted(d: DiskState, e: DiskState)
    requires Safe(d) && Permitted(d, e)
    ensures forall n: nat :: n >= d.errors ==> Permitted(d, d.(errors := n)) && (n >= e.errors ==> Permitted(d, e.(errors := n)))
  {
  }

  lemma LostMarkIsPermitted(d: DiskState, id: string)
    requires Safe(d) && IsOnTrial(d.archive, id)
    ensures Permitted(d, d.(unmarked := d.unmarked + {id}, errors := d.errors + 1))
  {
  }

  lemma ConfigIsFree(d: DiskState, content: Option<Content>)
    requires Safe(d)
    ensures Permitted(d, d.(config := content))
  {
  }

  // ---------------------------------------------------------------- whole histories

  /** Once the manager is in charge it stays in charge. */
  lemma {:induction false} InstalledLasts(log: seq<DiskState>, i: nat, j: nat)
    requires Sound(log) && i <= j < |log| && Installed(log[i])
    ensures Installed(log[j])
    decreases j
  {
    if i < j {
      InstalledLasts(log, i, j - 1);
      assert Evolves(log[j - 1], log[j]);
    }
  }

  /** The order in which a revision can go through its statuses; known-good and rolled-back are final. */
  predicate Leads(s: Status, t: Status) {
    s == t || s == Candidate || (s == Validating && t != Candidate) || (s == Failed && t == RolledBack)
  }

  /** As long as a revision stays on record, its bytes and its manifest never change, and its status only moves forward. */
  lemma {:induction false} RevisionsOnlyMoveForward(log: seq<DiskState>, id: string, i: nat, j: nat)
    requires Sound(log) && i <= j < |log|
    requires forall k :: i <= k <= j ==> ManifestOf(log[k].archive, id).Some?
    ensures var m, n := ManifestOf(log[i].archive, id).value, ManifestOf(log[j].archive, id).value;
      n == m.(status := n.status) && Leads(m.status, n.status)
    ensures ContentOf(log[j].archive, id) in {None, ContentOf(log[i].archive, id)}
    decreases j
  {
    if i < j {
      RevisionsOnlyMoveForward(log, id, i, j - 1);
      assert Evolves(log[j - 1], log[j]);
      assert log[j].archive == log[j - 1].archive || RevisionEvolves(log[j - 1], log[j].archive, id);
    }
  }

  /** A revision is rolled back from `Failed`, or from its trial if its mark as failed was lost. */
  lemma RolledBackAfterFailed(log: seq<DiskState>, id: string, j: nat)
    requires Sound(log) && 0 < j < |log|
    requires HasStatus(log[j].archive, id, RolledBack) && ManifestOf(log[j - 1].archive, id).Some?
    requires !HasStatus(log[j - 1].archive, id, RolledBack)
    ensures HasStatus(log[j - 1].archive, id, Failed) || (IsOnTrial(log[j - 1].archive, id) && id in log[j - 1].unmarked)
  {
    assert Evolves(log[j - 1], log[j]);
    assert RevisionEvolves(log[j - 1], log[j].archive, id);
  }

  /** A lost mark goes back to one failed write that left the revision on trial. */
  lemma {:induction false} MarkWasLost(log: seq<DiskState>, id: string, j: nat) returns (k: nat)
    requires Sound(log) && j < |log| && id in log[j].unmarked && id !in log[0].unmarked
    ensures 0 < k <= j && id !in log[k - 1].unmarked && id in log[k].unmarked
    ensures log[k].archive == log[k - 1].archive && IsOnTrial(log[k].archive, id) && log[k - 1].errors < log[k].errors
  {
    if id in log[j - 1].unmarked {
      k := MarkWasLost(log, id, j - 1);
    } else {
      assert Evolves(log[j - 1], log[j]);
      assert id in log[j].unmarked - log[j - 1].unmarked;
      k := j;
    }
  }

  /** From `from` on, this revision went from its trial straight to `RolledBack`. */
  ghost predicate SkipsFailed(log: seq<DiskState>, from: nat, id: string) {
    exists k :: SkipsAt(log, from, id, k)
  }

  predicate SkipsAt(log: seq<DiskState>, from: nat, id: string, k: nat) {
    0 < k && from <= k < |log| && HasStatus(log[k].archive, id, RolledBack) && IsOnTrial(log[k - 1].archive, id)
  }

  /** It does happen: the mark is lost, the bytes and the pointer are given back, and the last write succeeds. */
  lemma FailedCanBeSkipped()
    ensures exists log: seq<DiskState> :: |log| > 0 && Sound(log) && Settled(log[|log| - 1]) && SkipsFailed(log, 1, "cfg-b")
  {
    var a := Revision(Some("old"), Kept(Manifest("cfg-a", 1, "install", "", KnownGood, "old")));
    var m := Manifest("cfg-b", 2, "edit", "cfg-a", Validating, "new");
    var tried := map["cfg-a" := a, "cfg-b" := Revision(Some("new"), Kept(m))];
    var undone := WithManifest(tried, m.(status := RolledBack));
    var d0 := DiskState(Points("cfg-b"), Points("cfg-a"), Missing, Some("new"), tried, 0, {});
    var d1 := d0.(errors := 1, unmarked := {"cfg-b"});
    var d2 := d1.(config := Some("old"));
    var d3 := d2.(active := Points("cfg-a"));
    var d4 := d3.(archive := undone);
    var log := [d0, d1, d2, d3, d4];
    assert Evolves(d0, d1) && Evolves(d1, d2) && Evolves(d2, d3);
    assert forall id :: RevisionEvolves(d3, undone, id);
    assert Evolves(d3, d4);
    assert Safe(d0) && Safe(d4);
    assert SkipsAt(log, 1, "cfg-b", 4);
    assert Sound(log);
  }
}
