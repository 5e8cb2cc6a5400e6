/** Two checksummed generations of the durable state, rotated by rename, under crashes and damage. */
module Store {
  import opened Basics
  import opened Power

  /** `sealed` says that the checksum matches. */
  datatype File = Absent | Unreadable | Document(st: State, sealed: bool)

  /** The generation a file holds, if it decodes, makes sense and matches its checksum. */
  function Read(f: File): Option<State> {
    if f.Document? && f.sealed && ValidSemantic(f.st) then Some(f.st) else None
  }

  datatype Directory = Directory(current: File, previous: File)

  /** The generation a reader of this directory gets. */
  function Newest(d: Directory): Option<State> {
    if Read(d.current).Some? then Read(d.current) else Read(d.previous)
  }

  /** The current generation is newer than the previous one. */
  predicate Ordered(d: Directory) {
    Read(d.current).Some? && Read(d.previous).Some? ==> Read(d.current).value.sequence > Read(d.previous).value.sequence
  }

  /** Nothing but the number, one up from the generation before, and a missing version is filled in. */
  lemma NumberingCounts(newest: Option<State>, next: State)
    ensures Numbered(newest, next) == next.(sequence := if newest.Some? then newest.value.sequence + 1 else 1,
                                            stateVersion := if next.stateVersion == 0 then 1 else next.stateVersion)
  {
  }

  class StateDir {
    /** The directory as it is, last, preceded by every older image a crash may still bring back. */
    var images: seq<Directory>

    /** The last completed write and everything in flight since; before that, what the directory started with. */
    ghost var possible: set<Option<State>>

    /** How many steps have failed, or were cut off. */
    ghost var errors: nat

    constructor ()
      ensures Valid() && images == [Directory(Absent, Absent)] && possible == {None}
    {
      images := [Directory(Absent, Absent)];
      possible := {None};
      errors := 0;
    }

    ghost predicate Valid()
      reads this
    {
      |images| > 0 && forall d :: d in images ==> Ordered(d) && Newest(d) in possible
    }

    function Live(): Directory
      reads this
      requires |images| > 0
    {
      images[|images| - 1]
    }

    /** Whatever image survives, there is a valid generation behind the current one. */
    ghost predicate Fallback()
      reads this
    {
      forall d :: d in images ==> Read(d.previous).Some?
    }

    method Load() returns (st: Option<State>)
      requires Valid()
      ensures st == Newest(Live()) && st in possible
      ensures Fallback() ==> st.Some?
    {
      assert Live() in images;
      st := Read(Live().current);
      if st.None? {
        st := Read(Live().previous);
      }
    }

    /** A rename takes effect at once, but only a directory sync makes it durable. */
    method Rename(after: Directory) returns (ok: bool)
      requires |images| > 0
      modifies this`images, this`errors
      ensures images == if ok then old(images) + [after] else old(images)
      ensures errors == old(errors) + if ok then 0 else 1
    {
      ok := *;
      if ok {
        images := images + [after];
      } else {
        errors := errors + 1;
      }
    }

    method SyncDir() returns (ok: bool)
      requires |images| > 0
      modifies this`images, this`errors
      ensures images == if ok then [old(Live())] else old(images)
      ensures errors == old(errors) + if ok then 0 else 1
    {
      ok := *;
      if ok {
        images := [Live()];
      } else {
        errors := errors + 1;
      }
    }

    /**
     * Installs the next generation. `None` stands for an error and for a crash alike: every step may be the last
     * one that happened.
     */
    method Write(next: State) returns (written: Option<State>)
      requires Valid()
      modifies this
      ensures Valid()
      ensures written.Some? ==>
        && written.value == Numbered(Newest(old(Live())), next) && ValidSemantic(written.value)
        && images == [Live()] && Newest(Live()) == written && possible == {written}
        && (Fallback() <==> Read(old(Live()).current).Some? || Read(old(Live()).previous).Some?)
      ensures errors >= old(errors) && (written.None? ==> !ValidSemantic(Numbered(Newest(old(Live())), next)) || errors > old(errors))
      ensures written.None? ==>
        possible == old(possible) + if ValidSemantic(Numbered(Newest(old(Live())), next)) then {Some(Numbered(Newest(old(Live())), next))} else {}
      ensures !ValidSemantic(Numbered(Newest(old(Live())), next)) ==> written.None? && images == old(images)
      ensures old(Fallback()) ==> Fallback()
    {
      var newest := Load();
      var payload := Numbered(newest, next);
      if !ValidSemantic(payload) {
        return None;
      }
      possible := possible + {Some(payload)};
      var file := Document(payload, true);
      if Read(Live().current).Some? {
        assert Live() in images;
        var ok := Rename(Directory(Absent, Live().current));
        if !ok {
          return None;
        }
        ok := SyncDir();
        if !ok {
          return None;
        }
      }
      assert Live() in images;
      var ok := Rename(Live().(current := file));
      if !ok {
        return None;
      }
      ok := SyncDir();
      if !ok {
        return None;
      }
      possible := {Some(payload)};
      return Some(payload);
    }

    /** A crash brings back one of the images that were not overwritten durably, and with it certainty. */
    method Crash()
      requires Valid()
      modifies this
      ensures Valid() && |images| == 1 && images[0] in old(images)
      ensures possible == {Newest(Live())} && Newest(Live()) in old(possible)
      ensures old(Fallback()) ==> Fallback()
    {
      var i :| 0 <= i < |images|;
      images := [images[i]];
      possible := {Newest(images[0])};
    }

    /** Between writes something spoils `current.json`, in whatever image survives. */
    method Damage(spoilt: File)
      requires Valid() && Read(spoilt).None?
      modifies this
      ensures Valid() && images == seq(|old(images)|, i requires 0 <= i < |old(images)| => old(images)[i].(current := spoilt))
      ensures possible == set d | d in old(images) :: Read(d.previous)
      ensures old(Fallback()) ==> Fallback() && None !in possible
    {
      ghost var before := images;
      images := seq(|images|, i requires 0 <= i < |images| reads this => images[i].(current := spoilt));
      possible := set d | d in before :: Read(d.previous);
      forall d | d in images ensures Ordered(d) && Newest(d) in possible {
        var i :| 0 <= i < |images| && images[i] == d;
        assert before[i] in before && d.previous == before[i].previous;
      }
    }
  }

  /** Whatever number it gets, the generation makes sense. */
  predicate Writable(next: State) {
    ValidSemantic(Numbered(None, next))
  }

  /** Two completed writes in a row are enough to have something to fall back on. */
  method WriteTwice(dir: StateDir, first: State, second: State) returns (a: Option<State>, b: Option<State>)
    requires dir.Valid()
    modifies dir
    ensures dir.Valid() && (a.Some? && b.Some? ==> dir.Fallback())
    ensures a.Some? && b.Some? ==> b.value.sequence == a.value.sequence + 1
    ensures dir.errors == old(dir.errors) && Writable(first) && Writable(second) ==> a.Some? && b.Some?
  {
    a := dir.Write(first);
    b := dir.Write(second);
  }

  datatype Happening = Writing(next: State) | Crashing | Damaging(spoilt: File)

  /** Any run of writes, crashes and damage: what loads is always possible, and a fallback once gained is never lost. */
  method Endure(dir: StateDir, run: seq<Happening>) returns (loaded: Option<State>)
    requires dir.Valid()
    modifies dir
    ensures dir.Valid() && loaded == Newest(dir.Live()) && loaded in dir.possible
    ensures old(dir.Fallback()) ==> dir.Fallback() && loaded.Some?
  {
    for i := 0 to |run|
      invariant dir.Valid()
      invariant old(dir.Fallback()) ==> dir.Fallback()
    {
      match run[i] {
        case Writing(next) =>
          var written := dir.Write(next);
        case Crashing =>
          dir.Crash();
        case Damaging(spoilt) =>
          if Read(spoilt).None? {
            dir.Damage(spoilt);
          }
      }
    }
    loaded := dir.Load();
  }
}
