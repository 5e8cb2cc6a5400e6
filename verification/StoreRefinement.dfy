/** The two-file store refines the single durable generation that histories speak of. */
module StoreRefinement {
  import opened Basics
  import opened Power
  import opened Histories
  import Environment
  import opened Store

  /** What a write makes of the one durable generation. */
  function Landed(disk: Option<State>, next: State, outcome: Outcome): Option<State> {
    if outcome == Lost then disk else Some(Numbered(disk, next))
  }

  function LandedAll(disk: Option<State>, nexts: seq<State>, outcomes: seq<Outcome>): Option<State>
    requires |nexts| == |outcomes|
  {
    if nexts == [] then disk
    else
      var n := |nexts| - 1;
      Landed(LandedAll(disk, nexts[..n], outcomes[..n]), nexts[n], outcomes[n])
  }

  /** This is how histories treat a write. */
  lemma HistoriesLandWrites(h: History, next: State, why: Cause, outcome: Outcome)
    ensures Replay(Then(h, Write(Environment.Stamped(Replay(h), next), why, outcome))).disk == Landed(Replay(h).disk, next, outcome)
  {
  }

  /** Exactly the reported writes are Done. */
  predicate AsReported(reports: seq<bool>, outcomes: seq<Outcome>) {
    |reports| == |outcomes| && forall i :: 0 <= i < |reports| ==> (reports[i] <==> outcomes[i] == Done)
  }

  /** Some fate of each unreported write explains the generation. */
  ghost predicate Explains(disk: Option<State>, nexts: seq<State>, reports: seq<bool>, st: Option<State>) {
    |reports| == |nexts| && exists outcomes: seq<Outcome> :: AsReported(reports, outcomes) && LandedAll(disk, nexts, outcomes) == st
  }

  lemma OneMoreWrite(disk: Option<State>, nexts: seq<State>, reports: seq<bool>, st: Option<State>, next: State, report: bool, outcome: Outcome)
    requires Explains(disk, nexts, reports, st) && (report <==> outcome == Done)
    ensures Explains(disk, nexts + [next], reports + [report], Landed(st, next, outcome))
  {
    var outcomes: seq<Outcome> :| AsReported(reports, outcomes) && LandedAll(disk, nexts, outcomes) == st;
    OneMoreLanded(disk, nexts, outcomes, next, outcome);
    OneMoreReported(reports, outcomes, report, outcome);
  }

  lemma OneMoreLanded(disk: Option<State>, nexts: seq<State>, outcomes: seq<Outcome>, next: State, outcome: Outcome)
    requires |nexts| == |outcomes|
    ensures LandedAll(disk, nexts + [next], outcomes + [outcome]) == Landed(LandedAll(disk, nexts, outcomes), next, outcome)
  {
    var n := |nexts|;
    assert (nexts + [next])[..n] == nexts && (outcomes + [outcome])[..n] == outcomes;
    assert (nexts + [next])[n] == next && (outcomes + [outcome])[n] == outcome;
  }

  lemma OneMoreReported(reports: seq<bool>, outcomes: seq<Outcome>, report: bool, outcome: Outcome)
    requires AsReported(reports, outcomes) && (report <==> outcome == Done)
    ensures AsReported(reports + [report], outcomes + [outcome])
  {
  }

  /** Whatever an unfinished write leaves possible is explained by its having been lost or having landed unreported. */
  lemma OneMoreExplained(disk: Option<State>, nexts: seq<State>, reports: seq<bool>, before: set<Option<State>>, live: Option<State>,
                         next: State, report: bool, after: set<Option<State>>)
    requires forall st :: st in before ==> Explains(disk, nexts, reports, st)
    requires live in before
    requires if report then after == {Some(Numbered(live, next))} else after <= before + {Some(Numbered(live, next))}
    ensures forall st :: st in after ==> Explains(disk, nexts + [next], reports + [report], st)
  {
    forall st | st in after ensures Explains(disk, nexts + [next], reports + [report], st) {
      if report {
        OneMoreWrite(disk, nexts, reports, live, next, report, Done);
      } else if st in before {
        OneMoreWrite(disk, nexts, reports, st, next, report, Lost);
      } else {
        OneMoreWrite(disk, nexts, reports, live, next, report, Unreported);
      }
    }
  }

  /**
   * Any writes of one process, each carried out, failed, or cut short anywhere, and then a crash: what the next
   * process loads is what a history holds that gives every write one of its three outcomes, Done exactly when the
   * writer was told so. The store is certain of it again, so processes follow one another.
   */
  method OneProcess(dir: StateDir, nexts: seq<State>) returns (reports: seq<bool>, loaded: Option<State>)
    requires dir.Valid() && dir.possible == {Newest(dir.Live())}
    modifies dir
    ensures dir.Valid() && dir.possible == {loaded} && loaded == Newest(dir.Live())
    ensures Explains(old(Newest(dir.Live())), nexts, reports, loaded)
  {
    ghost var disk := Newest(dir.Live());
    reports := [];
    assert AsReported([], []) && LandedAll(disk, [], []) == disk;
    for i := 0 to |nexts|
      invariant dir.Valid() && forall st :: st in dir.possible ==> Explains(disk, nexts[..i], reports, st)
    {
      ghost var before, live := dir.possible, Newest(dir.Live());
      assert dir.Live() in dir.images;
      var written := dir.Write(nexts[i]);
      OneMoreExplained(disk, nexts[..i], reports, before, live, nexts[i], written.Some?, dir.possible);
      assert nexts[..i + 1] == nexts[..i] + [nexts[i]];
      reports := reports + [written.Some?];
    }
    assert nexts[..|nexts|] == nexts;
    dir.Crash();
    loaded := dir.Load();
  }
}
