/** A run in which a committed shutdown comes to wait for ever: an accepted request, and a refused forced shutdown. */
module HeldUpRun {
  import opened Basics
  import opened Graph
  import opened Hosts
  import opened Snapshots
  import opened Plan
  import opened Power
  import opened Policy
  import opened Histories
  import opened DirectShutdowns
  import opened CompleteRun

  const PLAIN := HostConfig("plain", true, "none", "ssh", 10, false, 10, 3, 0, "previous-state", [])
  const BOX := HostConfig("box", true, "ping", "nut", 20, false, 20, 3, 0, "previous-state", [])
  const MIXED := AgentConfig("r1", POLICY, [PLAIN, BOX], false)

  const PLAIN_BEFORE := HostState(None, Planned, RecoveryNotRequired, 0, 0)
  const PLAIN_ASKED := PLAIN_BEFORE.(shutdownState := Requested, shutdownAttempts := 1)
  const PLAIN_AGREED := PLAIN_ASKED.(shutdownState := Acknowledged)
  const BOX_BEFORE := HostState(Some(true), Planned, RecoveryNotRequired, 0, 0)
  const BOX_ASKED := BOX_BEFORE.(shutdownState := Requested, shutdownAttempts := 1)
  const BOX_REFUSED := BOX_ASKED.(shutdownState := Unverified)

  function Both(plain: HostState, box: HostState): HostStates {
    map["plain" := plain, "box" := box]
  }

  const Q2 := At(M1, Generation(3, OnBattery, false, false, Both(PLAIN_BEFORE, BOX_BEFORE)))
  const Q3 := At(Q2, Generation(4, ShutdownCommitted, true, false, Both(PLAIN_BEFORE, BOX_BEFORE)))
  const Q4 := At(Q3, Generation(5, ShutdownInProgress, true, false, Both(PLAIN_BEFORE, BOX_BEFORE)))
  const Q5 := At(Q4, Generation(6, ShutdownInProgress, true, false, Both(PLAIN_ASKED, BOX_BEFORE)))
  const Q6 := At(Q5, Generation(7, ShutdownInProgress, true, false, Both(PLAIN_AGREED, BOX_BEFORE)))
  const Q7 := At(Q6, Generation(8, ShutdownInProgress, true, false, Both(PLAIN_AGREED, BOX_ASKED)))
  const Q8 := At(Q7, Generation(9, ShutdownInProgress, true, false, Both(PLAIN_AGREED, BOX_REFUSED)))

  lemma MixedIsValid()
    ensures ValidConfig(MIXED)
  {
    var g := GraphOf(MIXED.hosts);
    GraphOfUnique(MIXED.hosts);
    assert g[MIXED.hosts[0].id] == [] && g[MIXED.hosts[1].id] == [];
    assert forall id :: id in g ==> id == "plain" || id == "box";
    OrderedIsAcyclic(g, ["plain", "box"]);
  }

  lemma SnapshotOfMixed()
    ensures Snapshotted(MIXED.hosts, map[], Both(PLAIN_BEFORE, BOX_BEFORE))
  {
    assert MIXED.hosts[0] == PLAIN && MIXED.hosts[1] == BOX;
    assert Snapped(PLAIN, map[], Both(PLAIN_BEFORE, BOX_BEFORE)) && Snapped(BOX, map[], Both(PLAIN_BEFORE, BOX_BEFORE));
  }

  lemma SnapshotIsWitnessed(h: History)
    requires h.Then? && h.last == Probed("box", Some(true)) && Replay(h).process == Some(Process(MIXED, M1, None, false))
    ensures HostsAdvance(M1.st, Q2.st.hosts) && Witnessed(h, Q2.st.hosts)
  {
    assert ReadingThisTick(h, "box") == Some(Some(true));
    forall c | c in MIXED.hosts ensures c == PLAIN || c == BOX {
    }
  }

  lemma OutageBegins() returns (h: History)
    ensures RestsAs(MIXED, h, Q2.st, Q2) && LastStep(h).Some? && LastStep(h).value.now == 0
    ensures Forced(h) == 0 && !SentSinceCommit(h, "plain")
  {
    MixedIsValid();
    h := BootsAs(MIXED, "plain");
    h := StepAndSaveAs(MIXED, h, M0.st, M0, 0, Reading(UtilityOnBattery, false), M1, "plain");
    h := BoxIsObserved(h, M1);
    SnapshotIsWitnessed(h);
    SnapshotOfMixed();
    SaveHostsAs(MIXED, h, M1, Q2.st, "plain");
    h := Saved(h, Q2.st, HostRecords);
  }

  lemma BoxIsObserved(before: History, m: Memory) returns (h: History)
    requires RestsAs(MIXED, before, m.st, m)
    ensures RestsAs(MIXED, h, m.st, m) && LastStep(h) == LastStep(before) && Forced(h) == Forced(before)
    ensures h == Then(before, Probed("box", Some(true))) && SentSinceCommit(h, "plain") == SentSinceCommit(before, "plain")
  {
    h := Then(before, Probed("box", Some(true)));
    ObserveAs(MIXED, before, m, h.last);
  }

  lemma ShutdownBegins() returns (h: History)
    ensures RestsAs(MIXED, h, Q4.st, Q4) && Forced(h) == 0 && !SentSinceCommit(h, "plain")
  {
    h := OutageBegins();
    h := StepAndSaveAs(MIXED, h, Q2.st, Q2, 1, Reading(UtilityOnBattery, true), Q3, "plain");
    h := StepAndSaveAs(MIXED, h, Q3.st, Q3, 1, Reading(UtilityOnBattery, true), Q4, "plain");
  }

  lemma PlanOfMixed()
    ensures ShutdownPlanOf(MIXED.hosts).preFsd == [PLAIN]
  {
    assert [PLAIN, BOX][..1] == [PLAIN] && [PLAIN][..0] == [];
    assert Select([PLAIN], Direct) == Select([], Direct) + [PLAIN];
    assert Select([PLAIN, BOX], Direct) == Select([PLAIN], Direct) + [];
  }

  lemma MayAskPlain(before: History, h: History)
    requires h == Saved(before, Q5.st, HostRecords) && !SentSinceCommit(h, "plain")
    requires Replay(before).process == Some(Process(MIXED, Q4, None, false)) && Replay(h).process == Some(Process(MIXED, Q5, None, false))
    ensures ShutdownAllowed(h, "plain")
  {
    assert JustRecorded(h, "plain", DirectShutdown);
    PlanOfMixed();
    assert ShutdownPlanOf(MIXED.hosts).preFsd[0].id == "plain";
  }

  lemma MayRecordRequest(h: History)
    requires Replay(h).process == Some(Process(MIXED, Q4, None, false))
    ensures HostsAdvance(Q4.st, Q5.st.hosts) && Witnessed(h, Q5.st.hosts)
  {
    MayRecord(h, Process(MIXED, Q4, None, false), "plain", PLAIN_ASKED, Q5.st.hosts);
  }

  lemma RequestIsRecorded(before: History) returns (h: History)
    requires RestsAs(MIXED, before, Q4.st, Q4) && Forced(before) == 0 && !SentSinceCommit(before, "plain")
    ensures RestsAs(MIXED, h, Q5.st, Q5) && Forced(h) == 0 && ShutdownAllowed(h, "plain")
  {
    MayRecordRequest(before);
    SaveHostsAs(MIXED, before, Q4, Q5.st, "plain");
    h := Saved(before, Q5.st, HostRecords);
    MayAskPlain(before, h);
  }

  lemma PlainIsAsked(before: History) returns (h: History)
    requires RestsAs(MIXED, before, Q5.st, Q5) && Forced(before) == 0 && ShutdownAllowed(before, "plain")
    ensures RestsAs(MIXED, h, Q5.st, Q5) && Forced(h) == 0 && h.Then? && h.last == ShutdownSent("plain", Some(DirectRequested))
  {
    h := Then(before, ShutdownSent("plain", Some(DirectRequested)));
    ObserveAs(MIXED, before, Q5, ShutdownSent("plain", Some(DirectRequested)));
  }

  lemma MayRecordAgreement(h: History)
    requires h.Then? && h.last == ShutdownSent("plain", Some(DirectRequested)) && Replay(h).process == Some(Process(MIXED, Q5, None, false))
    ensures HostsAdvance(Q5.st, Q6.st.hosts) && Witnessed(h, Q6.st.hosts)
  {
    assert Told(h, "plain");
    MayRecord(h, Process(MIXED, Q5, None, false), "plain", PLAIN_AGREED, Q6.st.hosts);
  }

  lemma PlainAgrees(before: History) returns (h: History)
    requires RestsAs(MIXED, before, Q5.st, Q5) && Forced(before) == 0 && before.Then? && before.last == ShutdownSent("plain", Some(DirectRequested))
    ensures RestsAs(MIXED, h, Q6.st, Q6) && Forced(h) == 0
  {
    MayRecordAgreement(before);
    SaveHostsAs(MIXED, before, Q5, Q6.st, "plain");
    h := Saved(before, Q6.st, HostRecords);
  }

  lemma {:induction false} NeverForced(h: History, id: string)
    ensures FsdFor(h, id) <= Forced(h)
  {
    if h.Then? {
      NeverForced(h.past, id);
    }
  }

  lemma MayForce(before: History, h: History)
    requires h == Saved(before, Q7.st, HostRecords) && before.Then? && before.last == Probed("box", Some(true))
    requires Steady(Replay(h)) && Replay(h).process.value.memory == Q7 && Replay(h).process.value.cfg == MIXED && Forced(h) == 0
    ensures FsdAllowed(h)
  {
    assert MIXED.hosts[0] == PLAIN && MIXED.hosts[1] == BOX;
    assert ReadingThisTick(h, "box") == ReadingThisTick(before, "box") == Some(Some(true));
    forall c | c in MIXED.hosts ensures c == PLAIN || c == BOX {
    }
    forall id | Outstanding(Replay(h), id) ensures FsdFor(h, id) < Record(Q7.st.hosts, id).shutdownAttempts <= MAX_FSD_ATTEMPTS {
      NeverForced(h, id);
    }
  }

  lemma BoxIsRecorded(before: History) returns (h: History)
    requires RestsAs(MIXED, before, Q6.st, Q6) && Forced(before) == 0
    ensures RestsAs(MIXED, h, Q7.st, Q7) && FsdAllowed(h) && Forced(h) == 0
  {
    var seen := BoxIsObserved(before, Q6);
    MayRecord(seen, Process(MIXED, Q6, None, false), "box", BOX_ASKED, Q7.st.hosts);
    SaveHostsAs(MIXED, seen, Q6, Q7.st, "plain");
    h := Saved(seen, Q7.st, HostRecords);
    MayForce(seen, h);
  }

  lemma FsdIsRequested(before: History) returns (h: History)
    requires RestsAs(MIXED, before, Q7.st, Q7) && FsdAllowed(before) && Forced(before) == 0
    ensures RestsAs(MIXED, h, Q7.st, Q7) && Forced(h) == 1
  {
    h := Then(before, FsdRequested(false));
    ObserveAs(MIXED, before, Q7, FsdRequested(false));
  }

  lemma RefusalIsRecorded(before: History) returns (h: History)
    requires RestsAs(MIXED, before, Q7.st, Q7) && Forced(before) == 1
    ensures RestsAs(MIXED, h, Q8.st, Q8) && Forced(h) == 1
  {
    MayRecord(before, Process(MIXED, Q7, None, false), "box", BOX_REFUSED, Q8.st.hosts);
    SaveHostsAs(MIXED, before, Q7, Q8.st, "plain");
    h := Saved(before, Q8.st, HostRecords);
  }

  /**
   * The limit of the promise that a committed shutdown ends: after a legal run in which the one direct host accepted
   * its request and the UPS refused the other, the first one holds the shutdown up.
   */
  lemma ShutdownIsHeldUp() returns (h: History)
    ensures Legal(h) && Replay(h).process == Some(Process(MIXED, Q8, None, false)) && Forced(h) == 1
    ensures Q8.st.power == ShutdownInProgress && PLAIN in MIXED.hosts && HeldUp(PLAIN, Q8.st.hosts)
  {
    h := ShutdownBegins();
    h := RequestIsRecorded(h);
    h := PlainIsAsked(h);
    h := PlainAgrees(h);
    h := BoxIsRecorded(h);
    h := FsdIsRequested(h);
    h := RefusalIsRecorded(h);
    assert MIXED.hosts[0] == PLAIN;
  }
}
