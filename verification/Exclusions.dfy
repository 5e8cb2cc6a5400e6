/** What the hosts a process leaves out at its start can change, and what the configuration revision fixes. */
module Exclusions {
  import opened Basics
  import opened Hosts
  import opened Snapshots
  import opened Plan
  import opened Power
  import opened Histories
  import opened Recovery
  import opened Invariants
  import opened ShutdownTheorems

  /** The hosts a process runs with: the excluded ones are neither shut down nor woken. */
  function WithExclusions(hosts: seq<HostConfig>, excluded: set<string>): (runtime: seq<HostConfig>)
    ensures |runtime| == |hosts| && forall i :: 0 <= i < |hosts| ==> runtime[i].id == hosts[i].id
  {
    if hosts == [] then []
    else
      var n := |hosts| - 1;
      WithExclusions(hosts[..n], excluded)
      + [if hosts[n].id in excluded then hosts[n].(shutdownMethod := "none", wakeEnabled := false) else hosts[n]]
  }

  /** Only hosts that would be shut down over SSH are ever excluded, for want of a usable key. */
  predicate Excludable(hosts: seq<HostConfig>, excluded: set<string>) {
    forall h :: h in hosts && h.id in excluded ==> h.shutdownMethod == "ssh"
  }

  predicate IsNut(hosts: seq<HostConfig>, id: string) {
    exists h :: h in hosts && h.id == id && NutManaged(h)
  }

  /** Exclusions never touch the NUT group. */
  lemma {:induction false} ExclusionsKeepNut(hosts: seq<HostConfig>, excluded: set<string>, id: string)
    requires Excludable(hosts, excluded)
    ensures IsNut(WithExclusions(hosts, excluded), id) <==> IsNut(hosts, id)
  {
    if hosts != [] {
      var n := |hosts| - 1;
      var last := WithExclusions(hosts, excluded)[n];
      ExclusionsKeepNut(hosts[..n], excluded, id);
      assert hosts == hosts[..n] + [hosts[n]];
      assert WithExclusions(hosts, excluded) == WithExclusions(hosts[..n], excluded) + [last];
      OneMoreHost(hosts[..n], hosts[n], id);
      OneMoreHost(WithExclusions(hosts[..n], excluded), last, id);
    }
  }

  lemma OneMoreHost(hosts: seq<HostConfig>, last: HostConfig, id: string)
    ensures IsNut(hosts + [last], id) <==> IsNut(hosts, id) || (last.id == id && NutManaged(last))
  {
    assert forall h :: h in hosts + [last] <==> h in hosts || h == last;
  }

  /** The hosts every configuration revision names. */
  type Configurations = map<string, seq<HostConfig>>

  /** The process runs its revision's hosts, less some exclusions of its own. */
  ghost predicate RunsRevision(cfg: AgentConfig, table: Configurations) {
    cfg.revision in table
    && exists excluded: set<string> :: Excludable(table[cfg.revision], excluded) && cfg.hosts == WithExclusions(table[cfg.revision], excluded)
  }

  ghost predicate RunsRevisions(h: History, table: Configurations) {
    h.Then? ==> RunsRevisions(h.past, table) && (h.last.Booted? ==> RunsRevision(h.last.cfg, table))
  }

  lemma RevisionNamesNut(cfg: AgentConfig, table: Configurations, id: string)
    requires RunsRevision(cfg, table)
    ensures InNutGroup(cfg, id) <==> IsNut(table[cfg.revision], id)
  {
    var excluded: set<string> :| Excludable(table[cfg.revision], excluded) && cfg.hosts == WithExclusions(table[cfg.revision], excluded);
    ExclusionsKeepNut(table[cfg.revision], excluded, id);
  }

  /** While hosts are being shut down, a member of the revision's NUT group was one in every process since the commit. */
  predicate NutSinceCommit(h: History, table: Configurations, id: string, st: State) {
    ShuttingDown(st.power) && st.configRevision in table && IsNut(table[st.configRevision], id) ==> AlwaysNut(h, id)
  }

  ghost predicate Fixed(h: History, table: Configurations, id: string) {
    var s := Replay(h);
    && (s.disk.Some? ==> NutSinceCommit(h, table, id, s.disk.value))
    && (s.process.Some? ==>
          var p := s.process.value;
          && NutSinceCommit(h, table, id, p.memory.st) && RunsRevision(p.cfg, table)
          && s.disk.Some? && s.disk.value.configRevision == p.cfg.revision == p.memory.st.configRevision)
  }

  /** A transaction keeps its revision, and with it its NUT group. */
  lemma {:induction false} RevisionFixesNut(h: History, table: Configurations, id: string)
    requires Legal(h) && RunsRevisions(h, table)
    ensures Fixed(h, table, id)
  {
    if h.Then? {
      RevisionFixesNut(h.past, table, id);
      LegalIsSound(h.past);
      if h.last.Stepped? {
        StepFacts(h);
        StepKeepsNut(h, table, id, Replay(h.past).process.value);
      } else if h.last.Write? {
        WriteFacts(Replay(h.past), h.last.st, h.last.why, id);
        WriteKeepsNut(h, table, id);
      } else if h.last.Booted? {
        RevisionNamesNut(h.last.cfg, table, id);
        LegalIsQuiet(h);
        BootKeepsNut(h, table, id);
      } else {
        LegalIsQuiet(h);
        QuietKeepsNut(h, table, id);
      }
    }
  }

  lemma StepFacts(h: History)
    requires Legal(h) && h.Then? && h.last.Stepped? && Sound(Replay(h.past))
    ensures Replay(h.past).process.Some? && Replay(h).process.Some? && Replay(h).disk == Replay(h.past).disk
    ensures var p, q := Replay(h.past).process.value, Replay(h).process.value;
      && q.cfg == p.cfg && q.memory.st.configRevision == p.memory.st.configRevision
      && (ShuttingDown(q.memory.st.power) ==> IsCommit(h) || ShuttingDown(p.memory.st.power))
  {
    var p := Replay(h.past).process.value;
    StepIsAccepted(p.cfg.policy, p.memory, Replay(h.past).disk.value, p.behind, h.last.now, h.last.inp);
    ShuttingDownStep(p.cfg.policy, p.memory, h.last.now, h.last.inp);
  }

  lemma StepKeepsNut(h: History, table: Configurations, id: string, p: Process)
    requires h.Then? && h.last.Stepped? && Replay(h.past).process == Some(p) && Fixed(h.past, table, id)
    requires Replay(h).process.Some? && Replay(h).disk == Replay(h.past).disk
    requires var q := Replay(h).process.value;
      && q.cfg == p.cfg && q.memory.st.configRevision == p.memory.st.configRevision
      && (ShuttingDown(q.memory.st.power) ==> IsCommit(h) || ShuttingDown(p.memory.st.power))
    ensures Fixed(h, table, id)
  {
    RevisionNamesNut(p.cfg, table, id);
  }

  lemma WriteFacts(s: System, st: State, why: Cause, id: string)
    requires Sound(s) && WriteAllowed(s, st, why)
    ensures Continues(s, st, why, id)
    ensures s.disk.value.configRevision == s.process.value.memory.st.configRevision ==> st.configRevision == s.disk.value.configRevision
  {
    WritesContinue(s, st, why, id);
  }

  lemma WriteKeepsNut(h: History, table: Configurations, id: string)
    requires h.Then? && h.last.Write? && Fixed(h.past, table, id) && Continues(Replay(h.past), h.last.st, h.last.why, id)
    requires h.last.st.configRevision == Replay(h.past).disk.value.configRevision
    ensures Fixed(h, table, id)
  {
  }

  lemma BootKeepsNut(h: History, table: Configurations, id: string)
    requires h.Then? && h.last.Booted? && Fixed(h.past, table, id) && RunsRevision(h.last.cfg, table)
    requires Replay(h.past).disk.Some? && Replay(h.past).disk.value.configRevision == h.last.cfg.revision
    requires InNutGroup(h.last.cfg, id) <==> IsNut(table[h.last.cfg.revision], id)
    ensures Fixed(h, table, id)
  {
  }

  lemma QuietKeepsNut(h: History, table: Configurations, id: string)
    requires Legal(h) && h.Then? && Quiet(h) && Fixed(h.past, table, id)
    requires !h.last.Stepped? && !h.last.Write? && !h.last.Booted?
    ensures Fixed(h, table, id)
  {
  }

  /** A forced shutdown requested while a NUT-managed host is outstanding is at most the sixth of this shutdown. */
  lemma FsdIsBounded(h: History, table: Configurations, id: string)
    requires Legal(h) && RunsRevisions(h, table) && h.Then? && h.last.FsdRequested?
    requires Outstanding(Replay(h.past), id)
    ensures FsdSince(h) <= 6
  {
    NutGroupStands(h.past, table, id);
    FsdWhileOutstandingIsBounded(h, id);
  }

  /** Whoever is in the NUT group during a shutdown was in it ever since the commit. */
  lemma NutGroupStands(h: History, table: Configurations, id: string)
    requires Legal(h) && RunsRevisions(h, table) && Replay(h).process.Some?
    requires ShuttingDown(Replay(h).process.value.memory.st.power) && InNutGroup(Replay(h).process.value.cfg, id)
    ensures AlwaysNut(h, id)
  {
    RevisionFixesNut(h, table, id);
    RevisionNamesNut(Replay(h).process.value.cfg, table, id);
  }

  /**
   * How recovery comes to stall: the record that holds it up is what an outage snapshot takes of a host excluded
   * when the outage began; with its key back, the next process restores hosts that depend on it.
   */
  lemma ExclusionLeavesRecord()
    ensures Excludable(LEFT_OUT, {"storage"}) && WithExclusions(LEFT_OUT, {}) == LEFT_OUT
    ensures Snapshotted(WithExclusions(LEFT_OUT, {"storage"}), map[],
      map["storage" := LEFT_OUT_RECORDS["storage"], "server" := HostState(Some(true), Planned, Waiting, 0, 0)])
  {
    var out := STORAGE.(shutdownMethod := "none", wakeEnabled := false);
    assert LEFT_OUT[..1] == [STORAGE] && [STORAGE][..0] == [];
    assert WithExclusions([], {"storage"}) == [] && WithExclusions([], {}) == [];
    assert WithExclusions([STORAGE], {"storage"}) == [out] && WithExclusions([STORAGE], {}) == [STORAGE];
    assert WithExclusions(LEFT_OUT, {"storage"}) == [out, SERVER];
    assert WithExclusions(LEFT_OUT, {}) == LEFT_OUT;
    var states := map["storage" := LEFT_OUT_RECORDS["storage"], "server" := HostState(Some(true), Planned, Waiting, 0, 0)];
    assert Snapped(out, map[], states) && Snapped(SERVER, map[], states);
    assert [out, SERVER][0] == out && [out, SERVER][1] == SERVER;
  }
}
