/** What a new outage leaves on disk, completed or cut short. */
module Renewal {
  import opened Hosts
  import opened Snapshots
  import opened Power
  import opened Policy
  import opened Histories
  import opened Invariants
  import opened Recovery

  // ---------------------------------------------------------------- the snapshot

  predicate KeepsClaims(before: HostState, after: HostState) {
    (Claims(after, false) ==> Claims(before, false)) && (Claims(after, true) ==> Claims(before, true))
  }

  /** A snapshot completes nobody's shutdown, forgets no attempt and no host. */
  lemma SnapshotIsAllowed(hosts: seq<HostConfig>, st: State, states: HostStates)
    requires Snapshotted(hosts, st.hosts, states) && st.power == OnBattery
    ensures HostsAdvance(st, states)
    ensures NoneCompleted(st.hosts) ==> NoneCompleted(states)
    ensures forall id :: id in states ==> KeepsClaims(Record(st.hosts, id), states[id])
  {
    forall id | id in states
      ensures KeepsClaims(Record(st.hosts, id), states[id])
      ensures Record(st.hosts, id).shutdownAttempts <= states[id].shutdownAttempts && Record(st.hosts, id).wakeAttempts <= states[id].wakeAttempts
      ensures NoneCompleted(st.hosts) ==> states[id].shutdownState != Completed
    {
      if h :| h in hosts && h.id == id {
        assert Snapped(h, st.hosts, states);
      }
    }
  }

  // ---------------------------------------------------------------- the renewed transaction

  /** A host at the very beginning of an outage. */
  predicate FreshRecord(h: HostConfig, hs: HostState) {
    hs == SnapshotRecord(h, BLANK, hs.wasOnline)
  }

  /** A new transaction that names the old one as its parent, commits nothing and knows each host afresh. */
  ghost predicate Renewed(hosts: seq<HostConfig>, before: State, issued: set<string>, after: State) {
    && after.power == OnBattery && !after.shutdownCommitted && !after.recoveryStarted
    && after.transactionId !in issued && after.parentTransactionId == before.transactionId
    && (forall h :: h in hosts ==> h.id in after.hosts && FreshRecord(h, after.hosts[h.id]))
    && (forall id :: id in after.hosts ==> exists h :: h in hosts && h.id == id)
  }

  lemma EmptySnapshotIsFresh(hosts: seq<HostConfig>, after: HostStates)
    requires Snapshotted(hosts, map[], after)
    ensures forall h :: h in hosts ==> h.id in after && FreshRecord(h, after[h.id])
    ensures forall id :: id in after ==> exists h :: h in hosts && h.id == id
  {
    forall h | h in hosts ensures h.id in after && FreshRecord(h, after[h.id]) {
      assert Snapped(h, map[], after);
    }
  }

  /** No attempt made, the shutdown to be planned unless there is none, and to be woken unless configuration forbids it. */
  predicate StartsOver(h: HostConfig, hs: HostState) {
    && hs.shutdownAttempts == 0 && hs.wakeAttempts == 0
    && hs.shutdownState == (if h.shutdownMethod == "none" then NotRequired else Planned)
    && hs.recoveryState == (if h.wakeEnabled && h.restorePolicy != "never" then Waiting else RecoveryNotRequired)
  }

  /** After a renewed outage nobody counts as shut down, and recovery will be able to finish every host. */
  lemma RenewedStartsOver(hosts: seq<HostConfig>, before: State, issued: set<string>, after: State)
    requires Renewed(hosts, before, issued, after)
    ensures NoneCompleted(after.hosts) && AllTracked(hosts, after.hosts)
    ensures forall h :: h in hosts ==> h.id in after.hosts && StartsOver(h, after.hosts[h.id])
  {
    forall id | id in after.hosts ensures after.hosts[id].shutdownState != Completed {
      var h :| h in hosts && h.id == id;
      assert FreshRecord(h, after.hosts[h.id]);
    }
    forall h | h in hosts ensures Tracked(h, after.hosts) && StartsOver(h, after.hosts[h.id]) {
      assert FreshRecord(h, after.hosts[h.id]);
    }
  }

  // ---------------------------------------------------------------- cut short

  /** What a power cut inside the renewal of an outage can leave on disk. */
  predicate InRenewal(d: State) {
    d.recoveryStarted || (d.power == OnBattery && (d.shutdownCommitted || NoneCompleted(d.hosts)))
  }

  /** Every generation on disk from `before` on belongs to a renewal. */
  ghost predicate RenewalSince(before: History, h: History) {
    && Replay(h).disk.Some? && InRenewal(Replay(h).disk.value)
    && (h == before || (h.Then? && RenewalSince(before, h.past)))
  }

  lemma {:induction false} RenewalChains(a: History, b: History, c: History)
    requires RenewalSince(a, b) && RenewalSince(b, c)
    ensures RenewalSince(a, c)
  {
    if c != b {
      RenewalChains(a, b, c.past);
    }
  }

  lemma RenewalMayChain(a: History, b: History, c: History)
    ensures RenewalSince(a, b) && RenewalSince(b, c) ==> RenewalSince(a, c)
  {
    if RenewalSince(a, b) && RenewalSince(b, c) {
      RenewalChains(a, b, c);
    }
  }

  lemma {:induction false} RenewalStartsThere(before: History, h: History)
    requires RenewalSince(before, h)
    ensures CutOf(before, h)
  {
    if h != before {
      RenewalStartsThere(before, h.past);
    }
  }

  /** A power cut inside a renewal leaves a disk that can finish it. */
  lemma {:induction false} CutInsideRenewal(before: History, h: History, left: History)
    requires RenewalSince(before, h) && CutOf(before, left) && CutOf(left, h)
    ensures RenewalSince(before, left)
  {
    if left != h {
      if h == before {
        SelfCut(before, left);
      } else {
        CutInsideRenewal(before, h.past, left);
      }
    }
  }

  lemma {:induction false} CutIsSmaller(p: History, h: History)
    requires CutOf(p, h)
    ensures p == h || p < h
  {
    if p != h {
      CutIsSmaller(p, h.past);
    }
  }

  lemma SelfCut(a: History, b: History)
    requires CutOf(a, b) && CutOf(b, a)
    ensures a == b
  {
    CutIsSmaller(a, b);
    CutIsSmaller(b, a);
  }

  // ---------------------------------------------------------------- which readings renew

  /** The reading that makes the engine, from memory `m`, start a fresh outage with its own transaction. */
  predicate RenewsOutage(cfg: Config, m: Memory, ups: Ups) {
    match m.st.power
    case Normal => ups.utility == UtilityOnBattery && !ups.fsd
    case RecoveryStarted => RecoveryEnabled(cfg) && UnsafeUps(ups)
    case RestoreHosts => RecoveryEnabled(cfg) && UnsafeUps(ups)
    case BootReconcile =>
      ups.utility != UtilityUnknown &&
      if m.st.recoveryStarted then RecoveryEnabled(cfg) && (ups.utility == UtilityOnBattery || ups.lowBattery || ups.fsd)
      else m.st.shutdownCommitted && m.resume == OnBattery && ups.utility == UtilityOnBattery
    case _ => false
  }

  /** The reading on which a restarted process goes on with an outage nobody has committed. */
  predicate ResumesOutage(m: Memory, ups: Ups) {
    m.st.power == BootReconcile && !m.st.recoveryStarted && !m.st.shutdownCommitted && ups.utility == UtilityOnBattery
  }

  /** For an ON_BATTERY reading the power state before it decides, once the disk is inside a committed renewal. */
  lemma OnBatteryRenews(cfg: Config, d: State, m: Memory, ups: Ups)
    requires Coherent(d) && d.shutdownCommitted && InRenewal(d) && RecoveryEnabled(cfg) && ups.utility == UtilityOnBattery
    requires m.st.power == BootReconcile ==> m == Boot(d)
    ensures RenewsOutage(cfg, m, ups) <==>
      m.st.power in {BootReconcile, RecoveryStarted, RestoreHosts} || (m.st.power == Normal && !ups.fsd)
  {
  }

  /** Power states in which a committed transaction waits: for power, for the end of a stable interval, or for ever. */
  predicate Awaits(power: PowerState) {
    power == WaitingForAC || power == RecoveryWait || power == FailedSafe
  }

  // ---------------------------------------------------------------- what stays without a renewal

  predicate KeepsMarkers(before: HostStates, after: HostStates) {
    forall id :: id in before && before[id].shutdownState == Completed ==> id in after && after[id].shutdownState == Completed
  }

  /** What memory and disk hold belongs to this transaction, and these hosts still count as shut down. */
  predicate Carries(s: System, tx: string, markers: HostStates) {
    && s.disk.Some? && s.disk.value.transactionId == tx && KeepsMarkers(markers, s.disk.value.hosts)
    && (s.process.Some? ==> s.process.value.memory.st.transactionId == tx && KeepsMarkers(markers, s.process.value.memory.st.hosts))
  }

  /** As long as no process, transaction or outage snapshot begins, the transaction and every Completed marker stay. */
  lemma {:induction false} MarkersStay(h0: History, h: History, tx: string, markers: HostStates)
    requires Legal(h) && CutOf(h0, h) && Ages(h) == Ages(h0) && Carries(Replay(h0), tx, markers)
    ensures Carries(Replay(h), tx, markers)
  {
    if h != h0 {
      AgesGrow(h0, h.past);
      MarkersStay(h0, h.past, tx, markers);
      if h.last.Write? {
        LegalIsSound(h.past);
        WriteKeepsMarkers(Replay(h.past), h.last.st, h.last.why, tx, markers);
      } else {
        OnlyWritesTouchHosts(h);
      }
    }
  }

  lemma WriteKeepsMarkers(s: System, st: State, why: Cause, tx: string, markers: HostStates)
    requires Sound(s) && WriteAllowed(s, st, why) && Carries(s, tx, markers)
    requires why != NewOutage && (why == HostRecords ==> s.process.value.memory.st.power != OnBattery)
    ensures st.transactionId == tx && KeepsMarkers(markers, st.hosts)
  {
  }

  lemma {:induction false} AgesGrow(h0: History, h: History)
    requires CutOf(h0, h)
    ensures Ages(h0) <= Ages(h)
  {
    if h != h0 {
      AgesGrow(h0, h.past);
    }
  }

  // ---------------------------------------------------------------- records that recovery can finish

  ghost predicate TrackedAt(h: History, hosts: seq<HostConfig>) {
    && (Replay(h).disk.Some? ==> AllTracked(hosts, Replay(h).disk.value.hosts))
    && (Replay(h).process.Some? ==> AllTracked(hosts, Replay(h).process.value.memory.st.hosts))
  }

  /** Every process so far has run with these hosts. */
  ghost predicate RunsOnly(h: History, hosts: seq<HostConfig>) {
    h.Then? ==> RunsOnly(h.past, hosts) && (h.last.Booted? ==> h.last.cfg.hosts == hosts)
  }

  /**
   * Snapshots, shutdowns, wakes, failed writes and restarts all leave records that recovery can finish, as long as
   * every process runs with the same hosts.
   */
  lemma {:induction false} RecordsStayTracked(h: History, hosts: seq<HostConfig>)
    requires Legal(h) && RunsOnly(h, hosts)
    ensures TrackedAt(h, hosts)
    ensures Replay(h).process.Some? ==> Replay(h).process.value.cfg.hosts == hosts
  {
    if h.Then? {
      RecordsStayTracked(h.past, hosts);
      LegalIsQuiet(h);
      if h.last.Write? {
        LegalIsSound(h.past);
        WriteKeepsTracking(Replay(h.past), h.last.st, h.last.why, hosts);
      } else if !h.last.Booted? && !h.last.Provisioned? {
        OnlyWritesTouchHosts(h);
      }
    }
  }

  lemma WriteKeepsTracking(s: System, st: State, why: Cause, hosts: seq<HostConfig>)
    requires Sound(s) && WriteAllowed(s, st, why) && s.process.value.cfg.hosts == hosts
    requires AllTracked(hosts, s.disk.value.hosts) && AllTracked(hosts, s.process.value.memory.st.hosts)
    ensures AllTracked(hosts, st.hosts)
  {
    var now := s.process.value.memory.st;
    if why == HostRecords && now.power == OnBattery {
      SnapshotTracks(hosts, now.hosts, st.hosts);
    } else if why == HostRecords || why == GaveUp {
      forall h | h in hosts ensures Tracked(h, st.hosts) {
        assert Tracked(h, now.hosts);
      }
    }
  }

  /** A snapshot, fresh or on top of what is known, gives every host a record recovery can finish. */
  lemma SnapshotTracks(hosts: seq<HostConfig>, before: HostStates, after: HostStates)
    requires Snapshotted(hosts, before, after)
    requires forall h :: h in hosts && Record(before, h.id).wasOnline.Some? ==> Tracked(h, before)
    ensures AllTracked(hosts, after)
  {
    forall h | h in hosts ensures Tracked(h, after) {
      assert Snapped(h, before, after);
    }
  }

  /** Recovery never stalls while every process runs with the same hosts. */
  lemma RecoveryNeverStalls(h: History, hosts: seq<HostConfig>)
    requires Legal(h) && RunsOnly(h, hosts) && Replay(h).process.Some?
    ensures !Stalled(hosts, Replay(h).process.value.memory.st.hosts)
  {
    RecordsStayTracked(h, hosts);
    TrackedNeverStalls(hosts, Replay(h).process.value.memory.st.hosts);
  }
}
