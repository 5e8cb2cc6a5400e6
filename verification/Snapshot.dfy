/** The host records an outage begins with. */
module Snapshots {
  import opened Basics
  import opened Hosts

  /** The record an outage snapshot gives a host whose power state before the outage reads as `wasOnline`. */
  function SnapshotRecord(h: HostConfig, hs: HostState, wasOnline: Option<bool>): HostState {
    hs.(wasOnline := wasOnline,
        shutdownState := if h.shutdownMethod == "none" then NotRequired else Planned,
        recoveryState := if !h.wakeEnabled || h.restorePolicy == "never" then RecoveryNotRequired else Waiting)
  }

  /** Records that already know the host's earlier power state are kept, all others are taken anew. */
  predicate Snapped(h: HostConfig, before: HostStates, after: HostStates) {
    h.id in after &&
    if Record(before, h.id).wasOnline.Some? then after[h.id] == before[h.id]
    else after[h.id] == SnapshotRecord(h, Record(before, h.id), after[h.id].wasOnline)
  }

  /** One pass over `hosts`; nobody else's record changes. */
  ghost predicate Snapshotted(hosts: seq<HostConfig>, before: HostStates, after: HostStates) {
    && (forall h :: h in hosts ==> Snapped(h, before, after))
    && before.Keys <= after.Keys
    && forall id :: id in after && (forall h :: h in hosts ==> h.id != id) ==> id in before && after[id] == before[id]
  }

  lemma SnapOneMore(hosts: seq<HostConfig>, i: nat, before: HostStates, states: HostStates, after: HostStates)
    requires UniqueIds(hosts) && i < |hosts| && Snapshotted(hosts[..i], before, states)
    requires Snapped(hosts[i], states, after) && after == states[hosts[i].id := Record(after, hosts[i].id)]
    ensures Snapshotted(hosts[..i + 1], before, after)
  {
    var h := hosts[i];
    assert forall x :: x in hosts[..i] ==> x.id != h.id;
    assert Record(states, h.id) == Record(before, h.id);
    assert hosts[..i + 1] == hosts[..i] + [h];
    forall x | x in hosts[..i + 1] ensures Snapped(x, before, after) {
      if x in hosts[..i] {
        assert Snapped(x, before, states);
      }
    }
    forall id | id in after && forall x :: x in hosts[..i + 1] ==> x.id != id
      ensures id in before && after[id] == before[id]
    {
      assert h in hosts[..i + 1];
      assert forall x :: x in hosts[..i] ==> x in hosts[..i + 1];
    }
  }

  predicate NoneCompleted(states: HostStates) {
    forall id :: id in states ==> states[id].shutdownState != Completed
  }
}
