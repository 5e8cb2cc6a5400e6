/** Managed hosts: their configuration and their durable per-host record. */
module Hosts {
  import opened Basics
  import opened Graph

  datatype HostConfig = HostConfig(
    id: string,
    hasAddress: bool,
    statusMethod: string,
    shutdownMethod: string,
    shutdownPriority: int,
    wakeEnabled: bool,
    wakePriority: int,
    wakeMaxAttempts: int,
    wakeDelaySeconds: int,
    restorePolicy: string,
    dependsOn: seq<string>)

  /** `ShutdownUnset` and `RecoveryUnset` are the empty strings of a record that was never written. */
  datatype ShutdownState =
    | ShutdownUnset | NotRequired | Planned | Requested | Acknowledged | Completed | Unverified | Failed

  datatype RecoveryState =
    | RecoveryUnset | RecoveryNotRequired | Waiting | WolSent | Online | RecoveryUnknown | RecoveryFailed

  datatype HostState = HostState(
    wasOnline: Option<bool>,
    shutdownState: ShutdownState,
    recoveryState: RecoveryState,
    shutdownAttempts: nat,
    wakeAttempts: nat)

  type HostStates = map<string, HostState>

  const BLANK := HostState(None, ShutdownUnset, RecoveryUnset, 0, 0)

  /** Reading a missing key yields the blank record. */
  function Record(states: HostStates, id: string): HostState {
    if id in states then states[id] else BLANK
  }

  /** Whether the host's power state can be observed at all. */
  predicate Verifiable(h: HostConfig) {
    h.hasAddress && h.statusMethod != "none"
  }

  predicate UniqueIds(hosts: seq<HostConfig>) {
    forall i, j :: 0 <= i < j < |hosts| ==> hosts[i].id != hosts[j].id
  }

  /** The dependency graph of a host list; a repeated identifier overrides the earlier entry. */
  function GraphOf(hosts: seq<HostConfig>): DependencyGraph {
    if hosts == [] then map[]
    else GraphOf(hosts[..|hosts| - 1])[hosts[|hosts| - 1].id := hosts[|hosts| - 1].dependsOn]
  }

  lemma {:induction false} GraphOfUnique(hosts: seq<HostConfig>)
    requires UniqueIds(hosts)
    ensures forall id :: id in GraphOf(hosts) <==> exists i :: 0 <= i < |hosts| && hosts[i].id == id
    ensures forall i :: 0 <= i < |hosts| ==> hosts[i].id in GraphOf(hosts) && GraphOf(hosts)[hosts[i].id] == hosts[i].dependsOn
  {
    if hosts != [] {
      var init := hosts[..|hosts| - 1];
      GraphOfUnique(init);
      forall i | 0 <= i < |hosts|
        ensures hosts[i].id in GraphOf(hosts) && GraphOf(hosts)[hosts[i].id] == hosts[i].dependsOn
      {
        if i < |init| {
          assert init[i] == hosts[i];
          assert hosts[i].id != hosts[|hosts| - 1].id;
        }
      }
      forall id | id in GraphOf(hosts) ensures exists i :: 0 <= i < |hosts| && hosts[i].id == id {
        if id in GraphOf(init) {
          var i :| 0 <= i < |init| && init[i].id == id;
          assert hosts[i].id == id;
        }
      }
    }
  }

  /** Looks a host up by identifier; a repeated identifier means the later entry. */
  function Find(hosts: seq<HostConfig>, id: string): Option<HostConfig> {
    if hosts == [] then None
    else if hosts[|hosts| - 1].id == id then Some(hosts[|hosts| - 1])
    else Find(hosts[..|hosts| - 1], id)
  }

  lemma {:induction false} FindFinds(hosts: seq<HostConfig>, id: string)
    ensures Find(hosts, id).Some? ==> Find(hosts, id).value in hosts && Find(hosts, id).value.id == id
    ensures Find(hosts, id).None? ==> forall h :: h in hosts ==> h.id != id
    ensures UniqueIds(hosts) ==> forall h :: h in hosts && h.id == id ==> Find(hosts, id) == Some(h)
  {
    if hosts != [] {
      FindFinds(hosts[..|hosts| - 1], id);
    }
  }

  predicate EligibleForRestore(h: HostConfig, st: HostState) {
    h.wakeEnabled
    && (h.restorePolicy == "always"
        || ((h.restorePolicy == "previous-state" || h.restorePolicy == "") && st.wasOnline == Some(true)))
  }
}
