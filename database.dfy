/**
 * The database the routers share. Keyed tables are maps from primary key to row; the tables
 * that are listed in storage order (permissions, audit logs, pending requests) are sequences in
 * insertion order, with their primary keys kept distinct.
 */
module Database {
  import opened Common
  import opened Models

  predicate UniquePermissionIds(ps: seq<Permission>) {
    forall i, j :: 0 <= i < j < |ps| ==> ps[i].id != ps[j].id
  }

  predicate PermissionIdUnused(ps: seq<Permission>, id: string) {
    forall i :: 0 <= i < |ps| ==> ps[i].id != id
  }

  predicate UniqueLogIds(logs: seq<Log>) {
    forall i, j :: 0 <= i < j < |logs| ==> logs[i].id != logs[j].id
  }

  predicate LogIdUnused(logs: seq<Log>, id: string) {
    forall i :: 0 <= i < |logs| ==> logs[i].id != id
  }

  predicate UniqueRequestIds(p: seq<PendingRequest>) {
    forall i, j :: 0 <= i < j < |p| ==> p[i].requestId != p[j].requestId
  }

  predicate RequestIdUnused(p: seq<PendingRequest>, id: string) {
    forall i :: 0 <= i < |p| ==> p[i].requestId != id
  }

  /** `session.get(PendingRequest, id)`: the position of the row with that primary key. */
  function FindPending(p: seq<PendingRequest>, id: string): (r: Option<nat>)
    ensures r.Some? ==> r.value < |p| && p[r.value].requestId == id
    ensures r.None? <==> RequestIdUnused(p, id)
    ensures r.Some? ==> RequestIdUnused(p[..r.value], id)
  {
    if p == [] then None
    else if p[0].requestId == id then Some(0)
    else match FindPending(p[1..], id)
      case None => None
      case Some(k) =>
        assert p[..k + 1] == [p[0]] + p[1..][..k];
        Some(k + 1)
  }

  /** With distinct keys, the row found is the only row with that key. */
  lemma {:induction false} FindPendingUnique(p: seq<PendingRequest>, id: string, i: nat)
    requires UniqueRequestIds(p) && i < |p| && p[i].requestId == id
    ensures FindPending(p, id) == Some(i)
  {
    if i > 0 {
      assert p[0].requestId != id;
      assert p[1..][i - 1] == p[i];
      FindPendingUnique(p[1..], id, i - 1);
    }
  }

  class Tables {
    var systemState: map<string, SystemState>
    var agents: map<string, Agent>
    var permissions: seq<Permission>
    var logs: seq<Log>
    var pending: seq<PendingRequest>
    var customers: map<string, Customer>
    var apiKeys: map<string, ApiKey>

    /** Every row is stored under its own primary key, and primary keys are distinct. */
    ghost predicate Valid()
      reads this
    {
      && (forall k :: k in systemState ==> systemState[k].key == k)
      && (forall k :: k in agents ==> agents[k].id == k)
      && (forall k :: k in customers ==> customers[k].id == k)
      && (forall k :: k in apiKeys ==> apiKeys[k].id == k)
      && UniquePermissionIds(permissions)
      && UniqueLogIds(logs)
      && UniqueRequestIds(pending)
    }

    /** A fresh database as `init_db` leaves it: only the kill-switch row, seeded "disabled". */
    constructor (now: int)
      ensures Valid()
      ensures systemState == map[SYSTEM_KILL_SWITCH_KEY := SystemState(SYSTEM_KILL_SWITCH_KEY, DISABLED, now)]
      ensures agents == map[] && permissions == [] && logs == [] && pending == []
      ensures customers == map[] && apiKeys == map[]
    {
      systemState := map[SYSTEM_KILL_SWITCH_KEY := SystemState(SYSTEM_KILL_SWITCH_KEY, DISABLED, now)];
      agents := map[];
      permissions := [];
      logs := [];
      pending := [];
      customers := map[];
      apiKeys := map[];
    }
  }
}
