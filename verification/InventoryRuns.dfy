/** The sync transaction refines a merge by key, and over any sequence of syncs and remote
    updates no row disappears and no key changes its id or created_at. */
module InventoryRuns {
  import opened Wrappers
  import opened Inventory

  /** The table read by key instead of by id. */
  ghost function Look(table: Table, k: Key): Option<Row> {
    var found := FindByKey(table, k);
    if found.Some? then Some(table[found.value]) else None
  }

  lemma LookAt(table: Table, id: string)
    requires Unique(table) && id in table
    ensures Look(table, KeyOf(table[id].server)) == Some(table[id])
  {
  }

  /** Every row of a table is found under its key, and nothing else is. */
  lemma LookIsTheRows(table: Table, k: Key, row: Row)
    requires Unique(table)
    ensures Look(table, k) == Some(row) <==>
      && row.server.id in table && table[row.server.id] == row
      && row.server.connectionId == k.connectionId && row.server.scope == k.scope && row.server.externalId == k.externalId
  {
    if row.server.id in table {
      LookAt(table, row.server.id);
    }
  }

  // ----- the merge

  ghost predicate Named(servers: seq<Server>, k: Key) {
    exists i :: 0 <= i < |servers| && KeyOf(servers[i]) == k
  }

  ghost function LastOf(servers: seq<Server>, k: Key): (i: nat)
    requires Named(servers, k)
    ensures i < |servers| && KeyOf(servers[i]) == k && forall j :: i < j < |servers| ==> KeyOf(servers[j]) != k
  {
    var n := |servers| - 1;
    if KeyOf(servers[n]) == k then n
    else
      assert Named(servers[..n], k) by {
        var i :| 0 <= i < |servers| && KeyOf(servers[i]) == k;
        assert servers[..n][i] == servers[i];
      }
      LastOf(servers[..n], k)
  }

  ghost function FirstOf(servers: seq<Server>, k: Key): (i: nat)
    requires Named(servers, k)
    ensures i < |servers| && KeyOf(servers[i]) == k && forall j :: 0 <= j < i ==> KeyOf(servers[j]) != k
  {
    if KeyOf(servers[0]) == k then 0
    else
      assert Named(servers[1..], k) by {
        var i :| 0 <= i < |servers| && KeyOf(servers[i]) == k;
        assert servers[1..][i - 1] == servers[i];
      }
      1 + FirstOf(servers[1..], k)
  }

  /** The row of a key that the entries of a snapshot name: the last entry's data, visible,
      under the id and creation time the key already had or first got. */
  ghost function Written(found: Option<Row>, servers: seq<Server>, k: Key): Row
    requires Named(servers, k)
  {
    var latest := servers[LastOf(servers, k)];
    var first := if found.Some? then found.value.server else servers[FirstOf(servers, k)];
    Row(latest.(id := first.id, createdAt := first.createdAt), None)
  }

  ghost function Overwritten(found: Option<Row>, servers: seq<Server>, k: Key): Option<Row> {
    if Named(servers, k) then Some(Written(found, servers, k)) else found
  }

  function HiddenFound(found: Option<Row>, connectionId: string, at: string): Option<Row> {
    if found.Some? then Some(Hidden(found.value, connectionId, at)) else None
  }

  /** The merge: named keys are written; the connection's other keys are hidden; everything
      else is as it was. */
  ghost function Merged(found: Option<Row>, snapshot: Snapshot, k: Key): Option<Row> {
    if Named(snapshot.servers, k) then Some(Written(found, snapshot.servers, k))
    else HiddenFound(found, snapshot.connectionId, snapshot.completedAt)
  }

  // ----- each statement, by key

  lemma HideByKey(table: Table, connectionId: string, at: string, k: Key)
    requires Unique(table)
    ensures Look(HideStale(table, connectionId, at), k) == HiddenFound(Look(table, k), connectionId, at)
  {
    var hidden := HideStale(table, connectionId, at);
    HideKeepsUnique(table, connectionId, at);
    var found := FindByKey(table, k);
    if found.Some? {
      LookAt(hidden, found.value);
    } else {
      var again := FindByKey(hidden, k);
      assert again.Some? ==> KeyOf(table[again.value].server) == k;
    }
  }

  lemma UpsertByKey(table: Table, connections: Connections, server: Server, k: Key)
    requires Unique(table) && Upsert(table, connections, server).Ok?
    ensures
      var after := Upsert(table, connections, server).value;
      var found := Look(table, k);
      && Unique(after)
      && Look(after, k) == (if k != KeyOf(server) then found
                            else Some(if found.Some? then Updated(found.value.server, server) else Row(server, None)))
  {
    var after := Upsert(table, connections, server).value;
    UpsertKeepsUnique(table, connections, server);
    var target := FindByKey(table, KeyOf(server));
    LookAt(after, if target.Some? then target.value else server.id);
    if k != KeyOf(server) {
      OthersKeepTheirRow(table, connections, server, k);
    }
  }

  lemma OthersKeepTheirRow(table: Table, connections: Connections, server: Server, k: Key)
    requires Unique(table) && Upsert(table, connections, server).Ok? && k != KeyOf(server)
    requires Unique(Upsert(table, connections, server).value)
    ensures Look(Upsert(table, connections, server).value, k) == Look(table, k)
  {
    var after := Upsert(table, connections, server).value;
    var before := FindByKey(table, k);
    var again := FindByKey(after, k);
    if before.Some? {
      assert after[before.value] == table[before.value];
      LookAt(after, before.value);
    }
  }

  // ----- the loop

  lemma NamedOneMore(servers: seq<Server>, server: Server, k: Key)
    ensures Named(servers + [server], k) <==> Named(servers, k) || KeyOf(server) == k
  {
    var more := servers + [server];
    assert more[|servers|] == server;
    assert forall i :: 0 <= i < |servers| ==> more[i] == servers[i];
  }

  lemma LastOneMore(servers: seq<Server>, server: Server, k: Key)
    requires Named(servers + [server], k)
    ensures KeyOf(server) == k ==> LastOf(servers + [server], k) == |servers|
    ensures Named(servers, k) && KeyOf(server) != k ==> LastOf(servers + [server], k) == LastOf(servers, k)
  {
    var more := servers + [server];
    assert more[|servers|] == server;
    assert forall i :: 0 <= i < |servers| ==> more[i] == servers[i];
    hide LastOf;
  }

  lemma FirstOneMore(servers: seq<Server>, server: Server, k: Key)
    requires Named(servers + [server], k)
    ensures !Named(servers, k) ==> FirstOf(servers + [server], k) == |servers|
    ensures Named(servers, k) ==> FirstOf(servers + [server], k) == FirstOf(servers, k)
  {
    var more := servers + [server];
    assert more[|servers|] == server;
    assert forall i :: 0 <= i < |servers| ==> more[i] == servers[i];
    hide FirstOf;
  }

  /** One more entry over the entries before it. */
  lemma OverwriteOne(found: Option<Row>, servers: seq<Server>, server: Server, k: Key)
    requires found.Some? ==> KeyOf(found.value.server) == k
    ensures
      var before := Overwritten(found, servers, k);
      Overwritten(found, servers + [server], k)
      == (if k != KeyOf(server) then before
          else Some(if before.Some? then Updated(before.value.server, server) else Row(server, None)))
  {
    NamedOneMore(servers, server, k);
    if Named(servers + [server], k) {
      LastOneMore(servers, server, k);
      FirstOneMore(servers, server, k);
    }
    hide Named, LastOf, FirstOf;
  }

  lemma {:induction false} UpsertAllByKey(table: Table, connections: Connections, connectionId: string, servers: seq<Server>, k: Key)
    requires Unique(table) && UpsertAll(table, connections, connectionId, servers).Ok?
    ensures
      var after := UpsertAll(table, connections, connectionId, servers).value;
      Unique(after) && Look(after, k) == Overwritten(Look(table, k), servers, k)
  {
    if servers != [] {
      var n := |servers| - 1;
      UpsertAllByKey(table, connections, connectionId, servers[..n], k);
      UpsertByKey(UpsertAll(table, connections, connectionId, servers[..n]).value, connections, servers[n], k);
      assert servers[..n] + [servers[n]] == servers;
      LookIsKeyed(table, k);
      OverwriteOne(Look(table, k), servers[..n], servers[n], k);
      hide Upsert, Look, Unique, Overwritten;
    }
  }

  lemma LookIsKeyed(table: Table, k: Key)
    ensures Look(table, k).Some? ==> KeyOf(Look(table, k).value.server) == k
  {
  }

  // ----- main results

  /** A successful sync is the merge, key by key. */
  lemma SyncIsMerge(table: Table, connections: Connections, snapshot: Snapshot, k: Key)
    requires Unique(table) && Synced(table, connections, snapshot).Ok?
    ensures
      var after := Synced(table, connections, snapshot).value.0;
      Unique(after) && Look(after, k) == Merged(Look(table, k), snapshot, k)
  {
    var hidden := HideStale(table, snapshot.connectionId, snapshot.completedAt);
    HideKeepsUnique(table, snapshot.connectionId, snapshot.completedAt);
    HideByKey(table, snapshot.connectionId, snapshot.completedAt, k);
    UpsertAllByKey(hidden, connections, snapshot.connectionId, snapshot.servers, k);
    hide Unique, Look, UpsertAll, HideStale, Named, LastOf, FirstOf;
  }

  /** What the connection's users see afterwards are exactly the snapshot's keys, and no
      other connection's rows change. */
  lemma VisibleAfterSync(table: Table, connections: Connections, snapshot: Snapshot, k: Key)
    requires Unique(table) && Synced(table, connections, snapshot).Ok?
    ensures
      var found := Look(Synced(table, connections, snapshot).value.0, k);
      && (k.connectionId == snapshot.connectionId ==>
            (found.Some? && found.value.hiddenAt.None? <==> Named(snapshot.servers, k)))
      && (k.connectionId != snapshot.connectionId ==> found == Look(table, k))
  {
    SyncIsMerge(table, connections, snapshot, k);
    LookIsKeyed(table, k);
    if Named(snapshot.servers, k) {
      AllWellFormed(HideStale(table, snapshot.connectionId, snapshot.completedAt), connections, snapshot.connectionId,
                    snapshot.servers);
    }
    hide Synced, Unique, Look;
  }

  lemma {:induction false} AllWellFormed(table: Table, connections: Connections, connectionId: string, servers: seq<Server>)
    requires UpsertAll(table, connections, connectionId, servers).Ok?
    ensures forall i :: 0 <= i < |servers| ==> WellFormed(servers[i], connectionId)
  {
    if servers != [] {
      var n := |servers| - 1;
      AllWellFormed(table, connections, connectionId, servers[..n]);
      assert forall i :: 0 <= i < n ==> servers[..n][i] == servers[i];
      hide Upsert;
    }
  }

  // ----- when a sync is applied

  /** Entry `i` inserts a row: its key is neither in the table nor among the entries before it. */
  ghost predicate Inserts(table: Table, servers: seq<Server>, i: nat)
    requires i < |servers|
  {
    Look(table, KeyOf(servers[i])).None? && !Named(servers[..i], KeyOf(servers[i]))
  }

  /** The id of entry `i` is not taken by a row of the table or by one an earlier entry inserted. */
  ghost predicate IdFree(table: Table, servers: seq<Server>, i: nat)
    requires i < |servers|
  {
    servers[i].id !in table && forall j: nat :: j < i && servers[j].id == servers[i].id ==> !Inserts(table, servers, j)
  }

  ghost predicate Acceptable(table: Table, connectionId: string, servers: seq<Server>) {
    forall i: nat :: i < |servers| ==> WellFormed(servers[i], connectionId) && IdFree(table, servers, i)
  }

  lemma AcceptableOneMore(table: Table, connectionId: string, servers: seq<Server>, server: Server)
    ensures Acceptable(table, connectionId, servers + [server]) <==>
      && Acceptable(table, connectionId, servers)
      && WellFormed(server, connectionId) && IdFree(table, servers + [server], |servers|)
  {
    var more := servers + [server];
    assert more[|servers|] == server;
    forall i: nat | i < |servers|
      ensures more[i] == servers[i] && (Inserts(table, more, i) <==> Inserts(table, servers, i))
    {
      assert more[..i] == servers[..i];
    }
    hide Look, Named, Inserts;
  }

  /** The ids of the table after the entries: those before, and those of the inserting entries. */
  ghost predicate IdsAfter(table: Table, servers: seq<Server>, after: Table) {
    forall id :: id in after <==> id in table || exists j: nat :: j < |servers| && servers[j].id == id && Inserts(table, servers, j)
  }

  lemma IdsOneMore(table: Table, servers: seq<Server>, server: Server, before: Table, after: Table)
    requires IdsAfter(table, servers, before)
    requires after.Keys == before.Keys + if Inserts(table, servers + [server], |servers|) then {server.id} else {}
    ensures IdsAfter(table, servers + [server], after)
  {
    var more := servers + [server];
    assert more[|servers|] == server;
    forall i: nat | i < |servers|
      ensures more[i] == servers[i] && (Inserts(table, more, i) <==> Inserts(table, servers, i))
    {
      assert more[..i] == servers[..i];
    }
    hide Look, Named, Inserts;
  }

  lemma {:induction false} UpsertAllSucceeds(table: Table, connections: Connections, connectionId: string, servers: seq<Server>)
    requires Unique(table) && connectionId in connections
    ensures
      var r := UpsertAll(table, connections, connectionId, servers);
      && (r.Ok? <==> Acceptable(table, connectionId, servers))
      && (r.Ok? ==> IdsAfter(table, servers, r.value))
  {
    if servers != [] {
      var n := |servers| - 1;
      UpsertAllSucceeds(table, connections, connectionId, servers[..n]);
      assert servers[..n] + [servers[n]] == servers;
      AcceptableOneMore(table, connectionId, servers[..n], servers[n]);
      var r := UpsertAll(table, connections, connectionId, servers[..n]);
      if r.Ok? {
        UpsertAllByKey(table, connections, connectionId, servers[..n], KeyOf(servers[n]));
        OneSucceeds(table, r.value, connections, connectionId, servers[..n], servers[n]);
      }
      hide Upsert, Look, Unique, Overwritten, Acceptable, IdsAfter, IdFree;
    }
  }

  lemma OneSucceeds(table: Table, before: Table, connections: Connections, connectionId: string, servers: seq<Server>, server: Server)
    requires IdsAfter(table, servers, before) && connectionId in connections
    requires Look(before, KeyOf(server)) == Overwritten(Look(table, KeyOf(server)), servers, KeyOf(server))
    ensures
      var r := Upsert(before, connections, server);
      && (WellFormed(server, connectionId) ==> (r.Ok? <==> IdFree(table, servers + [server], |servers|)))
      && (r.Ok? ==> IdsAfter(table, servers + [server], r.value))
  {
    var r := Upsert(before, connections, server);
    var more := servers + [server];
    assert more[|servers|] == server && more[..|servers|] == servers;
    forall i: nat | i < |servers|
      ensures more[i] == servers[i] && (Inserts(table, more, i) <==> Inserts(table, servers, i))
    {
      assert more[..i] == servers[..i];
    }
    assert Inserts(table, more, |servers|) <==> Look(before, KeyOf(server)).None?;
    if r.Ok? {
      IdsOneMore(table, servers, server, before, r.value);
    }
    hide Named, Overwritten, Inserts;
  }

  /** Exactly when a sync is applied; otherwise nothing changes. */
  lemma SyncSucceedsExactly(table: Table, connections: Connections, snapshot: Snapshot)
    requires Unique(table)
    ensures Synced(table, connections, snapshot).Ok? <==>
      Live(connections, snapshot.connectionId) && Acceptable(table, snapshot.connectionId, snapshot.servers)
  {
    var hidden := HideStale(table, snapshot.connectionId, snapshot.completedAt);
    HideKeepsUnique(table, snapshot.connectionId, snapshot.completedAt);
    if Live(connections, snapshot.connectionId) {
      UpsertAllSucceeds(hidden, connections, snapshot.connectionId, snapshot.servers);
      HidingAcceptsTheSame(table, snapshot.connectionId, snapshot.completedAt, snapshot.servers);
    }
    hide Unique, UpsertAll, Acceptable, IdsAfter;
  }

  lemma HidingAcceptsTheSame(table: Table, connectionId: string, at: string, servers: seq<Server>)
    requires Unique(table)
    ensures Acceptable(HideStale(table, connectionId, at), connectionId, servers) <==> Acceptable(table, connectionId, servers)
  {
    var hidden := HideStale(table, connectionId, at);
    assert hidden.Keys == table.Keys;
    forall i: nat | i < |servers|
      ensures Inserts(hidden, servers, i) <==> Inserts(table, servers, i)
    {
      HideByKey(table, connectionId, at, KeyOf(servers[i]));
    }
    hide Unique, Look, Named, Inserts, HideStale;
  }

  /** New, distinct ids are enough. */
  lemma DistinctIdsAreFree(table: Table, connectionId: string, servers: seq<Server>)
    requires forall i :: 0 <= i < |servers| ==> WellFormed(servers[i], connectionId) && servers[i].id !in table
    requires forall i, j :: 0 <= i < j < |servers| ==> servers[i].id != servers[j].id
    ensures Acceptable(table, connectionId, servers)
  {
    hide Inserts;
  }

  // ----- runs

  datatype Step =
    | Sync(snapshot: Snapshot)
    | Update(id: string, remote: Remote, at: string)
    | Connect(connections: Connections)

  datatype State = State(table: Table, connections: Connections)

  /** Connections may be changed in any way by other code; a failing step changes nothing. */
  ghost function Apply(s: State, step: Step): State {
    match step
    case Sync(snapshot) =>
      var r := Synced(s.table, s.connections, snapshot);
      if r.Ok? then State(r.value.0, r.value.1) else s
    case Update(id, remote, at) =>
      var r := RemoteUpdated(s.table, id, remote, at);
      if r.Ok? then s.(table := r.value) else s
    case Connect(connections) => s.(connections := connections)
  }

  ghost function After(s: State, steps: seq<Step>): State {
    if steps == [] then s else Apply(After(s, steps[..|steps| - 1]), steps[|steps| - 1])
  }

  /** The key is still there, under the same id and creation time. */
  ghost predicate SameIdentity(a: Option<Row>, b: Option<Row>) {
    a.Some? ==> b.Some? && b.value.server.id == a.value.server.id && b.value.server.createdAt == a.value.server.createdAt
  }

  lemma UpdateKeepsIdentity(table: Table, id: string, remote: Remote, at: string, k: Key)
    requires Unique(table) && Visible(table, id)
    ensures
      var after := RemoteUpdated(table, id, remote, at).value;
      Unique(after) && SameIdentity(Look(table, k), Look(after, k))
  {
    var after := RemoteUpdated(table, id, remote, at).value;
    assert forall other :: other in table ==> KeyOf(after[other].server) == KeyOf(table[other].server);
    var found := FindByKey(table, k);
    if found.Some? {
      LookAt(after, found.value);
    }
  }

  lemma StepKeepsIdentity(s: State, step: Step, k: Key)
    requires Unique(s.table)
    ensures Unique(Apply(s, step).table) && SameIdentity(Look(s.table, k), Look(Apply(s, step).table, k))
  {
    if step.Sync? && Synced(s.table, s.connections, step.snapshot).Ok? {
      SyncIsMerge(s.table, s.connections, step.snapshot, k);
    } else if step.Update? && Visible(s.table, step.id) {
      UpdateKeepsIdentity(s.table, step.id, step.remote, step.at, k);
    }
    hide Unique, Look, Synced, Named, LastOf, FirstOf;
  }

  /** Over any sequence of syncs and remote updates, whatever fails, no row disappears and
      every key keeps the id and created_at it was first given. */
  lemma {:induction false} IdentityIsStable(s: State, steps: seq<Step>, k: Key)
    requires Unique(s.table)
    ensures Unique(After(s, steps).table) && SameIdentity(Look(s.table, k), Look(After(s, steps).table, k))
  {
    if steps != [] {
      var before := After(s, steps[..|steps| - 1]);
      IdentityIsStable(s, steps[..|steps| - 1], k);
      StepKeepsIdentity(before, steps[|steps| - 1], k);
      hide Unique, Apply, Look;
    }
  }
}
