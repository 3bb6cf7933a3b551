/** The `servers` and `provider_connections` tables: the hide-then-upsert transaction of a
    complete synchronization, and UpdateRemote. */
module Inventory {
  import opened Wrappers

  /** The columns of a server except hidden_at; times are the text `timeValue` stores. */
  datatype Server = Server(
    id: string, connectionId: string, externalId: string, scope: string, name: string, state: string,
    remoteState: string, spec: string, addresses: string, capabilities: string, portalUrl: Option<string>,
    lastSeenAt: string, lastStateCheckedAt: string, createdAt: string, updatedAt: string)

  datatype Row = Row(server: Server, hiddenAt: Option<string>)

  /** UNIQUE (connection_id, scope, external_id). */
  datatype Key = Key(connectionId: string, scope: string, externalId: string)

  function KeyOf(server: Server): Key {
    Key(server.connectionId, server.scope, server.externalId)
  }

  type Table = map<string, Row>

  /** The columns of a connection this code reads or writes. */
  datatype Connection = Connection(
    enabled: bool, providerType: string, lastSyncedAt: Option<string>, health: string, errorCode: string,
    errorMessage: string, lastTestedAt: Option<string>, updatedAt: string, deletedAt: Option<string>)

  type Connections = map<string, Connection>

  datatype Snapshot = Snapshot(connectionId: string, completedAt: string, servers: seq<Server>)

  datatype Error = InvalidServer | UpsertFailed | ConnectionNotFound | NotFound

  ghost predicate Unique(table: Table) {
    && (forall id :: id in table ==> table[id].server.id == id)
    && (forall i, j :: i in table && j in table && KeyOf(table[i].server) == KeyOf(table[j].server) ==> i == j)
  }

  // ----- the transaction, statement by statement

  function Hidden(row: Row, connectionId: string, at: string): Row {
    if row.server.connectionId == connectionId && row.hiddenAt.None?
    then Row(row.server.(updatedAt := at), Some(at)) else row
  }

  function HideStale(table: Table, connectionId: string, at: string): Table {
    map id | id in table :: Hidden(table[id], connectionId, at)
  }

  /** DO UPDATE SET: every column but the id, the key and created_at. */
  function Updated(stored: Server, server: Server): Row {
    Row(server.(id := stored.id, connectionId := stored.connectionId, externalId := stored.externalId,
                scope := stored.scope, createdAt := stored.createdAt), None)
  }

  ghost function FindByKey(table: Table, key: Key): (found: Option<string>)
    ensures found.None? ==> forall id :: id in table ==> KeyOf(table[id].server) != key
    ensures found.Some? ==> found.value in table && KeyOf(table[found.value].server) == key
  {
    if exists id :: id in table && KeyOf(table[id].server) == key then
      var id :| id in table && KeyOf(table[id].server) == key;
      Some(id)
    else None
  }

  predicate WellFormed(server: Server, connectionId: string) {
    server.connectionId == connectionId && server.id != "" && server.externalId != ""
  }

  /** One INSERT ... ON CONFLICT (key) DO UPDATE; a taken id fails, since only the key's
      conflict is handled. */
  ghost function Upsert(table: Table, connections: Connections, server: Server): Result<Table, Error> {
    if server.id in table then Err(UpsertFailed)
    else match FindByKey(table, KeyOf(server))
      case Some(id) => Ok(table[id := Updated(table[id].server, server)])
      case None => if server.connectionId in connections then Ok(table[server.id := Row(server, None)]) else Err(UpsertFailed)
  }

  ghost function UpsertAll(table: Table, connections: Connections, connectionId: string, servers: seq<Server>):
    Result<Table, Error>
  {
    if servers == [] then Ok(table)
    else
      var before := UpsertAll(table, connections, connectionId, servers[..|servers| - 1]);
      var server := servers[|servers| - 1];
      if before.Err? then before
      else if !WellFormed(server, connectionId) then Err(InvalidServer)
      else Upsert(before.value, connections, server)
  }

  predicate Live(connections: Connections, id: string) {
    id in connections && connections[id].deletedAt.None?
  }

  function Healthy(connection: Connection, at: string): Connection {
    connection.(lastSyncedAt := Some(at), health := "healthy", errorCode := "", errorMessage := "", updatedAt := at)
  }

  /** The whole transaction: both new tables, or an error. */
  ghost function Synced(table: Table, connections: Connections, snapshot: Snapshot): Result<(Table, Connections), Error> {
    var hidden := HideStale(table, snapshot.connectionId, snapshot.completedAt);
    var upserted := UpsertAll(hidden, connections, snapshot.connectionId, snapshot.servers);
    if upserted.Err? then Err(upserted.error)
    else if !Live(connections, snapshot.connectionId) then Err(ConnectionNotFound)
    else Ok((upserted.value,
             connections[snapshot.connectionId := Healthy(connections[snapshot.connectionId], snapshot.completedAt)]))
  }

  /** What a provider reports of one server; `state` need not be one of the known words. */
  datatype Remote = Remote(
    externalId: string, scope: string, name: string, state: string, remoteState: string, spec: string,
    addresses: string, capabilities: string, hasPortal: bool)

  predicate ValidState(state: string) {
    state in ["pending", "running", "stopping", "stopped", "rebooting", "suspended", "error", "unknown"]
  }

  function NormalState(state: string): (r: string)
    ensures ValidState(r) && (ValidState(state) ==> r == state) && (!ValidState(state) ==> r == "unknown")
  {
    if ValidState(state) then state else "unknown"
  }

  /** The eight states the program knows; every other text becomes unknown. */
  lemma KnownStates(state: string)
    ensures NormalState(state) == state <==>
      || state == "pending" || state == "running" || state == "stopping" || state == "stopped"
      || state == "rebooting" || state == "suspended" || state == "error" || state == "unknown"
    ensures NormalState(state) == state || NormalState(state) == "unknown"
  {
  }

  function Refreshed(server: Server, remote: Remote, at: string): Server {
    server.(name := remote.name, state := NormalState(remote.state), remoteState := remote.remoteState,
            spec := remote.spec, addresses := remote.addresses, capabilities := remote.capabilities,
            lastSeenAt := at, lastStateCheckedAt := at, updatedAt := at)
  }

  predicate Visible(table: Table, id: string) {
    id in table && table[id].hiddenAt.None?
  }

  /** UPDATE ... WHERE id = ? AND hidden_at IS NULL. */
  function RemoteUpdated(table: Table, id: string, remote: Remote, at: string): Result<Table, Error> {
    if Visible(table, id) then Ok(table[id := table[id].(server := Refreshed(table[id].server, remote, at))]) else Err(NotFound)
  }

  // ----- the repository

  class Repository {
    var servers: Table
    var connections: Connections

    ghost predicate Valid()
      reads this
    {
      Unique(servers)
    }

    constructor ()
      ensures Valid() && servers == map[] && connections == map[]
    {
      servers, connections := map[], map[];
    }

    /** The conflict target of the upsert. */
    method LookUp(table: Table, key: Key) returns (found: Option<string>)
      requires Unique(table)
      ensures found == FindByKey(table, key)
    {
      var ids := table.Keys;
      while ids != {}
        invariant ids <= table.Keys
        invariant forall id :: id in table && id !in ids ==> KeyOf(table[id].server) != key
        decreases ids
      {
        var id :| id in ids;
        if KeyOf(table[id].server) == key {
          return Some(id);
        }
        ids := ids - {id};
      }
      return None;
    }

    method Hide(table: Table, connectionId: string, at: string) returns (hidden: Table)
      ensures hidden == HideStale(table, connectionId, at)
    {
      hidden := table;
      var ids := table.Keys;
      while ids != {}
        invariant ids <= table.Keys && hidden.Keys == table.Keys
        invariant forall id :: id in ids ==> hidden[id] == table[id]
        invariant forall id :: id in table && id !in ids ==> hidden[id] == Hidden(table[id], connectionId, at)
        decreases ids
      {
        var id :| id in ids;
        if hidden[id].server.connectionId == connectionId && hidden[id].hiddenAt.None? {
          hidden := hidden[id := Row(hidden[id].server.(updatedAt := at), Some(at))];
        }
        ids := ids - {id};
      }
    }

    method UpsertOne(table: Table, server: Server) returns (r: Result<Table, Error>)
      requires Unique(table)
      ensures r == Upsert(table, connections, server)
      ensures r.Ok? ==> Unique(r.value)
    {
      var existing := LookUp(table, KeyOf(server));
      UpsertKeepsUnique(table, connections, server);
      if server.id in table || (existing.None? && server.connectionId !in connections) {
        return Err(UpsertFailed);
      }
      if existing.Some? {
        var id := existing.value;
        return Ok(table[id := Row(server.(id := id, createdAt := table[id].server.createdAt), None)]);
      }
      return Ok(table[server.id := Row(server, None)]);
    }

    /** The loop over the snapshot, on the transaction's copy. */
    method WriteAll(table: Table, connectionId: string, servers: seq<Server>) returns (r: Result<Table, Error>)
      requires Unique(table)
      ensures r == UpsertAll(table, connections, connectionId, servers)
      ensures r.Ok? ==> Unique(r.value)
    {
      hide Unique, Upsert;
      var written := table;
      for i := 0 to |servers|
        invariant Unique(written)
        invariant UpsertAll(table, connections, connectionId, servers[..i]) == Ok(written)
      {
        var server := servers[i];
        assert servers[..i + 1][..i] == servers[..i];
        if server.connectionId != connectionId || server.id == "" || server.externalId == "" {
          UpsertStops(table, connections, connectionId, servers, i + 1);
          return Err(InvalidServer);
        }
        var upserted := UpsertOne(written, server);
        if upserted.Err? {
          UpsertStops(table, connections, connectionId, servers, i + 1);
          return Err(upserted.error);
        }
        written := upserted.value;
      }
      assert servers[..|servers|] == servers;
      return Ok(written);
    }

    method ApplyCompleteSync(snapshot: Snapshot) returns (r: Result<(), Error>)
      requires Valid()
      modifies this
      ensures Valid()
      ensures r.Ok? ==> Synced(old(servers), old(connections), snapshot) == Ok((servers, connections))
      ensures r.Err? ==> Synced(old(servers), old(connections), snapshot) == Err(r.error)
      ensures r.Err? ==> servers == old(servers) && connections == old(connections)
      ensures r.Ok? ==>
        var id, at := snapshot.connectionId, snapshot.completedAt;
        && id in old(connections) && old(connections)[id].deletedAt.None?
        && connections == old(connections)[id := old(connections)[id].(
             lastSyncedAt := Some(at), health := "healthy", errorCode := "", errorMessage := "", updatedAt := at)]
    {
      var at := snapshot.completedAt;
      var hidden := Hide(servers, snapshot.connectionId, at);
      HideKeepsUnique(servers, snapshot.connectionId, at);
      hide Unique, HideStale, UpsertAll;
      var written := WriteAll(hidden, snapshot.connectionId, snapshot.servers);
      if written.Err? {
        return Err(written.error);
      }
      if snapshot.connectionId !in connections || connections[snapshot.connectionId].deletedAt.Some? {
        return Err(ConnectionNotFound);
      }
      servers := written.value;
      var connection := connections[snapshot.connectionId];
      connection := connection.(lastSyncedAt := Some(at), health := "healthy", errorCode := "", errorMessage := "", updatedAt := at);
      connections := connections[snapshot.connectionId := connection];
      return Ok(());
    }

    method UpdateRemote(id: string, remote: Remote, at: string) returns (r: Result<(), Error>)
      requires Valid()
      modifies this`servers
      ensures Valid()
      ensures r == if id in old(servers) && old(servers)[id].hiddenAt.None? then Ok(()) else Err(NotFound)
      ensures r.Err? ==> servers == old(servers)
      ensures r.Ok? ==>
        && RemoteUpdated(old(servers), id, remote, at) == Ok(servers) && servers.Keys == old(servers).Keys
        && (forall other :: other in servers && other != id ==> servers[other] == old(servers)[other])
        && var was, now := old(servers)[id].server, servers[id].server;
        && servers[id].hiddenAt.None?
        && now.id == was.id && now.connectionId == was.connectionId && now.externalId == was.externalId
        && now.scope == was.scope && now.portalUrl == was.portalUrl && now.createdAt == was.createdAt
        && now.name == remote.name && now.state == NormalState(remote.state) && now.remoteState == remote.remoteState
        && now.spec == remote.spec && now.addresses == remote.addresses && now.capabilities == remote.capabilities
        && now.lastSeenAt == now.lastStateCheckedAt == now.updatedAt == at
    {
      if id !in servers || servers[id].hiddenAt.Some? {
        return Err(NotFound);
      }
      var server := servers[id].server;
      var state := remote.state;
      if !ValidState(state) {
        state := "unknown";
      }
      server := server.(name := remote.name, state := state, remoteState := remote.remoteState, spec := remote.spec,
                        addresses := remote.addresses, capabilities := remote.capabilities);
      server := server.(lastSeenAt := at, lastStateCheckedAt := at, updatedAt := at);
      servers := servers[id := Row(server, None)];
      return Ok(());
    }
  }

  // ----- the table keeps its constraints

  lemma HideKeepsUnique(table: Table, connectionId: string, at: string)
    requires Unique(table)
    ensures Unique(HideStale(table, connectionId, at))
  {
  }

  lemma UpsertKeepsUnique(table: Table, connections: Connections, server: Server)
    requires Unique(table)
    ensures var r := Upsert(table, connections, server); r.Ok? ==> Unique(r.value)
  {
  }

  /** An error ends the loop with that error. */
  lemma {:induction false} UpsertStops(table: Table, connections: Connections, connectionId: string, servers: seq<Server>, n: nat)
    requires n <= |servers| && UpsertAll(table, connections, connectionId, servers[..n]).Err?
    ensures UpsertAll(table, connections, connectionId, servers) == UpsertAll(table, connections, connectionId, servers[..n])
    decreases |servers|
  {
    if n < |servers| {
      assert servers[..|servers| - 1][..n] == servers[..n];
      UpsertStops(table, connections, connectionId, servers[..|servers| - 1], n);
    } else {
      assert servers[..n] == servers;
    }
  }
}
