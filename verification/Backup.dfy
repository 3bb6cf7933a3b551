/** The logical backup: the nine exported tables, the archive, its validation, and the
    transaction that replaces the tables under their foreign keys. */
module Backup {
  import opened Wrappers
  import opened BackupCells

  // ----- schema

  datatype Column = Column(kind: Kind, name: string)

  datatype Schema = Schema(name: string, columns: seq<Column>)

  /** The tables in insertion order. */
  const SCHEMA: seq<Schema> := [
    Schema("users", [
      Column(KInteger, "singleton_key"), Column(KText, "id"), Column(KText, "username"),
      Column(KText, "normalized_username"), Column(KText, "password_hash"), Column(KTime, "initialized_at"),
      Column(KTime, "created_at"), Column(KTime, "updated_at"), Column(KTime, "last_login_at")]),
    Schema("sessions", [
      Column(KBinary, "token_hash"), Column(KBinary, "csrf_hash"), Column(KText, "user_id"),
      Column(KTime, "expires_at"), Column(KTime, "absolute_expires_at"), Column(KTime, "last_seen_at"),
      Column(KTime, "created_at")]),
    Schema("provider_connections", [
      Column(KText, "id"), Column(KText, "name"), Column(KText, "provider_type"), Column(KText, "endpoint"),
      Column(KJSON, "settings_json"), Column(KBinary, "credentials_ciphertext"), Column(KBinary, "credentials_nonce"),
      Column(KInteger, "credentials_key_version"), Column(KBoolean, "enabled"), Column(KText, "health_status"),
      Column(KTime, "last_tested_at"), Column(KTime, "last_synced_at"), Column(KText, "last_error_code"),
      Column(KText, "last_error_message"), Column(KTime, "created_at"), Column(KTime, "updated_at"),
      Column(KTime, "deleted_at")]),
    Schema("servers", [
      Column(KText, "id"), Column(KText, "connection_id"), Column(KText, "external_id"), Column(KText, "scope"),
      Column(KText, "name"), Column(KText, "normalized_state"), Column(KText, "remote_state"),
      Column(KJSON, "spec_json"), Column(KJSON, "addresses_json"), Column(KJSON, "capabilities_json"),
      Column(KText, "portal_url"), Column(KTime, "last_seen_at"), Column(KTime, "last_state_checked_at"),
      Column(KTime, "hidden_at"), Column(KTime, "created_at"), Column(KTime, "updated_at")]),
    Schema("jobs", [
      Column(KText, "id"), Column(KText, "kind"), Column(KJSON, "payload_json"), Column(KText, "status"),
      Column(KInteger, "attempts"), Column(KInteger, "max_attempts"), Column(KTime, "available_at"),
      Column(KText, "lease_owner"), Column(KTime, "lease_expires_at"), Column(KText, "last_error"),
      Column(KTime, "created_at"), Column(KTime, "updated_at")]),
    Schema("operations", [
      Column(KText, "id"), Column(KText, "server_id"), Column(KText, "connection_id"), Column(KText, "action"),
      Column(KText, "status"), Column(KText, "idempotency_key"), Column(KText, "active_marker"),
      Column(KText, "provider_request_id"), Column(KText, "error_code"), Column(KText, "error_message"),
      Column(KTime, "queued_at"), Column(KTime, "started_at"), Column(KTime, "finished_at"),
      Column(KTime, "updated_at")]),
    Schema("audit_logs", [
      Column(KText, "id"), Column(KText, "event_type"), Column(KText, "target_type"), Column(KText, "target_id"),
      Column(KText, "request_id"), Column(KText, "source_ip"), Column(KJSON, "metadata_json"),
      Column(KTime, "created_at")]),
    Schema("console_sessions", [
      Column(KText, "id"), Column(KText, "server_id"), Column(KText, "mode"), Column(KBinary, "ticket_hash"),
      Column(KTime, "expires_at"), Column(KTime, "opened_at"), Column(KTime, "closed_at"), Column(KText, "result"),
      Column(KTime, "created_at")]),
    Schema("settings", [Column(KText, "setting_key"), Column(KJSON, "value_json"), Column(KTime, "updated_at")])]

  const TABLES: nat := 9

  function ColumnsOf(t: nat): seq<Column>
    requires t < TABLES
  {
    SCHEMA[t].columns
  }

  function NameOf(t: nat): string
    requires t < TABLES
  {
    SCHEMA[t].name
  }

  function ColumnNames(t: nat): seq<string>
    requires t < TABLES
  {
    seq(|ColumnsOf(t)|, i requires 0 <= i < |ColumnsOf(t)| => ColumnsOf(t)[i].name)
  }

  lemma NamesDiffer(t: nat, u: nat)
    requires t < u < TABLES
    ensures NameOf(t) != NameOf(u)
  {
  }

  // ----- the database

  type Row = seq<Value>

  type Rows = seq<Row>

  /** The nine tables by schema position, each in the order the engine scans it. */
  type DB = db: seq<Rows> | |db| == TABLES witness [[], [], [], [], [], [], [], [], []]

  const EMPTY: DB := [[], [], [], [], [], [], [], [], []]

  ghost predicate Shaped(db: DB) {
    hide SCHEMA;
    forall t, i :: 0 <= t < TABLES && 0 <= i < |db[t]| ==> |db[t][i]| == |ColumnsOf(t)|
  }

  /** `child[column]` refers to `parent[key]`. */
  datatype Reference = Reference(child: nat, column: nat, parent: nat, key: nat)

  /** The foreign keys of the schema: sessions.user_id, servers.connection_id,
      operations.server_id and connection_id, console_sessions.server_id. */
  const REFERENCES: seq<Reference> :=
    [Reference(1, 2, 0, 1), Reference(3, 1, 2, 0), Reference(5, 1, 3, 0), Reference(5, 2, 2, 0), Reference(7, 1, 3, 0)]

  /** The value is NULL or the key of some parent row. */
  predicate Resolved(value: Value, parents: Rows, key: nat) {
    value.Null? || exists p :: 0 <= p < |parents| && key < |parents[p]| && parents[p][key] == value
  }

  predicate RowResolved(db: DB, r: Reference, row: Row)
    requires r in REFERENCES
  {
    r.column < |row| ==> Resolved(row[r.column], db[r.parent], r.key)
  }

  predicate ChildrenResolved(db: DB, r: Reference)
    requires r in REFERENCES
  {
    forall i :: 0 <= i < |db[r.child]| ==> RowResolved(db, r, db[r.child][i])
  }

  predicate Closed(db: DB) {
    forall r :: r in REFERENCES ==> ChildrenResolved(db, r)
  }

  /** The references by name. */
  lemma ReferencesByName(r: Reference)
    requires r in REFERENCES
    ensures r.child < TABLES && r.parent < TABLES && r.column < |ColumnsOf(r.child)| && r.key < |ColumnsOf(r.parent)|
    ensures
      var from, to := (NameOf(r.child), ColumnsOf(r.child)[r.column].name), (NameOf(r.parent), ColumnsOf(r.parent)[r.key].name);
      || (from == ("sessions", "user_id") && to == ("users", "id"))
      || (from == ("servers", "connection_id") && to == ("provider_connections", "id"))
      || (from == ("operations", "server_id") && to == ("servers", "id"))
      || (from == ("operations", "connection_id") && to == ("provider_connections", "id"))
      || (from == ("console_sessions", "server_id") && to == ("servers", "id"))
  {
  }

  /** Every value in the column is NULL or stands in the parents' key column. */
  ghost predicate Refers(children: Rows, column: nat, parents: Rows, key: nat) {
    forall i :: 0 <= i < |children| && column < |children[i]| && !children[i][column].Null? ==>
      exists p :: 0 <= p < |parents| && key < |parents[p]| && parents[p][key] == children[i][column]
  }

  /** The five foreign keys, table by table: 0 users, 1 sessions, 2 provider_connections,
      3 servers, 5 operations, 7 console_sessions. */
  lemma ClosedMeans(db: DB)
    ensures Closed(db) <==>
      && Refers(db[1], 2, db[0], 1) && Refers(db[3], 1, db[2], 0) && Refers(db[5], 1, db[3], 0)
      && Refers(db[5], 2, db[2], 0) && Refers(db[7], 1, db[3], 0)
  {
    hide ChildrenResolved;
    ResolvedMeans(db, Reference(1, 2, 0, 1));
    ResolvedMeans(db, Reference(3, 1, 2, 0));
    ResolvedMeans(db, Reference(5, 1, 3, 0));
    ResolvedMeans(db, Reference(5, 2, 2, 0));
    ResolvedMeans(db, Reference(7, 1, 3, 0));
    hide Refers;
    assert REFERENCES[0] == Reference(1, 2, 0, 1) && REFERENCES[1] == Reference(3, 1, 2, 0)
        && REFERENCES[2] == Reference(5, 1, 3, 0) && REFERENCES[3] == Reference(5, 2, 2, 0)
        && REFERENCES[4] == Reference(7, 1, 3, 0);
  }

  lemma ResolvedMeans(db: DB, r: Reference)
    requires r in REFERENCES
    ensures r.child < TABLES && r.parent < TABLES
    ensures ChildrenResolved(db, r) <==> Refers(db[r.child], r.column, db[r.parent], r.key)
  {
    ReferencesGoBack(r);
    hide REFERENCES;
    if Refers(db[r.child], r.column, db[r.parent], r.key) {
      forall i | 0 <= i < |db[r.child]|
        ensures RowResolved(db, r, db[r.child][i])
      {
      }
    }
    if ChildrenResolved(db, r) {
      forall i | 0 <= i < |db[r.child]|
        ensures RowResolved(db, r, db[r.child][i])
      {
      }
    }
  }

  /** Parents come before children in insertion order. */
  lemma ReferencesGoBack(r: Reference)
    requires r in REFERENCES
    ensures r.parent < r.child < TABLES
  {
  }

  // ----- archive

  datatype TableData = TableData(columns: seq<string>, rows: seq<seq<Cell>>)

  /** `dated` is false for the zero creation time; a missing JSON object is None. */
  datatype Archive = Archive(
    formatVersion: int, dated: bool, source: string, manifest: Option<map<string, int>>,
    tables: Option<map<string, TableData>>)

  predicate EnvelopeOk(archive: Archive) {
    && archive.formatVersion == 1 && archive.dated && archive.manifest.Some? && archive.tables.Some?
    && (archive.source == "sqlite" || archive.source == "mysql")
    && |archive.manifest.value| == |archive.tables.value|
    && (forall name :: name in archive.manifest.value ==>
          && name in archive.tables.value
          && archive.manifest.value[name] == |archive.tables.value[name].rows|
          && |archive.tables.value[name].columns| > 0
          && (forall row :: row in archive.tables.value[name].rows ==> |row| == |archive.tables.value[name].columns|))
  }

  /** Table `t` of the archive has the schema's columns, its manifest count, and cells that
      restore. */
  predicate TableOk(json: Json, archive: Archive, t: nat)
    requires t < TABLES && archive.manifest.Some? && archive.tables.Some?
  {
    hide SCHEMA;
    && NameOf(t) in archive.tables.value && NameOf(t) in archive.manifest.value
    && var table := archive.tables.value[NameOf(t)];
    && archive.manifest.value[NameOf(t)] == |table.rows|
    && table.columns == ColumnNames(t)
    && (forall i :: 0 <= i < |table.rows| ==> RowOk(json, t, table.rows[i]))
  }

  predicate RowOk(json: Json, t: nat, row: seq<Cell>)
    requires t < TABLES
  {
    hide SCHEMA;
    && |row| == |ColumnsOf(t)|
    && forall c :: 0 <= c < |row| ==> RestoreCell(json, ColumnsOf(t)[c].kind, row[c], SQLite).Ok?
  }

  predicate Validates(json: Json, archive: Archive) {
    hide SCHEMA;
    && EnvelopeOk(archive) && |archive.tables.value| == TABLES
    && forall t :: 0 <= t < TABLES ==> TableOk(json, archive, t)
  }

  /** A table missing from the manifest counts as a count of zero; with the
      envelope's checks every table is in it. */
  lemma ManifestCoversTables(archive: Archive, name: string)
    requires EnvelopeOk(archive) && name in archive.tables.value
    ensures name in archive.manifest.value
  {
    assert archive.manifest.value.Keys <= archive.tables.value.Keys;
    SubsetOfSameSize(archive.manifest.value.Keys, archive.tables.value.Keys);
    assert |archive.manifest.value.Keys| == |archive.manifest.value|;
    assert |archive.tables.value.Keys| == |archive.tables.value|;
  }

  lemma SubsetOfSameSize(a: set<string>, b: set<string>)
    requires a <= b && |a| == |b|
    ensures a == b
  {
    if x :| x in b && x !in a {
      assert a <= b - {x};
      SubsetSize(a, b - {x});
    }
  }

  lemma {:induction false} SubsetSize(a: set<string>, b: set<string>)
    requires a <= b
    ensures |a| <= |b|
  {
    if a != {} {
      var x :| x in a;
      SubsetSize(a - {x}, b - {x});
    }
  }

  // ----- export and restore

  ghost predicate Exports(json: Json, t: nat, row: Row, cells: seq<Cell>)
    requires t < TABLES
  {
    hide SCHEMA;
    && |row| == |cells| == |ColumnsOf(t)|
    && forall c :: 0 <= c < |row| ==> NormalizeCell(json, ColumnsOf(t)[c].kind, row[c]) == Ok(cells[c])
  }

  /** `archive` is what Export makes of `db`. */
  ghost predicate IsExport(json: Json, db: DB, archive: Archive) {
    hide SCHEMA;
    && archive.formatVersion == 1 && archive.dated && archive.source == "sqlite"
    && archive.manifest.Some? && archive.tables.Some?
    && (forall name :: name in archive.tables.value <==> name in archive.manifest.value)
    && (forall name :: name in archive.tables.value <==> exists t :: 0 <= t < TABLES && NameOf(t) == name)
    && (forall t :: 0 <= t < TABLES ==> TableExported(json, db[t], t, archive.tables.value, archive.manifest.value))
  }

  /** What a valid cell is stored as. */
  function StoredCell(json: Json, kind: Kind, cell: Cell): Value {
    var restored := RestoreCell(json, kind, cell, SQLite);
    if restored.Ok? then Stored(restored.value) else Null
  }

  function RestoredRow(json: Json, t: nat, cells: seq<Cell>): Row
    requires t < TABLES && RowOk(json, t, cells)
  {
    hide SCHEMA;
    seq(|cells|, c requires 0 <= c < |cells| => StoredCell(json, ColumnsOf(t)[c].kind, cells[c]))
  }

  function RestoredRows(json: Json, archive: Archive, t: nat): Rows
    requires t < TABLES && Validates(json, archive)
  {
    hide SCHEMA;
    assert TableOk(json, archive, t);
    var rows := archive.tables.value[NameOf(t)].rows;
    seq(|rows|, i requires 0 <= i < |rows| => RestoredRow(json, t, rows[i]))
  }

  /** The nine tables after a successful restore. */
  function RestoredDB(json: Json, archive: Archive): DB
    requires Validates(json, archive)
  {
    hide SCHEMA;
    seq(TABLES, t requires 0 <= t < TABLES => RestoredRows(json, archive, t))
  }

  // ----- the statements of a restore

  /** Deletion order: children before parents. */
  const DELETION: seq<nat> := [7, 5, 3, 1, 4, 6, 8, 2, 0]

  /** After the first `k` deletions. */
  function Emptied(db: DB, k: nat): DB
    requires k <= TABLES
  {
    seq(TABLES, t requires 0 <= t < TABLES => if t in DELETION[..k] then [] else db[t])
  }

  /** After the tables before `t` were filled and `i` rows of table `t`. */
  function Filled(target: DB, t: nat, i: nat): DB
    requires t < TABLES && i <= |target[t]|
  {
    seq(TABLES, u requires 0 <= u < TABLES => if u < t then target[u] else if u == t then target[t][..i] else [])
  }

  lemma ChildrenAreDeletedFirst(r: Reference, k: nat)
    requires r in REFERENCES && k <= TABLES && r.parent in DELETION[..k]
    ensures r.child in DELETION[..k]
  {
    assert DELETION[0] == 7 && DELETION[1] == 5 && DELETION[2] == 3 && DELETION[3] == 1 && DELETION[7] == 2 && DELETION[8] == 0;
    var p :| 0 <= p < k && DELETION[p] == r.parent;
    if r.child == 1 {
      assert DELETION[..k][3] == 1;
    } else if r.child == 3 {
      assert DELETION[..k][2] == 3;
    } else if r.child == 5 {
      assert DELETION[..k][1] == 5;
    } else {
      assert DELETION[..k][0] == 7;
    }
  }

  /** No deletion breaks a foreign key. */
  lemma EmptiedIsClosed(db: DB, k: nat)
    requires Closed(db) && k <= TABLES
    ensures Closed(Emptied(db, k))
  {
    var after := Emptied(db, k);
    forall r | r in REFERENCES
      ensures ChildrenResolved(after, r)
    {
      ReferencesGoBack(r);
      if r.parent in DELETION[..k] {
        ChildrenAreDeletedFirst(r, k);
      }
      hide REFERENCES, DELETION;
      assert ChildrenResolved(db, r);
      assert forall i :: 0 <= i < |after[r.child]| ==> RowResolved(db, r, db[r.child][i]);
    }
  }

  lemma AllEmptied(db: DB)
    ensures Emptied(db, TABLES) == EMPTY
  {
    assert DELETION[..TABLES] == DELETION;
    forall t | 0 <= t < TABLES
      ensures t in DELETION
    {
      assert DELETION[8] == 0 && DELETION[3] == 1 && DELETION[7] == 2 && DELETION[2] == 3 && DELETION[4] == 4
          && DELETION[1] == 5 && DELETION[5] == 6 && DELETION[0] == 7 && DELETION[6] == 8;
    }
  }

  /** Row `i` of table `t` finds its parents once the earlier tables are filled exactly
      when it finds them in the finished database. */
  lemma RowResolvedEarly(target: DB, t: nat, i: nat, r: Reference, row: Row)
    requires t < TABLES && i <= |target[t]| && r in REFERENCES && r.child <= t
    ensures RowResolved(Filled(target, t, i), r, row) <==> RowResolved(target, r, row)
  {
    ReferencesGoBack(r);
  }

  /** Every intermediate state of the insertions satisfies the foreign keys if and only if
      the rows inserted so far do in the finished database. */
  lemma FilledIsClosed(target: DB, t: nat, i: nat)
    requires t < TABLES && i <= |target[t]|
    ensures Closed(target) ==> Closed(Filled(target, t, i))
    ensures Closed(Filled(target, t, i)) && t == TABLES - 1 && i == |target[t]| ==> Closed(target)
  {
    var after := Filled(target, t, i);
    if Closed(target) {
      forall r | r in REFERENCES
        ensures ChildrenResolved(after, r)
      {
        ReferencesGoBack(r);
        hide REFERENCES;
        assert ChildrenResolved(target, r);
        forall k | 0 <= k < |after[r.child]|
          ensures RowResolved(after, r, after[r.child][k])
        {
          RowResolvedEarly(target, t, i, r, after[r.child][k]);
        }
      }
    }
    if t == TABLES - 1 && i == |target[t]| {
      assert target[t][..i] == target[t];
      assert after == target;
    }
  }

  lemma NextTable(target: DB, t: nat)
    requires t < TABLES
    ensures t + 1 < TABLES ==> Filled(target, t, |target[t]|) == Filled(target, t + 1, 0)
    ensures t + 1 == TABLES ==> Filled(target, t, |target[t]|) == target
    ensures Filled(target, 0, 0) == EMPTY
  {
    assert target[t][..|target[t]|] == target[t];
    if t + 1 < TABLES {
      assert target[t + 1][..0] == [];
    }
    assert target[0][..0] == [];
  }

  /** What one more row does. */
  lemma NextRow(target: DB, t: nat, i: nat)
    requires t < TABLES && i < |target[t]|
    ensures
      var before := Filled(target, t, i);
      Filled(target, t, i + 1) == before[t := before[t] + [target[t][i]]]
  {
    var before := Filled(target, t, i);
    assert target[t][..i + 1] == target[t][..i] + [target[t][i]];
  }

  // ----- the snapshotter

  datatype Failure = InvalidManifest | CellFailed(error: Error) | StatementFailed

  /** Whether the engine's other constraints (keys, NOT NULL, CHECK) let a row into a table. */
  type Accepts = (nat, Rows, Row) -> bool

  ghost predicate AcceptedRows(accepts: Accepts, target: DB, t: nat)
    requires t < TABLES
  {
    forall i :: 0 <= i < |target[t]| ==> accepts(t, target[t][..i], target[t][i])
  }

  ghost predicate Accepted(accepts: Accepts, target: DB) {
    forall t :: 0 <= t < TABLES ==> AcceptedRows(accepts, target, t)
  }

  lemma TableOfValid(json: Json, archive: Archive, t: nat)
    requires t < TABLES && Validates(json, archive)
    ensures archive.tables.Some? && NameOf(t) in archive.tables.value
    ensures
      var rows := archive.tables.value[NameOf(t)].rows;
      var target := RestoredDB(json, archive)[t];
      |rows| == |target|
      && forall i :: 0 <= i < |rows| ==> RowOk(json, t, rows[i]) && target[i] == RestoredRow(json, t, rows[i])
  {
    hide SCHEMA, RowOk, RestoredRow;
    assert TableOk(json, archive, t);
  }

  ghost predicate RowsExportable(json: Json, t: nat, rows: Rows)
    requires t < TABLES
  {
    hide SCHEMA;
    forall i :: 0 <= i < |rows| ==>
      && |rows[i]| == |ColumnsOf(t)|
      && forall c :: 0 <= c < |rows[i]| ==> NormalizeCell(json, ColumnsOf(t)[c].kind, rows[i][c]).Ok?
  }

  ghost predicate Exportable(json: Json, db: DB) {
    forall t :: 0 <= t < TABLES ==> RowsExportable(json, t, db[t])
  }

  class Snapshotter {
    var db: DB
    const json: Json
    const accepts: Accepts

    ghost predicate Valid()
      reads this
    {
      Shaped(db) && Closed(db)
    }

    constructor (json: Json, accepts: Accepts)
      ensures Valid() && db == EMPTY && this.json == json && this.accepts == accepts
    {
      this.json, this.accepts, db := json, accepts, EMPTY;
    }

    method ExportRow(t: nat, row: Row) returns (r: Result<seq<Cell>, Error>)
      requires t < TABLES && |row| == |ColumnsOf(t)|
      ensures r.Ok? <==> forall c :: 0 <= c < |row| ==> NormalizeCell(json, ColumnsOf(t)[c].kind, row[c]).Ok?
      ensures r.Ok? ==> Exports(json, t, row, r.value)
    {
      hide SCHEMA, NormalizeCell;
      var cells: seq<Cell> := [];
      for c := 0 to |row|
        invariant |cells| == c
        invariant forall k :: 0 <= k < c ==> NormalizeCell(json, ColumnsOf(t)[k].kind, row[k]) == Ok(cells[k])
      {
        var cell := NormalizeCell(json, ColumnsOf(t)[c].kind, row[c]);
        if cell.Err? {
          return Err(cell.error);
        }
        cells := cells + [cell.value];
      }
      return Ok(cells);
    }

    method ExportTable(t: nat) returns (r: Result<TableData, Error>)
      requires t < TABLES && Valid()
      ensures r.Ok? <==> RowsExportable(json, t, db[t])
      ensures r.Ok? ==>
        && r.value.columns == ColumnNames(t) && |r.value.rows| == |db[t]|
        && forall i :: 0 <= i < |db[t]| ==> Exports(json, t, db[t][i], r.value.rows[i])
    {
      hide SCHEMA, NormalizeCell, Closed, Exports;
      var rows: seq<seq<Cell>> := [];
      for i := 0 to |db[t]|
        invariant |rows| == i
        invariant forall k :: 0 <= k < i ==> Exports(json, t, db[t][k], rows[k])
        invariant RowsExportable(json, t, db[t][..i])
      {
        var row := ExportRow(t, db[t][i]);
        if row.Err? {
          return Err(row.error);
        }
        rows := rows + [row.value];
      }
      return Ok(TableData(ColumnNames(t), rows));
    }

    method Export() returns (r: Result<Archive, Error>)
      requires Valid()
      ensures r.Ok? <==> Exportable(json, db)
      ensures r.Ok? ==> IsExport(json, db, r.value)
    {
      hide SCHEMA, NormalizeCell, Closed, Exports, RowsExportable;
      var manifest: map<string, int> := map[];
      var tables: map<string, TableData> := map[];
      for t := 0 to TABLES
        invariant tables.Keys == manifest.Keys
        invariant forall name :: name in tables <==> exists u :: 0 <= u < t && NameOf(u) == name
        invariant forall u :: 0 <= u < t ==> TableExported(json, db[u], u, tables, manifest)
        invariant forall u :: 0 <= u < t ==> RowsExportable(json, u, db[u])
      {
        var table := ExportTable(t);
        if table.Err? {
          return Err(table.error);
        }
        forall u | 0 <= u < t
          ensures NameOf(u) != NameOf(t)
        {
          NamesDiffer(u, t);
        }
        tables := tables[NameOf(t) := table.value];
        manifest := manifest[NameOf(t) := |table.value.rows|];
      }
      return Ok(Archive(1, true, "sqlite", Some(manifest), Some(tables)));
    }

    /** One row: decode the cells, then the INSERT. */
    method RestoreRow(db: DB, t: nat, cells: seq<Cell>) returns (r: Result<DB, Failure>)
      requires t < TABLES && RowOk(json, t, cells)
      ensures
        var row := RestoredRow(json, t, cells);
        var next := db[t := db[t] + [row]];
        r == if Closed(next) && accepts(t, db[t], row) then Ok(next) else Err(StatementFailed)
    {
      hide SCHEMA, RestoreCell, Closed;
      var values: Row := [];
      for c := 0 to |cells|
        invariant values == RestoredRow(json, t, cells)[..c]
      {
        var restored := RestoreCell(json, ColumnsOf(t)[c].kind, cells[c], SQLite);
        assert restored.Ok?; // validation makes the error branch dead
        values := values + [Stored(restored.value)];
      }
      assert values == RestoredRow(json, t, cells);
      var next := db[t := db[t] + [values]];
      if !Closed(next) || !accepts(t, db[t], values) {
        return Err(StatementFailed);
      }
      return Ok(next);
    }

    /** The nine DELETE statements: none of them can fail. */
    method Clear() returns (current: DB)
      requires Valid()
      ensures current == EMPTY
    {
      current := db;
      Untouched(db);
      for k := 0 to TABLES
        invariant current == Emptied(db, k)
      {
        OneMoreEmptied(db, k);
        EmptiedIsClosed(db, k + 1);
        current := current[DELETION[k] := []];
        assert Closed(current); // the engine's foreign-key check passes
      }
      AllEmptied(db);
    }

    /** The INSERT statements of one table. */
    method FillTable(t: nat, rows: seq<seq<Cell>>, start: DB, ghost target: DB) returns (r: Result<DB, Failure>)
      requires t < TABLES && |rows| == |target[t]| && start == Filled(target, t, 0) && Closed(start)
      requires forall i :: 0 <= i < |rows| ==> RowOk(json, t, rows[i]) && target[t][i] == RestoredRow(json, t, rows[i])
      ensures r.Ok? ==> r.value == Filled(target, t, |rows|) && Closed(r.value) && AcceptedRows(accepts, target, t)
      ensures r.Err? ==> !Closed(target) || !AcceptedRows(accepts, target, t)
    {
      hide SCHEMA, Closed, RestoredRow, RowOk, Filled;
      var current := start;
      for i := 0 to |rows|
        invariant current == Filled(target, t, i) && Closed(current)
        invariant forall k :: 0 <= k < i ==> accepts(t, target[t][..k], target[t][k])
      {
        NextRow(target, t, i);
        FilledIsClosed(target, t, i + 1);
        FilledSoFar(target, t, i);
        var next := RestoreRow(current, t, rows[i]);
        if next.Err? {
          return Err(next.error);
        }
        current := next.value;
      }
      return Ok(current);
    }

    /** The INSERT statements, from empty tables. */
    method Fill(archive: Archive, emptied: DB) returns (r: Result<DB, Failure>)
      requires Validates(json, archive) && emptied == EMPTY
      ensures r.Ok? <==> Closed(RestoredDB(json, archive)) && Accepted(accepts, RestoredDB(json, archive))
      ensures r.Ok? ==> r.value == RestoredDB(json, archive)
    {
      hide SCHEMA, Closed, RestoredRow, Filled, RowOk, EnvelopeOk, AcceptedRows;
      ghost var target := RestoredDB(json, archive);
      var current := emptied;
      NextTable(target, 0);
      EmptyIsClosed();
      for t := 0 to TABLES
        invariant current == if t < TABLES then Filled(target, t, 0) else target
        invariant Closed(current)
        invariant forall u :: 0 <= u < t ==> AcceptedRows(accepts, target, u)
      {
        TableOfValid(json, archive, t);
        var filled := FillTable(t, archive.tables.value[NameOf(t)].rows, current, target);
        if filled.Err? {
          return Err(filled.error);
        }
        current := filled.value;
        NextTable(target, t);
      }
      return Ok(current);
    }

    /** The transaction: nine deletions, then every row in schema order.  It succeeds exactly
        when the archive is valid, its rows are referentially closed and the other
        constraints accept them; otherwise the tables stay as they were. */
    method Restore(archive: Archive) returns (r: Result<(), Failure>)
      requires Valid()
      modifies this
      ensures Valid()
      ensures r.Ok? <==>
        && Validates(json, archive)
        && Closed(RestoredDB(json, archive)) && Accepted(accepts, RestoredDB(json, archive))
      ensures r.Ok? ==> db == RestoredDB(json, archive)
      ensures r.Err? ==> db == old(db)
    {
      hide SCHEMA, DELETION, EnvelopeOk, Closed, RestoredRow;
      if !Validates(json, archive) {
        return Err(InvalidManifest);
      }
      var emptied := Clear();
      var filled := Fill(archive, emptied);
      if filled.Err? {
        return Err(filled.error);
      }
      RestoredIsShaped(json, archive);
      db := filled.value;
      return Ok(());
    }
  }

  lemma Untouched(db: DB)
    ensures Emptied(db, 0) == db
  {
    assert DELETION[..0] == [];
  }

  lemma OneMoreEmptied(db: DB, k: nat)
    requires k < TABLES
    ensures DELETION[k] < TABLES && Emptied(db, k + 1) == Emptied(db, k)[DELETION[k] := []]
  {
    assert DELETION[..k + 1] == DELETION[..k] + [DELETION[k]];
    hide DELETION;
  }

  lemma EmptyIsClosed()
    ensures Closed(EMPTY)
  {
  }

  lemma FilledSoFar(target: DB, t: nat, i: nat)
    requires t < TABLES && i <= |target[t]|
    ensures Filled(target, t, i)[t] == target[t][..i]
  {
  }

  ghost predicate TableExported(json: Json, rows: Rows, t: nat, tables: map<string, TableData>, manifest: map<string, int>)
    requires t < TABLES
  {
    hide SCHEMA;
    && NameOf(t) in tables && NameOf(t) in manifest
    && manifest[NameOf(t)] == |rows|
    && tables[NameOf(t)].columns == ColumnNames(t)
    && |tables[NameOf(t)].rows| == |rows|
    && forall i :: 0 <= i < |rows| ==> Exports(json, t, rows[i], tables[NameOf(t)].rows[i])
  }

  lemma RestoredIsShaped(json: Json, archive: Archive)
    requires Validates(json, archive)
    ensures Shaped(RestoredDB(json, archive))
  {
    hide SCHEMA, RestoreCell;
    forall t, i | 0 <= t < TABLES && 0 <= i < |RestoredDB(json, archive)[t]|
      ensures |RestoredDB(json, archive)[t][i]| == |ColumnsOf(t)|
    {
      assert TableOk(json, archive, t);
    }
  }
}
