/** Export followed by restore: the same nine tables up to canonical spelling, a fixed
    point from then on, and exactly when an export can be restored or a restored database
    exported again. */
module BackupRoundTrip {
  import opened Wrappers
  import opened TimeText
  import opened TimeParse
  import opened BackupCells
  import opened Backup

  // ----- rows

  function CanonRow(json: Json, t: nat, row: Row): Row
    requires t < TABLES && |row| == |ColumnsOf(t)|
  {
    hide SCHEMA;
    seq(|row|, c requires 0 <= c < |row| => Canon(json, ColumnsOf(t)[c].kind, row[c]))
  }

  ghost predicate RowInYears(t: nat, row: Row)
    requires t < TABLES && |row| == |ColumnsOf(t)|
  {
    hide SCHEMA;
    forall c :: 0 <= c < |row| ==> !OutOfYears(ColumnsOf(t)[c].kind, row[c])
  }

  ghost predicate RowCanonical(json: Json, t: nat, row: Row)
    requires t < TABLES && |row| == |ColumnsOf(t)|
  {
    hide SCHEMA;
    forall c :: 0 <= c < |row| ==> Canonical(json, ColumnsOf(t)[c].kind, row[c])
  }

  lemma ExportedRowRestores(json: Json, t: nat, row: Row, cells: seq<Cell>)
    requires t < TABLES && Exports(json, t, row, cells)
    ensures RowOk(json, t, cells) <==> RowInYears(t, row)
    ensures RowOk(json, t, cells) ==> RestoredRow(json, t, cells) == CanonRow(json, t, row)
  {
    hide SCHEMA, NormalizeCell, RestoreCell, Canon, OutOfYears;
    forall c | 0 <= c < |row|
      ensures
        && (RestoreCell(json, ColumnsOf(t)[c].kind, cells[c], SQLite).Ok? <==> !OutOfYears(ColumnsOf(t)[c].kind, row[c]))
        && (RestoreCell(json, ColumnsOf(t)[c].kind, cells[c], SQLite).Ok? ==>
              StoredCell(json, ColumnsOf(t)[c].kind, cells[c]) == Canon(json, ColumnsOf(t)[c].kind, row[c]))
    {
      assert NormalizeCell(json, ColumnsOf(t)[c].kind, row[c]) == Ok(cells[c]);
      RestoreUndoesNormalize(json, ColumnsOf(t)[c].kind, row[c]);
    }
  }

  lemma CanonicalRowIsFixed(json: Json, t: nat, row: Row)
    requires t < TABLES && |row| == |ColumnsOf(t)| && RowCanonical(json, t, row)
    ensures RowInYears(t, row) && CanonRow(json, t, row) == row
    ensures forall c :: 0 <= c < |row| ==> NormalizeCell(json, ColumnsOf(t)[c].kind, row[c]).Ok?
  {
    hide SCHEMA, NormalizeCell, Canon, OutOfYears, Canonical;
    forall c | 0 <= c < |row|
      ensures
        && NormalizeCell(json, ColumnsOf(t)[c].kind, row[c]).Ok?
        && Canon(json, ColumnsOf(t)[c].kind, row[c]) == row[c] && !OutOfYears(ColumnsOf(t)[c].kind, row[c])
    {
      CanonicalIsFixed(json, ColumnsOf(t)[c].kind, row[c]);
    }
  }

  // ----- databases

  ghost predicate InYears(db: DB)
    requires Shaped(db)
  {
    hide SCHEMA;
    forall t, i :: 0 <= t < TABLES && 0 <= i < |db[t]| ==> RowInYears(t, db[t][i])
  }

  ghost predicate RowsCanonical(json: Json, t: nat, rows: Rows)
    requires t < TABLES
  {
    hide SCHEMA;
    forall i :: 0 <= i < |rows| ==> |rows[i]| == |ColumnsOf(t)| && RowCanonical(json, t, rows[i])
  }

  ghost predicate CanonicalDB(json: Json, db: DB) {
    forall t :: 0 <= t < TABLES ==> RowsCanonical(json, t, db[t])
  }

  function CanonRows(json: Json, t: nat, rows: Rows): Rows
    requires t < TABLES && forall i :: 0 <= i < |rows| ==> |rows[i]| == |ColumnsOf(t)|
  {
    hide SCHEMA;
    seq(|rows|, i requires 0 <= i < |rows| => CanonRow(json, t, rows[i]))
  }

  ghost function CanonDB(json: Json, db: DB): DB
    requires Shaped(db)
  {
    hide SCHEMA;
    seq(TABLES, t requires 0 <= t < TABLES => CanonRows(json, t, db[t]))
  }

  lemma ExportedTableOk(json: Json, db: DB, archive: Archive, t: nat)
    requires Shaped(db) && IsExport(json, db, archive) && t < TABLES
    ensures TableOk(json, archive, t) <==> forall i :: 0 <= i < |db[t]| ==> RowInYears(t, db[t][i])
  {
    hide SCHEMA, RowOk, RowInYears, Exports;
    assert TableExported(json, db[t], t, archive.tables.value, archive.manifest.value);
    var rows := archive.tables.value[NameOf(t)].rows;
    forall i | 0 <= i < |db[t]|
      ensures RowOk(json, t, rows[i]) <==> RowInYears(t, db[t][i])
    {
      assert Exports(json, t, db[t][i], rows[i]);
      ExportedRowRestores(json, t, db[t][i], rows[i]);
    }
  }

  /** The nine names, so the archive has nine tables. */
  lemma NineTables(keys: set<string>)
    requires forall name :: name in keys <==> exists t :: 0 <= t < TABLES && NameOf(t) == name
    ensures |keys| == TABLES
  {
    hide SCHEMA;
    CountNames(keys, TABLES);
  }

  lemma {:induction false} CountNames(keys: set<string>, n: nat)
    requires n <= TABLES && forall name :: name in keys <==> exists t :: 0 <= t < n && NameOf(t) == name
    ensures |keys| == n
  {
    hide SCHEMA;
    if n == 0 {
      assert keys == {};
    } else {
      var rest := keys - {NameOf(n - 1)};
      forall t | 0 <= t < n - 1
        ensures NameOf(t) != NameOf(n - 1)
      {
        NamesDiffer(t, n - 1);
      }
      CountNames(rest, n - 1);
      assert NameOf(n - 1) in keys;
    }
  }

  lemma ExportedEnvelope(json: Json, db: DB, archive: Archive)
    requires Shaped(db) && IsExport(json, db, archive)
    ensures EnvelopeOk(archive) && |archive.tables.value| == TABLES
  {
    hide SCHEMA, Exports;
    var tables, manifest := archive.tables.value, archive.manifest.value;
    assert tables.Keys == manifest.Keys;
    assert |tables.Keys| == |tables| && |manifest.Keys| == |manifest|;
    NineTables(tables.Keys);
    forall name | name in manifest
      ensures
        && name in tables && manifest[name] == |tables[name].rows| && |tables[name].columns| > 0
        && forall row :: row in tables[name].rows ==> |row| == |tables[name].columns|
    {
      var t :| 0 <= t < TABLES && NameOf(t) == name;
      assert TableExported(json, db[t], t, tables, manifest);
      ExportedWidths(json, db[t], t, tables[name].rows);
      SomeColumns(t);
    }
  }

  lemma SomeColumns(t: nat)
    requires t < TABLES
    ensures |ColumnNames(t)| == |ColumnsOf(t)| > 0
  {
  }

  // ----- what validation accepts

  /** Table `t` of these archive tables has the schema's columns, as many rows as the manifest
      says, and only cells that restore. */
  ghost predicate TableFits(json: Json, tables: map<string, TableData>, manifest: map<string, int>, t: nat)
    requires t < TABLES && NameOf(t) in tables && NameOf(t) in manifest
  {
    hide SCHEMA;
    var table := tables[NameOf(t)];
    && manifest[NameOf(t)] == |table.rows| && table.columns == ColumnNames(t)
    && forall i :: 0 <= i < |table.rows| ==>
         && |table.rows[i]| == |ColumnsOf(t)|
         && forall c :: 0 <= c < |table.rows[i]| ==> CellFits(json, ColumnsOf(t)[c].kind, table.rows[i][c])
  }

  /** A cell is NULL or a text of its column's kind. */
  ghost predicate CellFits(json: Json, kind: Kind, cell: Cell) {
    cell.Some? ==>
      var text := cell.value;
      match kind
      case KText => true
      case KJSON => json(text)
      case KBinary =>
        var letters := WithoutNewlines(text);
        |letters| % 4 == 0 && exists pad: nat :: Padded(letters, pad)
      case KInteger => exists n: int :: ParseInt(text) == Some(n)
      case KBoolean =>
        || text in ["1", "t", "T", "true", "True", "TRUE", "0", "f", "F", "false", "False", "FALSE"]
        || ParseInt(text) == Some(0) || ParseInt(text) == Some(1)
      case KTime => exists instant: Instant :: ParseRFC3339(text) == Some(instant)
  }

  lemma FitsExactly(json: Json, kind: Kind, cell: Cell)
    ensures RestoreCell(json, kind, cell, SQLite).Ok? <==> CellFits(json, kind, cell)
  {
    hide ParseInt, ParseRFC3339, TimeValue, Padded, WithoutNewlines, DecodeQuads, ParseBool, RestoreBoolean;
    if cell.Some? {
      DecodesExactly(WithoutNewlines(cell.value));
      BooleansAreRead(cell.value);
      assert ParseInt(cell.value).Some? ==> ParseInt(cell.value) == Some(ParseInt(cell.value).value);
      assert ParseRFC3339(cell.value).Some? ==> ParseRFC3339(cell.value) == Some(ParseRFC3339(cell.value).value);
    }
  }

  ghost predicate TheNine(keys: set<string>) {
    hide SCHEMA;
    forall name :: name in keys <==> exists t :: 0 <= t < TABLES && NameOf(t) == name
  }

  /** A dated archive of format 1 from SQLite or MySQL whose tables and manifest are the nine
      tables, each of which fits. */
  ghost predicate FitsTheSchema(json: Json, archive: Archive) {
    hide SCHEMA;
    && archive.formatVersion == 1 && archive.dated && (archive.source == "sqlite" || archive.source == "mysql")
    && archive.manifest.Some? && archive.tables.Some?
    && TheNine(archive.tables.value.Keys) && TheNine(archive.manifest.value.Keys)
    && forall t: nat :: t < TABLES ==>
         && NameOf(t) in archive.tables.value && NameOf(t) in archive.manifest.value
         && TableFits(json, archive.tables.value, archive.manifest.value, t)
  }

  /** All checks together accept exactly those archives. */
  lemma ValidatesExactly(json: Json, archive: Archive)
    ensures Validates(json, archive) <==> FitsTheSchema(json, archive)
  {
    hide SCHEMA, RestoreCell, ColumnNames;
    if Validates(json, archive) {
      ValidHasTheNine(json, archive);
      forall t: nat | t < TABLES
        ensures NameOf(t) in archive.tables.value && NameOf(t) in archive.manifest.value
        ensures TableFits(json, archive.tables.value, archive.manifest.value, t)
      {
        assert TableOk(json, archive, t);
        TableOkFits(json, archive, t);
      }
      hide TableFits, TableOk;
    }
    if FitsTheSchema(json, archive) {
      FittingIsValid(json, archive);
    }
  }

  lemma TableOkFits(json: Json, archive: Archive, t: nat)
    requires t < TABLES && archive.manifest.Some? && archive.tables.Some?
    requires NameOf(t) in archive.tables.value && NameOf(t) in archive.manifest.value
    ensures TableOk(json, archive, t) <==> TableFits(json, archive.tables.value, archive.manifest.value, t)
  {
    hide SCHEMA, RestoreCell, CellFits, ColumnNames, RowOk;
    var rows := archive.tables.value[NameOf(t)].rows;
    forall i | 0 <= i < |rows|
      ensures RowOk(json, t, rows[i]) <==>
        |rows[i]| == |ColumnsOf(t)| && forall c :: 0 <= c < |rows[i]| ==> CellFits(json, ColumnsOf(t)[c].kind, rows[i][c])
    {
      RowFits(json, t, rows[i]);
    }
  }

  lemma RowFits(json: Json, t: nat, row: seq<Cell>)
    requires t < TABLES
    ensures RowOk(json, t, row) <==>
      |row| == |ColumnsOf(t)| && forall c :: 0 <= c < |row| ==> CellFits(json, ColumnsOf(t)[c].kind, row[c])
  {
    hide SCHEMA, RestoreCell, CellFits;
    if |row| == |ColumnsOf(t)| {
      forall c | 0 <= c < |row|
        ensures RestoreCell(json, ColumnsOf(t)[c].kind, row[c], SQLite).Ok? <==> CellFits(json, ColumnsOf(t)[c].kind, row[c])
      {
        FitsExactly(json, ColumnsOf(t)[c].kind, row[c]);
      }
    }
  }

  lemma ValidHasTheNine(json: Json, archive: Archive)
    requires Validates(json, archive)
    ensures TheNine(archive.tables.value.Keys) && TheNine(archive.manifest.value.Keys)
  {
    hide SCHEMA, TableOk, TheNine;
    SameKeys(archive);
    hide EnvelopeOk;
    forall t: nat | t < TABLES
      ensures NameOf(t) in archive.tables.value
    {
      assert TableOk(json, archive, t);
      TableOkNamed(json, archive, t);
    }
    NineAreAll(archive.tables.value.Keys);
  }

  lemma SameKeys(archive: Archive)
    requires EnvelopeOk(archive)
    ensures archive.tables.value.Keys == archive.manifest.value.Keys
    ensures |archive.tables.value.Keys| == |archive.tables.value|
  {
    forall name | name in archive.tables.value
      ensures name in archive.manifest.value
    {
      ManifestCoversTables(archive, name);
    }
  }

  lemma NineAreAll(keys: set<string>)
    requires |keys| == TABLES && forall t: nat :: t < TABLES ==> NameOf(t) in keys
    ensures TheNine(keys)
  {
    hide SCHEMA;
    var nine := set t: nat | t < TABLES :: NameOf(t);
    forall name
      ensures name in nine <==> exists t :: 0 <= t < TABLES && NameOf(t) == name
    {
    }
    NineTables(nine);
    SubsetOfSameSize(nine, keys);
  }

  lemma TableOkNamed(json: Json, archive: Archive, t: nat)
    requires t < TABLES && archive.manifest.Some? && archive.tables.Some? && TableOk(json, archive, t)
    ensures NameOf(t) in archive.tables.value && NameOf(t) in archive.manifest.value
  {
    hide SCHEMA, RowOk, ColumnNames;
  }

  lemma FittingIsValid(json: Json, archive: Archive)
    requires FitsTheSchema(json, archive)
    ensures Validates(json, archive)
  {
    hide SCHEMA, TableFits, TableOk, EnvelopeOk;
    FittingEnvelope(json, archive);
    forall t: nat | t < TABLES
      ensures TableOk(json, archive, t)
    {
      TableOkFits(json, archive, t);
    }
  }

  lemma FittingEnvelope(json: Json, archive: Archive)
    requires FitsTheSchema(json, archive)
    ensures EnvelopeOk(archive) && |archive.tables.value| == TABLES
  {
    hide SCHEMA, TableFits;
    var tables, manifest := archive.tables.value, archive.manifest.value;
    assert |tables.Keys| == |tables| && |manifest.Keys| == |manifest|;
    NineTables(tables.Keys);
    NineTables(manifest.Keys);
    forall name | name in manifest
      ensures
        && name in tables && manifest[name] == |tables[name].rows| && |tables[name].columns| > 0
        && forall row :: row in tables[name].rows ==> |row| == |tables[name].columns|
    {
      var t :| 0 <= t < TABLES && NameOf(t) == name;
      FitsWidths(json, tables, manifest, t);
    }
  }

  lemma FitsWidths(json: Json, tables: map<string, TableData>, manifest: map<string, int>, t: nat)
    requires t < TABLES && NameOf(t) in tables && NameOf(t) in manifest && TableFits(json, tables, manifest, t)
    ensures
      var table := tables[NameOf(t)];
      && manifest[NameOf(t)] == |table.rows| && |table.columns| > 0
      && forall row :: row in table.rows ==> |row| == |table.columns|
  {
    hide SCHEMA, RestoreCell;
    SomeColumns(t);
  }

  lemma ExportedWidths(json: Json, rows: Rows, t: nat, cells: seq<seq<Cell>>)
    requires t < TABLES && |rows| == |cells| && forall i :: 0 <= i < |rows| ==> Exports(json, t, rows[i], cells[i])
    ensures forall row :: row in cells ==> |row| == |ColumnsOf(t)|
  {
    hide SCHEMA;
  }

  /** An export passes validation exactly when no exported time has left the years
      0000-9999, and restoring it then gives back the same nine tables in canonical spelling. */
  lemma RestoreUndoesExport(json: Json, db: DB, archive: Archive)
    requires Shaped(db) && IsExport(json, db, archive)
    ensures Validates(json, archive) <==> InYears(db)
    ensures Validates(json, archive) ==> RestoredDB(json, archive) == CanonDB(json, db)
  {
    hide SCHEMA, RowInYears, TableOk, Exports, RowOk;
    ExportedEnvelope(json, db, archive);
    forall t | 0 <= t < TABLES
      ensures TableOk(json, archive, t) <==> forall i :: 0 <= i < |db[t]| ==> RowInYears(t, db[t][i])
    {
      ExportedTableOk(json, db, archive, t);
    }
    hide EnvelopeOk, IsExport;
    if Validates(json, archive) {
      forall t | 0 <= t < TABLES
        ensures RestoredDB(json, archive)[t] == CanonDB(json, db)[t]
      {
        RestoredTable(json, db, archive, t);
      }
    }
  }

  lemma RestoredTable(json: Json, db: DB, archive: Archive, t: nat)
    requires Shaped(db) && IsExport(json, db, archive) && Validates(json, archive) && t < TABLES
    ensures RestoredDB(json, archive)[t] == CanonDB(json, db)[t]
  {
    hide SCHEMA, Exports, RowOk, RestoredRow, CanonRow, Validates;
    assert TableExported(json, db[t], t, archive.tables.value, archive.manifest.value);
    TableOfValid(json, archive, t);
    var rows := archive.tables.value[NameOf(t)].rows;
    forall i | 0 <= i < |db[t]|
      ensures RestoredRow(json, t, rows[i]) == CanonRow(json, t, db[t][i])
    {
      assert Exports(json, t, db[t][i], rows[i]);
      ExportedRowRestores(json, t, db[t][i], rows[i]);
    }
    hide RestoredDB;
    assert RestoredDB(json, archive)[t] == CanonRows(json, t, db[t]);
  }

  lemma CanonicalRowsAreFixed(json: Json, t: nat, rows: Rows)
    requires t < TABLES && RowsCanonical(json, t, rows)
    ensures forall i :: 0 <= i < |rows| ==> |rows[i]| == |ColumnsOf(t)| && RowInYears(t, rows[i])
    ensures CanonRows(json, t, rows) == rows && RowsExportable(json, t, rows)
  {
    hide SCHEMA, RowInYears, RowCanonical, CanonRow, NormalizeCell;
    forall i | 0 <= i < |rows|
      ensures RowInYears(t, rows[i]) && CanonRow(json, t, rows[i]) == rows[i]
      ensures forall c :: 0 <= c < |rows[i]| ==> NormalizeCell(json, ColumnsOf(t)[c].kind, rows[i][c]).Ok?
    {
      CanonicalRowIsFixed(json, t, rows[i]);
    }
  }

  lemma CanonicalIsShaped(json: Json, db: DB)
    requires CanonicalDB(json, db)
    ensures Shaped(db)
  {
    hide SCHEMA, RowCanonical;
  }

  lemma CanonicalDBIsFixed(json: Json, db: DB)
    requires CanonicalDB(json, db) && Shaped(db)
    ensures InYears(db) && CanonDB(json, db) == db && Exportable(json, db)
  {
    hide SCHEMA, RowInYears, CanonRows, RowsExportable, RowsCanonical;
    forall t | 0 <= t < TABLES
      ensures forall i :: 0 <= i < |db[t]| ==> RowInYears(t, db[t][i])
      ensures CanonRows(json, t, db[t]) == db[t] && RowsExportable(json, t, db[t])
    {
      CanonicalRowsAreFixed(json, t, db[t]);
    }
  }

  /** The program's own spellings are always exported, and come back unchanged. */
  lemma CanonicalRoundTrip(json: Json, db: DB, archive: Archive)
    requires CanonicalDB(json, db) && IsExport(json, db, archive)
    ensures Exportable(json, db) && Validates(json, archive) && RestoredDB(json, archive) == db
  {
    hide SCHEMA, CanonicalDB, Shaped, InYears, CanonDB, IsExport, Exportable, RestoredDB, Validates;
    CanonicalIsShaped(json, db);
    CanonicalDBIsFixed(json, db);
    RestoreUndoesExport(json, db, archive);
  }

  // ----- exporting a restored database again

  /** The archived time texts name instants of the years 0000-9999. */
  ghost predicate CellsInYears(t: nat, cells: seq<Cell>)
    requires t < TABLES && |cells| == |ColumnsOf(t)|
  {
    hide SCHEMA;
    forall c :: 0 <= c < |cells| && ColumnsOf(t)[c].kind.KTime? && cells[c].Some? && ParseRFC3339(cells[c].value).Some? ==>
      FourDigitYear(ParseRFC3339(cells[c].value).value)
  }

  lemma RestoredRowIsCanonical(json: Json, t: nat, cells: seq<Cell>)
    requires t < TABLES && RowOk(json, t, cells)
    ensures CellsInYears(t, cells) ==> RowCanonical(json, t, RestoredRow(json, t, cells))
    ensures !CellsInYears(t, cells) ==> exists c ::
      0 <= c < |cells| && NormalizeCell(json, ColumnsOf(t)[c].kind, RestoredRow(json, t, cells)[c]).Err?
  {
    hide SCHEMA, RestoreCell, NormalizeCell, Canonical, ParseRFC3339, FourDigitYear;
    forall c | 0 <= c < |cells|
      ensures
        (ColumnsOf(t)[c].kind.KTime? && cells[c].Some? ==> ParseRFC3339(cells[c].value).Some?) &&
        if ColumnsOf(t)[c].kind.KTime? && cells[c].Some? && !FourDigitYear(ParseRFC3339(cells[c].value).value)
        then NormalizeCell(json, ColumnsOf(t)[c].kind, RestoredRow(json, t, cells)[c]).Err?
        else Canonical(json, ColumnsOf(t)[c].kind, RestoredRow(json, t, cells)[c])
    {
      var kind := ColumnsOf(t)[c].kind;
      assert RestoreCell(json, kind, cells[c], SQLite).Ok?;
      RestoredCellAgain(json, kind, cells[c]);
    }
  }

  lemma RestoredCellAgain(json: Json, kind: Kind, cell: Cell)
    requires RestoreCell(json, kind, cell, SQLite).Ok?
    ensures kind.KTime? && cell.Some? ==> ParseRFC3339(cell.value).Some?
    ensures kind.KTime? && cell.Some? && !FourDigitYear(ParseRFC3339(cell.value).value) ==>
      NormalizeCell(json, kind, StoredCell(json, kind, cell)).Err?
    ensures !(kind.KTime? && cell.Some? && !FourDigitYear(ParseRFC3339(cell.value).value)) ==>
      Canonical(json, kind, StoredCell(json, kind, cell))
  {
    hide ParseRFC3339, ParseTime, FourDigitYear, Canonical, TimeValue, Decode, ParseInt, NormalizeCell, ScalarString;
    if kind.KTime? && cell.Some? && !FourDigitYear(ParseRFC3339(cell.value).value) {
      LateTimeAgain(json, ParseRFC3339(cell.value).value);
    } else {
      RestoredIsCanonical(json, kind, cell);
    }
  }

  /** The text of an instant out of the four-digit years is not read back. */
  lemma LateTimeAgain(json: Json, t: Instant)
    requires !FourDigitYear(t)
    ensures NormalizeCell(json, KTime, Value.Text(TimeValue(t))).Err?
  {
    hide ParseRFC3339, ParseTime, FourDigitYear, TimeValue;
    ParseUndoesTimeValue(t);
  }

  ghost predicate TableInYears(json: Json, archive: Archive, t: nat)
    requires t < TABLES && Validates(json, archive)
  {
    hide SCHEMA;
    assert TableOk(json, archive, t);
    forall i :: 0 <= i < |archive.tables.value[NameOf(t)].rows| ==> CellsInYears(t, archive.tables.value[NameOf(t)].rows[i])
  }

  ghost predicate ArchiveInYears(json: Json, archive: Archive)
    requires Validates(json, archive)
  {
    forall t :: 0 <= t < TABLES ==> TableInYears(json, archive, t)
  }

  /** A restored database can be exported again exactly when every archived time lies in the
      years 0000-9999 once converted to UTC; it is then canonical. */
  lemma ReexportsExactly(json: Json, archive: Archive)
    requires Validates(json, archive)
    ensures Exportable(json, RestoredDB(json, archive)) <==> ArchiveInYears(json, archive)
    ensures ArchiveInYears(json, archive) ==> CanonicalDB(json, RestoredDB(json, archive))
  {
    hide SCHEMA, Validates, RestoredDB, Exportable, ArchiveInYears, CanonicalDB, Shaped;
    if ArchiveInYears(json, archive) {
      InYearsIsCanonical(json, archive);
      CanonicalIsShaped(json, RestoredDB(json, archive));
      CanonicalDBIsFixed(json, RestoredDB(json, archive));
    }
    if Exportable(json, RestoredDB(json, archive)) {
      ExportableIsInYears(json, archive);
    }
  }

  lemma InYearsIsCanonical(json: Json, archive: Archive)
    requires Validates(json, archive) && ArchiveInYears(json, archive)
    ensures CanonicalDB(json, RestoredDB(json, archive))
  {
    hide SCHEMA, TableInYears, RowsCanonical, RowsExportable, Validates, RestoredDB;
    forall t | 0 <= t < TABLES
      ensures RowsCanonical(json, t, RestoredDB(json, archive)[t])
    {
      OneTableReexports(json, archive, t);
    }
  }

  lemma ExportableIsInYears(json: Json, archive: Archive)
    requires Validates(json, archive) && Exportable(json, RestoredDB(json, archive))
    ensures ArchiveInYears(json, archive)
  {
    hide SCHEMA, TableInYears, RowsCanonical, RowsExportable, Validates, RestoredDB;
    forall t | 0 <= t < TABLES
      ensures TableInYears(json, archive, t)
    {
      OneTableReexports(json, archive, t);
    }
  }

  lemma OneTableReexports(json: Json, archive: Archive, t: nat)
    requires t < TABLES && Validates(json, archive)
    ensures TableInYears(json, archive, t) ==> RowsCanonical(json, t, RestoredDB(json, archive)[t])
    ensures RowsExportable(json, t, RestoredDB(json, archive)[t]) ==> TableInYears(json, archive, t)
  {
    hide SCHEMA, CellsInYears, RowCanonical, NormalizeCell, RowOk, RestoredRow, Validates, RestoredDB;
    TableOfValid(json, archive, t);
    var rows := archive.tables.value[NameOf(t)].rows;
    var target := RestoredDB(json, archive)[t];
    forall i | 0 <= i < |rows|
      ensures |rows[i]| == |target[i]| == |ColumnsOf(t)|
      ensures CellsInYears(t, rows[i]) ==> RowCanonical(json, t, target[i])
      ensures !CellsInYears(t, rows[i]) ==> exists c ::
        0 <= c < |target[i]| && NormalizeCell(json, ColumnsOf(t)[c].kind, target[i][c]).Err?
    {
      RestoredWidth(json, t, rows[i]);
      RestoredRowIsCanonical(json, t, rows[i]);
    }
  }

  lemma RestoredWidth(json: Json, t: nat, cells: seq<Cell>)
    requires t < TABLES && RowOk(json, t, cells)
    ensures |cells| == |RestoredRow(json, t, cells)| == |ColumnsOf(t)|
  {
    hide SCHEMA;
  }

  // ----- validation is sufficient

  ghost predicate TableRestores(json: Json, archive: Archive, t: nat, dialect: Dialect)
    requires t < TABLES
  {
    hide SCHEMA;
    && archive.tables.Some? && NameOf(t) in archive.tables.value
    && forall row :: row in archive.tables.value[NameOf(t)].rows ==> RowRestores(json, t, row, dialect)
  }

  ghost predicate RowRestores(json: Json, t: nat, row: seq<Cell>, dialect: Dialect)
    requires t < TABLES
  {
    hide SCHEMA;
    && |row| == |ColumnsOf(t)|
    && forall c :: 0 <= c < |row| ==> RestoreCell(json, ColumnsOf(t)[c].kind, row[c], dialect).Ok?
  }

  /** No cell of a valid archive fails to convert, in either dialect. */
  lemma ValidationSuffices(json: Json, archive: Archive, t: nat, dialect: Dialect)
    requires Validates(json, archive) && t < TABLES
    ensures TableRestores(json, archive, t, dialect)
  {
    hide SCHEMA, RestoreCell;
    TableOfValid(json, archive, t);
    hide Validates, RestoredDB, RestoredRow;
    forall row | row in archive.tables.value[NameOf(t)].rows
      ensures RowRestores(json, t, row, dialect)
    {
      assert RowOk(json, t, row);
      forall c | 0 <= c < |row|
        ensures RestoreCell(json, ColumnsOf(t)[c].kind, row[c], dialect).Ok?
      {
        DialectsAgree(json, ColumnsOf(t)[c].kind, row[c]);
      }
    }
  }

  /** Canonical spelling keeps the foreign keys, so a valid export is always restorable as
      far as they are concerned. */
  lemma CanonKeepsClosed(json: Json, db: DB)
    requires Shaped(db) && Closed(db)
    ensures Closed(CanonDB(json, db))
  {
    hide SCHEMA, Canon;
    var canon := CanonDB(json, db);
    forall r | r in REFERENCES
      ensures ChildrenResolved(canon, r)
    {
      assert ChildrenResolved(db, r);
      ReferencesAreText(r);
      hide REFERENCES;
      forall i | 0 <= i < |canon[r.child]|
        ensures RowResolved(canon, r, canon[r.child][i])
      {
        CanonKeepsRow(json, db, r, i);
      }
    }
  }

  lemma ReferencesAreText(r: Reference)
    requires r in REFERENCES
    ensures r.parent < r.child < TABLES
    ensures r.column < |ColumnsOf(r.child)| && ColumnsOf(r.child)[r.column].kind.KText?
    ensures r.key < |ColumnsOf(r.parent)| && ColumnsOf(r.parent)[r.key].kind.KText?
  {
  }

  lemma CanonKeepsRow(json: Json, db: DB, r: Reference, i: nat)
    requires r in REFERENCES && Shaped(db) && r.parent < r.child < TABLES && i < |db[r.child]|
    requires r.column < |ColumnsOf(r.child)| && ColumnsOf(r.child)[r.column].kind.KText?
    requires r.key < |ColumnsOf(r.parent)| && ColumnsOf(r.parent)[r.key].kind.KText?
    requires RowResolved(db, r, db[r.child][i])
    ensures RowResolved(CanonDB(json, db), r, CanonDB(json, db)[r.child][i])
  {
    hide SCHEMA, REFERENCES;
    var canon := CanonDB(json, db);
    var row := db[r.child][i];
    assert canon[r.child][i] == CanonRow(json, r.child, row);
    if !row[r.column].Null? {
      var parents := db[r.parent];
      var p :| 0 <= p < |parents| && r.key < |parents[p]| && parents[p][r.key] == row[r.column];
      assert canon[r.parent][p] == CanonRow(json, r.parent, parents[p]);
      assert canon[r.parent][p][r.key] == canon[r.child][i][r.column];
    }
  }
}
