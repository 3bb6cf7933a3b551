/** Exporting a restored database: a fixed point for every archive this program exported,
    and an archive from elsewhere for which it fails. */
module BackupFixedPoint {
  import opened Wrappers
  import opened Text
  import opened Calendar
  import opened TimeText
  import opened TimeParse
  import opened BackupCells
  import opened Backup
  import opened BackupRoundTrip

  // ----- the archive of given cells

  type Cells = cells: seq<seq<seq<Cell>>> | |cells| == TABLES witness [[], [], [], [], [], [], [], [], []]

  lemma AllNamesDiffer()
    ensures forall t: nat, u: nat :: t < TABLES && u < TABLES && NameOf(t) == NameOf(u) ==> t == u
  {
    hide SCHEMA;
    forall t: nat, u: nat | t < TABLES && u < TABLES && NameOf(t) == NameOf(u)
      ensures t == u
    {
      if t < u {
        NamesDiffer(t, u);
      } else if u < t {
        NamesDiffer(u, t);
      }
    }
  }

  ghost function Names(): set<string> {
    hide SCHEMA;
    set t: nat | t < TABLES :: NameOf(t)
  }

  ghost function IndexOf(name: string): (t: nat)
    requires name in Names()
    ensures t < TABLES
  {
    hide SCHEMA;
    var t: nat :| t < TABLES && NameOf(t) == name;
    t
  }

  lemma IndexOfName(t: nat)
    requires t < TABLES
    ensures NameOf(t) in Names() && IndexOf(NameOf(t)) == t
  {
    hide SCHEMA;
    AllNamesDiffer();
  }

  ghost function ArchiveOf(cells: Cells): Archive {
    hide SCHEMA;
    Archive(1, true, "sqlite",
            Some(map name | name in Names() :: |cells[IndexOf(name)]|),
            Some(map name | name in Names() :: TableData(ColumnNames(IndexOf(name)), cells[IndexOf(name)])))
  }

  lemma ArchiveOfTable(cells: Cells, t: nat)
    requires t < TABLES
    ensures
      var archive := ArchiveOf(cells);
      && NameOf(t) in archive.tables.value && NameOf(t) in archive.manifest.value
      && archive.tables.value[NameOf(t)] == TableData(ColumnNames(t), cells[t])
      && archive.manifest.value[NameOf(t)] == |cells[t]|
  {
    hide SCHEMA, Names;
    IndexOfName(t);
  }

  ghost predicate Wide(cells: Cells) {
    hide SCHEMA;
    forall t, i :: 0 <= t < TABLES && 0 <= i < |cells[t]| ==> |cells[t][i]| == |ColumnsOf(t)|
  }

  lemma ArchiveOfEnvelope(cells: Cells)
    requires Wide(cells)
    ensures EnvelopeOk(ArchiveOf(cells)) && |ArchiveOf(cells).tables.value| == TABLES
  {
    hide SCHEMA, ColumnNames;
    var archive := ArchiveOf(cells);
    var tables, manifest := archive.tables.value, archive.manifest.value;
    assert tables.Keys == manifest.Keys;
    assert |tables.Keys| == |tables| && |manifest.Keys| == |manifest|;
    NineTables(tables.Keys);
    forall name | name in manifest
      ensures
        && name in tables && manifest[name] == |tables[name].rows| && |tables[name].columns| > 0
        && forall row :: row in tables[name].rows ==> |row| == |tables[name].columns|
    {
      var t := IndexOf(name);
      ArchiveOfTable(cells, t);
      SomeColumns(t);
    }
    hide ArchiveOf;
  }

  lemma ArchiveOfValidates(json: Json, cells: Cells)
    requires forall t, i :: 0 <= t < TABLES && 0 <= i < |cells[t]| ==> RowOk(json, t, cells[t][i])
    ensures Validates(json, ArchiveOf(cells))
  {
    hide SCHEMA, RestoreCell;
    ArchiveOfEnvelope(cells);
    forall t | 0 <= t < TABLES
      ensures TableOk(json, ArchiveOf(cells), t)
    {
      ArchiveOfTable(cells, t);
      hide ArchiveOf;
    }
    hide ArchiveOf, EnvelopeOk;
  }

  // ----- the one export of a database

  ghost function ExportedRow(json: Json, t: nat, row: Row): seq<Cell>
    requires t < TABLES && |row| == |ColumnsOf(t)|
    requires forall c :: 0 <= c < |row| ==> NormalizeCell(json, ColumnsOf(t)[c].kind, row[c]).Ok?
  {
    hide SCHEMA;
    seq(|row|, c requires 0 <= c < |row| => NormalizeCell(json, ColumnsOf(t)[c].kind, row[c]).value)
  }

  ghost function ExportedRows(json: Json, t: nat, rows: Rows): seq<seq<Cell>>
    requires t < TABLES && RowsExportable(json, t, rows)
  {
    hide SCHEMA, NormalizeCell;
    seq(|rows|, i requires 0 <= i < |rows| => ExportedRow(json, t, rows[i]))
  }

  ghost function ExportOf(json: Json, db: DB): Archive
    requires Exportable(json, db)
  {
    hide SCHEMA, RowsExportable;
    ArchiveOf(seq(TABLES, t requires 0 <= t < TABLES => ExportedRows(json, t, db[t])))
  }

  lemma ExportOfIsExport(json: Json, db: DB)
    requires Exportable(json, db)
    ensures IsExport(json, db, ExportOf(json, db))
  {
    hide SCHEMA, NormalizeCell;
    var cells: Cells := seq(TABLES, t requires 0 <= t < TABLES => ExportedRows(json, t, db[t]));
    var archive := ArchiveOf(cells);
    forall t | 0 <= t < TABLES
      ensures TableExported(json, db[t], t, archive.tables.value, archive.manifest.value)
    {
      ArchiveOfTable(cells, t);
      hide ArchiveOf;
    }
  }

  /** Two exports of one database are equal. */
  lemma OneExport(json: Json, db: DB, a: Archive, b: Archive)
    requires IsExport(json, db, a) && IsExport(json, db, b)
    ensures a == b
  {
    hide SCHEMA, Exports;
    forall name | name in a.tables.value
      ensures a.tables.value[name] == b.tables.value[name] && a.manifest.value[name] == b.manifest.value[name]
    {
      var t: nat :| t < TABLES && NameOf(t) == name;
      assert TableExported(json, db[t], t, a.tables.value, a.manifest.value);
      assert TableExported(json, db[t], t, b.tables.value, b.manifest.value);
      SameRows(json, t, db[t], a.tables.value[name].rows, b.tables.value[name].rows);
    }
    assert a.tables.value == b.tables.value;
    assert a.manifest.value.Keys == b.manifest.value.Keys;
    assert a.manifest.value == b.manifest.value;
  }

  lemma SameRows(json: Json, t: nat, rows: Rows, a: seq<seq<Cell>>, b: seq<seq<Cell>>)
    requires t < TABLES && |a| == |rows| == |b|
    requires forall i :: 0 <= i < |rows| ==> Exports(json, t, rows[i], a[i]) && Exports(json, t, rows[i], b[i])
    ensures a == b
  {
    hide SCHEMA, NormalizeCell;
    forall i | 0 <= i < |rows|
      ensures a[i] == b[i]
    {
      assert Exports(json, t, rows[i], a[i]) && Exports(json, t, rows[i], b[i]);
    }
  }

  // ----- archives of this program

  lemma ExportedCellInYears(json: Json, value: Value)
    requires NormalizeCell(json, KTime, value).Ok? && NormalizeCell(json, KTime, value).value.Some?
    ensures
      var text := NormalizeCell(json, KTime, value).value.value;
      ParseRFC3339(text).Some? ==> FourDigitYear(ParseRFC3339(text).value)
  {
    hide ParseRFC3339, TimeValue, FourDigitYear, ParseTime, ScalarString;
    ParseUndoesTimeValue(ValueTime(value).value);
  }

  lemma ExportedRowInYears(json: Json, t: nat, row: Row, cells: seq<Cell>)
    requires t < TABLES && Exports(json, t, row, cells)
    ensures CellsInYears(t, cells)
  {
    hide SCHEMA, NormalizeCell, ParseRFC3339, FourDigitYear;
    forall c | 0 <= c < |cells| && ColumnsOf(t)[c].kind.KTime? && cells[c].Some? && ParseRFC3339(cells[c].value).Some?
      ensures FourDigitYear(ParseRFC3339(cells[c].value).value)
    {
      assert NormalizeCell(json, ColumnsOf(t)[c].kind, row[c]) == Ok(cells[c]);
      ExportedCellInYears(json, row[c]);
    }
  }

  /** No archive this program exported and accepts holds a time out of the years 0000-9999. */
  lemma ExportedIsInYears(json: Json, db: DB, archive: Archive)
    requires IsExport(json, db, archive) && Validates(json, archive)
    ensures ArchiveInYears(json, archive)
  {
    hide SCHEMA, Exports, CellsInYears;
    forall t | 0 <= t < TABLES
      ensures TableInYears(json, archive, t)
    {
      assert TableExported(json, db[t], t, archive.tables.value, archive.manifest.value);
      hide Validates;
      var rows := archive.tables.value[NameOf(t)].rows;
      forall i | 0 <= i < |rows|
        ensures |rows[i]| == |ColumnsOf(t)| && CellsInYears(t, rows[i])
      {
        assert Exports(json, t, db[t][i], rows[i]);
        ExportsWidth(json, t, db[t][i], rows[i]);
        ExportedRowInYears(json, t, db[t][i], rows[i]);
      }
    }
    hide Validates, IsExport;
  }

  lemma ExportsWidth(json: Json, t: nat, row: Row, cells: seq<Cell>)
    requires t < TABLES && Exports(json, t, row, cells)
    ensures |cells| == |ColumnsOf(t)|
  {
    hide SCHEMA;
  }

  /** The exported database, restored, is its canonical spelling and can always be exported
      again; that second export is accepted and restores to the same database, so from then
      on nothing changes any more. */
  lemma RestoreIsAFixedPoint(json: Json, db: DB, archive: Archive)
    requires Shaped(db) && IsExport(json, db, archive) && Validates(json, archive)
    ensures
      var restored := RestoredDB(json, archive);
      && restored == CanonDB(json, db) && Exportable(json, restored)
      && IsExport(json, restored, ExportOf(json, restored))
      && Validates(json, ExportOf(json, restored)) && RestoredDB(json, ExportOf(json, restored)) == restored
  {
    hide SCHEMA, IsExport, Validates, RestoredDB, CanonDB, Exportable, ArchiveInYears, CanonicalDB, Shaped, ExportOf;
    RestoreUndoesExport(json, db, archive);
    ExportedIsInYears(json, db, archive);
    ReexportsExactly(json, archive);
    ExportOfIsExport(json, RestoredDB(json, archive));
    CanonicalRoundTrip(json, RestoredDB(json, archive), ExportOf(json, RestoredDB(json, archive)));
  }

  // ----- a time that is restored but cannot be exported again

  const LATE: string := "9999-12-31T23:59:59-01:00"

  /** The last second of 9999 an hour west of Greenwich: in UTC the year is 10000. */
  lemma RestoredTimeThatCannotBeExported(json: Json)
    ensures RestoreCell(json, KTime, Some(LATE), SQLite).Ok?
    ensures NormalizeCell(json, KTime, StoredCell(json, KTime, Some(LATE))).Err?
  {
    LateParses();
    hide ParseRFC3339, NormalizeCell;
    RestoredCellAgain(json, KTime, Some(LATE));
  }

  lemma LateParses()
    ensures ParseRFC3339(LATE) == Some((3652425 * 86400 + 3599) * 1_000_000_000)
  {
    hide ParseRFC3339, ParseDate, ParseClock, ParseZone;
    LateDate();
    LateClock();
    LateZone();
    assert LATE == "9999-12-31" + ['T'] + "23:59:59" + "-01:00";
    WithoutFraction("9999-12-31", "23:59:59", "-01:00");
  }

  lemma LateZone()
    ensures ParseZone("-01:00") == Some(-3600)
  {
    hide ParseZone, Decimal;
    ZoneOfParts('-', 1, 0);
    TwoDigitText(1);
    TwoDigitText(0);
    assert ['-'] + Decimal(1, 2) + ":" + Decimal(0, 2) == "-01:00";
  }

  /** A time without a fraction is read field by field. */
  lemma WithoutFraction(date: string, clock: string, zone: string)
    requires |date| == 10 && |clock| == 8 && (zone != "" ==> zone[0] != '.')
    requires ParseDate(date).Some? && ParseClock(clock).Some? && ParseZone(zone).Some?
    ensures ParseRFC3339(date + ['T'] + clock + zone)
            == Some((ParseDate(date).value * 86400 + ParseClock(clock).value - ParseZone(zone).value) * 1_000_000_000)
  {
    hide ParseDate, ParseClock, ParseZone, ParseSecond;
    ParseSecondOfStrings(date, 'T', clock, zone);
    assert ParseFraction(zone) == (0, zone);
  }

  lemma ZoneOfParts(sign: char, hour: nat, minute: nat)
    requires (sign == '+' || sign == '-') && hour < 24 && minute < 60
    ensures ParseZone([sign] + Decimal(hour, 2) + ":" + Decimal(minute, 2))
            == Some(if sign == '-' then -((hour * 60 + minute) * 60) else (hour * 60 + minute) * 60)
  {
    TwoDigits(hour);
    TwoDigits(minute);
    hide Decimal, Number;
    var s := [sign] + Decimal(hour, 2) + ":" + Decimal(minute, 2);
    assert s[1..3] == Decimal(hour, 2) && s[4..] == Decimal(minute, 2);
  }

  lemma LateDate()
    ensures ParseDate("9999-12-31") == Some(3652424)
  {
    hide ParseDate, DateOfFields, DayNumber, Decimal;
    FieldsOfDate(Date(9999, 12, 31));
    ParseDateOfStrings(Decimal(9999, 4), Decimal(12, 2), Decimal(31, 2));
    LateDateText();
    LateDay();
  }

  lemma LateDay()
    ensures DayNumber(Date(9999, 12, 31)) == 3652424
  {
  }

  lemma OneDigitMore(n: nat, width: nat)
    ensures Decimal(n, width + 1) == Decimal(n / 10, width) + [Digit(n % 10)]
    ensures Decimal(n, 0) == ""
  {
  }

  lemma TwoDigitText(n: nat)
    requires n < 100
    ensures Decimal(n, 2) == [Digit(n / 10), Digit(n % 10)]
  {
    hide Decimal, Digit;
    OneDigitMore(n, 1);
    OneDigitMore(n / 10, 0);
    OneDigitMore(n / 10 / 10, 0);
    assert n / 10 % 10 == n / 10;
  }

  lemma LateDateText()
    ensures Decimal(9999, 4) + "-" + Decimal(12, 2) + "-" + Decimal(31, 2) == "9999-12-31"
  {
    OneDigitMore(9999, 3);
    OneDigitMore(999, 2);
    TwoDigitText(99);
    TwoDigitText(12);
    TwoDigitText(31);
    hide Decimal;
  }

  lemma LateClock()
    ensures ParseClock("23:59:59") == Some(86399)
  {
    hide ParseClock, ClockOfFields, Decimal;
    FieldsOfClock(23, 59, 59);
    ParseClockOfParts(Decimal(23, 2), Decimal(59, 2), Decimal(59, 2));
    TwoDigitText(23);
    TwoDigitText(59);
    assert Decimal(23, 2) + ":" + Decimal(59, 2) + ":" + Decimal(59, 2) == "23:59:59";
  }

  // ----- a whole archive of that kind

  /** One user, initialized at that time. */
  const LATE_USER: seq<Cell> :=
    [Some("1"), Some("id"), Some("Name"), Some("name"), Some("hash"), Some(LATE), Some(LATE), Some(LATE), None]

  const LATE_CELLS: Cells := [[LATE_USER], [], [], [], [], [], [], [], []]

  lemma LateKinds()
    ensures |ColumnsOf(0)| == 9 && ColumnsOf(0)[0].kind == KInteger
    ensures forall c :: 1 <= c < 5 ==> ColumnsOf(0)[c].kind == KText
    ensures forall c :: 5 <= c < 9 ==> ColumnsOf(0)[c].kind == KTime
  {
  }

  lemma LateRowOk(json: Json)
    ensures RowOk(json, 0, LATE_USER) && |LATE_USER| == |ColumnsOf(0)| && !CellsInYears(0, LATE_USER)
  {
    LateKinds();
    LateParses();
    OneIsOne();
    hide SCHEMA, ParseRFC3339, ParseInt, TimeValue;
    assert ColumnsOf(0)[5].kind.KTime? && LATE_USER[5] == Some(LATE);
  }

  lemma OneIsOne()
    ensures ParseInt("1") == Some(1)
  {
    ParseUndoesFormat(1);
    OneDigit();
    hide ParseInt;
  }

  /** A valid, referentially closed archive that restores to a database which cannot be
      exported again.  By ExportedIsInYears this program never wrote it. */
  lemma LateArchive(json: Json)
    ensures
      var archive := ArchiveOf(LATE_CELLS);
      Validates(json, archive) && Closed(RestoredDB(json, archive)) && !Exportable(json, RestoredDB(json, archive))
  {
    var archive := ArchiveOf(LATE_CELLS);
    LateRowOk(json);
    hide SCHEMA, RowOk, CellsInYears, ArchiveOf, Validates, RestoredDB, Exportable;
    ArchiveOfValidates(json, LATE_CELLS);
    ReexportsExactly(json, archive);
    LateIsOutOfYears(json);
    forall t | 0 < t < TABLES
      ensures RestoredDB(json, archive)[t] == []
    {
      ArchiveOfTable(LATE_CELLS, t);
      TableOfValid(json, archive, t);
    }
    OnlyUsersIsClosed(RestoredDB(json, archive));
  }

  lemma LateIsOutOfYears(json: Json)
    requires Validates(json, ArchiveOf(LATE_CELLS))
    requires |LATE_USER| == |ColumnsOf(0)| && !CellsInYears(0, LATE_USER)
    ensures !ArchiveInYears(json, ArchiveOf(LATE_CELLS))
  {
    hide SCHEMA, RowOk, CellsInYears, ArchiveOf, Validates;
    ArchiveOfTable(LATE_CELLS, 0);
    assert LATE_CELLS[0][0] == LATE_USER;
    assert !TableInYears(json, ArchiveOf(LATE_CELLS), 0);
  }

  /** No child rows, no foreign key to break. */
  lemma OnlyUsersIsClosed(db: DB)
    requires forall t :: 0 < t < TABLES ==> db[t] == []
    ensures Closed(db)
  {
    forall r | r in REFERENCES
      ensures ChildrenResolved(db, r)
    {
      ReferencesGoBack(r);
      hide REFERENCES;
    }
  }
}
