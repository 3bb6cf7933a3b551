/** The backup service: archives in files, their metadata, and a restore that first takes a
    safety archive. */
module BackupService {
  import opened Wrappers
  import opened BackupCells
  import opened Backup
  import opened BackupRoundTrip
  import opened BackupFixedPoint

  /** A sealed archive: encryption is not modelled, it opens with its passphrase only. */
  datatype Sealed = Sealed(archive: Archive, passphrase: string, size: nat)

  /** The checksum and size of a file stand for its contents. */
  datatype Metadata = Metadata(filename: string, contents: Sealed, safety: bool)

  /** What the service keeps: the tables, the backup directory and the backups table. */
  datatype Store = Store(db: DB, files: map<string, Sealed>, metadata: map<string, Metadata>)

  /** What may fail outside this code, what it generates, the sealed size and the audit row. */
  datatype Chances = Chances(
    id: string, filename: string, sealed: bool, written: bool, recorded: bool, audited: bool, size: nat, entry: Row)

  datatype Refusal =
    | ActiveWork | ActivityUnknown | NotFound | InvalidBackup | ChecksumMismatch | CannotOpen | InvalidArchive
    | ExportFailed | SealFailed | WriteFailed | MetadataFailed | AuditFailed | RestoreFailed
    | SafetyFailed(reason: Refusal)

  const AUDIT: nat := 6

  /** Seal refuses other passphrases. */
  predicate Sealable(passphrase: string) {
    12 <= |passphrase| <= 1024
  }

  /** Half a gibibyte; larger files are never read back. */
  predicate Readable(size: nat) {
    size <= 536870912
  }

  /** A plain file name with the backup suffix. */
  predicate GoodName(filename: string) {
    '/' !in filename && |filename| >= 5 && filename[|filename| - 5..] == ".scpb"
  }

  lemma NameMeans(filename: string)
    ensures GoodName(filename) <==>
      (forall c :: c in filename ==> c != '/') && exists stem :: filename == stem + ".scpb"
  {
    if GoodName(filename) {
      assert filename == filename[..|filename| - 5] + ".scpb";
    }
  }

  /** One more row in audit_logs, which no foreign key mentions. */
  function WithAudit(db: DB, entry: Row): DB {
    db[AUDIT := db[AUDIT] + [entry]]
  }

  lemma AuditKeepsValid(db: DB, entry: Row)
    requires Shaped(db) && Closed(db) && |entry| == |ColumnsOf(AUDIT)|
    ensures Shaped(WithAudit(db, entry)) && Closed(WithAudit(db, entry))
  {
    var after := WithAudit(db, entry);
    assert Shaped(after) by {
      hide SCHEMA, Closed;
    }
    forall r | r in REFERENCES
      ensures ChildrenResolved(after, r)
    {
      assert ChildrenResolved(db, r);
      assert r.child != AUDIT && r.parent != AUDIT;
    }
  }

  /** An audit row in the program's spelling does not decide whether the tables export. */
  lemma AuditKeepsExportable(json: Json, db: DB, entry: Row)
    requires |entry| == |ColumnsOf(AUDIT)| && RowCanonical(json, AUDIT, entry)
    ensures Exportable(json, WithAudit(db, entry)) <==> Exportable(json, db)
  {
    hide SCHEMA, NormalizeCell, RowCanonical, Canon;
    CanonicalRowIsFixed(json, AUDIT, entry);
    var after := WithAudit(db, entry);
    AuditRowExportable(json, db[AUDIT], entry);
    hide RowsExportable;
    assert forall t :: 0 <= t < TABLES && t != AUDIT ==> after[t] == db[t];
  }

  lemma AuditRowExportable(json: Json, rows: Rows, entry: Row)
    requires |entry| == |ColumnsOf(AUDIT)|
    requires forall c :: 0 <= c < |entry| ==> NormalizeCell(json, ColumnsOf(AUDIT)[c].kind, entry[c]).Ok?
    ensures RowsExportable(json, AUDIT, rows + [entry]) <==> RowsExportable(json, AUDIT, rows)
  {
    hide SCHEMA, NormalizeCell;
    var more := rows + [entry];
    assert forall i :: 0 <= i < |rows| ==> more[i] == rows[i];
    assert more[|rows|] == entry;
  }

  // ----- when an archive is stored, and when a restore succeeds

  /** createLocked stores an archive: the metadata's id and file name are unique. */
  ghost predicate Stores(json: Json, s: Store, passphrase: string, chances: Chances) {
    && Exportable(json, s.db) && Sealable(passphrase) && chances.sealed && chances.written && chances.recorded
    && chances.id !in s.metadata && forall id :: id in s.metadata ==> s.metadata[id].filename != chances.filename
  }

  ghost function WithBackup(json: Json, s: Store, passphrase: string, safety: bool, chances: Chances): Store
    requires Stores(json, s, passphrase, chances)
  {
    var contents := Sealed(ExportOf(json, s.db), passphrase, chances.size);
    Store(if chances.audited then WithAudit(s.db, chances.entry) else s.db,
          s.files[chances.filename := contents],
          s.metadata[chances.id := Metadata(chances.filename, contents, safety)])
  }

  predicate ReadsBack(s: Store, id: string) {
    && id in s.metadata && GoodName(s.metadata[id].filename) && s.metadata[id].filename in s.files
    && s.files[s.metadata[id].filename] == s.metadata[id].contents && Readable(s.metadata[id].contents.size)
  }

  predicate Opens(json: Json, s: Store, id: string, passphrase: string) {
    && ReadsBack(s, id) && passphrase != "" && s.metadata[id].contents.passphrase == passphrase
    && Validates(json, s.metadata[id].contents.archive)
  }

  /** Everything a restore needs in order to return without an error. */
  ghost predicate Restores(json: Json, accepts: Accepts, s: Store, id: string, passphrase: string,
                           active: Result<bool, ()>, safety: Chances, audited: bool) {
    && active == Ok(false) && Opens(json, s, id, passphrase)
    && Stores(json, s, passphrase, safety) && safety.audited
    && Closed(RestoredDB(json, s.metadata[id].contents.archive))
    && Accepted(accepts, RestoredDB(json, s.metadata[id].contents.archive))
    && audited
  }

  ghost function Restored(json: Json, accepts: Accepts, s: Store, id: string, passphrase: string,
                          active: Result<bool, ()>, safety: Chances, entry: Row): Store
    requires Restores(json, accepts, s, id, passphrase, active, safety, true)
  {
    WithBackup(json, s, passphrase, true, safety).(
      db := WithAudit(RestoredDB(json, s.metadata[id].contents.archive), entry))
  }

  class Service {
    const snapshot: Snapshotter
    var files: map<string, Sealed>
    var metadata: map<string, Metadata>

    constructor (snapshot: Snapshotter)
      ensures this.snapshot == snapshot && files == map[] && metadata == map[]
    {
      this.snapshot, files, metadata := snapshot, map[], map[];
    }

    ghost predicate Valid()
      reads this, snapshot
    {
      snapshot.Valid()
    }

    ghost function Kept(): Store
      reads this, snapshot
    {
      Store(snapshot.db, files, metadata)
    }

    method AppendAudit(stored: bool, entry: Row)
      requires Valid() && |entry| == |ColumnsOf(AUDIT)|
      modifies snapshot
      ensures Valid()
      ensures snapshot.db == if stored then WithAudit(old(snapshot.db), entry) else old(snapshot.db)
      ensures forall t :: 0 <= t < TABLES && t != 6 ==> snapshot.db[t] == old(snapshot.db)[t]
      ensures snapshot.db[6] == old(snapshot.db)[6] + if stored then [entry] else []
    {
      AuditKeepsValid(snapshot.db, entry);
      if stored {
        snapshot.db := snapshot.db[AUDIT := snapshot.db[AUDIT] + [entry]];
      }
    }

    method FilenameTaken(filename: string) returns (taken: bool)
      ensures taken <==> exists id :: id in metadata && metadata[id].filename == filename
    {
      var ids := metadata.Keys;
      while ids != {}
        invariant ids <= metadata.Keys
        invariant forall id :: id in metadata && id !in ids ==> metadata[id].filename != filename
        decreases ids
      {
        var id :| id in ids;
        if metadata[id].filename == filename {
          return true;
        }
        ids := ids - {id};
      }
      return false;
    }

    /** Export, seal, write the file, record it, audit it. */
    method CreateLocked(passphrase: string, safety: bool, chances: Chances) returns (r: Result<Metadata, Refusal>)
      requires Valid() && |chances.entry| == |ColumnsOf(AUDIT)|
      modifies this, snapshot
      ensures Valid()
      ensures r.Ok? || r == Err(AuditFailed) <==>
        && Exportable(snapshot.json, old(snapshot.db)) && 12 <= |passphrase| <= 1024
        && chances.sealed && chances.written && chances.recorded
        && chances.id !in old(metadata) && forall id :: id in old(metadata) ==> old(metadata)[id].filename != chances.filename
      ensures (r.Ok? || r == Err(AuditFailed)) <==> Stores(snapshot.json, old(Kept()), passphrase, chances)
      ensures r.Ok? || r == Err(AuditFailed) ==>
        Kept() == WithBackup(snapshot.json, old(Kept()), passphrase, safety, chances) && (r.Ok? <==> chances.audited)
      ensures r.Ok? ==> r.value == metadata[chances.id]
      ensures r.Err? && r != Err(AuditFailed) ==>
        && snapshot.db == old(snapshot.db) && metadata == old(metadata)
        && (files == old(files) || files == old(files) - {chances.filename})
    {
      hide SCHEMA, Closed, Exportable, IsExport, ExportOf;
      var exported := snapshot.Export();
      if exported.Err? {
        return Err(ExportFailed);
      }
      ExportOfIsExport(snapshot.json, snapshot.db);
      OneExport(snapshot.json, snapshot.db, exported.value, ExportOf(snapshot.json, snapshot.db));
      if |passphrase| < 12 || |passphrase| > 1024 || !chances.sealed {
        return Err(SealFailed);
      }
      var data := Sealed(exported.value, passphrase, chances.size);
      if !chances.written {
        return Err(WriteFailed);
      }
      files := files[chances.filename := data];
      var entry := Metadata(chances.filename, data, safety);
      var taken := FilenameTaken(chances.filename);
      if !chances.recorded || taken || chances.id in metadata {
        files := files - {chances.filename};
        return Err(MetadataFailed);
      }
      metadata := metadata[chances.id := entry];
      AppendAudit(chances.audited, chances.entry);
      if !chances.audited {
        return Err(AuditFailed);
      }
      return Ok(entry);
    }

    method ReadVerified(id: string) returns (r: Result<Sealed, Refusal>)
      ensures r.Ok? <==> ReadsBack(Kept(), id)
      ensures r.Ok? <==>
        && id in metadata && metadata[id].filename in files && files[metadata[id].filename] == metadata[id].contents
        && metadata[id].contents.size <= 512 * 1024 * 1024
        && (forall c :: c in metadata[id].filename ==> c != '/')
        && exists stem :: metadata[id].filename == stem + ".scpb"
      ensures r.Ok? ==> r.value == metadata[id].contents
      ensures r.Err? ==> r.error == NotFound || r.error == InvalidBackup || r.error == ChecksumMismatch
    {
      if id !in metadata {
        return Err(NotFound);
      }
      NameMeans(metadata[id].filename);
      if !GoodName(metadata[id].filename) {
        return Err(InvalidBackup);
      }
      if metadata[id].filename !in files {
        return Err(NotFound);
      }
      var data := files[metadata[id].filename];
      if !Readable(data.size) {
        return Err(InvalidBackup);
      }
      if data != metadata[id].contents {
        return Err(ChecksumMismatch);
      }
      return Ok(data);
    }

    /** `active` is the activity check's answer, taken before the mutex.  Whatever fails, the
        tables are the old ones, at most with the safety archive's audit row, or, if only the
        last audit append failed, the archive's. */
    method Restore(id: string, passphrase: string, active: Result<bool, ()>, safety: Chances, audited: bool, entry: Row)
      returns (r: Result<(), Refusal>)
      requires Valid() && |safety.entry| == |ColumnsOf(AUDIT)| && |entry| == |ColumnsOf(AUDIT)|
      modifies this, snapshot
      ensures Valid()
      ensures r.Ok? <==> Restores(snapshot.json, snapshot.accepts, old(Kept()), id, passphrase, active, safety, audited)
      ensures r.Ok? ==> Kept() == Restored(snapshot.json, snapshot.accepts, old(Kept()), id, passphrase, active, safety, entry)
      ensures r == Err(RestoreFailed) ==>
        && Stores(snapshot.json, old(Kept()), passphrase, safety)
        && Kept() == WithBackup(snapshot.json, old(Kept()), passphrase, true, safety)
      ensures r == Err(AuditFailed) ==>
        && Stores(snapshot.json, old(Kept()), passphrase, safety) && Opens(snapshot.json, old(Kept()), id, passphrase)
        && Kept() == WithBackup(snapshot.json, old(Kept()), passphrase, true, safety).(
             db := RestoredDB(snapshot.json, old(metadata)[id].contents.archive))
      ensures r.Err? && r != Err(RestoreFailed) && r != Err(AuditFailed) ==> snapshot.db == old(snapshot.db)
      ensures r == Err(ActivityUnknown) <==> active.Err?
      ensures r == Err(ActiveWork) <==> active == Ok(true)
      ensures active != Ok(false) ==> Kept() == old(Kept())
      ensures r.Ok? ==>
        && passphrase != "" && old(metadata)[id].contents.passphrase == passphrase
        && forall t :: 0 <= t < TABLES ==>
             snapshot.db[t] == RestoredDB(snapshot.json, old(metadata)[id].contents.archive)[t] + if t == 6 then [entry] else []
    {
      hide SCHEMA, Closed, Exportable, IsExport, Validates, RestoredDB, ExportOf, WithAudit;
      if active.Err? {
        return Err(ActivityUnknown);
      }
      if active.value {
        return Err(ActiveWork);
      }
      var data := ReadVerified(id);
      if data.Err? {
        return Err(data.error);
      }
      if passphrase == "" || data.value.passphrase != passphrase {
        return Err(CannotOpen);
      }
      var archive := data.value.archive;
      if !Validates(snapshot.json, archive) {
        return Err(InvalidArchive);
      }
      var created := CreateLocked(passphrase, true, safety);
      if created.Err? {
        return Err(SafetyFailed(created.error));
      }
      var restored := snapshot.Restore(archive);
      if restored.Err? {
        return Err(RestoreFailed);
      }
      AppendAudit(audited, entry);
      if !audited {
        return Err(AuditFailed);
      }
      return Ok(());
    }
  }

  // ----- the safety archive

  /** Nothing outside fails, and the generated id and file name are new. */
  ghost predicate Lucky(s: Store, chances: Chances) {
    && chances.sealed && chances.written && chances.recorded && chances.audited
    && chances.id !in s.metadata && forall id :: id in s.metadata ==> s.metadata[id].filename != chances.filename
  }

  /** After a successful restore, restoring its safety archive with the same passphrase, while
      nothing outside fails, succeeds exactly if the service can take the second safety
      archive, that is if every time of the first archive lies in the years 0000-9999 in UTC,
      and the safety archive itself is valid and accepted.  The tables are then those from
      before the first restore, in canonical spelling, and one audit row. */
  lemma SafetyUndoesRestore(json: Json, accepts: Accepts, s: Store, id: string, passphrase: string, safety: Chances,
                            entry: Row, second: Chances, secondEntry: Row)
    requires Shaped(s.db) && Closed(s.db)
    requires Restores(json, accepts, s, id, passphrase, Ok(false), safety, true)
    requires |entry| == |ColumnsOf(AUDIT)| && RowCanonical(json, AUDIT, entry)
    requires GoodName(safety.filename) && Readable(safety.size)
    requires Lucky(Restored(json, accepts, s, id, passphrase, Ok(false), safety, entry), second)
    ensures
      var t := Restored(json, accepts, s, id, passphrase, Ok(false), safety, entry);
      && (Restores(json, accepts, t, safety.id, passphrase, Ok(false), second, true) <==>
            && ArchiveInYears(json, s.metadata[id].contents.archive)
            && InYears(s.db) && Accepted(accepts, CanonDB(json, s.db)))
      && (Restores(json, accepts, t, safety.id, passphrase, Ok(false), second, true) ==>
            Restored(json, accepts, t, safety.id, passphrase, Ok(false), second, secondEntry).db
            == WithAudit(CanonDB(json, s.db), secondEntry))
  {
    hide SCHEMA, Exportable, Closed, Validates, RestoredDB, ExportOf, CanonDB, InYears, ArchiveInYears, Accepted, WithAudit,
         GoodName, Readable, RowCanonical, Shaped, IsExport;
    var first := s.metadata[id].contents.archive;
    ExportOfIsExport(json, s.db);
    RestoreUndoesExport(json, s.db, ExportOf(json, s.db));
    CanonKeepsClosed(json, s.db);
    ReexportsExactly(json, first);
    AuditKeepsExportable(json, RestoredDB(json, first), entry);
  }

  /** So for tables in the program's own spelling the undo depends on the first archive
      alone, and it gives back exactly the tables from before. */
  lemma CanonicalUndo(json: Json, accepts: Accepts, s: Store, id: string, passphrase: string, safety: Chances,
                      entry: Row, second: Chances, secondEntry: Row)
    requires CanonicalDB(json, s.db) && Closed(s.db) && Accepted(accepts, s.db)
    requires Restores(json, accepts, s, id, passphrase, Ok(false), safety, true)
    requires |entry| == |ColumnsOf(AUDIT)| && RowCanonical(json, AUDIT, entry)
    requires GoodName(safety.filename) && Readable(safety.size)
    requires Lucky(Restored(json, accepts, s, id, passphrase, Ok(false), safety, entry), second)
    ensures
      var t := Restored(json, accepts, s, id, passphrase, Ok(false), safety, entry);
      && (Restores(json, accepts, t, safety.id, passphrase, Ok(false), second, true) <==>
            ArchiveInYears(json, s.metadata[id].contents.archive))
      && (Restores(json, accepts, t, safety.id, passphrase, Ok(false), second, true) ==>
            Restored(json, accepts, t, safety.id, passphrase, Ok(false), second, secondEntry).db == WithAudit(s.db, secondEntry))
  {
    hide SCHEMA, Exportable, Closed, Validates, RestoredDB, ExportOf, CanonDB, InYears, ArchiveInYears, Accepted, WithAudit,
         GoodName, Readable, RowCanonical, Shaped, IsExport, CanonicalDB, Restores, Restored, Lucky;
    CanonicalIsShaped(json, s.db);
    CanonicalDBIsFixed(json, s.db);
    SafetyUndoesRestore(json, accepts, s, id, passphrase, safety, entry, second, secondEntry);
  }

  /** And the restore of a backup this program exported can always be undone. */
  lemma OwnBackupsCanBeUndone(json: Json, accepts: Accepts, s: Store, id: string, passphrase: string, safety: Chances,
                              entry: Row, second: Chances, exported: DB)
    requires CanonicalDB(json, s.db) && Closed(s.db) && Accepted(accepts, s.db)
    requires Restores(json, accepts, s, id, passphrase, Ok(false), safety, true)
    requires IsExport(json, exported, s.metadata[id].contents.archive)
    requires |entry| == |ColumnsOf(AUDIT)| && RowCanonical(json, AUDIT, entry)
    requires GoodName(safety.filename) && Readable(safety.size)
    requires Lucky(Restored(json, accepts, s, id, passphrase, Ok(false), safety, entry), second)
    ensures
      var t := Restored(json, accepts, s, id, passphrase, Ok(false), safety, entry);
      Restores(json, accepts, t, safety.id, passphrase, Ok(false), second, true)
  {
    assert Opens(json, s, id, passphrase);
    hide SCHEMA, Exportable, Closed, Validates, RestoredDB, ExportOf, ArchiveInYears, Accepted, WithAudit, GoodName, Readable,
         RowCanonical, IsExport, CanonicalDB, Restores, Restored, Lucky;
    CanonicalUndo(json, accepts, s, id, passphrase, safety, entry, second, entry);
    ExportedIsInYears(json, exported, s.metadata[id].contents.archive);
  }
}
