/** Embedded console sessions: the ticket row, the in-memory targets, and the two requests
    that create and open a session. */
module Console {
  import opened Wrappers
  import opened Text
  import opened TimeText
  import opened TimeParse

  datatype Outcome = Pending | Active | Completed | Failed | Expired

  /** One row of console_sessions; times are the stored text. */
  datatype Session = Session(
    id: string, serverId: string, ticketHash: string, expiresAt: string, openedAt: Option<string>,
    closedAt: Option<string>, outcome: Outcome, createdAt: string)

  type Table = map<string, Session>

  datatype Error = TicketUnavailable | NotFound | InsertFailed | StorageFailed

  // ----- rows

  /** pending: neither opened nor closed; active: opened and not closed. */
  predicate RowOk(row: Session) {
    && (row.outcome.Pending? <==> row.openedAt.None? && row.closedAt.None?)
    && (row.outcome.Active? <==> row.openedAt.Some? && row.closedAt.None?)
  }

  ghost predicate Inv(table: Table) {
    && (forall id :: id in table ==> table[id].id == id && RowOk(table[id]))
    && (forall i, j :: i in table && j in table && table[i].ticketHash == table[j].ticketHash ==> i == j)
  }

  ghost predicate HasHash(table: Table, hash: string) {
    exists id :: id in table && table[id].ticketHash == hash
  }

  /** The insert under the primary key and UNIQUE (ticket_hash). */
  ghost function Created(table: Table, row: Session): Result<Table, Error> {
    if row.id in table || HasHash(table, row.ticketHash) then Err(InsertFailed) else Ok(table[row.id := row])
  }

  /** A row is read only if all its times parse. */
  predicate Readable(row: Session) {
    && ParseTime(row.expiresAt).Some? && ParseTime(row.createdAt).Some?
    && (row.openedAt.Some? ==> ParseTime(row.openedAt.value).Some?)
    && (row.closedAt.Some? ==> ParseTime(row.closedAt.value).Some?)
  }

  /** The two checks of ConsumeTicket: on instants after reading, and on text in the UPDATE. */
  predicate Opens(row: Session, at: Instant) {
    && Readable(row) && row.openedAt.None? && row.closedAt.None?
    && at < ParseTime(row.expiresAt).value
    && LexLess(TimeValue(at), row.expiresAt)
  }

  function Opened(row: Session, at: Instant): Session {
    row.(openedAt := Some(TimeValue(at)), outcome := Active)
  }

  /** The unique row with the ticket's hash, opened if it may be. */
  ghost predicate Consumes(table: Table, hash: string, at: Instant, id: string) {
    id in table && table[id].ticketHash == hash && Opens(table[id], at)
  }

  function Closed(table: Table, id: string, outcome: Outcome, at: string): Result<Table, Error> {
    if id in table && table[id].closedAt.None? then Ok(table[id := table[id].(closedAt := Some(at), outcome := outcome)])
    else Err(NotFound)
  }

  predicate IsFinal(outcome: Outcome) {
    outcome.Completed? || outcome.Failed? || outcome.Expired?
  }

  class Repository {
    var rows: Table

    ghost predicate Valid()
      reads this
    {
      Inv(rows)
    }

    constructor ()
      ensures Valid() && rows == map[]
    {
      rows := map[];
    }

    method FindByHash(hash: string) returns (found: Option<string>)
      ensures found.Some? ==> found.value in rows && rows[found.value].ticketHash == hash
      ensures found.None? ==> !HasHash(rows, hash)
    {
      var ids := rows.Keys;
      while ids != {}
        invariant ids <= rows.Keys
        invariant forall id :: id in rows && id !in ids ==> rows[id].ticketHash != hash
        decreases ids
      {
        var id :| id in ids;
        if rows[id].ticketHash == hash {
          return Some(id);
        }
        ids := ids - {id};
      }
      return None;
    }

    method Create(row: Session) returns (r: Result<(), Error>)
      requires Valid() && RowOk(row)
      modifies this
      ensures Valid()
      ensures r.Ok? <==> row.id !in old(rows) && forall id :: id in old(rows) ==> old(rows)[id].ticketHash != row.ticketHash
      ensures r.Ok? <==> Created(old(rows), row).Ok?
      ensures rows == if r.Ok? then Created(old(rows), row).value else old(rows)
    {
      var taken := FindByHash(row.ticketHash);
      if row.id in rows || taken.Some? {
        return Err(InsertFailed);
      }
      rows := rows[row.id := row];
      return Ok(());
    }

    method ConsumeTicket(hash: string, at: Instant) returns (r: Result<Session, Error>)
      requires Valid()
      modifies this
      ensures Valid()
      ensures r.Ok? ==>
        && Consumes(old(rows), hash, at, r.value.id) && r.value == Opened(old(rows)[r.value.id], at)
        && rows == old(rows)[r.value.id := r.value]
      ensures r.Err? ==> rows == old(rows) && forall id :: !Consumes(rows, hash, at, id)
    {
      hide ParseTime, TimeValue, LexLess;
      var found := FindByHash(hash);
      if found.None? {
        return Err(TicketUnavailable);
      }
      var row := rows[found.value];
      if !Readable(row) || row.openedAt.Some? || row.closedAt.Some? || at >= ParseTime(row.expiresAt).value {
        return Err(TicketUnavailable);
      }
      if !LexLess(TimeValue(at), row.expiresAt) {
        return Err(TicketUnavailable);
      }
      row := row.(openedAt := Some(TimeValue(at)));
      row := row.(outcome := Active);
      rows := rows[row.id := row];
      return Ok(row);
    }

    method Close(id: string, outcome: Outcome, at: string) returns (r: Result<(), Error>)
      requires Valid() && !outcome.Pending? && !outcome.Active?
      modifies this
      ensures Valid()
      ensures r.Ok? <==> Closed(old(rows), id, outcome, at).Ok?
      ensures rows == if r.Ok? then Closed(old(rows), id, outcome, at).value else old(rows)
    {
      if id !in rows || rows[id].closedAt.Some? {
        return Err(NotFound);
      }
      rows := rows[id := rows[id].(closedAt := Some(at), outcome := outcome)];
      return Ok(());
    }
  }

  // ----- when a ticket opens

  /** For an expiry the program wrote, in the years 0000-9999: the row is readable, neither
      opened nor closed, and the time is before the expiry, except that
      inside the expiry's own second the fraction digits must not be a prefix of the
      expiry's.  So never at or after the expiry, and always in an earlier second. */
  lemma OpensExactly(row: Session, expiry: Instant, at: Instant)
    requires FourDigitYear(expiry) && FourDigitYear(at)
    requires row.expiresAt == TimeValue(expiry)
    ensures Opens(row, at) <==>
      && ParseTime(row.createdAt).Some? && row.openedAt.None? && row.closedAt.None?
      && at < expiry
      && (SecondOf(at) != SecondOf(expiry) || !(FractionDigits(NanosOf(at)) <= FractionDigits(NanosOf(expiry))))
  {
    hide TimeValue, LexLess, ParseTime;
    ParseUndoesTimeValue(expiry);
    if at < expiry {
      TextOrder(at, expiry);
    }
    hide FourDigitYear, FractionDigits;
  }
}
