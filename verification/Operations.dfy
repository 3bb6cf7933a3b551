/** The `operations` table: rows, the queued insert guarded by two UNIQUE constraints, and
    the guarded status transition. */
module Operations {
  import opened Wrappers
  import P = Providers

  datatype Action = Start | Stop | Reboot

  datatype Status = Queued | Running | Verifying | Succeeded | Failed | TimedOut | Cancelled

  predicate Terminal(status: Status) {
    status.Succeeded? || status.Failed? || status.TimedOut? || status.Cancelled?
  }

  /** One row; `active` is the column active_marker ('active' or NULL), times are the text
      `timeValue` stores (module TimeText). */
  datatype Operation = Operation(
    id: string, serverId: string, connectionId: string, action: Action, status: Status, key: string,
    active: bool, requestId: string, errorCode: string, errorMessage: string,
    queuedAt: string, startedAt: Option<string>, finishedAt: Option<string>, updatedAt: string)

  type Table = map<string, Operation>

  datatype Change = Change(at: string, requestId: string, errorCode: string, errorMessage: string)

  datatype Error = NotFound | InvalidTransition | ActiveOperation | InsertFailed | StorageFailed

  predicate ValidTransition(current: Status, next: Status) {
    match current
    case Queued => next.Running? || next.Failed? || next.Cancelled?
    case Running => next.Verifying? || next.Succeeded? || next.Failed? || next.TimedOut?
    case Verifying => next.Succeeded? || next.Failed? || next.TimedOut?
    case _ => false
  }

  // ----- admission (Request)

  predicate StateAllows(state: P.ServerState, action: Action) {
    match action
    case Start => state.Stopped? || state.Suspended?
    case _ => state.Running?
  }

  predicate CapabilityFor(capabilities: P.Capabilities, action: Action) {
    match action
    case Start => capabilities.canStart
    case Stop => capabilities.canStop
    case Reboot => capabilities.canReboot
  }

  // ----- executor's pure decisions

  predicate ActionAlreadySatisfied(action: Action, state: P.ServerState) {
    match action
    case Start => state.Running?
    case Stop => state.Stopped?
    case Reboot => false
  }

  predicate VerificationTargetReached(action: Action, state: P.ServerState) {
    if action.Reboot? then state.Running? else ActionAlreadySatisfied(action, state)
  }

  // ----- table functions

  /** UNIQUE (idempotency_key) makes this the only row with the key. */
  ghost function FindByKey(table: Table, key: string): (found: Option<Operation>)
    ensures found.None? ==> forall id :: id in table ==> table[id].key != key
    ensures found.Some? ==> exists id :: id in table && table[id] == found.value && found.value.key == key
  {
    if exists id :: id in table && table[id].key == key then
      var id :| id in table && table[id].key == key;
      Some(table[id])
    else None
  }

  predicate HasActive(table: Table, serverId: string) {
    exists id :: id in table && table[id].serverId == serverId && table[id].active
  }

  /** The row CreateQueued inserts: status queued, marker set, the request's other columns. */
  function QueuedRow(operation: Operation): Operation {
    operation.(status := Queued, active := true, startedAt := None, finishedAt := None)
  }

  /** One transaction: an existing key wins, otherwise insert under the primary key and
      the two UNIQUE constraints.  The flag says whether a row was created. */
  ghost function QueuedInsert(table: Table, operation: Operation): (Table, Result<(Operation, bool), Error>) {
    var existing := FindByKey(table, operation.key);
    if existing.Some? then (table, Ok((existing.value, false)))
    else if HasActive(table, operation.serverId) then (table, Err(ActiveOperation))
    else if operation.id in table then (table, Err(InsertFailed))
    else (table[operation.id := QueuedRow(operation)], Ok((QueuedRow(operation), true)))
  }

  function Moved(row: Operation, next: Status, change: Change): Operation {
    row.(status := next, active := !Terminal(next), updatedAt := change.at,
         startedAt := if next.Running? && row.startedAt.None? then Some(change.at) else row.startedAt,
         finishedAt := if Terminal(next) then Some(change.at) else row.finishedAt,
         requestId := if change.requestId != "" then change.requestId else row.requestId,
         errorCode := change.errorCode, errorMessage := change.errorMessage)
  }

  function MoveRow(table: Table, id: string, next: Status, change: Change): (Table, Result<Operation, Error>) {
    if id !in table then (table, Err(NotFound))
    else if !ValidTransition(table[id].status, next) then (table, Err(InvalidTransition))
    else (table[id := Moved(table[id], next, change)], Ok(Moved(table[id], next, change)))
  }

  // ----- invariant of the table

  predicate RowOk(row: Operation) {
    && (row.active <==> !Terminal(row.status))
    && (row.finishedAt.Some? <==> Terminal(row.status))
    && (row.status.Running? || row.status.Verifying? || row.status.Succeeded? || row.status.TimedOut? ==> row.startedAt.Some?)
    && (row.status.Queued? || row.status.Cancelled? ==> row.startedAt.None?)
  }

  ghost predicate Inv(table: Table) {
    && (forall id :: id in table ==> table[id].id == id && RowOk(table[id]))
    && (forall i, j :: i in table && j in table && table[i].key == table[j].key ==> i == j)
    && (forall i, j ::
          i in table && j in table && table[i].active && table[j].active && table[i].serverId == table[j].serverId
          ==> i == j)
  }

  lemma CreateQueuedKeepsInv(table: Table, operation: Operation)
    requires Inv(table)
    ensures Inv(QueuedInsert(table, operation).0)
  {
  }

  lemma TransitionKeepsInv(table: Table, id: string, next: Status, change: Change)
    requires Inv(table)
    ensures Inv(MoveRow(table, id, next, change).0)
  {
  }

  // ----- what the two writes mean, column by column

  /** A key keeps its row whatever else is asked; a new row needs a server without an active
      row and a new id, and is queued, marked and not started. */
  lemma QueuedInsertMeans(table: Table, operation: Operation)
    ensures
      var (after, r) := QueuedInsert(table, operation);
      var known := exists id :: id in table && table[id].key == operation.key;
      var busy := exists id :: id in table && table[id].serverId == operation.serverId && table[id].active;
      && (known ==> after == table && r.Ok? && !r.value.1 && r.value.0.key == operation.key
                    && exists id :: id in table && table[id] == r.value.0)
      && (!known && busy ==> after == table && r == Err(ActiveOperation))
      && (!known && !busy && operation.id in table ==> after == table && r == Err(InsertFailed))
      && (!known && !busy && operation.id !in table ==>
            && r.Ok? && r.value.1 && after == table[operation.id := r.value.0]
            && var row := r.value.0;
            && row.id == operation.id && row.serverId == operation.serverId && row.connectionId == operation.connectionId
            && row.action == operation.action && row.key == operation.key && row.queuedAt == operation.queuedAt
            && row.status.Queued? && row.active && row.startedAt.None? && row.finishedAt.None?)
  {
  }

  /** A move writes the status and its marker, the update time, the first start, the finish,
      the error, and a request id only if there is one; nothing else, and no other row. */
  lemma MoveMeans(table: Table, id: string, next: Status, change: Change)
    requires MoveRow(table, id, next, change).1.Ok?
    ensures
      var (after, r) := MoveRow(table, id, next, change);
      && id in table && id in after && after[id] == r.value && after.Keys == table.Keys
      && (forall other :: other in table && other != id ==> after[other] == table[other])
      && var was, now := table[id], after[id];
      && now.id == was.id && now.serverId == was.serverId && now.connectionId == was.connectionId
      && now.action == was.action && now.key == was.key && now.queuedAt == was.queuedAt
      && now.status == next && now.updatedAt == change.at
      && (now.active <==> next.Queued? || next.Running? || next.Verifying?)
      && (next.Running? && was.startedAt.None? ==> now.startedAt == Some(change.at))
      && (!next.Running? || was.startedAt.Some? ==> now.startedAt == was.startedAt)
      && (!now.active ==> now.finishedAt == Some(change.at))
      && (now.active ==> now.finishedAt == was.finishedAt)
      && (change.requestId == "" ==> now.requestId == was.requestId)
      && (change.requestId != "" ==> now.requestId == change.requestId)
      && now.errorCode == change.errorCode && now.errorMessage == change.errorMessage
  {
  }

  /** Steps left before an operation must be terminal. */
  function Rank(status: Status): nat {
    match status
    case Queued => 3
    case Running => 2
    case Verifying => 1
    case _ => 0
  }

  lemma TransitionsDescend(current: Status, next: Status)
    ensures ValidTransition(current, next) ==> Rank(next) < Rank(current)
    ensures Terminal(current) <==> Rank(current) == 0
    ensures Terminal(current) <==> forall status :: !ValidTransition(current, status)
    ensures current.Queued? ==> (ValidTransition(current, next) <==> next in {Running, Failed, Cancelled})
    ensures current.Running? ==> (ValidTransition(current, next) <==> next in {Verifying, Succeeded, Failed, TimedOut})
    ensures current.Verifying? ==> (ValidTransition(current, next) <==> next in {Succeeded, Failed, TimedOut})
  {
    if !Terminal(current) {
      assert ValidTransition(current, Failed);
    }
  }

  // ----- the repository

  class Repository {
    var rows: Table

    ghost predicate Valid()
      reads this
    {
      Inv(rows)
    }

    constructor ()
      ensures Valid() && rows == map[]
    {
      rows := map[];
    }

    method FindByID(id: string) returns (r: Result<Operation, Error>)
      ensures r == if id in rows then Ok(rows[id]) else Err(NotFound)
    {
      if id in rows {
        return Ok(rows[id]);
      }
      return Err(NotFound);
    }

    /** The first-match query `WHERE idempotency_key = ?`. */
    method FindByIdempotencyKey(key: string) returns (r: Option<Operation>)
      requires Valid()
      ensures r == FindByKey(rows, key)
    {
      var ids := rows.Keys;
      while ids != {}
        invariant ids <= rows.Keys
        invariant forall id :: id in rows && id !in ids ==> rows[id].key != key
        decreases ids
      {
        var id :| id in ids;
        if rows[id].key == key {
          return Some(rows[id]);
        }
        ids := ids - {id};
      }
      return None;
    }

    method ServerBusy(serverId: string) returns (busy: bool)
      ensures busy <==> HasActive(rows, serverId)
    {
      var ids := rows.Keys;
      while ids != {}
        invariant ids <= rows.Keys
        invariant forall id :: id in rows && id !in ids ==> !(rows[id].serverId == serverId && rows[id].active)
        decreases ids
      {
        var id :| id in ids;
        if rows[id].serverId == serverId && rows[id].active {
          return true;
        }
        ids := ids - {id};
      }
      return false;
    }

    method CreateQueued(operation: Operation) returns (r: Result<(Operation, bool), Error>)
      requires Valid()
      modifies this
      ensures Valid()
      ensures (rows, r) == QueuedInsert(old(rows), operation)
    {
      CreateQueuedKeepsInv(rows, operation);
      var existing := FindByIdempotencyKey(operation.key);
      if existing.Some? {
        return Ok((existing.value, false));
      }
      var busy := ServerBusy(operation.serverId);
      if busy {
        return Err(ActiveOperation);
      }
      if operation.id in rows {
        return Err(InsertFailed);
      }
      var row := operation.(status := Queued, active := true, startedAt := None, finishedAt := None);
      rows := rows[operation.id := row];
      return Ok((row, true));
    }

    method Transition(id: string, next: Status, change: Change) returns (r: Result<Operation, Error>)
      requires Valid()
      modifies this
      ensures Valid()
      ensures (rows, r) == MoveRow(old(rows), id, next, change)
    {
      TransitionKeepsInv(rows, id, next, change);
      if id !in rows {
        return Err(NotFound);
      }
      var current := rows[id];
      if !ValidTransition(current.status, next) {
        return Err(InvalidTransition);
      }
      current := current.(status := next, updatedAt := change.at);
      if next.Running? && current.startedAt.None? {
        current := current.(startedAt := Some(change.at));
      }
      if Terminal(next) {
        current := current.(finishedAt := Some(change.at));
      }
      if change.requestId != "" {
        current := current.(requestId := change.requestId);
      }
      current := current.(errorCode := change.errorCode, errorMessage := change.errorMessage, active := !Terminal(next));
      rows := rows[id := current];
      return Ok(current);
    }
  }
}
