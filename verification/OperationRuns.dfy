/** Every interleaving of the two writes on the `operations` table. */
module OperationRuns {
  import opened Operations

  datatype Call =
    | Create(operation: Operation)
    | Move(id: string, next: Status, change: Change)

  ghost function Apply(table: Table, call: Call): Table {
    match call
    case Create(operation) => QueuedInsert(table, operation).0
    case Move(id, next, change) => MoveRow(table, id, next, change).0
  }

  /** The table after a sequence of calls on the empty table. */
  ghost function After(calls: seq<Call>): Table {
    if calls == [] then map[] else Apply(After(calls[..|calls| - 1]), calls[|calls| - 1])
  }

  /** How many transitions of `id` took effect. */
  ghost function Moves(calls: seq<Call>, id: string): nat {
    if calls == [] then 0
    else
      var before, call := calls[..|calls| - 1], calls[|calls| - 1];
      Moves(before, id) +
      if call.Move? && call.id == id && MoveRow(After(before), id, call.next, call.change).1.Ok? then 1 else 0
  }

  /** active_marker is set exactly on non-terminal rows, finished_at exactly on terminal
      ones, started_at once running, and a server has at most one non-terminal operation. */
  lemma {:induction false} TableInvariant(calls: seq<Call>)
    ensures Inv(After(calls))
  {
    if calls != [] {
      var before := After(calls[..|calls| - 1]);
      TableInvariant(calls[..|calls| - 1]);
      match calls[|calls| - 1]
      case Create(operation) => CreateQueuedKeepsInv(before, operation);
      case Move(id, next, change) => TransitionKeepsInv(before, id, next, change);
    }
  }

  /** The same, row by row and column by column. */
  lemma RowShapes(calls: seq<Call>, id: string)
    requires id in After(calls)
    ensures
      var row := After(calls)[id];
      && row.id == id
      && (row.active <==> row.status in {Queued, Running, Verifying})
      && (row.finishedAt.Some? <==> row.status in {Succeeded, Failed, TimedOut, Cancelled})
      && (row.status in {Running, Verifying, Succeeded, TimedOut} ==> row.startedAt.Some?)
      && (row.status in {Queued, Cancelled} ==> row.startedAt.None?)
  {
    TableInvariant(calls);
  }

  lemma OneActivePerServer(calls: seq<Call>, i: string, j: string)
    requires i in After(calls) && j in After(calls)
    requires !Terminal(After(calls)[i].status) && !Terminal(After(calls)[j].status)
    requires After(calls)[i].serverId == After(calls)[j].serverId
    ensures i == j
  {
    TableInvariant(calls);
  }

  lemma CallMovesRow(table: Table, call: Call, id: string)
    requires id in table
    ensures id in Apply(table, call)
    ensures
      var was, now := table[id], Apply(table, call)[id];
      && (now == was || (call.Move? && call.id == id && MoveRow(table, id, call.next, call.change).1.Ok?))
      && (now != was ==> ValidTransition(was.status, now.status) && Rank(now.status) < Rank(was.status))
      && now.id == was.id && now.serverId == was.serverId && now.connectionId == was.connectionId
      && now.action == was.action && now.key == was.key && now.queuedAt == was.queuedAt
  {
  }

  /** An operation makes at most three transitions, and none once terminal. */
  lemma {:induction false} AtMostThreeMoves(calls: seq<Call>, id: string)
    ensures id !in After(calls) ==> Moves(calls, id) == 0
    ensures id in After(calls) ==> Moves(calls, id) + Rank(After(calls)[id].status) <= 3
  {
    if calls != [] {
      AtMostThreeMoves(calls[..|calls| - 1], id);
      MovesOfLastCall(After(calls[..|calls| - 1]), calls[|calls| - 1], id);
    }
  }

  lemma MovesOfLastCall(table: Table, call: Call, id: string)
    ensures id !in Apply(table, call) ==>
      id !in table && !(call.Move? && call.id == id && MoveRow(table, id, call.next, call.change).1.Ok?)
    ensures id !in table && id in Apply(table, call) ==> call.Create? && Rank(Apply(table, call)[id].status) == 3
    ensures id in table && call.Move? && call.id == id && MoveRow(table, id, call.next, call.change).1.Ok? ==>
      Rank(Apply(table, call)[id].status) < Rank(table[id].status)
    ensures id in table ==> id in Apply(table, call) && Rank(Apply(table, call)[id].status) <= Rank(table[id].status)
  {
    if id in table {
      CallMovesRow(table, call, id);
    }
  }

  /** Rows are never removed and a terminal row never changes again; server, action, key
      and queue time are fixed at creation. */
  lemma {:induction false} RowsPersist(calls: seq<Call>, n: nat, id: string)
    requires n <= |calls| && id in After(calls[..n])
    ensures id in After(calls)
    ensures
      var was, now := After(calls[..n])[id], After(calls)[id];
      && (Terminal(was.status) ==> now == was)
      && now.id == was.id && now.serverId == was.serverId && now.connectionId == was.connectionId
      && now.action == was.action && now.key == was.key && now.queuedAt == was.queuedAt
      && Rank(now.status) <= Rank(was.status)
  {
    if n < |calls| {
      var before := calls[..|calls| - 1];
      assert before[..n] == calls[..n];
      RowsPersist(before, n, id);
      CallMovesRow(After(before), calls[|calls| - 1], id);
    } else {
      assert calls[..n] == calls;
    }
  }
}
