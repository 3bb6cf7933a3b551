/** Every interleaving of the requests that create and open console sessions, with process
    restarts: a ticket opens at most once and a target is delivered at most once. */
module ConsoleRuns {
  import opened Wrappers
  import opened TimeText
  import opened Console
  import opened Text
  import opened TimeParse

  /** Where the request that creates session `id` is. */
  datatype Creating = Inserted | TargetPut | Dropping | Failing | CreateOver

  /** Where the request that opened session `id` is. */
  datatype Opening = Consumed | Serving | Missing | OpenOver

  /** The table, the in-memory targets, the requests under way, and which targets were
      handed to whom, in order. */
  datatype State = State(
    rows: Table, targets: map<string, string>, creating: map<string, Creating>, opening: map<string, Opening>,
    delivered: seq<(string, string)>)

  const INITIAL := State(map[], map[], map[], map[], [])

  datatype Step =
    | Insert(row: Session)
    | PutTarget(id: string, target: string)
    | AuditCreated(id: string, stored: bool)
    | DropTarget(id: string)
    | CloseFailed(id: string, at: string, stored: bool)
    | Consume(id: string, hash: string, now: Instant)
    | Take(id: string)
    | CloseOpened(id: string, outcome: Outcome, at: string, stored: bool)
    | Restart

  ghost predicate Possible(s: State, step: Step) {
    match step
    case Insert(row) => row.outcome.Pending? && row.openedAt.None? && row.closedAt.None? && Created(s.rows, row).Ok?
    case PutTarget(id, _) => id in s.creating && s.creating[id].Inserted?
    case AuditCreated(id, _) => id in s.creating && s.creating[id].TargetPut?
    case DropTarget(id) => id in s.creating && s.creating[id].Dropping?
    case CloseFailed(id, _, _) => id in s.creating && s.creating[id].Failing?
    case Consume(id, hash, now) => Consumes(s.rows, hash, now, id)
    case Take(id) => id in s.opening && s.opening[id].Consumed?
    case CloseOpened(id, outcome, _, _) =>
      id in s.opening && IsFinal(outcome) && (s.opening[id].Serving? || (s.opening[id].Missing? && outcome.Failed?))
    case Restart => true
  }

  /** Close, whose error is discarded. */
  function CloseRow(rows: Table, id: string, outcome: Outcome, at: string, stored: bool): Table {
    var closed := Closed(rows, id, outcome, at);
    if stored && closed.Ok? then closed.value else rows
  }

  ghost function Apply(s: State, step: Step): State {
    if !Possible(s, step) then s
    else match step
      case Insert(row) => s.(rows := s.rows[row.id := row], creating := s.creating[row.id := Inserted])
      case PutTarget(id, target) => s.(targets := s.targets[id := target], creating := s.creating[id := TargetPut])
      case AuditCreated(id, stored) => s.(creating := s.creating[id := if stored then CreateOver else Dropping])
      case DropTarget(id) => s.(targets := s.targets - {id}, creating := s.creating[id := Failing])
      case CloseFailed(id, at, stored) => s.(rows := CloseRow(s.rows, id, Failed, at, stored), creating := s.creating[id := CreateOver])
      case Consume(id, _, at) => s.(rows := s.rows[id := Opened(s.rows[id], at)], opening := s.opening[id := Consumed])
      case Take(id) =>
        if id in s.targets then
          s.(targets := s.targets - {id}, opening := s.opening[id := Serving], delivered := s.delivered + [(id, s.targets[id])])
        else s.(opening := s.opening[id := Missing])
      case CloseOpened(id, outcome, at, stored) => s.(rows := CloseRow(s.rows, id, outcome, at, stored), opening := s.opening[id := OpenOver])
      case Restart =>
        s.(targets := map[], creating := map id | id in s.creating :: CreateOver, opening := map id | id in s.opening :: OpenOver)
  }

  ghost function After(steps: seq<Step>): State {
    if steps == [] then INITIAL else Apply(After(steps[..|steps| - 1]), steps[|steps| - 1])
  }

  predicate CreatingOk(rows: Table, creating: map<string, Creating>, targets: map<string, string>) {
    && (forall id :: id in creating ==> id in rows)
    && (forall id :: id in targets ==> id in creating && !creating[id].Inserted?)
  }

  ghost predicate OpeningOk(rows: Table, opening: map<string, Opening>) {
    forall id :: id in opening <==> id in rows && rows[id].openedAt.Some?
  }

  predicate DeliveredOk(opening: map<string, Opening>, delivered: seq<(string, string)>) {
    && (forall i :: 0 <= i < |delivered| ==> delivered[i].0 in opening && !opening[delivered[i].0].Consumed?)
    && (forall i, j :: 0 <= i < j < |delivered| ==> delivered[i].0 != delivered[j].0)
  }

  ghost predicate RunInv(s: State) {
    && Inv(s.rows) && CreatingOk(s.rows, s.creating, s.targets)
    && OpeningOk(s.rows, s.opening) && DeliveredOk(s.opening, s.delivered)
  }

  lemma CloseKeepsInv(rows: Table, id: string, outcome: Outcome, at: string, stored: bool)
    requires Inv(rows) && IsFinal(outcome)
    ensures Inv(CloseRow(rows, id, outcome, at, stored)) && CloseRow(rows, id, outcome, at, stored).Keys == rows.Keys
    ensures forall k :: k in rows ==> CloseRow(rows, id, outcome, at, stored)[k].openedAt == rows[k].openedAt
    ensures forall k :: k in rows && rows[k].closedAt.Some? ==> CloseRow(rows, id, outcome, at, stored)[k] == rows[k]
  {
  }

  lemma ConsumeKeepsInv(rows: Table, hash: string, now: Instant, id: string)
    requires Inv(rows) && Consumes(rows, hash, now, id)
    ensures id in rows && rows[id].openedAt.None? && rows[id].id == id && Inv(rows[id := Opened(rows[id], now)])
  {
    hide Readable, TimeValue;
  }

  lemma CreatingKeepsInv(s: State, step: Step)
    requires RunInv(s) && Possible(s, step)
    requires step.PutTarget? || step.AuditCreated? || step.DropTarget?
    ensures RunInv(Apply(s, step))
  {
    hide Inv, OpeningOk, DeliveredOk;
  }

  /** A request that opens a new session, or ends, delivers nothing more. */
  lemma StageKeepsDelivered(opening: map<string, Opening>, delivered: seq<(string, string)>, id: string, stage: Opening)
    requires DeliveredOk(opening, delivered) && (id !in opening || !stage.Consumed?)
    ensures DeliveredOk(opening[id := stage], delivered)
  {
  }

  lemma OpenKeepsRows(rows: Table, creating: map<string, Creating>, targets: map<string, string>,
                      opening: map<string, Opening>, id: string, now: Instant)
    requires CreatingOk(rows, creating, targets) && OpeningOk(rows, opening) && id in rows
    ensures CreatingOk(rows[id := Opened(rows[id], now)], creating, targets)
    ensures OpeningOk(rows[id := Opened(rows[id], now)], opening[id := Consumed])
    ensures rows[id].openedAt.None? ==> id !in opening
  {
    hide TimeValue;
  }

  lemma ClosedKeepsRows(rows: Table, after: Table, creating: map<string, Creating>, targets: map<string, string>,
                        opening: map<string, Opening>)
    requires CreatingOk(rows, creating, targets) && OpeningOk(rows, opening)
    requires after.Keys == rows.Keys && forall k :: k in rows ==> after[k].openedAt == rows[k].openedAt
    ensures CreatingOk(after, creating, targets) && OpeningOk(after, opening)
  {
  }

  lemma StageKeepsOpening(rows: Table, opening: map<string, Opening>, id: string, stage: Opening)
    requires OpeningOk(rows, opening) && id in opening
    ensures OpeningOk(rows, opening[id := stage])
  {
  }

  lemma CloseFailedKeepsRun(s: State, step: Step)
    requires RunInv(s) && Possible(s, step) && step.CloseFailed?
    ensures RunInv(Apply(s, step))
  {
    hide Inv, CloseRow, DeliveredOk, OpeningOk;
    CloseKeepsInv(s.rows, step.id, Failed, step.at, step.stored);
    ClosedKeepsRows(s.rows, CloseRow(s.rows, step.id, Failed, step.at, step.stored), s.creating, s.targets, s.opening);
  }

  lemma CloseOpenedKeepsRun(s: State, step: Step)
    requires RunInv(s) && Possible(s, step) && step.CloseOpened?
    ensures RunInv(Apply(s, step))
  {
    hide Inv, CloseRow, DeliveredOk, OpeningOk, CreatingOk;
    var rows := CloseRow(s.rows, step.id, step.outcome, step.at, step.stored);
    CloseKeepsInv(s.rows, step.id, step.outcome, step.at, step.stored);
    ClosedKeepsRows(s.rows, rows, s.creating, s.targets, s.opening);
    StageKeepsOpening(rows, s.opening, step.id, OpenOver);
    StageKeepsDelivered(s.opening, s.delivered, step.id, OpenOver);
  }

  lemma InsertKeepsInv(s: State, step: Step)
    requires RunInv(s) && Possible(s, step) && step.Insert?
    ensures RunInv(Apply(s, step))
  {
    InsertKeepsTable(s.rows, step.row);
    hide Inv, DeliveredOk, Created;
  }

  lemma InsertKeepsTable(rows: Table, row: Session)
    requires Inv(rows) && RowOk(row) && Created(rows, row).Ok?
    ensures row.id !in rows && Inv(rows[row.id := row])
  {
  }

  lemma ConsumeKeepsRun(s: State, step: Step)
    requires RunInv(s) && Possible(s, step) && step.Consume?
    ensures RunInv(Apply(s, step))
  {
    hide Inv, Consumes, TimeValue, DeliveredOk, OpeningOk, CreatingOk, Opened;
    ConsumeKeepsInv(s.rows, step.hash, step.now, step.id);
    OpenKeepsRows(s.rows, s.creating, s.targets, s.opening, step.id, step.now);
    StageKeepsDelivered(s.opening, s.delivered, step.id, Consumed);
  }

  lemma RestartKeepsInv(s: State)
    requires RunInv(s)
    ensures RunInv(Apply(s, Restart))
  {
    hide Inv;
  }

  lemma TakeKeepsInv(s: State, step: Step)
    requires RunInv(s) && Possible(s, step) && step.Take?
    ensures RunInv(Apply(s, step))
  {
    hide Inv;
  }

  lemma StepKeepsInv(s: State, step: Step)
    requires RunInv(s)
    ensures RunInv(Apply(s, step))
  {
    if !Possible(s, step) {
      hide RunInv;
    } else {
      hide RunInv, Possible, Apply;
      match step {
        case Insert(_) => InsertKeepsInv(s, step);
        case Take(_) => TakeKeepsInv(s, step);
        case Consume(_, _, _) => ConsumeKeepsRun(s, step);
        case CloseFailed(_, _, _) => CloseFailedKeepsRun(s, step);
        case CloseOpened(_, _, _, _) => CloseOpenedKeepsRun(s, step);
        case Restart => RestartKeepsInv(s);
        case _ => CreatingKeepsInv(s, step);
      }
    }
  }

  lemma {:induction false} AlwaysInv(steps: seq<Step>)
    ensures RunInv(After(steps))
  {
    hide Apply;
    if steps != [] {
      AlwaysInv(steps[..|steps| - 1]);
      StepKeepsInv(After(steps[..|steps| - 1]), steps[|steps| - 1]);
    }
  }

  // ----- results

  /** No target is delivered twice, and none without its ticket having been opened. */
  lemma DeliveredOnce(steps: seq<Step>, i: nat, j: nat)
    requires i < j < |After(steps).delivered|
    ensures After(steps).delivered[i].0 != After(steps).delivered[j].0
    ensures
      var id := After(steps).delivered[i].0;
      id in After(steps).rows && After(steps).rows[id].openedAt.Some?
  {
    AlwaysInv(steps);
    hide After, Inv;
  }

  /** The result of every row says how far it got. */
  lemma OutcomesAreRight(steps: seq<Step>, id: string)
    requires id in After(steps).rows
    ensures
      var row := After(steps).rows[id];
      && (row.outcome.Pending? <==> row.openedAt.None? && row.closedAt.None?)
      && (row.outcome.Active? <==> row.openedAt.Some? && row.closedAt.None?)
  {
    AlwaysInv(steps);
    hide After;
  }

  /** What a later row keeps: its ticket and expiry for ever, its opening once opened,
      everything once closed. */
  predicate Continues(a: Session, b: Session) {
    && b.id == a.id && b.ticketHash == a.ticketHash && b.expiresAt == a.expiresAt && b.createdAt == a.createdAt
    && (a.openedAt.Some? ==> b.openedAt == a.openedAt)
    && (a.closedAt.Some? ==> b == a)
  }

  lemma CloseContinues(rows: Table, id: string, outcome: Outcome, at: string, stored: bool, k: string)
    requires k in rows
    ensures k in CloseRow(rows, id, outcome, at, stored) && Continues(rows[k], CloseRow(rows, id, outcome, at, stored)[k])
  {
  }

  lemma OpenContinues(rows: Table, hash: string, now: Instant, id: string, k: string)
    requires Consumes(rows, hash, now, id) && k in rows
    ensures Continues(rows[k], rows[id := Opened(rows[id], now)][k])
  {
    hide Readable, ParseTime, LexLess, TimeValue;
  }

  lemma StepContinues(s: State, step: Step, id: string)
    requires RunInv(s) && id in s.rows
    ensures id in Apply(s, step).rows && Continues(s.rows[id], Apply(s, step).rows[id])
  {
    if Possible(s, step) {
      match step {
        case Insert(row) => InsertKeepsTable(s.rows, row);
        case CloseFailed(other, at, stored) => CloseContinues(s.rows, other, Failed, at, stored, id);
        case CloseOpened(other, outcome, at, stored) => CloseContinues(s.rows, other, outcome, at, stored, id);
        case Consume(other, hash, now) => OpenContinues(s.rows, hash, now, other, id);
        case _ =>
      }
    }
    hide Consumes, Opened, CloseRow, Created, CreatingOk, OpeningOk, DeliveredOk, Inv;
  }

  lemma {:induction false} RowsContinue(steps: seq<Step>, more: seq<Step>, id: string)
    requires id in After(steps).rows
    ensures id in After(steps + more).rows && Continues(After(steps).rows[id], After(steps + more).rows[id])
    decreases |more|
  {
    hide Apply, RunInv, Possible;
    if more == [] {
      assert steps + more == steps;
    } else {
      var before := steps + more[..|more| - 1];
      RowsContinue(steps, more[..|more| - 1], id);
      assert (steps + more)[..|steps + more| - 1] == before;
      AlwaysInv(before);
      StepContinues(After(before), more[|more| - 1], id);
      hide After;
    }
  }

  /** A ticket opens at most once: after the run in which it opened, no consumption of its
      hash, or of any hash for its row, is possible again. */
  lemma OpensAtMostOnce(steps: seq<Step>, more: seq<Step>, id: string, hash: string, now: Instant)
    requires id in After(steps).rows && After(steps).rows[id].openedAt.Some?
    ensures !Possible(After(steps + more), Consume(id, hash, now))
  {
    RowsContinue(steps, more, id);
    hide After, Readable, TimeValue;
  }

  /** A row is opened only by a step that found the ticket unexpired. */
  lemma {:induction false} OpenedBeforeExpiry(steps: seq<Step>, id: string)
    requires id in After(steps).rows && After(steps).rows[id].openedAt.Some?
    ensures exists now: Instant ::
      After(steps).rows[id].openedAt == Some(TimeValue(now)) && InTime(After(steps).rows[id].expiresAt, now)
  {
    if steps != [] {
      var before, step := After(steps[..|steps| - 1]), steps[|steps| - 1];
      if id in before.rows {
        AlwaysInv(steps[..|steps| - 1]);
        StepContinues(before, step, id);
        if before.rows[id].openedAt.Some? {
          OpenedBeforeExpiry(steps[..|steps| - 1], id);
        } else {
          OpenedNow(before, step, id);
        }
        hide Apply, RunInv, TimeValue;
      } else {
        hide TimeValue;
      }
    }
  }

  lemma OpenedNow(s: State, step: Step, id: string)
    requires id in s.rows && s.rows[id].openedAt.None?
    requires id in Apply(s, step).rows && Apply(s, step).rows[id].openedAt.Some?
    ensures exists now: Instant ::
      Apply(s, step).rows[id].openedAt == Some(TimeValue(now)) && InTime(Apply(s, step).rows[id].expiresAt, now)
  {
    hide TimeValue, ParseTime, LexLess;
    assert step.Consume? && step.id == id && Opens(s.rows[id], step.now);
    OpensInTime(s.rows[id], step.now);
  }

  lemma OpensInTime(row: Session, now: Instant)
    requires Opens(row, now)
    ensures InTime(row.expiresAt, now)
  {
    hide TimeValue, ParseTime, LexLess;
  }

  /** Both tests of the consumption. */
  predicate InTime(expiresAt: string, now: Instant) {
    ParseTime(expiresAt).Some? && now < ParseTime(expiresAt).value && LexLess(TimeValue(now), expiresAt)
  }
}
