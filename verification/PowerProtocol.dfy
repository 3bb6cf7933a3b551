/** The durable power-operation protocol: HTTP requests, the job worker and the executor
    as atomic steps over the `operations` and `jobs` tables.  A label names one step and
    carries every outcome the program does not choose, failing statements included; a step
    that is not possible in a state changes nothing, so every sequence of labels is a run. */
module PowerProtocol {
  import opened Wrappers
  import P = Providers
  import O = Operations
  import J = Jobs

  /** worker.go's default owner; the application builds one worker. */
  const WORKER := "worker"

  // ----- Service.Request

  datatype Server = Server(id: string, connectionId: string, state: P.ServerState, capabilities: P.Capabilities)

  datatype Request = Request(action: O.Action, key: string)

  /** `Forsaken`: the request reported an error, but its compensating transition failed too. */
  datatype Stage = Created | Enqueued | Undoing | Replied(ok: bool) | Forsaken | Killed

  /** One call of Request.  `Owner` is the call that inserted operation `id`; the flag
      records that its job was inserted too. */
  datatype Client =
    | Admitted(request: Request, operation: O.Operation)
    | Owner(request: Request, id: string, enqueued: bool, stage: Stage)
    | Answered(request: Request, found: Option<string>)
    | Dead(request: Request)

  // ----- Worker.RunOnce and Executor.Execute

  datatype Lease = Lease(job: string, kind: J.Kind, payload: string, attempts: nat, maxAttempts: int)

  /** What Handle returned: nil, an error, or a stray error: a failed statement ended Execute
      before it could close the row, and `error` is all that Handle's own error can be
      classified by.  `unrecorded` is set if the statement was the move to verifying. */
  datatype Outcome = Done | Failed(error: P.Error) | Stray(error: P.Error, unrecorded: bool)

  /** Where the worker is.  `op` is the executor's local copy of the operation row. */
  datatype Worker =
    | Idle
    | Entered(lease: Lease)
    | Starting(lease: Lease, op: O.Operation)
    | Preparing(lease: Lease, op: O.Operation)
    | Acting(lease: Lease, op: O.Operation)
    | Recording(lease: Lease, op: O.Operation, requestId: string)
    | Polling(lease: Lease, op: O.Operation)
    | TimingOut(lease: Lease, op: O.Operation)
    | Storing(lease: Lease, op: O.Operation, seen: P.ServerState)
    | Succeeding(lease: Lease, op: O.Operation, seen: P.ServerState)
    | Failing(lease: Lease, op: O.Operation, error: P.Error)
    | MarkingFailed(lease: Lease, op: O.Operation, error: P.Error)
    | Auditing(lease: Lease, outcome: Outcome)
    | Ending(lease: Lease, outcome: Outcome)

  /** executeProviderAction. */
  datatype Call = StartServer | StopServer | RebootServer

  function CallFor(action: O.Action): Call {
    match action
    case Start => StartServer
    case Stop => StopServer
    case Reboot => RebootServer
  }

  /** History, for stating what a run did. */
  datatype Event =
    | Issued(job: string, attempt: nat)
    | Accepted(id: string)
    | AcceptanceLost(id: string)
    | Observed(id: string, state: P.ServerState)
    | Stored(id: string, state: P.ServerState)
    | Succeeded(id: string)
    | Abandoned(id: string)
    | Crashed(job: string)

  /** The two tables, every request, the worker, and history: who created an operation,
      which job it was queued as, and the events so far. */
  datatype State = State(
    ops: O.Table, jobs: J.Table, clients: map<nat, Client>, worker: Worker,
    creator: map<string, nat>, queuedAs: map<string, string>, log: seq<Event>)

  const INITIAL := State(map[], map[], map[], Idle, map[], map[], [])

  datatype Label =
    | Look(client: nat, request: Request, server: Option<Server>, newId: string, now: string)
    | Create(client: nat)
    | Enqueue(client: nat, jobId: string, maxAttempts: int, now: string, stored: bool)
    | AuditRequest(client: nat, stored: bool)
    | Undo(client: nat, now: string)
    | Kill(client: nat)
    | RequestFails(client: nat, request: Request)
    | EnqueueSync(jobId: string, connectionId: string, maxAttempts: int, now: string)
    | LeaseJob(id: string, now: string, expires: string)
    | HandleSync(error: Option<P.Error>)
    | FindOperation
    | MarkRunning(now: string)
    | Prepare(reading: Result<P.ServerState, P.Error>)
    | Act(call: Call, receipt: Result<string, P.Error>)
    | Record(now: string)
    | Poll(reading: Result<P.ServerState, P.Error>, expired: bool)
    | MarkTimedOut(now: string)
    | StoreRemote(stored: bool)
    | MarkSucceeded(now: string)
    | LookAgain
    | MarkFailed(now: string)
    | AppendAudit(stored: bool)
    | StatementFails
    | EndJob(at: string, message: string)
    | Crash

  // ----- request steps

  function NewOperation(id: string, server: Server, request: Request, now: string): O.Operation {
    O.Operation(id, server.id, server.connectionId, request.action, O.Queued, request.key, true,
                "", "", "", now, None, None, now)
  }

  /** The key lookup and, on a miss, the state and capability checks. */
  ghost function LookStep(s: State, l: Label): Client
    requires l.Look?
  {
    var existing := O.FindByKey(s.ops, l.request.key);
    if existing.Some? then Answered(l.request, Some(existing.value.id))
    else if l.server.None? then Answered(l.request, None)
    else if !O.StateAllows(l.server.value.state, l.request.action) then Answered(l.request, None)
    else if !O.CapabilityFor(l.server.value.capabilities, l.request.action) then Answered(l.request, None)
    else Admitted(l.request, NewOperation(l.newId, l.server.value, l.request, l.now))
  }

  ghost function CreateStep(s: State, c: nat): State
    requires c in s.clients && s.clients[c].Admitted?
  {
    var Admitted(request, operation) := s.clients[c];
    var (ops, r) := O.QueuedInsert(s.ops, operation);
    if r.Err? then s.(clients := s.clients[c := Answered(request, None)])
    else if !r.value.1 then s.(clients := s.clients[c := Answered(request, Some(r.value.0.id))])
    else s.(ops := ops, clients := s.clients[c := Owner(request, operation.id, false, Created)],
            creator := s.creator[operation.id := c])
  }

  function EnqueueStep(s: State, l: Label): State
    requires l.Enqueue? && l.client in s.clients && s.clients[l.client].Owner?
  {
    var owner := s.clients[l.client];
    var r := J.Inserted(s.jobs, l.jobId, J.InitialRow(J.PowerOperation, owner.id, l.maxAttempts, l.now));
    if l.stored && r.Ok? then
      s.(jobs := r.value, queuedAs := s.queuedAs[owner.id := l.jobId],
         clients := s.clients[l.client := owner.(enqueued := true, stage := Enqueued)])
    else s.(clients := s.clients[l.client := owner.(stage := Undoing)])
  }

  /** What the compensating transition records. */
  function Compensation(enqueued: bool, now: string): O.Change {
    if enqueued then O.Change(now, "", "audit_failed", "Unable to record operation audit event")
    else O.Change(now, "", "queue_failed", "Unable to queue power operation")
  }

  function UndoStep(s: State, c: nat, now: string): State
    requires c in s.clients && s.clients[c].Owner?
  {
    var owner := s.clients[c];
    s.(ops := O.MoveRow(s.ops, owner.id, O.Failed, Compensation(owner.enqueued, now)).0,
       clients := s.clients[c := owner.(stage := Replied(false))])
  }

  predicate AtStage(s: State, c: nat, stage: Stage) {
    c in s.clients && s.clients[c].Owner? && s.clients[c].stage == stage
  }

  /** Request calls still running. */
  predicate InFlight(client: Client) {
    client.Admitted? || (client.Owner? && !client.stage.Replied? && !client.stage.Forsaken? && !client.stage.Killed?)
  }

  /** A call whose lookup, insert or compensating transition can fail next. */
  predicate MayFail(s: State, c: nat) {
    c in s.clients ==> s.clients[c].Admitted? || AtStage(s, c, Undoing)
  }

  /** The statement fails: nothing is stored and the caller gets an error, except that the
      error of the compensating transition is discarded in favour of the first one. */
  function FailingRequest(s: State, l: Label): Client
    requires l.RequestFails? && MayFail(s, l.client)
  {
    if l.client !in s.clients then Answered(l.request, None)
    else if s.clients[l.client].Admitted? then Answered(s.clients[l.client].request, None)
    else s.clients[l.client].(stage := Forsaken)
  }

  /** EnqueueConnectionSync, which shares the jobs table and the worker. */
  function EnqueueSyncStep(s: State, l: Label): State
    requires l.EnqueueSync?
  {
    var r := J.Inserted(s.jobs, l.jobId, J.InitialRow(J.SyncConnection, l.connectionId, l.maxAttempts, l.now));
    if r.Ok? then s.(jobs := r.value) else s
  }

  function Killing(client: Client): Client
    requires InFlight(client)
  {
    if client.Owner? then client.(stage := Killed) else Dead(client.request)
  }

  // ----- worker steps

  predicate HasCopy(worker: Worker) {
    !worker.Idle? && !worker.Entered? && !worker.Auditing? && !worker.Ending?
  }

  /** The worker has not yet issued the write of its lease. */
  predicate BeforeWrite(worker: Worker) {
    worker.Entered? || worker.Starting? || worker.Preparing? || worker.Acting?
  }

  function OutcomeOf(worker: Worker): Outcome {
    if worker.Auditing? || worker.Ending? then worker.outcome else Done
  }

  function Reading(s: State, reading: Result<P.ServerState, P.Error>): seq<Event>
    requires HasCopy(s.worker)
  {
    if reading.Ok? then [Observed(s.worker.op.id, reading.value)] else []
  }

  function Acted(s: State, receipt: Result<string, P.Error>): seq<Event>
    requires HasCopy(s.worker)
  {
    [Issued(s.worker.lease.job, s.worker.lease.attempts)] + if receipt.Ok? then [Accepted(s.worker.op.id)] else []
  }

  /** The operation whose accepted write is not recorded and will not be if the worker dies. */
  function Pending(worker: Worker): Option<string> {
    if worker.Recording? then Some(worker.op.id)
    else if worker.Ending? && worker.outcome.Stray? && worker.outcome.unrecorded then Some(worker.lease.payload)
    else None
  }

  function CrashEvents(s: State): seq<Event>
    requires !s.worker.Idle?
  {
    [Crashed(s.worker.lease.job)] + if Pending(s.worker).Some? then [AcceptanceLost(Pending(s.worker).value)] else []
  }

  /** An executor step changes at most the row of the operation it works on, appends to
      the history and moves the worker. */
  ghost predicate OnlyMoves(s: State, t: State) {
    && t == s.(ops := t.ops, worker := t.worker, log := t.log) && s.log <= t.log
    && (forall id :: id in s.ops ==>
          id in t.ops && (t.ops[id] == s.ops[id] || (HasCopy(s.worker) && s.worker.op.id == id)))
    && (forall id :: Abandoned(id) in t.log ==> Abandoned(id) in s.log)
    && (!t.worker.Idle? ==> !s.worker.Idle? && t.worker.lease == s.worker.lease)
    && (BeforeWrite(t.worker) ==> BeforeWrite(s.worker))
    && (t.worker.Recording? ==> s.worker.Acting?)
  }

  /** No statement failed in this step. */
  ghost predicate NotAstray(s: State, t: State) {
    OutcomeOf(t.worker).Stray? ==> OutcomeOf(s.worker).Stray?
  }

  function LeaseStep(s: State, l: Label): State
    requires l.LeaseJob? && l.id in s.jobs
  {
    var jobs := J.Leased(s.jobs, l.id, WORKER, l.now, l.expires);
    var job := jobs[l.id];
    s.(jobs := jobs, worker := Entered(Lease(l.id, job.kind, job.payload, job.attempts, job.maxAttempts)))
  }

  function FindWorker(s: State, lease: Lease): Worker {
    if lease.payload !in s.ops then Ending(lease, Failed(P.LOCAL))
    else
      var op := s.ops[lease.payload];
      if O.Terminal(op.status) then Ending(lease, Done)
      else if op.status.Queued? then Starting(lease, op)
      else Preparing(lease, op)
  }

  ghost function FindStep(s: State): (t: State)
    requires s.worker.Entered?
    ensures OnlyMoves(s, t) && t.ops == s.ops && NotAstray(s, t)
    ensures t.log == s.log
  {
    s.(worker := FindWorker(s, s.worker.lease))
  }

  /** finishError's first test. */
  function FinishError(lease: Lease, op: O.Operation, error: P.Error): Worker {
    if P.Retryable(error) && lease.attempts < lease.maxAttempts then Ending(lease, Failed(error))
    else Failing(lease, op, error)
  }

  ghost function RunStep(s: State, now: string): (t: State)
    requires s.worker.Starting?
    ensures OnlyMoves(s, t) && NotAstray(s, t)
    ensures t.log == s.log
  {
    var Starting(lease, op) := s.worker;
    var (ops, r) := O.MoveRow(s.ops, op.id, O.Running, O.Change(now, "", "", ""));
    s.(ops := ops, worker := if r.Ok? then Preparing(lease, r.value) else Ending(lease, Failed(P.LOCAL)))
  }

  ghost function PrepareStep(s: State, reading: Result<P.ServerState, P.Error>): (t: State)
    requires s.worker.Preparing?
    ensures OnlyMoves(s, t) && t.ops == s.ops && NotAstray(s, t)
    ensures t.log == s.log + Reading(s, reading)
  {
    var Preparing(lease, op) := s.worker;
    assert s.log + [] == s.log;
    if reading.Err? then s.(worker := FinishError(lease, op, reading.error))
    else s.(log := s.log + [Observed(op.id, reading.value)],
            worker := if O.ActionAlreadySatisfied(op.action, reading.value) then Storing(lease, op, reading.value)
                      else if !op.status.Verifying? then Acting(lease, op)
                      else Polling(lease, op))
  }

  ghost function ActStep(s: State, receipt: Result<string, P.Error>): (t: State)
    requires s.worker.Acting?
    ensures OnlyMoves(s, t) && t.ops == s.ops && NotAstray(s, t)
    ensures t.log == s.log + Acted(s, receipt)
  {
    var Acting(lease, op) := s.worker;
    s.(log := s.log + Acted(s, receipt),
       worker := if receipt.Err? then FinishError(lease, op, receipt.error) else Recording(lease, op, receipt.value))
  }

  ghost function RecordStep(s: State, now: string): (t: State)
    requires s.worker.Recording?
    ensures OnlyMoves(s, t) && NotAstray(s, t)
    ensures t.log == s.log
  {
    var Recording(lease, op, requestId) := s.worker;
    var (ops, r) := O.MoveRow(s.ops, op.id, O.Verifying, O.Change(now, requestId, "", ""));
    s.(ops := ops, worker := if r.Ok? then Polling(lease, r.value) else Ending(lease, Failed(P.LOCAL)))
  }

  ghost function PollStep(s: State, reading: Result<P.ServerState, P.Error>, expired: bool): (t: State)
    requires s.worker.Polling?
    ensures OnlyMoves(s, t) && t.ops == s.ops && NotAstray(s, t)
    ensures t.log == s.log + Reading(s, reading)
  {
    var Polling(lease, op) := s.worker;
    assert s.log + [] == s.log;
    if reading.Err? then s.(worker := FinishError(lease, op, reading.error))
    else s.(log := s.log + [Observed(op.id, reading.value)],
            worker := if O.VerificationTargetReached(op.action, reading.value) then Storing(lease, op, reading.value)
                      else if expired then TimingOut(lease, op)
                      else s.worker)
  }

  ghost function StoreStep(s: State, stored: bool): (t: State)
    requires s.worker.Storing?
    ensures OnlyMoves(s, t) && t.ops == s.ops && (stored ==> NotAstray(s, t))
    ensures t.log == s.log + (if stored then [Stored(s.worker.op.id, s.worker.seen)] else [])
  {
    var Storing(lease, op, seen) := s.worker;
    assert s.log + [] == s.log;
    if stored then s.(log := s.log + [Stored(op.id, seen)], worker := Succeeding(lease, op, seen))
    else s.(worker := Ending(lease, Stray(P.LOCAL, false)))
  }

  ghost function SucceedStep(s: State, now: string): (t: State)
    requires s.worker.Succeeding?
    ensures OnlyMoves(s, t) && NotAstray(s, t)
    ensures t.log == s.log + (if t.worker.Auditing? then [Succeeded(s.worker.op.id)] else [])
  {
    var Succeeding(lease, op, seen) := s.worker;
    var (ops, r) := O.MoveRow(s.ops, op.id, O.Succeeded, O.Change(now, "", "", ""));
    assert s.log + [] == s.log;
    if r.Ok? then s.(ops := ops, log := s.log + [Succeeded(op.id)], worker := Auditing(lease, Done))
    else s.(worker := Ending(lease, Failed(P.LOCAL)))
  }

  ghost function LookAgainStep(s: State): (t: State)
    requires s.worker.Failing?
    ensures OnlyMoves(s, t) && t.ops == s.ops && NotAstray(s, t)
    ensures t.log == s.log
  {
    var Failing(lease, op, error) := s.worker;
    s.(worker := if op.id !in s.ops || O.Terminal(s.ops[op.id].status) then Ending(lease, Failed(error))
                 else MarkingFailed(lease, op, error))
  }

  function AuditOutcome(outcome: Outcome, stored: bool): Outcome {
    if stored || outcome.Failed? then outcome else Failed(P.LOCAL)
  }

  /** Complete, Retry or Fail.  If that statement fails, RunOnce returns the error and the
      program stops: the Crash step. */
  function EndedJobs(s: State, at: string, message: string): Result<J.Table, J.Error>
    requires s.worker.Ending?
  {
    var Ending(lease, outcome) := s.worker;
    match outcome
    case Done => J.Ended(s.jobs, lease.job, WORKER, J.Succeeded, at, "")
    case Failed(error) =>
      if P.Retryable(error) then J.Retried(s.jobs, lease.job, WORKER, at, message)
      else J.Ended(s.jobs, lease.job, WORKER, J.Failed, at, message)
    case Stray(error, _) =>
      if P.Retryable(error) then J.Retried(s.jobs, lease.job, WORKER, at, message)
      else J.Ended(s.jobs, lease.job, WORKER, J.Failed, at, message)
  }

  function EndStep(s: State, at: string, message: string): State
    requires s.worker.Ending?
  {
    var r := EndedJobs(s, at, message);
    s.(jobs := if r.Ok? then r.value else s.jobs, worker := Idle,
       log := if r.Ok? && s.worker.outcome.Stray? then s.log + [Abandoned(s.worker.lease.payload)] else s.log)
  }

  /** A statement of Execute other than the reads before the write, the inventory write and
      the audit append can fail in these states. */
  predicate StatementDue(worker: Worker) {
    || (worker.Entered? && worker.lease.kind.PowerOperation?)
    || worker.Starting? || worker.Recording? || worker.TimingOut? || worker.Succeeding?
    || worker.Failing? || worker.MarkingFailed?
  }

  /** The statement changed nothing.  Its error is returned raw, or joined onto the one that
      finishError was given, which then still classifies it. */
  ghost function FaultStep(s: State): (t: State)
    requires StatementDue(s.worker)
    ensures OnlyMoves(s, t) && t.ops == s.ops
    ensures t.log == s.log
  {
    var error := if s.worker.Failing? || s.worker.MarkingFailed? then s.worker.error else P.LOCAL;
    s.(worker := Ending(s.worker.lease, Stray(error, s.worker.Recording?)))
  }

  ghost function CrashStep(s: State): (t: State)
    requires !s.worker.Idle?
    ensures OnlyMoves(s, t) && t.ops == s.ops && NotAstray(s, t)
    ensures t.log == s.log + CrashEvents(s)
  {
    s.(worker := Idle, log := s.log + CrashEvents(s))
  }

  ghost function SyncStep(s: State, error: Option<P.Error>): (t: State)
    requires !s.worker.Idle?
    ensures OnlyMoves(s, t) && t.ops == s.ops && NotAstray(s, t)
    ensures t.log == s.log
  {
    s.(worker := Ending(s.worker.lease, if error.None? then Done else Failed(error.value)))
  }

  ghost function TimeOutStep(s: State, now: string): (t: State)
    requires s.worker.TimingOut?
    ensures OnlyMoves(s, t) && NotAstray(s, t)
    ensures t.log == s.log
  {
    var TimingOut(lease, op) := s.worker;
    var change := O.Change(now, "", "operation_timeout", "Provider state verification timed out");
    var (ops, r) := O.MoveRow(s.ops, op.id, O.TimedOut, change);
    s.(ops := ops, worker := if r.Ok? then Auditing(lease, Done) else Ending(lease, Failed(P.LOCAL)))
  }

  ghost function FailStep(s: State, now: string): (t: State)
    requires s.worker.MarkingFailed?
    ensures OnlyMoves(s, t) && NotAstray(s, t)
    ensures t.log == s.log
  {
    var MarkingFailed(lease, op, error) := s.worker;
    var (ops, r) := O.MoveRow(s.ops, op.id, O.Failed, O.Change(now, "", error.code, error.message));
    s.(ops := ops, worker := if r.Ok? then Auditing(lease, Failed(error)) else Ending(lease, Failed(error)))
  }

  ghost function AuditStep(s: State, stored: bool): (t: State)
    requires s.worker.Auditing?
    ensures OnlyMoves(s, t) && t.ops == s.ops && NotAstray(s, t)
    ensures t.log == s.log
  {
    s.(worker := Ending(s.worker.lease, AuditOutcome(s.worker.outcome, stored)))
  }

  // ----- the machine

  /** Steps of Request. */
  predicate HasClient(l: Label) {
    l.Look? || l.Create? || l.Enqueue? || l.AuditRequest? || l.Undo? || l.Kill? || l.RequestFails?
  }

  /** Steps of HTTP requests; the others are the worker's. */
  predicate IsRequestStep(l: Label) {
    HasClient(l) || l.EnqueueSync?
  }

  /** Steps in which a statement fails that is neither a job insert nor an audit append. */
  predicate Fault(l: Label) {
    l == StoreRemote(false) || l.StatementFails? || l.RequestFails?
  }

  ghost predicate RequestPossible(s: State, l: Label)
    requires IsRequestStep(l)
  {
    match l
    case Look(client, _, _, _, _) => client !in s.clients
    case Create(client) => client in s.clients && s.clients[client].Admitted?
    case Enqueue(client, _, maxAttempts, _, _) => AtStage(s, client, Created) && maxAttempts >= 1
    case AuditRequest(client, _) => AtStage(s, client, Enqueued)
    case Undo(client, _) => AtStage(s, client, Undoing)
    case Kill(client) => client in s.clients && InFlight(s.clients[client])
    case RequestFails(client, _) => MayFail(s, client)
    case EnqueueSync(_, _, maxAttempts, _) => maxAttempts >= 1
  }

  ghost predicate WorkerPossible(s: State, l: Label)
    requires !IsRequestStep(l)
  {
    match l
    case LeaseJob(id, now, _) => s.worker.Idle? && J.IsNext(s.jobs, now, id)
    case HandleSync(_) => s.worker.Entered? && s.worker.lease.kind.SyncConnection?
    case FindOperation => s.worker.Entered? && s.worker.lease.kind.PowerOperation?
    case MarkRunning(_) => s.worker.Starting?
    case Prepare(_) => s.worker.Preparing?
    case Act(call, _) => s.worker.Acting? && call == CallFor(s.worker.op.action)
    case Record(_) => s.worker.Recording?
    case Poll(_, _) => s.worker.Polling?
    case MarkTimedOut(_) => s.worker.TimingOut?
    case StoreRemote(_) => s.worker.Storing?
    case MarkSucceeded(_) => s.worker.Succeeding?
    case LookAgain => s.worker.Failing?
    case MarkFailed(_) => s.worker.MarkingFailed?
    case AppendAudit(_) => s.worker.Auditing?
    case StatementFails => StatementDue(s.worker)
    case EndJob(_, _) => s.worker.Ending?
    case Crash => !s.worker.Idle?
  }

  ghost predicate Possible(s: State, l: Label) {
    if IsRequestStep(l) then RequestPossible(s, l) else WorkerPossible(s, l)
  }

  ghost function RequestEffect(s: State, l: Label): (t: State)
    requires IsRequestStep(l) && RequestPossible(s, l)
    ensures t.worker == s.worker && t.log == s.log
  {
    match l
    case Look(client, _, _, _, _) => s.(clients := s.clients[client := LookStep(s, l)])
    case Create(client) => CreateStep(s, client)
    case Enqueue(_, _, _, _, _) => EnqueueStep(s, l)
    case AuditRequest(client, stored) =>
      s.(clients := s.clients[client := s.clients[client].(stage := if stored then Replied(true) else Undoing)])
    case Undo(client, now) => UndoStep(s, client, now)
    case Kill(client) => s.(clients := s.clients[client := Killing(s.clients[client])])
    case RequestFails(client, _) => s.(clients := s.clients[client := FailingRequest(s, l)])
    case EnqueueSync(_, _, _, _) => EnqueueSyncStep(s, l)
  }

  /** Steps that run no statement on the operations table, or only read it. */
  predicate MovesNoOperation(l: Label) {
    !l.MarkRunning? && !l.Record? && !l.MarkTimedOut? && !l.MarkSucceeded? && !l.MarkFailed?
  }

  ghost function WorkerEffect(s: State, l: Label): (t: State)
    requires !IsRequestStep(l) && WorkerPossible(s, l)
    ensures t.clients == s.clients && t.creator == s.creator && t.queuedAs == s.queuedAs && s.log <= t.log
    ensures l.LeaseJob? || l.EndJob? || OnlyMoves(s, t)
    ensures t.worker.Idle? <==> l.Crash? || l.EndJob?
    ensures MovesNoOperation(l) ==> t.ops == s.ops
    ensures l.HandleSync? || l.StatementFails? || l.EndJob? ==> !BeforeWrite(t.worker) && !t.worker.Recording?
    ensures l.LeaseJob? || l.EndJob? || Fault(l) || NotAstray(s, t)
    ensures l.LeaseJob? ==> t.worker.Entered?
  {
    match l
    case LeaseJob(_, _, _) => LeaseStep(s, l)
    case HandleSync(error) => SyncStep(s, error)
    case FindOperation => FindStep(s)
    case MarkRunning(now) => RunStep(s, now)
    case Prepare(reading) => PrepareStep(s, reading)
    case Act(_, receipt) => ActStep(s, receipt)
    case Record(now) => RecordStep(s, now)
    case Poll(reading, expired) => PollStep(s, reading, expired)
    case MarkTimedOut(now) => TimeOutStep(s, now)
    case StoreRemote(stored) => StoreStep(s, stored)
    case MarkSucceeded(now) => SucceedStep(s, now)
    case LookAgain => LookAgainStep(s)
    case MarkFailed(now) => FailStep(s, now)
    case AppendAudit(stored) => AuditStep(s, stored)
    case StatementFails => FaultStep(s)
    case EndJob(at, message) => EndStep(s, at, message)
    case Crash => CrashStep(s)
  }

  ghost function Apply(s: State, l: Label): State {
    if !Possible(s, l) then s
    else if IsRequestStep(l) then RequestEffect(s, l)
    else WorkerEffect(s, l)
  }

  lemma RequestEffects(s: State, l: Label)
    requires IsRequestStep(l) && RequestPossible(s, l)
    ensures l.Create? ==> RequestEffect(s, l) == CreateStep(s, l.client)
    ensures l.Enqueue? ==> RequestEffect(s, l) == EnqueueStep(s, l)
    ensures l.Undo? ==> RequestEffect(s, l) == UndoStep(s, l.client, l.now)
    ensures l.EnqueueSync? ==> RequestEffect(s, l) == EnqueueSyncStep(s, l)
    ensures l.Look? || l.AuditRequest? || l.Kill? || l.RequestFails? ==>
      var t := RequestEffect(s, l);
      l.client in t.clients && t == s.(clients := s.clients[l.client := t.clients[l.client]])
  {
    hide LookStep, CreateStep, EnqueueStep, UndoStep, EnqueueSyncStep, FailingRequest;
  }

  lemma WorkerEffects(s: State, l: Label)
    requires !IsRequestStep(l) && WorkerPossible(s, l)
    ensures l.LeaseJob? ==> WorkerEffect(s, l) == LeaseStep(s, l)
    ensures l.HandleSync? ==> WorkerEffect(s, l) == SyncStep(s, l.error)
    ensures l.FindOperation? ==> WorkerEffect(s, l) == FindStep(s)
    ensures l.MarkRunning? ==> WorkerEffect(s, l) == RunStep(s, l.now)
    ensures l.Prepare? ==> WorkerEffect(s, l) == PrepareStep(s, l.reading)
    ensures l.Act? ==> WorkerEffect(s, l) == ActStep(s, l.receipt)
    ensures l.Record? ==> WorkerEffect(s, l) == RecordStep(s, l.now)
    ensures l.Poll? ==> WorkerEffect(s, l) == PollStep(s, l.reading, l.expired)
    ensures l.MarkTimedOut? ==> WorkerEffect(s, l) == TimeOutStep(s, l.now)
    ensures l.StoreRemote? ==> WorkerEffect(s, l) == StoreStep(s, l.stored)
    ensures l.MarkSucceeded? ==> WorkerEffect(s, l) == SucceedStep(s, l.now)
    ensures l.LookAgain? ==> WorkerEffect(s, l) == LookAgainStep(s)
    ensures l.MarkFailed? ==> WorkerEffect(s, l) == FailStep(s, l.now)
    ensures l.AppendAudit? ==> WorkerEffect(s, l) == AuditStep(s, l.stored)
    ensures l.StatementFails? ==> WorkerEffect(s, l) == FaultStep(s)
    ensures l.EndJob? ==> WorkerEffect(s, l) == EndStep(s, l.at, l.message)
    ensures l.Crash? ==> WorkerEffect(s, l) == CrashStep(s)
  {
    hide LeaseStep, SyncStep, FindStep, RunStep, PrepareStep, ActStep, RecordStep, PollStep, TimeOutStep, StoreStep,
         SucceedStep, LookAgainStep, FailStep, AuditStep, FaultStep, EndStep, CrashStep, OnlyMoves;
  }

  /** The state after a run from empty tables. */
  ghost function After(labels: seq<Label>): State {
    if labels == [] then INITIAL else Apply(After(labels[..|labels| - 1]), labels[|labels| - 1])
  }

  lemma AfterOneMore(labels: seq<Label>, l: Label)
    ensures After(labels + [l]) == Apply(After(labels), l)
  {
    assert (labels + [l])[..|labels + [l]| - 1] == labels;
  }
}
