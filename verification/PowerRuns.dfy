/** The two tables stay coupled in every run: any interleaving of requests and sync jobs
    with the one worker, any provider answers, worker crashes and killed requests at every
    point, and any failing statement. */
module PowerRuns {
  import opened Wrappers
  import O = Operations
  import J = Jobs
  import opened PowerProtocol
  import opened PowerInvariant
  import opened PowerWorkerSteps
  import opened PowerTableSteps
  import opened PowerRequestSteps

  lemma RequestKeepsInv(s: State, l: Label)
    requires Inv(s) && IsRequestStep(l) && RequestPossible(s, l)
    ensures Inv(RequestEffect(s, l))
  {
    hide Inv;
    match l
    case Look(_, _, _, _, _) => LookKeepsInv(s, l);
    case Create(client) => CreateKeepsInv(s, client);
    case Enqueue(_, _, _, _, _) => EnqueueKeepsInv(s, l);
    case AuditRequest(client, stored) => AuditRequestKeepsInv(s, client, stored);
    case Undo(client, now) => UndoKeepsInv(s, client, now);
    case Kill(client) => KillKeepsInv(s, client);
    case RequestFails(_, _) => RequestFailsKeepsInv(s, l);
    case EnqueueSync(_, _, _, _) => EnqueueSyncKeepsInv(s, l);
  }

  lemma WorkerKeepsInv(s: State, l: Label)
    requires Inv(s) && !IsRequestStep(l) && WorkerPossible(s, l)
    ensures Inv(WorkerEffect(s, l))
  {
    hide Inv;
    match l
    case LeaseJob(_, _, _) => LeaseKeepsInv(s, l);
    case HandleSync(error) => SyncKeepsInv(s, error);
    case FindOperation => FindKeepsInv(s);
    case MarkRunning(now) => RunKeepsInv(s, now);
    case Prepare(reading) => PrepareKeepsInv(s, reading);
    case Act(_, receipt) => ActKeepsInv(s, receipt);
    case Record(now) => RecordKeepsInv(s, now);
    case Poll(reading, expired) => PollKeepsInv(s, reading, expired);
    case MarkTimedOut(now) => TimeOutKeepsInv(s, now);
    case StoreRemote(stored) => StoreKeepsInv(s, stored);
    case MarkSucceeded(now) => SucceedKeepsInv(s, now);
    case LookAgain => LookAgainKeepsInv(s);
    case MarkFailed(now) => FailKeepsInv(s, now);
    case AppendAudit(stored) => AuditKeepsInv(s, stored);
    case StatementFails => FaultKeepsInv(s);
    case EndJob(at, message) => EndKeepsInv(s, at, message);
    case Crash => CrashKeepsInv(s);
  }

  lemma StepKeepsInv(s: State, l: Label)
    requires Inv(s)
    ensures Inv(Apply(s, l))
  {
    hide Inv, RequestEffect, WorkerEffect, RequestPossible, WorkerPossible;
    if Possible(s, l) {
      if IsRequestStep(l) {
        RequestKeepsInv(s, l);
      } else {
        WorkerKeepsInv(s, l);
      }
    }
  }

  lemma {:induction false} AlwaysInv(labels: seq<Label>)
    ensures Inv(After(labels))
  {
    if labels != [] {
      AlwaysInv(labels[..|labels| - 1]);
      StepKeepsInv(After(labels[..|labels| - 1]), labels[|labels| - 1]);
    }
  }

  // ----- coupling

  /** The power jobs that carry operation `id`. */
  ghost function PowerJobs(s: State, id: string): set<string> {
    set j | j in s.jobs && s.jobs[j].kind.PowerOperation? && s.jobs[j].payload == id
  }

  predicate Live(job: J.Job) {
    job.status.Queued? || job.status.Running?
  }

  /** The request that created `id`. */
  ghost predicate CreatedBy(s: State, c: nat, id: string) {
    c in s.clients && s.clients[c].Owner? && s.clients[c].id == id
  }

  /** An operation has one power job once its request inserted one, and none before; and
      an active operation's job is live unless it was ended because a statement of the
      executor failed. */
  lemma ActiveOperationHasOneJob(labels: seq<Label>, id: string)
    requires id in After(labels).ops
    ensures
      var s := After(labels);
      && id in s.creator && CreatedBy(s, s.creator[id], id)
      && (!s.clients[s.creator[id]].enqueued ==> PowerJobs(s, id) == {})
      && (s.clients[s.creator[id]].enqueued ==> exists j :: (
            && PowerJobs(s, id) == {j}
            && (!O.Terminal(s.ops[id].status) ==>
                  (s.jobs[j].status.Queued? || s.jobs[j].status.Running? <==> Abandoned(id) !in s.log))))
  {
    AlwaysInv(labels);
    var s := After(labels);
    OneJob(s, id);
  }

  lemma OneJob(s: State, id: string)
    requires Inv(s) && id in s.ops
    ensures id in s.creator && CreatedBy(s, s.creator[id], id)
    ensures s.clients[s.creator[id]].enqueued <==> id in s.queuedAs
    ensures id !in s.queuedAs ==> PowerJobs(s, id) == {}
    ensures id in s.queuedAs ==> PowerJobs(s, id) == {s.queuedAs[id]}
    ensures id in s.queuedAs && !O.Terminal(s.ops[id].status) ==>
      (Live(s.jobs[s.queuedAs[id]]) <==> Abandoned(id) !in s.log)
  {
    OwnerStage(s, s.creator[id]);
  }

  lemma {:induction false} NothingAbandoned(labels: seq<Label>)
    requires forall l :: l in labels ==> !Fault(l)
    ensures NotAbandoning(After(labels))
  {
    if labels != [] {
      var before, l := labels[..|labels| - 1], labels[|labels| - 1];
      NothingAbandoned(before);
      assert !Fault(l);
      StepAbandons(After(before), l);
    }
  }

  ghost predicate NotAbandoning(s: State) {
    !OutcomeOf(s.worker).Stray? && forall id :: Abandoned(id) !in s.log
  }

  lemma StepAbandons(s: State, l: Label)
    requires NotAbandoning(s) && !Fault(l)
    ensures NotAbandoning(Apply(s, l))
  {
    hide RequestEffect, RequestPossible;
    if !IsRequestStep(l) && WorkerPossible(s, l) {
      WorkerAbandons(s, l);
    }
  }

  lemma WorkerAbandons(s: State, l: Label)
    requires NotAbandoning(s) && !Fault(l) && !IsRequestStep(l) && WorkerPossible(s, l)
    ensures NotAbandoning(WorkerEffect(s, l))
  {
    WorkerEffects(s, l);
    hide WorkerEffect;
    if l.StoreRemote? {
      assert l == StoreRemote(true);
    }
    hide FaultStep;
  }

  /** The coupling of the two tables: in a run in which no statement fails but job inserts
      and audit appends, once a request has returned, its operation if still active has
      exactly one power job and that job is queued or running. */
  lemma TablesStayCoupled(labels: seq<Label>, id: string)
    requires forall l :: l in labels ==> l != StoreRemote(false) && !l.StatementFails? && !l.RequestFails?
    requires
      var s := After(labels);
      && id in s.ops && (s.ops[id].status.Queued? || s.ops[id].status.Running? || s.ops[id].status.Verifying?)
      && exists c, ok :: AtStage(s, c, Replied(ok)) && CreatedBy(s, c, id)
    ensures
      var s := After(labels);
      exists j :: PowerJobs(s, id) == {j} && (s.jobs[j].status.Queued? || s.jobs[j].status.Running?)
  {
    var s := After(labels);
    AlwaysInv(labels);
    NothingAbandoned(labels);
    OneJob(s, id);
    var c, ok :| AtStage(s, c, Replied(ok)) && CreatedBy(s, c, id);
    OwnerStage(s, c);
  }

  /** The executor and Retry decide "out of attempts" alike: unless a statement failed, a
      retryable failure goes back to the queue exactly when the executor left the operation
      for another attempt, and otherwise the operation is already terminal.  After a failed
      statement the job is never queued again. */
  lemma AttemptChecksAgree(labels: seq<Label>, at: string, message: string)
    requires After(labels).worker.Ending? && !After(labels).worker.outcome.Done?
    requires After(labels).worker.lease.kind.PowerOperation?
    ensures
      var s := After(labels);
      var lease, outcome := s.worker.lease, s.worker.outcome;
      var r := EndedJobs(s, at, message);
      var retries := outcome.error.classified && outcome.error.retryable && lease.attempts < lease.maxAttempts;
      && r.Ok? && lease.job in r.value && lease.payload in s.ops
      && (r.value[lease.job].status.Queued? <==> retries)
      && (r.value[lease.job].status.Failed? <==> !retries)
      && (outcome.Failed? && !retries ==> O.Terminal(s.ops[lease.payload].status))
      && (outcome.Stray? ==> !retries)
  {
    AlwaysInv(labels);
  }

  // ----- how an operation is stranded

  /** The creating request is over without having failed the operation. */
  predicate Over(client: Client) {
    client.Owner? && (client.stage == Replied(true) || client.stage.Forsaken? || client.stage.Killed?)
  }

  /** Nothing will move the operation any more: no live job, and its request is over
      without having failed it. */
  ghost predicate Stranded(s: State, id: string) {
    && id in s.ops && !O.Terminal(s.ops[id].status)
    && (forall j :: j in PowerJobs(s, id) ==> !Live(s.jobs[j]))
    && exists c :: CreatedBy(s, c, id) && Over(s.clients[c])
  }

  /** After its request is over, an active operation is stranded exactly when the request
      did not get to insert the job (it was killed, or the job insert failed and so did the
      compensating transition) or the job was ended because a statement of the executor
      failed. */
  lemma StrandedExactly(labels: seq<Label>, id: string, c: nat)
    requires id in After(labels).ops && !O.Terminal(After(labels).ops[id].status) && CreatedBy(After(labels), c, id)
    requires
      var stage := After(labels).clients[c].stage;
      stage == Replied(true) || stage.Forsaken? || stage.Killed?
    ensures
      var s := After(labels);
      Stranded(s, id) <==> !s.clients[c].enqueued || Abandoned(id) in s.log
  {
    AlwaysInv(labels);
    OneJob(After(labels), id);
    OwnerStage(After(labels), c);
  }

  /** The statement that fails is one of Execute. */
  ghost predicate ExecutorFault(s: State, l: Label) {
    (l == StoreRemote(false) || l.StatementFails?) && WorkerPossible(s, l)
  }

  /** A failing statement does that from every reachable state in which it can happen while
      the operation is active. */
  lemma FaultStrands(labels: seq<Label>, l: Label, at: string, message: string)
    requires ExecutorFault(After(labels), l)
    requires
      var s := After(labels);
      s.worker.lease.payload in s.ops ==> !O.Terminal(s.ops[s.worker.lease.payload].status)
    ensures
      var id := After(labels).worker.lease.payload;
      var s := After(labels + [l, EndJob(at, message)]);
      id in s.ops && !O.Terminal(s.ops[id].status) && Abandoned(id) in s.log
      && forall j :: j in PowerJobs(s, id) ==> !Live(s.jobs[j])
  {
    AlwaysInv(labels);
    hide Inv, Apply, ExecutorFault;
    AfterOneMore(labels, l);
    AfterOneMore(labels + [l], EndJob(at, message));
    assert labels + [l, EndJob(at, message)] == labels + [l] + [EndJob(at, message)];
    hide After;
    FaultStrandsHere(After(labels), l, at, message);
  }

  lemma FaultStrandsHere(s: State, l: Label, at: string, message: string)
    requires Inv(s) && ExecutorFault(s, l)
    requires s.worker.lease.payload in s.ops ==> !O.Terminal(s.ops[s.worker.lease.payload].status)
    ensures
      var t := Apply(Apply(s, l), EndJob(at, message));
      var id := s.worker.lease.payload;
      id in t.ops && !O.Terminal(t.ops[id].status) && Abandoned(id) in t.log
      && forall j :: j in PowerJobs(t, id) ==> !Live(t.jobs[j])
  {
    FaultAbandons(s, l, at, message);
    hide Inv, Apply, ExecutorFault;
    StepKeepsInv(s, l);
    StepKeepsInv(Apply(s, l), EndJob(at, message));
    OneJob(Apply(Apply(s, l), EndJob(at, message)), s.worker.lease.payload);
    AbandonedIsQueued(Apply(Apply(s, l), EndJob(at, message)), s.worker.lease.payload);
  }

  lemma AbandonedIsQueued(s: State, id: string)
    requires Inv(s) && Abandoned(id) in s.log
    ensures id in s.queuedAs && s.queuedAs[id] in s.jobs && J.Finished(s.jobs[s.queuedAs[id]].status)
  {
  }

  lemma FaultAbandons(s: State, l: Label, at: string, message: string)
    requires Inv(s) && ExecutorFault(s, l)
    requires s.worker.lease.payload in s.ops ==> !O.Terminal(s.ops[s.worker.lease.payload].status)
    ensures
      var t := Apply(Apply(s, l), EndJob(at, message));
      var id := s.worker.lease.payload;
      id in t.ops && !O.Terminal(t.ops[id].status) && Abandoned(id) in t.log
  {
    assert CopyOk(s) && LeaseOk(s);
    LeasedOperation(s);
    hide TablesOk, Inv;
    FaultLeads(s, l);
    hide CopyOk, ExecutorFault, LeaseOk, Apply;
    EndAbandons(Apply(s, l), at, message);
  }

  lemma FaultLeads(s: State, l: Label)
    requires CopyOk(s) && LeaseOk(s) && ExecutorFault(s, l)
    ensures
      var u := Apply(s, l);
      u.ops == s.ops && LeaseOk(u) && u.worker.Ending? && u.worker.outcome.Stray? && u.worker.lease == s.worker.lease
  {
    WorkerEffects(s, l);
    hide WorkerEffect, OnlyMoves, NotAstray;
    assert Apply(s, l) == if l.StoreRemote? then StoreStep(s, false) else FaultStep(s);
  }

  lemma EndAbandons(u: State, at: string, message: string)
    requires LeaseOk(u) && u.worker.Ending? && u.worker.outcome.Stray?
    ensures Apply(u, EndJob(at, message)).ops == u.ops
    ensures Abandoned(u.worker.lease.payload) in Apply(u, EndJob(at, message)).log
  {
    WorkerEffects(u, EndJob(at, message));
    hide WorkerEffect;
    assert Apply(u, EndJob(at, message)) == EndStep(u, at, message);
  }

  /** A step touches an operation only through its own request or the worker working on it,
      and a job only through the worker or a lease. */
  ghost predicate Untouched(s: State, t: State, id: string)
    requires id in s.creator && QueueOk(s)
  {
    && id in s.ops && id in t.ops && t.ops[id] == s.ops[id]
    && id in t.creator && t.creator[id] == s.creator[id]
    && s.creator[id] in s.clients && s.creator[id] in t.clients
    && t.clients[s.creator[id]] == s.clients[s.creator[id]]
    && (id in t.queuedAs <==> id in s.queuedAs) && (id in s.queuedAs ==> t.queuedAs[id] == s.queuedAs[id])
    && (id in s.queuedAs && J.Finished(s.jobs[s.queuedAs[id]].status) ==>
          s.queuedAs[id] in t.jobs && t.jobs[s.queuedAs[id]] == s.jobs[s.queuedAs[id]])
  }

  /** The operation's request is over and the worker is not on it. */
  ghost predicate Quiet(s: State, id: string) {
    && id in s.ops && id in s.creator && CreatedBy(s, s.creator[id], id)
    && !InFlight(s.clients[s.creator[id]])
    && !(HasCopy(s.worker) && s.worker.op.id == id)
  }

  lemma OtherOwners(s: State, id: string)
    requires Inv(s) && Quiet(s, id)
    ensures QueueOk(s)
    ensures forall c :: c in s.clients && s.clients[c].Owner? && c != s.creator[id] ==> s.clients[c].id != id
    ensures forall c :: c in s.clients && s.clients[c].Admitted? ==> c != s.creator[id]
    ensures id in s.queuedAs ==> s.queuedAs[id] in s.jobs
  {
  }

  lemma ClientTouchesOwn(s: State, t: State, c: nat, id: string)
    requires QueueOk(s) && Quiet(s, id) && c != s.creator[id]
    requires c in t.clients && t == s.(clients := s.clients[c := t.clients[c]])
    requires id in s.queuedAs ==> s.queuedAs[id] in s.jobs
    ensures Untouched(s, t, id)
  {
    hide QueueOk;
  }

  lemma EnqueueTouchesOwn(s: State, l: Label, id: string)
    requires l.Enqueue? && AtStage(s, l.client, Created) && Quiet(s, id) && l.client != s.creator[id]
    requires s.clients[l.client].id != id && QueueOk(s)
    requires id in s.queuedAs ==> s.queuedAs[id] in s.jobs
    ensures Untouched(s, EnqueueStep(s, l), id)
  {
    hide QueueOk;
  }

  lemma EnqueueSyncTouchesOwn(s: State, l: Label, id: string)
    requires l.EnqueueSync? && QueueOk(s) && Quiet(s, id)
    requires id in s.queuedAs ==> s.queuedAs[id] in s.jobs
    ensures Untouched(s, EnqueueSyncStep(s, l), id)
  {
    hide QueueOk;
  }

  lemma RequestTouchesOwn(s: State, l: Label, id: string)
    requires Inv(s) && Quiet(s, id) && IsRequestStep(l) && RequestPossible(s, l)
    ensures QueueOk(s) && Untouched(s, RequestEffect(s, l), id)
  {
    hide Inv, QueueOk, Untouched, RequestEffect, CreateStep, UndoStep, EnqueueStep, EnqueueSyncStep, LookStep, FailingRequest,
         InFlight;
    OtherOwners(s, id);
    if HasClient(l) {
      NotItsOwner(s, l, id);
    }
    RequestEffects(s, l);
    if l.Create? {
      CreateTouchesNew(s, l.client, id);
    } else if l.Enqueue? {
      EnqueueTouchesOwn(s, l, id);
    } else if l.Undo? {
      UndoTouchesOwn(s, l.client, l.now, id);
    } else if l.EnqueueSync? {
      EnqueueSyncTouchesOwn(s, l, id);
    } else {
      ClientTouchesOwn(s, RequestEffect(s, l), l.client, id);
    }
  }

  /** A request step is never one of a request that is over. */
  lemma NotItsOwner(s: State, l: Label, id: string)
    requires Quiet(s, id) && HasClient(l) && RequestPossible(s, l)
    ensures l.client != s.creator[id]
  {
  }

  lemma CreateTouchesNew(s: State, c: nat, id: string)
    requires c in s.clients && s.clients[c].Admitted? && Quiet(s, id) && c != s.creator[id] && QueueOk(s)
    requires id in s.queuedAs ==> s.queuedAs[id] in s.jobs
    ensures Untouched(s, CreateStep(s, c), id)
  {
    hide O.FindByKey, QueueOk;
  }

  lemma UndoTouchesOwn(s: State, c: nat, now: string, id: string)
    requires AtStage(s, c, Undoing) && Quiet(s, id) && c != s.creator[id] && s.clients[c].id != id && QueueOk(s)
    requires id in s.queuedAs ==> s.queuedAs[id] in s.jobs
    ensures Untouched(s, UndoStep(s, c, now), id)
  {
    hide QueueOk;
  }

  lemma JobTouchesOwn(s: State, t: State, j: string, id: string)
    requires QueueOk(s) && Quiet(s, id) && j in s.jobs && !J.Finished(s.jobs[j].status)
    requires id in s.queuedAs ==> s.queuedAs[id] in s.jobs
    requires t == s.(jobs := t.jobs, worker := t.worker, log := t.log) && t.jobs.Keys == s.jobs.Keys
    requires forall other :: other in s.jobs && other != j ==> t.jobs[other] == s.jobs[other]
    ensures Untouched(s, t, id)
  {
    hide QueueOk;
  }

  lemma MoveTouchesOwn(s: State, t: State, id: string)
    requires QueueOk(s) && Quiet(s, id) && OnlyMoves(s, t)
    requires id in s.queuedAs ==> s.queuedAs[id] in s.jobs
    ensures Untouched(s, t, id)
  {
    hide QueueOk;
  }

  lemma LeaseTouchesOne(s: State, l: Label)
    requires l.LeaseJob? && WorkerPossible(s, l)
    ensures
      var t := LeaseStep(s, l);
      && l.id in s.jobs && !J.Finished(s.jobs[l.id].status)
      && t == s.(jobs := t.jobs, worker := t.worker, log := t.log) && t.jobs.Keys == s.jobs.Keys
      && forall other :: other in s.jobs && other != l.id ==> t.jobs[other] == s.jobs[other]
  {
  }

  lemma EndTouchesOne(s: State, at: string, message: string)
    requires s.worker.Ending? && LeaseOk(s)
    ensures
      var t := EndStep(s, at, message);
      var j := s.worker.lease.job;
      && j in s.jobs && !J.Finished(s.jobs[j].status)
      && t == s.(jobs := t.jobs, worker := t.worker, log := t.log) && t.jobs.Keys == s.jobs.Keys
      && forall other :: other in s.jobs && other != j ==> t.jobs[other] == s.jobs[other]
  {
  }

  lemma WorkerTouchesOwn(s: State, l: Label, id: string)
    requires Inv(s) && Quiet(s, id) && !IsRequestStep(l) && WorkerPossible(s, l)
    ensures QueueOk(s) && Untouched(s, WorkerEffect(s, l), id)
  {
    OtherOwners(s, id);
    assert LeaseOk(s);
    WorkerEffects(s, l);
    hide Inv, QueueOk, Untouched, Quiet, OnlyMoves, LeaseStep, EndStep, LeaseOk, WorkerEffect;
    if l.LeaseJob? {
      LeaseTouchesOne(s, l);
      JobTouchesOwn(s, LeaseStep(s, l), l.id, id);
    } else if l.EndJob? {
      EndTouchesOne(s, l.at, l.message);
      JobTouchesOwn(s, EndStep(s, l.at, l.message), s.worker.lease.job, id);
    } else {
      MoveTouchesOwn(s, WorkerEffect(s, l), id);
    }
  }

  lemma StrandedIsQuiet(s: State, id: string)
    requires Inv(s) && Stranded(s, id)
    ensures Quiet(s, id)
    ensures id in s.queuedAs ==> s.queuedAs[id] in s.jobs && J.Finished(s.jobs[s.queuedAs[id]].status)
  {
    OneJob(s, id);
    OwnerStage(s, s.creator[id]);
    if HasCopy(s.worker) {
      LeasedOperation(s);
    }
  }

  lemma StepLeavesQuiet(s: State, l: Label, id: string)
    requires Inv(s) && Quiet(s, id)
    ensures QueueOk(s) && Untouched(s, Apply(s, l), id)
  {
    hide RequestEffect, WorkerEffect, RequestPossible, WorkerPossible;
    OtherOwners(s, id);
    if !Possible(s, l) {
      hide Inv, QueueOk;
    } else if IsRequestStep(l) {
      RequestTouchesOwn(s, l, id);
    } else {
      WorkerTouchesOwn(s, l, id);
    }
  }

  lemma UntouchedIsStranded(s: State, t: State, id: string)
    requires Inv(s) && Inv(t) && Stranded(s, id) && Quiet(s, id) && QueueOk(s) && Untouched(s, t, id)
    ensures Stranded(t, id) && t.ops[id] == s.ops[id]
  {
    StrandedIsQuiet(s, id);
    OneJob(s, id);
    OneJob(t, id);
    hide Inv, QueueOk;
    assert CreatedBy(t, t.creator[id], id);
  }

  lemma StepKeepsStranded(s: State, l: Label, id: string)
    requires Inv(s) && Stranded(s, id)
    ensures Stranded(Apply(s, l), id) && Apply(s, l).ops[id] == s.ops[id]
  {
    hide Apply, Inv, QueueOk, Stranded, Quiet;
    StrandedIsQuiet(s, id);
    StepLeavesQuiet(s, l, id);
    StepKeepsInv(s, l);
    UntouchedIsStranded(s, Apply(s, l), id);
    StrandedIsActive(s, id);
  }

  /** A stranded operation stays as it is in every continuation, so its server refuses
      every other operation from then on. */
  lemma {:induction false} StrandedForever(labels: seq<Label>, more: seq<Label>, id: string)
    requires Stranded(After(labels), id)
    ensures Stranded(After(labels + more), id) && After(labels + more).ops[id] == After(labels).ops[id]
    ensures O.HasActive(After(labels + more).ops, After(labels).ops[id].serverId)
    decreases |more|
  {
    hide Inv, Stranded, Apply;
    AlwaysInv(labels + more);
    StrandedIsActive(After(labels), id);
    if more == [] {
      assert labels + more == labels;
    } else {
      var before := labels + more[..|more| - 1];
      StrandedForever(labels, more[..|more| - 1], id);
      AlwaysInv(before);
      assert (labels + more)[..|labels + more| - 1] == before;
      StepKeepsStranded(After(before), more[|more| - 1], id);
    }
    StrandedIsActive(After(labels + more), id);
    ActiveRow(After(labels + more), id);
  }

  lemma StrandedIsActive(s: State, id: string)
    requires Stranded(s, id)
    ensures id in s.ops && !O.Terminal(s.ops[id].status)
  {
  }

  lemma ActiveRow(s: State, id: string)
    requires Inv(s) && id in s.ops && !O.Terminal(s.ops[id].status)
    ensures O.HasActive(s.ops, s.ops[id].serverId)
  {
  }
}
