/** What every step of the power-operation protocol keeps. */
module PowerInvariant {
  import opened Wrappers
  import P = Providers
  import O = Operations
  import J = Jobs
  import JobRuns
  import opened PowerProtocol

  // ----- the invariant, part by part

  ghost predicate JobsOk(s: State) {
    forall id :: id in s.jobs ==> JobRuns.RowOk(s.jobs[id])
  }

  /** Each operation was inserted by exactly one request, with that request's key and action. */
  ghost predicate CreatorsOk(s: State) {
    && (forall c :: c in s.clients && s.clients[c].Owner? ==>
          var id := s.clients[c].id;
          && id in s.ops && id in s.creator && s.creator[id] == c
          && s.ops[id].key == s.clients[c].request.key && s.ops[id].action == s.clients[c].request.action)
    && (forall id :: id in s.ops ==>
          && id in s.creator && s.creator[id] in s.clients
          && s.clients[s.creator[id]].Owner? && s.clients[s.creator[id]].id == id)
  }

  /** A request that found a row reports the row of its own key. */
  ghost predicate AnswersOk(s: State) {
    && (forall c :: c in s.clients && s.clients[c].Answered? && s.clients[c].found.Some? ==>
          var id := s.clients[c].found.value;
          id in s.ops && s.ops[id].key == s.clients[c].request.key)
    && (forall c :: c in s.clients && s.clients[c].Admitted? ==>
          && s.clients[c].operation.key == s.clients[c].request.key
          && s.clients[c].operation.action == s.clients[c].request.action)
  }

  /** Power jobs and queued operations correspond one to one. */
  ghost predicate QueueOk(s: State) {
    && (forall id :: id in s.queuedAs ==>
          && id in s.ops && s.queuedAs[id] in s.jobs
          && s.jobs[s.queuedAs[id]].kind.PowerOperation? && s.jobs[s.queuedAs[id]].payload == id)
    && (forall j :: j in s.jobs && s.jobs[j].kind.PowerOperation? ==>
          s.jobs[j].payload in s.queuedAs && s.queuedAs[s.jobs[j].payload] == j)
  }

  predicate StageOk(client: Client, queued: bool, status: O.Status)
    requires client.Owner?
  {
    && (client.enqueued <==> queued)
    && (client.stage.Created? ==> !client.enqueued)
    && (client.stage.Enqueued? || client.stage == Replied(true) ==> client.enqueued)
    && (client.stage == Replied(false) ==> O.Terminal(status))
    && (!client.enqueued && client.stage != Replied(false) ==> status.Queued?)
  }

  ghost predicate StagesOk(s: State)
    requires CreatorsOk(s)
  {
    forall c :: c in s.clients && s.clients[c].Owner? ==>
      StageOk(s.clients[c], s.clients[c].id in s.queuedAs, s.ops[s.clients[c].id].status)
  }

  /** The worker's lease is the row's current lease. */
  ghost predicate LeaseOk(s: State) {
    !s.worker.Idle? ==>
      var lease := s.worker.lease;
      && lease.job in s.jobs
      && s.jobs[lease.job].status.Running? && s.jobs[lease.job].leaseOwner == Some(WORKER)
      && s.jobs[lease.job].attempts == lease.attempts && s.jobs[lease.job].maxAttempts == lease.maxAttempts
      && s.jobs[lease.job].kind == lease.kind && s.jobs[lease.job].payload == lease.payload
  }

  /** The statuses the executor's copy can have at each point. */
  predicate CopyStatusOk(worker: Worker)
    requires HasCopy(worker)
  {
    && (worker.Starting? ==> worker.op.status.Queued?)
    && (!worker.Starting? ==> worker.op.status.Running? || worker.op.status.Verifying?)
    && (worker.Acting? || worker.Recording? ==> worker.op.status.Running?)
    && (worker.Polling? || worker.TimingOut? ==> worker.op.status.Verifying?)
  }

  /** The operation was failed by its own request after the executor read it. */
  ghost predicate Undone(s: State, id: string) {
    && id in s.ops && O.Terminal(s.ops[id].status)
    && id in s.creator && AtStage(s, s.creator[id], Replied(false))
  }

  ghost predicate CopyOk(s: State) {
    HasCopy(s.worker) ==>
      && s.worker.lease.kind.PowerOperation?
      && CopyStatusOk(s.worker)
      && s.worker.op.id == s.worker.lease.payload && s.worker.op.id in s.ops
      && s.ops[s.worker.op.id].action == s.worker.op.action
      && (s.ops[s.worker.op.id].status == s.worker.op.status || Undone(s, s.worker.op.id))
  }

  /** finishError and Retry read the same attempt counter. */
  predicate WillRetry(lease: Lease, error: P.Error) {
    P.Retryable(error) && lease.attempts < lease.maxAttempts
  }

  /** Where the executor is done with an operation, the row is terminal, unless the job
      will be retried or a statement failed. */
  ghost predicate OutcomeOk(s: State) {
    && (s.worker.Failing? || s.worker.MarkingFailed? ==> !WillRetry(s.worker.lease, s.worker.error))
    && (s.worker.Auditing? ==>
          && s.worker.lease.kind.PowerOperation? && !s.worker.outcome.Stray?
          && s.worker.lease.payload in s.ops && O.Terminal(s.ops[s.worker.lease.payload].status))
    && (s.worker.Ending? && s.worker.lease.kind.PowerOperation? ==>
          s.worker.lease.payload in s.ops &&
          match s.worker.outcome
          case Done => O.Terminal(s.ops[s.worker.lease.payload].status)
          case Failed(error) => O.Terminal(s.ops[s.worker.lease.payload].status) || WillRetry(s.worker.lease, error)
          case Stray(error, _) => !WillRetry(s.worker.lease, error))
    && (s.worker.Ending? && s.worker.lease.kind.SyncConnection? ==> !s.worker.outcome.Stray?)
  }

  /** A finished job leaves its operation active exactly when it was abandoned. */
  ghost predicate CouplingOk(s: State)
    requires QueueOk(s)
  {
    && (forall id :: id in s.queuedAs ==>
          && (J.Finished(s.jobs[s.queuedAs[id]].status) && !O.Terminal(s.ops[id].status) ==> Abandoned(id) in s.log)
          && (Abandoned(id) in s.log ==> J.Finished(s.jobs[s.queuedAs[id]].status)))
    && (forall id :: Abandoned(id) in s.log ==> id in s.queuedAs)
  }

  ghost predicate TablesOk(s: State) {
    && O.Inv(s.ops) && JobsOk(s) && CreatorsOk(s) && AnswersOk(s) && QueueOk(s) && StagesOk(s) && CouplingOk(s)
  }

  ghost predicate WorkerOk(s: State) {
    LeaseOk(s) && CopyOk(s) && OutcomeOk(s)
  }

  ghost predicate Inv(s: State) {
    TablesOk(s) && WorkerOk(s)
  }

  /** The operation behind a power lease is queued as exactly the leased job. */
  lemma LeasedOperation(s: State)
    requires Inv(s) && !s.worker.Idle? && s.worker.lease.kind.PowerOperation?
    ensures s.worker.lease.payload in s.ops && s.ops[s.worker.lease.payload].id == s.worker.lease.payload
    ensures s.worker.lease.payload in s.queuedAs && s.queuedAs[s.worker.lease.payload] == s.worker.lease.job
  {
  }
}
