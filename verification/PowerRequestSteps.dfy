/** The steps of Request keep the invariant. */
module PowerRequestSteps {
  import opened Wrappers
  import O = Operations
  import J = Jobs
  import JobRuns
  import opened PowerProtocol
  import opened PowerInvariant
  import opened PowerWorkerSteps

  // ----- a request that owns no operation

  /** Client `c` is new or only admitted and does not become an owner. */
  ghost predicate Bystander(s: State, c: nat, client: Client) {
    && (c in s.clients ==> !s.clients[c].Owner?)
    && !client.Owner?
    && (client.Admitted? ==>
          client.operation.key == client.request.key && client.operation.action == client.request.action)
    && (client.Answered? && client.found.Some? ==>
          client.found.value in s.ops && s.ops[client.found.value].key == client.request.key)
  }

  lemma SameTables(s: State, t: State)
    requires t.ops == s.ops && t.jobs == s.jobs && t.queuedAs == s.queuedAs && t.log == s.log
    requires JobsOk(s) && QueueOk(s) && CouplingOk(s)
    ensures JobsOk(t) && QueueOk(t) && CouplingOk(t)
  {
    hide JobRuns.RowOk;
  }

  lemma BystanderKeepsClients(s: State, c: nat, client: Client)
    requires Bystander(s, c, client) && CreatorsOk(s) && AnswersOk(s) && StagesOk(s)
    ensures
      var t := s.(clients := s.clients[c := client]);
      CreatorsOk(t) && AnswersOk(t) && StagesOk(t)
  {
    hide StageOk;
  }

  lemma BystanderKeepsWorker(s: State, c: nat, client: Client)
    requires Bystander(s, c, client) && WorkerOk(s)
    ensures WorkerOk(s.(clients := s.clients[c := client]))
  {
  }

  lemma BystanderKeepsInv(s: State, c: nat, client: Client)
    requires Inv(s) && Bystander(s, c, client)
    ensures Inv(s.(clients := s.clients[c := client]))
  {
    hide O.Inv, JobsOk, CreatorsOk, AnswersOk, QueueOk, StagesOk, CouplingOk, WorkerOk, Bystander;
    SameTables(s, s.(clients := s.clients[c := client]));
    BystanderKeepsClients(s, c, client);
    BystanderKeepsWorker(s, c, client);
  }

  lemma FoundRow(ops: O.Table, key: string)
    requires O.Inv(ops) && O.FindByKey(ops, key).Some?
    ensures
      var row := O.FindByKey(ops, key).value;
      row.id in ops && ops[row.id] == row && row.key == key
  {
  }

  lemma RowsOk(s: State)
    requires Inv(s)
    ensures O.Inv(s.ops) && AnswersOk(s) && CreatorsOk(s) && StagesOk(s) && QueueOk(s)
  {
  }

  lemma LookKeepsInv(s: State, l: Label)
    requires Inv(s) && l.Look? && Possible(s, l)
    ensures Inv(s.(clients := s.clients[l.client := LookStep(s, l)]))
  {
    RowsOk(s);
    if O.FindByKey(s.ops, l.request.key).Some? {
      FoundRow(s.ops, l.request.key);
    }
    hide O.Inv, O.FindByKey, TablesOk, WorkerOk;
    BystanderKeepsInv(s, l.client, LookStep(s, l));
  }

  // ----- CreateQueued

  lemma CreateKeepsInv(s: State, c: nat)
    requires Inv(s) && c in s.clients && s.clients[c].Admitted?
    ensures Inv(CreateStep(s, c))
  {
    RowsOk(s);
    var Admitted(request, operation) := s.clients[c];
    var (ops, r) := O.QueuedInsert(s.ops, operation);
    O.CreateQueuedKeepsInv(s.ops, operation);
    if r.Ok? && r.value.1 {
      hide TablesOk, WorkerOk, O.QueuedInsert;
      InsertKeepsInv(s, c, operation);
    } else {
      if r.Ok? {
        FoundRow(s.ops, operation.key);
      }
      hide O.Inv, O.FindByKey, TablesOk, WorkerOk;
      BystanderKeepsInv(s, c, CreateStep(s, c).clients[c]);
    }
  }

  function Insertion(s: State, c: nat, operation: O.Operation): State
    requires c in s.clients
  {
    s.(ops := s.ops[operation.id := O.QueuedRow(operation)],
       clients := s.clients[c := Owner(s.clients[c].request, operation.id, false, Created)],
       creator := s.creator[operation.id := c])
  }

  lemma InsertKeepsCreators(s: State, c: nat, operation: O.Operation)
    requires CreatorsOk(s) && AnswersOk(s) && QueueOk(s) && StagesOk(s)
    requires c in s.clients && s.clients[c] == Admitted(s.clients[c].request, operation) && operation.id !in s.ops
    ensures CreatorsOk(Insertion(s, c, operation)) && AnswersOk(Insertion(s, c, operation))
    ensures QueueOk(Insertion(s, c, operation)) && StagesOk(Insertion(s, c, operation))
  {
    var t := Insertion(s, c, operation);
    forall d | d in t.clients && t.clients[d].Owner?
      ensures t.clients[d].id in t.ops && t.clients[d].id in t.creator && t.creator[t.clients[d].id] == d
      ensures t.ops[t.clients[d].id].key == t.clients[d].request.key
      ensures t.ops[t.clients[d].id].action == t.clients[d].request.action
      ensures StageOk(t.clients[d], t.clients[d].id in t.queuedAs, t.ops[t.clients[d].id].status)
    {
      if d != c {
        assert StageOk(s.clients[d], s.clients[d].id in s.queuedAs, s.ops[s.clients[d].id].status);
      }
    }
  }

  lemma InsertKeepsCoupling(s: State, c: nat, operation: O.Operation)
    requires QueueOk(s) && CouplingOk(s) && c in s.clients && operation.id !in s.ops
    requires QueueOk(Insertion(s, c, operation))
    ensures CouplingOk(Insertion(s, c, operation))
  {
  }

  lemma InsertKeepsWorker(s: State, c: nat, operation: O.Operation)
    requires WorkerOk(s) && c in s.clients && !s.clients[c].Owner? && operation.id !in s.ops
    ensures WorkerOk(Insertion(s, c, operation))
  {
  }

  lemma InsertKeepsInv(s: State, c: nat, operation: O.Operation)
    requires Inv(s) && c in s.clients && s.clients[c] == Admitted(s.clients[c].request, operation)
    requires operation.id !in s.ops && O.Inv(s.ops[operation.id := O.QueuedRow(operation)])
    ensures Inv(Insertion(s, c, operation))
  {
    hide O.Inv, JobRuns.RowOk, CreatorsOk, AnswersOk, QueueOk, StagesOk, CouplingOk, WorkerOk;
    InsertKeepsCreators(s, c, operation);
    InsertKeepsCoupling(s, c, operation);
    InsertKeepsWorker(s, c, operation);
  }

  // ----- a request that owns its operation

  /** Owner `c` moves on to another stage without touching a table or replying an error. */
  predicate StageChange(was: Client, now: Client) {
    && was.Owner? && now.Owner? && was.stage != Replied(false) && now.stage != Replied(false)
    && now.id == was.id && now.request == was.request && now.enqueued == was.enqueued
    && (now.stage.Created? ==> !now.enqueued)
    && (now.stage.Enqueued? || now.stage == Replied(true) ==> now.enqueued)
  }

  lemma StageKeepsInv(s: State, c: nat, client: Client)
    requires Inv(s) && c in s.clients && StageChange(s.clients[c], client)
    ensures Inv(s.(clients := s.clients[c := client]))
  {
    var t := s.(clients := s.clients[c := client]);
    OwnerStage(s, c);
    hide O.Inv, JobsOk, QueueOk, StagesOk, CouplingOk, WorkerOk;
    SameTables(s, t);
    StageChangeKeepsCreators(s, c, client);
    hide CreatorsOk, AnswersOk;
    StageChangeKeepsStages(s, t, c);
    StageChangeKeepsWorker(s, c, client);
  }

  lemma StageChangeKeepsCreators(s: State, c: nat, client: Client)
    requires CreatorsOk(s) && AnswersOk(s) && c in s.clients && StageChange(s.clients[c], client)
    ensures CreatorsOk(s.(clients := s.clients[c := client])) && AnswersOk(s.(clients := s.clients[c := client]))
  {
    var t := s.(clients := s.clients[c := client]);
    forall d | d in t.clients && t.clients[d].Owner?
      ensures t.clients[d].id in t.ops && t.clients[d].id in t.creator && t.creator[t.clients[d].id] == d
      ensures t.ops[t.clients[d].id].key == t.clients[d].request.key
      ensures t.ops[t.clients[d].id].action == t.clients[d].request.action
    {
      assert s.clients[d].Owner?;
    }
  }

  lemma StageChangeKeepsWorker(s: State, c: nat, client: Client)
    requires WorkerOk(s) && c in s.clients && StageChange(s.clients[c], client)
    ensures WorkerOk(s.(clients := s.clients[c := client]))
  {
    assert forall id :: Undone(s, id) ==> Undone(s.(clients := s.clients[c := client]), id);
  }

  lemma StageChangeKeepsStages(s: State, t: State, c: nat)
    requires CreatorsOk(s) && StagesOk(s) && CreatorsOk(t) && c in t.clients && t == s.(clients := s.clients[c := t.clients[c]])
    requires t.clients[c].Owner? ==> StageOk(t.clients[c], t.clients[c].id in t.queuedAs, t.ops[t.clients[c].id].status)
    ensures StagesOk(t)
  {
    forall d | d in t.clients && t.clients[d].Owner?
      ensures StageOk(t.clients[d], t.clients[d].id in t.queuedAs, t.ops[t.clients[d].id].status)
    {
      assert d != c ==> StageOk(s.clients[d], s.clients[d].id in s.queuedAs, s.ops[s.clients[d].id].status);
    }
  }

  lemma AuditRequestKeepsInv(s: State, c: nat, stored: bool)
    requires Inv(s) && AtStage(s, c, Enqueued)
    ensures Inv(s.(clients := s.clients[c := s.clients[c].(stage := if stored then Replied(true) else Undoing)]))
  {
    OwnerStage(s, c);
    hide TablesOk, WorkerOk;
    StageKeepsInv(s, c, s.clients[c].(stage := if stored then Replied(true) else Undoing));
  }

  lemma OwnerStage(s: State, c: nat)
    requires Inv(s) && c in s.clients && s.clients[c].Owner?
    ensures s.clients[c].id in s.ops && s.ops[s.clients[c].id].id == s.clients[c].id
    ensures StageOk(s.clients[c], s.clients[c].id in s.queuedAs, s.ops[s.clients[c].id].status)
    ensures s.clients[c].id in s.creator && s.creator[s.clients[c].id] == c
  {
  }

  lemma KillKeepsInv(s: State, c: nat)
    requires Inv(s) && c in s.clients && InFlight(s.clients[c])
    ensures Inv(s.(clients := s.clients[c := Killing(s.clients[c])]))
  {
    if s.clients[c].Owner? {
      OwnerStage(s, c);
      hide TablesOk, WorkerOk;
      StageKeepsInv(s, c, Killing(s.clients[c]));
    } else {
      hide TablesOk, WorkerOk;
      BystanderKeepsInv(s, c, Killing(s.clients[c]));
    }
  }

  lemma RequestFailsKeepsInv(s: State, l: Label)
    requires Inv(s) && l.RequestFails? && MayFail(s, l.client)
    ensures Inv(s.(clients := s.clients[l.client := FailingRequest(s, l)]))
  {
    if AtStage(s, l.client, Undoing) {
      OwnerStage(s, l.client);
      hide TablesOk, WorkerOk;
      StageKeepsInv(s, l.client, FailingRequest(s, l));
    } else {
      hide TablesOk, WorkerOk;
      BystanderKeepsInv(s, l.client, FailingRequest(s, l));
    }
  }

  // ----- EnqueueConnectionSync

  /** Job `j` is a new sync job. */
  ghost predicate AddsSync(s: State, t: State, j: string) {
    && j !in s.jobs && j in t.jobs && t == s.(jobs := s.jobs[j := t.jobs[j]])
    && JobRuns.RowOk(t.jobs[j]) && t.jobs[j].kind.SyncConnection? && t.jobs[j].status.Queued?
  }

  lemma SyncKeepsTables(s: State, t: State, j: string)
    requires AddsSync(s, t, j) && JobsOk(s) && QueueOk(s) && CouplingOk(s)
    ensures JobsOk(t) && QueueOk(t) && CouplingOk(t)
  {
    hide JobRuns.RowOk;
  }

  lemma SyncKeepsWorker(s: State, t: State, j: string)
    requires AddsSync(s, t, j) && WorkerOk(s)
    ensures WorkerOk(t)
  {
    hide JobRuns.RowOk, WillRetry, CopyStatusOk;
  }

  lemma EnqueueSyncKeepsInv(s: State, l: Label)
    requires Inv(s) && l.EnqueueSync? && l.maxAttempts >= 1
    ensures Inv(EnqueueSyncStep(s, l))
  {
    var t := EnqueueSyncStep(s, l);
    if t != s {
      assert AddsSync(s, t, l.jobId);
      hide O.Inv, JobsOk, CreatorsOk, AnswersOk, QueueOk, StagesOk, CouplingOk, WorkerOk, AddsSync;
      SyncKeepsTables(s, t, l.jobId);
      SyncKeepsWorker(s, t, l.jobId);
      SameClients(s, t);
    }
  }

  // ----- EnqueuePowerOperation

  function Queued(s: State, c: nat, j: string, job: J.Job): State
    requires c in s.clients && s.clients[c].Owner?
  {
    s.(jobs := s.jobs[j := job], queuedAs := s.queuedAs[s.clients[c].id := j],
       clients := s.clients[c := s.clients[c].(enqueued := true, stage := Enqueued)])
  }

  ghost predicate Queueable(s: State, c: nat, j: string, job: J.Job) {
    && AtStage(s, c, Created) && j !in s.jobs && JobRuns.RowOk(job)
    && job.kind.PowerOperation? && job.payload == s.clients[c].id && job.status.Queued?
  }

  lemma QueueKeepsQueue(s: State, c: nat, j: string, job: J.Job)
    requires Queueable(s, c, j, job) && JobsOk(s) && QueueOk(s)
    requires s.clients[c].id in s.ops && s.clients[c].id !in s.queuedAs
    ensures JobsOk(Queued(s, c, j, job)) && QueueOk(Queued(s, c, j, job))
  {
    hide JobRuns.RowOk;
  }

  lemma QueueKeepsCreators(s: State, c: nat, j: string, job: J.Job)
    requires Queueable(s, c, j, job) && CreatorsOk(s) && AnswersOk(s)
    ensures CreatorsOk(Queued(s, c, j, job)) && AnswersOk(Queued(s, c, j, job))
  {
    hide JobRuns.RowOk;
  }

  lemma QueueKeepsStages(s: State, c: nat, j: string, job: J.Job)
    requires Queueable(s, c, j, job) && CreatorsOk(s) && StagesOk(s) && CreatorsOk(Queued(s, c, j, job))
    ensures StagesOk(Queued(s, c, j, job))
  {
    hide JobRuns.RowOk;
    var t := Queued(s, c, j, job);
    forall d | d in t.clients && t.clients[d].Owner?
      ensures StageOk(t.clients[d], t.clients[d].id in t.queuedAs, t.ops[t.clients[d].id].status)
    {
      assert d != c ==> t.clients[d].id != t.clients[c].id;
      assert StageOk(s.clients[d], s.clients[d].id in s.queuedAs, s.ops[s.clients[d].id].status);
    }
  }

  lemma QueueKeepsCoupling(s: State, c: nat, j: string, job: J.Job)
    requires Queueable(s, c, j, job) && QueueOk(s) && CouplingOk(s) && QueueOk(Queued(s, c, j, job))
    requires s.clients[c].id !in s.queuedAs
    ensures CouplingOk(Queued(s, c, j, job))
  {
    hide JobRuns.RowOk;
  }

  lemma QueueKeepsWorker(s: State, c: nat, j: string, job: J.Job)
    requires Queueable(s, c, j, job) && WorkerOk(s)
    ensures WorkerOk(Queued(s, c, j, job))
  {
    hide JobRuns.RowOk;
    var t := Queued(s, c, j, job);
    assert forall id :: Undone(s, id) ==> Undone(t, id);
  }

  lemma QueueKeepsInv(s: State, c: nat, j: string, job: J.Job)
    requires Inv(s) && Queueable(s, c, j, job)
    ensures Inv(Queued(s, c, j, job))
  {
    OwnerStage(s, c);
    assert s.clients[c].id !in s.queuedAs;
    hide O.Inv, JobsOk, CreatorsOk, AnswersOk, QueueOk, StagesOk, CouplingOk, WorkerOk;
    QueueKeepsQueue(s, c, j, job);
    QueueKeepsCreators(s, c, j, job);
    QueueKeepsStages(s, c, j, job);
    QueueKeepsCoupling(s, c, j, job);
    QueueKeepsWorker(s, c, j, job);
  }

  lemma EnqueueKeepsInv(s: State, l: Label)
    requires Inv(s) && l.Enqueue? && AtStage(s, l.client, Created) && l.maxAttempts >= 1
    ensures Inv(EnqueueStep(s, l))
  {
    OwnerStage(s, l.client);
    var owner := s.clients[l.client];
    var job := J.InitialRow(J.PowerOperation, owner.id, l.maxAttempts, l.now);
    if l.stored && J.Inserted(s.jobs, l.jobId, job).Ok? {
      hide TablesOk, WorkerOk;
      QueueKeepsInv(s, l.client, l.jobId, job);
    } else {
      hide TablesOk, WorkerOk;
      StageKeepsInv(s, l.client, owner.(stage := Undoing));
    }
  }

  // ----- undoing

  /** The request fails its own operation, whatever the worker made of it meanwhile. */
  ghost predicate Undoes(s: State, t: State, c: nat) {
    && AtStage(s, c, Undoing)
    && t == s.(ops := t.ops, clients := s.clients[c := s.clients[c].(stage := Replied(false))])
    && RowMoved(s, s.(ops := t.ops), s.clients[c].id)
    && s.clients[c].id in t.ops && O.Terminal(t.ops[s.clients[c].id].status)
  }

  lemma UndoMoves(s: State, c: nat, now: string)
    requires Inv(s) && AtStage(s, c, Undoing)
    ensures Undoes(s, UndoStep(s, c, now), c) && O.Inv(UndoStep(s, c, now).ops)
  {
    OwnerStage(s, c);
    RowsOk(s);
    hide TablesOk, WorkerOk, O.MoveRow, O.Inv, RowMoved;
    var change := Compensation(s.clients[c].enqueued, now);
    MoveIsRowMoved(s, s.clients[c].id, O.Failed, change);
    MoveFacts(s.ops, s.clients[c].id, O.Failed, change);
  }

  lemma UndoKeepsCreators(s: State, t: State, c: nat)
    requires Undoes(s, t, c) && CreatorsOk(s) && AnswersOk(s)
    ensures CreatorsOk(t) && AnswersOk(t)
  {
    forall d | d in t.clients && t.clients[d].Owner?
      ensures t.clients[d].id in t.ops && t.clients[d].id in t.creator && t.creator[t.clients[d].id] == d
      ensures t.ops[t.clients[d].id].key == t.clients[d].request.key
      ensures t.ops[t.clients[d].id].action == t.clients[d].request.action
    {
      assert s.clients[d].Owner?;
    }
  }

  lemma UndoKeepsStages(s: State, t: State, c: nat)
    requires Undoes(s, t, c) && CreatorsOk(s) && StagesOk(s) && CreatorsOk(t)
    ensures StagesOk(t)
  {
    forall d | d in t.clients && t.clients[d].Owner?
      ensures StageOk(t.clients[d], t.clients[d].id in t.queuedAs, t.ops[t.clients[d].id].status)
    {
      assert StageOk(s.clients[d], s.clients[d].id in s.queuedAs, s.ops[s.clients[d].id].status);
      assert d != c ==> s.clients[d].id != s.clients[c].id;
    }
  }

  lemma UndoKeepsQueue(s: State, t: State, c: nat)
    requires Undoes(s, t, c) && JobsOk(s) && QueueOk(s) && CouplingOk(s)
    ensures JobsOk(t) && QueueOk(t) && CouplingOk(t)
  {
    hide JobRuns.RowOk;
    forall id | id in t.queuedAs
      ensures id in t.ops && (O.Terminal(s.ops[id].status) ==> O.Terminal(t.ops[id].status))
    {
    }
  }

  /** Every operation undone before stays undone, and so is this one. */
  lemma UndoneMore(s: State, t: State, c: nat)
    requires Undoes(s, t, c) && CreatorsOk(s)
    ensures s.clients[c].id in s.ops && Undone(t, s.clients[c].id)
    ensures forall id :: Undone(s, id) ==> Undone(t, id)
  {
  }

  lemma UndoKeepsWorker(s: State, t: State, c: nat)
    requires Undoes(s, t, c) && WorkerOk(s) && CreatorsOk(s)
    ensures WorkerOk(t)
  {
    UndoneMore(s, t, c);
    hide CreatorsOk, Undone;
  }

  lemma UndoKeepsInv(s: State, c: nat, now: string)
    requires Inv(s) && AtStage(s, c, Undoing)
    ensures Inv(UndoStep(s, c, now))
  {
    var t := UndoStep(s, c, now);
    hide O.Inv, JobsOk, CreatorsOk, AnswersOk, QueueOk, StagesOk, CouplingOk, WorkerOk, UndoStep, Undoes;
    UndoMoves(s, c, now);
    UndoKeepsCreators(s, t, c);
    UndoKeepsStages(s, t, c);
    UndoKeepsQueue(s, t, c);
    UndoKeepsWorker(s, t, c);
  }
}
