/** The executor's steps keep the invariant. */
module PowerWorkerSteps {
  import opened Wrappers
  import P = Providers
  import O = Operations
  import J = Jobs
  import JobRuns
  import opened PowerProtocol
  import opened PowerInvariant

  // ----- steps that touch neither table nor request

  ghost predicate NoAbandonment(events: seq<Event>) {
    forall e :: e in events ==> !e.Abandoned?
  }

  lemma LogKeepsTables(s: State, worker: Worker, events: seq<Event>)
    requires TablesOk(s) && NoAbandonment(events)
    ensures TablesOk(s.(worker := worker, log := s.log + events))
  {
    var t := s.(worker := worker, log := s.log + events);
    assert forall id :: Abandoned(id) in t.log <==> Abandoned(id) in s.log;
  }

  lemma WorkerStep(s: State, worker: Worker, events: seq<Event>)
    requires Inv(s) && NoAbandonment(events)
    requires WorkerOk(s.(worker := worker))
    ensures Inv(s.(worker := worker, log := s.log + events))
  {
    hide TablesOk;
    LogKeepsTables(s, worker, events);
  }

  lemma SyncKeepsInv(s: State, error: Option<P.Error>)
    requires Inv(s) && s.worker.Entered? && s.worker.lease.kind.SyncConnection?
    ensures Inv(SyncStep(s, error))
  {
    hide TablesOk;
    WorkerStep(s, SyncStep(s, error).worker, []);
    assert s.log + [] == s.log;
  }

  lemma FindKeepsInv(s: State)
    requires Inv(s) && s.worker.Entered? && s.worker.lease.kind.PowerOperation?
    ensures Inv(FindStep(s))
  {
    hide TablesOk;
    LeasedOperation(s);
    WorkerStep(s, FindStep(s).worker, []);
    assert s.log + [] == s.log;
  }

  lemma PrepareKeepsInv(s: State, reading: Result<P.ServerState, P.Error>)
    requires Inv(s) && s.worker.Preparing?
    ensures Inv(PrepareStep(s, reading))
  {
    hide TablesOk;
    WorkerStep(s, PrepareStep(s, reading).worker, if reading.Ok? then [Observed(s.worker.op.id, reading.value)] else []);
    assert s.log + [] == s.log;
  }

  lemma ActKeepsInv(s: State, receipt: Result<string, P.Error>)
    requires Inv(s) && s.worker.Acting?
    ensures Inv(ActStep(s, receipt))
  {
    hide TablesOk;
    WorkerStep(s, ActStep(s, receipt).worker, Acted(s, receipt));
  }

  lemma PollKeepsInv(s: State, reading: Result<P.ServerState, P.Error>, expired: bool)
    requires Inv(s) && s.worker.Polling?
    ensures Inv(PollStep(s, reading, expired))
  {
    hide TablesOk;
    WorkerStep(s, PollStep(s, reading, expired).worker, if reading.Ok? then [Observed(s.worker.op.id, reading.value)] else []);
    assert s.log + [] == s.log;
  }

  lemma StoreKeepsInv(s: State, stored: bool)
    requires Inv(s) && s.worker.Storing?
    ensures Inv(StoreStep(s, stored))
  {
    hide TablesOk;
    WorkerStep(s, StoreStep(s, stored).worker, if stored then [Stored(s.worker.op.id, s.worker.seen)] else []);
    assert s.log + [] == s.log;
  }

  lemma LookAgainKeepsInv(s: State)
    requires Inv(s) && s.worker.Failing?
    ensures Inv(LookAgainStep(s))
  {
    hide TablesOk;
    WorkerStep(s, LookAgainStep(s).worker, []);
    assert s.log + [] == s.log;
  }

  lemma AuditKeepsInv(s: State, stored: bool)
    requires Inv(s) && s.worker.Auditing?
    ensures Inv(AuditStep(s, stored))
  {
    hide TablesOk;
    WorkerStep(s, AuditStep(s, stored).worker, []);
    assert s.log + [] == s.log;
  }

  /** A failing statement leaves the tables alone and never sends the job back to the queue. */
  lemma FaultKeepsInv(s: State)
    requires Inv(s) && StatementDue(s.worker)
    ensures Inv(FaultStep(s))
  {
    hide TablesOk;
    LeasedOperation(s);
    WorkerStep(s, FaultStep(s).worker, []);
    assert s.log + [] == s.log;
  }

  lemma CrashKeepsInv(s: State)
    requires Inv(s) && !s.worker.Idle?
    ensures Inv(CrashStep(s))
  {
    hide TablesOk;
    WorkerStep(s, Idle, CrashEvents(s));
  }

  lemma SameClients(s: State, t: State)
    requires CreatorsOk(s) && AnswersOk(s) && StagesOk(s)
    requires t.ops == s.ops && t.clients == s.clients && t.creator == s.creator && t.queuedAs == s.queuedAs
    ensures CreatorsOk(t) && AnswersOk(t) && StagesOk(t)
  {
    hide StageOk;
  }

  // ----- steps that move an operation

  /** Moving one row changes that row's status and nothing another part relies on. */
  lemma MoveFacts(ops: O.Table, id: string, next: O.Status, change: O.Change)
    requires O.Inv(ops)
    ensures
      var (moved, r) := O.MoveRow(ops, id, next, change);
      && O.Inv(moved) && moved.Keys == ops.Keys
      && (r.Ok? <==> id in ops && O.ValidTransition(ops[id].status, next))
      && (r.Ok? ==> moved[id] == r.value && r.value.status == next && r.value.id == id)
      && (r.Err? ==> moved == ops)
      && (forall other :: other in ops ==>
            && (other != id ==> moved[other] == ops[other])
            && moved[other].key == ops[other].key && moved[other].action == ops[other].action
            && moved[other].serverId == ops[other].serverId
            && (O.Terminal(ops[other].status) ==> moved[other] == ops[other]))
  {
    O.TransitionKeepsInv(ops, id, next, change);
  }

  /** Only row `id` differs between the two states, and it kept its key, its action and any terminal status. */
  ghost predicate RowMoved(s: State, t: State, id: string) {
    && t == s.(ops := t.ops) && t.ops.Keys == s.ops.Keys
    && forall other :: other in s.ops ==>
         && (other != id ==> t.ops[other] == s.ops[other])
         && t.ops[other].key == s.ops[other].key && t.ops[other].action == s.ops[other].action
         && (O.Terminal(s.ops[other].status) ==> t.ops[other] == s.ops[other])
  }

  lemma MoveIsRowMoved(s: State, id: string, next: O.Status, change: O.Change)
    requires O.Inv(s.ops)
    ensures RowMoved(s, s.(ops := O.MoveRow(s.ops, id, next, change).0), id)
    ensures O.Inv(O.MoveRow(s.ops, id, next, change).0)
  {
    hide O.MoveRow, O.Inv;
    MoveFacts(s.ops, id, next, change);
  }

  lemma MoveKeepsCreators(s: State, t: State, id: string)
    requires RowMoved(s, t, id) && CreatorsOk(s)
    ensures CreatorsOk(t)
  {
    forall c | c in t.clients && t.clients[c].Owner?
      ensures
        var owned := t.clients[c].id;
        && owned in t.ops && owned in t.creator && t.creator[owned] == c
        && t.ops[owned].key == t.clients[c].request.key && t.ops[owned].action == t.clients[c].request.action
    {
      assert s.clients[c].Owner?;
    }
  }

  lemma MoveKeepsIndexes(s: State, t: State, id: string)
    requires RowMoved(s, t, id) && JobsOk(s) && AnswersOk(s) && QueueOk(s)
    ensures JobsOk(t) && AnswersOk(t) && QueueOk(t)
  {
    hide JobRuns.RowOk;
  }

  lemma MoveKeepsStages(s: State, t: State, id: string)
    requires RowMoved(s, t, id) && CreatorsOk(s) && StagesOk(s) && CreatorsOk(t) && id in s.queuedAs
    ensures StagesOk(t)
  {
    forall c | c in t.clients && t.clients[c].Owner?
      ensures StageOk(t.clients[c], t.clients[c].id in t.queuedAs, t.ops[t.clients[c].id].status)
    {
      assert StageOk(s.clients[c], s.clients[c].id in s.queuedAs, s.ops[s.clients[c].id].status);
    }
  }

  lemma MoveKeepsCoupling(s: State, t: State, id: string)
    requires RowMoved(s, t, id) && QueueOk(s) && QueueOk(t) && CouplingOk(s)
    ensures CouplingOk(t)
  {
    forall other | other in t.queuedAs
      ensures J.Finished(t.jobs[t.queuedAs[other]].status) && !O.Terminal(t.ops[other].status) ==> Abandoned(other) in t.log
      ensures Abandoned(other) in t.log ==> J.Finished(t.jobs[t.queuedAs[other]].status)
    {
      assert O.Terminal(s.ops[other].status) ==> O.Terminal(t.ops[other].status);
    }
  }

  /** The tables after one queued operation moved. */
  lemma MoveKeepsTables(s: State, id: string, next: O.Status, change: O.Change)
    requires TablesOk(s) && id in s.queuedAs
    ensures TablesOk(s.(ops := O.MoveRow(s.ops, id, next, change).0))
  {
    hide O.MoveRow, O.Inv, JobsOk, CreatorsOk, AnswersOk, QueueOk, StagesOk, CouplingOk, RowMoved;
    var t := s.(ops := O.MoveRow(s.ops, id, next, change).0);
    MoveIsRowMoved(s, id, next, change);
    MoveKeepsCreators(s, t, id);
    MoveKeepsIndexes(s, t, id);
    MoveKeepsStages(s, t, id);
    MoveKeepsCoupling(s, t, id);
  }

  /** An accepted move leaves the row at the new status; a refused one means the request
      undid the operation, so it is terminal. */
  lemma ExecutorMove(s: State, next: O.Status, change: O.Change)
    requires Inv(s) && HasCopy(s.worker) && O.ValidTransition(s.worker.op.status, next)
    ensures
      var (ops, r) := O.MoveRow(s.ops, s.worker.op.id, next, change);
      && TablesOk(s.(ops := ops))
      && s.worker.op.id in ops && ops[s.worker.op.id].action == s.worker.op.action
      && (r.Ok? ==> ops[s.worker.op.id] == r.value && r.value.status == next && r.value.id == s.worker.op.id)
      && (r.Err? ==> ops == s.ops && O.Terminal(ops[s.worker.op.id].status))
  {
    LeasedOperation(s);
    MoveKeepsTables(s, s.worker.op.id, next, change);
    hide O.MoveRow, TablesOk;
    TablesHaveRows(s);
    MoveFacts(s.ops, s.worker.op.id, next, change);
  }

  lemma TablesHaveRows(s: State)
    requires TablesOk(s)
    ensures O.Inv(s.ops)
  {
  }

  lemma RunKeepsInv(s: State, now: string)
    requires Inv(s) && s.worker.Starting?
    ensures Inv(RunStep(s, now))
  {
    hide O.MoveRow, TablesOk;
    var change := O.Change(now, "", "", "");
    ExecutorMove(s, O.Running, change);
    var t := RunStep(s, now);
    assert t.ops == O.MoveRow(s.ops, s.worker.op.id, O.Running, change).0;
    var events := [];
    LogKeepsTables(s.(ops := t.ops), t.worker, events);
    assert s.log + [] == s.log;
    assert t == s.(ops := t.ops).(worker := t.worker, log := s.log + events);
    assert WorkerOk(t);
  }

  lemma RecordKeepsInv(s: State, now: string)
    requires Inv(s) && s.worker.Recording?
    ensures Inv(RecordStep(s, now))
  {
    hide O.MoveRow, TablesOk;
    var change := O.Change(now, s.worker.requestId, "", "");
    ExecutorMove(s, O.Verifying, change);
    var t := RecordStep(s, now);
    assert t.ops == O.MoveRow(s.ops, s.worker.op.id, O.Verifying, change).0;
    var events := [];
    LogKeepsTables(s.(ops := t.ops), t.worker, events);
    assert s.log + [] == s.log;
    assert t == s.(ops := t.ops).(worker := t.worker, log := s.log + events);
    assert WorkerOk(t);
  }

  lemma TimeOutKeepsInv(s: State, now: string)
    requires Inv(s) && s.worker.TimingOut?
    ensures Inv(TimeOutStep(s, now))
  {
    hide O.MoveRow, TablesOk;
    var change := O.Change(now, "", "operation_timeout", "Provider state verification timed out");
    ExecutorMove(s, O.TimedOut, change);
    var t := TimeOutStep(s, now);
    assert t.ops == O.MoveRow(s.ops, s.worker.op.id, O.TimedOut, change).0;
    var events := [];
    LogKeepsTables(s.(ops := t.ops), t.worker, events);
    assert s.log + [] == s.log;
    assert t == s.(ops := t.ops).(worker := t.worker, log := s.log + events);
    assert WorkerOk(t);
  }

  lemma SucceedKeepsInv(s: State, now: string)
    requires Inv(s) && s.worker.Succeeding?
    ensures Inv(SucceedStep(s, now))
  {
    hide O.MoveRow, TablesOk;
    var change := O.Change(now, "", "", "");
    ExecutorMove(s, O.Succeeded, change);
    var t := SucceedStep(s, now);
    assert t.ops == O.MoveRow(s.ops, s.worker.op.id, O.Succeeded, change).0;
    var events := if t.worker.Auditing? then [PowerProtocol.Succeeded(s.worker.op.id)] else [];
    LogKeepsTables(s.(ops := t.ops), t.worker, events);
    assert s.log + [] == s.log;
    assert t == s.(ops := t.ops).(worker := t.worker, log := s.log + events);
    assert WorkerOk(t);
  }

  lemma FailKeepsInv(s: State, now: string)
    requires Inv(s) && s.worker.MarkingFailed?
    ensures Inv(FailStep(s, now))
  {
    hide O.MoveRow, TablesOk;
    var change := O.Change(now, "", s.worker.error.code, s.worker.error.message);
    ExecutorMove(s, O.Failed, change);
    var t := FailStep(s, now);
    assert t.ops == O.MoveRow(s.ops, s.worker.op.id, O.Failed, change).0;
    var events := [];
    LogKeepsTables(s.(ops := t.ops), t.worker, events);
    assert s.log + [] == s.log;
    assert t == s.(ops := t.ops).(worker := t.worker, log := s.log + events);
    assert WorkerOk(t);
  }
}
