/** Leasing and ending jobs keep the invariant. */
module PowerTableSteps {
  import opened Wrappers
  import O = Operations
  import J = Jobs
  import JobRuns
  import opened PowerProtocol
  import opened PowerInvariant
  import opened PowerWorkerSteps

  // ----- job steps

  /** Only job `j` differs, it was not finished, and it kept what it is for. */
  ghost predicate JobChanged(s: State, t: State, j: string) {
    && t == s.(jobs := t.jobs) && j in s.jobs && t.jobs.Keys == s.jobs.Keys
    && (forall other :: other in s.jobs && other != j ==> t.jobs[other] == s.jobs[other])
    && t.jobs[j].kind == s.jobs[j].kind && t.jobs[j].payload == s.jobs[j].payload
    && JobRuns.RowOk(t.jobs[j]) && !J.Finished(s.jobs[j].status)
  }

  lemma JobKeepsIndexes(s: State, t: State, j: string)
    requires JobChanged(s, t, j) && JobsOk(s) && CreatorsOk(s) && AnswersOk(s) && QueueOk(s) && StagesOk(s)
    ensures JobsOk(t) && CreatorsOk(t) && AnswersOk(t) && QueueOk(t) && StagesOk(t)
  {
    hide JobRuns.RowOk, StageOk;
    JobKeepsQueue(s, t, j);
    SameClients(s, t);
  }

  lemma JobKeepsQueue(s: State, t: State, j: string)
    requires JobChanged(s, t, j) && JobsOk(s) && QueueOk(s)
    ensures JobsOk(t) && QueueOk(t)
  {
    hide JobRuns.RowOk;
  }

  /** A job may finish when its operation is terminal; otherwise the finish is logged as
      an abandonment. */
  lemma JobKeepsCoupling(s: State, t: State, j: string, abandoned: bool)
    requires JobChanged(s, t, j) && QueueOk(s) && QueueOk(t) && CouplingOk(s)
    requires abandoned ==> t.jobs[j].kind.PowerOperation? && J.Finished(t.jobs[j].status)
    requires J.Finished(t.jobs[j].status) && t.jobs[j].kind.PowerOperation? ==>
      abandoned || (t.jobs[j].payload in t.ops && O.Terminal(t.ops[t.jobs[j].payload].status))
    ensures CouplingOk(t.(log := s.log + if abandoned then [Abandoned(t.jobs[j].payload)] else []))
  {
    hide JobRuns.RowOk;
    assert t.jobs[j].kind.PowerOperation? ==> s.jobs[j].payload in s.queuedAs;
    var log := s.log + if abandoned then [Abandoned(t.jobs[j].payload)] else [];
    forall id | id in t.queuedAs
      ensures J.Finished(t.jobs[t.queuedAs[id]].status) && !O.Terminal(t.ops[id].status) ==> Abandoned(id) in log
      ensures Abandoned(id) in log ==> J.Finished(t.jobs[t.queuedAs[id]].status)
    {
      assert Abandoned(id) in log <==> Abandoned(id) in s.log || (abandoned && id == t.jobs[j].payload);
      assert t.queuedAs[id] == j ==> t.jobs[j].payload == id;
    }
  }

  lemma JobKeepsTables(s: State, t: State, j: string, abandoned: bool)
    requires TablesOk(s) && JobChanged(s, t, j)
    requires abandoned ==> t.jobs[j].kind.PowerOperation? && J.Finished(t.jobs[j].status)
    requires J.Finished(t.jobs[j].status) && t.jobs[j].kind.PowerOperation? ==>
      abandoned || (t.jobs[j].payload in t.ops && O.Terminal(t.ops[t.jobs[j].payload].status))
    ensures TablesOk(t.(log := s.log + if abandoned then [Abandoned(t.jobs[j].payload)] else []))
  {
    hide O.Inv;
    JobKeepsIndexes(s, t, j);
    JobKeepsCoupling(s, t, j, abandoned);
    hide JobChanged, JobsOk, CreatorsOk, AnswersOk, QueueOk, StagesOk, CouplingOk;
    LogKeepsIndexes(t, s.log + if abandoned then [Abandoned(t.jobs[j].payload)] else []);
  }

  lemma LogKeepsIndexes(t: State, log: seq<Event>)
    requires JobsOk(t) && CreatorsOk(t) && AnswersOk(t) && QueueOk(t) && StagesOk(t)
    ensures
      var u := t.(log := log);
      JobsOk(u) && CreatorsOk(u) && AnswersOk(u) && QueueOk(u) && StagesOk(u)
  {
    hide JobRuns.RowOk, StageOk;
    SameClients(t, t.(log := log));
  }

  lemma JobRowOk(s: State, id: string)
    requires TablesOk(s) && id in s.jobs
    ensures JobRuns.RowOk(s.jobs[id])
  {
  }

  lemma LeaseChangesJob(s: State, l: Label)
    requires l.LeaseJob? && l.id in s.jobs && JobRuns.RowOk(s.jobs[l.id]) && J.Due(s.jobs[l.id], l.now)
    ensures JobChanged(s, s.(jobs := LeaseStep(s, l).jobs), l.id)
    ensures LeaseStep(s, l).jobs[l.id].status.Running?
    ensures LeaseOk(LeaseStep(s, l)) && LeaseStep(s, l).worker.Entered?
    ensures LeaseStep(s, l) == s.(jobs := LeaseStep(s, l).jobs, worker := LeaseStep(s, l).worker)
  {
  }

  lemma LeaseKeepsInv(s: State, l: Label)
    requires Inv(s) && l.LeaseJob? && Possible(s, l)
    ensures Inv(LeaseStep(s, l))
  {
    JobRowOk(s, l.id);
    LeaseChangesJob(s, l);
    hide TablesOk, LeaseStep, JobChanged, LeaseOk, J.IsNext;
    JobKeepsTables(s, s.(jobs := LeaseStep(s, l).jobs), l.id, false);
    assert s.log + [] == s.log;
    EnteredKeepsInv(s, LeaseStep(s, l));
  }

  lemma EnteredKeepsInv(s: State, t: State)
    requires TablesOk(s.(jobs := t.jobs, log := s.log)) && t == s.(jobs := t.jobs, worker := t.worker)
    requires t.worker.Entered? && LeaseOk(t)
    ensures Inv(t)
  {
    var u := s.(jobs := t.jobs);
    hide TablesOk, LeaseOk;
    assert u == s.(jobs := t.jobs, log := s.log);
    LogKeepsTables(u, t.worker, []);
    assert t.log + [] == t.log;
    assert t == u.(worker := t.worker, log := t.log + []);
  }

  lemma EndChangesJob(s: State, at: string, message: string)
    requires s.worker.Ending? && LeaseOk(s) && JobRuns.RowOk(s.jobs[s.worker.lease.job])
    requires s.worker.outcome.Stray? ==> !WillRetry(s.worker.lease, s.worker.outcome.error)
    ensures
      var lease, t := s.worker.lease, EndStep(s, at, message);
      && JobChanged(s, s.(jobs := t.jobs), lease.job)
      && t.jobs[lease.job].kind == lease.kind && t.jobs[lease.job].payload == lease.payload
      && t == s.(jobs := t.jobs, worker := Idle,
                 log := s.log + if s.worker.outcome.Stray? then [Abandoned(lease.payload)] else [])
      && (s.worker.outcome.Stray? ==> J.Finished(t.jobs[lease.job].status))
      && (s.worker.outcome.Failed? && WillRetry(lease, s.worker.outcome.error) ==> t.jobs[lease.job].status.Queued?)
  {
    assert s.log + [] == s.log;
  }

  /** Complete, Retry or Fail under the current lease: a power job finishes only with a
      terminal operation, unless a statement failed. */
  lemma EndKeepsInv(s: State, at: string, message: string)
    requires Inv(s) && s.worker.Ending?
    ensures Inv(EndStep(s, at, message))
  {
    JobRowOk(s, s.worker.lease.job);
    EndChangesJob(s, at, message);
    hide TablesOk, EndStep, JobChanged, CopyOk, WillRetry;
    JobKeepsTables(s, s.(jobs := EndStep(s, at, message).jobs), s.worker.lease.job, s.worker.outcome.Stray?);
    IdleKeepsInv(s, EndStep(s, at, message));
  }

  lemma IdleKeepsInv(s: State, t: State)
    requires TablesOk(s.(jobs := t.jobs, log := t.log)) && t == s.(jobs := t.jobs, worker := Idle, log := t.log)
    ensures Inv(t)
  {
    var u := s.(jobs := t.jobs, log := t.log);
    hide TablesOk;
    LogKeepsTables(u, Idle, []);
    assert t.log + [] == t.log;
    assert t == u.(worker := Idle, log := t.log + []);
  }
}
