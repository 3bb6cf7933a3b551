/** Runs that show why the results of PowerRuns and PowerResults cannot be stronger. */
module PowerExamples {
  import opened Wrappers
  import P = Providers
  import O = Operations
  import J = Jobs
  import opened TimeText
  import opened PowerProtocol
  import opened PowerHistory
  import opened PowerRuns

  const START := Request(O.Start, "k")
  const SERVER := Server("server", "connection", P.Stopped, P.Capabilities(true, true, true))
  const ROW := NewOperation("op", SERVER, START, Clock(0))
  const JOB := J.InitialRow(J.PowerOperation, "op", 3, Clock(0))

  /** One operation, one job, one request. */
  function Small(op: O.Operation, job: J.Job, client: Client, worker: Worker, log: seq<Event>): State {
    State(map["op" := op], map["job" := job], map[0 := client], worker, map["op" := 0], map["op" := "job"], log)
  }

  function Owned(stage: Stage): Client {
    Owner(START, "op", true, stage)
  }

  const RUNNING := O.Moved(ROW, O.Running, O.Change(Clock(1), "", "", ""))
  const FIRST := Lease("job", J.PowerOperation, "op", 1, 3)
  const SECOND := Lease("job", J.PowerOperation, "op", 2, 3)

  function LeasedOnce(): J.Job {
    J.LeasedRow(JOB, WORKER, Clock(0), Clock(30))
  }

  function LeasedTwice(): J.Job {
    J.LeasedRow(LeasedOnce(), WORKER, Clock(31), Clock(61))
  }

  const QUEUE: seq<Label> := [Look(0, START, Some(SERVER), "op", Clock(0)), Create(0), Enqueue(0, "job", 3, Clock(0), true)]
  const LEASE: seq<Label> := [LeaseJob("job", Clock(0), Clock(30)), FindOperation, MarkRunning(Clock(1)), Prepare(Ok(P.Stopped))]

  lemma Looking()
    ensures Apply(INITIAL, QUEUE[0]) == INITIAL.(clients := map[0 := Admitted(START, ROW)])
  {
    hide Clock;
  }

  lemma Creating()
    ensures
      Apply(INITIAL.(clients := map[0 := Admitted(START, ROW)]), QUEUE[1])
      == State(map["op" := ROW], map[], map[0 := Owner(START, "op", false, Created)], Idle, map["op" := 0], map[], [])
  {
    hide Clock;
    RequestEffects(INITIAL.(clients := map[0 := Admitted(START, ROW)]), QUEUE[1]);
    hide RequestEffect;
  }

  lemma Enqueueing()
    ensures
      Apply(State(map["op" := ROW], map[], map[0 := Owner(START, "op", false, Created)], Idle, map["op" := 0], map[], []),
            QUEUE[2])
      == READY
  {
    hide Clock;
    var two := State(map["op" := ROW], map[], map[0 := Owner(START, "op", false, Created)], Idle, map["op" := 0], map[], []);
    RequestEffects(two, QUEUE[2]);
    hide RequestEffect;
  }

  lemma Queueing()
    ensures After(QUEUE) == READY
  {
    hide Clock;
    Looking();
    Creating();
    Enqueueing();
    AfterOneMore([], QUEUE[0]);
    AfterOneMore([QUEUE[0]], QUEUE[1]);
    AfterOneMore([QUEUE[0], QUEUE[1]], QUEUE[2]);
    assert After([]) == INITIAL;
    hide Apply, After;
    assert [] + [QUEUE[0]] == [QUEUE[0]] && [QUEUE[0]] + [QUEUE[1]] == [QUEUE[0], QUEUE[1]];
    assert [QUEUE[0], QUEUE[1]] + [QUEUE[2]] == QUEUE;
  }

  const READY := Small(ROW, JOB, Owned(Enqueued), Idle, [])
  const READ: seq<Event> := [Observed("op", P.Stopped)]

  ghost function Two(s: State, a: Label, b: Label): State {
    Apply(Apply(s, a), b)
  }

  lemma TwoMore(labels: seq<Label>, a: Label, b: Label)
    ensures After(labels + [a, b]) == Two(After(labels), a, b)
  {
    hide Clock;
    AfterOneMore(labels, a);
    AfterOneMore(labels + [a], b);
    assert labels + [a] + [b] == labels + [a, b];
    hide Apply, After;
  }

  lemma FourMore(labels: seq<Label>, a: Label, b: Label, c: Label, d: Label)
    ensures After(labels + [a, b, c, d]) == Two(Two(After(labels), a, b), c, d)
  {
    hide Clock;
    TwoMore(labels, a, b);
    TwoMore(labels + [a, b], c, d);
    assert labels + [a, b] + [c, d] == labels + [a, b, c, d];
    hide Two, After;
  }

  // ----- the first attempt, up to the point where the provider is about to be called

  lemma Taking()
    ensures Apply(READY, LEASE[0]) == Small(ROW, LeasedOnce(), Owned(Enqueued), Entered(FIRST), [])
  {
    hide Clock;
    ClockOrder(0, 0);
    J.BeforeIsOrder(JOB, JOB, JOB);
    assert J.IsNext(READY.jobs, Clock(0), "job");
    WorkerEffects(READY, LEASE[0]);
    hide WorkerEffect;
  }

  lemma Finding()
    ensures
      Apply(Small(ROW, LeasedOnce(), Owned(Enqueued), Entered(FIRST), []), LEASE[1])
      == Small(ROW, LeasedOnce(), Owned(Enqueued), Starting(FIRST, ROW), [])
  {
    hide Clock;
    WorkerEffects(Small(ROW, LeasedOnce(), Owned(Enqueued), Entered(FIRST), []), LEASE[1]);
    hide WorkerEffect;
  }

  lemma Running()
    ensures
      Apply(Small(ROW, LeasedOnce(), Owned(Enqueued), Starting(FIRST, ROW), []), LEASE[2])
      == Small(RUNNING, LeasedOnce(), Owned(Enqueued), Preparing(FIRST, RUNNING), [])
  {
    hide Clock;
    WorkerEffects(Small(ROW, LeasedOnce(), Owned(Enqueued), Starting(FIRST, ROW), []), LEASE[2]);
    hide WorkerEffect;
  }

  lemma Reading()
    ensures
      Apply(Small(RUNNING, LeasedOnce(), Owned(Enqueued), Preparing(FIRST, RUNNING), []), LEASE[3])
      == Small(RUNNING, LeasedOnce(), Owned(Enqueued), Acting(FIRST, RUNNING), READ)
  {
    hide Clock;
    WorkerEffects(Small(RUNNING, LeasedOnce(), Owned(Enqueued), Preparing(FIRST, RUNNING), []), LEASE[3]);
    hide WorkerEffect;
  }

  lemma Leasing()
    ensures After(QUEUE + LEASE) == Small(RUNNING, LeasedOnce(), Owned(Enqueued), Acting(FIRST, RUNNING), READ)
  {
    hide Clock;
    hide After, Apply;
    Queueing();
    Taking();
    Finding();
    Running();
    Reading();
    FourMore(QUEUE, LEASE[0], LEASE[1], LEASE[2], LEASE[3]);
  }

  // ----- a write for a request that reported an error

  const UNDO: seq<Label> := [AuditRequest(0, false), Undo(0, Clock(2)), Act(StartServer, Ok("request")), Record(Clock(3))]
  const WRITTEN: seq<Event> := READ + [Issued("job", 1), Accepted("op")]
  const UNDONE := O.Moved(RUNNING, O.Failed, O.Change(Clock(2), "", "audit_failed", "Unable to record operation audit event"))

  lemma AuditFailing()
    ensures
      Apply(Small(RUNNING, LeasedOnce(), Owned(Enqueued), Acting(FIRST, RUNNING), READ), UNDO[0])
      == Small(RUNNING, LeasedOnce(), Owned(Undoing), Acting(FIRST, RUNNING), READ)
  {
    hide Clock;
  }

  lemma FailingTheRow()
    ensures
      Apply(Small(RUNNING, LeasedOnce(), Owned(Undoing), Acting(FIRST, RUNNING), READ), UNDO[1])
      == Small(UNDONE, LeasedOnce(), Owned(Replied(false)), Acting(FIRST, RUNNING), READ)
  {
    hide Clock;
    RequestEffects(Small(RUNNING, LeasedOnce(), Owned(Undoing), Acting(FIRST, RUNNING), READ), UNDO[1]);
    hide RequestEffect;
  }

  lemma Writing(op: O.Operation, client: Client)
    ensures
      Apply(Small(op, LeasedOnce(), client, Acting(FIRST, RUNNING), READ), Act(StartServer, Ok("request")))
      == Small(op, LeasedOnce(), client, Recording(FIRST, RUNNING, "request"), WRITTEN)
  {
    hide Clock;
    WorkerEffects(Small(op, LeasedOnce(), client, Acting(FIRST, RUNNING), READ), Act(StartServer, Ok("request")));
    hide WorkerEffect;
  }

  lemma RecordingTooLate()
    ensures
      Apply(Small(UNDONE, LeasedOnce(), Owned(Replied(false)), Recording(FIRST, RUNNING, "request"), WRITTEN), UNDO[3])
      == Small(UNDONE, LeasedOnce(), Owned(Replied(false)), Ending(FIRST, Failed(P.LOCAL)), WRITTEN)
  {
    hide Clock;
    var one := Small(UNDONE, LeasedOnce(), Owned(Replied(false)), Recording(FIRST, RUNNING, "request"), WRITTEN);
    WorkerEffects(one, UNDO[3]);
    hide WorkerEffect;
  }

  /** The request's audit append fails after the worker began: the request reports an error
      and fails the row, and the worker still has the server powered on. */
  lemma WriteAfterTheRequestFailed()
    ensures
      After(QUEUE + LEASE + UNDO)
      == Small(UNDONE, LeasedOnce(), Owned(Replied(false)), Ending(FIRST, Failed(P.LOCAL)), WRITTEN)
  {
    hide Clock;
    hide After, Apply;
    Leasing();
    AuditFailing();
    FailingTheRow();
    Writing(UNDONE, Owned(Replied(false)));
    RecordingTooLate();
    FourMore(QUEUE + LEASE, UNDO[0], UNDO[1], UNDO[2], UNDO[3]);
  }

  // ----- two accepted writes

  const DIE: seq<Label> := [Act(StartServer, Ok("request")), Crash, LeaseJob("job", Clock(31), Clock(61)), FindOperation]
  const LOST: seq<Event> := READ + [Issued("job", 1), Accepted("op"), Crashed("job"), AcceptanceLost("op")]
  const REDO: seq<Label> := [Prepare(Ok(P.Stopped)), Act(StartServer, Ok("again"))]
  const TWICE: seq<Event> := LOST + READ + [Issued("job", 2), Accepted("op")]

  lemma Dying()
    ensures
      Apply(Small(RUNNING, LeasedOnce(), Owned(Enqueued), Recording(FIRST, RUNNING, "request"), WRITTEN), DIE[1])
      == Small(RUNNING, LeasedOnce(), Owned(Enqueued), Idle, LOST)
  {
    hide Clock;
    var one := Small(RUNNING, LeasedOnce(), Owned(Enqueued), Recording(FIRST, RUNNING, "request"), WRITTEN);
    WorkerEffects(one, DIE[1]);
    hide WorkerEffect;
  }

  lemma TakingAgain()
    ensures
      Apply(Small(RUNNING, LeasedOnce(), Owned(Enqueued), Idle, LOST), DIE[2])
      == Small(RUNNING, LeasedTwice(), Owned(Enqueued), Entered(SECOND), LOST)
  {
    hide Clock;
    var zero := Small(RUNNING, LeasedOnce(), Owned(Enqueued), Idle, LOST);
    ClockOrder(30, 31);
    J.BeforeIsOrder(LeasedOnce(), LeasedOnce(), LeasedOnce());
    assert J.IsNext(zero.jobs, Clock(31), "job");
    WorkerEffects(zero, DIE[2]);
    hide WorkerEffect;
  }

  lemma FindingAgain()
    ensures
      Apply(Small(RUNNING, LeasedTwice(), Owned(Enqueued), Entered(SECOND), LOST), DIE[3])
      == Small(RUNNING, LeasedTwice(), Owned(Enqueued), Preparing(SECOND, RUNNING), LOST)
  {
    hide Clock;
    WorkerEffects(Small(RUNNING, LeasedTwice(), Owned(Enqueued), Entered(SECOND), LOST), DIE[3]);
    hide WorkerEffect;
  }

  lemma WritingAgain()
    ensures
      Two(Small(RUNNING, LeasedTwice(), Owned(Enqueued), Preparing(SECOND, RUNNING), LOST), REDO[0], REDO[1])
      == Small(RUNNING, LeasedTwice(), Owned(Enqueued), Recording(SECOND, RUNNING, "again"), TWICE)
  {
    hide Clock;
    var zero := Small(RUNNING, LeasedTwice(), Owned(Enqueued), Preparing(SECOND, RUNNING), LOST);
    WorkerEffects(zero, REDO[0]);
    var one := Small(RUNNING, LeasedTwice(), Owned(Enqueued), Acting(SECOND, RUNNING), LOST + READ);
    WorkerEffects(one, REDO[1]);
    hide WorkerEffect;
    assert Apply(zero, REDO[0]) == one;
  }

  /** One crash between acceptance and recording, and the provider accepts two writes. */
  lemma TwoAcceptedWrites()
    ensures
      var log := After(QUEUE + LEASE + DIE + REDO).log;
      Count(log, Accepted("op")) == 2 == 1 + Count(log, AcceptanceLost("op"))
  {
    hide Clock;
    hide After, Apply;
    Leasing();
    Writing(RUNNING, Owned(Enqueued));
    Dying();
    TakingAgain();
    FindingAgain();
    WritingAgain();
    FourMore(QUEUE + LEASE, DIE[0], DIE[1], DIE[2], DIE[3]);
    TwoMore(QUEUE + LEASE + DIE, REDO[0], REDO[1]);
  }

  // ----- two stranded operations

  const INSERTED := State(map["op" := ROW], map[], map[0 := Owner(START, "op", false, Created)], Idle, map["op" := 0], map[], [])
  const KILLED: seq<Label> := [QUEUE[0], QUEUE[1], Kill(0)]

  lemma Killing()
    ensures Apply(INSERTED, Kill(0)) == INSERTED.(clients := map[0 := Owner(START, "op", false, Killed)])
  {
    hide Clock;
  }

  /** The request is killed between its two inserts. */
  lemma KilledRequestStrands()
    ensures Stranded(After(KILLED), "op")
  {
    hide Clock, Apply, After;
    Looking();
    Creating();
    Killing();
    AfterNothing();
    AfterOneMore([], QUEUE[0]);
    AfterOneMore([QUEUE[0]], QUEUE[1]);
    AfterOneMore([QUEUE[0], QUEUE[1]], Kill(0));
    assert [] + [QUEUE[0]] == [QUEUE[0]] && [QUEUE[0]] + [QUEUE[1]] == [QUEUE[0], QUEUE[1]];
    assert [QUEUE[0], QUEUE[1]] + [Kill(0)] == KILLED;
    var s := INSERTED.(clients := map[0 := Owner(START, "op", false, Killed)]);
    assert CreatedBy(s, 0, "op") && Over(s.clients[0]);
  }

  lemma AfterNothing()
    ensures After([]) == INITIAL
  {
  }

  const FAULTY: seq<Label> := [AuditRequest(0, true), LEASE[0], StatementFails, EndJob(Clock(2), "storage error")]
  const ACCEPTED := Small(ROW, JOB, Owned(Replied(true)), Idle, [])

  function Broken(): J.Job {
    J.EndedRow(LeasedOnce(), J.Failed, Clock(2), "storage error")
  }

  lemma Accepting()
    ensures Apply(READY, FAULTY[0]) == ACCEPTED
  {
    hide Clock;
  }

  lemma TakingAccepted()
    ensures Apply(ACCEPTED, FAULTY[1]) == Small(ROW, LeasedOnce(), Owned(Replied(true)), Entered(FIRST), [])
  {
    hide Clock;
    ClockOrder(0, 0);
    J.BeforeIsOrder(JOB, JOB, JOB);
    assert J.IsNext(ACCEPTED.jobs, Clock(0), "job");
    WorkerEffects(ACCEPTED, FAULTY[1]);
    hide WorkerEffect;
  }

  lemma Breaking()
    ensures
      Apply(Small(ROW, LeasedOnce(), Owned(Replied(true)), Entered(FIRST), []), FAULTY[2])
      == Small(ROW, LeasedOnce(), Owned(Replied(true)), Ending(FIRST, Stray(P.LOCAL, false)), [])
  {
    hide Clock;
    WorkerEffects(Small(ROW, LeasedOnce(), Owned(Replied(true)), Entered(FIRST), []), FAULTY[2]);
    hide WorkerEffect;
  }

  lemma EndingBroken()
    ensures
      Apply(Small(ROW, LeasedOnce(), Owned(Replied(true)), Ending(FIRST, Stray(P.LOCAL, false)), []), FAULTY[3])
      == Small(ROW, Broken(), Owned(Replied(true)), Idle, [Abandoned("op")])
  {
    hide Clock;
    WorkerEffects(Small(ROW, LeasedOnce(), Owned(Replied(true)), Ending(FIRST, Stray(P.LOCAL, false)), []), FAULTY[3]);
    hide WorkerEffect;
  }

  /** Request succeeded, and one failing read of the row ends the job under it. */
  lemma FailedReadStrands()
    ensures Stranded(After(QUEUE + FAULTY), "op")
  {
    hide Clock, Apply, After;
    Queueing();
    Accepting();
    TakingAccepted();
    Breaking();
    EndingBroken();
    FourMore(QUEUE, FAULTY[0], FAULTY[1], FAULTY[2], FAULTY[3]);
    var s := Small(ROW, Broken(), Owned(Replied(true)), Idle, [Abandoned("op")]);
    assert CreatedBy(s, 0, "op") && Over(s.clients[0]);
  }
}
