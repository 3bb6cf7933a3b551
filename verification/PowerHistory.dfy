/** What a run of the power-operation protocol did: its account of provider writes and of
    accepted writes, and what the other accounts say. */
module PowerHistory {
  import opened Wrappers
  import P = Providers
  import O = Operations
  import J = Jobs
  import opened PowerProtocol
  import opened PowerInvariant
  import opened PowerRuns
  import opened PowerRequestSteps
  import opened PowerWorkerSteps

  ghost function Count(log: seq<Event>, e: Event): nat {
    multiset(log)[e]
  }

  lemma CountAppend(log: seq<Event>, f: Event, e: Event)
    ensures Count(log + [f], e) == Count(log, e) + if e == f then 1 else 0
  {
  }

  lemma CountMember(log: seq<Event>, e: Event)
    ensures Count(log, e) > 0 <==> e in log
  {
  }

  // ----- provider writes

  /** Calls to Start/Stop/RebootServer under one lease. */
  ghost function Writes(log: seq<Event>, job: string, attempt: nat): nat {
    Count(log, Issued(job, attempt))
  }

  ghost predicate IssuesOk(s: State) {
    && (forall j, a: nat :: Writes(s.log, j, a) <= 1)
    && (forall j, a: nat :: Issued(j, a) in s.log ==> j in s.jobs && a <= s.jobs[j].attempts)
    && (BeforeWrite(s.worker) ==> Issued(s.worker.lease.job, s.worker.lease.attempts) !in s.log)
  }

  /** Accepted writes not explained by a crash before their recording. */
  ghost predicate Spent(log: seq<Event>, id: string) {
    Count(log, Accepted(id)) > Count(log, AcceptanceLost(id))
  }

  /** No accepted write has been recorded and none is pending, but a write may still come. */
  predicate Unrecorded(s: State, id: string)
    requires id in s.ops
  {
    MayWrite(s.ops[id].status) && Pending(s.worker) != Some(id) && Abandoned(id) !in s.log
  }

  predicate MayWrite(status: O.Status) {
    status.Queued? || status.Running?
  }

  ghost predicate AcceptancesOk(s: State) {
    && (forall id :: Count(s.log, Accepted(id)) <= Count(s.log, AcceptanceLost(id)) + 1)
    && (forall id :: Accepted(id) in s.log ==> id in s.ops)
    && (forall id :: id in s.ops && Unrecorded(s, id) ==> !Spent(s.log, id))
    && (WriteAhead(s.worker) ==> !Spent(s.log, s.worker.op.id))
  }

  // ----- evidence behind a success

  /** At position `i` the state was observed, for a reboot after the provider accepted it. */
  ghost predicate SeenAt(log: seq<Event>, i: nat, id: string, action: O.Action, state: P.ServerState)
    requires i < |log|
  {
    log[i] == Observed(id, state) && (action.Reboot? ==> Accepted(id) in log[..i])
  }

  ghost predicate Seen(log: seq<Event>, id: string, action: O.Action, state: P.ServerState) {
    exists i: nat :: i < |log| && SeenAt(log, i, id, action, state)
  }

  ghost predicate SeenThenStored(log: seq<Event>, k: nat, id: string, action: O.Action, state: P.ServerState)
    requires k <= |log|
  {
    exists i: nat, j: nat :: i < j < k && SeenAt(log, i, id, action, state) && log[j] == Stored(id, state)
  }

  /** Before position `k` the operation's target state was observed, for a reboot after its
      acceptance, and then written to inventory. */
  ghost predicate VerifiedBefore(log: seq<Event>, k: nat, id: string, action: O.Action)
    requires k <= |log|
  {
    exists state :: O.VerificationTargetReached(action, state) && SeenThenStored(log, k, id, action, state)
  }

  ghost predicate SuccessOk(s: State) {
    && (forall k :: 0 <= k < |s.log| && s.log[k].Succeeded? ==>
          s.log[k].id in s.ops && VerifiedBefore(s.log, k, s.log[k].id, s.ops[s.log[k].id].action))
    && (forall id :: id in s.ops && s.ops[id].status.Succeeded? ==> PowerProtocol.Succeeded(id) in s.log)
  }

  /** What the executor's copy knows about the provider's side. */
  ghost predicate CopyEvidence(worker: Worker, log: seq<Event>) {
    HasCopy(worker) ==>
      && (worker.op.status.Verifying? || worker.Recording? ==> Accepted(worker.op.id) in log)
      && (worker.Storing? || worker.Succeeding? ==>
            O.VerificationTargetReached(worker.op.action, worker.seen))
      && (worker.Storing? ==> Seen(log, worker.op.id, worker.op.action, worker.seen))
      && (worker.Succeeding? ==> SeenThenStored(log, |log|, worker.op.id, worker.op.action, worker.seen))
  }

  ghost predicate RowEvidence(s: State) {
    forall id :: id in s.ops && s.ops[id].status.Verifying? ==> Accepted(id) in s.log
  }

  ghost predicate EvidenceOk(s: State) {
    RowEvidence(s) && CopyEvidence(s.worker, s.log)
  }

  // ----- attempts and crashes

  ghost predicate Held(s: State, j: string) {
    !s.worker.Idle? && s.worker.lease.job == j
  }

  ghost predicate AttemptsOk(s: State) {
    forall j :: j in s.jobs ==>
      && s.jobs[j].attempts <= s.jobs[j].maxAttempts + Count(s.log, Crashed(j))
      && (s.jobs[j].status.Running? && !Held(s, j) ==>
            s.jobs[j].attempts < s.jobs[j].maxAttempts + Count(s.log, Crashed(j)))
  }

  ghost predicate HistoryOk(s: State) {
    IssuesOk(s) && AcceptancesOk(s) && SuccessOk(s) && EvidenceOk(s) && AttemptsOk(s)
  }

  // ----- request steps append nothing

  /** A request step keeps every job row and every operation, and moves operations only
      to terminal or from nothing to queued. */
  ghost predicate RequestFrame(s: State, t: State) {
    && t.worker == s.worker && t.log == s.log
    && (forall j :: j in s.jobs ==> j in t.jobs && t.jobs[j] == s.jobs[j])
    && (forall j :: j in t.jobs && j !in s.jobs ==> t.jobs[j].status.Queued? && t.jobs[j].attempts == 0 < t.jobs[j].maxAttempts)
    && (forall id :: id in s.ops ==> (
          && id in t.ops && t.ops[id].action == s.ops[id].action
          && (t.ops[id].status == s.ops[id].status || t.ops[id].status.Failed?)))
    && (forall id :: id in t.ops && id !in s.ops ==> t.ops[id].status.Queued?)
  }

  lemma RequestIsFramed(s: State, l: Label)
    requires IsRequestStep(l) && RequestPossible(s, l)
    ensures RequestFrame(s, RequestEffect(s, l))
  {
    RequestEffects(s, l);
    hide RequestEffect, EnqueueSyncStep, CreateStep, EnqueueStep, UndoStep;
    if l.Create? {
      CreateIsFramed(s, l.client);
    } else if l.Enqueue? {
      EnqueueIsFramed(s, l);
    } else if l.Undo? {
      UndoIsFramed(s, l.client, l.now);
    } else if l.EnqueueSync? {
      EnqueueSyncIsFramed(s, l);
    }
  }

  lemma EnqueueSyncIsFramed(s: State, l: Label)
    requires l.EnqueueSync? && l.maxAttempts >= 1
    ensures RequestFrame(s, EnqueueSyncStep(s, l))
  {
  }

  lemma CreateIsFramed(s: State, c: nat)
    requires c in s.clients && s.clients[c].Admitted?
    ensures RequestFrame(s, CreateStep(s, c))
  {
    hide O.FindByKey;
  }

  lemma EnqueueIsFramed(s: State, l: Label)
    requires l.Enqueue? && AtStage(s, l.client, Created) && l.maxAttempts >= 1
    ensures RequestFrame(s, EnqueueStep(s, l))
  {
  }

  lemma UndoIsFramed(s: State, c: nat, now: string)
    requires AtStage(s, c, Undoing)
    ensures RequestFrame(s, UndoStep(s, c, now))
  {
  }

  lemma RequestKeepsHistory(s: State, t: State)
    requires Inv(s) && HistoryOk(s) && RequestFrame(s, t)
    ensures HistoryOk(t)
  {
    hide Inv, VerifiedBefore, SeenThenStored;
    assert IssuesOk(t);
    RequestKeepsAcceptances(s, t);
    RequestKeepsSuccess(s, t);
  }

  lemma RequestKeepsAcceptances(s: State, t: State)
    requires AcceptancesOk(s) && EvidenceOk(s) && AttemptsOk(s) && RequestFrame(s, t)
    ensures AcceptancesOk(t) && EvidenceOk(t) && AttemptsOk(t)
  {
    hide SeenThenStored, Seen;
    forall id | id in t.ops && Unrecorded(t, id)
      ensures !Spent(t.log, id)
    {
      CountMember(s.log, Accepted(id));
    }
  }

  lemma RequestKeepsSuccess(s: State, t: State)
    requires SuccessOk(s) && RequestFrame(s, t)
    ensures SuccessOk(t)
  {
    hide VerifiedBefore;
  }

  // ----- worker steps

  /** What a worker step appends. */
  ghost function EventsOf(s: State, l: Label): seq<Event>
    requires !IsRequestStep(l) && WorkerPossible(s, l)
  {
    match l
    case Prepare(reading) => Reading(s, reading)
    case Act(_, receipt) => Acted(s, receipt)
    case Poll(reading, _) => Reading(s, reading)
    case StoreRemote(stored) => if stored then [Stored(s.worker.op.id, s.worker.seen)] else []
    case MarkSucceeded(now) =>
      if SucceedStep(s, now).worker.Auditing? then [PowerProtocol.Succeeded(s.worker.op.id)] else []
    case EndJob(at, message) => Ended(s, at, message)
    case Crash => CrashEvents(s)
    case _ => []
  }

  function Ended(s: State, at: string, message: string): seq<Event>
    requires s.worker.Ending?
  {
    if EndedJobs(s, at, message).Ok? && s.worker.outcome.Stray? then [Abandoned(s.worker.lease.payload)] else []
  }

  lemma WorkerLog(s: State, l: Label)
    requires !IsRequestStep(l) && WorkerPossible(s, l)
    ensures WorkerEffect(s, l).log == s.log + EventsOf(s, l)
  {
    WorkerEffects(s, l);
    if l.EndJob? {
      EndLog(s, l.at, l.message);
    }
    hide WorkerEffect, SyncStep, FindStep, RunStep, PrepareStep, ActStep, RecordStep, PollStep, TimeOutStep, StoreStep,
         SucceedStep, LookAgainStep, FailStep, AuditStep, FaultStep, EndStep, CrashStep, OnlyMoves, Ended;
    assert s.log + [] == s.log;
  }

  lemma EndLog(s: State, at: string, message: string)
    requires s.worker.Ending?
    ensures EndStep(s, at, message).log == s.log + Ended(s, at, message)
  {
    hide EndedJobs;
    assert s.log + [] == s.log;
  }

  // --- writes per lease

  lemma OneMoreIssue(log: seq<Event>, events: seq<Event>, j: string, a: nat)
    requires |events| <= 2 && forall i :: 0 < i < |events| ==> !events[i].Issued?
    ensures Writes(log + events, j, a) == Writes(log, j, a) + if events != [] && events[0] == Issued(j, a) then 1 else 0
    ensures Issued(j, a) in log + events <==> Issued(j, a) in log || (events != [] && events[0] == Issued(j, a))
  {
    if |events| == 1 {
      assert events == [events[0]];
    } else if |events| == 2 {
      assert events == [events[0], events[1]];
    } else {
      assert log + events == log;
    }
  }

  /** Apart from Act and LeaseJob a step issues nothing and cannot come before the write
      unless it already was. */
  ghost predicate IssuesFrame(s: State, t: State, events: seq<Event>) {
    && t.log == s.log + events && |events| <= 2
    && (forall e :: e in events ==> !e.Issued?)
    && (forall j :: j in s.jobs ==> j in t.jobs && s.jobs[j].attempts <= t.jobs[j].attempts)
    && (BeforeWrite(t.worker) ==> BeforeWrite(s.worker) && t.worker.lease == s.worker.lease)
  }

  lemma IssuesFramed(s: State, t: State, events: seq<Event>)
    requires IssuesOk(s) && IssuesFrame(s, t, events)
    ensures IssuesOk(t)
  {
    forall j, a: nat
      ensures Writes(t.log, j, a) == Writes(s.log, j, a) && (Issued(j, a) in t.log <==> Issued(j, a) in s.log)
    {
      OneMoreIssue(s.log, events, j, a);
    }
  }

  lemma LeaseKeepsIssues(s: State, l: Label)
    requires IssuesOk(s) && l.LeaseJob? && WorkerPossible(s, l)
    ensures IssuesOk(LeaseStep(s, l))
  {
    hide J.Due, Writes;
  }

  lemma ActKeepsIssues(s: State, receipt: Result<string, P.Error>)
    requires IssuesOk(s) && LeaseOk(s) && s.worker.Acting?
    ensures IssuesOk(ActStep(s, receipt))
  {
    var t := ActStep(s, receipt);
    var issued := Issued(s.worker.lease.job, s.worker.lease.attempts);
    var events := Acted(s, receipt);
    CountMember(s.log, issued);
    forall j, a: nat
      ensures Writes(t.log, j, a) <= 1
      ensures Issued(j, a) in t.log ==> j in t.jobs && a <= t.jobs[j].attempts
    {
      OneMoreIssue(s.log, events, j, a);
    }
  }

  lemma OtherIssuesFrame(s: State, l: Label)
    requires LeaseOk(s) && !IsRequestStep(l) && WorkerPossible(s, l) && !l.LeaseJob? && !l.Act?
    ensures IssuesFrame(s, WorkerEffect(s, l), EventsOf(s, l))
  {
    WorkerLog(s, l);
    if l.EndJob? {
      WorkerEffects(s, l);
      EndTouchesOne(s, l.at, l.message);
      EndKeepsAttempts(s, l.at, l.message);
    }
    hide WorkerEffect, SucceedStep, EndStep, EndedJobs, LeaseOk;
  }

  lemma EndKeepsAttempts(s: State, at: string, message: string)
    requires s.worker.Ending? && LeaseOk(s)
    ensures
      var j := s.worker.lease.job;
      EndStep(s, at, message).jobs[j].attempts == s.jobs[j].attempts && EndStep(s, at, message).worker.Idle?
      && EndStep(s, at, message).jobs[j].maxAttempts == s.jobs[j].maxAttempts
      && !EndStep(s, at, message).jobs[j].status.Running?
  {
  }

  lemma WorkerKeepsIssues(s: State, l: Label)
    requires IssuesOk(s) && LeaseOk(s) && !IsRequestStep(l) && WorkerPossible(s, l)
    ensures IssuesOk(WorkerEffect(s, l))
  {
    WorkerEffects(s, l);
    hide WorkerEffect, IssuesFrame;
    if l.LeaseJob? {
      LeaseKeepsIssues(s, l);
    } else if l.Act? {
      ActKeepsIssues(s, l.receipt);
    } else {
      OtherIssuesFrame(s, l);
      IssuesFramed(s, WorkerEffect(s, l), EventsOf(s, l));
    }
  }

  // --- accepted writes per operation

  lemma CountConcat(log: seq<Event>, events: seq<Event>, e: Event)
    ensures Count(log + events, e) == Count(log, e) + Count(events, e)
    ensures e !in events ==> Count(log + events, e) == Count(log, e)
  {
    assert multiset(log + events) == multiset(log) + multiset(events);
  }

  /** The executor is on its way to a write for this copy. */
  predicate WriteAhead(worker: Worker) {
    worker.Starting? || worker.Acting? || (worker.Preparing? && worker.op.status.Running?)
  }

  predicate Quiescent(events: seq<Event>) {
    forall e :: e in events ==> !e.Accepted? && !e.AcceptanceLost?
  }

  /** A step that accepts and loses nothing and moves no operation back. */
  ghost predicate AcceptFrame(s: State, t: State, events: seq<Event>) {
    && t.log == s.log + events && Quiescent(events)
    && t.ops.Keys == s.ops.Keys
    && NoneReopened(s.ops, t.ops) && SettlesPending(s, t)
    && (WriteAhead(t.worker) ==> !Spent(s.log, t.worker.op.id))
  }

  /** No row moves back before its write. */
  ghost predicate NoneReopened(was: O.Table, now: O.Table) {
    forall id :: id in now && id in was && MayWrite(now[id].status) ==> MayWrite(was[id].status)
  }

  /** A pending acceptance stays pending, is recorded, or its operation is closed or abandoned. */
  ghost predicate SettlesPending(s: State, t: State) {
    Pending(s.worker).Some? ==>
      var id := Pending(s.worker).value;
      Pending(t.worker) == Some(id) || (id in t.ops && !MayWrite(t.ops[id].status)) || Abandoned(id) in t.log
  }

  lemma AcceptFramed(s: State, t: State, events: seq<Event>)
    requires AcceptancesOk(s) && AcceptFrame(s, t, events)
    ensures AcceptancesOk(t)
  {
    forall id
      ensures Abandoned(id) in s.log ==> Abandoned(id) in t.log
      ensures Count(t.log, Accepted(id)) == Count(s.log, Accepted(id))
      ensures Count(t.log, AcceptanceLost(id)) == Count(s.log, AcceptanceLost(id))
      ensures Accepted(id) in t.log ==> Accepted(id) in s.log
    {
      CountConcat(s.log, events, Accepted(id));
      CountConcat(s.log, events, AcceptanceLost(id));
    }
    hide Count, Spent, WriteAhead, MayWrite;
    SameSpent(s.log, t.log);
  }

  lemma SameSpent(log: seq<Event>, more: seq<Event>)
    requires forall id :: Count(more, Accepted(id)) == Count(log, Accepted(id)) && Count(more, AcceptanceLost(id)) == Count(log, AcceptanceLost(id))
    ensures forall id :: Spent(more, id) <==> Spent(log, id)
  {
    hide Count;
  }

  /** A leased operation was not abandoned: its job would be finished. */
  lemma LeasedIsNotAbandoned(s: State)
    requires Inv(s) && !s.worker.Idle? && s.worker.lease.kind.PowerOperation?
    ensures s.worker.lease.payload in s.ops && s.ops[s.worker.lease.payload].id == s.worker.lease.payload
    ensures Abandoned(s.worker.lease.payload) !in s.log
  {
    LeasedOperation(s);
  }

  lemma FindKeepsAcceptances(s: State)
    requires Inv(s) && AcceptancesOk(s) && s.worker.Entered? && s.worker.lease.kind.PowerOperation?
    ensures AcceptancesOk(FindStep(s))
  {
    LeasedIsNotAbandoned(s);
    hide Inv;
    FindIsFramed(s);
    hide AcceptFrame, AcceptancesOk, FindStep;
    AcceptFramed(s, FindStep(s), []);
  }

  lemma FindIsFramed(s: State)
    requires AcceptancesOk(s) && s.worker.Entered?
    requires
      var id := s.worker.lease.payload;
      id in s.ops && s.ops[id].id == id && Abandoned(id) !in s.log
    ensures AcceptFrame(s, FindStep(s), [])
  {
    hide Spent;
    var t := FindStep(s);
    assert WriteAhead(t.worker) ==> Unrecorded(s, s.worker.lease.payload) && t.worker.op.id == s.worker.lease.payload;
    assert s.log + [] == s.log;
  }

  lemma RunKeepsAcceptances(s: State, now: string)
    requires AcceptancesOk(s) && s.worker.Starting? && O.Inv(s.ops) && s.worker.op.id in s.ops
    ensures AcceptancesOk(RunStep(s, now))
  {
    RunIsFramed(s, now);
    hide AcceptFrame, AcceptancesOk, RunStep;
    AcceptFramed(s, RunStep(s, now), []);
  }

  lemma RunIsFramed(s: State, now: string)
    requires s.worker.Starting? && !Spent(s.log, s.worker.op.id) && O.Inv(s.ops) && s.worker.op.id in s.ops
    ensures AcceptFrame(s, RunStep(s, now), [])
  {
    MoveFacts(s.ops, s.worker.op.id, O.Running, O.Change(now, "", "", ""));
    hide Spent, O.MoveRow, O.Inv;
    assert s.log + [] == s.log;
  }

  lemma PrepareKeepsAcceptances(s: State, reading: Result<P.ServerState, P.Error>)
    requires AcceptancesOk(s) && s.worker.Preparing? && CopyStatusOk(s.worker)
    ensures AcceptancesOk(PrepareStep(s, reading))
  {
    hide Spent;
    AcceptFramed(s, PrepareStep(s, reading), Reading(s, reading));
  }

  lemma CountTwo(log: seq<Event>, first: Event, second: Event, e: Event)
    requires first != second
    ensures Count(log + [first, second], e) == Count(log, e) + if e == first || e == second then 1 else 0
    ensures e in log + [first, second] <==> e in log || e == first || e == second
  {
    CountAppend(log, first, e);
    CountAppend(log + [first], second, e);
    assert log + [first] + [second] == log + [first, second];
  }

  lemma ActKeepsAcceptances(s: State, receipt: Result<string, P.Error>)
    requires AcceptancesOk(s) && s.worker.Acting? && s.worker.op.id in s.ops
    ensures AcceptancesOk(ActStep(s, receipt))
  {
    var t := ActStep(s, receipt);
    if receipt.Err? {
      hide Spent;
      AcceptFramed(s, t, Acted(s, receipt));
    } else {
      AcceptOne(s, t, Issued(s.worker.lease.job, s.worker.lease.attempts));
    }
  }

  /** The provider accepted the worker's write. */
  lemma AcceptOne(s: State, t: State, issued: Event)
    requires AcceptancesOk(s) && s.worker.Acting? && s.worker.op.id in s.ops && issued.Issued?
    requires t.log == s.log + [issued, Accepted(s.worker.op.id)]
    requires t.ops == s.ops && t.worker.Recording? && t.worker.op == s.worker.op
    ensures AcceptancesOk(t)
  {
    forall id
      ensures Count(t.log, Accepted(id)) == Count(s.log, Accepted(id)) + if id == s.worker.op.id then 1 else 0
      ensures Count(t.log, AcceptanceLost(id)) == Count(s.log, AcceptanceLost(id))
      ensures Accepted(id) in t.log ==> Accepted(id) in s.log || id == s.worker.op.id
      ensures Abandoned(id) in s.log ==> Abandoned(id) in t.log
    {
      CountTwo(s.log, issued, Accepted(s.worker.op.id), Accepted(id));
      CountTwo(s.log, issued, Accepted(s.worker.op.id), AcceptanceLost(id));
    }
    hide Count;
  }

  lemma RecordKeepsAcceptances(s: State, now: string)
    requires AcceptancesOk(s) && s.worker.Recording? && O.Inv(s.ops) && s.worker.op.id in s.ops
    requires s.ops[s.worker.op.id].status.Running? || O.Terminal(s.ops[s.worker.op.id].status)
    ensures AcceptancesOk(RecordStep(s, now))
  {
    var t := RecordStep(s, now);
    RecordMoves(s, now);
    hide Spent, WriteAhead, AcceptancesOk, RecordStep, O.Inv, NoneReopened, SettlesPending;
    assert s.log + [] == s.log;
    AcceptFramed(s, t, []);
  }

  lemma RecordMoves(s: State, now: string)
    requires s.worker.Recording? && O.Inv(s.ops) && s.worker.op.id in s.ops
    requires s.ops[s.worker.op.id].status.Running? || O.Terminal(s.ops[s.worker.op.id].status)
    ensures
      var t := RecordStep(s, now);
      && t.ops.Keys == s.ops.Keys && !WriteAhead(t.worker)
      && NoneReopened(s.ops, t.ops) && SettlesPending(s, t)
  {
    MoveFacts(s.ops, s.worker.op.id, O.Verifying, O.Change(now, s.worker.requestId, "", ""));
    hide O.MoveRow, O.Inv;
  }

  lemma CrashKeepsAcceptances(s: State)
    requires AcceptancesOk(s) && !s.worker.Idle?
    requires Pending(s.worker).Some? ==> Pending(s.worker).value in s.ops
    ensures AcceptancesOk(CrashStep(s))
  {
    var t := CrashStep(s);
    if Pending(s.worker).None? {
      hide Spent;
      AcceptFramed(s, t, CrashEvents(s));
    } else {
      LoseOne(s, t, Crashed(s.worker.lease.job), Pending(s.worker).value);
    }
  }

  /** The worker died before recording an accepted write. */
  lemma LoseOne(s: State, t: State, crashed: Event, lost: string)
    requires AcceptancesOk(s) && Pending(s.worker) == Some(lost) && lost in s.ops && crashed.Crashed?
    requires t.log == s.log + [crashed, AcceptanceLost(lost)]
    requires t.ops == s.ops && t.worker.Idle?
    ensures AcceptancesOk(t)
  {
    forall id
      ensures Count(t.log, Accepted(id)) == Count(s.log, Accepted(id))
      ensures Count(t.log, AcceptanceLost(id)) == Count(s.log, AcceptanceLost(id)) + if id == lost then 1 else 0
      ensures Accepted(id) in t.log ==> Accepted(id) in s.log
      ensures Abandoned(id) in s.log ==> Abandoned(id) in t.log
    {
      CountTwo(s.log, crashed, AcceptanceLost(lost), Accepted(id));
      CountTwo(s.log, crashed, AcceptanceLost(lost), AcceptanceLost(id));
    }
    hide Count;
  }

  /** Steps that leave the operations table and the provider's side alone. */
  predicate StillStep(l: Label) {
    || l.LeaseJob? || l.EndJob? || l.HandleSync? || l.Poll? || l.StoreRemote? || l.LookAgain? || l.AppendAudit?
    || l.StatementFails?
  }

  lemma StillKeepsAcceptances(s: State, l: Label)
    requires AcceptancesOk(s) && StillStep(l) && WorkerPossible(s, l) && LeaseOk(s) && CopyOk(s)
    ensures AcceptancesOk(WorkerEffect(s, l))
  {
    StillIsFramed(s, l);
    hide WorkerEffect, AcceptancesOk, AcceptFrame, LeaseOk, CopyOk;
    AcceptFramed(s, WorkerEffect(s, l), EventsOf(s, l));
  }

  lemma StillIsFramed(s: State, l: Label)
    requires StillStep(l) && WorkerPossible(s, l) && LeaseOk(s) && CopyOk(s)
    ensures AcceptFrame(s, WorkerEffect(s, l), EventsOf(s, l))
    ensures WorkerEffect(s, l).ops == s.ops
  {
    WorkerEffects(s, l);
    WorkerLog(s, l);
    StillMoves(s, l, WorkerEffect(s, l));
    hide WorkerEffect, WorkerPossible, EventsOf, EndedJobs, Spent, OnlyMoves, SettlesPending, WriteAhead, LeaseOk, CopyOk;
  }

  lemma StillMoves(s: State, l: Label, t: State)
    requires StillStep(l) && WorkerPossible(s, l) && LeaseOk(s) && CopyOk(s) && t == WorkerEffect(s, l)
    ensures t.ops == s.ops && !WriteAhead(t.worker) && Quiescent(EventsOf(s, l))
    ensures SettlesPending(s, t)
  {
    LeavesOps(s, l, t);
    QuietEvents(s, l);
    hide WorkerEffect, WorkerPossible, EventsOf, OnlyMoves, SettlesPending;
    if l.EndJob? {
      EndSettles(s, l.at, l.message);
      WorkerEffects(s, l);
    } else {
      KeepsPending(s, l, t);
    }
    hide LeaseOk, CopyOk;
  }

  lemma KeepsPending(s: State, l: Label, t: State)
    requires StillStep(l) && !l.EndJob? && WorkerPossible(s, l) && CopyOk(s) && t == WorkerEffect(s, l)
    ensures SettlesPending(s, t)
  {
    if l.StatementFails? {
      WorkerEffects(s, l);
      hide WorkerEffect, OnlyMoves, NotAstray;
    } else {
      hide WorkerEffect, CopyOk;
    }
  }

  lemma EndSettles(s: State, at: string, message: string)
    requires s.worker.Ending? && LeaseOk(s)
    ensures SettlesPending(s, EndStep(s, at, message))
  {
    EndAbandons(s, at, message);
    hide EndStep, LeaseOk;
  }

  lemma EndAbandons(s: State, at: string, message: string)
    requires s.worker.Ending? && LeaseOk(s)
    ensures s.worker.outcome.Stray? ==> Abandoned(s.worker.lease.payload) in EndStep(s, at, message).log
  {
  }

  lemma QuietEvents(s: State, l: Label)
    requires StillStep(l) && WorkerPossible(s, l)
    ensures Quiescent(EventsOf(s, l))
  {
    hide EndedJobs, J.IsNext;
  }

  lemma LeavesOps(s: State, l: Label, t: State)
    requires StillStep(l) && WorkerPossible(s, l) && t == WorkerEffect(s, l)
    ensures t.ops == s.ops && !WriteAhead(t.worker)
  {
    hide WorkerEffect, J.IsNext;
  }

  /** The steps that end an operation. */
  predicate FinalStep(l: Label) {
    l.MarkTimedOut? || l.MarkSucceeded? || l.MarkFailed?
  }

  lemma FinalKeepsAcceptances(s: State, l: Label)
    requires AcceptancesOk(s) && FinalStep(l) && WorkerPossible(s, l) && O.Inv(s.ops)
    ensures AcceptancesOk(WorkerEffect(s, l))
  {
    var t := WorkerEffect(s, l);
    FinalMoves(s, l, t);
    ClosesRecorded(s, t);
    WorkerLog(s, l);
    FinalQuiet(s, l);
    hide WorkerEffect, WorkerPossible, EventsOf, AcceptancesOk, NoneReopened, SettlesPending, Spent, O.Inv, Closes, Quiescent;
    AcceptFramed(s, t, EventsOf(s, l));
  }

  lemma FinalQuiet(s: State, l: Label)
    requires FinalStep(l) && WorkerPossible(s, l)
    ensures Quiescent(EventsOf(s, l))
  {
    hide SucceedStep;
  }

  lemma ClosesRecorded(s: State, t: State)
    requires Closes(s, t) && Pending(s.worker).None?
    ensures t.ops.Keys == s.ops.Keys && !WriteAhead(t.worker) && NoneReopened(s.ops, t.ops) && SettlesPending(s, t)
  {
  }

  lemma FinalMoves(s: State, l: Label, t: State)
    requires FinalStep(l) && WorkerPossible(s, l) && O.Inv(s.ops) && t == WorkerEffect(s, l)
    ensures Closes(s, t) && HasCopy(s.worker) && !s.worker.Recording?
    ensures forall id :: id in s.ops && id in t.ops && t.ops[id].status.Succeeded? ==>
      s.ops[id].status.Succeeded? || (l.MarkSucceeded? && t.worker.Auditing? && id == s.worker.op.id)
  {
    WorkerEffects(s, l);
    hide WorkerEffect, O.Inv;
    if l.MarkTimedOut? {
      TimeOutMoves(s, l.now);
      hide TimeOutStep, WorkerPossible;
    } else if l.MarkFailed? {
      FailMoves(s, l.now);
      hide FailStep, WorkerPossible;
    } else {
      SucceedMoves(s, l.now);
      hide SucceedStep, WorkerPossible;
    }
  }

  lemma TimeOutMoves(s: State, now: string)
    requires s.worker.TimingOut? && O.Inv(s.ops)
    ensures Closes(s, TimeOutStep(s, now))
    ensures forall id :: id in s.ops && TimeOutStep(s, now).ops[id].status.Succeeded? ==> s.ops[id].status.Succeeded?
  {
    MoveFacts(s.ops, s.worker.op.id, O.TimedOut,
              O.Change(now, "", "operation_timeout", "Provider state verification timed out"));
    hide O.MoveRow, O.Inv;
  }

  lemma FailMoves(s: State, now: string)
    requires s.worker.MarkingFailed? && O.Inv(s.ops)
    ensures Closes(s, FailStep(s, now))
    ensures forall id :: id in s.ops && FailStep(s, now).ops[id].status.Succeeded? ==> s.ops[id].status.Succeeded?
  {
    MoveFacts(s.ops, s.worker.op.id, O.Failed, O.Change(now, "", s.worker.error.code, s.worker.error.message));
    hide O.MoveRow, O.Inv;
  }

  lemma SucceedMoves(s: State, now: string)
    requires s.worker.Succeeding? && O.Inv(s.ops)
    ensures Closes(s, SucceedStep(s, now))
    ensures forall id :: id in s.ops && SucceedStep(s, now).ops[id].status.Succeeded? ==>
      s.ops[id].status.Succeeded? || (SucceedStep(s, now).worker.Auditing? && id == s.worker.op.id)
  {
    MoveFacts(s.ops, s.worker.op.id, O.Succeeded, O.Change(now, "", "", ""));
    hide O.MoveRow, O.Inv;
  }

  /** A step out of the copy's states that moved at most one row, to a terminal status. */
  ghost predicate Closes(s: State, t: State) {
    && t.ops.Keys == s.ops.Keys && (t.worker.Auditing? || t.worker.Ending?)
    && (forall id :: id in t.ops ==>
          && (t.ops[id] == s.ops[id] || O.Terminal(t.ops[id].status))
          && t.ops[id].action == s.ops[id].action)
  }

  /** What the invariant says of the worker's copy and of a pending acceptance. */
  lemma CopyRows(s: State)
    requires Inv(s)
    ensures O.Inv(s.ops)
    ensures Pending(s.worker).Some? ==> Pending(s.worker).value in s.ops
    ensures HasCopy(s.worker) ==> s.worker.op.id in s.ops && CopyStatusOk(s.worker)
    ensures s.worker.Recording? ==> s.ops[s.worker.op.id].status.Running? || O.Terminal(s.ops[s.worker.op.id].status)
  {
    RowsOk(s);
    hide TablesOk;
  }

  lemma WorkerKeepsAcceptances(s: State, l: Label)
    requires Inv(s) && AcceptancesOk(s) && !IsRequestStep(l) && WorkerPossible(s, l)
    ensures AcceptancesOk(WorkerEffect(s, l))
  {
    CopyRows(s);
    assert CopyOk(s) && LeaseOk(s);
    WorkerEffects(s, l);
    hide WorkerEffect, Inv, O.Inv, AcceptancesOk, LeaseOk, CopyOk, CopyStatusOk, OnlyMoves, NotAstray;
    if l.FindOperation? {
      FindKeepsAcceptances(s);
    } else if l.MarkRunning? {
      RunKeepsAcceptances(s, l.now);
    } else if l.Prepare? {
      PrepareKeepsAcceptances(s, l.reading);
    } else if l.Act? {
      ActKeepsAcceptances(s, l.receipt);
    } else if l.Record? {
      RecordKeepsAcceptances(s, l.now);
    } else if l.Crash? {
      CrashKeepsAcceptances(s);
    } else if FinalStep(l) {
      FinalKeepsAcceptances(s, l);
    } else {
      StillKeepsAcceptances(s, l);
    }
  }
}
