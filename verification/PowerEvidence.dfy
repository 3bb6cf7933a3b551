/** Worker steps keep the evidence behind a success and the account of attempts. */
module PowerEvidence {
  import opened Wrappers
  import P = Providers
  import O = Operations
  import J = Jobs
  import opened PowerProtocol
  import opened PowerInvariant
  import opened PowerWorkerSteps
  import opened PowerRuns
  import opened PowerHistory

  // ----- the copy's evidence

  /** The worker forgot or kept its copy and learnt nothing new. */
  predicate LearnsNothing(worker: Worker, next: Worker) {
    HasCopy(next) ==> HasCopy(worker) && next.op == worker.op && !next.Recording? && !next.Storing? && !next.Succeeding?
  }

  lemma EvidenceLasts(worker: Worker, next: Worker, log: seq<Event>, events: seq<Event>)
    requires CopyEvidence(worker, log) && LearnsNothing(worker, next)
    ensures CopyEvidence(next, log + events)
  {
  }

  lemma PrepareKeepsEvidence(s: State, reading: Result<P.ServerState, P.Error>)
    requires s.worker.Preparing? && CopyEvidence(s.worker, s.log)
    ensures var t := PrepareStep(s, reading); CopyEvidence(t.worker, t.log)
  {
    var t := PrepareStep(s, reading);
    hide SeenThenStored, Seen;
    if t.worker.Storing? {
      SeenNow(s.log, t.worker.op.id, t.worker.op.action, t.worker.seen);
    } else {
      EvidenceLasts(s.worker, t.worker, s.log, Reading(s, reading));
    }
  }

  /** An observation appended now comes after everything before it. */
  lemma SeenNow(log: seq<Event>, id: string, action: O.Action, state: P.ServerState)
    requires action.Reboot? ==> Accepted(id) in log
    ensures Seen(log + [Observed(id, state)], id, action, state)
  {
    assert (log + [Observed(id, state)])[..|log|] == log;
    assert SeenAt(log + [Observed(id, state)], |log|, id, action, state);
  }

  lemma SeenLasts(log: seq<Event>, event: Event, i: nat, id: string, action: O.Action, state: P.ServerState)
    requires i < |log| && SeenAt(log, i, id, action, state)
    ensures SeenAt(log + [event], i, id, action, state)
  {
    assert (log + [event])[..i] == log[..i];
  }

  lemma ActKeepsEvidence(s: State, receipt: Result<string, P.Error>)
    requires s.worker.Acting? && CopyEvidence(s.worker, s.log)
    ensures var t := ActStep(s, receipt); CopyEvidence(t.worker, t.log)
  {
    var t := ActStep(s, receipt);
    hide SeenThenStored, Seen;
    if !t.worker.Recording? {
      EvidenceLasts(s.worker, t.worker, s.log, Acted(s, receipt));
    } else {
      assert Acted(s, receipt)[1] == Accepted(t.worker.op.id);
      assert Accepted(t.worker.op.id) in t.log;
    }
  }

  lemma PollKeepsEvidence(s: State, reading: Result<P.ServerState, P.Error>, expired: bool)
    requires s.worker.Polling? && CopyEvidence(s.worker, s.log) && s.worker.op.status.Verifying?
    ensures var t := PollStep(s, reading, expired); CopyEvidence(t.worker, t.log)
  {
    var t := PollStep(s, reading, expired);
    hide SeenThenStored, Seen;
    if t.worker.Storing? {
      SeenNow(s.log, t.worker.op.id, t.worker.op.action, t.worker.seen);
    } else {
      EvidenceLasts(s.worker, t.worker, s.log, Reading(s, reading));
    }
  }

  lemma StoreKeepsEvidence(s: State, stored: bool)
    requires s.worker.Storing? && CopyEvidence(s.worker, s.log)
    ensures var t := StoreStep(s, stored); CopyEvidence(t.worker, t.log)
  {
    if stored {
      var t := StoreStep(s, stored);
      var op, seen := s.worker.op, s.worker.seen;
      var i: nat :| i < |s.log| && SeenAt(s.log, i, op.id, op.action, seen);
      SeenLasts(s.log, Stored(op.id, seen), i, op.id, op.action, seen);
      assert t.log[|s.log|] == Stored(op.id, seen);
      assert SeenThenStored(t.log, |t.log|, op.id, op.action, seen);
    }
  }

  /** The steps whose worker afterwards has no copy, or only the one it had. */
  lemma OtherKeepsCopyEvidence(s: State, l: Label)
    requires CopyEvidence(s.worker, s.log) && !IsRequestStep(l) && WorkerPossible(s, l)
    requires l.LeaseJob? || l.EndJob? || l.Crash? || l.HandleSync? || l.AppendAudit? || l.LookAgain? || l.StatementFails?
    ensures CopyEvidence(WorkerEffect(s, l).worker, WorkerEffect(s, l).log)
  {
    WorkerEffects(s, l);
    hide WorkerEffect, J.IsNext, J.Leased, EndedJobs, SeenThenStored, Seen, OnlyMoves;
  }

  lemma ReadingKeepsEvidence(s: State, l: Label)
    requires EvidenceOk(s) && CopyOk(s) && O.Inv(s.ops) && !IsRequestStep(l) && WorkerPossible(s, l) && MovesNoOperation(l)
    ensures EvidenceOk(WorkerEffect(s, l))
  {
    var t := WorkerEffect(s, l);
    WorkerEffects(s, l);
    hide CopyEvidence, WorkerEffect;
    assert RowEvidence(t);
    match l
    case Prepare(reading) => PrepareKeepsEvidence(s, reading);
    case Act(_, receipt) => ActKeepsEvidence(s, receipt);
    case Poll(reading, expired) => PollKeepsEvidence(s, reading, expired);
    case StoreRemote(stored) => StoreKeepsEvidence(s, stored);
    case FindOperation => FindKeepsEvidence(s);
    case _ => OtherKeepsCopyEvidence(s, l);
  }

  lemma FindKeepsEvidence(s: State)
    requires RowEvidence(s) && s.worker.Entered? && O.Inv(s.ops)
    ensures CopyEvidence(FindStep(s).worker, s.log)
  {
    hide SeenThenStored, Seen;
  }

  lemma RunKeepsEvidence(s: State, now: string)
    requires EvidenceOk(s) && s.worker.Starting? && O.Inv(s.ops)
    ensures EvidenceOk(RunStep(s, now))
  {
    MoveFacts(s.ops, s.worker.op.id, O.Running, O.Change(now, "", "", ""));
    hide O.MoveRow, O.Inv, SeenThenStored, Seen;
  }

  lemma RecordKeepsEvidence(s: State, now: string)
    requires EvidenceOk(s) && s.worker.Recording? && O.Inv(s.ops)
    ensures EvidenceOk(RecordStep(s, now))
  {
    MoveFacts(s.ops, s.worker.op.id, O.Verifying, O.Change(now, s.worker.requestId, "", ""));
    hide O.MoveRow, O.Inv, SeenThenStored, Seen;
  }

  lemma FinalKeepsEvidence(s: State, l: Label)
    requires EvidenceOk(s) && FinalStep(l) && WorkerPossible(s, l) && O.Inv(s.ops)
    ensures EvidenceOk(WorkerEffect(s, l))
  {
    FinalMoves(s, l, WorkerEffect(s, l));
    hide WorkerEffect, WorkerPossible, O.Inv, Closes, OnlyMoves, NotAstray;
    ClosesKeepsEvidence(s, WorkerEffect(s, l));
  }

  lemma ClosesKeepsEvidence(s: State, t: State)
    requires EvidenceOk(s) && Closes(s, t) && s.log <= t.log
    ensures EvidenceOk(t)
  {
    hide Seen, SeenThenStored;
  }

  lemma WorkerKeepsEvidence(s: State, l: Label)
    requires EvidenceOk(s) && CopyOk(s) && O.Inv(s.ops) && !IsRequestStep(l) && WorkerPossible(s, l)
    ensures EvidenceOk(WorkerEffect(s, l))
  {
    WorkerEffects(s, l);
    hide WorkerEffect, EvidenceOk, CopyOk, O.Inv, OnlyMoves;
    if l.MarkRunning? {
      RunKeepsEvidence(s, l.now);
    } else if l.Record? {
      RecordKeepsEvidence(s, l.now);
    } else if FinalStep(l) {
      FinalKeepsEvidence(s, l);
    } else {
      ReadingKeepsEvidence(s, l);
    }
  }

  // ----- succeeded means verified

  /** A step that records no success and moves no row to succeeded. */
  ghost predicate NoSuccess(s: State, t: State, events: seq<Event>) {
    && t.log == s.log + events
    && (forall e :: e in events ==> !e.Succeeded?)
    && (forall id :: id in s.ops ==> id in t.ops && t.ops[id].action == s.ops[id].action)
    && (forall id :: id in t.ops && t.ops[id].status.Succeeded? ==> id in s.ops && s.ops[id].status.Succeeded?)
  }

  lemma VerifiedLasts(log: seq<Event>, events: seq<Event>, k: nat, id: string, action: O.Action)
    requires k <= |log|
    ensures VerifiedBefore(log, k, id, action) <==> VerifiedBefore(log + events, k, id, action)
  {
    var longer := log + events;
    forall i: nat | i < k
      ensures longer[i] == log[i] && longer[..i] == log[..i]
    {
    }
    assert forall i: nat, state :: i < k ==> (SeenAt(longer, i, id, action, state) <==> SeenAt(log, i, id, action, state));
    hide SeenAt;
    assert forall state :: SeenThenStored(longer, k, id, action, state) <==> SeenThenStored(log, k, id, action, state);
  }

  lemma NoSuccessKeeps(s: State, t: State, events: seq<Event>)
    requires SuccessOk(s) && NoSuccess(s, t, events)
    ensures SuccessOk(t)
  {
    hide VerifiedBefore;
    forall k | 0 <= k < |t.log| && t.log[k].Succeeded?
      ensures t.log[k].id in t.ops && VerifiedBefore(t.log, k, t.log[k].id, t.ops[t.log[k].id].action)
    {
      if k < |s.log| {
        assert t.log[k] == s.log[k];
        VerifiedLasts(s.log, events, k, s.log[k].id, s.ops[s.log[k].id].action);
      }
    }
  }

  lemma SucceedKeepsSuccess(s: State, now: string)
    requires SuccessOk(s) && s.worker.Succeeding? && CopyEvidence(s.worker, s.log) && CopyOk(s) && O.Inv(s.ops)
    ensures SuccessOk(SucceedStep(s, now))
  {
    var t := SucceedStep(s, now);
    SucceedMoves(s, now);
    var op := s.worker.op;
    if t.worker.Auditing? {
      var events := [PowerProtocol.Succeeded(op.id)];
      assert VerifiedBefore(s.log, |s.log|, op.id, op.action);
      hide SucceedStep, O.Inv, VerifiedBefore, CopyEvidence;
      AppendSuccess(s, t, events);
    } else {
      NothingMoved(s, now);
    }
  }

  lemma NothingMoved(s: State, now: string)
    requires SuccessOk(s) && s.worker.Succeeding? && !SucceedStep(s, now).worker.Auditing?
    ensures SuccessOk(SucceedStep(s, now))
  {
    hide VerifiedBefore;
    assert s.log + [] == s.log;
    NoSuccessKeeps(s, SucceedStep(s, now), []);
  }

  lemma AppendSuccess(s: State, t: State, events: seq<Event>)
    requires SuccessOk(s) && HasCopy(s.worker) && s.worker.op.id in s.ops
    requires events == [PowerProtocol.Succeeded(s.worker.op.id)] && t.log == s.log + events
    requires VerifiedBefore(s.log, |s.log|, s.worker.op.id, s.ops[s.worker.op.id].action)
    requires Closes(s, t)
    requires forall id :: id in s.ops && id in t.ops && t.ops[id].status.Succeeded? ==>
      s.ops[id].status.Succeeded? || id == s.worker.op.id
    ensures SuccessOk(t)
  {
    hide VerifiedBefore;
    forall k | 0 <= k < |t.log| && t.log[k].Succeeded?
      ensures t.log[k].id in t.ops && VerifiedBefore(t.log, k, t.log[k].id, t.ops[t.log[k].id].action)
    {
      if k < |s.log| {
        assert t.log[k] == s.log[k];
        VerifiedLasts(s.log, events, k, s.log[k].id, s.ops[s.log[k].id].action);
      } else {
        VerifiedLasts(s.log, events, |s.log|, s.worker.op.id, s.ops[s.worker.op.id].action);
      }
    }
    assert t.log[|s.log|] == PowerProtocol.Succeeded(s.worker.op.id);
  }

  lemma WorkerKeepsSuccess(s: State, l: Label)
    requires SuccessOk(s) && EvidenceOk(s) && CopyOk(s) && O.Inv(s.ops) && !IsRequestStep(l) && WorkerPossible(s, l)
    ensures SuccessOk(WorkerEffect(s, l))
  {
    WorkerEffects(s, l);
    hide WorkerEffect, O.Inv;
    if l.MarkSucceeded? {
      SucceedKeepsSuccess(s, l.now);
    } else {
      WorkerLog(s, l);
      OtherStepsRecordNoSuccess(s, l, WorkerEffect(s, l));
      hide SuccessOk, EvidenceOk, CopyOk, NoSuccess;
      NoSuccessKeeps(s, WorkerEffect(s, l), EventsOf(s, l));
    }
  }

  lemma NoSuccessEvent(s: State, l: Label)
    requires !IsRequestStep(l) && WorkerPossible(s, l) && !l.MarkSucceeded?
    ensures forall e :: e in EventsOf(s, l) ==> !e.Succeeded?
  {
    hide EndedJobs, J.IsNext;
  }

  lemma OtherStepsRecordNoSuccess(s: State, l: Label, t: State)
    requires O.Inv(s.ops) && !IsRequestStep(l) && WorkerPossible(s, l) && !l.MarkSucceeded?
    requires t == WorkerEffect(s, l) && t.log == s.log + EventsOf(s, l)
    ensures NoSuccess(s, t, EventsOf(s, l))
  {
    assert l.MarkRunning? ==> s.worker.Starting?;
    assert l.Record? ==> s.worker.Recording?;
    hide EventsOf, WorkerEffect, WorkerPossible, OnlyMoves, RunStep, RecordStep, O.Inv;
    NoSuccessEvent(s, l);
    if l.MarkRunning? {
      WorkerEffects(s, l);
      RunSucceedsNone(s, l.now);
    } else if l.Record? {
      WorkerEffects(s, l);
      RecordSucceedsNone(s, l.now);
    } else if FinalStep(l) {
      FinalMoves(s, l, t);
    }
  }

  lemma RunSucceedsNone(s: State, now: string)
    requires O.Inv(s.ops) && s.worker.Starting?
    ensures
      var t := RunStep(s, now);
      t.ops.Keys == s.ops.Keys && forall id :: id in s.ops ==>
        t.ops[id].action == s.ops[id].action && (t.ops[id].status.Succeeded? ==> s.ops[id].status.Succeeded?)
  {
    MoveFacts(s.ops, s.worker.op.id, O.Running, O.Change(now, "", "", ""));
    hide O.MoveRow, O.Inv;
  }

  lemma RecordSucceedsNone(s: State, now: string)
    requires O.Inv(s.ops) && s.worker.Recording?
    ensures
      var t := RecordStep(s, now);
      t.ops.Keys == s.ops.Keys && forall id :: id in s.ops ==>
        t.ops[id].action == s.ops[id].action && (t.ops[id].status.Succeeded? ==> s.ops[id].status.Succeeded?)
  {
    MoveFacts(s.ops, s.worker.op.id, O.Verifying, O.Change(now, s.worker.requestId, "", ""));
    hide O.MoveRow, O.Inv;
  }

  // ----- attempts

  /** No handler starts and no worker stops. */
  ghost predicate SameHolder(s: State, t: State) {
    t.jobs == s.jobs && !s.worker.Idle? && !t.worker.Idle? && t.worker.lease == s.worker.lease
  }

  lemma CrashCountsGrow(log: seq<Event>, events: seq<Event>, j: string)
    ensures Count(log + events, Crashed(j)) >= Count(log, Crashed(j))
    ensures Crashed(j) in events ==> Count(log + events, Crashed(j)) > Count(log, Crashed(j))
  {
    CountConcat(log, events, Crashed(j));
  }

  lemma SameHolderKeepsAttempts(s: State, t: State, events: seq<Event>)
    requires AttemptsOk(s) && SameHolder(s, t) && t.log == s.log + events
    ensures AttemptsOk(t)
  {
    forall j
      ensures Count(t.log, Crashed(j)) >= Count(s.log, Crashed(j)) && (Held(t, j) <==> Held(s, j))
    {
      CrashCountsGrow(s.log, events, j);
    }
    hide Count;
  }

  lemma LeaseKeepsAttempts(s: State, l: Label)
    requires AttemptsOk(s) && JobsOk(s) && l.LeaseJob? && WorkerPossible(s, l)
    ensures AttemptsOk(LeaseStep(s, l))
  {
    hide Count;
  }

  lemma EndKeepsAccount(s: State, at: string, message: string)
    requires AttemptsOk(s) && LeaseOk(s) && s.worker.Ending?
    ensures AttemptsOk(EndStep(s, at, message))
  {
    var t := EndStep(s, at, message);
    EndTouchesOne(s, at, message);
    EndKeepsAttempts(s, at, message);
    EndLog(s, at, message);
    forall j
      ensures Count(t.log, Crashed(j)) >= Count(s.log, Crashed(j))
    {
      CrashCountsGrow(s.log, Ended(s, at, message), j);
    }
    hide Count, EndStep, EndedJobs, Ended;
  }

  lemma CrashKeepsAttempts(s: State)
    requires AttemptsOk(s) && LeaseOk(s) && !s.worker.Idle?
    ensures AttemptsOk(CrashStep(s))
  {
    var t := CrashStep(s);
    assert CrashEvents(s)[0] == Crashed(s.worker.lease.job);
    forall j
      ensures Count(t.log, Crashed(j)) >= Count(s.log, Crashed(j))
      ensures j == s.worker.lease.job ==> Count(t.log, Crashed(j)) > Count(s.log, Crashed(j))
    {
      CrashCountsGrow(s.log, CrashEvents(s), j);
    }
    hide Count;
  }

  lemma WorkerKeepsAttempts(s: State, l: Label)
    requires AttemptsOk(s) && JobsOk(s) && LeaseOk(s) && !IsRequestStep(l) && WorkerPossible(s, l)
    ensures AttemptsOk(WorkerEffect(s, l))
  {
    WorkerEffects(s, l);
    hide AttemptsOk, JobsOk, LeaseOk;
    if l.LeaseJob? {
      LeaseKeepsAttempts(s, l);
    } else if l.EndJob? {
      EndKeepsAccount(s, l.at, l.message);
    } else if l.Crash? {
      CrashKeepsAttempts(s);
    } else {
      WorkerLog(s, l);
      hide WorkerEffect;
      SameHolderKeepsAttempts(s, WorkerEffect(s, l), EventsOf(s, l));
    }
  }

  // ----- every run

  lemma StepKeepsHistory(s: State, l: Label)
    requires Inv(s) && HistoryOk(s)
    ensures HistoryOk(Apply(s, l))
  {
    hide Inv, WorkerEffect, RequestEffect, WorkerPossible, RequestPossible;
    if Possible(s, l) {
      if IsRequestStep(l) {
        RequestIsFramed(s, l);
        RequestKeepsHistory(s, RequestEffect(s, l));
      } else {
        WorkerKeepsHistory(s, l);
      }
    }
  }

  lemma WorkerKeepsHistory(s: State, l: Label)
    requires Inv(s) && HistoryOk(s) && !IsRequestStep(l) && WorkerPossible(s, l)
    ensures HistoryOk(WorkerEffect(s, l))
  {
    assert O.Inv(s.ops) && JobsOk(s) && LeaseOk(s) && CopyOk(s);
    hide Inv, O.Inv, JobsOk, LeaseOk, CopyOk, WorkerEffect, WorkerPossible, IssuesOk, AcceptancesOk, SuccessOk,
         EvidenceOk, AttemptsOk;
    WorkerKeepsIssues(s, l);
    WorkerKeepsAcceptances(s, l);
    WorkerKeepsSuccess(s, l);
    WorkerKeepsEvidence(s, l);
    WorkerKeepsAttempts(s, l);
  }

  lemma {:induction false} AlwaysHistory(labels: seq<Label>)
    ensures HistoryOk(After(labels))
  {
    if labels != [] {
      var before := After(labels[..|labels| - 1]);
      AlwaysInv(labels[..|labels| - 1]);
      AlwaysHistory(labels[..|labels| - 1]);
      StepKeepsHistory(before, labels[|labels| - 1]);
    } else {
      hide Count;
      NothingCounted();
    }
  }

  lemma NothingCounted()
    ensures HistoryOk(INITIAL)
  {
  }
}
