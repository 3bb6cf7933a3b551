/** What holds of every run of the power-operation protocol: provider writes, the evidence
    behind a success, handler runs, and idempotent requests. */
module PowerResults {
  import opened Wrappers
  import P = Providers
  import O = Operations
  import J = Jobs
  import opened PowerProtocol
  import opened PowerInvariant
  import opened PowerRequestSteps
  import opened PowerRuns
  import opened PowerHistory
  import opened PowerEvidence

  // ----- provider writes

  /** Each lease issues at most one write, and only leases that were granted issue any. */
  lemma OneWritePerLease(labels: seq<Label>, job: string, attempt: nat)
    ensures Writes(After(labels).log, job, attempt) <= 1
    ensures Writes(After(labels).log, job, attempt) == 1 ==>
      job in After(labels).jobs && attempt <= After(labels).jobs[job].attempts
  {
    AlwaysHistory(labels);
    CountMember(After(labels).log, Issued(job, attempt));
  }

  /** Accepted writes beyond the first are explained one by one by worker crashes while an
      acceptance was not recorded. */
  lemma AcceptedWritesAreBounded(labels: seq<Label>, id: string)
    ensures Count(After(labels).log, Accepted(id)) <= 1 + Count(After(labels).log, AcceptanceLost(id))
  {
    AlwaysHistory(labels);
  }

  /** A write is never issued for a verifying operation, and for a terminal one exactly
      when its own request failed it, after an audit error, behind the worker's back. */
  lemma WritesFindTheRowRunning(labels: seq<Label>)
    requires After(labels).worker.Acting?
    ensures
      var s := After(labels);
      var id := s.worker.op.id;
      && id in s.ops && id in s.creator
      && (s.ops[id].status.Running? <==> !AtStage(s, s.creator[id], Replied(false)))
      && (O.Terminal(s.ops[id].status) <==> AtStage(s, s.creator[id], Replied(false)))
  {
    AlwaysInv(labels);
    var s := After(labels);
    OwnerStage(s, s.creator[s.worker.op.id]);
  }

  // ----- what was asked for is what is called

  /** Every operation has the key and the action of the request that created it. */
  lemma CreatedAsRequested(labels: seq<Label>, id: string)
    requires id in After(labels).ops
    ensures
      var s := After(labels);
      exists c :: c in s.clients && s.clients[c].Owner? && s.clients[c].id == id
                  && s.ops[id].action == s.clients[c].request.action && s.ops[id].key == s.clients[c].request.key
  {
    AlwaysInv(labels);
  }

  /** Whenever the provider is called, it is called for the action that the request behind the
      operation asked for. */
  lemma CallsAreRequested(labels: seq<Label>, n: nat)
    requires n < |labels| && labels[n].Act? && Possible(After(labels[..n]), labels[n])
    ensures
      var s := After(labels[..n]);
      var id := s.worker.op.id;
      && id in s.ops && id in s.creator && s.creator[id] in s.clients
      && match s.clients[s.creator[id]].request.action
         case Start => labels[n].call == StartServer
         case Stop => labels[n].call == StopServer
         case Reboot => labels[n].call == RebootServer
  {
    AlwaysInv(labels[..n]);
  }

  // ----- succeeded means verified

  /** The state was observed, then stored, then the operation was marked succeeded. */
  ghost predicate SeenStoredSucceeded(log: seq<Event>, id: string, state: P.ServerState) {
    exists i: nat, j: nat, k: nat ::
      && i < j < k < |log|
      && log[i] == Observed(id, state) && log[j] == Stored(id, state) && log[k] == PowerProtocol.Succeeded(id)
  }

  /** The same, with the state observed after the provider accepted a call. */
  ghost predicate AcceptedSeenStoredSucceeded(log: seq<Event>, id: string, state: P.ServerState) {
    exists h: nat, i: nat, j: nat, k: nat ::
      && h < i < j < k < |log|
      && log[h] == Accepted(id)
      && log[i] == Observed(id, state) && log[j] == Stored(id, state) && log[k] == PowerProtocol.Succeeded(id)
  }

  /** A succeeded start saw the server running, a succeeded stop saw it stopped, a succeeded
      reboot saw it running after the provider accepted the reboot; each wrote that state to
      inventory before the row was marked. */
  lemma SucceededMeansVerified(labels: seq<Label>, id: string)
    requires id in After(labels).ops && After(labels).ops[id].status.Succeeded?
    ensures
      var log := After(labels).log;
      match After(labels).ops[id].action
      case Start => SeenStoredSucceeded(log, id, P.Running)
      case Stop => SeenStoredSucceeded(log, id, P.Stopped)
      case Reboot => AcceptedSeenStoredSucceeded(log, id, P.Running)
  {
    hide After;
    AlwaysHistory(labels);
    var s := After(labels);
    SuccessIsVerified(s, id);
    var k: nat :| k < |s.log| && s.log[k] == PowerProtocol.Succeeded(id) && VerifiedBefore(s.log, k, id, s.ops[id].action);
    VerifiedMeans(s.log, k, id, s.ops[id].action);
    hide SuccessOk, VerifiedBefore, SeenStoredSucceeded, AcceptedSeenStoredSucceeded;
  }

  lemma SuccessIsVerified(s: State, id: string)
    requires SuccessOk(s) && id in s.ops && s.ops[id].status.Succeeded?
    ensures exists k: nat :: k < |s.log| && s.log[k] == PowerProtocol.Succeeded(id) && VerifiedBefore(s.log, k, id, s.ops[id].action)
  {
    hide VerifiedBefore;
  }

  lemma VerifiedMeans(log: seq<Event>, k: nat, id: string, action: O.Action)
    requires k < |log| && log[k] == PowerProtocol.Succeeded(id) && VerifiedBefore(log, k, id, action)
    ensures
      match action
      case Start => SeenStoredSucceeded(log, id, P.Running)
      case Stop => SeenStoredSucceeded(log, id, P.Stopped)
      case Reboot => AcceptedSeenStoredSucceeded(log, id, P.Running)
  {
    hide SeenStoredSucceeded, AcceptedSeenStoredSucceeded;
    var state :| O.VerificationTargetReached(action, state) && SeenThenStored(log, k, id, action, state);
    var i: nat, j: nat :| i < j < k && SeenAt(log, i, id, action, state) && log[j] == Stored(id, state);
    if action.Reboot? {
      var h: nat :| h < i && log[..i][h] == Accepted(id);
      AcceptedFirst(log, h, i, j, k, id, state);
    } else {
      SeenFirst(log, i, j, k, id, state);
    }
  }

  lemma SeenFirst(log: seq<Event>, i: nat, j: nat, k: nat, id: string, state: P.ServerState)
    requires i < j < k < |log|
    requires log[i] == Observed(id, state) && log[j] == Stored(id, state) && log[k] == PowerProtocol.Succeeded(id)
    ensures SeenStoredSucceeded(log, id, state)
  {
  }

  lemma AcceptedFirst(log: seq<Event>, h: nat, i: nat, j: nat, k: nat, id: string, state: P.ServerState)
    requires h < i < j < k < |log| && log[h] == Accepted(id)
    requires log[i] == Observed(id, state) && log[j] == Stored(id, state) && log[k] == PowerProtocol.Succeeded(id)
    ensures AcceptedSeenStoredSucceeded(log, id, state)
  {
  }

  /** After the first look at the server the provider call is skipped if and only if that
      very look showed a start's server running or a stop's server stopped, or the call was
      already recorded. */
  lemma WriteSkippedExactly(labels: seq<Label>, state: P.ServerState)
    requires After(labels).worker.Preparing?
    ensures
      var op := After(labels).worker.op;
      var next := After(labels + [Prepare(Ok(state))]).worker;
      var reached := (op.action.Start? && state.Running?) || (op.action.Stop? && state.Stopped?);
      && (next.Storing? <==> reached)
      && (next.Acting? <==> !reached && op.status.Running?)
      && (next.Polling? <==> !reached && op.status.Verifying?)
  {
    CopyStatus(labels);
    AfterOneMore(labels, Prepare(Ok(state)));
    PreparesBy(After(labels), Ok(state));
    hide After, Apply, OnlyMoves, NotAstray;
  }

  lemma PreparesBy(s: State, reading: Result<P.ServerState, P.Error>)
    requires s.worker.Preparing?
    ensures Apply(s, Prepare(reading)) == PrepareStep(s, reading)
  {
    WorkerEffects(s, Prepare(reading));
    hide WorkerEffect, PrepareStep;
  }

  lemma CopyStatus(labels: seq<Label>)
    requires HasCopy(After(labels).worker)
    ensures CopyStatusOk(After(labels).worker)
  {
    AlwaysInv(labels);
    hide After;
  }

  /** A poll ends the wait if and only if it showed the state the action is for; the clock
      counts only after a miss. */
  lemma PollDecides(labels: seq<Label>, state: P.ServerState, expired: bool)
    requires After(labels).worker.Polling?
    ensures
      var op := After(labels).worker.op;
      var next := After(labels + [Poll(Ok(state), expired)]).worker;
      var reached := if op.action.Stop? then state.Stopped? else state.Running?;
      && (next.Storing? <==> reached)
      && (next.TimingOut? <==> !reached && expired)
      && (next.Polling? <==> !reached && !expired)
  {
    var s, l := After(labels), Poll(Ok(state), expired);
    WorkerEffects(s, l);
    AfterOneMore(labels, l);
    hide After, WorkerEffect, OnlyMoves;
  }

  /** What the history records: every reading, every call and its acceptance, every inventory
      write, every success, every job ended without its operation, every crash, and every
      acceptance that is lost with it. */
  lemma StepRecords(s: State, l: Label)
    requires Possible(s, l)
    ensures
      var t, w := Apply(s, l), s.worker;
      && (l.Prepare? || l.Poll? ==>
            t.log == s.log + if l.reading.Ok? then [Observed(w.op.id, l.reading.value)] else [])
      && (l.Act? ==>
            t.log == s.log + [Issued(w.lease.job, w.lease.attempts)] + if l.receipt.Ok? then [Accepted(w.op.id)] else [])
      && (l.StoreRemote? ==> t.log == s.log + if l.stored then [Stored(w.op.id, w.seen)] else [])
      && (l.MarkSucceeded? ==>
            t.log == s.log + if w.op.id in s.ops && (s.ops[w.op.id].status.Running? || s.ops[w.op.id].status.Verifying?)
                             then [PowerProtocol.Succeeded(w.op.id)] else [])
      && (l.EndJob? ==>
            t.log == s.log + if w.outcome.Stray? && J.Holds(s.jobs, w.lease.job, WORKER) then [Abandoned(w.lease.payload)] else [])
      && (l.Crash? ==>
            t.log == s.log + [Crashed(w.lease.job)]
                     + if w.Recording? then [AcceptanceLost(w.op.id)]
                       else if w.Ending? && w.outcome.Stray? && w.outcome.unrecorded then [AcceptanceLost(w.lease.payload)] else [])
      && (!l.Prepare? && !l.Poll? && !l.Act? && !l.StoreRemote? && !l.MarkSucceeded? && !l.EndJob? && !l.Crash? ==>
            t.log == s.log)
  {
    hide Apply, RequestEffect, WorkerEffect, SucceedStep, EndStep, CrashStep, EndedJobs;
    AppliesPossible(s, l);
    if IsRequestStep(l) {
      RequestRecordsNothing(s, l);
    } else {
      WorkerLog(s, l);
      if l.MarkSucceeded? {
        SucceedRecords(s, l.now);
      } else if l.EndJob? {
        EndRecords(s, l.at, l.message);
      }
      hide OnlyMoves, NotAstray, J.IsNext;
    }
  }

  lemma SucceedRecords(s: State, now: string)
    requires s.worker.Succeeding?
    ensures
      var op := s.worker.op;
      SucceedStep(s, now).worker.Auditing? <==> op.id in s.ops && (s.ops[op.id].status.Running? || s.ops[op.id].status.Verifying?)
  {
  }

  lemma EndRecords(s: State, at: string, message: string)
    requires s.worker.Ending?
    ensures EndedJobs(s, at, message).Ok? <==> J.Holds(s.jobs, s.worker.lease.job, WORKER)
  {
  }

  lemma AppliesPossible(s: State, l: Label)
    requires Possible(s, l)
    ensures Apply(s, l) == if IsRequestStep(l) then RequestEffect(s, l) else WorkerEffect(s, l)
  {
  }

  lemma RequestRecordsNothing(s: State, l: Label)
    requires IsRequestStep(l) && RequestPossible(s, l)
    ensures RequestEffect(s, l).log == s.log
  {
  }

  // ----- handler runs

  /** How often job `j` was handed to the handler. */
  ghost function Runs(labels: seq<Label>, j: string): nat {
    if labels == [] then 0
    else
      var before, l := labels[..|labels| - 1], labels[|labels| - 1];
      Runs(before, j) + if l.LeaseJob? && l.id == j && Possible(After(before), l) then 1 else 0
  }

  ghost function Attempts(s: State, j: string): nat {
    if j in s.jobs then s.jobs[j].attempts else 0
  }

  lemma StepCountsAttempts(s: State, l: Label, j: string)
    requires Inv(s)
    ensures Attempts(Apply(s, l), j) == Attempts(s, j) + if l.LeaseJob? && l.id == j && Possible(s, l) then 1 else 0
  {
    assert LeaseOk(s);
    hide Inv, RequestEffect, WorkerEffect, RequestPossible, WorkerPossible, LeaseOk, Attempts;
    if Possible(s, l) {
      if IsRequestStep(l) {
        RequestIsFramed(s, l);
        RequestCountsNothing(s, RequestEffect(s, l), j);
      } else {
        WorkerCountsAttempts(s, l, j);
      }
    }
  }

  lemma RequestCountsNothing(s: State, t: State, j: string)
    requires RequestFrame(s, t)
    ensures Attempts(t, j) == Attempts(s, j)
  {
  }

  lemma WorkerCountsAttempts(s: State, l: Label, j: string)
    requires LeaseOk(s) && !IsRequestStep(l) && WorkerPossible(s, l)
    ensures Attempts(WorkerEffect(s, l), j) == Attempts(s, j) + if l.LeaseJob? && l.id == j then 1 else 0
  {
    WorkerEffects(s, l);
    hide WorkerEffect, OnlyMoves, LeaseOk;
    if l.LeaseJob? {
      LeaseTouchesOne(s, l);
      hide WorkerPossible;
    } else if l.EndJob? {
      EndTouchesOne(s, l.at, l.message);
      EndKeepsAttempts(s, l.at, l.message);
      hide EndStep, WorkerPossible;
    } else {
      OthersKeepJobs(s, l);
      hide WorkerPossible;
    }
  }

  lemma OthersKeepJobs(s: State, l: Label)
    requires !IsRequestStep(l) && WorkerPossible(s, l) && !l.LeaseJob? && !l.EndJob?
    ensures WorkerEffect(s, l).jobs == s.jobs
  {
    hide WorkerEffect, WorkerPossible;
  }

  lemma {:induction false} RunsAreAttempts(labels: seq<Label>, j: string)
    ensures Runs(labels, j) == Attempts(After(labels), j)
  {
    if labels != [] {
      var before := labels[..|labels| - 1];
      AlwaysInv(before);
      RunsAreAttempts(before, j);
      StepCountsAttempts(After(before), labels[|labels| - 1], j);
    }
  }

  predicate CrashFree(labels: seq<Label>) {
    Crash !in labels
  }

  lemma {:induction false} NoCrashNoEvent(labels: seq<Label>, j: string)
    requires CrashFree(labels)
    ensures Crashed(j) !in After(labels).log
  {
    if labels != [] {
      var before, l := labels[..|labels| - 1], labels[|labels| - 1];
      NoCrashNoEvent(before, j);
      assert l in labels;
      hide RequestEffect, RequestPossible;
      if !IsRequestStep(l) && WorkerPossible(After(before), l) {
        StepRecordsNoCrash(After(before), l, j);
      }
    }
  }

  lemma StepRecordsNoCrash(s: State, l: Label, j: string)
    requires !IsRequestStep(l) && WorkerPossible(s, l) && !l.Crash? && Crashed(j) !in s.log
    ensures Crashed(j) !in WorkerEffect(s, l).log
  {
    WorkerLog(s, l);
    hide WorkerEffect, EndedJobs, J.IsNext;
  }

  /** The handler of a job runs at most max_attempts times, plus once for every run that
      crashed. */
  lemma HandlerRunsAreBounded(labels: seq<Label>, j: string)
    requires j in After(labels).jobs
    ensures Runs(labels, j) <= After(labels).jobs[j].maxAttempts + Count(After(labels).log, Crashed(j))
    ensures CrashFree(labels) ==> Runs(labels, j) <= After(labels).jobs[j].maxAttempts
  {
    AlwaysHistory(labels);
    RunsAreAttempts(labels, j);
    if CrashFree(labels) {
      NoCrashNoEvent(labels, j);
      CountMember(After(labels).log, Crashed(j));
    }
    hide Count, Runs;
  }

  // ----- idempotency

  /** What a successful Request returned: the operation's id and whether it was created. */
  function Reply(client: Client): Option<(string, bool)> {
    if client.Answered? && client.found.Some? then Some((client.found.value, false))
    else if client.Owner? && client.stage == Replied(true) then Some((client.id, true))
    else None
  }

  ghost predicate Replies(s: State, c: nat, key: string, id: string, created: bool) {
    c in s.clients && s.clients[c].request.key == key && Reply(s.clients[c]) == Some((id, created))
  }

  /** All successful requests with one key name the same operation, whatever server and
      action they asked for; at most one of them created it, and it has at most one job. */
  lemma OneOperationPerKey(labels: seq<Label>, key: string, c: nat, id: string, created: bool,
                           other: nat, otherId: string, otherCreated: bool)
    requires Replies(After(labels), c, key, id, created) && Replies(After(labels), other, key, otherId, otherCreated)
    ensures id == otherId && (created && otherCreated ==> c == other)
    ensures id in After(labels).ops && After(labels).ops[id].key == key
    ensures forall i, j :: i in PowerJobs(After(labels), id) && j in PowerJobs(After(labels), id) ==> i == j
  {
    AlwaysInv(labels);
    OneJob(After(labels), id);
  }

  lemma StepKeepsReply(s: State, l: Label, c: nat)
    requires c in s.clients && Reply(s.clients[c]).Some?
    ensures c in Apply(s, l).clients && Apply(s, l).clients[c] == s.clients[c]
  {
    if IsRequestStep(l) && RequestPossible(s, l) {
      RequestEffects(s, l);
      hide RequestEffect, O.FindByKey;
    } else {
      hide RequestEffect, WorkerEffect, WorkerPossible, RequestPossible;
    }
  }

  /** So replies can be compared at the end of a run: none changes after it was given. */
  lemma {:induction false} RepliesAreFinal(labels: seq<Label>, more: seq<Label>, c: nat)
    requires c in After(labels).clients && Reply(After(labels).clients[c]).Some?
    ensures c in After(labels + more).clients && After(labels + more).clients[c] == After(labels).clients[c]
    decreases |more|
  {
    if more == [] {
      assert labels + more == labels;
    } else {
      var before := labels + more[..|more| - 1];
      RepliesAreFinal(labels, more[..|more| - 1], c);
      assert (labels + more)[..|labels + more| - 1] == before;
      hide Apply;
      StepKeepsReply(After(before), more[|more| - 1], c);
    }
  }
}
