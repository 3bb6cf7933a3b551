/** Executor.Execute and Worker.RunOnce as methods over the two repositories.  Each
    statement they run is one step of the machine of PowerProtocol, in the machine's order;
    what else may happen between the statements is the machine's subject. */
module PowerExecutor {
  import opened Wrappers
  import P = Providers
  import O = Operations
  import J = Jobs
  import opened TimeText
  import opened PowerProtocol
  import opened PowerInvariant
  import opened PowerRuns
  import JobRuns

  /** Everything the program asks and does not decide: the answer to its n-th question, by
      the kind of question, and how long it took.  `stored` is whether a statement succeeds. */
  class World {
    const prepared: nat -> Result<P.ServerState, P.Error>
    const receipts: (Call, nat) -> Result<string, P.Error>
    const polled: nat -> Result<P.ServerState, P.Error>
    const synced: nat -> Option<P.Error>
    const stored: nat -> bool
    const elapsed: nat -> nat
    const overslept: nat -> nat
    var asked: nat
    var waits: nat
    var now: Instant
    /** The run so far, as the machine's labels. */
    ghost var run: seq<Label>
    /** When each question was answered. */
    ghost var times: seq<Instant>

    constructor (prepared: nat -> Result<P.ServerState, P.Error>, receipts: (Call, nat) -> Result<string, P.Error>,
                 polled: nat -> Result<P.ServerState, P.Error>, synced: nat -> Option<P.Error>,
                 stored: nat -> bool, elapsed: nat -> nat, overslept: nat -> nat, now: Instant)
      ensures run == [] && Clocked()
    {
      this.prepared, this.receipts, this.polled, this.synced, this.stored := prepared, receipts, polled, synced, stored;
      this.elapsed, this.overslept := elapsed, overslept;
      this.asked, this.waits, this.now, this.run, this.times := 0, 0, now, [], [];
    }

    ghost function Machine(): State
      reads this
    {
      After(run)
    }

    /** One instant for each question so far, none of them ahead of the clock. */
    ghost predicate Clocked()
      reads this
    {
      |times| == asked && forall i :: 0 <= i < |times| ==> times[i] <= now
    }

    /** One question; whether it was a statement that succeeded is `stored` of its number. */
    method Ask() returns (succeeds: bool)
      requires Clocked()
      modifies this`asked, this`now, this`times
      ensures Clocked() && asked == old(asked) + 1 && now >= old(now) && times == old(times) + [now]
      ensures succeeds == stored(old(asked))
    {
      succeeds := stored(asked);
      now := now + elapsed(asked);
      asked, times := asked + 1, times + [now];
    }

    method Wait(interval: nat)
      requires Clocked()
      modifies this`waits, this`now
      ensures Clocked() && now >= old(now) + interval
    {
      now := now + interval + overslept(waits);
      waits := waits + 1;
    }

    /** The statement just executed was this step of the machine. */
    ghost method Did(l: Label)
      modifies this`run
      ensures run == old(run) + [l] && Machine() == Apply(old(Machine()), l)
    {
      AfterOneMore(run, l);
      run := run + [l];
    }
  }

  function Polls(labels: seq<Label>): nat {
    if labels == [] then 0
    else Polls(labels[..|labels| - 1]) + if labels[|labels| - 1].Poll? then 1 else 0
  }

  predicate IsExecutorStep(l: Label) {
    !IsRequestStep(l) && !l.LeaseJob? && !l.EndJob? && !l.Crash? && !l.HandleSync?
  }

  /** What the step claims about the outside is the world's answer to question `n`. */
  ghost predicate FromWorld(world: World, l: Label, n: nat) {
    match l
    case Prepare(reading) => reading == world.prepared(n)
    case Act(call, receipt) => receipt == world.receipts(call, n)
    case Poll(reading, _) => reading == world.polled(n)
    case HandleSync(error) => error == world.synced(n)
    case StoreRemote(stored) => stored == world.stored(n)
    case AppendAudit(stored) => stored == world.stored(n)
    case StatementFails => !world.stored(n)
    case Crash => !world.stored(n)
    case _ => world.stored(n)
  }

  /** `later` continues `run` with one possible executor step for each question answered since
      `asked`, each with the world's answer to it; `polls` of the steps are polls. */
  ghost predicate Executed(world: World, asked: seq<Instant>, run: seq<Label>, times: seq<Instant>, later: seq<Label>, polls: int) {
    && run <= later && asked <= times && |times| == |asked| + |later| - |run| && Polls(later) == Polls(run) + polls
    && forall i :: |run| <= i < |later| ==> ExecutedAt(world, |asked|, |run|, later, i)
  }

  ghost predicate ExecutedAt(world: World, m: nat, k: nat, later: seq<Label>, i: nat)
    requires k <= i < |later|
  {
    IsExecutorStep(later[i]) && TakenAt(world, m, k, later, i)
  }

  /** A worker step that was possible, with the world's answer to its question; label number
      `k` belongs to question number `m`. */
  ghost predicate TakenAt(world: World, m: nat, k: nat, later: seq<Label>, i: nat)
    requires k <= i < |later|
  {
    !IsRequestStep(later[i]) && WorkerPossible(After(later[..i]), later[i]) && FromWorld(world, later[i], m + i - k)
  }

  lemma ExecutedOne(world: World, asked: seq<Instant>, run: seq<Label>, at: Instant, l: Label)
    requires IsExecutorStep(l) && WorkerPossible(After(run), l) && FromWorld(world, l, |asked|)
    ensures Executed(world, asked, run, asked + [at], run + [l], if l.Poll? then 1 else 0)
  {
    hide FromWorld, WorkerPossible, After;
    assert (run + [l])[..|run|] == run && |run + [l]| - 1 == |run|;
    assert ExecutedAt(world, |asked|, |run|, run + [l], |run|);
  }

  lemma ExecutedTwice(world: World, m: seq<Instant>, zero: seq<Label>, n: seq<Instant>, one: seq<Label>,
                      k: seq<Instant>, two: seq<Label>, p: int, q: int)
    requires Executed(world, m, zero, n, one, p) && Executed(world, n, one, k, two, q)
    ensures Executed(world, m, zero, k, two, p + q)
  {
    forall i | |zero| <= i < |two|
      ensures ExecutedAt(world, |m|, |zero|, two, i)
    {
      if i < |one| {
        assert ExecutedAt(world, |m|, |zero|, one, i);
        SameStep(world, |m|, |zero|, one, two, i);
      } else {
        assert ExecutedAt(world, |n|, |one|, two, i);
        hide FromWorld, WorkerPossible, After;
      }
    }
    hide ExecutedAt;
  }

  lemma SameStep(world: World, m: nat, k: nat, one: seq<Label>, two: seq<Label>, i: nat)
    requires one <= two && k <= i < |one|
    ensures TakenAt(world, m, k, one, i) <==> TakenAt(world, m, k, two, i)
    ensures ExecutedAt(world, m, k, one, i) <==> ExecutedAt(world, m, k, two, i)
  {
    hide FromWorld, WorkerPossible, After;
    assert two[i] == one[i] && two[..i] == one[..i];
  }

  /** A statement of the row that succeeded. */
  lemma WorldStored(world: World, l: Label, n: nat)
    requires l.MarkRunning? || l.Record? || l.MarkTimedOut? || l.MarkSucceeded? || l.MarkFailed?
    requires world.stored(n)
    ensures FromWorld(world, l, n)
  {
  }

  lemma ExecutedNone(world: World, asked: seq<Instant>, run: seq<Label>)
    ensures Executed(world, asked, run, asked, run, 0)
  {
  }

  // ----- the clock

  lemma {:induction false} PollsCount(run: seq<Label>, later: seq<Label>)
    requires run <= later
    ensures Polls(run) <= Polls(later)
    ensures Polls(run) == Polls(later) ==> forall i :: |run| <= i < |later| ==> !later[i].Poll?
    decreases |later|
  {
    if |later| == |run| {
      assert later == run;
    } else {
      var before := later[..|later| - 1];
      PollsCount(run, before);
      assert forall i :: |run| <= i < |before| ==> before[i] == later[i];
    }
  }

  /** Each poll is expired if and only if it was answered later than `timeout` after
      `started`, and comes at least `interval` after the poll before it. */
  ghost predicate Timed(asked: seq<Instant>, run: seq<Label>, times: seq<Instant>, later: seq<Label>,
                        started: Instant, timeout: nat, interval: nat)
  {
    && |times| == |asked| + |later| - |run| && |run| <= |later|
    && forall i :: |run| <= i < |later| ==> TimedAt(asked, run, times, later, i, started, timeout, interval)
  }

  ghost predicate TimedAt(asked: seq<Instant>, run: seq<Label>, times: seq<Instant>, later: seq<Label>, i: nat,
                          started: Instant, timeout: nat, interval: nat)
    requires |times| == |asked| + |later| - |run| && |run| <= i < |later|
  {
    later[i].Poll? ==>
      var at := times[|asked| + i - |run|];
      && (later[i].expired <==> at > started + timeout)
      && (i > |run| && later[i - 1].Poll? ==> !later[i - 1].expired && at >= times[|asked| + i - |run| - 1] + interval)
  }

  /** The operation is marked timed out only right after a poll that missed and was answered
      later than `timeout` after `started`. */
  ghost predicate TimesOutLate(asked: seq<Instant>, run: seq<Label>, times: seq<Instant>, later: seq<Label>,
                               started: Instant, timeout: nat)
    requires |times| == |asked| + |later| - |run| && |run| <= |later|
  {
    forall i :: |run| <= i < |later| && later[i].MarkTimedOut? ==>
      && i > |run| && later[i - 1].Poll? && later[i - 1].reading.Ok?
      && times[|asked| + i - |run| - 1] > started + timeout
  }

  /** `started` is the instant of the answer right before the first poll. */
  ghost predicate Begins(asked: seq<Instant>, run: seq<Label>, times: seq<Instant>, later: seq<Label>, started: Instant)
    requires |times| == |asked| + |later| - |run| && |run| <= |later|
  {
    exists f :: |run| < f < |later| && later[f].Poll? && started == times[|asked| + f - |run| - 1]
                && forall i :: |run| <= i < f ==> !later[i].Poll?
  }

  /** The clock rules of one call of Execute; `started` is when its verification loop began. */
  ghost predicate Waited(asked: seq<Instant>, run: seq<Label>, times: seq<Instant>, later: seq<Label>, polls: int,
                         started: Instant, timeout: nat, interval: nat)
  {
    && Timed(asked, run, times, later, started, timeout, interval)
    && TimesOutLate(asked, run, times, later, started, timeout)
    && (polls > 0 ==> Begins(asked, run, times, later, started))
  }

  /** Polls so far, none of them expired. */
  ghost predicate Waiting(asked: seq<Instant>, run: seq<Label>, times: seq<Instant>, later: seq<Label>, deadline: Instant, interval: nat) {
    && |times| == |asked| + |later| - |run| && |run| <= |later|
    && forall i :: |run| <= i < |later| ==> WaitingAt(asked, run, times, later, i, deadline, interval)
  }

  ghost predicate WaitingAt(asked: seq<Instant>, run: seq<Label>, times: seq<Instant>, later: seq<Label>, i: nat,
                            deadline: Instant, interval: nat)
    requires |times| == |asked| + |later| - |run| && |run| <= i < |later|
  {
    && later[i].Poll? && !later[i].expired && times[|asked| + i - |run|] <= deadline
    && (i > |run| ==> times[|asked| + i - |run|] >= times[|asked| + i - |run| - 1] + interval)
  }

  lemma OneMorePoll(m: seq<Instant>, zero: seq<Label>, n: seq<Instant>, one: seq<Label>, at: Instant, l: Label,
                    started: Instant, timeout: nat, interval: nat)
    requires Waiting(m, zero, n, one, started + timeout, interval)
    requires l.Poll? && (l.expired <==> at > started + timeout)
    requires |one| > |zero| ==> |n| > 0 && at >= n[|n| - 1] + interval
    ensures Timed(m, zero, n + [at], one + [l], started, timeout, interval)
    ensures !l.expired ==> Waiting(m, zero, n + [at], one + [l], started + timeout, interval)
    ensures |one + [l]| > |zero| && (one + [l])[|zero|].Poll?
  {
    var k, two := n + [at], one + [l];
    forall i | |zero| <= i < |two|
      ensures TimedAt(m, zero, k, two, i, started, timeout, interval)
    {
      assert i < |one| ==> WaitingAt(m, zero, n, one, i, started + timeout, interval);
      assert i > |zero| ==> WaitingAt(m, zero, n, one, i - 1, started + timeout, interval);
    }
    if !l.expired {
      var deadline := started + timeout;
      forall i | |zero| <= i < |two|
        ensures WaitingAt(m, zero, k, two, i, deadline, interval)
      {
        assert i < |one| ==> WaitingAt(m, zero, n, one, i, deadline, interval);
      }
    }
    if |one| > |zero| {
      assert WaitingAt(m, zero, n, one, |zero|, started + timeout, interval);
    }
  }

  lemma TimedThenQuiet(world: World, m: seq<Instant>, zero: seq<Label>, n: seq<Instant>, one: seq<Label>,
                       k: seq<Instant>, two: seq<Label>, started: Instant, timeout: nat, interval: nat)
    requires Timed(m, zero, n, one, started, timeout, interval) && Executed(world, n, one, k, two, 0)
    ensures Timed(m, zero, k, two, started, timeout, interval)
  {
    hide ExecutedAt;
    PollsCount(one, two);
    forall i | |zero| <= i < |two|
      ensures TimedAt(m, zero, k, two, i, started, timeout, interval)
    {
      assert i < |one| ==> TimedAt(m, zero, n, one, i, started, timeout, interval);
    }
  }

  lemma QuietThenTimed(world: World, m: seq<Instant>, zero: seq<Label>, n: seq<Instant>, one: seq<Label>,
                       k: seq<Instant>, two: seq<Label>, started: Instant, timeout: nat, interval: nat)
    requires Executed(world, m, zero, n, one, 0) && one <= two && n <= k
    requires Timed(n, one, k, two, started, timeout, interval)
    ensures Timed(m, zero, k, two, started, timeout, interval)
  {
    hide ExecutedAt;
    PollsCount(zero, one);
    forall i | |zero| <= i < |one|
      ensures !two[i].Poll?
    {
      assert two[i] == one[i];
    }
    forall i | |zero| <= i < |two|
      ensures TimedAt(m, zero, k, two, i, started, timeout, interval)
    {
      assert i >= |one| ==> TimedAt(n, one, k, two, i, started, timeout, interval);
    }
  }

  lemma BeginsNow(world: World, m: seq<Instant>, zero: seq<Label>, n: seq<Instant>, one: seq<Label>,
                  k: seq<Instant>, two: seq<Label>, started: Instant)
    requires Executed(world, m, zero, n, one, 0) && |one| > |zero| && one <= two && n <= k && |k| == |n| + |two| - |one|
    requires |two| > |one| && two[|one|].Poll? && started == n[|n| - 1]
    ensures Begins(m, zero, k, two, started)
  {
    hide ExecutedAt;
    PollsCount(zero, one);
    forall i | |zero| <= i < |one|
      ensures !two[i].Poll?
    {
      assert two[i] == one[i];
    }
  }

  lemma BeginsLater(world: World, m: seq<Instant>, zero: seq<Label>, n: seq<Instant>, one: seq<Label>,
                    k: seq<Instant>, two: seq<Label>, started: Instant)
    requires Executed(world, m, zero, n, one, 0) && one <= two && n <= k && |k| == |n| + |two| - |one|
    requires Begins(n, one, k, two, started)
    ensures Begins(m, zero, k, two, started)
  {
    hide ExecutedAt;
    PollsCount(zero, one);
    forall i | |zero| <= i < |one|
      ensures !two[i].Poll?
    {
      assert two[i] == one[i];
    }
    var f :| |one| < f < |two| && two[f].Poll? && started == k[|n| + f - |one| - 1]
             && forall i :: |one| <= i < f ==> !two[i].Poll?;
    assert |zero| < f < |two|;
  }

  /** A call that never polls waits for nothing. */
  lemma NeverPolled(world: World, m: seq<Instant>, zero: seq<Label>, n: seq<Instant>, one: seq<Label>,
                    started: Instant, timeout: nat, interval: nat)
    requires Executed(world, m, zero, n, one, 0) && !After(zero).worker.TimingOut?
    ensures Waited(m, zero, n, one, 0, started, timeout, interval)
  {
    assert Timed(m, zero, n, one, started, timeout, interval) by {
      hide ExecutedAt;
      PollsCount(zero, one);
    }
    hide Timed, Executed, TimesOutLate, After;
    MarkedAfterPoll(world, m, zero, n, one, 0, started, timeout, interval);
  }

  /** The loop begins right after `one`. */
  lemma WaitedNow(world: World, m: seq<Instant>, zero: seq<Label>, n: seq<Instant>, one: seq<Label>,
                  k: seq<Instant>, two: seq<Label>, polls: int, started: Instant, timeout: nat, interval: nat)
    requires Executed(world, m, zero, n, one, 0) && |one| > |zero| && Executed(world, n, one, k, two, polls)
    requires !After(zero).worker.TimingOut? && Timed(n, one, k, two, started, timeout, interval)
    requires |two| > |one| && two[|one|].Poll? && |n| > 0 && started == n[|n| - 1]
    ensures Waited(m, zero, k, two, polls, started, timeout, interval)
  {
    ExecutedTwice(world, m, zero, n, one, k, two, 0, polls);
    BeginsNow(world, m, zero, n, one, k, two, started);
    QuietThenTimed(world, m, zero, n, one, k, two, started, timeout, interval);
    hide Timed, Executed, TimesOutLate, Begins, After;
    MarkedAfterPoll(world, m, zero, k, two, polls, started, timeout, interval);
  }

  /** It begins later, if at all. */
  lemma WaitedLater(world: World, m: seq<Instant>, zero: seq<Label>, n: seq<Instant>, one: seq<Label>,
                    k: seq<Instant>, two: seq<Label>, polls: int, started: Instant, timeout: nat, interval: nat)
    requires Executed(world, m, zero, n, one, 0) && Executed(world, n, one, k, two, polls)
    requires !After(zero).worker.TimingOut? && Waited(n, one, k, two, polls, started, timeout, interval)
    ensures Waited(m, zero, k, two, polls, started, timeout, interval)
  {
    ExecutedTwice(world, m, zero, n, one, k, two, 0, polls);
    QuietThenTimed(world, m, zero, n, one, k, two, started, timeout, interval);
    if polls > 0 {
      BeginsLater(world, m, zero, n, one, k, two, started);
    }
    hide Timed, Executed, TimesOutLate, Begins, After;
    MarkedAfterPoll(world, m, zero, k, two, polls, started, timeout, interval);
  }

  /** The only step into TimingOut is an expired poll that missed. */
  lemma LeadsToTimingOut(s: State, l: Label)
    requires IsExecutorStep(l) && WorkerPossible(s, l) && Apply(s, l).worker.TimingOut?
    ensures l.Poll? && l.expired && l.reading.Ok?
  {
    Takes(s, l);
    WorkerEffects(s, l);
    hide Apply, WorkerEffect, OnlyMoves, NotAstray, O.MoveRow;
  }

  lemma MarkedWhileTimingOut(world: World, m: nat, k: nat, later: seq<Label>, i: nat)
    requires k <= i < |later| && later[i].MarkTimedOut? && ExecutedAt(world, m, k, later, i)
    ensures After(later[..i]).worker.TimingOut?
  {
    hide After, FromWorld;
  }

  lemma LedToTimingOut(world: World, m: nat, k: nat, later: seq<Label>, i: nat)
    requires k < i <= |later| && ExecutedAt(world, m, k, later, i - 1) && After(later[..i]).worker.TimingOut?
    ensures later[i - 1].Poll? && later[i - 1].expired && later[i - 1].reading.Ok?
  {
    assert later[..i] == later[..i - 1] + [later[i - 1]];
    AfterOneMore(later[..i - 1], later[i - 1]);
    hide After, FromWorld, Apply, WorkerPossible;
    LeadsToTimingOut(After(later[..i - 1]), later[i - 1]);
  }

  lemma MarkedAfterPoll(world: World, m: seq<Instant>, zero: seq<Label>, n: seq<Instant>, one: seq<Label>, polls: int,
                        started: Instant, timeout: nat, interval: nat)
    requires Executed(world, m, zero, n, one, polls) && !After(zero).worker.TimingOut?
    requires Timed(m, zero, n, one, started, timeout, interval)
    ensures TimesOutLate(m, zero, n, one, started, timeout)
  {
    hide After, ExecutedAt;
    forall i | |zero| <= i < |one| && one[i].MarkTimedOut?
      ensures i > |zero| && one[i - 1].Poll? && one[i - 1].reading.Ok? && n[|m| + i - |zero| - 1] > started + timeout
    {
      MarkedWhileTimingOut(world, |m|, |zero|, one, i);
      assert one[..|zero|] == zero;
      LedToTimingOut(world, |m|, |zero|, one, i);
      var j := i - 1;
      assert TimedAt(m, zero, n, one, j, started, timeout, interval);
    }
  }

  /** A worker step that is possible is the step function of its label. */
  lemma Takes(s: State, l: Label)
    requires !IsRequestStep(l) && WorkerPossible(s, l)
    ensures Apply(s, l) == WorkerEffect(s, l)
    ensures Apply(s, l).clients == s.clients
    ensures l.LeaseJob? || l.EndJob? || Apply(s, l).jobs == s.jobs
  {
    hide WorkerEffect, WorkerPossible;
  }

  /** Where a failing statement leads. */
  function Faulted(worker: Worker): Worker
    requires StatementDue(worker)
  {
    Ending(worker.lease,
           Stray(if worker.Failing? || worker.MarkingFailed? then worker.error else P.LOCAL, worker.Recording?))
  }

  lemma FaultTakes(s: State)
    requires StatementDue(s.worker)
    ensures Apply(s, StatementFails) == s.(worker := Faulted(s.worker))
  {
    WorkerEffects(s, StatementFails);
    Takes(s, StatementFails);
    hide WorkerEffect, Apply;
  }

  lemma RunTakes(s: State, at: string)
    requires s.worker.Starting?
    ensures
      var t := Apply(s, MarkRunning(at));
      var (ops, r) := O.MoveRow(s.ops, s.worker.op.id, O.Running, O.Change(at, "", "", ""));
      t.ops == ops && r != Err(O.StorageFailed) && t.worker == if r.Ok? then Preparing(s.worker.lease, r.value) else Ending(s.worker.lease, Failed(P.LOCAL))
  {
    NoStorageError(s.ops, s.worker.op.id, O.Running, O.Change(at, "", "", ""));
    WorkerEffects(s, MarkRunning(at));
    Takes(s, MarkRunning(at));
    hide WorkerEffect, Apply, O.MoveRow, OnlyMoves, NotAstray;
  }

  lemma RecordTakes(s: State, at: string)
    requires s.worker.Recording?
    ensures
      var t := Apply(s, Record(at));
      var (ops, r) := O.MoveRow(s.ops, s.worker.op.id, O.Verifying, O.Change(at, s.worker.requestId, "", ""));
      t.ops == ops && r != Err(O.StorageFailed) && t.worker == if r.Ok? then Polling(s.worker.lease, r.value) else Ending(s.worker.lease, Failed(P.LOCAL))
  {
    NoStorageError(s.ops, s.worker.op.id, O.Verifying, O.Change(at, s.worker.requestId, "", ""));
    WorkerEffects(s, Record(at));
    Takes(s, Record(at));
    hide WorkerEffect, Apply, O.MoveRow, OnlyMoves, NotAstray;
  }

  lemma TimeOutTakes(s: State, at: string)
    requires s.worker.TimingOut?
    ensures
      var t := Apply(s, MarkTimedOut(at));
      var (ops, r) := O.MoveRow(s.ops, s.worker.op.id, O.TimedOut, O.Change(at, "", "operation_timeout", "Provider state verification timed out"));
      t.ops == ops && r != Err(O.StorageFailed) && t.worker == if r.Ok? then Auditing(s.worker.lease, Done) else Ending(s.worker.lease, Failed(P.LOCAL))
  {
    NoStorageError(s.ops, s.worker.op.id, O.TimedOut, O.Change(at, "", "operation_timeout", "Provider state verification timed out"));
    WorkerEffects(s, MarkTimedOut(at));
    Takes(s, MarkTimedOut(at));
    hide WorkerEffect, Apply, O.MoveRow, OnlyMoves, NotAstray;
  }

  lemma SucceedTakes(s: State, at: string)
    requires s.worker.Succeeding?
    ensures
      var t := Apply(s, MarkSucceeded(at));
      var (ops, r) := O.MoveRow(s.ops, s.worker.op.id, O.Succeeded, O.Change(at, "", "", ""));
      t.ops == ops && r != Err(O.StorageFailed) && t.worker == if r.Ok? then Auditing(s.worker.lease, Done) else Ending(s.worker.lease, Failed(P.LOCAL))
  {
    NoStorageError(s.ops, s.worker.op.id, O.Succeeded, O.Change(at, "", "", ""));
    WorkerEffects(s, MarkSucceeded(at));
    Takes(s, MarkSucceeded(at));
    hide WorkerEffect, Apply, O.MoveRow, OnlyMoves, NotAstray;
  }

  lemma FailTakes(s: State, at: string)
    requires s.worker.MarkingFailed?
    ensures
      var t := Apply(s, MarkFailed(at));
      var (ops, r) := O.MoveRow(s.ops, s.worker.op.id, O.Failed, O.Change(at, "", s.worker.error.code, s.worker.error.message));
      t.ops == ops && r != Err(O.StorageFailed) && t.worker == if r.Ok? then Auditing(s.worker.lease, Failed(s.worker.error)) else Ending(s.worker.lease, Failed(s.worker.error))
  {
    NoStorageError(s.ops, s.worker.op.id, O.Failed, O.Change(at, "", s.worker.error.code, s.worker.error.message));
    WorkerEffects(s, MarkFailed(at));
    Takes(s, MarkFailed(at));
    hide WorkerEffect, Apply, O.MoveRow, OnlyMoves, NotAstray;
  }

  class Executor {
    const operations: O.Repository
    const world: World
    const pollInterval: nat
    const verificationTimeout: nat

    constructor (operations: O.Repository, world: World, pollInterval: nat, verificationTimeout: nat)
      requires pollInterval > 0
      ensures this.operations == operations && this.world == world
      ensures this.pollInterval == pollInterval && this.verificationTimeout == verificationTimeout
    {
      this.operations, this.world := operations, world;
      this.pollInterval, this.verificationTimeout := pollInterval, verificationTimeout;
    }

    /** The repository is the machine's operations table. */
    ghost predicate Valid()
      reads this, operations, world
    {
      pollInterval > 0 && operations.rows == world.Machine().ops && operations.Valid() && world.Clocked()
    }

    ghost function Stage(): Worker
      reads this, world
    {
      world.Machine().worker
    }

    /** The statement due, question number |asked|, fails: its step, and nothing else. */
    ghost method Fault(worker: Worker, asked: seq<Instant>)
      requires Valid() && Stage() == worker && StatementDue(worker)
      requires world.times == asked + [world.now] && !world.stored(|asked|)
      modifies world`run
      ensures |world.run| == |old(world.run)| + 1
      ensures Valid() && Executed(world, asked, old(world.run), world.times, world.run, 0)
      ensures Stage() == Faulted(worker)
    {
      FaultTakes(world.Machine());
      hide Apply, After, O.Inv, FromWorld;
      assert FromWorld(world, StatementFails, |asked|) by { assert !world.stored(|asked|); }
      ExecutedOne(world, asked, world.run, world.now, StatementFails);
      world.Did(StatementFails);
    }

    /** The first read of the row. */
    method Find(lease: Lease) returns (r: Result<O.Operation, O.Error>)
      requires Valid() && Stage() == Entered(lease) && lease.kind.PowerOperation?
      modifies world
      ensures Valid() && Executed(world, old(world.times), old(world.run), world.times, world.run, 0)
      ensures Stage() == if r == Err(O.StorageFailed) then Ending(lease, Stray(P.LOCAL, false)) else FindWorker(world.Machine(), lease)
      ensures r == Err(O.StorageFailed) <==> !old(world.stored(world.asked))
      ensures r != Err(O.StorageFailed) ==>
        r == if lease.payload in operations.rows then Ok(operations.rows[lease.payload]) else Err(O.NotFound)
    {
      ghost var s := world.Machine();
      var succeeds := world.Ask();
      if !succeeds {
        Fault(Entered(lease), old(world.times));
        return Err(O.StorageFailed);
      }
      r := operations.FindByID(lease.payload);
      WorkerEffects(s, FindOperation);
      Takes(s, FindOperation);
      hide WorkerEffect, Apply, O.Inv, OnlyMoves, NotAstray;
      ExecutedOne(world, old(world.times), world.run, world.now, FindOperation);
      world.Did(FindOperation);
    }

    method Start(lease: Lease, op: O.Operation) returns (r: Result<O.Operation, O.Error>)
      requires Valid() && Stage() == Starting(lease, op)
      modifies world, operations
      ensures Valid() && Executed(world, old(world.times), old(world.run), world.times, world.run, 0)
      ensures Stage() == if r.Ok? then Preparing(lease, r.value) else Ending(lease, Refused(r.error, false))
      ensures r == Err(O.StorageFailed) <==> !old(world.stored(world.asked))
    {
      hide Apply, After, O.Inv, O.MoveRow, TimeValue, FromWorld, Executed;
      ghost var s := world.Machine();
      var succeeds := world.Ask();
      if !succeeds {
        Fault(Starting(lease, op), old(world.times));
        return Err(O.StorageFailed);
      }
      var at := TimeValue(world.now);
      r := operations.Transition(op.id, O.Running, O.Change(at, "", "", ""));
      RunTakes(s, at);
      assert FromWorld(world, MarkRunning(at), world.asked - 1) by { WorldStored(world, MarkRunning(at), world.asked - 1); }
      ExecutedOne(world, old(world.times), world.run, world.now, MarkRunning(at));
      world.Did(MarkRunning(at));
    }

    /** The inventory row, the connection, ValidateConnection and the first GetServer. */
    method ReadServer(lease: Lease, op: O.Operation) returns (reading: Result<P.ServerState, P.Error>)
      requires Valid() && Stage() == Preparing(lease, op)
      modifies world
      ensures Valid() && Executed(world, old(world.times), old(world.run), world.times, world.run, 0)
      ensures world.times == old(world.times) + [world.now] && |world.run| == |old(world.run)| + 1
      ensures reading == old(world.prepared(world.asked))
      ensures reading.Err? ==> Stage() == FinishError(lease, op, reading.error)
      ensures reading.Ok? ==>
        Stage() == (if O.ActionAlreadySatisfied(op.action, reading.value) then Storing(lease, op, reading.value)
                    else if !op.status.Verifying? then Acting(lease, op)
                    else Polling(lease, op))
    {
      ghost var s := world.Machine();
      reading := world.prepared(world.asked);
      var _ := world.Ask();
      WorkerEffects(s, Prepare(reading));
      Takes(s, Prepare(reading));
      hide WorkerEffect, Apply, O.Inv, OnlyMoves, NotAstray, FinishError;
      ExecutedOne(world, old(world.times), world.run, world.now, Prepare(reading));
      world.Did(Prepare(reading));
    }

    method CallProvider(lease: Lease, op: O.Operation) returns (receipt: Result<string, P.Error>)
      requires Valid() && Stage() == Acting(lease, op)
      modifies world
      ensures Valid() && Executed(world, old(world.times), old(world.run), world.times, world.run, 0)
      ensures |world.run| == |old(world.run)| + 1
      ensures receipt == old(world.receipts(if op.action.Start? then StartServer else if op.action.Stop? then StopServer else RebootServer, world.asked))
      ensures Stage() == if receipt.Err? then FinishError(lease, op, receipt.error) else Recording(lease, op, receipt.value)
    {
      ghost var s := world.Machine();
      match op.action {
        case Start => receipt := world.receipts(StartServer, world.asked);
        case Stop => receipt := world.receipts(StopServer, world.asked);
        case Reboot => receipt := world.receipts(RebootServer, world.asked);
      }
      var _ := world.Ask();
      WorkerEffects(s, Act(CallFor(op.action), receipt));
      Takes(s, Act(CallFor(op.action), receipt));
      hide WorkerEffect, Apply, O.Inv, OnlyMoves, NotAstray, FinishError;
      ExecutedOne(world, old(world.times), world.run, world.now, Act(CallFor(op.action), receipt));
      world.Did(Act(CallFor(op.action), receipt));
    }

    method RecordReceipt(lease: Lease, op: O.Operation, requestId: string) returns (r: Result<O.Operation, O.Error>)
      requires Valid() && Stage() == Recording(lease, op, requestId)
      modifies world, operations
      ensures world.times == old(world.times) + [world.now] && |world.run| == |old(world.run)| + 1
      ensures Valid() && Executed(world, old(world.times), old(world.run), world.times, world.run, 0)
      ensures Stage() == if r.Ok? then Polling(lease, r.value) else Ending(lease, Refused(r.error, true))
      ensures r == Err(O.StorageFailed) <==> !old(world.stored(world.asked))
    {
      hide Apply, After, O.Inv, O.MoveRow, TimeValue, FromWorld, Executed;
      ghost var s := world.Machine();
      var succeeds := world.Ask();
      if !succeeds {
        Fault(Recording(lease, op, requestId), old(world.times));
        return Err(O.StorageFailed);
      }
      var at := TimeValue(world.now);
      r := operations.Transition(op.id, O.Verifying, O.Change(at, requestId, "", ""));
      RecordTakes(s, at);
      assert FromWorld(world, Record(at), world.asked - 1) by { WorldStored(world, Record(at), world.asked - 1); }
      ExecutedOne(world, old(world.times), world.run, world.now, Record(at));
      world.Did(Record(at));
    }

    /** One GetServer of the verification loop, and the look at the clock after a miss. */
    method PollServer(lease: Lease, op: O.Operation, deadline: Instant)
      returns (reading: Result<P.ServerState, P.Error>, expired: bool)
      requires Valid() && Stage() == Polling(lease, op)
      modifies world
      ensures Valid() && Executed(world, old(world.times), old(world.run), world.times, world.run, 1)
      ensures world.now >= old(world.now) && (expired <==> world.now > deadline)
      ensures world.times == old(world.times) + [world.now] && world.run == old(world.run) + [Poll(reading, expired)]
      ensures reading == old(world.polled(world.asked))
      ensures reading.Err? ==> Stage() == FinishError(lease, op, reading.error)
      ensures reading.Ok? ==>
        Stage() == (if O.VerificationTargetReached(op.action, reading.value) then Storing(lease, op, reading.value)
                    else if expired then TimingOut(lease, op)
                    else Polling(lease, op))
    {
      ghost var s := world.Machine();
      reading := world.polled(world.asked);
      var _ := world.Ask();
      expired := world.now > deadline;
      WorkerEffects(s, Poll(reading, expired));
      Takes(s, Poll(reading, expired));
      hide WorkerEffect, Apply, O.Inv, OnlyMoves, NotAstray, FinishError;
      ExecutedOne(world, old(world.times), world.run, world.now, Poll(reading, expired));
      world.Did(Poll(reading, expired));
    }

    method AppendAuditEvent(lease: Lease, outcome: Outcome) returns (result: Outcome)
      requires Valid() && Stage() == Auditing(lease, outcome)
      modifies world
      ensures Valid() && Executed(world, old(world.times), old(world.run), world.times, world.run, 0)
      ensures Stage() == Ending(lease, result)
      ensures old(world.stored(world.asked)) || outcome.Failed? ==> result == outcome
      ensures !old(world.stored(world.asked)) && !outcome.Failed? ==> result == Failed(P.Error(false, "", "", false))
    {
      ghost var s := world.Machine();
      var stored := world.Ask();
      WorkerEffects(s, AppendAudit(stored));
      Takes(s, AppendAudit(stored));
      hide WorkerEffect, Apply, O.Inv, OnlyMoves, NotAstray;
      ExecutedOne(world, old(world.times), world.run, world.now, AppendAudit(stored));
      world.Did(AppendAudit(stored));
      result := AuditOutcome(outcome, stored);
    }

    method MarkTimeOut(lease: Lease, op: O.Operation) returns (r: Result<O.Operation, O.Error>)
      requires Valid() && Stage() == TimingOut(lease, op)
      modifies world, operations
      ensures Valid() && Executed(world, old(world.times), old(world.run), world.times, world.run, 0)
      ensures Stage() == if r.Ok? then Auditing(lease, Done) else Ending(lease, Refused(r.error, false))
      ensures r == Err(O.StorageFailed) <==> !old(world.stored(world.asked))
    {
      hide Apply, After, O.Inv, O.MoveRow, TimeValue, FromWorld, Executed;
      ghost var s := world.Machine();
      var succeeds := world.Ask();
      if !succeeds {
        Fault(TimingOut(lease, op), old(world.times));
        return Err(O.StorageFailed);
      }
      var at := TimeValue(world.now);
      r := operations.Transition(op.id, O.TimedOut, O.Change(at, "", "operation_timeout", "Provider state verification timed out"));
      TimeOutTakes(s, at);
      assert FromWorld(world, MarkTimedOut(at), world.asked - 1) by { WorldStored(world, MarkTimedOut(at), world.asked - 1); }
      ExecutedOne(world, old(world.times), world.run, world.now, MarkTimedOut(at));
      world.Did(MarkTimedOut(at));
    }

    method TimeOut(lease: Lease, op: O.Operation) returns (outcome: Outcome)
      requires Valid() && Stage() == TimingOut(lease, op)
      modifies world, operations
      ensures Valid() && Executed(world, old(world.times), old(world.run), world.times, world.run, 0)
      ensures Stage() == Ending(lease, outcome)
    {
      hide After, O.Inv, Executed;
      ghost var m, zero := world.times, world.run;
      var marked := MarkTimeOut(lease, op);
      if marked.Err? {
        return Refused(marked.error, false);
      }
      ghost var n, one := world.times, world.run;
      outcome := AppendAuditEvent(lease, Done);
      ExecutedTwice(world, m, zero, n, one, world.times, world.run, 0, 0);
    }

    method Store(lease: Lease, op: O.Operation, seen: P.ServerState) returns (stored: bool)
      requires Valid() && Stage() == Storing(lease, op, seen)
      modifies world
      ensures Valid() && Executed(world, old(world.times), old(world.run), world.times, world.run, 0)
      ensures stored == old(world.stored(world.asked))
      ensures Stage() == if stored then Succeeding(lease, op, seen) else Ending(lease, Stray(P.LOCAL, false))
    {
      ghost var s := world.Machine();
      stored := world.Ask();
      WorkerEffects(s, StoreRemote(stored));
      Takes(s, StoreRemote(stored));
      hide WorkerEffect, Apply, O.Inv, OnlyMoves, NotAstray;
      ExecutedOne(world, old(world.times), world.run, world.now, StoreRemote(stored));
      world.Did(StoreRemote(stored));
    }

    method MarkSuccess(lease: Lease, op: O.Operation, seen: P.ServerState) returns (r: Result<O.Operation, O.Error>)
      requires Valid() && Stage() == Succeeding(lease, op, seen)
      modifies world, operations
      ensures Valid() && Executed(world, old(world.times), old(world.run), world.times, world.run, 0)
      ensures Stage() == if r.Ok? then Auditing(lease, Done) else Ending(lease, Refused(r.error, false))
      ensures r == Err(O.StorageFailed) <==> !old(world.stored(world.asked))
    {
      hide Apply, After, O.Inv, O.MoveRow, TimeValue, FromWorld, Executed;
      ghost var s := world.Machine();
      var succeeds := world.Ask();
      if !succeeds {
        Fault(Succeeding(lease, op, seen), old(world.times));
        return Err(O.StorageFailed);
      }
      var at := TimeValue(world.now);
      r := operations.Transition(op.id, O.Succeeded, O.Change(at, "", "", ""));
      SucceedTakes(s, at);
      assert FromWorld(world, MarkSucceeded(at), world.asked - 1) by { WorldStored(world, MarkSucceeded(at), world.asked - 1); }
      ExecutedOne(world, old(world.times), world.run, world.now, MarkSucceeded(at));
      world.Did(MarkSucceeded(at));
    }

    method Succeed(lease: Lease, op: O.Operation, seen: P.ServerState) returns (outcome: Outcome)
      requires Valid() && Stage() == Storing(lease, op, seen)
      modifies world, operations
      ensures Valid() && Executed(world, old(world.times), old(world.run), world.times, world.run, 0)
      ensures Stage() == Ending(lease, outcome)
    {
      hide After, O.Inv, Executed;
      ghost var m, zero := world.times, world.run;
      var stored := Store(lease, op, seen);
      if !stored {
        return Stray(P.LOCAL, false);
      }
      ghost var n, one := world.times, world.run;
      var marked := MarkSuccess(lease, op, seen);
      ExecutedTwice(world, m, zero, n, one, world.times, world.run, 0, 0);
      if marked.Err? {
        return Refused(marked.error, false);
      }
      ghost var k, two := world.times, world.run;
      outcome := AppendAuditEvent(lease, Done);
      ExecutedTwice(world, m, zero, k, two, world.times, world.run, 0, 0);
    }

    /** finishError's second read of the row: whether it is still open. */
    method Look(lease: Lease, op: O.Operation, error: P.Error) returns (r: Result<bool, O.Error>)
      requires Valid() && Stage() == Failing(lease, op, error)
      modifies world
      ensures Valid() && Executed(world, old(world.times), old(world.run), world.times, world.run, 0)
      ensures r.Err? <==> !old(world.stored(world.asked))
      ensures r.Err? ==> Stage() == Ending(lease, Stray(error, false))
      ensures r.Ok? ==> Stage() == if r.value then MarkingFailed(lease, op, error) else Ending(lease, Failed(error))
    {
      ghost var s := world.Machine();
      var succeeds := world.Ask();
      if !succeeds {
        Fault(Failing(lease, op, error), old(world.times));
        return Err(O.StorageFailed);
      }
      var current := operations.FindByID(op.id);
      WorkerEffects(s, LookAgain);
      Takes(s, LookAgain);
      hide WorkerEffect, Apply, O.Inv, OnlyMoves, NotAstray;
      ExecutedOne(world, old(world.times), world.run, world.now, LookAgain);
      world.Did(LookAgain);
      return Ok(current.Ok? && !O.Terminal(current.value.status));
    }

    method MarkFailure(lease: Lease, op: O.Operation, error: P.Error) returns (r: Result<O.Operation, O.Error>)
      requires Valid() && Stage() == MarkingFailed(lease, op, error)
      modifies world, operations
      ensures Valid() && Executed(world, old(world.times), old(world.run), world.times, world.run, 0)
      ensures r == Err(O.StorageFailed) <==> !old(world.stored(world.asked))
      ensures Stage() == if r.Ok? then Auditing(lease, Failed(error))
                         else Ending(lease, if r.error.StorageFailed? then Stray(error, false) else Failed(error))
    {
      hide Apply, After, O.Inv, O.MoveRow, TimeValue, FromWorld, Executed;
      ghost var s := world.Machine();
      var succeeds := world.Ask();
      if !succeeds {
        Fault(MarkingFailed(lease, op, error), old(world.times));
        return Err(O.StorageFailed);
      }
      var at := TimeValue(world.now);
      r := operations.Transition(op.id, O.Failed, O.Change(at, "", error.code, error.message));
      FailTakes(s, at);
      assert FromWorld(world, MarkFailed(at), world.asked - 1) by { WorldStored(world, MarkFailed(at), world.asked - 1); }
      ExecutedOne(world, old(world.times), world.run, world.now, MarkFailed(at));
      world.Did(MarkFailed(at));
    }

    /** finishError: retry, or fail the row unless it is terminal.  The error stays the one it
        was given, alone or joined with a storage error. */
    method HandleError(lease: Lease, op: O.Operation, error: P.Error) returns (outcome: Outcome)
      requires Valid() && Stage() == FinishError(lease, op, error)
      modifies world, operations
      ensures Valid() && Executed(world, old(world.times), old(world.run), world.times, world.run, 0)
      ensures Stage() == Ending(lease, outcome) && (outcome == Failed(error) || outcome == Stray(error, false))
    {
      ExecutedNone(world, world.times, world.run);
      if P.Retryable(error) && lease.attempts < lease.maxAttempts {
        return Failed(error);
      }
      hide After, O.Inv, FinishError, Executed;
      ghost var m, zero := world.times, world.run;
      var open := Look(lease, op, error);
      if open.Err? {
        return Stray(error, false);
      }
      if open.value {
        ghost var n, one := world.times, world.run;
        var marked := MarkFailure(lease, op, error);
        ExecutedTwice(world, m, zero, n, one, world.times, world.run, 0, 0);
        if marked == Err(O.StorageFailed) {
          return Stray(error, false);
        }
        if marked.Ok? {
          ghost var k, two := world.times, world.run;
          outcome := AppendAuditEvent(lease, Failed(error));
          ExecutedTwice(world, m, zero, k, two, world.times, world.run, 0, 0);
        }
      }
      return Failed(error);
    }

    /** The verification loop.  It gives up only at a poll answered more than the timeout after
        it began, and goes on after any other miss; every wait lasts at least the poll
        interval, so it asks the provider at most floor(timeout / interval) + 2 times. */
    method Verify(lease: Lease, op: O.Operation) returns (outcome: Outcome, ghost polls: nat)
      requires Valid() && Stage() == Polling(lease, op)
      modifies world, operations
      ensures Valid() && Executed(world, old(world.times), old(world.run), world.times, world.run, polls)
      ensures Stage() == Ending(lease, outcome)
      ensures 1 <= polls <= verificationTimeout / pollInterval + 2
      ensures |world.run| > |old(world.run)| && world.run[|old(world.run)|].Poll?
      ensures Timed(old(world.times), old(world.run), world.times, world.run, old(world.now), verificationTimeout, pollInterval)
      ensures TimesOutLate(old(world.times), old(world.run), world.times, world.run, old(world.now), verificationTimeout)
    {
      hide After, O.Inv, FinishError, Executed, Timed, TimesOutLate, Waiting;
      ghost var m, zero := world.times, world.run;
      var started := world.now;
      var deadline := started + verificationTimeout;
      BeginLoop(world, m, zero, deadline, pollInterval);
      polls := 0;
      while true
        invariant Valid() && Executed(world, m, zero, world.times, world.run, polls)
        invariant Stage() == Polling(lease, op)
        invariant world.now >= started + polls * pollInterval
        invariant polls >= 1 ==> (polls - 1) * pollInterval <= verificationTimeout
        invariant Waiting(m, zero, world.times, world.run, deadline, pollInterval)
        invariant |world.run| > |zero| ==>
          |world.times| > 0 && world.now >= world.times[|world.times| - 1] + pollInterval && world.run[|zero|].Poll?
        decreases if world.now <= deadline then deadline - world.now + 1 else 0
      {
        ghost var n, one := world.times, world.run;
        var reading, expired := PollServer(lease, op, deadline);
        polls := polls + 1;
        ExecutedTwice(world, m, zero, n, one, world.times, world.run, polls - 1, 1);
        PollsFit(polls, pollInterval, verificationTimeout);
        OneMorePoll(m, zero, n, one, world.now, Poll(reading, expired), started, verificationTimeout, pollInterval);
        ghost var k, two := world.times, world.run;
        if reading.Err? {
          outcome := HandleError(lease, op, reading.error);
          EndLoop(world, m, zero, k, two, world.times, world.run, polls, started, verificationTimeout, pollInterval);
          return;
        }
        if O.VerificationTargetReached(op.action, reading.value) {
          outcome := Succeed(lease, op, reading.value);
          EndLoop(world, m, zero, k, two, world.times, world.run, polls, started, verificationTimeout, pollInterval);
          return;
        }
        if expired {
          outcome := TimeOut(lease, op);
          EndLoop(world, m, zero, k, two, world.times, world.run, polls, started, verificationTimeout, pollInterval);
          return;
        }
        world.Wait(pollInterval);
        OneMoreInterval(polls, pollInterval);
      }
    }

    /** Execute; `started` is when its verification loop began, if it polls at all. */
    method Execute(lease: Lease) returns (outcome: Outcome, ghost polls: nat, ghost started: Instant)
      requires Valid() && Stage() == Entered(lease) && lease.kind.PowerOperation?
      modifies world, operations
      ensures Valid() && Executed(world, old(world.times), old(world.run), world.times, world.run, polls)
      ensures Stage() == Ending(lease, outcome)
      ensures polls <= verificationTimeout / pollInterval + 2
      ensures Waited(old(world.times), old(world.run), world.times, world.run, polls, started, verificationTimeout, pollInterval)
    {
      hide After, O.Inv, FinishError, Executed, Waited;
      polls, started := 0, 0;
      ghost var m, zero := world.times, world.run;
      var found := Find(lease);
      NeverPolled(world, m, zero, world.times, world.run, 0, verificationTimeout, pollInterval);
      if found.Err? {
        outcome := Refused(found.error, false);
        return;
      }
      var operation := found.value;
      if O.Terminal(operation.status) {
        outcome := Done;
        return;
      }
      ghost var n, one := world.times, world.run;
      if operation.status.Queued? {
        var began := Start(lease, operation);
        ExecutedTwice(world, m, zero, n, one, world.times, world.run, 0, 0);
        NeverPolled(world, m, zero, world.times, world.run, 0, verificationTimeout, pollInterval);
        if began.Err? {
          outcome := Refused(began.error, false);
          return;
        }
        operation := began.value;
      }
      ghost var k, two := world.times, world.run;
      outcome, polls, started := Drive(lease, operation);
      ExecutedTwice(world, m, zero, k, two, world.times, world.run, 0, polls);
      WaitedLater(world, m, zero, k, two, world.times, world.run, polls, started, verificationTimeout, pollInterval);
    }

    /** Execute from the first look at the server on. */
    method Drive(lease: Lease, op: O.Operation) returns (outcome: Outcome, ghost polls: nat, ghost started: Instant)
      requires Valid() && Stage() == Preparing(lease, op)
      modifies world, operations
      ensures Valid() && Executed(world, old(world.times), old(world.run), world.times, world.run, polls)
      ensures Stage() == Ending(lease, outcome)
      ensures polls <= verificationTimeout / pollInterval + 2
      ensures Waited(old(world.times), old(world.run), world.times, world.run, polls, started, verificationTimeout, pollInterval)
    {
      hide After, O.Inv, FinishError, Executed, Waited, Timed, TimesOutLate;
      polls, started := 0, 0;
      ghost var m, zero := world.times, world.run;
      var reading := ReadServer(lease, op);
      ghost var n, one := world.times, world.run;
      if reading.Err? {
        outcome := HandleError(lease, op, reading.error);
      } else if O.ActionAlreadySatisfied(op.action, reading.value) {
        outcome := Succeed(lease, op, reading.value);
      } else if op.status.Verifying? {
        started := world.now;
        outcome, polls := Verify(lease, op);
        ExecutedTwice(world, m, zero, n, one, world.times, world.run, 0, polls);
        WaitedNow(world, m, zero, n, one, world.times, world.run, polls, started, verificationTimeout, pollInterval);
        return;
      } else {
        outcome, polls, started := Write(lease, op);
        ExecutedTwice(world, m, zero, n, one, world.times, world.run, 0, polls);
        WaitedLater(world, m, zero, n, one, world.times, world.run, polls, started, verificationTimeout, pollInterval);
        return;
      }
      ExecutedTwice(world, m, zero, n, one, world.times, world.run, 0, 0);
      NeverPolled(world, m, zero, world.times, world.run, 0, verificationTimeout, pollInterval);
    }

    /** Execute from the provider call on. */
    method Write(lease: Lease, op: O.Operation) returns (outcome: Outcome, ghost polls: nat, ghost started: Instant)
      requires Valid() && Stage() == Acting(lease, op)
      modifies world, operations
      ensures Valid() && Executed(world, old(world.times), old(world.run), world.times, world.run, polls)
      ensures Stage() == Ending(lease, outcome)
      ensures polls <= verificationTimeout / pollInterval + 2
      ensures Waited(old(world.times), old(world.run), world.times, world.run, polls, started, verificationTimeout, pollInterval)
    {
      hide After, O.Inv, FinishError, Executed, Waited, Timed, TimesOutLate;
      polls, started := 0, 0;
      ghost var m, zero := world.times, world.run;
      var receipt := CallProvider(lease, op);
      ghost var n, one := world.times, world.run;
      if receipt.Err? {
        outcome := HandleError(lease, op, receipt.error);
        ExecutedTwice(world, m, zero, n, one, world.times, world.run, 0, 0);
        NeverPolled(world, m, zero, world.times, world.run, 0, verificationTimeout, pollInterval);
        return;
      }
      var recorded := RecordReceipt(lease, op, receipt.value);
      ghost var k, two := world.times, world.run;
      ExecutedTwice(world, m, zero, n, one, k, two, 0, 0);
      if recorded.Err? {
        NeverPolled(world, m, zero, world.times, world.run, 0, verificationTimeout, pollInterval);
        outcome := Refused(recorded.error, true);
        return;
      }
      started := world.now;
      outcome, polls := Verify(lease, recorded.value);
      ExecutedTwice(world, m, zero, k, two, world.times, world.run, 0, polls);
      WaitedNow(world, m, zero, k, two, world.times, world.run, polls, started, verificationTimeout, pollInterval);
    }
  }

  /** What Execute returns when a statement on the row failed or the row refused it. */
  function Refused(error: O.Error, unrecorded: bool): Outcome {
    if error.StorageFailed? then Stray(P.LOCAL, unrecorded) else Failed(P.LOCAL)
  }

  lemma NoStorageError(ops: O.Table, id: string, next: O.Status, change: O.Change)
    ensures O.MoveRow(ops, id, next, change).1 != Err(O.StorageFailed)
  {
  }

  lemma BeginLoop(world: World, m: seq<Instant>, zero: seq<Label>, deadline: Instant, interval: nat)
    ensures Executed(world, m, zero, m, zero, 0) && Waiting(m, zero, m, zero, deadline, interval)
  {
    ExecutedNone(world, m, zero);
  }

  /** After the last poll `two` the row is closed or left without another one. */
  lemma EndLoop(world: World, m: seq<Instant>, zero: seq<Label>, k: seq<Instant>, two: seq<Label>,
                last: seq<Instant>, three: seq<Label>, polls: nat, started: Instant, timeout: nat, interval: nat)
    requires Executed(world, m, zero, k, two, polls) && Timed(m, zero, k, two, started, timeout, interval)
    requires Executed(world, k, two, last, three, 0) && !After(zero).worker.TimingOut?
    requires |two| > |zero| && two[|zero|].Poll?
    ensures Executed(world, m, zero, last, three, polls) && Timed(m, zero, last, three, started, timeout, interval)
    ensures TimesOutLate(m, zero, last, three, started, timeout)
    ensures |three| > |zero| && three[|zero|].Poll?
  {
    hide ExecutedAt, After, TimesOutLate;
    ExecutedTwice(world, m, zero, k, two, last, three, polls, 0);
    TimedThenQuiet(world, m, zero, k, two, last, three, started, timeout, interval);
    hide Timed;
    MarkedAfterPoll(world, m, zero, last, three, polls, started, timeout, interval);
  }

  lemma PollsFit(polls: nat, interval: nat, timeout: nat)
    requires interval > 0 && polls >= 1
    requires polls >= 2 ==> (polls - 2) * interval <= timeout
    ensures polls <= timeout / interval + 2
  {
    var full := timeout / interval;
    assert timeout == interval * full + timeout % interval;
    TimesGrows(full + 1, polls - 2, interval);
    assert (full + 1) * interval == interval * full + interval;
  }

  lemma TimesGrows(a: int, b: int, n: nat)
    ensures a <= b ==> a * n <= b * n
  {
  }

  lemma OneMoreInterval(polls: nat, interval: nat)
    requires polls >= 1
    ensures polls * interval == (polls - 1) * interval + interval
  {
  }

  // ----- the worker

  /** The handler's steps: those of Execute, or one sync. */
  ghost predicate Handled(world: World, asked: seq<Instant>, run: seq<Label>, times: seq<Instant>, later: seq<Label>, polls: int) {
    && run <= later && asked <= times && |times| == |asked| + |later| - |run| && Polls(later) == Polls(run) + polls
    && forall i :: |run| <= i < |later| ==>
         (IsExecutorStep(later[i]) || later[i].HandleSync?) && TakenAt(world, |asked|, |run|, later, i)
  }

  /** A lease, the handler's steps, and the end of the job or of the program. */
  ghost predicate OneJobDone(world: World, asked: seq<Instant>, run: seq<Label>, times: seq<Instant>, later: seq<Label>) {
    && run <= later && |later| >= |run| + 2 && |times| == |asked| + |later| - |run|
    && later[|run|].LeaseJob? && (later[|later| - 1].EndJob? || later[|later| - 1].Crash?)
    && (forall i :: |run| < i < |later| - 1 ==> IsExecutorStep(later[i]) || later[i].HandleSync?)
    && (forall i :: |run| <= i < |later| ==> TakenAt(world, |asked|, |run|, later, i))
  }

  lemma {:induction false} ExecutorKeepsJobs(world: World, asked: seq<Instant>, run: seq<Label>, times: seq<Instant>,
                                             later: seq<Label>, polls: int)
    requires Executed(world, asked, run, times, later, polls)
    ensures Handled(world, asked, run, times, later, polls) && After(later).jobs == After(run).jobs
    decreases |later|
  {
    if |later| == |run| {
      assert later == run;
    } else {
      var before, l := later[..|later| - 1], later[|later| - 1];
      assert IsExecutorStep(l) by { assert ExecutedAt(world, |asked|, |run|, later, |later| - 1); }
      hide TakenAt;
      forall i | |run| <= i < |before|
        ensures before[i] == later[i] && ExecutedAt(world, |asked|, |run|, before, i)
      {
        SameStep(world, |asked|, |run|, before, later, i);
      }
      ExecutorKeepsJobs(world, asked, run, times[..|times| - 1], before, Polls(before) - Polls(run));
      forall i | |run| <= i < |later|
        ensures IsExecutorStep(later[i]) && TakenAt(world, |asked|, |run|, later, i)
      {
        assert ExecutedAt(world, |asked|, |run|, later, i);
      }
      hide Possible, WorkerEffect;
    }
  }

  lemma Granted(one: seq<Label>, lease: Lease)
    requires After(one).worker == Entered(lease)
    ensures lease.attempts >= 1
  {
    AlwaysInv(one);
  }

  lemma StillHeld(run: seq<Label>)
    requires !After(run).worker.Idle?
    ensures J.Holds(After(run).jobs, After(run).worker.lease.job, WORKER)
  {
    AlwaysInv(run);
  }

  /** The jobs table after the worker ended `lease`; unchanged without the lease. */
  function Settled(jobs: J.Table, lease: Lease, outcome: Outcome, at: string, message: string): J.Table {
    var r :=
      if outcome.Done? then J.Ended(jobs, lease.job, WORKER, J.Succeeded, at, "")
      else if P.Retryable(outcome.error) then J.Retried(jobs, lease.job, WORKER, at, message)
      else J.Ended(jobs, lease.job, WORKER, J.Failed, at, message);
    if r.Ok? then r.value else jobs
  }

  lemma EndSettles(s: State, at: string, message: string)
    requires s.worker.Ending?
    ensures
      var t := Apply(s, EndJob(at, message));
      t.jobs == Settled(s.jobs, s.worker.lease, s.worker.outcome, at, message) && t.ops == s.ops && t.worker.Idle?
  {
    var l := EndJob(at, message);
    WorkerEffects(s, l);
    hide WorkerEffect, J.Ended, J.Retried;
    assert Apply(s, l) == EndStep(s, at, message);
  }

  lemma CrashTakes(s: State)
    requires !s.worker.Idle?
    ensures
      var t := Apply(s, Crash);
      t.jobs == s.jobs && t.ops == s.ops && t.worker.Idle?
  {
    WorkerEffects(s, Crash);
    Takes(s, Crash);
    hide WorkerEffect, Apply;
  }

  lemma LeaseTakes(s: State, id: string, now: string, expires: string)
    requires s.worker.Idle? && J.IsNext(s.jobs, now, id)
    ensures
      var t := Apply(s, LeaseJob(id, now, expires));
      var jobs := J.Leased(s.jobs, id, WORKER, now, expires);
      && t.jobs == jobs && t.ops == s.ops && id in jobs
      && t.worker == Entered(Lease(id, jobs[id].kind, jobs[id].payload, jobs[id].attempts, jobs[id].maxAttempts))
  {
    var l := LeaseJob(id, now, expires);
    WorkerEffects(s, l);
    hide WorkerEffect, J.Due, J.LeasedRow;
    assert Apply(s, l) == LeaseStep(s, l);
  }

  class Node {
    const executor: Executor
    const jobs: J.Repository
    const world: World
    const leaseDuration: nat

    constructor (executor: Executor, jobs: J.Repository, leaseDuration: nat)
      ensures this.executor == executor && this.jobs == jobs && this.leaseDuration == leaseDuration
      ensures this.world == executor.world
    {
      this.executor, this.jobs, this.leaseDuration, this.world := executor, jobs, leaseDuration, executor.world;
    }

    /** The two repositories are the machine's two tables. */
    ghost predicate Valid()
      reads this, executor, executor.operations, jobs, world
    {
      executor.world == world && executor.Valid() && jobs.rows == world.Machine().jobs
    }

    method SyncConnection(lease: Lease) returns (outcome: Outcome)
      requires Valid() && executor.Stage() == Entered(lease) && lease.kind.SyncConnection?
      modifies world
      ensures Valid() && executor.Stage() == Ending(lease, outcome)
      ensures world.run == old(world.run) + [HandleSync(old(world.synced(world.asked)))]
      ensures world.times == old(world.times) + [world.now]
    {
      ghost var s := world.Machine();
      var error := world.synced(world.asked);
      var _ := world.Ask();
      WorkerEffects(s, HandleSync(error));
      Takes(s, HandleSync(error));
      hide WorkerEffect, Apply, O.Inv, OnlyMoves, NotAstray;
      world.Did(HandleSync(error));
      return if error.None? then Done else Failed(error.value);
    }

    method Take(now: Instant) returns (r: Result<Lease, J.Error>)
      requires Valid() && executor.Stage().Idle?
      modifies world`run, jobs
      ensures Valid()
      ensures r.Ok? ==>
        && executor.Stage() == Entered(r.value)
        && world.run == old(world.run) + [LeaseJob(r.value.job, TimeValue(now), TimeValue(now + leaseDuration))]
        && WorkerPossible(old(world.Machine()), world.run[|old(world.run)|])
      ensures r.Err? ==> r.error == J.NoJob && world.run == old(world.run) && jobs.rows == old(jobs.rows)
      ensures r.Err? ==> forall id :: id in jobs.rows ==> !J.Due(jobs.rows[id], TimeValue(now))
    {
      hide Apply, After, O.Inv, J.Due, J.IsNext, J.Leased, TimeValue;
      ghost var s := world.Machine();
      var leased := jobs.LeaseNext(WORKER, now, leaseDuration);
      if leased.Err? {
        return Err(leased.error);
      }
      var id, job := leased.value.id, leased.value.job;
      ghost var l := LeaseJob(id, TimeValue(now), TimeValue(now + leaseDuration));
      LeaseTakes(s, id, TimeValue(now), TimeValue(now + leaseDuration));
      world.Did(l);
      return Ok(Lease(id, job.kind, job.payload, job.attempts, job.maxAttempts));
    }

    /** The handler of app.go: by kind. */
    method Handle(lease: Lease) returns (outcome: Outcome, ghost polls: nat, ghost started: Instant)
      requires Valid() && executor.Stage() == Entered(lease)
      modifies world, executor.operations
      ensures Valid() && executor.Stage() == Ending(lease, outcome)
      ensures Handled(world, old(world.times), old(world.run), world.times, world.run, polls)
      ensures polls <= executor.verificationTimeout / executor.pollInterval + 2
      ensures Waited(old(world.times), old(world.run), world.times, world.run, polls, started,
                     executor.verificationTimeout, executor.pollInterval)
    {
      hide After, Executed, Handled, Waited;
      polls, started := 0, 0;
      if lease.kind.SyncConnection? {
        outcome := SyncConnection(lease);
        HandledSync(world, old(world.times), old(world.run), world.now);
        SyncWaits(old(world.times), old(world.run), world.now, HandleSync(world.synced(|old(world.times)|)),
                  executor.verificationTimeout, executor.pollInterval);
      } else {
        outcome, polls, started := executor.Execute(lease);
        ExecutorKeepsJobs(world, old(world.times), old(world.run), world.times, world.run, polls);
      }
    }

    /** Complete, Retry after the delay for the attempt, or Fail. */
    method Settle(lease: Lease, outcome: Outcome, message: string) returns (r: Result<(), J.Error>, at: string)
      requires lease.attempts >= 1
      modifies jobs
      ensures r == if J.Holds(old(jobs.rows), lease.job, WORKER) then Ok(()) else Err(J.LeaseLost)
      ensures jobs.rows == Settled(old(jobs.rows), lease, outcome, at, message)
      ensures at == TimeValue(if !outcome.Done? && P.Retryable(outcome.error)
                              then world.now + J.RetryDelay(lease.attempts) * 1_000_000_000 else world.now)
    {
      hide TimeValue, J.RetryDelay, J.RetriedRow, J.EndedRow;
      at := TimeValue(world.now);
      if outcome.Done? {
        r := jobs.Complete(lease.job, WORKER, at);
      } else if P.Retryable(outcome.error) {
        at := TimeValue(world.now + J.RetryDelay(lease.attempts) * 1_000_000_000);
        r := jobs.Retry(lease.job, WORKER, at, message);
      } else {
        r := jobs.Fail(lease.job, WORKER, at, message);
      }
    }

    /** The report; if its statement fails the program stops with the lease in place. */
    method Finish(lease: Lease, outcome: Outcome, message: string) returns (r: Result<(), J.Error>)
      requires Valid() && executor.Stage() == Ending(lease, outcome) && lease.attempts >= 1
      modifies world, jobs
      ensures Valid() && executor.Stage().Idle? && world.times == old(world.times) + [world.now]
      ensures r == if !old(world.stored(world.asked)) then Err(J.StorageFailed)
                   else if J.Holds(old(jobs.rows), lease.job, WORKER) then Ok(()) else Err(J.LeaseLost)
      ensures if r == Err(J.StorageFailed) then world.run == old(world.run) + [Crash]
              else world.run == old(world.run) + [EndJob(EndsAt(world.now, lease.attempts, outcome), message)]
      ensures TakenAt(world, |old(world.times)|, |old(world.run)|, world.run, |old(world.run)|)
    {
      hide Apply, After, O.Inv, Settled, TimeValue;
      ghost var s := world.Machine();
      var succeeds := world.Ask();
      if !succeeds {
        CrashTakes(s);
        TakenNow(world, world.run, Crash, |old(world.times)|);
        world.Did(Crash);
        return Err(J.StorageFailed);
      }
      var at;
      r, at := Settle(lease, outcome, message);
      EndSettles(s, at, message);
      EndsWhen(world.now, lease, outcome);
      TakenNow(world, world.run, EndJob(at, message), |old(world.times)|);
      world.Did(EndJob(at, message));
    }

    /** One job, or none if none is due.  The worker never loses its lease, since no other
        worker exists to take it; a failing statement of its own ends the program, before
        the lease or after the handler. */
    method RunOnce(message: string) returns (r: Result<(), J.Error>, ghost polls: nat, ghost started: Instant)
      requires Valid() && executor.Stage().Idle?
      modifies world, executor.operations, jobs
      ensures Valid() && executor.Stage().Idle?
      ensures r.Err? ==> r.error == J.NoJob || r.error == J.StorageFailed
      ensures r == Err(J.NoJob) ==> jobs.rows == old(jobs.rows) && world.run == old(world.run)
      ensures r == Err(J.NoJob) ==> forall id :: id in jobs.rows ==> !J.Due(jobs.rows[id], TimeValue(world.now))
      ensures r.Ok? ==> OneJobDone(world, old(world.times), old(world.run), world.times, world.run) && world.run[|world.run| - 1].EndJob?
      ensures r == Err(J.StorageFailed) ==>
        || world.run == old(world.run)
        || (OneJobDone(world, old(world.times), old(world.run), world.times, world.run) && world.run[|world.run| - 1].Crash?)
      ensures polls <= executor.verificationTimeout / executor.pollInterval + 2
      ensures world.run != old(world.run) ==>
        Waited(old(world.times), old(world.run), world.times, world.run, polls, started,
               executor.verificationTimeout, executor.pollInterval)
    {
      hide After, J.Due, TimeValue, Handled, OneJobDone, Waited, TakenAt, WorkerPossible;
      polls, started := 0, 0;
      ghost var m, zero := world.times, world.run;
      var succeeds := world.Ask();
      if !succeeds {
        r := Err(J.StorageFailed);
        return;
      }
      var taken := Take(world.now);
      if taken.Err? {
        r := Err(taken.error);
        return;
      }
      var lease := taken.value;
      ghost var n, one := world.times, world.run;
      LeaseTaken(world, zero, one[|zero|], |m|);
      Granted(one, lease);
      var outcome;
      outcome, polls, started := Handle(lease);
      ghost var k, two := world.times, world.run;
      HandledExtends(world, n, one, k, two, polls);
      StillHeld(two);
      r := Finish(lease, outcome, message);
      JobDone(world, m, zero, n, one, k, two, world.times, world.run, polls);
      WaitedInside(m, zero, n, one, k, two, world.times, world.run, polls, started,
                   executor.verificationTimeout, executor.pollInterval);
    }
  }

  /** The instant a report stores: now, or for a retryable error the end of the delay. */
  function EndsAt(now: Instant, attempt: nat, outcome: Outcome): string {
    if !outcome.Done? && outcome.error.classified && outcome.error.retryable
    then TimeValue(now + JobRuns.BackOff(attempt) * 1_000_000_000) else TimeValue(now)
  }

  lemma EndsWhen(now: Instant, lease: Lease, outcome: Outcome)
    requires lease.attempts >= 1
    ensures EndsAt(now, lease.attempts, outcome)
            == TimeValue(if !outcome.Done? && P.Retryable(outcome.error)
                         then now + J.RetryDelay(lease.attempts) * 1_000_000_000 else now)
  {
    hide TimeValue, J.RetryDelay, JobRuns.BackOff;
    JobRuns.BackOffIsDelay(lease.attempts);
  }

  lemma TakenNow(world: World, run: seq<Label>, l: Label, n: nat)
    requires !IsRequestStep(l) && WorkerPossible(After(run), l) && FromWorld(world, l, n)
    ensures TakenAt(world, n, |run|, run + [l], |run|)
  {
    hide After, WorkerPossible, FromWorld;
    assert (run + [l])[..|run|] == run;
  }

  lemma LeaseTaken(world: World, run: seq<Label>, l: Label, n: nat)
    requires l.LeaseJob? && WorkerPossible(After(run), l) && world.stored(n)
    ensures TakenAt(world, n, |run|, run + [l], |run|)
  {
    hide After, WorkerPossible, TakenAt;
    TakenNow(world, run, l, n);
  }

  lemma SyncWaits(asked: seq<Instant>, run: seq<Label>, at: Instant, l: Label, timeout: nat, interval: nat)
    requires l.HandleSync?
    ensures Waited(asked, run, asked + [at], run + [l], 0, 0, timeout, interval)
  {
  }

  /** The lease before and the report after the handler do not poll. */
  lemma WaitedInside(m: seq<Instant>, zero: seq<Label>, n: seq<Instant>, one: seq<Label>, k: seq<Instant>, two: seq<Label>,
                     last: seq<Instant>, three: seq<Label>, polls: int, started: Instant, timeout: nat, interval: nat)
    requires |n| == |m| + 1 && |one| == |zero| + 1 && |last| == |k| + 1 && |three| == |two| + 1
    requires zero <= one <= two <= three && m <= n <= k <= last
    requires one[|zero|].LeaseJob? && !three[|two|].Poll? && !three[|two|].MarkTimedOut?
    requires Waited(n, one, k, two, polls, started, timeout, interval)
    ensures Waited(m, zero, last, three, polls, started, timeout, interval)
  {
    hide Waited;
    TimedInside(m, zero, n, one, k, two, last, three, polls, started, timeout, interval);
    LateInside(m, zero, n, one, k, two, last, three, polls, started, timeout, interval);
    if polls > 0 {
      BeginsInside(m, zero, n, one, k, two, last, three, polls, started, timeout, interval);
    }
    hide Timed, TimesOutLate, Begins;
    AllOfWaited(m, zero, last, three, polls, started, timeout, interval);
  }

  lemma AllOfWaited(asked: seq<Instant>, run: seq<Label>, times: seq<Instant>, later: seq<Label>, polls: int,
                    started: Instant, timeout: nat, interval: nat)
    requires Timed(asked, run, times, later, started, timeout, interval)
    requires TimesOutLate(asked, run, times, later, started, timeout)
    requires polls > 0 ==> Begins(asked, run, times, later, started)
    ensures Waited(asked, run, times, later, polls, started, timeout, interval)
  {
    hide Timed, TimesOutLate, Begins;
  }

  lemma TimedInside(m: seq<Instant>, zero: seq<Label>, n: seq<Instant>, one: seq<Label>, k: seq<Instant>, two: seq<Label>,
                    last: seq<Instant>, three: seq<Label>, polls: int, started: Instant, timeout: nat, interval: nat)
    requires |n| == |m| + 1 && |one| == |zero| + 1 && |last| == |k| + 1 && |three| == |two| + 1
    requires zero <= one <= two <= three && m <= n <= k <= last
    requires one[|zero|].LeaseJob? && !three[|two|].Poll? && !three[|two|].MarkTimedOut?
    requires Waited(n, one, k, two, polls, started, timeout, interval)
    ensures Timed(m, zero, last, three, started, timeout, interval)
  {
    assert three[|zero|] == one[|zero|];
    forall i | |zero| <= i < |three|
      ensures TimedAt(m, zero, last, three, i, started, timeout, interval)
    {
      assert |one| <= i < |two| ==> TimedAt(n, one, k, two, i, started, timeout, interval);
    }
    hide TimesOutLate, Begins;
  }

  lemma LateInside(m: seq<Instant>, zero: seq<Label>, n: seq<Instant>, one: seq<Label>, k: seq<Instant>, two: seq<Label>,
               last: seq<Instant>, three: seq<Label>, polls: int, started: Instant, timeout: nat, interval: nat)
    requires |n| == |m| + 1 && |one| == |zero| + 1 && |last| == |k| + 1 && |three| == |two| + 1
    requires zero <= one <= two <= three && m <= n <= k <= last
    requires one[|zero|].LeaseJob? && !three[|two|].Poll? && !three[|two|].MarkTimedOut?
    requires Waited(n, one, k, two, polls, started, timeout, interval)
    ensures |last| == |m| + |three| - |zero| && TimesOutLate(m, zero, last, three, started, timeout)
  {
    assert three[|zero|] == one[|zero|];
    forall i | |one| <= i < |two|
      ensures three[i] == two[i] && last[|m| + i - |zero|] == k[|n| + i - |one|]
    {
    }
  }

  lemma BeginsInside(m: seq<Instant>, zero: seq<Label>, n: seq<Instant>, one: seq<Label>, k: seq<Instant>, two: seq<Label>,
               last: seq<Instant>, three: seq<Label>, polls: int, started: Instant, timeout: nat, interval: nat)
    requires |n| == |m| + 1 && |one| == |zero| + 1 && |last| == |k| + 1 && |three| == |two| + 1
    requires zero <= one <= two <= three && m <= n <= k <= last
    requires one[|zero|].LeaseJob? && !three[|two|].Poll? && !three[|two|].MarkTimedOut?
    requires Waited(n, one, k, two, polls, started, timeout, interval)
    requires polls > 0
    ensures |last| == |m| + |three| - |zero| && Begins(m, zero, last, three, started)
  {
    assert three[|zero|] == one[|zero|];
    forall i | |one| <= i < |two|
      ensures three[i] == two[i] && last[|m| + i - |zero|] == k[|n| + i - |one|]
    {
    }
    var f :| |one| < f < |two| && two[f].Poll? && started == k[|n| + f - |one| - 1] && forall i :: |one| <= i < f ==> !two[i].Poll?;
    assert |zero| < f < |three| && three[f].Poll?;
  }

  lemma HandledExtends(world: World, asked: seq<Instant>, run: seq<Label>, times: seq<Instant>, later: seq<Label>, polls: int)
    requires Handled(world, asked, run, times, later, polls)
    ensures run <= later && asked <= times
  {
  }

  lemma HandledSync(world: World, asked: seq<Instant>, run: seq<Label>, at: Instant)
    requires WorkerPossible(After(run), HandleSync(world.synced(|asked|)))
    ensures Handled(world, asked, run, asked + [at], run + [HandleSync(world.synced(|asked|))], 0)
  {
    hide After, WorkerPossible;
    assert (run + [HandleSync(world.synced(|asked|))])[..|run|] == run;
  }

  lemma JobDone(world: World, m: seq<Instant>, zero: seq<Label>, n: seq<Instant>, one: seq<Label>,
                k: seq<Instant>, two: seq<Label>, last: seq<Instant>, three: seq<Label>, polls: int)
    requires |one| == |zero| + 1 && zero <= one && |n| == |m| + 1 && one[|zero|].LeaseJob?
    requires TakenAt(world, |m|, |zero|, one, |zero|) && Handled(world, n, one, k, two, polls)
    requires |three| == |two| + 1 && two <= three && |last| == |k| + 1
    requires (three[|two|].EndJob? || three[|two|].Crash?) && TakenAt(world, |k|, |two|, three, |two|)
    ensures OneJobDone(world, m, zero, last, three)
  {
    hide FromWorld, WorkerPossible, After;
    assert three[|zero|] == one[|zero|];
    SameStep(world, |m|, |zero|, one, three, |zero|);
    forall i | |zero| < i < |two|
      ensures three[i] == two[i] && (IsExecutorStep(three[i]) || three[i].HandleSync?)
      ensures TakenAt(world, |m|, |zero|, three, i)
    {
      assert TakenAt(world, |n|, |one|, two, i);
      SameStep(world, |m|, |zero|, two, three, i);
    }
  }
}
