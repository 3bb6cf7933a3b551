/** Every interleaving of queue, workers, lease expiry and worker crashes on the `jobs`
    table.  A worker keeps the lease it was granted until it reports or crashes; a step
    that is not possible in a state changes nothing. */
module JobRuns {
  import opened Wrappers
  import opened Jobs
  import opened TimeText

  /** The lease a worker is working under: the job and which grant of it this was. */
  datatype Held = Held(id: string, grant: nat)

  datatype State = State(table: Table, held: map<nat, Held>)

  datatype Step =
    | Enqueue(id: string, kind: Kind, payload: string, maxAttempts: int, now: string)
    | Lease(worker: nat, id: string, now: string, expires: string)
    | Retry(worker: nat, availableAt: string, message: string)
    | End(worker: nat, status: Status, at: string, message: string)
    | Crash(worker: nat)

  /** Queue options below one are replaced by three (queue.go), so every row allows an attempt. */
  ghost predicate Possible(s: State, step: Step) {
    match step
    case Enqueue(id, kind, payload, maxAttempts, now) => maxAttempts >= 1
    case Lease(worker, id, now, expires) => worker !in s.held && IsNext(s.table, now, id)
    case Retry(worker, availableAt, message) => worker in s.held
    case End(worker, status, at, message) => worker in s.held && Finished(status)
    case Crash(worker) => true
  }

  function Kept(table: Table, r: Result<Table, Error>): Table {
    if r.Ok? then r.value else table
  }

  /** `names` gives each worker's lease_owner text. */
  ghost function Apply(names: nat -> string, s: State, step: Step): State {
    if !Possible(s, step) then s else
    match step
    case Enqueue(id, kind, payload, maxAttempts, now) =>
      s.(table := Kept(s.table, Inserted(s.table, id, InitialRow(kind, payload, maxAttempts, now))))
    case Lease(worker, id, now, expires) =>
      State(Leased(s.table, id, names(worker), now, expires), s.held[worker := Held(id, s.table[id].attempts + 1)])
    case Retry(worker, availableAt, message) =>
      State(Kept(s.table, Retried(s.table, s.held[worker].id, names(worker), availableAt, message)), s.held - {worker})
    case End(worker, status, at, message) =>
      State(Kept(s.table, Ended(s.table, s.held[worker].id, names(worker), status, at, message)), s.held - {worker})
    case Crash(worker) => s.(held := s.held - {worker})
  }

  ghost function After(names: nat -> string, steps: seq<Step>): State {
    if steps == [] then State(map[], map[])
    else Apply(names, After(names, steps[..|steps| - 1]), steps[|steps| - 1])
  }

  // ----- counts over a run

  ghost predicate Grants(s: State, step: Step, id: string) {
    step.Lease? && step.id == id && Possible(s, step)
  }

  ghost predicate Finishes(names: nat -> string, s: State, step: Step, id: string) {
    && id in s.table && !Finished(s.table[id].status)
    && id in Apply(names, s, step).table && Finished(Apply(names, s, step).table[id].status)
  }

  /** Leases granted on `id`. */
  ghost function Granted(names: nat -> string, steps: seq<Step>, id: string): nat {
    if steps == [] then 0
    else
      var before, step := steps[..|steps| - 1], steps[|steps| - 1];
      Granted(names, before, id) + if Grants(After(names, before), step, id) then 1 else 0
  }

  /** Leases granted on `id` by reclaiming an expired lease rather than taking a queued row. */
  ghost function Reclaimed(names: nat -> string, steps: seq<Step>, id: string): nat {
    if steps == [] then 0
    else
      var before, step := steps[..|steps| - 1], steps[|steps| - 1];
      var s := After(names, before);
      Reclaimed(names, before, id) + if Grants(s, step, id) && s.table[id].status.Running? then 1 else 0
  }

  /** Steps that moved `id` to succeeded or failed. */
  ghost function Finishings(names: nat -> string, steps: seq<Step>, id: string): nat {
    if steps == [] then 0
    else
      var before, step := steps[..|steps| - 1], steps[|steps| - 1];
      Finishings(names, before, id) + if Finishes(names, After(names, before), step, id) then 1 else 0
  }

  // ----- accounting

  predicate RowOk(job: Job) {
    && job.maxAttempts >= 1
    && (job.status.Running? <==> job.leaseOwner.Some?)
    && (job.status.Running? <==> job.leaseExpiresAt.Some?)
    && (job.status.Queued? ==> job.attempts < job.maxAttempts)
    && (job.status.Running? || Finished(job.status) ==> job.attempts >= 1)
  }

  ghost predicate RowsOk(s: State) {
    forall id :: id in s.table ==> RowOk(s.table[id])
  }

  lemma StepKeepsRows(names: nat -> string, s: State, step: Step)
    requires RowsOk(s)
    ensures RowsOk(Apply(names, s, step))
  {
  }

  lemma {:induction false} RowsAlwaysOk(names: nat -> string, steps: seq<Step>)
    ensures RowsOk(After(names, steps))
  {
    if steps != [] {
      RowsAlwaysOk(names, steps[..|steps| - 1]);
      StepKeepsRows(names, After(names, steps[..|steps| - 1]), steps[|steps| - 1]);
    }
  }

  /** What one step does to one row's counters. */
  lemma StepOnRow(names: nat -> string, s: State, step: Step, id: string)
    requires RowsOk(s)
    ensures id in s.table ==> id in Apply(names, s, step).table
    ensures Grants(s, step, id) ==> id in s.table && !Finished(s.table[id].status)
    ensures id !in s.table && id in Apply(names, s, step).table ==>
      Apply(names, s, step).table[id].attempts == 0 && Apply(names, s, step).table[id].status.Queued?
    ensures id in s.table ==>
      var was, now := s.table[id], Apply(names, s, step).table[id];
      && now.maxAttempts == was.maxAttempts
      && now.attempts == was.attempts + (if Grants(s, step, id) then 1 else 0)
      && (Grants(s, step, id) ==> now.status.Running?)
      && (Finished(was.status) ==> now == was)
  {
  }

  /** attempts is the number of leases granted; those taken from a queued row number at
      most max_attempts; a job is finished at most once. */
  lemma {:induction false} Accounting(names: nat -> string, steps: seq<Step>, id: string)
    ensures id !in After(names, steps).table ==>
      Granted(names, steps, id) == Reclaimed(names, steps, id) == Finishings(names, steps, id) == 0
    ensures id in After(names, steps).table ==>
      var job := After(names, steps).table[id];
      && RowOk(job)
      && job.attempts == Granted(names, steps, id)
      && 0 <= Granted(names, steps, id) - Reclaimed(names, steps, id) <= job.maxAttempts
      && (job.status.Queued? ==> Granted(names, steps, id) - Reclaimed(names, steps, id) < job.maxAttempts)
      && Finishings(names, steps, id) == (if job.status.Succeeded? || job.status.Failed? then 1 else 0)
  {
    RowsAlwaysOk(names, steps);
    if steps != [] {
      var before, step := steps[..|steps| - 1], steps[|steps| - 1];
      Accounting(names, before, id);
      RowsAlwaysOk(names, before);
      StepOnRow(names, After(names, before), step, id);
    }
  }

  /** Without a reclaim no job is attempted more than max_attempts times; each reclaim
      can add one. */
  lemma AttemptBound(names: nat -> string, steps: seq<Step>, id: string)
    requires id in After(names, steps).table
    ensures After(names, steps).table[id].attempts
            <= After(names, steps).table[id].maxAttempts + Reclaimed(names, steps, id)
  {
    Accounting(names, steps, id);
  }

  /** Some lease of the run reclaimed `id` although its attempts were used up. */
  ghost predicate ReclaimedAtMaximum(names: nat -> string, steps: seq<Step>, id: string) {
    steps != [] &&
    var before, step := steps[..|steps| - 1], steps[|steps| - 1];
    var s := After(names, before);
    || ReclaimedAtMaximum(names, before, id)
    || (Grants(s, step, id) && s.table[id].status.Running? && s.table[id].attempts >= s.table[id].maxAttempts)
  }

  /** A job is attempted more than max_attempts times exactly if an expired lease of its
      last attempt was reclaimed: the check LeaseNext does not make. */
  lemma {:induction false} AttemptsExceedExactly(names: nat -> string, steps: seq<Step>, id: string)
    ensures ReclaimedAtMaximum(names, steps, id) <==>
      id in After(names, steps).table && After(names, steps).table[id].attempts > After(names, steps).table[id].maxAttempts
  {
    if steps != [] {
      var before, step := steps[..|steps| - 1], steps[|steps| - 1];
      AttemptsExceedExactly(names, before, id);
      RowsAlwaysOk(names, before);
      RowsAlwaysOk(names, steps);
      StepOnRow(names, After(names, before), step, id);
      hide Apply;
    }
  }

  /** Finished rows never change again. */
  lemma {:induction false} FinishedForever(names: nat -> string, steps: seq<Step>, n: nat, id: string)
    requires n <= |steps| && id in After(names, steps[..n]).table
    requires After(names, steps[..n]).table[id].status.Succeeded? || After(names, steps[..n]).table[id].status.Failed?
    ensures id in After(names, steps).table && After(names, steps).table[id] == After(names, steps[..n]).table[id]
  {
    if n < |steps| {
      var before := steps[..|steps| - 1];
      assert before[..n] == steps[..n];
      FinishedForever(names, before, n, id);
      RowsAlwaysOk(names, before);
      StepOnRow(names, After(names, before), steps[|steps| - 1], id);
    } else {
      assert steps[..n] == steps;
    }
  }

  /** The default owner name, the same for every worker. */
  function DefaultName(worker: nat): string {
    "worker"
  }

  /** A one-attempt job leased by worker 0 for thirty seconds and, once that lease expired,
      by worker 1. */
  function ReclaimRun(): seq<Step> {
    [Enqueue("job", PowerOperation, "operation", 1, Clock(0)), Step.Lease(0, "job", Clock(0), Clock(30)),
     Step.Lease(1, "job", Clock(30), Clock(60))]
  }

  lemma AfterReclaimRun()
    ensures
      var s := After(DefaultName, ReclaimRun());
      && "job" in s.table && s.table["job"].status.Running? && s.table["job"].leaseOwner == Some("worker")
      && s.table["job"].attempts == 2 && s.table["job"].maxAttempts == 1
      && s.held == map[0 := Held("job", 1), 1 := Held("job", 2)]
  {
    hide Clock;
    var run := ReclaimRun();
    assert run[..2][..1] == run[..1] && run[..1][..0] == [] && run[..3] == run;
    var row := InitialRow(PowerOperation, "operation", 1, Clock(0));
    assert After(DefaultName, run[..1]) == State(map["job" := row], map[]);
    ClockOrder(0, 0);
    AfterLease(After(DefaultName, run[..1]), 0, Clock(0), Clock(30));
    ClockOrder(30, 30);
    AfterLease(After(DefaultName, run[..2]), 1, Clock(30), Clock(60));
  }

  lemma AfterLease(s: State, worker: nat, now: string, expires: string)
    requires s.table.Keys == {"job"} && worker !in s.held && Due(s.table["job"], now)
    ensures Apply(DefaultName, s, Step.Lease(worker, "job", now, expires))
            == State(map["job" := LeasedRow(s.table["job"], "worker", now, expires)],
                     s.held[worker := Held("job", s.table["job"].attempts + 1)])
  {
    BeforeIsOrder(s.table["job"], s.table["job"], s.table["job"]);
    assert IsNext(s.table, now, "job");
  }

  /** attempts <= max_attempts is not invariant: reclaiming an expired lease does not check it. */
  lemma AttemptsExceedMaximum()
    ensures
      var s := After(DefaultName, ReclaimRun());
      "job" in s.table && s.table["job"].attempts > s.table["job"].maxAttempts
  {
    hide Clock;
    AfterReclaimRun();
  }

  // ----- ownership

  /** A held lease refers to a grant that happened; if it is still the latest grant of a
      running job the row carries the worker's name. */
  ghost predicate HeldOk(names: nat -> string, s: State) {
    forall w :: w in s.held ==>
      && s.held[w].id in s.table && s.held[w].grant <= s.table[s.held[w].id].attempts
      && (s.table[s.held[w].id].status.Running? && s.table[s.held[w].id].attempts == s.held[w].grant ==>
            s.table[s.held[w].id].leaseOwner == Some(names(w)))
  }

  /** A row leased under a worker's name was leased by the grant that worker holds. */
  ghost predicate OwnerOk(names: nat -> string, s: State) {
    forall w :: w in s.held && Holds(s.table, s.held[w].id, names(w)) ==>
      s.table[s.held[w].id].attempts == s.held[w].grant
  }

  ghost predicate Distinct(names: nat -> string) {
    forall v, w :: names(v) == names(w) ==> v == w
  }

  lemma StepKeepsHeld(names: nat -> string, s: State, step: Step)
    requires RowsOk(s) && HeldOk(names, s)
    ensures HeldOk(names, Apply(names, s, step))
  {
  }

  lemma StepKeepsOwner(names: nat -> string, s: State, step: Step)
    requires RowsOk(s) && HeldOk(names, s) && OwnerOk(names, s) && Distinct(names)
    ensures OwnerOk(names, Apply(names, s, step))
  {
  }

  lemma {:induction false} HeldAlwaysOk(names: nat -> string, steps: seq<Step>)
    ensures HeldOk(names, After(names, steps))
    ensures Distinct(names) ==> OwnerOk(names, After(names, steps))
  {
    if steps != [] {
      var before := After(names, steps[..|steps| - 1]);
      HeldAlwaysOk(names, steps[..|steps| - 1]);
      RowsAlwaysOk(names, steps[..|steps| - 1]);
      StepKeepsHeld(names, before, steps[|steps| - 1]);
      if Distinct(names) {
        StepKeepsOwner(names, before, steps[|steps| - 1]);
      }
    }
  }

  /** With distinct owner names the guards of Complete, Fail and Retry accept a worker
      exactly while its own grant is the latest one and the job is still running. */
  lemma GuardIsCurrentLease(names: nat -> string, steps: seq<Step>, worker: nat)
    requires Distinct(names) && worker in After(names, steps).held
    ensures
      var s := After(names, steps);
      var held := s.held[worker];
      && held.id in s.table
      && (Holds(s.table, held.id, names(worker)) <==>
            s.table[held.id].status.Running? && s.table[held.id].attempts == held.grant)
  {
    HeldAlwaysOk(names, steps);
  }

  /** A worker whose lease another one reclaimed gets ErrLeaseLost from every report and
      changes nothing. */
  lemma ReclaimedWorkerChangesNothing(names: nat -> string, steps: seq<Step>, worker: nat, status: Status, at: string, message: string)
    requires Distinct(names) && worker in After(names, steps).held
    requires After(names, steps).held[worker].id in After(names, steps).table
    requires After(names, steps).table[After(names, steps).held[worker].id].attempts > After(names, steps).held[worker].grant
    ensures
      var s := After(names, steps);
      && Retried(s.table, s.held[worker].id, names(worker), at, message) == Err(LeaseLost)
      && Ended(s.table, s.held[worker].id, names(worker), status, at, message) == Err(LeaseLost)
      && Apply(names, s, Retry(worker, at, message)).table == s.table
      && Apply(names, s, End(worker, status, at, message)).table == s.table
  {
    GuardIsCurrentLease(names, steps, worker);
  }

  /** The guard separates names, not workers: whatever the names, a worker whose grant is
      stale is accepted exactly when the current lease carries its name. */
  lemma StaleWorkerAccepted(names: nat -> string, steps: seq<Step>, worker: nat)
    requires worker in After(names, steps).held
    ensures
      var s := After(names, steps);
      var held := s.held[worker];
      && held.id in s.table
      && (held.grant < s.table[held.id].attempts ==>
            (Ended(s.table, held.id, names(worker), Succeeded, "", "").Ok? <==>
             s.table[held.id].status.Running? && s.table[held.id].leaseOwner == Some(names(worker))))
  {
    HeldAlwaysOk(names, steps);
  }

  /** Under the default name that happens: worker 0 finishes the job worker 1 holds. */
  lemma DefaultNameIsNotSeparated()
    ensures
      var s := After(DefaultName, ReclaimRun());
      && 0 in s.held && "job" in s.table && s.held[0].id == "job" && s.held[0].grant < s.table["job"].attempts
      && Ended(s.table, "job", DefaultName(0), Succeeded, "", "").Ok?
  {
    hide Clock;
    AfterReclaimRun();
  }

  // ----- backing off

  /** No lease of `id` is granted in the steps `more` after `steps`. */
  ghost predicate NotLeased(names: nat -> string, steps: seq<Step>, more: seq<Step>, id: string) {
    forall k :: 0 <= k < |more| ==> !Grants(After(names, steps + more[..k]), more[k], id)
  }

  lemma AfterOneMore(names: nat -> string, steps: seq<Step>, step: Step)
    ensures After(names, steps + [step]) == Apply(names, After(names, steps), step)
  {
    assert (steps + [step])[..|steps + [step]| - 1] == steps;
  }

  lemma StepLeavesQueued(names: nat -> string, s: State, step: Step, id: string)
    requires RowsOk(s) && id in s.table && s.table[id].status.Queued? && !Grants(s, step, id)
    ensures id in Apply(names, s, step).table && Apply(names, s, step).table[id] == s.table[id]
  {
  }

  /** A queued row changes only when it is leased. */
  lemma {:induction false} QueuedWaits(names: nat -> string, steps: seq<Step>, more: seq<Step>, id: string)
    requires id in After(names, steps).table && After(names, steps).table[id].status.Queued?
    requires NotLeased(names, steps, more, id)
    ensures
      id in After(names, steps + more).table && After(names, steps + more).table[id] == After(names, steps).table[id]
    decreases |more|
  {
    hide Apply, Grants;
    if more == [] {
      assert steps + more == steps;
    } else {
      var n := |more| - 1;
      forall k | 0 <= k < n
        ensures !Grants(After(names, steps + more[..n][..k]), more[..n][k], id)
      {
        assert more[..n][..k] == more[..k];
      }
      QueuedWaits(names, steps, more[..n], id);
      RowsAlwaysOk(names, steps + more[..n]);
      StepLeavesQueued(names, After(names, steps + more[..n]), more[n], id);
      AfterOneMore(names, steps + more[..n], more[n]);
      assert steps + more[..n] + [more[n]] == steps + more;
    }
  }

  /** Seconds between a retryable failure of attempt `a` and the next chance. */
  function BackOff(a: nat): nat {
    if a <= 1 then 1 else if a <= 9 then 2 * BackOff(a - 1) else 256
  }

  lemma {:induction false} BackOffIsDelay(a: nat)
    requires a >= 1
    ensures RetryDelay(a) == BackOff(a)
  {
    RetryDelays(a, a);
    if 1 < a <= 9 {
      BackOffIsDelay(a - 1);
      RetryDelays(a - 1, a - 1);
    } else if a == 1 {
      assert RetryDelay(1) == 1;
    }
  }

  lemma RetryQueues(names: nat -> string, s: State, worker: nat, available: string, message: string)
    requires worker in s.held && s.held[worker].id in s.table
    requires Retried(s.table, s.held[worker].id, names(worker), available, message).Ok?
    requires s.table[s.held[worker].id].attempts < s.table[s.held[worker].id].maxAttempts
    ensures
      var u := Apply(names, s, Step.Retry(worker, available, message));
      var id := s.held[worker].id;
      id in u.table && u.table[id].status.Queued? && u.table[id].availableAt == available
  {
  }

  /** Leases of a queued row by whole seconds. */
  lemma GrantedAfterRelease(s: State, id: string, available: Instant, now: Instant)
    requires FourDigitYear(available) && FourDigitYear(now)
    requires id in s.table && s.table[id].status.Queued? && s.table[id].availableAt == TimeValue(available)
    ensures forall w: nat, expires :: Possible(s, Step.Lease(w, id, TimeValue(now), expires)) ==>
      SecondOf(now) >= SecondOf(available)
    ensures SecondOf(now) > SecondOf(available) ==> Due(s.table[id], TimeValue(now))
  {
    hide TimeValue, FourDigitYear, SecondOf;
    ReleaseBySecond(s.table[id], available, now);
    hide Due;
  }

  /** A worker holding grant number `a` of a job reports a retryable failure at instant `t` and
      the row goes back to the queue: whatever happens then, the next lease of that job is
      not granted in a whole second before t + 2^min(a-1,8) seconds, and from the next second
      on the row is due. */
  lemma RetriesBackOff(names: nat -> string, steps: seq<Step>, worker: nat, t: Instant, message: string,
                       more: seq<Step>, now: Instant)
    requires worker in After(names, steps).held && After(names, steps).held[worker].id in After(names, steps).table
    requires
      var s := After(names, steps);
      var held := s.held[worker];
      var available := t + BackOff(held.grant) * 1_000_000_000;
      && FourDigitYear(available) && FourDigitYear(now)
      && Retried(s.table, held.id, names(worker), TimeValue(available), message).Ok?
      && s.table[held.id].attempts < s.table[held.id].maxAttempts
      && NotLeased(names, steps + [Step.Retry(worker, TimeValue(available), message)], more, held.id)
    ensures
      var held := After(names, steps).held[worker];
      var available := t + BackOff(held.grant) * 1_000_000_000;
      var u := After(names, steps + [Step.Retry(worker, TimeValue(available), message)] + more);
      && (forall w: nat, expires :: Possible(u, Step.Lease(w, held.id, TimeValue(now), expires)) ==>
            SecondOf(now) >= SecondOf(available))
      && (SecondOf(now) > SecondOf(available) ==> held.id in u.table && Due(u.table[held.id], TimeValue(now)))
  {
    hide After, Apply, Possible, Due, Retried, TimeValue, BackOff, SecondOf, FourDigitYear, NotLeased;
    var s := After(names, steps);
    var id := s.held[worker].id;
    var available := t + BackOff(s.held[worker].grant) * 1_000_000_000;
    var step := Step.Retry(worker, TimeValue(available), message);
    RetryQueues(names, s, worker, TimeValue(available), message);
    AfterOneMore(names, steps, step);
    QueuedWaits(names, steps + [step], more, id);
    GrantedAfterRelease(After(names, steps + [step] + more), id, available, now);
  }
}
