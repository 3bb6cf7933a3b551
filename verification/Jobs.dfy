/** The `jobs` table: leases, retries and finishing, one row at a time, and the queue that
    builds the first row.  Times are the text `timeValue` stores; text order decides. */
module Jobs {
  import opened Wrappers
  import opened Text
  import opened TimeText

  datatype Kind = SyncConnection | PowerOperation

  datatype Status = Queued | Running | Succeeded | Failed

  /** One row; `payload` is the connection or operation id inside payload_json. */
  datatype Job = Job(
    kind: Kind, payload: string, status: Status, attempts: nat, maxAttempts: int, availableAt: string,
    leaseOwner: Option<string>, leaseExpiresAt: Option<string>, lastError: string,
    createdAt: string, updatedAt: string)

  type Table = map<string, Job>

  datatype Error = NoJob | LeaseLost | Duplicate | InvalidPayload | StorageFailed

  predicate Finished(status: Status) {
    status.Succeeded? || status.Failed?
  }

  // ----- queue.go

  /** The row EnqueuePowerOperation and EnqueueConnectionSync build. */
  function InitialRow(kind: Kind, payload: string, maxAttempts: int, now: string): Job {
    Job(kind, payload, Queued, 0, maxAttempts, now, None, None, "", now, now)
  }

  /** Guarded by the payload check and the primary key. */
  function Inserted(table: Table, id: string, job: Job): Result<Table, Error> {
    if job.payload == "" then Err(InvalidPayload)
    else if id in table then Err(Duplicate)
    else Ok(table[id := job])
  }

  // ----- sql_repository.go

  /** The WHERE clause of LeaseNext. */
  predicate Due(job: Job, now: string) {
    || (job.status.Queued? && LexLe(job.availableAt, now))
    || (job.status.Running? && job.leaseExpiresAt.Some? && LexLe(job.leaseExpiresAt.value, now))
  }

  /** ORDER BY available_at, created_at. */
  predicate Before(a: Job, b: Job) {
    LexLess(a.availableAt, b.availableAt) || (a.availableAt == b.availableAt && LexLess(a.createdAt, b.createdAt))
  }

  /** `id` may be the row LIMIT 1 returns: due, and no due row sorts before it. */
  ghost predicate IsNext(table: Table, now: string, id: string) {
    && id in table && Due(table[id], now)
    && forall other :: other in table && Due(table[other], now) ==> !Before(table[other], table[id])
  }

  function LeasedRow(job: Job, owner: string, now: string, expires: string): Job {
    job.(status := Running, attempts := job.attempts + 1, leaseOwner := Some(owner), leaseExpiresAt := Some(expires),
         updatedAt := now)
  }

  function Leased(table: Table, id: string, owner: string, now: string, expires: string): Table
    requires id in table
  {
    table[id := LeasedRow(table[id], owner, now, expires)]
  }

  /** The guard of Retry and finish: a running row leased by this owner. */
  predicate Holds(table: Table, id: string, owner: string) {
    id in table && table[id].status.Running? && table[id].leaseOwner == Some(owner)
  }

  function RetriedRow(job: Job, availableAt: string, message: string): Job {
    job.(status := if job.attempts >= job.maxAttempts then Failed else Queued, availableAt := availableAt,
         leaseOwner := None, leaseExpiresAt := None, lastError := message, updatedAt := availableAt)
  }

  function Retried(table: Table, id: string, owner: string, availableAt: string, message: string): Result<Table, Error> {
    if Holds(table, id, owner) then Ok(table[id := RetriedRow(table[id], availableAt, message)]) else Err(LeaseLost)
  }

  function EndedRow(job: Job, status: Status, at: string, message: string): Job {
    job.(status := status, leaseOwner := None, leaseExpiresAt := None,
         lastError := if message == "" then job.lastError else message, updatedAt := at)
  }

  function Ended(table: Table, id: string, owner: string, status: Status, at: string, message: string): Result<Table, Error> {
    if Holds(table, id, owner) then Ok(table[id := EndedRow(table[id], status, at, message)]) else Err(LeaseLost)
  }

  // ----- leases and the clock

  /** LeaseNext never reclaims a lease before the whole second holding its expiry and
      always sees it as expired from the next second on. */
  lemma ReclaimBySecond(job: Job, expiry: Instant, now: Instant)
    requires FourDigitYear(expiry) && FourDigitYear(now)
    requires job.status.Running? && job.leaseExpiresAt == Some(TimeValue(expiry))
    ensures SecondOf(now) < SecondOf(expiry) ==> !Due(job, TimeValue(now))
    ensures SecondOf(now) > SecondOf(expiry) ==> Due(job, TimeValue(now))
  {
    hide TimeValue, LexLe;
    DueBySecond(expiry, now);
  }

  /** LeaseNext never grants a queued row in a whole second before its available_at and
      always finds it due from the next second on. */
  lemma ReleaseBySecond(job: Job, available: Instant, now: Instant)
    requires FourDigitYear(available) && FourDigitYear(now)
    requires job.status.Queued? && job.availableAt == TimeValue(available)
    ensures SecondOf(now) < SecondOf(available) ==> !Due(job, TimeValue(now))
    ensures SecondOf(now) > SecondOf(available) ==> Due(job, TimeValue(now))
  {
    hide TimeValue, LexLe;
    DueBySecond(available, now);
  }

  /** No row that could be leased sorts before the chosen one. */
  lemma EarliestFirst(table: Table, now: string, id: string)
    requires IsNext(table, now, id)
    ensures forall k :: k in table && Due(table[k], now) ==>
      || LexLess(table[id].availableAt, table[k].availableAt)
      || (table[id].availableAt == table[k].availableAt && !LexLess(table[k].createdAt, table[id].createdAt))
  {
    forall k | k in table && Due(table[k], now)
      ensures
        || LexLess(table[id].availableAt, table[k].availableAt)
        || (table[id].availableAt == table[k].availableAt && !LexLess(table[k].createdAt, table[id].createdAt))
    {
      LexTotal(table[id].availableAt, table[k].availableAt);
      hide LexLess;
    }
  }

  lemma BeforeIsOrder(a: Job, b: Job, c: Job)
    ensures !Before(a, a)
    ensures Before(a, b) && Before(b, c) ==> Before(a, c)
    ensures !Before(a, b) && !Before(b, c) ==> !Before(a, c)
  {
    LexTotal(a.availableAt, b.availableAt);
    LexTotal(b.availableAt, c.availableAt);
    LexTotal(a.availableAt, c.availableAt);
    LexTotal(a.createdAt, b.createdAt);
    LexTotal(b.createdAt, c.createdAt);
    LexTotal(a.createdAt, c.createdAt);
    Chain(a.availableAt, b.availableAt, c.availableAt);
    Chain(c.availableAt, b.availableAt, a.availableAt);
    Chain(a.createdAt, b.createdAt, c.createdAt);
    Chain(c.createdAt, b.createdAt, a.createdAt);
  }

  lemma Chain(a: string, b: string, c: string)
    ensures LexLess(a, b) && LexLess(b, c) ==> LexLess(a, c)
  {
    if LexLess(a, b) && LexLess(b, c) {
      LexLessTransitive(a, b, c);
    }
  }

  // ----- the repository

  datatype Lease = Lease(id: string, job: Job, owner: string)

  class Repository {
    var rows: Table

    constructor ()
      ensures rows == map[]
    {
      rows := map[];
    }

    method Enqueue(id: string, job: Job) returns (r: Result<(), Error>)
      modifies this
      ensures r.Ok? <==> Inserted(old(rows), id, job).Ok?
      ensures rows == if r.Ok? then Inserted(old(rows), id, job).value else old(rows)
    {
      if job.payload == "" {
        return Err(InvalidPayload);
      }
      if id in rows {
        return Err(Duplicate);
      }
      rows := rows[id := job];
      return Ok(());
    }

    /** SELECT ... ORDER BY available_at, created_at LIMIT 1. */
    method SelectNext(now: string) returns (next: Option<string>)
      ensures next.Some? ==> IsNext(rows, now, next.value)
      ensures next.None? ==> forall id :: id in rows ==> !Due(rows[id], now)
    {
      next := None;
      var ids := rows.Keys;
      while ids != {}
        invariant ids <= rows.Keys
        invariant next.Some? ==> next.value in rows && Due(rows[next.value], now)
        invariant next.Some? ==> forall id :: id in rows && id !in ids && Due(rows[id], now) ==>
                                   !Before(rows[id], rows[next.value])
        invariant next.None? ==> forall id :: id in rows && id !in ids ==> !Due(rows[id], now)
        decreases ids
      {
        var id :| id in ids;
        if Due(rows[id], now) {
          if next.None? {
            next := Some(id);
            BeforeIsOrder(rows[id], rows[id], rows[id]);
          } else if Before(rows[id], rows[next.value]) {
            forall other | other in rows && other !in ids && Due(rows[other], now)
              ensures !Before(rows[other], rows[id])
            {
              BeforeIsOrder(rows[other], rows[id], rows[next.value]);
            }
            BeforeIsOrder(rows[id], rows[id], rows[id]);
            next := Some(id);
          }
        }
        ids := ids - {id};
      }
    }

    /** The earliest row by available_at, then created_at, among the queued ones whose time has
        come and the running ones whose lease ran out. */
    method LeaseNext(owner: string, now: Instant, duration: int) returns (r: Result<Lease, Error>)
      modifies this
      ensures r.Ok? ==> r.value.id in old(rows)
      ensures r.Ok? ==>
        var was := old(rows)[r.value.id];
        && ((was.status.Queued? && !LexLess(TimeValue(now), was.availableAt))
            || (was.status.Running? && was.leaseExpiresAt.Some? && !LexLess(TimeValue(now), was.leaseExpiresAt.value)))
        && rows == old(rows)[r.value.id := was.(
             status := Running, attempts := was.attempts + 1, leaseOwner := Some(owner),
             leaseExpiresAt := Some(TimeValue(now + duration)), updatedAt := TimeValue(now))]
      ensures r.Ok? ==> forall id :: id in old(rows) ==>
        var other, was := old(rows)[id], old(rows)[r.value.id];
        || (other.status.Queued? && LexLess(TimeValue(now), other.availableAt))
        || (other.status.Running? && (other.leaseExpiresAt.None? || LexLess(TimeValue(now), other.leaseExpiresAt.value)))
        || other.status.Succeeded? || other.status.Failed?
        || LexLess(was.availableAt, other.availableAt)
        || (was.availableAt == other.availableAt && !LexLess(other.createdAt, was.createdAt))
      ensures r.Err? ==> forall id :: id in rows ==>
        && (rows[id].status.Queued? ==> LexLess(TimeValue(now), rows[id].availableAt))
        && (rows[id].status.Running? && rows[id].leaseExpiresAt.Some? ==>
              LexLess(TimeValue(now), rows[id].leaseExpiresAt.value))
      ensures r.Ok? ==>
        && IsNext(old(rows), TimeValue(now), r.value.id)
        && rows == Leased(old(rows), r.value.id, owner, TimeValue(now), TimeValue(now + duration))
        && r.value == Lease(r.value.id, rows[r.value.id], owner)
      ensures r.Err? ==> r.error == NoJob && rows == old(rows) && forall id :: id in rows ==> !Due(rows[id], TimeValue(now))
    {
      hide TimeValue, LexLess;
      var next := SelectNext(TimeValue(now));
      if next.None? {
        return Err(NoJob);
      }
      var id, job := next.value, rows[next.value];
      EarliestFirst(rows, TimeValue(now), id);
      job := job.(status := Running, attempts := job.attempts + 1, leaseOwner := Some(owner));
      job := job.(leaseExpiresAt := Some(TimeValue(now + duration)), updatedAt := TimeValue(now));
      rows := rows[id := job];
      return Ok(Lease(id, job, owner));
    }

    method Retry(id: string, owner: string, availableAt: string, message: string) returns (r: Result<(), Error>)
      modifies this
      ensures r == if Holds(old(rows), id, owner) then Ok(()) else Err(LeaseLost)
      ensures rows == if r.Ok? then Retried(old(rows), id, owner, availableAt, message).value else old(rows)
    {
      if id !in rows || !rows[id].status.Running? || rows[id].leaseOwner != Some(owner) {
        return Err(LeaseLost);
      }
      var status := Queued;
      if rows[id].attempts >= rows[id].maxAttempts {
        status := Failed;
      }
      rows := rows[id := rows[id].(status := status, availableAt := availableAt, leaseOwner := None,
                                   leaseExpiresAt := None, lastError := message, updatedAt := availableAt)];
      return Ok(());
    }

    method Finish(id: string, owner: string, status: Status, at: string, message: string) returns (r: Result<(), Error>)
      modifies this
      ensures r == if Holds(old(rows), id, owner) then Ok(()) else Err(LeaseLost)
      ensures rows == if r.Ok? then Ended(old(rows), id, owner, status, at, message).value else old(rows)
    {
      if id !in rows || !rows[id].status.Running? || rows[id].leaseOwner != Some(owner) {
        return Err(LeaseLost);
      }
      var kept := rows[id].lastError;
      if message != "" {
        kept := message;
      }
      rows := rows[id := rows[id].(status := status, leaseOwner := None, leaseExpiresAt := None, lastError := kept,
                                   updatedAt := at)];
      return Ok(());
    }

    method Complete(id: string, owner: string, at: string) returns (r: Result<(), Error>)
      modifies this
      ensures r == if Holds(old(rows), id, owner) then Ok(()) else Err(LeaseLost)
      ensures rows == if r.Ok? then Ended(old(rows), id, owner, Succeeded, at, "").value else old(rows)
    {
      r := Finish(id, owner, Succeeded, at, "");
    }

    method Fail(id: string, owner: string, at: string, message: string) returns (r: Result<(), Error>)
      modifies this
      ensures r == if Holds(old(rows), id, owner) then Ok(()) else Err(LeaseLost)
      ensures rows == if r.Ok? then Ended(old(rows), id, owner, Failed, at, message).value else old(rows)
    {
      r := Finish(id, owner, Failed, at, message);
    }
  }

  // ----- worker.go's default RetryDelay

  function Pow2(n: nat): (p: nat)
    ensures p >= 1
  {
    if n == 0 then 1 else 2 * Pow2(n - 1)
  }

  /** Seconds before the next attempt; the shift is 64-bit and never leaves it. */
  function RetryDelay(attempt: nat): (seconds: int)
    requires attempt >= 1
  {
    Min(Pow2(Min(attempt - 1, 8)), 300)
  }

  lemma {:induction false} Pow2Grows(m: nat, n: nat)
    requires m <= n
    ensures Pow2(m) <= Pow2(n)
    decreases n - m
  {
    if m < n {
      Pow2Grows(m, n - 1);
    }
  }

  /** The five-minute cap never applies: delays double from one second to 256 seconds,
      never shrink, and stay at 256 from the ninth attempt on. */
  lemma RetryDelays(attempt: nat, later: nat)
    requires 1 <= attempt <= later
    ensures RetryDelay(attempt) == Pow2(Min(attempt - 1, 8))
    ensures 1 <= RetryDelay(attempt) <= RetryDelay(later) <= 256
    ensures attempt < 9 ==> RetryDelay(attempt + 1) == 2 * RetryDelay(attempt)
    ensures attempt >= 9 ==> RetryDelay(attempt) == 256
  {
    Pow2Eight();
    Pow2Grows(Min(attempt - 1, 8), Min(later - 1, 8));
    Pow2Grows(Min(later - 1, 8), 8);
    Pow2Grows(Min(attempt, 8), 8);
  }

  lemma Pow2Eight()
    ensures Pow2(8) == 256
  {
    assert Pow2(2) == 4;
    assert Pow2(4) == 16;
    assert Pow2(6) == 64;
  }
}
