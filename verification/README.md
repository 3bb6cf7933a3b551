# Server control panel: a model of its durable parts

This project models the parts of the control panel whose correctness rests on state kept
over many calls, and proves what they promise for every input and every run.

- **Power operations** (`Power*.dfy`, `Operations*.dfy`, `Jobs*.dfy`).  Requests, the job
  worker and the executor as one machine over the `operations` and `jobs` tables.  A label
  names one atomic step (one SQL statement or transaction, or one provider call) and carries
  every outcome the program does not choose, so a run is any sequence of labels: every
  interleaving of requests, sync jobs and the worker, every provider answer, every failing
  statement, and a crash of the worker or the death of a request at every point.  `PowerExecutor` and `PowerService`
  are the imperative code; their methods are proved to take exactly the machine's steps.
- **Stored times** (`Text`, `Calendar`, `TimeText`, `TimeParse`).  The SQLite text of an
  instant, its order and its parser.
- **Inventory** (`Inventory*.dfy`, `Sync`, `Aws`).  Cursor traversal, the bounded collection
  loop and the hide-then-upsert transaction.
- **Logical backup** (`Backup*.dfy`).  Cells, validation, export and restore under the foreign
  keys, and the service's safety archive.
- **Event broker** (`Broker`), **console tickets** (`Console*.dfy`), **login sessions**
  (`Auth*.dfy`) and **private networks** (`Cidr`).

Objects the program updates in place are classes whose methods are proved against functions of
the old state; the theorems about runs are lemmas about those functions.

Four properties one would expect are false of the code, and the project shows it with a
concrete input or run and states exactly when they hold:

- attempts can exceed `max_attempts`, exactly when an expired lease of the last attempt was
  reclaimed (`JobRuns.AttemptsExceedMaximum`, `JobRuns.AttemptsExceedExactly`);
- a provider write can follow a terminal status, exactly when the creating request failed the
  row after an audit error (`PowerExamples.WriteAfterTheRequestFailed`,
  `PowerResults.WritesFindTheRowRunning`);
- an operation can stay active with no job left, exactly when its request did not get to insert
  the job, because it was killed or both the insert and the compensating transition failed, or
  the job was ended because a statement of the executor failed (`PowerRuns.StrandedExactly`,
  `PowerRuns.FaultStrands`, `PowerExamples.FailedReadStrands`);
- a valid archive can restore to a database that cannot be exported again, exactly when an
  archived time leaves the years 0000-9999 in UTC (`BackupRoundTrip.ReexportsExactly`,
  `BackupFixedPoint.LateArchive`).  Only archives written elsewhere are affected: none that this
  program exported holds such a time (`BackupFixedPoint.ExportedIsInYears`).

Inside one second the order of stored times is not the order of the instants; `TimeText.TextOrder`
says exactly where, and the lease and ticket results are stated accordingly.

Parameters stand for what the code cannot see: clocks, generated ids, provider answers, the
outcome of inserts that may fail, JSON validity, password verification, CIDR text parsing and the
engine's constraints other than the ones named.

## Model

| member | source | states |
|---|---|---|
| `PowerRuns.TablesStayCoupled` | internal/operations/service.go:104-125 | In every run of any interleaving of requests and sync jobs with the one worker, with worker crashes and killed requests anywhere, in which no statement fails but job inserts and audit appends, once Request has returned a non-terminal operation has exactly one power job and that job is queued or running |
| `PowerRuns.ActiveOperationHasOneJob` | internal/operations/service.go:82-125 | In every run, with any failing statements, an operation has one power job from the moment its request inserted it and none before; the job of an active operation is live exactly unless it was ended because a statement of the executor failed |
| `PowerRuns.AttemptChecksAgree` | internal/operations/executor.go:210-232 | When the executor reports an error the job goes back to the queue iff the error is retryable and attempts remain; if no statement failed the operation is otherwise already terminal, and after a failed statement the job is never queued again |
| `PowerRuns.AlwaysInv` | internal/operations/executor.go:63-146 | The coupling invariant of the two tables, the requests and the worker holds after every run |
| `PowerRuns.StepKeepsInv` | internal/operations/executor.go:63-146 | Every single step of a request, of the executor, of the worker or a crash keeps the coupling invariant |
| `PowerRuns.RequestKeepsInv` | internal/operations/service.go:76-126 | Every step of Request keeps the coupling invariant, whatever the worker is doing |
| `PowerRuns.WorkerKeepsInv` | internal/jobs/worker.go:72-89 | Every step of RunOnce and Execute keeps the coupling invariant, whatever the requests are doing |
| `PowerRuns.NothingAbandoned` | internal/operations/executor.go:63-146 | While no statement fails but job inserts and audit appends, no job is ever ended under an active operation |
| `PowerRuns.StrandedExactly` | internal/operations/service.go:104-125 | After its request is over, an active operation has nobody left to move it if and only if the request did not get to insert the job (killed, or insert and compensation both failed) or the job was ended because a statement of the executor failed |
| `PowerRuns.FaultStrands` | internal/operations/executor.go:63-232 | A failing statement of the executor has that effect from every reachable state in which it can happen while the operation is active: the job ends and the operation stays active |
| `PowerExamples.FailedReadStrands` | internal/operations/executor.go:73-76 | A run in which Request succeeded and one failing read of the row ends the job under it |
| `PowerExamples.KilledRequestStrands` | internal/operations/service.go:101-110 | A run in which the request is killed between its two inserts |
| `PowerRuns.StrandedForever` | internal/operations/sql_repository.go:26-57 | A stranded operation keeps its row in every continuation, so its server is refused every further operation |
| `PowerResults.OneWritePerLease` | internal/operations/executor.go:106-110 | In every run each lease issues at most one provider write, and only granted leases issue any |
| `PowerResults.AcceptedWritesAreBounded` | internal/operations/executor.go:106-118 | In every run the accepted writes of an operation are at most one plus the crashes while an acceptance was not recorded |
| `PowerExamples.TwoAcceptedWrites` | internal/operations/executor.go:106-118 | The bound is reached: a run with one such crash in which the provider accepts two writes |
| `PowerResults.WritesFindTheRowRunning` | internal/operations/executor.go:106-110 | A write is never issued while the row is verifying; it is issued for a terminal row exactly if the creating request failed the row after an audit error |
| `PowerExamples.WriteAfterTheRequestFailed` | internal/operations/service.go:115-122 | A run in which Request reports an error and fails its row while the worker still has the action executed: "none is issued once terminal" is false |
| `PowerResults.SucceededMeansVerified` | internal/operations/executor.go:99-127 | In every run, however many attempts it took: before a start or reboot is marked succeeded the server was observed running, and before a stop it was observed stopped, a reboot's observation coming after an accepted call; that very state was written to inventory in between |
| `PowerResults.WriteSkippedExactly` | internal/operations/executor.go:99-110 | In every reachable state the call is skipped after the first look if and only if that look showed a start's server running or a stop's server stopped, or the call was already recorded |
| `PowerResults.PollDecides` | internal/operations/executor.go:121-137 | A poll ends the wait if and only if it showed running, or stopped for a stop; a miss times out exactly if the clock test fired |
| `PowerResults.CallsAreRequested` | internal/operations/executor.go:166-177 | In every run each provider call is the one for the action of the request that created the operation |
| `PowerResults.CreatedAsRequested` | internal/operations/service.go:106-109 | In every run every operation carries the action and the key of the request that created it |
| `PowerResults.StepRecords` | internal/operations/executor.go:63-146 | What each step adds to the history the results speak of, and that no other step adds anything |
| `PowerResults.HandlerRunsAreBounded` | internal/jobs/worker.go:72-89 | The handler of a job runs at most max_attempts times in a crash-free run, and at most once more for each crash otherwise |
| `PowerResults.RunsAreAttempts` | internal/jobs/sql_repository.go:33-67 | In every run the attempts column equals the number of times the job was handed to the handler |
| `PowerResults.OneOperationPerKey` | internal/operations/service.go:82-109 | All successful requests with one key return the same operation whatever server and action they name; at most one reports it created; it has at most one power job |
| `PowerResults.RepliesAreFinal` | internal/operations/service.go:76-126 | No reply changes in any continuation, so replies of different times can be compared |
| `PowerEvidence.AlwaysHistory` | internal/operations/executor.go:63-146 | The account of writes, acceptances, evidence and attempts holds after every run |
| `PowerHistory.WorkerKeepsIssues` | internal/operations/executor.go:106-110 | Every worker step keeps the account of writes per lease |
| `PowerHistory.WorkerKeepsAcceptances` | internal/operations/executor.go:106-118 | Every worker step keeps the account of accepted and lost acceptances |
| `PowerEvidence.WorkerKeepsEvidence` | internal/operations/executor.go:99-127 | Every worker step keeps what the executor's copy of a row implies about the provider: verifying means accepted, storing means observed, succeeding means stored |
| `PowerEvidence.WorkerKeepsAttempts` | internal/jobs/sql_repository.go:33-67 | Every worker step keeps the account of attempts against crashes |
| `PowerWorkerSteps.FindKeepsInv` | internal/operations/executor.go:73-79 | The first read of the row keeps the coupling invariant |
| `PowerWorkerSteps.RunKeepsInv` | internal/operations/executor.go:80-86 | The transition to running keeps it, also when the row was failed meanwhile |
| `PowerWorkerSteps.PrepareKeepsInv` | internal/operations/executor.go:87-105 | The reads before the write keep it, errors included |
| `PowerWorkerSteps.ActKeepsInv` | internal/operations/executor.go:106-110 | The provider call keeps it |
| `PowerWorkerSteps.RecordKeepsInv` | internal/operations/executor.go:111-117 | The transition to verifying keeps it |
| `PowerWorkerSteps.PollKeepsInv` | internal/operations/executor.go:120-128 | One poll of the verification loop keeps it |
| `PowerWorkerSteps.TimeOutKeepsInv` | internal/operations/executor.go:128-137 | The timeout transition keeps it |
| `PowerWorkerSteps.StoreKeepsInv` | internal/operations/executor.go:197-201 | The inventory write keeps it, also when it fails |
| `PowerWorkerSteps.SucceedKeepsInv` | internal/operations/executor.go:202-207 | The transition to succeeded keeps it |
| `PowerWorkerSteps.LookAgainKeepsInv` | internal/operations/executor.go:210-218 | The second read in finishError keeps it |
| `PowerWorkerSteps.FailKeepsInv` | internal/operations/executor.go:219-231 | The transition to failed keeps it |
| `PowerWorkerSteps.AuditKeepsInv` | internal/operations/executor.go:260-266 | The audit append keeps it, stored or not |
| `PowerWorkerSteps.FaultKeepsInv` | internal/operations/executor.go:63-232 | A failing statement of the executor, whose error reaches the worker raw or joined, keeps it |
| `PowerWorkerSteps.CrashKeepsInv` | internal/jobs/worker.go:72-89 | A worker crash at any point keeps it |
| `PowerTableSteps.LeaseKeepsInv` | internal/jobs/sql_repository.go:33-67 | A lease, new or reclaimed, keeps it |
| `PowerTableSteps.EndKeepsInv` | internal/jobs/worker.go:77-89 | Complete, Retry and Fail keep it |
| `PowerRequestSteps.LookKeepsInv` | internal/operations/service.go:88-100 | The key lookup and the admission checks keep it |
| `PowerRequestSteps.CreateKeepsInv` | internal/operations/service.go:96-109 | The queued insert keeps it |
| `PowerRequestSteps.EnqueueKeepsInv` | internal/operations/service.go:110-113 | The job insert keeps it, stored or not |
| `PowerRequestSteps.AuditRequestKeepsInv` | internal/operations/service.go:114-121 | The request's audit append keeps it |
| `PowerRequestSteps.UndoKeepsInv` | internal/operations/service.go:110-122 | The compensating transition keeps it, also against a worker already at work |
| `PowerRequestSteps.RequestFailsKeepsInv` | internal/operations/service.go:88-122 | A failing lookup, insert or compensating transition of a request keeps it |
| `PowerRequestSteps.EnqueueSyncKeepsInv` | internal/jobs/queue.go:38-51 | A sync job put into the same queue keeps it |
| `PowerRequestSteps.KillKeepsInv` | internal/operations/service.go:76-126 | Killing a request at any point keeps it |
| `PowerExecutor.Executor.Execute` | internal/operations/executor.go:63-146 | Statement by statement the executor takes possible steps of the machine from the leased job to an outcome, each with the answer to its own question, with at most floor(timeout / interval) + 2 polls; a poll is expired iff it was answered more than the timeout after the answer before the first poll, polls are at least the interval apart, and a time-out is marked only right after an expired poll that missed |
| `PowerExecutor.Executor.Verify` | internal/operations/executor.go:119-145 | The verification loop gives up only at a poll answered more than the timeout after it began and goes on after every earlier miss; polls are at least the interval apart, so there are at most floor(timeout / interval) + 2 |
| `PowerExecutor.Executor.Drive` | internal/operations/executor.go:87-106 | From the first look at the server on: succeed, write or verify, as the machine does, under the same clock rules |
| `PowerExecutor.Executor.Write` | internal/operations/executor.go:106-119 | The provider call for the row's action, its recording and the verification, as the machine does, under the same clock rules |
| `PowerExecutor.Executor.Succeed` | internal/operations/executor.go:197-208 | The inventory write, the transition and the audit event, as the machine does |
| `PowerExecutor.Executor.HandleError` | internal/operations/executor.go:210-232 | finishError: retry, or fail the row unless it is already terminal; the error is the one it was given, alone or joined with a storage error |
| `PowerExecutor.Executor.TimeOut` | internal/operations/executor.go:128-137 | The timeout transition and its audit event, as the machine does |
| `PowerExecutor.Executor.PollServer` | internal/operations/executor.go:120-145 | One GetServer and one look at the clock |
| `PowerExecutor.Node.RunOnce` | internal/jobs/worker.go:72-89 | One due job is leased, handled under the clock rules of Execute and ended, or there is none due, or a failing statement of its own stops the program; the only worker never loses its lease |
| `PowerExecutor.Node.Handle` | internal/jobs/worker.go:77-77 | The handler by job kind, a sync or Execute, changes no job row |
| `PowerExecutor.Node.Settle` | internal/jobs/worker.go:78-89 | Complete, Retry after the delay for the attempt, or Fail, by the handler's outcome |
| `PowerExecutor.Node.Finish` | internal/jobs/worker.go:78-89 | The report and the instant it stores: now, or 2^min(attempt-1, 8) seconds later for a retryable error; a failing report stops the program with the lease in place |
| `PowerService.Service.Request` | internal/operations/service.go:76-126 | The row of its key if there is one; a new row and job, with every column written out from the request and the server, iff nothing refuses or fails; its steps are the machine's and so is its reply |
| `PowerService.Service.QueueAndAudit` | internal/operations/service.go:110-125 | Created and audited, or the error says why and the row was failed unless the compensating transition failed too |
| `JobRuns.Accounting` | internal/jobs/sql_repository.go:33-114 | In every reachable state: running iff owner and expiry are set, queued implies attempts below max_attempts, attempts equals the leases granted, at most max_attempts of them from queued, and each job is finished at most once |
| `JobRuns.AttemptBound` | internal/jobs/sql_repository.go:39-54 | Attempts exceed max_attempts by at most the number of reclaimed leases |
| `JobRuns.AttemptsExceedExactly` | internal/jobs/sql_repository.go:39-54 | Attempts exceed max_attempts if and only if some lease reclaimed the job when its attempts were used up |
| `JobRuns.AttemptsExceedMaximum` | internal/jobs/sql_repository.go:39-42 | Reclaiming does not check the maximum: a run in which attempts exceed it |
| `JobRuns.FinishedForever` | internal/jobs/sql_repository.go:97-114 | A finished job is never changed again |
| `JobRuns.GuardIsCurrentLease` | internal/jobs/sql_repository.go:69-114 | With distinct owner names the owner guard holds exactly for the worker with the current lease |
| `JobRuns.ReclaimedWorkerChangesNothing` | internal/jobs/sql_repository.go:69-114 | A worker whose lease was reclaimed by another gets ErrLeaseLost and changes nothing |
| `JobRuns.StaleWorkerAccepted` | internal/jobs/sql_repository.go:69-114 | With equal names, exactly when the stale report is accepted |
| `JobRuns.DefaultNameIsNotSeparated` | internal/jobs/worker.go:32-34 | With the default name a stale worker ends another worker's lease |
| `Jobs.ReclaimBySecond` | internal/jobs/sql_repository.go:39-46 | LeaseNext never reclaims before the whole second holding the expiry and always sees it as expired from the next second |
| `Jobs.ReleaseBySecond` | internal/jobs/sql_repository.go:39-46 | LeaseNext never grants a queued row in a whole second before its available_at and always finds it due from the next second |
| `JobRuns.RetriesBackOff` | internal/jobs/worker.go:82-88 | Whatever happens after a retryable failure of attempt a at t was put back to the queue: the job's next lease is not granted in a whole second before t + 2^min(a-1, 8) s, and from the next second on the row is due |
| `Jobs.RetryDelays` | internal/jobs/worker.go:44-49 | Delays double from 1 s, never shrink, are 256 s from the ninth attempt on, and the five-minute cap never applies |
| `Jobs.BeforeIsOrder` | internal/jobs/sql_repository.go:43-45 | The selection order is a strict weak order, so a first due row exists |
| `Jobs.Repository.Enqueue` | internal/jobs/sql_repository.go:22-31 | Inserts the row, or changes nothing for an empty payload or a taken id |
| `Jobs.Repository.SelectNext` | internal/jobs/sql_repository.go:36-46 | A due row that no due row sorts before, or none if none is due |
| `Jobs.Repository.LeaseNext` | internal/jobs/sql_repository.go:33-67 | Leases a queued row whose time has come or a running one whose lease ran out, the first by available_at and created_at, and changes no other; with no such row nothing changes |
| `Jobs.Repository.Retry` | internal/jobs/sql_repository.go:69-95 | Back to the queue or failed by the attempt count, only for the holder |
| `Jobs.Repository.Finish` | internal/jobs/sql_repository.go:103-114 | Ends the row, only for the holder |
| `Jobs.Repository.Complete` | internal/jobs/sql_repository.go:97-99 | Succeeds the row, only for the holder |
| `Jobs.Repository.Fail` | internal/jobs/sql_repository.go:100-102 | Fails the row, only for the holder |
| `OperationRuns.TableInvariant` | internal/operations/sql_repository.go:26-149 | After every run: active_marker set iff non-terminal, finished_at iff terminal, started_at for running, verifying, succeeded and timed out, keys unique |
| `OperationRuns.OneActivePerServer` | internal/database/migrations.go:210 | After every run a server has at most one non-terminal operation |
| `OperationRuns.RowShapes` | internal/operations/sql_repository.go:26-149 | After every run, column by column: which of active_marker, started_at and finished_at go with which status |
| `OperationRuns.AtMostThreeMoves` | internal/operations/sql_repository.go:151-162 | Each operation makes at most three transitions in any run |
| `OperationRuns.RowsPersist` | internal/operations/sql_repository.go:26-149 | No row disappears and identity, key, server and action never change |
| `Operations.TransitionsDescend` | internal/operations/sql_repository.go:151-162 | Queued leads to running, failed and cancelled only, running to verifying and the three ends, verifying to the three ends; every allowed transition lowers the rank, and a status is terminal iff it allows none |
| `Operations.QueuedInsertMeans` | internal/operations/sql_repository.go:26-57 | A known key, a busy server and a taken id change nothing and are told apart in this order; a new row carries the request's columns and is queued, marked and unstarted |
| `Operations.MoveMeans` | internal/operations/sql_repository.go:100-149 | A transition writes status, marker, update time, first start, finish, error and a non-empty request id, keeps every other column and touches no other row |
| `Operations.CreateQueuedKeepsInv` | internal/operations/sql_repository.go:26-57 | The insert keeps the table's invariant |
| `Operations.TransitionKeepsInv` | internal/operations/sql_repository.go:100-149 | A transition keeps the table's invariant |
| `Operations.Repository.CreateQueued` | internal/operations/sql_repository.go:26-57 | Existing key, active server, taken id or a new queued row, with the whole new table |
| `Operations.Repository.Transition` | internal/operations/sql_repository.go:100-149 | The guarded move with every column it sets |
| `Operations.Repository.FindByID` | internal/operations/sql_repository.go:59-61 | The row, or not found |
| `Operations.Repository.FindByIdempotencyKey` | internal/operations/sql_repository.go:63-65 | The only row with the key |
| `TimeText.TextOrder` | internal/jobs/sql_repository.go:154-159 | For years 0000-9999 stored texts order as the instants, except inside one second exactly where one fraction's digits are a prefix of the other's |
| `TimeText.DueBySecond` | internal/jobs/sql_repository.go:39-46 | Exactly when the stored test "expiry <= now" holds |
| `TimeText.WholeSecondSortsLast` | internal/jobs/sql_repository.go:154-159 | A whole second sorts after every later instant of that second |
| `TimeText.TextInjective` | internal/jobs/sql_repository.go:154-159 | Different instants have different texts |
| `TimeText.YearHasFourDigits` | internal/jobs/sql_repository.go:154-159 | The instants whose UTC year is written with four digits |
| `TimeParse.ParseUndoesTimeValue` | internal/jobs/sql_repository.go:154-167 | parseTime undoes timeValue to the nanosecond exactly for the instants whose UTC year has four digits |
| `TimeParse.ZonedTimeIsRead` | internal/jobs/sql_repository.go:160-167 | A local time with a zone offset is read as the instant that offset earlier or later |
| `TimeParse.SpacedTimeIsRead` | internal/jobs/sql_repository.go:160-167 | The zone-less text MySQL produces is read as the UTC instant |
| `Calendar.MonthLengths` | internal/jobs/sql_repository.go:154-167 | The lengths of the months, in leap years too |
| `Calendar.DateOfDayNumber` | internal/jobs/sql_repository.go:154-167 | The proleptic Gregorian date and the day number are inverse |
| `Calendar.DayNumberOrder` | internal/jobs/sql_repository.go:154-167 | Dates order as their day numbers |
| `InventoryRuns.SyncIsMerge` | internal/inventory/sql_repository.go:25-78 | A successful sync is, key by key, the merge of the table and the snapshot: last duplicate wins, id and created_at of the first, unnamed keys of the connection hidden |
| `InventoryRuns.VisibleAfterSync` | internal/inventory/sql_repository.go:25-54 | The connection's visible keys are exactly the snapshot's and every other connection's row is untouched |
| `InventoryRuns.SyncSucceedsExactly` | internal/inventory/sql_repository.go:25-54 | A sync is applied if and only if the connection is live, every entry is well formed and no entry's id is taken |
| `InventoryRuns.DistinctIdsAreFree` | internal/inventory/sync.go:129-134 | New, distinct ids are enough for that |
| `InventoryRuns.IdentityIsStable` | internal/inventory/sql_repository.go:25-78 | Over any sequence of syncs and remote updates no row disappears and a key's id and created_at never change |
| `InventoryRuns.UpsertByKey` | internal/inventory/sql_repository.go:56-78 | What one upsert does to every key |
| `InventoryRuns.LookIsTheRows` | internal/inventory/sql_repository.go:56-78 | Reading by key and reading by id see the same rows |
| `Inventory.Repository.ApplyCompleteSync` | internal/inventory/sql_repository.go:25-54 | The transaction: both new tables, or an error and nothing changed |
| `Inventory.Repository.WriteAll` | internal/inventory/sql_repository.go:34-41 | The loop over the snapshot |
| `Inventory.Repository.UpsertOne` | internal/inventory/sql_repository.go:56-78 | One INSERT ... ON CONFLICT |
| `Inventory.Repository.Hide` | internal/inventory/sql_repository.go:30-33 | Hides exactly the connection's visible rows |
| `Inventory.Repository.UpdateRemote` | internal/inventory/sql_repository.go:136-156 | Rewrites a visible row and nothing else, or not found |
| `Inventory.UpsertKeepsUnique` | internal/inventory/sql_repository.go:56-78 | An upsert keeps ids and keys unique |
| `Inventory.KnownStates` | internal/inventory/sync.go:113-116 | Exactly eight states are kept; every other one becomes unknown |
| `Sync.Syncer.SyncConnection` | internal/inventory/sync.go:53-103 | Once validation passed the inventory is replaced iff the traversal ends within 1000 pages and 10000 servers with every page and server good; otherwise servers are unchanged and the failure recorded is the first one met: the page, the server, or the bound |
| `Sync.Syncer.Collect` | internal/inventory/sync.go:79-102 | The loop succeeds iff a complete traversal exists and returns its servers in order; otherwise its error is the first reason to stop |
| `Sync.Syncer.Append` | internal/inventory/sync.go:87-93 | A page is appended iff all its servers normalise; otherwise the error is the first bad server's |
| `Sync.Syncer.RecordFailure` | internal/inventory/sync.go:137-155 | A live connection becomes degraded for a retryable provider error and offline for any other, with the error's code and message or the general one; nothing else changes and the error is passed on |
| `Sync.CompletePage` | internal/inventory/sync.go:79-102 | Every page of a complete traversal succeeded, fitted and normalised |
| `Sync.OneEnd` | internal/inventory/sync.go:79-102 | A traversal has one end |
| `Aws.TraversalIsTheChains` | internal/providers/aws/provider.go:141-164 | Following the cursors from nil ends with exactly these pages iff every region's token chain is finite and the pages are the chains', each once, region by region |
| `Aws.OneTraversal` | internal/providers/aws/provider.go:141-164 | There is only one such traversal |
| `Aws.SyncCollectsTheTraversal` | internal/inventory/sync.go:79-102 | SyncConnection on AWS collects the concatenation of those pages |
| `Aws.SyncCompletesExactly` | internal/inventory/sync.go:79-102 | SyncConnection replaces an AWS inventory iff all chains are finite with at most 1000 pages and 10000 servers in all, every server normalising |
| `Aws.NormalizeRegions` | internal/providers/aws/provider.go:112-130 | Accepts iff 1 to 32 values that all match the pattern after trimming and lowering; the result is the distinct regions by first occurrence |
| `Aws.MatchesExactly` | internal/providers/aws/provider.go:60-60 | The pattern accepts exactly two letters, one to three words and digits, joined by dashes |
| `Aws.TrimMeans` | internal/providers/aws/provider.go:119-119 | Trimming drops white space at both ends and nothing else |
| `Aws.NameMeans` | internal/providers/aws/provider.go:273-279 | An instance is named by the first Name tag that is not blank, or by its id |
| `Aws.LowerMeans` | internal/providers/aws/provider.go:119-119 | Lower-casing keeps the length, moves A to Z by 32 and makes letters of two other characters |
| `Aws.InstanceMeans` | internal/providers/aws/provider.go:263-304 | An instance with a blank id is left out; any other is taken under its trimmed id, in its region, with its name, both forms of its state and a portal |
| `Aws.StatesMap` | internal/providers/aws/provider.go:309-323 | The six AWS states in the program's words |
| `Aws.OtherStatesAreUnknown` | internal/providers/aws/provider.go:309-323 | Every other state is unknown |
| `Aws.BadCursors` | internal/providers/aws/provider.go:141-164 | A cursor that does not decode or points outside the regions is refused as invalid configuration |
| `Aws.FlattenInstances` | internal/providers/aws/provider.go:248-261 | All instances with an id, reservation by reservation, in order |
| `Aws.Flatten` | internal/providers/aws/provider.go:248-300 | Every listed server carries its region as scope and a non-empty id |
| `BackupRoundTrip.RestoreUndoesExport` | internal/backup/snapshot.go:66-107 | An export passes validation iff no exported time has left the years 0000-9999, and then restores to the same nine tables in canonical spelling |
| `BackupRoundTrip.CanonicalRoundTrip` | internal/backup/snapshot.go:66-107 | Tables in the program's own spelling are always exported and come back unchanged |
| `BackupFixedPoint.RestoreIsAFixedPoint` | internal/backup/snapshot.go:66-107 | For every exported database whose archive is accepted: it restores to its canonical spelling, that can be exported, and the second export is accepted and restores to the same tables |
| `BackupFixedPoint.ExportedIsInYears` | internal/backup/snapshot.go:207-212 | No accepted archive exported by this program holds a time out of the years 0000-9999 |
| `BackupFixedPoint.OneExport` | internal/backup/snapshot.go:66-85 | A database has one export |
| `BackupFixedPoint.LateArchive` | internal/backup/snapshot.go:162-186 | A whole valid and closed archive, from elsewhere, whose restored tables cannot be exported again |
| `BackupRoundTrip.ReexportsExactly` | internal/backup/snapshot.go:188-263 | A restored database can be exported again iff every archived time lies in the years 0000-9999 in UTC |
| `BackupFixedPoint.RestoredTimeThatCannotBeExported` | internal/backup/snapshot.go:247-254 | A valid time cell whose restored text cannot be exported |
| `BackupRoundTrip.ValidationSuffices` | internal/backup/snapshot.go:162-186 | No cell of an archive that passed validation fails to convert, in either dialect |
| `BackupRoundTrip.CanonKeepsClosed` | internal/backup/snapshot.go:87-107 | Canonical spelling keeps every foreign key |
| `BackupCells.RestoreUndoesNormalize` | internal/backup/snapshot.go:188-263 | Restoring an exported cell gives its canonical spelling, and fails exactly for times out of the four-digit years |
| `BackupCells.CanonicalIsFixed` | internal/backup/snapshot.go:188-225 | A canonical value is exported and is its own canonical spelling |
| `BackupCells.RestoredIsCanonical` | internal/backup/snapshot.go:227-263 | What a restore stores is canonical |
| `BackupCells.DialectsAgree` | internal/backup/snapshot.go:227-263 | A cell converts in one dialect iff it does in the other, to the same value, a time to the instant in MySQL and to its text in SQLite |
| `BackupCells.TruthSurvives` | internal/backup/snapshot.go:188-263 | Every spelling of a truth value, as flag, number, digit or word, is exported and restored to that truth, and no other text is exported |
| `BackupCells.SpellingsAgree` | internal/backup/snapshot.go:188-225 | The exported text does not depend on how the driver hands a value over: bytes or text, a time or its text, a number or its digits |
| `BackupCells.DecodeUndoesEncode` | internal/backup/snapshot.go:196-199 | Base64 decoding undoes encoding for all byte strings (RFC 4648, section 4) |
| `BackupCells.ParseUndoesFormat` | internal/backup/snapshot.go:200-206 | ParseInt undoes FormatInt exactly on 64-bit integers |
| `BackupCells.DecodesExactly` | internal/backup/snapshot.go:232-233 | Base64 is read exactly from whole quads of letters, the last with at most two padding signs; three bytes for each quad less the padding |
| `BackupCells.ParseIntExactly` | internal/backup/snapshot.go:234-235 | An integer is read exactly from digits behind an optional sign, if 64 bits hold it |
| `BackupRoundTrip.ValidatesExactly` | internal/backup/snapshot.go:162-186 | Envelope and table checks together accept exactly the dated archives of format 1 from SQLite or MySQL whose tables and manifest are the nine tables, with the schema's columns, the counted rows, and every cell NULL or a text of its column's kind |
| `Backup.ClosedMeans` | internal/database/migrations.go:32-279 | The closed databases are those in which the five foreign-key columns hold NULL or a key of their parent table |
| `Backup.ReferencesByName` | internal/database/migrations.go:32-279 | The foreign keys by table and column name |
| `Backup.EmptiedIsClosed` | internal/backup/snapshot.go:96-100 | No prefix of the deletion order breaks a foreign key |
| `Backup.FilledIsClosed` | internal/backup/snapshot.go:101-105 | Every intermediate state of the insertions satisfies the foreign keys if the finished database does |
| `Backup.ManifestCoversTables` | internal/backup/archive.go:31-53 | With the envelope's checks every table is counted in the manifest |
| `Backup.Snapshotter.Restore` | internal/backup/snapshot.go:87-107 | Succeeds iff the archive is valid, its rows are closed under the foreign keys and the other constraints accept them; the tables are then the archive's, and otherwise unchanged |
| `Backup.Snapshotter.Clear` | internal/backup/snapshot.go:96-100 | The nine deletions never fail |
| `Backup.Snapshotter.Fill` | internal/backup/snapshot.go:101-105 | The insertions succeed iff the finished database is closed and accepted |
| `Backup.Snapshotter.Export` | internal/backup/snapshot.go:66-85 | Succeeds iff every cell is exportable, and is then an export of the tables |
| `Backup.Snapshotter.ExportTable` | internal/backup/snapshot.go:109-137 | One table, row by row |
| `Backup.Snapshotter.RestoreRow` | internal/backup/snapshot.go:139-160 | One row: its cells restored, then the insert or its failure |
| `BackupService.Service.Restore` | internal/backup/service.go:151-181 | Succeeds if and only if nothing is active, the backup reads back, opens and validates, its safety archive is stored, the tables accept it and it is audited; the whole new state then, and the tables after every error |
| `BackupService.Service.CreateLocked` | internal/backup/service.go:100-126 | Exactly when an archive is stored, and what is stored |
| `BackupService.Service.ReadVerified` | internal/backup/service.go:183-206 | The archive, iff its file has a plain backup name, is there, is not too large and matches its checksum |
| `BackupService.SafetyUndoesRestore` | internal/backup/service.go:151-181 | After a successful restore, restoring its safety archive with nothing failing outside succeeds iff every time of the first archive is in the years 0000-9999 in UTC and the safety archive is valid and accepted; the tables are then the old ones in canonical spelling and one audit row |
| `BackupService.CanonicalUndo` | internal/backup/service.go:151-181 | For tables in the program's own spelling that depends on the first archive alone, and gives back exactly the old tables and one audit row |
| `BackupService.OwnBackupsCanBeUndone` | internal/backup/service.go:151-181 | The restore of a backup this program exported can always be undone |
| `Broker.Broker.Publish` | internal/events/broker.go:38-51 | Every open stream gets the event or is closed; every stream stays a gap-free run of the published events, open ones up to the latest |
| `Broker.Broker.Subscribe` | internal/events/broker.go:53-58 | A new stream starts right after the latest event |
| `Broker.Broker.Cancel` | internal/events/broker.go:59-68 | Closes and forgets the stream if it is still registered, so none is closed twice |
| `Broker.Broker.Consume` | internal/events/broker.go:53-70 | The events a client reads have consecutive ids from just after its subscription |
| `Broker.Broker.Send` | internal/events/broker.go:42-50 | The loop: full buffers are closed and forgotten, the others extended |
| `Broker.OneMoreEvent` | internal/events/broker.go:38-51 | A gap-free run of the published events stays one, extended if it was open |
| `ConsoleRuns.OpensAtMostOnce` | internal/console/sql_repository.go:36-62 | Once a session was opened no consumption of any ticket for it is possible in any continuation |
| `ConsoleRuns.OpenedBeforeExpiry` | internal/console/sql_repository.go:36-62 | In every run an opened session was opened by a step that found the ticket unexpired, on instants and on text |
| `ConsoleRuns.DeliveredOnce` | internal/console/targets.go:17-36 | In every run no session's target is delivered twice, and none without its ticket having been opened |
| `ConsoleRuns.OutcomesAreRight` | internal/console/sql_repository.go:24-78 | In every run result is pending iff unopened and unclosed, and active iff opened and unclosed |
| `ConsoleRuns.RowsContinue` | internal/console/sql_repository.go:36-78 | Ticket and expiry never change, an opening is kept, and a closed row is final |
| `ConsoleRuns.AlwaysInv` | internal/console/sql_repository.go:24-78 | The invariant of rows, targets and requests after every run, restarts included |
| `Console.OpensExactly` | internal/console/sql_repository.go:36-62 | Exactly when a ticket whose expiry the program wrote opens: its row is readable, neither opened nor closed, and the time is before the expiry, inside the expiry's own second only if its fraction digits are no prefix of the expiry's |
| `Console.Repository.Create` | internal/console/sql_repository.go:24-34 | The insert under both unique keys |
| `Console.Repository.ConsumeTicket` | internal/console/sql_repository.go:36-62 | Opens the row with the ticket iff it may be opened; otherwise nothing changes |
| `Console.Repository.Close` | internal/console/sql_repository.go:68-78 | Closes an unclosed row once |
| `ConsoleService.MemoryTargetStore.Put` | internal/console/targets.go:17-22 | Stores the target |
| `ConsoleService.MemoryTargetStore.Take` | internal/console/targets.go:24-30 | Hands the target out and forgets it |
| `ConsoleService.MemoryTargetStore.Delete` | internal/console/targets.go:32-36 | Forgets the target |
| `ConsoleService.Service.CreateEmbedded` | internal/console/service.go:144-165 | Pending row and target, or after an audit failure no target and a failed row unless that statement fails too, or nothing |
| `ConsoleService.Gateway.Open` | internal/console/websocket.go:54-82 | After a consumed ticket the target is gone and the session ends closed unless the closing statement fails |
| `AuthRuns.AcceptedUntil` | internal/auth/service.go:115-145 | After acceptance at t and while unused and unrevoked, in any run, a session is accepted until min(t + idle - touch, absolute end) and refused and deleted from min(t + idle, absolute end) |
| `AuthRuns.AlwaysSliding` | internal/auth/service.go:115-145 | In every run with idle <= absolute every session expires at min(last use + idle, absolute end) |
| `AuthRuns.NewSessionSlides` | internal/auth/service.go:170-197 | A new session obeys that rule iff idle <= absolute |
| `AuthRuns.Window` | internal/auth/service.go:115-145 | The same window for one session |
| `AuthRuns.UnusedStays` | internal/auth/service.go:115-168 | A session that is not used or revoked keeps its row |
| `AuthRuns.ChangeEndsOthers` | internal/auth/sql_repository.go:149-162 | A password change ends exactly the user's other sessions |
| `Auth.Service.Login` | internal/auth/service.go:89-113 | Succeeds iff the password is right and both inserts succeed; then a new session and the login time, otherwise nothing |
| `Auth.Service.Authenticate` | internal/auth/service.go:115-145 | The decision and the sessions it leaves |
| `Auth.Service.Logout` | internal/auth/service.go:147-152 | Removes the session |
| `Auth.Service.ChangePassword` | internal/auth/service.go:154-168 | The new password and the remaining sessions, or what authentication alone left |
| `Cidr.WithinExactly` | internal/config/config.go:161-170 | The configuration's test holds iff the entry is a subset of the root for all addresses of its width |
| `Cidr.WithinIsSubset` | internal/config/config.go:161-170 | The forward half, for any two networks |
| `Cidr.CidrWithinPrivateRoot` | internal/config/config.go:161-170 | True iff some root passes the test |
| `Cidr.LoadAllowedPrivateCIDRs` | internal/config/config.go:122-149 | Accepts iff every entry parses and lies in a private root, keeps each network once, and names the first bad entry's error |
| `Cidr.KeptMatchesOnlyPrivate` | internal/providers/network/policy.go:75-91 | No kept entry matches an address that is not private, IPv4-mapped addresses included |
| `Cidr.KeptEntriesAllowExactly` | internal/providers/network/policy.go:75-91 | Kept entries add exactly the addresses inside one of them that are neither special nor loopback |
| `Cidr.ConcatenationIsUnion` | internal/app/app.go:147 | Concatenating allow-lists is the union of their verdicts |
| `Cidr.ResolveAllowed` | internal/providers/network/policy.go:40-65 | All resolved addresses are allowed, or none is returned |
| `Cidr.VerdictByRange` | internal/providers/network/policy.go:75-91 | For every allow-list and every address, IPv4-mapped ones included, by address ranges: unspecified, link-local and multicast never; loopback iff the option is set; private iff some entry contains it; every other address always |
| `Cidr.ContainsByBits` | internal/providers/network/policy.go:84-88 | An entry contains an address iff the address, an IPv4-mapped one taken as IPv4, has the entry's width and its first prefix bits |
| `Cidr.MappedEntry` | internal/providers/network/policy.go:84-88 | An entry written as an IPv4-mapped network counts as the IPv4 network of its last 32 bits |
| `Cidr.RootsAreExactlyPrivate` | internal/config/config.go:151-160 | The private roots hold exactly the addresses that need an entry |

## Left out

- PowerExecutor.Executor.Execute: proved for one call with nothing running between its statements; interleavings are the subject of the machine, whose steps these statements are.
- PowerExecutor.Node.RunOnce: Worker.Run, the endless loop around it, is not modelled; it makes no decision of its own.
- PowerResults.HandlerRunsAreBounded: one worker, as the application builds; several workers are the subject of JobRuns.
- Jobs.ReclaimBySecond: for stored times in the years 0000-9999, the ones whose text has a fixed width.
- TimeParse.ParseUndoesTimeValue: the parser accepts RFC 3339 with an optional fraction and the two spaced layouts; the looser spellings that Go's time.Parse also accepts, a comma before the fraction and a one-digit hour, are not modelled.
- Inventory.Repository.UpsertOne: SQLite's ON CONFLICT; MySQL's ON DUPLICATE KEY UPDATE, which also fires on a taken id, is not modelled.
- Aws.TraversalIsTheChains: a cursor is its position or malformed; the base64 and JSON text of a cursor is not modelled, and neither is an inventory that changes between pages.
- Aws.NormalizeRegions: lower-casing is modelled as far as it can produce ASCII letters; other letters never match the pattern.
- PowerRuns.TablesStayCoupled: a statement that fails stores nothing; a commit that reports an error after it took effect is not modelled.
- Sync.Syncer.SyncConnection: the portal address and its checks are one answer per server; credentials and provider construction are one outcome each.
- Backup.Snapshotter.Export: a table is the sequence in which the engine scans it; SELECT without ORDER BY leaves that order to the engine.
- Backup.Snapshotter.Restore: keys, NOT NULL and CHECK constraints are one predicate; the SQLite dialect is written, the MySQL dialect only for cell conversion.
- BackupService.Service.Restore: the activity check is an answer taken before the mutex, so nothing is claimed about work that starts later; encryption is a pair of archive and passphrase, and a checksum stands for the contents.
- BackupCells.RestoreUndoesNormalize: text is a sequence of characters; bytes that are not UTF-8, which the JSON of a sealed archive would replace, are not modelled.
- Broker.Broker.Publish: event ids do not wrap around.
- Console.Repository.ConsumeTicket: the ticket hash is the ticket's identity; hashing is not modelled.
- ConsoleService.Gateway.Open: the proxy loops are one outcome.
- Auth.Service.Login: Argon2id, token generation and hashing are parameters.
- Cidr.LoadAllowedPrivateCIDRs: networks are compared as values, not by their text; splitting and trimming of the variable happen before.
- PowerService.Service.Request: unknown actions, trimming and a generated key for an empty one come before the modelled part; decoding capabilities and the foreign keys of the operations row are not modelled.
- MySQL isolation anomalies, SQL engine internals, migrations as code, HTTP handlers, provider clients, the web front end, file writing and graceful shutdown are not modelled; a cancelled context is a crash.
