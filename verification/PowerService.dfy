/** Service.Request as a method over the two repositories; its statements are request steps
    of the machine of PowerProtocol. */
module PowerService {
  import opened Wrappers
  import O = Operations
  import J = Jobs
  import opened TimeText
  import opened PowerProtocol
  import opened PowerInvariant
  import opened PowerResults
  import opened PowerExecutor

  /** What the service asks and does not decide: which of its statements succeed, and the ids
      it generates. */
  datatype Chances = Chances(
    lookedUp: bool, created: bool, jobStored: bool, auditStored: bool, undone: bool,
    operationId: string, jobId: string, maxAttempts: int)

  datatype Refusal = Rejected | Table(error: O.Error) | QueueFailed | AuditFailed

  /** A start needs a stopped or suspended server, a stop or reboot a running one, and each its
      own capability. */
  predicate Admissible(server: Option<Server>, action: O.Action) {
    server.Some? &&
    var Server(_, _, state, capabilities) := server.value;
    match action
    case Start => (state.Stopped? || state.Suspended?) && capabilities.canStart
    case Stop => state.Running? && capabilities.canStop
    case Reboot => state.Running? && capabilities.canReboot
  }

  /** Everything a request needs in order to create its operation and report it. */
  ghost predicate Creates(ops: O.Table, jobs: J.Table, request: Request, server: Option<Server>, chances: Chances) {
    && chances.lookedUp && (forall id :: id in ops ==> ops[id].key != request.key) && Admissible(server, request.action)
    && chances.created && chances.operationId !in ops
    && (forall id :: id in ops ==> !(ops[id].serverId == server.value.id && ops[id].active))
    && chances.jobStored && chances.operationId != "" && chances.jobId !in jobs
    && chances.auditStored
  }

  /** A request step that is possible is the effect of its label. */
  lemma Takes(s: State, l: Label)
    requires IsRequestStep(l) && RequestPossible(s, l)
    ensures Apply(s, l) == RequestEffect(s, l)
  {
    hide RequestEffect, RequestPossible;
  }

  lemma LookTakes(s: State, l: Label)
    requires l.Look? && l.client !in s.clients
    ensures Apply(s, l) == s.(clients := s.clients[l.client := LookStep(s, l)])
  {
    hide LookStep;
  }

  lemma FailureTakes(s: State, c: nat, request: Request)
    requires MayFail(s, c)
    ensures Apply(s, RequestFails(c, request)) == s.(clients := s.clients[c := FailingRequest(s, RequestFails(c, request))])
  {
    Takes(s, RequestFails(c, request));
    hide Apply, FailingRequest;
  }

  lemma CreateTakes(s: State, c: nat)
    requires c in s.clients && s.clients[c].Admitted?
    ensures
      var t := Apply(s, Create(c));
      var (ops, r) := O.QueuedInsert(s.ops, s.clients[c].operation);
      var request := s.clients[c].request;
      && t.ops == ops && t.jobs == s.jobs && c in t.clients
      && (r.Err? ==> t.clients[c] == Answered(request, None))
      && (r.Ok? && !r.value.1 ==> t.clients[c] == Answered(request, Some(r.value.0.id)))
      && (r.Ok? && r.value.1 ==> t.clients[c] == Owner(request, s.clients[c].operation.id, false, Created))
  {
    RequestEffects(s, Create(c));
    Takes(s, Create(c));
    hide RequestEffect, Apply, O.QueuedRow, O.FindByKey, O.HasActive;
  }

  lemma EnqueueTakes(s: State, l: Label)
    requires l.Enqueue? && AtStage(s, l.client, Created) && l.maxAttempts >= 1
    ensures Apply(s, l) == EnqueueStep(s, l)
  {
    RequestEffects(s, l);
    Takes(s, l);
    hide RequestEffect, Apply, EnqueueStep;
  }

  lemma AuditTakes(s: State, c: nat, stored: bool)
    requires AtStage(s, c, Enqueued)
    ensures
      Apply(s, AuditRequest(c, stored))
      == s.(clients := s.clients[c := s.clients[c].(stage := if stored then Replied(true) else Undoing)])
  {
  }

  lemma UndoTakes(s: State, c: nat, now: string)
    requires AtStage(s, c, Undoing)
    ensures Apply(s, Undo(c, now)) == UndoStep(s, c, now)
  {
    RequestEffects(s, Undo(c, now));
    Takes(s, Undo(c, now));
    hide RequestEffect, Apply, UndoStep;
  }

  class Service {
    const operations: O.Repository
    const jobs: J.Repository
    const world: World

    constructor (operations: O.Repository, jobs: J.Repository, world: World)
      ensures this.operations == operations && this.jobs == jobs && this.world == world
    {
      this.operations, this.jobs, this.world := operations, jobs, world;
    }

    ghost predicate Valid()
      reads this, operations, jobs, world
    {
      operations.rows == world.Machine().ops && operations.Valid() && jobs.rows == world.Machine().jobs && world.Clocked()
    }

    ghost function Client(c: nat): Option<PowerProtocol.Client>
      reads this, world
    {
      if c in world.Machine().clients then Some(world.Machine().clients[c]) else None
    }

    /** The lookup by key and the checks before the insert. */
    method Admit(c: nat, request: Request, server: Option<Server>, chances: Chances, at: string)
      returns (r: Result<Option<O.Operation>, Refusal>)
      requires Valid() && Client(c).None?
      modifies world`run
      ensures Valid() && RequestRun(old(world.run), world.run, c)
      ensures r.Err? ==> Client(c) == Some(Answered(request, None))
      ensures r == Err(Table(O.StorageFailed)) <==> !chances.lookedUp
      ensures r == Err(Rejected) <==>
        chances.lookedUp && O.FindByKey(operations.rows, request.key).None? && !Admissible(server, request.action)
      ensures r.Err? ==> r.error == Rejected || r.error == Table(O.StorageFailed)
      ensures r.Ok? && r.value.Some? ==>
        r.value == O.FindByKey(operations.rows, request.key) && Client(c) == Some(Answered(request, Some(r.value.value.id)))
      ensures r.Ok? && r.value.None? ==>
        && O.FindByKey(operations.rows, request.key).None? && Admissible(server, request.action)
        && Client(c) == Some(Admitted(request, NewOperation(chances.operationId, server.value, request, at)))
    {
      ghost var s := world.Machine();
      if !chances.lookedUp {
        FailureTakes(s, c, request);
        hide Apply, After, O.Inv;
        RequestRunMore(world.run, world.run, c, RequestFails(c, request));
        world.Did(RequestFails(c, request));
        return Err(Table(O.StorageFailed));
      }
      ghost var l := PowerProtocol.Look(c, request, server, chances.operationId, at);
      LookTakes(s, l);
      hide Apply, After, O.Inv;
      var existing := operations.FindByIdempotencyKey(request.key);
      RequestRunMore(world.run, world.run, c, l);
      world.Did(l);
      if existing.Some? {
        return Ok(existing);
      }
      if server.None? {
        return Err(Rejected);
      }
      if !O.StateAllows(server.value.state, request.action) {
        return Err(Rejected);
      }
      if !O.CapabilityFor(server.value.capabilities, request.action) {
        return Err(Rejected);
      }
      return Ok(None);
    }

    method Insert(c: nat, request: Request, operation: O.Operation, stored: bool) returns (r: Result<(O.Operation, bool), O.Error>)
      requires Valid() && Client(c) == Some(Admitted(request, operation))
      modifies world`run, operations
      ensures Valid() && RequestRun(old(world.run), world.run, c)
      ensures stored ==> (operations.rows, r) == O.QueuedInsert(old(operations.rows), operation)
      ensures !stored ==> r == Err(O.StorageFailed) && operations.rows == old(operations.rows)
      ensures r.Err? ==> Client(c) == Some(Answered(request, None))
      ensures r.Ok? && !r.value.1 ==> Client(c) == Some(Answered(request, Some(r.value.0.id)))
      ensures r.Ok? && r.value.1 ==> Client(c) == Some(Owner(request, operation.id, false, Created))
    {
      ghost var s := world.Machine();
      if !stored {
        FailureTakes(s, c, request);
        hide Apply, After, O.Inv;
        RequestRunMore(world.run, world.run, c, RequestFails(c, request));
        world.Did(RequestFails(c, request));
        return Err(O.StorageFailed);
      }
      CreateTakes(s, c);
      hide Apply, After, O.Inv, O.HasActive, O.FindByKey;
      r := operations.CreateQueued(operation);
      RequestRunMore(world.run, world.run, c, Create(c));
      world.Did(Create(c));
    }

    method EnqueueJob(c: nat, request: Request, id: string, chances: Chances, at: string) returns (ok: bool)
      requires Valid() && Client(c) == Some(Owner(request, id, false, Created)) && chances.maxAttempts >= 1
      modifies world`run, jobs
      ensures Valid() && RequestRun(old(world.run), world.run, c)
      ensures Client(c) == Some(if ok then Owner(request, id, true, Enqueued) else Owner(request, id, false, Undoing))
      ensures ok <==> chances.jobStored && id != "" && chances.jobId !in old(jobs.rows)
      ensures jobs.rows == if ok
        then old(jobs.rows)[chances.jobId := J.InitialRow(J.PowerOperation, id, chances.maxAttempts, at)] else old(jobs.rows)
    {
      ghost var s := world.Machine();
      ghost var l := PowerProtocol.Enqueue(c, chances.jobId, chances.maxAttempts, at, chances.jobStored);
      EnqueueTakes(s, l);
      hide Apply, After, O.Inv;
      ok := false;
      if chances.jobStored {
        var r := jobs.Enqueue(chances.jobId, J.InitialRow(J.PowerOperation, id, chances.maxAttempts, at));
        ok := r.Ok?;
      }
      RequestRunMore(world.run, world.run, c, l);
      world.Did(l);
    }

    method RecordAudit(c: nat, request: Request, id: string, stored: bool)
      requires Valid() && Client(c) == Some(Owner(request, id, true, Enqueued))
      modifies world`run
      ensures Valid() && RequestRun(old(world.run), world.run, c)
      ensures Client(c) == Some(Owner(request, id, true, if stored then Replied(true) else Undoing))
    {
      ghost var s := world.Machine();
      AuditTakes(s, c, stored);
      hide Apply, After, O.Inv;
      RequestRunMore(world.run, world.run, c, AuditRequest(c, stored));
      world.Did(AuditRequest(c, stored));
    }

    /** The compensating transition to failed; its own error is discarded, so if it fails the
        row stays as it is. */
    method Compensate(c: nat, request: Request, id: string, enqueued: bool, at: string, stored: bool)
      requires Valid() && Client(c) == Some(Owner(request, id, enqueued, Undoing))
      modifies world`run, operations
      ensures Valid() && RequestRun(old(world.run), world.run, c)
      ensures Client(c) == Some(Owner(request, id, enqueued, if stored then Replied(false) else Forsaken))
      ensures operations.rows == if stored then O.MoveRow(old(operations.rows), id, O.Failed, Compensation(enqueued, at)).0
                                 else old(operations.rows)
    {
      ghost var s := world.Machine();
      if !stored {
        FailureTakes(s, c, request);
        hide Apply, After, O.Inv;
        RequestRunMore(world.run, world.run, c, RequestFails(c, request));
        world.Did(RequestFails(c, request));
        return;
      }
      UndoTakes(s, c, at);
      hide Apply, After, O.Inv, O.MoveRow;
      if enqueued {
        var _ := operations.Transition(id, O.Failed, O.Change(at, "", "audit_failed", "Unable to record operation audit event"));
      } else {
        var _ := operations.Transition(id, O.Failed, O.Change(at, "", "queue_failed", "Unable to queue power operation"));
      }
      RequestRunMore(world.run, world.run, c, Undo(c, at));
      world.Did(Undo(c, at));
    }

    /** Request number `c`.  What it returns is the machine's reply for that request: the row
        of its key if there is one, or the row it created if and only if nothing refused or
        failed. */
    method Request(c: nat, request: Request, server: Option<Server>, chances: Chances)
      returns (r: Result<(O.Operation, bool), Refusal>)
      requires Valid() && Client(c).None? && chances.maxAttempts >= 1
      modifies world, operations, jobs
      ensures Valid() && RequestRun(old(world.run), world.run, c)
      ensures Client(c).Some? && Client(c).value.request == request
      ensures Reply(Client(c).value) == if r.Ok? then Some((r.value.0.id, r.value.1)) else None
      ensures
        var existing := O.FindByKey(old(operations.rows), request.key);
        && (chances.lookedUp && existing.Some? ==> r == Ok((existing.value, false)))
        && (r == Err(Rejected) <==> chances.lookedUp && existing.None? && !Admissible(server, request.action))
      ensures r.Ok? && r.value.1 <==> Creates(old(operations.rows), old(jobs.rows), request, server, chances)
      ensures r.Ok? && r.value.1 ==>
        var at := TimeValue(world.now);
        && r.value.0 == O.Operation(
             chances.operationId, server.value.id, server.value.connectionId, request.action, O.Queued, request.key, true,
             "", "", "", at, None, None, at)
        && operations.rows == old(operations.rows)[chances.operationId := r.value.0]
        && jobs.rows == old(jobs.rows)[chances.jobId := J.Job(
             J.PowerOperation, chances.operationId, J.Queued, 0, chances.maxAttempts, at, None, None, "", at, at)]
      ensures r == Err(QueueFailed) || r == Err(AuditFailed) ==>
        Client(c).value.Owner? && Client(c).value.stage == if chances.undone then Replied(false) else Forsaken
    {
      hide After, O.Inv, TimeValue, O.FindByKey, O.HasActive, Admissible;
      var _ := world.Ask();
      var at := TimeValue(world.now);
      ghost var zero := world.run;
      var admitted := Admit(c, request, server, chances, at);
      if admitted.Err? {
        return Err(admitted.error);
      }
      if admitted.value.Some? {
        return Ok((admitted.value.value, false));
      }
      ghost var one := world.run;
      AdmittedHasServer(server, request.action);
      CreatesExactly(operations.rows, jobs.rows, request, server, chances);
      NewRow(chances.operationId, server.value, request, at);
      r := Place(c, request, NewOperation(chances.operationId, server.value, request, at), chances, at);
      RequestRunTwice(zero, one, world.run, c);
    }

    /** From the insert on. */
    method Place(c: nat, request: Request, operation: O.Operation, chances: Chances, at: string)
      returns (r: Result<(O.Operation, bool), Refusal>)
      requires Valid() && Client(c) == Some(Admitted(request, operation)) && chances.maxAttempts >= 1
      requires O.FindByKey(operations.rows, operation.key).None?
      modifies world`run, operations, jobs
      ensures Valid() && RequestRun(old(world.run), world.run, c)
      ensures Client(c).Some? && Client(c).value.request == request && r != Err(Rejected)
      ensures Reply(Client(c).value) == if r.Ok? then Some((r.value.0.id, r.value.1)) else None
      ensures r.Ok? <==>
        && chances.created && !O.HasActive(old(operations.rows), operation.serverId) && operation.id !in old(operations.rows)
        && chances.jobStored && operation.id != "" && chances.jobId !in old(jobs.rows) && chances.auditStored
      ensures r.Ok? ==>
        && r.value == (O.QueuedRow(operation), true)
        && operations.rows == old(operations.rows)[operation.id := r.value.0]
        && jobs.rows == old(jobs.rows)[
             chances.jobId := J.InitialRow(J.PowerOperation, operation.id, chances.maxAttempts, at)]
      ensures r == Err(QueueFailed) || r == Err(AuditFailed) ==>
        Client(c).value.Owner? && Client(c).value.stage == if chances.undone then Replied(false) else Forsaken
    {
      hide After, O.Inv, O.FindByKey, O.HasActive;
      ghost var one := world.run;
      var inserted := Insert(c, request, operation, chances.created);
      if inserted.Err? {
        return Err(Refusal.Table(inserted.error));
      }
      ghost var two := world.run;
      r := QueueAndAudit(c, request, inserted.value.0, chances, at);
      RequestRunTwice(one, two, world.run, c);
    }

    method QueueAndAudit(c: nat, request: Request, operation: O.Operation, chances: Chances, at: string)
      returns (r: Result<(O.Operation, bool), Refusal>)
      requires Valid() && Client(c) == Some(Owner(request, operation.id, false, Created)) && chances.maxAttempts >= 1
      modifies world`run, operations, jobs
      ensures Valid() && RequestRun(old(world.run), world.run, c)
      ensures r == Ok((operation, true)) || r == Err(QueueFailed) || r == Err(AuditFailed)
      ensures r == Err(QueueFailed) <==> !(chances.jobStored && operation.id != "" && chances.jobId !in old(jobs.rows))
      ensures r.Ok? ==> chances.auditStored
      ensures r == Err(AuditFailed) ==> !chances.auditStored
      ensures jobs.rows == if r == Err(QueueFailed) then old(jobs.rows)
        else old(jobs.rows)[chances.jobId := J.InitialRow(J.PowerOperation, operation.id, chances.maxAttempts, at)]
      ensures operations.rows == if r.Ok? || !chances.undone then old(operations.rows)
        else O.MoveRow(old(operations.rows), operation.id, O.Failed, Compensation(r == Err(AuditFailed), at)).0
      ensures Client(c) == Some(Owner(request, operation.id, r != Err(QueueFailed),
                                      if r.Ok? then Replied(true) else if chances.undone then Replied(false) else Forsaken))
    {
      hide After, O.Inv, O.MoveRow;
      ghost var zero := world.run;
      var queued := EnqueueJob(c, request, operation.id, chances, at);
      ghost var one := world.run;
      if !queued {
        Compensate(c, request, operation.id, false, at, chances.undone);
        RequestRunTwice(zero, one, world.run, c);
        return Err(QueueFailed);
      }
      RecordAudit(c, request, operation.id, chances.auditStored);
      ghost var two := world.run;
      RequestRunTwice(zero, one, two, c);
      if !chances.auditStored {
        Compensate(c, request, operation.id, true, at, chances.undone);
        RequestRunTwice(zero, two, world.run, c);
        return Err(AuditFailed);
      }
      return Ok((operation, true));
    }
  }

  lemma CreatesExactly(ops: O.Table, jobs: J.Table, request: Request, server: Option<Server>, chances: Chances)
    requires Admissible(server, request.action)
    ensures Creates(ops, jobs, request, server, chances) <==>
      && chances.lookedUp && O.FindByKey(ops, request.key).None?
      && chances.created && !O.HasActive(ops, server.value.id) && chances.operationId !in ops
      && chances.jobStored && chances.operationId != "" && chances.jobId !in jobs && chances.auditStored
  {
  }

  lemma NewRow(id: string, server: Server, request: Request, at: string)
    ensures O.QueuedRow(NewOperation(id, server, request, at)) == O.Operation(
      id, server.id, server.connectionId, request.action, O.Queued, request.key, true, "", "", "", at, None, None, at)
  {
  }

  lemma AdmittedHasServer(server: Option<Server>, action: O.Action)
    requires Admissible(server, action)
    ensures server.Some?
  {
  }

  /** `later` continues `run` with steps of request `c` alone. */
  ghost predicate RequestRun(run: seq<Label>, later: seq<Label>, c: nat) {
    run <= later && forall i :: |run| <= i < |later| ==> HasClient(later[i]) && later[i].client == c
  }

  lemma RequestRunMore(run: seq<Label>, later: seq<Label>, c: nat, l: Label)
    requires RequestRun(run, later, c) && HasClient(l) && l.client == c
    ensures RequestRun(run, later + [l], c)
  {
  }

  lemma RequestRunTwice(zero: seq<Label>, one: seq<Label>, two: seq<Label>, c: nat)
    requires RequestRun(zero, one, c) && RequestRun(one, two, c)
    ensures RequestRun(zero, two, c)
  {
    forall i | |zero| <= i < |two|
      ensures HasClient(two[i]) && two[i].client == c
    {
      if i < |one| {
        assert two[i] == one[i];
      }
    }
  }
}
