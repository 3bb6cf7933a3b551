/** The requests that create and open a console session, over the table and the in-memory
    target store. */
module ConsoleService {
  import opened Wrappers
  import opened TimeText
  import opened Console

  class MemoryTargetStore {
    var targets: map<string, string>

    constructor ()
      ensures targets == map[]
    {
      targets := map[];
    }

    method Put(id: string, target: string)
      modifies this
      ensures targets == old(targets)[id := target]
    {
      targets := targets[id := target];
    }

    /** Hands a target out and forgets it. */
    method Take(id: string) returns (target: Option<string>)
      modifies this
      ensures target == if id in old(targets) then Some(old(targets)[id]) else None
      ensures targets == old(targets) - {id}
    {
      target := if id in targets then Some(targets[id]) else None;
      targets := targets - {id};
    }

    method Delete(id: string)
      modifies this
      ensures targets == old(targets) - {id}
    {
      targets := targets - {id};
    }
  }

  class Service {
    const sessions: Repository
    const targets: MemoryTargetStore
    const ticketTTL: nat

    constructor (sessions: Repository, targets: MemoryTargetStore, ticketTTL: nat)
      ensures this.sessions == sessions && this.targets == targets && this.ticketTTL == ticketTTL
    {
      this.sessions, this.targets, this.ticketTTL := sessions, targets, ticketTTL;
    }

    /** From the insert on; `target` was validated before, `id` and `hash` are new.  Either the
        session is pending with its target until the ticket's lifetime is over, or, if the
        audit append fails, the target is gone and the session is closed as failed, unless
        that statement, whose error is discarded, fails too. */
    method CreateEmbedded(id: string, serverId: string, hash: string, target: string, now: Instant, inserted: bool,
                          audited: bool, closing: bool)
      returns (r: Result<Instant, Error>)
      requires sessions.Valid()
      modifies sessions, targets
      ensures sessions.Valid()
      ensures
        var before, after := old(sessions.rows), sessions.rows;
        var free := inserted && id !in before && forall other :: other in before ==> before[other].ticketHash != hash;
        var pending := Session(id, serverId, hash, TimeValue(now + ticketTTL), None, None, Pending, TimeValue(now));
        && (r.Ok? <==> free && audited)
        && (r.Ok? ==> r.value == now + ticketTTL && after == before[id := pending]
                      && targets.targets == old(targets.targets)[id := target])
        && (free && !audited ==>
              && after == before[id := if closing then pending.(closedAt := Some(TimeValue(now)), outcome := Failed) else pending]
              && targets.targets == old(targets.targets) - {id})
        && (!free ==> after == before && targets.targets == old(targets.targets))
    {
      hide TimeValue;
      if !inserted {
        return Err(StorageFailed);
      }
      var row := Session(id, serverId, hash, TimeValue(now + ticketTTL), None, None, Pending, TimeValue(now));
      var created := sessions.Create(row);
      if created.Err? {
        return Err(created.error);
      }
      targets.Put(id, target);
      if !audited {
        targets.Delete(id);
        if closing {
          var _ := sessions.Close(id, Failed, TimeValue(now));
        }
        return Err(StorageFailed);
      }
      return Ok(now + ticketTTL);
    }
  }

  datatype Reply = Unauthorized | Gone | NotAccepted | Served(target: string, outcome: Outcome)

  class Gateway {
    const sessions: Repository
    const targets: MemoryTargetStore

    constructor (sessions: Repository, targets: MemoryTargetStore)
      ensures this.sessions == sessions && this.targets == targets
    {
      this.sessions, this.targets := sessions, targets;
    }

    /** `consumed` and `closing` say whether the two statements on the row succeed, `accepted`
        and `outcome` what the browser and the proxy made of it.  Whatever happens after the
        ticket is consumed, the target is no longer in the store, and the session is closed
        unless the closing statement fails; its error is discarded. */
    method Open(hash: string, at: Instant, consumed: bool, accepted: bool, outcome: Outcome, closing: bool, closedAt: string)
      returns (reply: Reply)
      requires sessions.Valid() && !outcome.Pending? && !outcome.Active?
      modifies sessions, targets
      ensures sessions.Valid()
      ensures reply.Unauthorized? <==> !consumed || forall id :: !Consumes(old(sessions.rows), hash, at, id)
      ensures reply.Unauthorized? ==> sessions.rows == old(sessions.rows) && targets.targets == old(targets.targets)
      ensures !reply.Unauthorized? ==> exists id ::
        && Consumes(old(sessions.rows), hash, at, id)
        && targets.targets == old(targets.targets) - {id}
        && reply == (if id !in old(targets.targets) then Gone
                     else if !accepted then NotAccepted
                     else Served(old(targets.targets)[id], outcome))
        && var active := old(sessions.rows)[id].(openedAt := Some(TimeValue(at)), outcome := Active);
           sessions.rows == old(sessions.rows)[
             id := if closing then active.(closedAt := Some(closedAt), outcome := if reply.Served? then outcome else Failed)
                   else active]
    {
      hide TimeValue, Opens;
      if !consumed {
        return Unauthorized;
      }
      var session := sessions.ConsumeTicket(hash, at);
      if session.Err? {
        return Unauthorized;
      }
      var id := session.value.id;
      ConsumedIsOpen(sessions.rows, session.value);
      var target := targets.Take(id);
      reply := if target.None? then Gone else if !accepted then NotAccepted else Served(target.value, outcome);
      if closing {
        var _ := sessions.Close(id, if reply.Served? then outcome else Failed, closedAt);
      }
    }
  }

  lemma ConsumedIsOpen(rows: Table, row: Session)
    requires Inv(rows) && row.id in rows && rows[row.id] == row && row.outcome.Active?
    ensures row.closedAt.None?
  {
  }
}
