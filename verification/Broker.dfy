/** The event broker: bounded streams that are closed rather than left with a gap.  Every
    method runs under the broker's mutex, so a run is a sequence of these calls. */
module Broker {
  import opened Wrappers

  datatype Event = Event(id: nat, kind: string, data: string)

  /** A client's channel.  `since` counts the events published before the subscription;
      `received` is what the client has read. */
  class Stream {
    const capacity: nat
    var buffered: seq<Event>
    var closed: bool
    ghost const id: nat
    ghost const since: nat
    ghost var received: seq<Event>

    constructor (capacity: nat, ghost id: nat, ghost since: nat)
      ensures this.capacity == capacity && this.id == id && this.since == since
      ensures buffered == [] && received == [] && !closed
    {
      this.capacity, this.id, this.since := capacity, id, since;
      buffered, received, closed := [], [], false;
    }

    /** What the client has read and can still read. */
    ghost function Delivered(): seq<Event>
      reads this
    {
      received + buffered
    }

    /** The next event, or none if the buffer is empty. */
    method Receive() returns (event: Option<Event>)
      modifies this`buffered, this`received
      ensures Delivered() == old(Delivered())
      ensures event.None? <==> old(buffered) == []
      ensures |buffered| <= |old(buffered)|
      ensures event.Some? ==> received == old(received) + [event.value]
    {
      if buffered == [] {
        return None;
      }
      var next := buffered[0];
      assert received + buffered == received + [next] + buffered[1..];
      received := received + [next];
      buffered := buffered[1..];
      return Some(next);
    }

    /** close(stream): closing twice would panic. */
    method Close()
      requires !closed
      modifies this`closed
      ensures closed
    {
      closed := true;
    }
  }

  /** `delivered` is a gap-free run of the log that starts right after the subscription,
      and reaches the latest event if the stream is still open. */
  ghost predicate IsRun(log: seq<Event>, since: nat, delivered: seq<Event>, open: bool) {
    && since + |delivered| <= |log|
    && delivered == log[since..since + |delivered|]
    && (open ==> since + |delivered| == |log|)
  }

  /** Ids count from one without a hole. */
  ghost predicate Numbered(log: seq<Event>) {
    forall i :: 0 <= i < |log| ==> log[i].id == i + 1
  }

  ghost predicate Registered(clients: map<nat, Stream>, s: Stream) {
    s.id in clients && clients[s.id] == s
  }

  ghost predicate ClientsOk(clients: map<nat, Stream>, streams: set<Stream>, last: nat) {
    forall id :: id in clients ==> clients[id] in streams && clients[id].id == id && id <= last
  }

  lemma FewerClients(clients: map<nat, Stream>, streams: set<Stream>, last: nat, fewer: map<nat, Stream>)
    requires ClientsOk(clients, streams, last)
    requires fewer.Keys <= clients.Keys && forall id :: id in fewer ==> fewer[id] == clients[id]
    ensures ClientsOk(fewer, streams, last)
  {
  }

  class Broker {
    const bufferSize: nat
    var nextEventID: nat
    var nextClient: nat
    var clients: map<nat, Stream>
    /** Every stream ever handed out, and every event ever published. */
    ghost var streams: set<Stream>
    ghost var log: seq<Event>

    constructor (bufferSize: int)
      ensures Valid() && fresh(streams) && log == [] && clients == map[]
      ensures this.bufferSize == if bufferSize < 1 then 16 else bufferSize
    {
      this.bufferSize := if bufferSize < 1 then 16 else bufferSize;
      nextEventID, nextClient, clients, streams, log := 0, 0, map[], {}, [];
    }

    ghost predicate Valid()
      reads this, streams
    {
      && bufferSize >= 1
      && nextEventID == |log| && Numbered(log)
      && ClientsOk(clients, streams, nextClient)
      && (forall s :: s in streams ==> IsRun(log, s.since, s.Delivered(), !s.closed))
      && (forall s :: s in streams ==> (s.closed <==> !Registered(clients, s)) && |s.buffered| <= s.capacity == bufferSize)
    }

    /** Publishing extends every registered stream by the event, or closes and forgets it
        when its buffer is full. */
    method Publish(kind: string, data: string)
      requires Valid()
      modifies this, streams
      ensures Valid() && streams == old(streams)
      ensures log == old(log) + [Event(|old(log)| + 1, kind, data)]
      ensures forall s :: s in streams ==>
        && (s.closed <==> old(s.closed) || |old(s.buffered)| >= bufferSize)
        && s.Delivered() == old(s.Delivered()) + (if s.closed then [] else [Event(|old(log)| + 1, kind, data)])
    {
      nextEventID := nextEventID + 1;
      var event := Event(nextEventID, kind, data);
      NextNumber(log, event);
      hide IsRun, Numbered, Registered, ClientsOk, Stream.Delivered;
      SendAll(event);
      log := log + [event];
    }

    /** Send, seen from the readers. */
    method SendAll(event: Event)
      requires ClientsOk(clients, streams, nextClient)
      requires forall s :: s in streams ==> (s.closed <==> !Registered(clients, s))
      requires forall s :: s in streams ==> |s.buffered| <= bufferSize && IsRun(log, s.since, s.Delivered(), !s.closed)
      modifies this`clients, streams
      ensures ClientsOk(clients, streams, nextClient)
      ensures forall s :: s in streams ==>
        && |s.buffered| <= bufferSize && IsRun(log + [event], s.since, s.Delivered(), !s.closed)
        && (s.closed <==> !Registered(clients, s))
      ensures forall s :: s in streams ==>
        && (s.closed <==> old(s.closed) || |old(s.buffered)| >= bufferSize)
        && s.Delivered() == old(s.Delivered()) + (if s.closed then [] else [event])
    {
      Send(event);
      FewerClients(old(clients), streams, nextClient, clients);
      hide IsRun, ClientsOk;
      forall s | s in streams
        ensures s.Delivered() == old(s.Delivered()) + (if s.closed then [] else [event])
        ensures IsRun(log + [event], s.since, s.Delivered(), !s.closed)
      {
        Regroup(old(s.received), old(s.buffered), event);
        OneMoreEvent(log, event, s.since, old(s.Delivered()), old(!s.closed), !s.closed);
      }
    }

    /** The loop over the registered streams: send, or close and forget. */
    method Send(event: Event)
      requires forall id :: id in clients ==> clients[id] in streams && clients[id].id == id && !clients[id].closed
      requires forall s :: s in streams && !s.closed ==> Registered(clients, s)
      modifies this`clients, streams
      ensures clients.Keys <= old(clients).Keys && forall id :: id in clients ==> clients[id] == old(clients)[id]
      ensures forall s :: s in streams ==>
        s.received == old(s.received) &&
        if old(s.closed) then s.closed && s.buffered == old(s.buffered) && (s.id in clients ==> s.id in old(clients))
        else if |old(s.buffered)| < bufferSize then s.id in clients && !s.closed && s.buffered == old(s.buffered) + [event]
        else s.id !in clients && s.closed && s.buffered == old(s.buffered)
    {
      var pending := clients.Keys;
      while pending != {}
        invariant pending <= clients.Keys <= old(clients).Keys
        invariant forall id :: id in clients ==> clients[id] == old(clients)[id]
        invariant forall s :: s in streams ==> s.received == old(s.received)
        invariant forall s :: s in streams ==>
          if old(s.closed) || s.id in pending then s.buffered == old(s.buffered) && s.closed == old(s.closed)
          else if |old(s.buffered)| < bufferSize then s.id in clients && !s.closed && s.buffered == old(s.buffered) + [event]
          else s.id !in clients && s.closed && s.buffered == old(s.buffered)
        decreases pending
      {
        var id :| id in pending;
        var stream := clients[id];
        if |stream.buffered| < bufferSize {
          stream.buffered := stream.buffered + [event];
        } else {
          stream.Close();
          clients := clients - {id};
        }
        pending := pending - {id};
      }
    }

    method Subscribe() returns (id: nat, stream: Stream)
      requires Valid()
      modifies this
      ensures Valid() && fresh(stream) && streams == old(streams) + {stream}
      ensures id !in old(clients) && clients == old(clients)[id := stream]
      ensures log == old(log) && stream.Delivered() == [] && stream.since == |log|
    {
      EmptyRun(log);
      hide IsRun;
      nextClient := nextClient + 1;
      id := nextClient;
      stream := new Stream(bufferSize, id, |log|);
      clients := clients[id := stream];
      streams := streams + {stream};
    }

    /** The subscriber's context ended. */
    method Cancel(id: nat)
      requires Valid()
      modifies this`clients, streams
      ensures Valid() && clients == old(clients) - {id}
      ensures id in old(clients) ==> old(clients)[id].closed
      ensures forall s :: s in streams ==> s.Delivered() == old(s.Delivered())
    {
      StillRuns(log);
      hide IsRun;
      if id in clients {
        var current := clients[id];
        current.Close();
        clients := clients - {id};
      }
    }

    /** A client reads. */
    method Consume(stream: Stream) returns (event: Option<Event>)
      requires Valid() && stream in streams
      modifies stream
      ensures Valid()
      ensures event.Some? ==> event.value.id == stream.since + |old(stream.received)| + 1
      ensures event.None? ==> old(stream.buffered) == []
    {
      assert stream.Delivered() == log[stream.since..stream.since + |stream.Delivered()|];
      hide IsRun;
      ghost var delivered := stream.Delivered();
      event := stream.Receive();
      assert event.Some? ==> delivered[|old(stream.received)|] == event.value;
    }
  }

  /** A run of the log stays one, and is extended to the new end if it was open. */
  lemma OneMoreEvent(log: seq<Event>, event: Event, since: nat, delivered: seq<Event>, wasOpen: bool, open: bool)
    requires IsRun(log, since, delivered, wasOpen) && (open ==> wasOpen)
    ensures IsRun(log + [event], since, delivered + (if open then [event] else []), open)
  {
  }

  lemma NextNumber(log: seq<Event>, event: Event)
    requires Numbered(log) && event.id == |log| + 1
    ensures Numbered(log + [event])
  {
  }

  lemma Regroup(received: seq<Event>, buffered: seq<Event>, event: Event)
    ensures received + (buffered + [event]) == (received + buffered) + [event]
    ensures received + buffered == (received + buffered) + []
  {
  }

  lemma EmptyRun(log: seq<Event>)
    ensures IsRun(log, |log|, [], true)
  {
  }

  /** Closing a stream loses nothing that was delivered. */
  lemma StillRuns(log: seq<Event>)
    ensures forall since: nat, delivered :: IsRun(log, since, delivered, true) ==> IsRun(log, since, delivered, false)
  {
  }
}
