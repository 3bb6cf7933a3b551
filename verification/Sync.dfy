/** SyncConnection: the bounded collection loop in front of the inventory transaction. */
module Sync {
  import opened Wrappers
  import P = Providers
  import I = Inventory

  datatype Page<C> = Page(servers: seq<I.Remote>, next: Option<C>)

  /** What ListServers answers to the k-th call, and to which cursor. */
  type Listing<!C> = (nat, Option<C>) -> Result<Page<C>, P.Error>

  // ----- normalizeServer

  /** Everything outside this code: generated ids, and the portal address or its error. */
  datatype World = World(ids: nat -> string, portal: I.Remote -> Result<string, P.Error>)

  function PortalOf(world: World, remote: I.Remote): Result<Option<string>, P.Error> {
    if !remote.hasPortal then Ok(None)
    else
      var portal := world.portal(remote);
      if portal.Ok? then Ok(Some(portal.value)) else Err(portal.error)
  }

  predicate Normalises(world: World, remote: I.Remote) {
    remote.externalId != "" && remote.name != "" && PortalOf(world, remote).Ok?
  }

  function Normal(world: World, connectionId: string, at: string, remote: I.Remote, id: string): I.Server
    requires Normalises(world, remote)
  {
    I.Server(id, connectionId, remote.externalId, remote.scope, remote.name, I.NormalState(remote.state),
             remote.remoteState, remote.spec, remote.addresses, remote.capabilities, PortalOf(world, remote).value,
             at, at, at, at)
  }

  /** Why one server stops the sync. */
  predicate Refuses(world: World, remote: I.Remote, error: P.Error) {
    if remote.externalId == "" || remote.name == "" then error == P.Error(false, "", "", false)
    else remote.hasPortal && world.portal(remote) == Err(error)
  }

  /** The first server that does not normalise refuses with this error. */
  ghost predicate FirstRefuses(world: World, page: seq<I.Remote>, error: P.Error) {
    exists i :: 0 <= i < |page| && Refuses(world, page[i], error) && forall j :: 0 <= j < i ==> Normalises(world, page[j])
  }

  // ----- pages

  /** The cursor of the k-th call, while the calls before it succeeded. */
  function CursorAt<C>(list: Listing<C>, k: nat): Option<C> {
    if k == 0 then None
    else
      var page := list(k - 1, CursorAt(list, k - 1));
      if page.Ok? then page.value.next else None
  }

  function Answer<C>(list: Listing<C>, k: nat): Result<Page<C>, P.Error> {
    list(k, CursorAt(list, k))
  }

  /** The first `n` pages succeeded and none of them was the last. */
  ghost predicate Open<C(!new)>(list: Listing<C>, n: nat) {
    forall k: nat :: k < n ==> Answer(list, k).Ok? && Answer(list, k).value.next.Some?
  }

  /** The traversal ends with its n-th page. */
  ghost predicate Ends<C(!new)>(list: Listing<C>, n: nat) {
    n >= 1 && Open(list, n - 1) && Answer(list, n - 1).Ok? && Answer(list, n - 1).value.next.None?
  }

  /** The servers of the first `n` pages, in order. */
  function Remotes<C>(list: Listing<C>, n: nat): seq<I.Remote> {
    if n == 0 then []
    else Remotes(list, n - 1) + if Answer(list, n - 1).Ok? then Answer(list, n - 1).value.servers else []
  }

  function NormalAll(world: World, connectionId: string, at: string, remotes: seq<I.Remote>): seq<I.Server>
    requires forall i :: 0 <= i < |remotes| ==> Normalises(world, remotes[i])
  {
    seq(|remotes|, i requires 0 <= i < |remotes| => Normal(world, connectionId, at, remotes[i], world.ids(i)))
  }

  ghost predicate AllNormalise(world: World, remotes: seq<I.Remote>) {
    forall i :: 0 <= i < |remotes| ==> Normalises(world, remotes[i])
  }

  /** The inventory may be replaced by the first `n` pages. */
  ghost predicate Complete<C(!new)>(list: Listing<C>, world: World, n: nat) {
    && n <= 1000 && Ends(list, n) && |Remotes(list, n)| <= 10000 && AllNormalise(world, Remotes(list, n))
  }

  /** The first `k` pages were taken and then the collection failed with this error: at the
      1000th page, at a page that was not answered, at one server too many, or at a server
      that does not normalise. */
  ghost predicate Stops<C(!new)>(list: Listing<C>, world: World, k: nat, error: P.Error) {
    && Open(list, k) && |Remotes(list, k)| <= 10000 && AllNormalise(world, Remotes(list, k))
    && if k == 1000 then error == P.Error(true, "provider_error", "provider pagination exceeds 1000 pages", false)
       else if Answer(list, k).Err? then error == Answer(list, k).error
       else if |Remotes(list, k)| + |Answer(list, k).value.servers| > 10000
       then error == P.Error(true, "provider_error", "provider inventory exceeds 10000 servers", false)
       else FirstRefuses(world, Answer(list, k).value.servers, error)
  }

  lemma OnePageMore<C(!new)>(list: Listing<C>, k: nat)
    requires Open(list, k) && Answer(list, k).Ok?
    ensures Remotes(list, k + 1) == Remotes(list, k) + Answer(list, k).value.servers
    ensures CursorAt(list, k + 1) == Answer(list, k).value.next
    ensures Answer(list, k).value.next.Some? ==> Open(list, k + 1)
    ensures Answer(list, k).value.next.None? ==> Ends(list, k + 1)
  {
  }

  lemma {:induction false} RemotesGrow<C(!new)>(list: Listing<C>, m: nat, n: nat)
    requires m <= n
    ensures |Remotes(list, m)| <= |Remotes(list, n)| && Remotes(list, m) == Remotes(list, n)[..|Remotes(list, m)|]
    decreases n
  {
    if m < n {
      RemotesGrow(list, m, n - 1);
    }
  }

  /** A traversal has one end. */
  lemma OneEnd<C(!new)>(list: Listing<C>, m: nat, n: nat)
    requires Ends(list, m) && (Ends(list, n) || Open(list, n))
    ensures Ends(list, n) ==> m == n
    ensures Open(list, n) ==> n < m
  {
  }

  lemma PageOfAnEnd<C(!new)>(list: Listing<C>, n: nat, k: nat)
    requires Ends(list, n) && k < n
    ensures Open(list, k) && Answer(list, k).Ok? && (Answer(list, k).value.next.None? <==> k == n - 1)
  {
    if k < n - 1 {
      assert Answer(list, k).value.next.Some?;
    }
  }

  // ----- failures

  function HealthStatus(error: P.Error): (string, string, string) {
    if !error.classified then ("offline", "provider_error", "Provider synchronization failed")
    else (if error.retryable then "degraded" else "offline", error.code, error.message)
  }

  /** UpdateHealth: a deleted or missing connection is left alone. */
  function HealthRecorded(connections: I.Connections, id: string, error: P.Error, at: string): I.Connections {
    if !I.Live(connections, id) then connections
    else
      var (health, code, message) := HealthStatus(error);
      connections[id := connections[id].(health := health, errorCode := code, errorMessage := message,
                                         lastTestedAt := Some(at), updatedAt := at)]
  }

  const TOO_MANY_SERVERS := P.Error(true, "provider_error", "provider inventory exceeds 10000 servers", false)
  const TOO_MANY_PAGES := P.Error(true, "provider_error", "provider pagination exceeds 1000 pages", false)

  datatype Failure = NotFound | Disabled | Decryption | Provider(error: P.Error) | Table(reason: I.Error)

  class Syncer<C(!new)> {
    const inventory: I.Repository
    const world: World

    constructor (inventory: I.Repository, world: World)
      ensures this.inventory == inventory && this.world == world
    {
      this.inventory, this.world := inventory, world;
    }

    method RecordFailure(connectionId: string, error: P.Error, at: string) returns (r: Result<(), Failure>)
      modifies inventory`connections
      ensures r == Err(Provider(error))
      ensures inventory.connections == HealthRecorded(old(inventory.connections), connectionId, error, at)
      ensures
        var before := old(inventory.connections);
        if connectionId !in before || before[connectionId].deletedAt.Some? then inventory.connections == before
        else
          && inventory.connections.Keys == before.Keys
          && (forall other :: other in before && other != connectionId ==> inventory.connections[other] == before[other])
          && var now := inventory.connections[connectionId];
          && now == before[connectionId].(health := now.health, errorCode := now.errorCode, errorMessage := now.errorMessage,
                                          lastTestedAt := Some(at), updatedAt := at)
          && now.health == (if error.classified && error.retryable then "degraded" else "offline")
          && now.errorCode == (if error.classified then error.code else "provider_error")
          && now.errorMessage == (if error.classified then error.message else "Provider synchronization failed")
    {
      if connectionId in inventory.connections && inventory.connections[connectionId].deletedAt.None? {
        var (health, code, message) := HealthStatus(error);
        var connection := inventory.connections[connectionId];
        connection := connection.(health := health, errorCode := code, errorMessage := message);
        connection := connection.(lastTestedAt := Some(at), updatedAt := at);
        inventory.connections := inventory.connections[connectionId := connection];
      }
      return Err(Provider(error));
    }

    /** The servers of one page, appended one by one. */
    method Append(connectionId: string, at: string, page: seq<I.Remote>, servers: seq<I.Server>, ghost before: seq<I.Remote>)
      returns (r: Result<seq<I.Server>, P.Error>)
      requires AllNormalise(world, before) && servers == NormalAll(world, connectionId, at, before)
      ensures r.Ok? <==> AllNormalise(world, page)
      ensures r.Ok? <==> forall i :: 0 <= i < |page| ==>
        page[i].externalId != "" && page[i].name != "" && (page[i].hasPortal ==> world.portal(page[i]).Ok?)
      ensures r.Err? ==> FirstRefuses(world, page, r.error)
      ensures r.Ok? ==>
        AllNormalise(world, before + page) && r.value == NormalAll(world, connectionId, at, before + page)
      ensures r.Ok? ==> forall i :: 0 <= i < |page| ==>
        var server, remote := r.value[|before| + i], page[i];
        && server.id == world.ids(|before| + i) && server.connectionId == connectionId
        && server.externalId == remote.externalId && server.scope == remote.scope && server.name == remote.name
        && server.state == I.NormalState(remote.state) && server.remoteState == remote.remoteState
        && server.spec == remote.spec && server.addresses == remote.addresses && server.capabilities == remote.capabilities
        && server.portalUrl == (if remote.hasPortal then Some(world.portal(remote).value) else None)
        && server.lastSeenAt == server.lastStateCheckedAt == server.createdAt == server.updatedAt == at
    {
      var collected := servers;
      for i := 0 to |page|
        invariant AllNormalise(world, before + page[..i])
        invariant collected == NormalAll(world, connectionId, at, before + page[..i])
        invariant forall k :: 0 <= k < i ==> Normalises(world, page[k])
      {
        var remote := page[i];
        if remote.externalId == "" || remote.name == "" {
          return Err(P.LOCAL);
        }
        var portal := PortalOf(world, remote);
        if portal.Err? {
          return Err(portal.error);
        }
        assert before + page[..i + 1] == before + page[..i] + [remote];
        collected := collected + [Normal(world, connectionId, at, remote, world.ids(|collected|))];
      }
      assert page[..|page|] == page;
      return Ok(collected);
    }

    /** `validated` is the outcome of building the provider and ValidateConnection. */
    method SyncConnection(connectionId: string, decrypted: bool, validated: Result<(), P.Error>, list: Listing<C>,
                          at: string, failedAt: string)
      returns (r: Result<(), Failure>)
      requires inventory.Valid()
      modifies inventory
      ensures inventory.Valid()
      ensures
        var before := old(inventory.connections);
        var admitted := I.Live(before, connectionId) && before[connectionId].enabled && decrypted;
        && (!admitted ==>
              r.Err? && inventory.servers == old(inventory.servers) && inventory.connections == before)
        && (admitted && validated.Err? ==>
              && r == Err(Provider(validated.error)) && inventory.servers == old(inventory.servers)
              && inventory.connections == HealthRecorded(before, connectionId, validated.error, failedAt))
        && (admitted && validated.Ok? && !(exists n: nat :: Complete(list, world, n)) ==>
              && r.Err? && r.error.Provider? && inventory.servers == old(inventory.servers)
              && (exists k: nat :: k <= 1000 && Stops(list, world, k, r.error.error))
              && inventory.connections == HealthRecorded(before, connectionId, r.error.error, failedAt))
        && (admitted && validated.Ok? ==> forall n: nat :: Complete(list, world, n) ==>
              var snapshot := I.Snapshot(connectionId, at, NormalAll(world, connectionId, at, Remotes(list, n)));
              var applied := I.Synced(old(inventory.servers), before, snapshot);
              && (r.Ok? <==> applied.Ok?)
              && (inventory.servers, inventory.connections) ==
                 (if applied.Ok? then applied.value else (old(inventory.servers), before)))
    {
      if connectionId !in inventory.connections || inventory.connections[connectionId].deletedAt.Some? {
        return Err(NotFound);
      }
      if !inventory.connections[connectionId].enabled {
        return Err(Disabled);
      }
      if !decrypted {
        return Err(Decryption);
      }
      if validated.Err? {
        r := RecordFailure(connectionId, validated.error, failedAt);
        return;
      }
      var collected := Collect(connectionId, at, list);
      if collected.Err? {
        r := RecordFailure(connectionId, collected.error, failedAt);
        return;
      }
      ghost var end :| Complete(list, world, end) && collected.value == NormalAll(world, connectionId, at, Remotes(list, end));
      forall n | Complete(list, world, n)
        ensures n == end
      {
        OneEnd(list, n, end);
      }
      var applied := inventory.ApplyCompleteSync(I.Snapshot(connectionId, at, collected.value));
      return if applied.Ok? then Ok(()) else Err(Table(applied.error));
    }

    /** The collection loop. */
    method Collect(connectionId: string, at: string, list: Listing<C>) returns (r: Result<seq<I.Server>, P.Error>)
      ensures r.Ok? <==> exists n: nat :: Complete(list, world, n)
      ensures r.Err? ==> exists k: nat :: k <= 1000 && Stops(list, world, k, r.error)
      ensures r.Ok? ==> exists n: nat ::
        Complete(list, world, n) && r.value == NormalAll(world, connectionId, at, Remotes(list, n))
    {
      var servers: seq<I.Server> := [];
      var cursor: Option<C> := None;
      for pageNumber := 0 to 1000
        invariant Open(list, pageNumber) && cursor == CursorAt(list, pageNumber)
        invariant |Remotes(list, pageNumber)| <= 10000 && AllNormalise(world, Remotes(list, pageNumber))
        invariant servers == NormalAll(world, connectionId, at, Remotes(list, pageNumber))
      {
        var page := list(pageNumber, cursor);
        if page.Err? {
          NotComplete(list, world, pageNumber);
          assert Stops(list, world, pageNumber, page.error);
          return Err(page.error);
        }
        if |servers| + |page.value.servers| > 10000 {
          NotComplete(list, world, pageNumber);
          assert Stops(list, world, pageNumber, TOO_MANY_SERVERS);
          return Err(TOO_MANY_SERVERS);
        }
        var appended := Append(connectionId, at, page.value.servers, servers, Remotes(list, pageNumber));
        if appended.Err? {
          NotComplete(list, world, pageNumber);
          assert Stops(list, world, pageNumber, appended.error);
          return Err(appended.error);
        }
        servers := appended.value;
        if page.value.next.None? {
          assert Ends(list, pageNumber + 1);
          assert Complete(list, world, pageNumber + 1);
          return Ok(servers);
        }
        cursor := page.value.next;
      }
      forall n: nat
        ensures !Complete(list, world, n)
      {
        if Ends(list, n) {
          OneEnd(list, n, 1000);
        }
      }
      assert Stops(list, world, 1000, TOO_MANY_PAGES);
      return Err(TOO_MANY_PAGES);
    }
  }

  /** Every page of a complete traversal succeeded, fitted and normalised. */
  lemma CompletePage<C(!new)>(list: Listing<C>, world: World, n: nat, k: nat)
    requires Complete(list, world, n) && Open(list, k)
    ensures Answer(list, k).Ok? && |Remotes(list, k + 1)| <= 10000
    ensures AllNormalise(world, Answer(list, k).value.servers)
  {
    OneEnd(list, n, k);
    RemotesGrow(list, k + 1, n);
    assert Answer(list, k).Ok? by {
      assert k == n - 1 || k < n - 1;
    }
    var servers := Answer(list, k).value.servers;
    forall i | 0 <= i < |servers|
      ensures Normalises(world, servers[i])
    {
      assert Remotes(list, k + 1)[|Remotes(list, k)| + i] == servers[i];
      assert Remotes(list, n)[|Remotes(list, k)| + i] == servers[i];
    }
  }

  /** So a page that does not rules completion out. */
  lemma NotComplete<C(!new)>(list: Listing<C>, world: World, k: nat)
    requires Open(list, k)
    requires
      || Answer(list, k).Err?
      || |Remotes(list, k + 1)| > 10000
      || !AllNormalise(world, Answer(list, k).value.servers)
    ensures forall n: nat :: !Complete(list, world, n)
  {
    forall n: nat
      ensures !Complete(list, world, n)
    {
      if Complete(list, world, n) {
        CompletePage(list, world, n, k);
      }
    }
  }
}
