/** The older client of src/bgg.rs. It asks the same two questions as the
    client of src/lib.rs, always of https://boardgamegeek.com, through the
    executor of src/bgg/request.rs (first wait one second), and reads a
    collection without looking for an error report. Ids are `usize` here,
    modelled as `nat`. */
module BggClient {
  import opened Errors
  import Request
  import BggRequest
  import opened Thing2
  import opened Things
  import opened Batching
  import Collection
  import Client

  /** The largest number of ids the API accepts in one `/thing` request. */
  const MAX_IDS: nat := 20

  const HOST := "https://boardgamegeek.com"

  /** A collection entry of src/bgg/collection.rs: `objectid` and name. */
  datatype CollectionItem = CollectionItem(id: nat, name: string)

  /** `from_xml` of src/bgg/collection.rs: the deserialiser's items, or its
      failure as an XML error; an error report in the body is not
      recognised as such. */
  function CollectionFromXml(xml: string, items: string -> Decoded<seq<CollectionItem>>): (r: Result<seq<CollectionItem>>)
    ensures r.Ok? <==> items(xml).Parsed?
    ensures r.Ok? ==> r.value == items(xml).value
    ensures r.Err? ==> r.error == XmlError(Collection.DESERIALIZE_ERROR + items(xml).reason)
  {
    Collection.Deserialized(items(xml))
  }

  /** One attempt of the `/collection` request. */
  function CollectionAttempt(reply: Client.Reply, items: string -> Decoded<seq<CollectionItem>>)
    : (a: Request.Attempt<Result<seq<CollectionItem>>>)
    ensures reply.Failed? ==> a == Err(reply.error)
    ensures reply.Replied? && reply.status == Request.OK && reply.body.Err? ==> a == Err(reply.body.error)
    ensures a.Ok? && a.value.Done? <==> reply.Replied? && reply.status == Request.OK && reply.body.Ok?
    ensures a.Ok? && a.value.Done? ==> a.value.value == CollectionFromXml(reply.body.value, items)
    ensures a.Ok? && a.value.NotDone? <==> reply.Replied? && reply.status != Request.OK
    ensures a.Ok? && a.value.NotDone? ==> a.value.status == reply.status
  {
    match reply
    case Failed(e) => Err(e)
    case Replied(status, body) =>
      if status == Request.OK then
        match body
        case Err(e) => Err(e)
        case Ok(xml) => Ok(Request.Done(CollectionFromXml(xml, items)))
      else Ok(Request.NotDone(status))
  }

  function CollectionExec(server: Client.Server, items: string -> Decoded<seq<CollectionItem>>)
    : nat -> Request.Attempt<Result<seq<CollectionItem>>>
  {
    (k: nat) => CollectionAttempt(server(k), items)
  }

  /** What `get_collection` returns against a given server. */
  function CollectionOutcome(server: Client.Server, items: string -> Decoded<seq<CollectionItem>>): Result<seq<CollectionItem>>
  {
    Client.Flattened(Request.Execute(CollectionExec(server, items), BggRequest.WAIT_SECONDS).result)
  }

  /** `get_collection`: the URL it requests and what it returns. */
  method GetCollection(user: string, includeExpansions: bool, server: Client.Server,
                       items: string -> Decoded<seq<CollectionItem>>)
    returns (r: Result<seq<CollectionItem>>, url: string)
    ensures url == Client.CollectionUrl(HOST, user, includeExpansions)
    ensures r == CollectionOutcome(server, items)
  {
    url := Client.CollectionUrl(HOST, user, includeExpansions);
    var settled, calls, sleeps := BggRequest.DoRequest(CollectionExec(server, items));
    r := Client.Flattened(settled);
  }

  /** A first reply of 200 settles the request with whatever the
      deserialiser made of the body, a failure included. */
  lemma CollectionSettlesOnOk(server: Client.Server, items: string -> Decoded<seq<CollectionItem>>, xml: string)
    requires server(0) == Client.Replied(Request.OK, Ok(xml))
    ensures CollectionOutcome(server, items) == CollectionFromXml(xml, items)
    ensures Request.Execute(CollectionExec(server, items), BggRequest.WAIT_SECONDS).calls == 1
  {
    Request.DoneReturnsAtOnce(CollectionExec(server, items), BggRequest.WAIT_SECONDS, CollectionFromXml(xml, items));
  }

  /** What `get_games_from_api` returns against a given server: the same
      attempt as the newer client's, under the one-second executor. */
  function GamesFromApi(server: Client.Server, x: ThingXml): Result<seq<Game>>
  {
    Request.Execute(Client.ThingExec(server, x), BggRequest.WAIT_SECONDS).result
  }

  /** The executor's result does not depend on its first wait, so against
      the same replies, and with both clients mapping items the same way,
      the two games requests return the same result; only the sleeps
      between attempts differ. */
  lemma GamesAsNewerClient(server: Client.Server, x: ThingXml)
    ensures GamesFromApi(server, x) == Client.GamesFromApi(server, x)
  {
    BggRequest.HalfTheWait(Client.ThingExec(server, x));
  }

  /** `get_games_from_api`: the URL it requests and what it returns. */
  method GetGamesFromApi(ids: seq<nat>, server: Client.Server, x: ThingXml)
    returns (r: Result<seq<Game>>, url: string)
    ensures url == Client.ThingUrl(HOST, ids)
    ensures r == GamesFromApi(server, x)
  {
    url := Client.ThingUrl(HOST, ids);
    var calls, sleeps;
    r, calls, sleeps := BggRequest.DoRequest(Client.ThingExec(server, x));
  }

  function BatchFetch(servers: nat -> Client.Server, x: ThingXml): (f: nat -> Result<seq<Game>>)
    ensures forall c :: f(c) == GamesFromApi(servers(c), x)
  {
    (c: nat) => GamesFromApi(servers(c), x)
  }

  /** The games of the first `n` batches laid end to end, or the error of
      the first batch that failed. */
  function FetchGames(n: nat, servers: nat -> Client.Server, x: ThingXml): Result<seq<Game>>
  {
    FetchAll(BatchFetch(servers, x), n)
  }

  /** `f` gives, for each batch, the outcome of its request against its server. */
  ghost predicate FetchesFrom(f: nat -> Result<seq<Game>>, servers: nat -> Client.Server, x: ThingXml)
  {
    forall c {:trigger GamesFromApi(servers(c), x)} :: f(c) == GamesFromApi(servers(c), x)
  }

  /** One `/thing` request of `get_games`: batch `c` against its server,
      whose outcome `f(c)` stands for. */
  method FetchBatch(ids: seq<nat>, c: nat, servers: nat -> Client.Server, x: ThingXml,
                    ghost f: nat -> Result<seq<Game>>)
    returns (part: Result<seq<Game>>, url: string)
    requires FetchesFrom(f, servers, x)
    ensures url == Client.ThingUrl(HOST, ids)
    ensures part == f(c)
  {
    part, url := GetGamesFromApi(ids, servers(c), x);
  }

  /** The loop of `get_games`: one `/thing` request per batch, in order,
      stopping at the first failed batch. It is stated against `f`, the
      outcome of each batch's request. */
  method FetchBatches(batches: seq<seq<nat>>, servers: nat -> Client.Server, x: ThingXml,
                      ghost f: nat -> Result<seq<Game>>)
    returns (r: Result<seq<Game>>, urls: seq<string>, count: nat)
    requires FetchesFrom(f, servers, x)
    ensures r == FetchAll(f, |batches|)
    ensures |urls| <= |batches| && urls == Client.ThingUrls(HOST, batches[..|urls|])
    ensures r.Ok? ==> |urls| == |batches| && count == |Flatten(batches)|
    ensures r.Err? ==> |urls| >= 1 && r == f(|urls| - 1)
    ensures r.Err? ==> FetchAll(f, |urls| - 1).Ok?
  {
    var games: seq<Game> := [];
    ghost var parts: seq<seq<Game>> := [];
    urls := [];
    count := 0;
    var c := 0;
    while c < |batches|
      invariant 0 <= c <= |batches| && |urls| == c
      invariant urls == Client.ThingUrls(HOST, batches[..c])
      invariant count == |Flatten(batches[..c])|
      invariant TryMap(f, Range(c)) == Ok(parts) && games == Flatten(parts)
    {
      FlattenSnoc(batches, c);
      Client.ThingUrlsSnoc(HOST, batches, c);
      count := count + |batches[c]|;
      var part, url := FetchBatch(batches[c], c, servers, x, f);
      urls := urls + [url];
      if part.Err? {
        FetchStops(f, c, |batches|, parts);
        return Err(part.error), urls, count;
      }
      FetchStep(f, c, parts, part.value);
      games := games + part.value;
      parts := parts + [part.value];
      c := c + 1;
    }
    assert batches[..c] == batches;
    r := Ok(games);
  }

  /** `get_games`: the ids cut into batches of at most twenty, fetched in
      order; on success every id has been sent, once. */
  method GetGames(ids: seq<nat>, servers: nat -> Client.Server, x: ThingXml)
    returns (r: Result<seq<Game>>, urls: seq<string>, count: nat)
    ensures r == FetchGames(|Chunks(ids, MAX_IDS)|, servers, x)
    ensures |urls| <= |Chunks(ids, MAX_IDS)| && urls == Client.ThingUrls(HOST, Chunks(ids, MAX_IDS)[..|urls|])
    ensures r.Ok? ==> |urls| == |Chunks(ids, MAX_IDS)| && count == |ids|
    ensures r.Err? ==> |urls| >= 1 && r == GamesFromApi(servers(|urls| - 1), x)
    ensures r.Err? ==> forall c :: 0 <= c < |urls| - 1 ==> GamesFromApi(servers(c), x).Ok?
    ensures ids == [] ==> r == Ok([]) && urls == []
  {
    var batches := Chunks(ids, MAX_IDS);
    r, urls, count := FetchBatches(batches, servers, x, BatchFetch(servers, x));
    ChunksFlatten(ids, MAX_IDS);
    if r.Err? {
      FetchAllSucceeds(BatchFetch(servers, x), |urls| - 1);
    }
  }
}
