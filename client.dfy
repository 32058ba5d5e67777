/** The public client of src/lib.rs: the collection and thing URLs, the
    closures handed to the retrying executor, fetching games twenty ids at a
    time, and fetching every game a user owns. The HTTP agent is replaced by
    a `Server`: the reply to each successive attempt of one request. */
module Client {
  import opened Errors
  import opened Text
  import Request
  import opened Thing2
  import opened Things
  import opened Collection
  import opened Batching

  /** The largest number of ids the API accepts in one `/thing` request. */
  const MAX_IDS: nat := 20

  const DEFAULT_URL := "https://boardgamegeek.com"
  const COLLECTION_PATH := "/xmlapi2/collection?username="
  const COLLECTION_QUERY := "&own=1&brief=1&subtype=boardgame"
  const EXCLUDE_EXPANSIONS := "&excludesubtype=boardgameexpansion"
  const THING_PATH := "/xmlapi2/thing?id="
  const STATS := "&stats=1"

  /** A client talks to one base URL. */
  datatype BggClient = BggClient(url: string)

  /** `BggClient::new`. */
  function New(): BggClient { BggClient(DEFAULT_URL) }

  /** What one HTTP attempt gives back: a transport failure, or a status
      together with the outcome of reading the body. */
  datatype Reply = Failed(error: Error) | Replied(status: Request.StatusCode, body: Result<string>)

  /** The replies to the successive attempts of one request. */
  type Server = nat -> Reply

  // ---------------------------------------------------------------------
  // URLs
  // ---------------------------------------------------------------------

  predicate EndsWith(s: string, suffix: string)
  {
    |suffix| <= |s| && s[|s| - |suffix|..] == suffix
  }

  /** The `/collection` URL of `get_collection`. */
  function CollectionUrl(base: string, user: string, includeExpansions: bool): string
  {
    base + COLLECTION_PATH + user + COLLECTION_QUERY + (if includeExpansions then "" else EXCLUDE_EXPANSIONS)
  }

  /** The URL names the user right after the base and path, and asks to
      leave out expansions exactly when they are not wanted. */
  lemma CollectionUrlShape(base: string, user: string, includeExpansions: bool)
    ensures var url := CollectionUrl(base, user, includeExpansions);
            var head := base + COLLECTION_PATH + user + COLLECTION_QUERY;
            |head| <= |url| && url[..|head|] == head
            && (EndsWith(url, EXCLUDE_EXPANSIONS) <==> !includeExpansions)
  {
    var url := CollectionUrl(base, user, includeExpansions);
    var head := base + COLLECTION_PATH + user + COLLECTION_QUERY;
    if includeExpansions {
      assert url == head;
      assert url[|url| - 1] == 'e';
      assert EXCLUDE_EXPANSIONS[|EXCLUDE_EXPANSIONS| - 1] == 'n';
    } else {
      assert url == head + EXCLUDE_EXPANSIONS;
      assert url[|url| - |EXCLUDE_EXPANSIONS|..] == EXCLUDE_EXPANSIONS;
    }
  }

  /** The `/thing` URL of `get_games_from_api`. */
  function ThingUrl(base: string, ids: seq<nat>): string
  {
    base + THING_PATH + IdList(ids) + STATS
  }

  // ---------------------------------------------------------------------
  // The closures handed to the executor
  // ---------------------------------------------------------------------

  /** One attempt of the `/collection` request: a 200 reply settles the
      request with the classified body, whatever it says; any other status
      goes back to the executor. */
  function CollectionAttempt(reply: Reply, x: CollectionXml): (a: Request.Attempt<Result<seq<CollectionItem>>>)
    ensures reply.Failed? ==> a == Err(reply.error)
    ensures reply.Replied? && reply.status == Request.OK && reply.body.Err? ==> a == Err(reply.body.error)
    ensures a.Ok? && a.value.Done? <==> reply.Replied? && reply.status == Request.OK && reply.body.Ok?
    ensures a.Ok? && a.value.Done? ==> a.value.value == Collection.FromXml(reply.body.value, x)
    ensures a.Ok? && a.value.NotDone? <==> reply.Replied? && reply.status != Request.OK
    ensures a.Ok? && a.value.NotDone? ==> a.value.status == reply.status
  {
    match reply
    case Failed(e) => Err(e)
    case Replied(status, body) =>
      if status == Request.OK then
        match body
        case Err(e) => Err(e)
        case Ok(xml) => Ok(Request.Done(Collection.FromXml(xml, x)))
      else Ok(Request.NotDone(status))
  }

  function CollectionExec(server: Server, x: CollectionXml): nat -> Request.Attempt<Result<seq<CollectionItem>>>
  {
    (k: nat) => CollectionAttempt(server(k), x)
  }

  /** The `?` after `do_request`: an executor failure or a failed
      classification, whichever comes first. */
  function Flattened<T>(r: Result<Result<T>>): Result<T>
  {
    match r
    case Err(e) => Err(e)
    case Ok(inner) => inner
  }

  /** What `get_collection` returns against a given server. */
  function CollectionOutcome(server: Server, x: CollectionXml): Result<seq<CollectionItem>>
  {
    Flattened(Request.Execute(CollectionExec(server, x), Request.WAIT_SECONDS).result)
  }

  /** One attempt of the `/thing` request: a 200 reply is parsed at once and
      a parse failure ends the request; any other status goes back to the
      executor. */
  function ThingAttempt(reply: Reply, x: ThingXml): (a: Request.Attempt<seq<Game>>)
    ensures reply.Failed? ==> a == Err(reply.error)
    ensures reply.Replied? && reply.status == Request.OK && reply.body.Err? ==> a == Err(reply.body.error)
    ensures a.Ok? && a.value.Done? <==>
              reply.Replied? && reply.status == Request.OK && reply.body.Ok? && ParseGames(reply.body.value, x).Ok?
    ensures a.Ok? && a.value.Done? ==> Ok(a.value.value) == ParseGames(reply.body.value, x)
    ensures reply.Replied? && reply.status == Request.OK && reply.body.Ok? && ParseGames(reply.body.value, x).Err? ==>
              a == Err(ParseGames(reply.body.value, x).error)
    ensures a.Ok? && a.value.NotDone? <==> reply.Replied? && reply.status != Request.OK
    ensures a.Ok? && a.value.NotDone? ==> a.value.status == reply.status
  {
    match reply
    case Failed(e) => Err(e)
    case Replied(status, body) =>
      if status == Request.OK then
        match body
        case Err(e) => Err(e)
        case Ok(xml) =>
          match ParseGames(xml, x)
          case Err(e) => Err(e)
          case Ok(games) => Ok(Request.Done(games))
      else Ok(Request.NotDone(status))
  }

  function ThingExec(server: Server, x: ThingXml): nat -> Request.Attempt<seq<Game>>
  {
    (k: nat) => ThingAttempt(server(k), x)
  }

  /** What `get_games_from_api` returns against a given server. */
  function GamesFromApi(server: Server, x: ThingXml): Result<seq<Game>>
  {
    Request.Execute(ThingExec(server, x), Request.WAIT_SECONDS).result
  }

  // ---------------------------------------------------------------------
  // Requests
  // ---------------------------------------------------------------------

  /** `get_collection`: the URL it requests and what it returns. */
  method GetCollection(client: BggClient, user: string, includeExpansions: bool, server: Server, x: CollectionXml)
    returns (r: Result<seq<CollectionItem>>, url: string)
    ensures url == CollectionUrl(client.url, user, includeExpansions)
    ensures r == CollectionOutcome(server, x)
  {
    url := CollectionUrl(client.url, user, includeExpansions);
    var settled, calls, sleeps := Request.DoRequest(CollectionExec(server, x));
    r := Flattened(settled);
  }

  /** A first reply of 200 settles the collection request: its
      classification, an error report included, is the answer and is not
      retried. */
  lemma CollectionSettlesOnOk(server: Server, x: CollectionXml, xml: string)
    requires server(0) == Replied(Request.OK, Ok(xml))
    ensures CollectionOutcome(server, x) == Collection.FromXml(xml, x)
    ensures Request.Execute(CollectionExec(server, x), Request.WAIT_SECONDS).calls == 1
  {
    Request.DoneReturnsAtOnce(CollectionExec(server, x), Request.WAIT_SECONDS, Collection.FromXml(xml, x));
  }

  /** `get_games_from_api`: the URL it requests and what it returns. */
  method GetGamesFromApi(client: BggClient, ids: seq<nat>, server: Server, x: ThingXml)
    returns (r: Result<seq<Game>>, url: string)
    ensures url == ThingUrl(client.url, ids)
    ensures r == GamesFromApi(server, x)
  {
    url := ThingUrl(client.url, ids);
    var calls, sleeps;
    r, calls, sleeps := Request.DoRequest(ThingExec(server, x));
  }

  /** The `/thing` URLs of the given batches, in order. */
  function ThingUrls(base: string, batches: seq<seq<nat>>): (urls: seq<string>)
    ensures |urls| == |batches|
  {
    if batches == [] then [] else ThingUrls(base, batches[..|batches| - 1]) + [ThingUrl(base, batches[|batches| - 1])]
  }

  /** Each URL requests the batch at the same position. */
  lemma {:induction false} ThingUrlsAt(base: string, batches: seq<seq<nat>>, c: nat)
    requires c < |batches|
    ensures ThingUrls(base, batches)[c] == ThingUrl(base, batches[c])
    decreases |batches|
  {
    if c < |batches| - 1 {
      ThingUrlsAt(base, batches[..|batches| - 1], c);
    }
  }

  /** The URLs of one more batch are those so far and the batch's own. */
  lemma ThingUrlsSnoc(base: string, batches: seq<seq<nat>>, c: nat)
    requires c < |batches|
    ensures ThingUrls(base, batches[..c + 1]) == ThingUrls(base, batches[..c]) + [ThingUrl(base, batches[c])]
  {
    assert batches[..c + 1][..c] == batches[..c];
  }

  /** Fetching the games of batch `c`, against that batch's server. */
  function BatchFetch(servers: nat -> Server, x: ThingXml): (f: nat -> Result<seq<Game>>)
    ensures forall c :: f(c) == GamesFromApi(servers(c), x)
  {
    (c: nat) => GamesFromApi(servers(c), x)
  }

  /** The games of the first `n` batches laid end to end, or the error of
      the first batch that failed. */
  function FetchGames(n: nat, servers: nat -> Server, x: ThingXml): Result<seq<Game>>
  {
    FetchAll(BatchFetch(servers, x), n)
  }

  /** `f` gives, for each batch, the outcome of its request against its server. */
  ghost predicate FetchesFrom(f: nat -> Result<seq<Game>>, servers: nat -> Server, x: ThingXml)
  {
    forall c {:trigger GamesFromApi(servers(c), x)} :: f(c) == GamesFromApi(servers(c), x)
  }

  /** One `/thing` request of `get_games`: batch `c` against its server,
      whose outcome `f(c)` stands for. */
  method FetchBatch(client: BggClient, ids: seq<nat>, c: nat, servers: nat -> Server, x: ThingXml,
                    ghost f: nat -> Result<seq<Game>>)
    returns (part: Result<seq<Game>>, url: string)
    requires FetchesFrom(f, servers, x)
    ensures url == ThingUrl(client.url, ids)
    ensures part == f(c)
  {
    part, url := GetGamesFromApi(client, ids, servers(c), x);
  }

  /** The loop of `get_games`: one `/thing` request per batch, in order,
      stopping at the first failed batch. It is stated against `f`, the
      outcome of each batch's request. `urls` are the URLs requested and
      `count` the number of ids sent so far, as logged. */
  method FetchBatches(client: BggClient, batches: seq<seq<u32>>, servers: nat -> Server, x: ThingXml,
                      ghost f: nat -> Result<seq<Game>>)
    returns (r: Result<seq<Game>>, urls: seq<string>, count: nat)
    requires FetchesFrom(f, servers, x)
    ensures r == FetchAll(f, |batches|)
    ensures |urls| <= |batches| && urls == ThingUrls(client.url, batches[..|urls|])
    ensures r.Ok? ==> |urls| == |batches| && count == |Flatten(batches)|
    ensures r.Err? ==> |urls| >= 1 && r == f(|urls| - 1)
    ensures r.Err? ==> FetchAll(f, |urls| - 1).Ok?
  {
    ghost var idLists: seq<seq<nat>> := batches;  // the batches, as the URL builder takes them
    var games: seq<Game> := [];
    ghost var parts: seq<seq<Game>> := [];
    urls := [];
    count := 0;
    var c := 0;
    while c < |batches|
      invariant 0 <= c <= |batches| && |urls| == c
      invariant urls == ThingUrls(client.url, idLists[..c])
      invariant count == |Flatten(batches[..c])|
      invariant TryMap(f, Range(c)) == Ok(parts) && games == Flatten(parts)
    {
      FlattenSnoc(batches, c);
      ThingUrlsSnoc(client.url, idLists, c);
      count := count + |batches[c]|;
      var part, url := FetchBatch(client, batches[c], c, servers, x, f);
      urls := urls + [url];
      if part.Err? {
        FetchStops(f, c, |batches|, parts);
        return Err(part.error), urls, count;
      }
      FetchStep(f, c, parts, part.value);
      games := games + part.value;
      parts := parts + [part.value];
      c := c + 1;
    }
    assert batches[..c] == batches;
    assert idLists[..c] == idLists;
    r := Ok(games);
  }

  /** `get_games`: the ids cut into batches of at most twenty, fetched in
      order; on success every id has been sent, once. */
  method GetGames(client: BggClient, ids: seq<u32>, servers: nat -> Server, x: ThingXml)
    returns (r: Result<seq<Game>>, urls: seq<string>, count: nat)
    ensures r == FetchGames(|Chunks(ids, MAX_IDS)|, servers, x)
    ensures |urls| <= |Chunks(ids, MAX_IDS)| && urls == ThingUrls(client.url, Chunks(ids, MAX_IDS)[..|urls|])
    ensures r.Ok? ==> |urls| == |Chunks(ids, MAX_IDS)| && count == |ids|
    ensures r.Err? ==> |urls| >= 1 && r == GamesFromApi(servers(|urls| - 1), x)
    ensures r.Err? ==> forall c :: 0 <= c < |urls| - 1 ==> GamesFromApi(servers(c), x).Ok?
    ensures ids == [] ==> r == Ok([]) && urls == []
  {
    var batches := Chunks(ids, MAX_IDS);
    r, urls, count := FetchBatches(client, batches, servers, x, BatchFetch(servers, x));
    ChunksFlatten(ids, MAX_IDS);
    if r.Err? {
      FetchAllSucceeds(BatchFetch(servers, x), |urls| - 1);
    }
  }

  /** The ids of a collection, in order. */
  function Ids(items: seq<CollectionItem>): (ids: seq<u32>)
    ensures |ids| == |items| && forall i :: 0 <= i < |items| ==> ids[i] == items[i].id
  {
    if items == [] then [] else Ids(items[..|items| - 1]) + [items[|items| - 1].id]
  }

  /** `get_all_games_for_user`: the collection, then the games of its ids. */
  method GetAllGamesForUser(client: BggClient, user: string, includeExpansions: bool,
                            collectionServer: Server, cx: CollectionXml,
                            thingServers: nat -> Server, tx: ThingXml)
    returns (r: Result<seq<Game>>)
    ensures CollectionOutcome(collectionServer, cx).Err? ==> r == Err(CollectionOutcome(collectionServer, cx).error)
    ensures CollectionOutcome(collectionServer, cx).Ok? ==>
              r == FetchGames(|Chunks(Ids(CollectionOutcome(collectionServer, cx).value), MAX_IDS)|, thingServers, tx)
  {
    var items, url := GetCollection(client, user, includeExpansions, collectionServer, cx);
    if items.Err? {
      return Err(items.error);
    }
    var urls, count;
    r, urls, count := GetGames(client, Ids(items.value), thingServers, tx);
  }
}
