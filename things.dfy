/** The `/thing` response pipeline (`from_xml` of src/thing.rs, and the
    textually identical one of src/bgg/thing.rs): tidy the XML with the
    stylesheet, deserialise the items, then map every item to a game,
    stopping at the first item that cannot be mapped. The stylesheet and the
    deserialiser are foreign code and appear as oracles. */
module Things {
  import opened Errors
  import opened Thing1
  import opened Thing2

  const DESERIALIZE_ERROR := "Error deserializing xml: "

  /** The two foreign steps: the XSLT transform and the deserialiser of the
      transformed document. */
  datatype ThingXml = ThingXml(transform: string -> Result<string>,
                               deserialize: string -> Decoded<seq<Item>>)

  /** The items of a response, or the error of the first foreign step that
      failed. */
  function Items(xml: string, x: ThingXml): (r: Result<seq<Item>>)
    ensures x.transform(xml).Err? ==> r == Err(x.transform(xml).error)
    ensures x.transform(xml).Ok? && x.deserialize(x.transform(xml).value).Malformed? ==>
              r == Err(XmlError(DESERIALIZE_ERROR + x.deserialize(x.transform(xml).value).reason))
    ensures r.Ok? <==> x.transform(xml).Ok? && x.deserialize(x.transform(xml).value).Parsed?
  {
    match x.transform(xml)
    case Err(e) => Err(e)
    case Ok(tidy) =>
      match x.deserialize(tidy)
      case Malformed(reason) => Err(XmlError(DESERIALIZE_ERROR + reason))
      case Parsed(items) => Ok(items)
  }

  /** The whole pipeline as a function of the response text. */
  function ParseGames(xml: string, x: ThingXml): Result<seq<Game>>
  {
    match Items(xml, x)
    case Err(e) => Err(e)
    case Ok(items) => TryMap(ToGame, items)
  }

  /** A successful parse has one game per deserialised item, each the
      mapping of the item at the same position. */
  lemma OneGamePerItem(xml: string, x: ThingXml)
    requires ParseGames(xml, x).Ok?
    ensures Items(xml, x).Ok?
    ensures |ParseGames(xml, x).value| == |Items(xml, x).value|
    ensures forall i :: 0 <= i < |Items(xml, x).value| ==>
              ToGame(Items(xml, x).value[i]) == Ok(ParseGames(xml, x).value[i])
  {
    TryMapSucceeds(ToGame, Items(xml, x).value);
  }

  /** A failed parse after deserialising reports the first item that cannot
      be mapped. */
  lemma FirstFailingItem(xml: string, x: ThingXml)
    requires Items(xml, x).Ok? && ParseGames(xml, x).Err?
    ensures exists k :: 0 <= k < |Items(xml, x).value| && ToGame(Items(xml, x).value[k]).Err?
                        && (forall i :: 0 <= i < k ==> ToGame(Items(xml, x).value[i]).Ok?)
                        && ParseGames(xml, x).error == ToGame(Items(xml, x).value[k]).error
  {
    TryMapFailsAtFirst(ToGame, Items(xml, x).value);
  }

  /** `from_xml`: the loop that maps item after item, returning at the first
      failure. */
  method FromXml(xml: string, x: ThingXml) returns (r: Result<seq<Game>>)
    ensures r == ParseGames(xml, x)
  {
    var items := Items(xml, x);
    if items.Err? {
      return Err(items.error);
    }
    var all := items.value;
    var games: seq<Game> := [];
    var i := 0;
    while i < |all|
      invariant 0 <= i <= |all|
      invariant TryMap(ToGame, all[..i]) == Ok(games)
    {
      assert all[..i + 1][..i] == all[..i];
      var game := TryFrom(all[i]);
      if game.Err? {
        TryMapErrorPersists(ToGame, all, i + 1);
        return Err(game.error);
      }
      games := games + [game.value];
      i := i + 1;
    }
    assert all[..i] == all;
    r := Ok(games);
  }

  /** A game whose poll drew no votes at all has no best player count, as
      for the Enormity fixture of src/thing.rs. */
  lemma UnvotedPollHasNoBestCounts(item: Item)
    requires ToGame(item).Ok?
    requires forall i :: 0 <= i < |item.poll.results| ==> VoteSum(item.poll.results[i].resultsByCategory) == 0
    ensures ToGame(item).value.bestPlayerCounts == []
  {
    var rows := ClosedRows(item.poll.results);
    forall k | 0 <= k < |rows| ensures VoteSum(rows[k].resultsByCategory) == 0 {
      var i :| 0 <= i < |item.poll.results| && item.poll.results[i] == rows[k];
    }
    NoVotesNoBestCounts(rows);
  }
}
