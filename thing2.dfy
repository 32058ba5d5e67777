/** The mapping from a raw `/thing` item to a `Game`
    (src/bgg/thing/thing2.rs): open-ended poll rows ("6+") are dropped, every
    other row must carry a decimal player count, and a count is "best" when
    more than half of the row's votes went to the Best category. */
module Thing2 {
  import opened Errors
  import opened Text
  import opened Thing1

  /** The simplified record handed to callers. */
  datatype Game = Game(id: u32, isExpansion: bool, name: string,
                       minPlayerCount: u16, maxPlayerCount: u16, voterCount: u16,
                       bestPlayerCounts: seq<u16>, rating: F64)

  const EXPANSION := "boardgameexpansion"
  const PRIMARY := "primary"
  const NO_PRIMARY_NAME := "No primary name found"
  const UNPARSABLE_PLAYER_COUNT := "Could not parse player count: "

  // ---------------------------------------------------------------------
  // Dropping open-ended rows
  // ---------------------------------------------------------------------

  /** A row such as "6+" that stands for a range of player counts. */
  predicate OpenEnded(row: PollRow) { '+' in row.playerCount }

  /** The rows without '+', in their original order. */
  function ClosedRows(rows: seq<PollRow>): (kept: seq<PollRow>)
    ensures |kept| <= |rows|
    ensures forall i :: 0 <= i < |kept| ==> !OpenEnded(kept[i]) && kept[i] in rows
    ensures forall i :: 0 <= i < |rows| && !OpenEnded(rows[i]) ==> rows[i] in kept
  {
    if rows == [] then []
    else
      var init := ClosedRows(rows[..|rows| - 1]);
      var last := rows[|rows| - 1];
      assert forall i :: 0 <= i < |rows| - 1 ==> rows[i] == rows[..|rows| - 1][i];
      if OpenEnded(last) then init else init + [last]
  }

  /** The positions of the rows without '+', in ascending order. */
  function ClosedPositions(rows: seq<PollRow>): (ps: seq<nat>)
    ensures forall k :: 0 <= k < |ps| ==> ps[k] < |rows| && !OpenEnded(rows[ps[k]])
    ensures forall k, l :: 0 <= k < l < |ps| ==> ps[k] < ps[l]
  {
    if rows == [] then []
    else
      var init := rows[..|rows| - 1];
      assert forall i :: 0 <= i < |rows| - 1 ==> rows[i] == init[i];
      ClosedPositions(init) + (if OpenEnded(rows[|rows| - 1]) then [] else [|rows| - 1])
  }

  /** `ClosedRows` keeps the rows at those positions: the closed rows of the
      poll, each once and in their order in the poll. */
  lemma {:induction false} ClosedRowsAtPositions(rows: seq<PollRow>)
    ensures |ClosedPositions(rows)| == |ClosedRows(rows)|
    ensures forall k :: 0 <= k < |ClosedPositions(rows)| ==> rows[ClosedPositions(rows)[k]] == ClosedRows(rows)[k]
  {
    if rows != [] {
      var init := rows[..|rows| - 1];
      ClosedRowsAtPositions(init);
      var ps := ClosedPositions(init);
      forall k | 0 <= k < |ps| ensures rows[ps[k]] == ClosedRows(rows)[k] {
        assert rows[ps[k]] == init[ps[k]];
      }
    }
  }

  /** No closed row is left out. */
  lemma {:induction false} ClosedPositionsComplete(rows: seq<PollRow>, i: nat)
    requires i < |rows| && !OpenEnded(rows[i])
    ensures i in ClosedPositions(rows)
  {
    var init := rows[..|rows| - 1];
    if i < |rows| - 1 {
      assert rows[i] == init[i];
      ClosedPositionsComplete(init, i);
    }
  }

  /** Filtering a poll in two parts is filtering it whole. */
  lemma {:induction false} ClosedRowsAppend(a: seq<PollRow>, b: seq<PollRow>)
    ensures ClosedRows(a + b) == ClosedRows(a) + ClosedRows(b)
  {
    if b != [] {
      var init := b[..|b| - 1];
      ClosedRowsAppend(a, init);
      assert (a + b)[..|a + b| - 1] == a + init;
    } else {
      assert a + b == a;
    }
  }

  /** Dropping open-ended rows twice drops nothing more. */
  lemma {:induction false} ClosedRowsIdempotent(rows: seq<PollRow>)
    ensures ClosedRows(ClosedRows(rows)) == ClosedRows(rows)
  {
    if rows != [] {
      var init := rows[..|rows| - 1];
      ClosedRowsIdempotent(init);
      var c := ClosedRows(init);
      if !OpenEnded(rows[|rows| - 1]) {
        assert (c + [rows[|rows| - 1]])[..|c|] == c;
      }
    }
  }

  // ---------------------------------------------------------------------
  // Tallying a row
  // ---------------------------------------------------------------------

  /** The row's votes summed by the `u16` fold, which wraps around past 65535. */
  function Total(votes: seq<Vote>): u16
  {
    if votes == [] then 0
    else (Total(votes[..|votes| - 1]) + votes[|votes| - 1].voteCount) % 0x1_0000
  }

  /** The row's votes summed without limit. */
  function VoteSum(votes: seq<Vote>): nat
  {
    if votes == [] then 0
    else VoteSum(votes[..|votes| - 1]) + votes[|votes| - 1].voteCount
  }

  /** When the true sum fits in 16 bits, the fold computes it. */
  lemma {:induction false} TotalIsVoteSum(votes: seq<Vote>)
    requires VoteSum(votes) < 0x1_0000
    ensures Total(votes) == VoteSum(votes)
  {
    if votes != [] {
      TotalIsVoteSum(votes[..|votes| - 1]);
    }
  }

  /** The vote count of the first Best entry, or 0 when there is none. */
  function BestVotes(votes: seq<Vote>): (b: u16)
    ensures (forall i :: 0 <= i < |votes| ==> votes[i].value != Best) ==> b == 0
    ensures forall i :: 0 <= i < |votes| && votes[i].value == Best
                        && (forall j :: 0 <= j < i ==> votes[j].value != Best)
                        ==> b == votes[i].voteCount
  {
    if votes == [] then 0
    else if votes[0].value == Best then votes[0].voteCount
    else
      assert forall i :: 1 <= i < |votes| ==> votes[i] == votes[1..][i - 1];
      BestVotes(votes[1..])
  }

  /** The source keeps a row when `best / total * 100.0 > 50.0` in floating
      point. For counts below 65536 this holds exactly when twice the Best
      votes exceed the total; a total of zero with no Best votes is a NaN
      comparison and keeps nothing. */
  predicate MostlyBest(row: PollRow)
  {
    2 * BestVotes(row.resultsByCategory) > Total(row.resultsByCategory)
  }

  /** A row nobody voted Best in is never kept. */
  lemma NoBestVotesNeverKept(row: PollRow)
    requires forall i :: 0 <= i < |row.resultsByCategory| ==> row.resultsByCategory[i].value != Best
    ensures !MostlyBest(row)
  {
  }

  // ---------------------------------------------------------------------
  // The best player counts of the closed rows
  // ---------------------------------------------------------------------

  predicate Parses(row: PollRow) { ParseU16(row.playerCount).Some? }

  /** The counts of the rows that are mostly Best, in row order, or the
      error naming the first row whose count does not parse. */
  function BestPlayerCounts(rows: seq<PollRow>): Result<seq<u16>>
  {
    if rows == [] then Ok([])
    else
      match BestPlayerCounts(rows[..|rows| - 1])
      case Err(e) => Err(e)
      case Ok(counts) =>
        var row := rows[|rows| - 1];
        match ParseU16(row.playerCount)
        case None => Err(XmlApiError(UNPARSABLE_PLAYER_COUNT + row.playerCount))
        case Some(n) => Ok(if MostlyBest(row) then counts + [n] else counts)
  }

  /** The positions of the rows that are mostly Best, ascending. */
  function KeptPositions(rows: seq<PollRow>): (ix: seq<nat>)
    ensures forall j :: 0 <= j < |ix| ==> ix[j] < |rows| && MostlyBest(rows[ix[j]])
    ensures forall j, k :: 0 <= j < k < |ix| ==> ix[j] < ix[k]
  {
    if rows == [] then []
    else
      var init := rows[..|rows| - 1];
      assert forall i :: 0 <= i < |rows| - 1 ==> rows[i] == init[i];
      KeptPositions(init) + (if MostlyBest(rows[|rows| - 1]) then [|rows| - 1] else [])
  }

  /** No row that is mostly Best is missed. */
  lemma {:induction false} KeptPositionsComplete(rows: seq<PollRow>, i: nat)
    requires i < |rows| && MostlyBest(rows[i])
    ensures i in KeptPositions(rows)
  {
    var init := rows[..|rows| - 1];
    if i < |rows| - 1 {
      assert rows[i] == init[i];
      KeptPositionsComplete(init, i);
    }
  }

  /** The rows are accepted exactly when every count parses; otherwise the
      error names the first row that does not. */
  lemma BestPlayerCountsOutcome(rows: seq<PollRow>)
    ensures BestPlayerCounts(rows).Ok? <==> forall i :: 0 <= i < |rows| ==> Parses(rows[i])
    ensures BestPlayerCounts(rows).Err? ==>
              exists k :: 0 <= k < |rows| && !Parses(rows[k])
                          && (forall i :: 0 <= i < k ==> Parses(rows[i]))
                          && BestPlayerCounts(rows).error == XmlApiError(UNPARSABLE_PLAYER_COUNT + rows[k].playerCount)
  {
    BestPlayerCountsOk(rows);
    if BestPlayerCounts(rows).Err? {
      BestPlayerCountsFirstError(rows);
    }
  }

  lemma {:induction false} BestPlayerCountsOk(rows: seq<PollRow>)
    ensures BestPlayerCounts(rows).Ok? <==> forall i :: 0 <= i < |rows| ==> Parses(rows[i])
  {
    if rows != [] {
      BestPlayerCountsOk(rows[..|rows| - 1]);
      OkStep(rows);
      AllParseStep(rows, rows[..|rows| - 1]);
    }
  }

  lemma OkStep(rows: seq<PollRow>)
    requires rows != []
    ensures BestPlayerCounts(rows).Ok? <==> BestPlayerCounts(rows[..|rows| - 1]).Ok? && Parses(rows[|rows| - 1])
  {
  }

  lemma AllParseStep(rows: seq<PollRow>, init: seq<PollRow>)
    requires rows != [] && init == rows[..|rows| - 1]
    ensures (forall i :: 0 <= i < |rows| ==> Parses(rows[i]))
            <==> (forall i :: 0 <= i < |init| ==> Parses(init[i])) && Parses(rows[|rows| - 1])
  {
    assert forall i :: 0 <= i < |init| ==> init[i] == rows[i];
  }

  lemma {:induction false} BestPlayerCountsFirstError(rows: seq<PollRow>)
    requires BestPlayerCounts(rows).Err?
    ensures exists k :: 0 <= k < |rows| && !Parses(rows[k])
                        && (forall i :: 0 <= i < k ==> Parses(rows[i]))
                        && BestPlayerCounts(rows).error == XmlApiError(UNPARSABLE_PLAYER_COUNT + rows[k].playerCount)
  {
    var init := rows[..|rows| - 1];
    assert forall i :: 0 <= i < |rows| - 1 ==> rows[i] == init[i];
    if BestPlayerCounts(init).Err? {
      BestPlayerCountsFirstError(init);
      var k :| 0 <= k < |init| && !Parses(init[k]) && (forall i :: 0 <= i < k ==> Parses(init[i]))
               && BestPlayerCounts(init).error == XmlApiError(UNPARSABLE_PLAYER_COUNT + init[k].playerCount);
      assert !Parses(rows[k]);
    } else {
      BestPlayerCountsOk(init);
      var k := |rows| - 1;
      assert forall i :: 0 <= i < k ==> Parses(rows[i]);
    }
  }

  /** Once a prefix of the rows fails, the whole fails with the same error. */
  lemma {:induction false} ErrorPersists(rows: seq<PollRow>, i: nat)
    requires i <= |rows| && BestPlayerCounts(rows[..i]).Err?
    ensures BestPlayerCounts(rows) == BestPlayerCounts(rows[..i])
    decreases |rows| - i
  {
    if i < |rows| {
      assert rows[..i + 1][..i] == rows[..i];
      ErrorPersists(rows, i + 1);
    } else {
      assert rows[..i] == rows;
    }
  }

  /** On success, the i-th count is the count of the i-th row that is
      mostly Best: the result keeps exactly those rows, in order. */
  lemma {:induction false} BestPlayerCountsFollowKeptRows(rows: seq<PollRow>)
    requires BestPlayerCounts(rows).Ok?
    ensures |BestPlayerCounts(rows).value| == |KeptPositions(rows)|
    ensures forall j :: 0 <= j < |KeptPositions(rows)| ==>
              ParseU16(rows[KeptPositions(rows)[j]].playerCount) == Some(BestPlayerCounts(rows).value[j])
  {
    if rows != [] {
      var init := rows[..|rows| - 1];
      BestPlayerCountsFollowKeptRows(init);
      assert forall i :: 0 <= i < |rows| - 1 ==> rows[i] == init[i];
    }
  }

  /** Rows with no votes at all contribute no best count. */
  lemma {:induction false} NoVotesNoBestCounts(rows: seq<PollRow>)
    requires BestPlayerCounts(rows).Ok?
    requires forall i :: 0 <= i < |rows| ==> VoteSum(rows[i].resultsByCategory) == 0
    ensures BestPlayerCounts(rows).value == []
  {
    if rows != [] {
      var init := rows[..|rows| - 1];
      NoVotesNoBestCounts(init);
      var votes := rows[|rows| - 1].resultsByCategory;
      forall i | 0 <= i < |votes| ensures votes[i].voteCount == 0 {
        ZeroSumZeroVotes(votes, i);
      }
      NoVotesNoBestVotes(votes);
    }
  }

  lemma {:induction false} NoVotesNoBestVotes(votes: seq<Vote>)
    requires forall i :: 0 <= i < |votes| ==> votes[i].voteCount == 0
    ensures BestVotes(votes) == 0
  {
    if votes != [] && votes[0].value != Best {
      NoVotesNoBestVotes(votes[1..]);
    }
  }

  lemma {:induction false} ZeroSumZeroVotes(votes: seq<Vote>, i: nat)
    requires VoteSum(votes) == 0 && i < |votes|
    ensures votes[i].voteCount == 0
  {
    if i < |votes| - 1 {
      ZeroSumZeroVotes(votes[..|votes| - 1], i);
    }
  }

  // ---------------------------------------------------------------------
  // The primary name and the whole mapping
  // ---------------------------------------------------------------------

  /** The value of the first name whose type is "primary". */
  function PrimaryName(names: seq<Name>): (r: Option<string>)
    ensures r.None? <==> forall i :: 0 <= i < |names| ==> names[i].nameType != PRIMARY
    ensures r.Some? ==> exists i :: 0 <= i < |names| && names[i].nameType == PRIMARY && names[i].value == r.value
                                    && forall j :: 0 <= j < i ==> names[j].nameType != PRIMARY
  {
    if names == [] then None
    else if names[0].nameType == PRIMARY then Some(names[0].value)
    else
      var r := PrimaryName(names[1..]);
      assert forall i :: 1 <= i < |names| ==> names[i] == names[1..][i - 1];
      assert r.Some? ==> exists i :: 1 <= i < |names| && names[i].nameType == PRIMARY && names[i].value == r.value
                                    && forall j :: 0 <= j < i ==> names[j].nameType != PRIMARY;
      r
  }

  /** `Game::try_from`: counts first, then the primary name. */
  function ToGame(item: Item): Result<Game>
  {
    match BestPlayerCounts(ClosedRows(item.poll.results))
    case Err(e) => Err(e)
    case Ok(counts) =>
      match PrimaryName(item.names)
      case None => Err(XmlApiError(NO_PRIMARY_NAME))
      case Some(name) =>
        Ok(Game(item.id, item.thingType == EXPANSION, name, item.minPlayers, item.maxPlayers,
                item.poll.voterCount, counts, item.rating))
  }

  /** The loop of `Game::try_from` over the closed rows: parse each count,
      returning early on the first that does not parse, and push it when
      the row is mostly Best. */
  method CollectBestPlayerCounts(rows: seq<PollRow>) returns (r: Result<seq<u16>>)
    ensures r == BestPlayerCounts(rows)
  {
    var counts: seq<u16> := [];
    var i := 0;
    while i < |rows|
      invariant 0 <= i <= |rows|
      invariant BestPlayerCounts(rows[..i]) == Ok(counts)
    {
      var row := rows[i];
      var count := ParseU16(row.playerCount);
      if count.None? {
        CountsFail(rows, i, counts);
        ErrorPersists(rows, i + 1);
        return Err(XmlApiError(UNPARSABLE_PLAYER_COUNT + row.playerCount));
      }
      var total: nat := Total(row.resultsByCategory);
      var best: nat := BestVotes(row.resultsByCategory);
      CountsStep(rows, i, counts);
      if 2 * best > total {
        counts := counts + [count.value];
      }
      i := i + 1;
    }
    assert rows[..i] == rows;
    r := Ok(counts);
  }

  /** `Game::try_from`, step by step as the source takes it: filter, then
      the loop over the closed rows, then the name. */
  method TryFrom(item: Item) returns (r: Result<Game>)
    ensures r == ToGame(item)
  {
    var rows := ClosedRows(item.poll.results);
    var counts := CollectBestPlayerCounts(rows);
    if counts.Err? {
      return Err(counts.error);
    }
    var name := PrimaryName(item.names);
    if name.None? {
      return Err(XmlApiError(NO_PRIMARY_NAME));
    }
    r := Ok(Game(item.id, item.thingType == EXPANSION, name.value, item.minPlayers, item.maxPlayers,
                 item.poll.voterCount, counts.value, item.rating));
  }

  // ---------------------------------------------------------------------
  // Properties of the mapping
  // ---------------------------------------------------------------------

  /** What a successful mapping carries over from the item, and when it fails. */
  lemma ToGameOutcome(item: Item)
    ensures ToGame(item).Ok? <==>
              (forall i :: 0 <= i < |item.poll.results| && !OpenEnded(item.poll.results[i]) ==> Parses(item.poll.results[i]))
              && exists i :: 0 <= i < |item.names| && item.names[i].nameType == PRIMARY
    ensures ToGame(item).Ok? ==>
              var g := ToGame(item).value;
              g.id == item.id && g.voterCount == item.poll.voterCount && g.rating == item.rating
              && g.minPlayerCount == item.minPlayers && g.maxPlayerCount == item.maxPlayers
              && (g.isExpansion <==> item.thingType == EXPANSION)
              && Some(g.name) == PrimaryName(item.names)
    ensures BestPlayerCounts(ClosedRows(item.poll.results)).Ok? && PrimaryName(item.names).None? ==>
              ToGame(item) == Err(XmlApiError(NO_PRIMARY_NAME))
  {
    var rows := ClosedRows(item.poll.results);
    BestPlayerCountsOutcome(rows);
    if forall i :: 0 <= i < |item.poll.results| && !OpenEnded(item.poll.results[i]) ==> Parses(item.poll.results[i]) {
      forall k | 0 <= k < |rows| ensures Parses(rows[k]) {
        var i :| 0 <= i < |item.poll.results| && item.poll.results[i] == rows[k];
      }
    }
  }

  /** Open-ended rows play no part: dropping them beforehand changes nothing. */
  lemma OpenEndedRowsIgnored(item: Item)
    ensures ToGame(item) == ToGame(item.(poll := item.poll.(results := ClosedRows(item.poll.results))))
  {
    ClosedRowsIdempotent(item.poll.results);
  }

  /** On success, the counts of a poll are the parsed counts of its closed,
      mostly-Best rows: one per such row, none missed, in poll order. */
  lemma PollCountsInOrder(results: seq<PollRow>, counts: seq<u16>)
    requires BestPlayerCounts(ClosedRows(results)) == Ok(counts)
    ensures var ps := ClosedPositions(results);
            var ix := KeptPositions(ClosedRows(results));
            |ps| == |ClosedRows(results)| && |counts| == |ix| <= |results|
            && (forall j :: 0 <= j < |counts| ==>
                  ps[ix[j]] < |results| && !OpenEnded(results[ps[ix[j]]]) && MostlyBest(results[ps[ix[j]]])
                  && ParseU16(results[ps[ix[j]]].playerCount) == Some(counts[j]))
            && (forall j, l :: 0 <= j < l < |counts| ==> ps[ix[j]] < ps[ix[l]])
            && (forall i :: 0 <= i < |results| && !OpenEnded(results[i]) && MostlyBest(results[i]) ==>
                  exists j :: 0 <= j < |counts| && ps[ix[j]] == i)
  {
    var rows := ClosedRows(results);
    var ps := ClosedPositions(results);
    ClosedRowsAtPositions(results);
    BestPlayerCountsFollowKeptRows(rows);
    var ix := KeptPositions(rows);
    forall i | 0 <= i < |results| && !OpenEnded(results[i]) && MostlyBest(results[i])
      ensures exists j :: 0 <= j < |counts| && ps[ix[j]] == i
    {
      ClosedPositionsComplete(results, i);
      var k :| 0 <= k < |ps| && ps[k] == i;
      KeptPositionsComplete(rows, k);
      var j :| 0 <= j < |ix| && ix[j] == k;
      assert ps[ix[j]] == i;
    }
    assert |ix| <= |rows| by {
      PositionsBounded(ix, |rows|);
    }
  }

  /** A game's best counts are the parsed counts of the poll's closed,
      mostly-Best rows: one per such row, none missed, in poll order. */
  lemma BestCountsComeFromRows(item: Item)
    requires ToGame(item).Ok?
    ensures var results := item.poll.results;
            var ps := ClosedPositions(results);
            var ix := KeptPositions(ClosedRows(results));
            var counts := ToGame(item).value.bestPlayerCounts;
            |ps| == |ClosedRows(results)| && |counts| == |ix| <= |results|
            && (forall j :: 0 <= j < |counts| ==>
                  ps[ix[j]] < |results| && !OpenEnded(results[ps[ix[j]]]) && MostlyBest(results[ps[ix[j]]])
                  && ParseU16(results[ps[ix[j]]].playerCount) == Some(counts[j]))
            && (forall j, l :: 0 <= j < l < |counts| ==> ps[ix[j]] < ps[ix[l]])
            && (forall i :: 0 <= i < |results| && !OpenEnded(results[i]) && MostlyBest(results[i]) ==>
                  exists j :: 0 <= j < |counts| && ps[ix[j]] == i)
  {
    var counts := ToGame(item).value.bestPlayerCounts;
    assert BestPlayerCounts(ClosedRows(item.poll.results)) == Ok(counts);
    PollCountsInOrder(item.poll.results, counts);
  }

  /** A strictly increasing list of positions below n has at most n entries. */
  lemma {:induction false} PositionsBounded(ix: seq<nat>, n: nat)
    requires forall j :: 0 <= j < |ix| ==> ix[j] < n
    requires forall j, k :: 0 <= j < k < |ix| ==> ix[j] < ix[k]
    ensures |ix| <= n
  {
    if |ix| > 0 {
      var init := ix[..|ix| - 1];
      PositionsBounded(init, ix[|ix| - 1]);
    }
  }

  // ---------------------------------------------------------------------
  // The Eclipse and Fire & Ice fixtures
  // ---------------------------------------------------------------------

  function Row(players: string, best: u16, recommended: u16, notRecommended: u16): PollRow
  {
    PollRow(players, [Vote(Best, best), Vote(Recommended, recommended), Vote(NotRecommended, notRecommended)])
  }

  /** The poll of "Eclipse: Second Dawn for the Galaxy" as the website shows
      it: Best, Recommended and Not Recommended votes per player count. */
  const ECLIPSE_POLL: seq<PollRow> :=
    [Row("1", 1, 11, 198), Row("2", 16, 166, 80), Row("3", 55, 180, 33),
     Row("4", 205, 75, 6), Row("5", 63, 153, 32), Row("6", 149, 80, 26),
     Row("6+", 4, 9, 150)]

  function EclipseItem(rating: F64): Item
  {
    Item(246900, "boardgame",
         [Name("alternate", "Eclipse: 2nd Dawn"), Name(PRIMARY, "Eclipse: Second Dawn for the Galaxy")],
         2, 6, Poll(336, ECLIPSE_POLL), rating)
  }

  /** A fixture row's tally: its Best votes and, when no wrap-around
      occurs, its three-way total. */
  lemma RowTally(players: string, best: u16, recommended: u16, notRecommended: u16)
    requires best + recommended + notRecommended < 0x1_0000
    ensures BestVotes(Row(players, best, recommended, notRecommended).resultsByCategory) == best
    ensures Total(Row(players, best, recommended, notRecommended).resultsByCategory)
            == best + recommended + notRecommended
  {
    var votes := Row(players, best, recommended, notRecommended).resultsByCategory;
    assert votes[..1][..0] == [];
    assert Total(votes[..1]) == best;
    assert votes[..2][..1] == votes[..1];
    assert Total(votes[..2]) == best + recommended;
    assert votes[..3][..2] == votes[..2];
    assert votes[..3] == votes;
  }

  /** One step of `BestPlayerCounts`: a parsable row that is mostly Best
      adds its count. */
  lemma CountsKeep(prefix: seq<PollRow>, row: PollRow, counts: seq<u16>, n: u16)
    requires BestPlayerCounts(prefix) == Ok(counts)
    requires ParseU16(row.playerCount) == Some(n) && MostlyBest(row)
    ensures BestPlayerCounts(prefix + [row]) == Ok(counts + [n])
  {
    assert (prefix + [row])[..|prefix|] == prefix;
  }

  /** One step of `BestPlayerCounts` on a parsable row. */
  lemma CountsStep(rows: seq<PollRow>, i: nat, counts: seq<u16>)
    requires i < |rows| && BestPlayerCounts(rows[..i]) == Ok(counts) && Parses(rows[i])
    ensures BestPlayerCounts(rows[..i + 1])
            == Ok(if MostlyBest(rows[i]) then counts + [ParseU16(rows[i].playerCount).value] else counts)
  {
    assert rows[..i + 1][..i] == rows[..i];
  }

  /** One step of `BestPlayerCounts` on a row whose count does not parse. */
  lemma CountsFail(rows: seq<PollRow>, i: nat, counts: seq<u16>)
    requires i < |rows| && BestPlayerCounts(rows[..i]) == Ok(counts) && !Parses(rows[i])
    ensures BestPlayerCounts(rows[..i + 1]) == Err(XmlApiError(UNPARSABLE_PLAYER_COUNT + rows[i].playerCount))
  {
    assert rows[..i + 1][..i] == rows[..i];
  }

  /** One step of `BestPlayerCounts`: any other parsable row adds nothing. */
  lemma CountsSkip(prefix: seq<PollRow>, row: PollRow, counts: seq<u16>)
    requires BestPlayerCounts(prefix) == Ok(counts)
    requires Parses(row) && !MostlyBest(row)
    ensures BestPlayerCounts(prefix + [row]) == Ok(counts)
  {
    assert (prefix + [row])[..|prefix|] == prefix;
  }

  /** Rows without '+' are all kept. */
  lemma {:induction false} ClosedRowsOfClosed(rows: seq<PollRow>)
    requires forall i :: 0 <= i < |rows| ==> !OpenEnded(rows[i])
    ensures ClosedRows(rows) == rows
  {
    if rows != [] {
      var init := rows[..|rows| - 1];
      assert forall i :: 0 <= i < |init| ==> init[i] == rows[i];
      ClosedRowsOfClosed(init);
      assert !OpenEnded(rows[|rows| - 1]);
      assert init + [rows[|rows| - 1]] == rows;
    }
  }

  /** Only the "6+" row of the Eclipse poll is dropped. */
  lemma EclipseClosedRows()
    ensures ClosedRows(ECLIPSE_POLL) == ECLIPSE_POLL[..6]
  {
    var rows := ECLIPSE_POLL;
    assert '+' in rows[6].playerCount;
    assert forall i :: 0 <= i < 6 ==> !OpenEnded(rows[..6][i]);
    ClosedRowsOfClosed(rows[..6]);
    assert rows[..7] == rows;
  }

  /** The i-th Eclipse row is labelled i + 1; it is mostly Best only for
      four and six players. */
  lemma EclipseRow(i: nat)
    requires i < 6
    ensures ParseU16(ECLIPSE_POLL[i].playerCount) == Some(i + 1)
    ensures MostlyBest(ECLIPSE_POLL[i]) <==> i == 3 || i == 5
  {
    var row := ECLIPSE_POLL[i];
    RowTally(row.playerCount, row.resultsByCategory[0].voteCount, row.resultsByCategory[1].voteCount,
             row.resultsByCategory[2].voteCount);
    assert row == Row(row.playerCount, row.resultsByCategory[0].voteCount, row.resultsByCategory[1].voteCount,
                      row.resultsByCategory[2].voteCount);
    ParseU16OfNatToString(i + 1);
    assert NatToString(i + 1) == row.playerCount;
  }

  /** Three parsable rows that are not mostly Best give no counts. */
  lemma NoneOfThree(r1: PollRow, r2: PollRow, r3: PollRow)
    requires Parses(r1) && !MostlyBest(r1)
    requires Parses(r2) && !MostlyBest(r2)
    requires Parses(r3) && !MostlyBest(r3)
    ensures BestPlayerCounts([r1, r2, r3]) == Ok([])
  {
    var q1 := [r1];
    var q2 := q1 + [r2];
    assert [] + [r1] == q1;
    CountsSkip([], r1, []);
    CountsSkip(q1, r2, []);
    CountsSkip(q2, r3, []);
    assert q2 + [r3] == [r1, r2, r3];
  }

  /** Six rows labelled 1 to 6 of which only the fourth and sixth are
      mostly Best give the counts four and six. */
  lemma FourAndSix(r1: PollRow, r2: PollRow, r3: PollRow, r4: PollRow, r5: PollRow, r6: PollRow)
    requires Parses(r1) && !MostlyBest(r1)
    requires Parses(r2) && !MostlyBest(r2)
    requires Parses(r3) && !MostlyBest(r3)
    requires ParseU16(r4.playerCount) == Some(4) && MostlyBest(r4)
    requires Parses(r5) && !MostlyBest(r5)
    requires ParseU16(r6.playerCount) == Some(6) && MostlyBest(r6)
    ensures BestPlayerCounts([r1, r2, r3, r4, r5, r6]) == Ok([4, 6])
  {
    var none: seq<u16> := [];
    var four: seq<u16> := none + [4];
    var q3 := [r1, r2, r3];
    var q4 := q3 + [r4];
    var q5 := q4 + [r5];
    var q6 := q5 + [r6];
    NoneOfThree(r1, r2, r3);
    CountsKeep(q3, r4, none, 4);
    CountsSkip(q4, r5, four);
    CountsKeep(q5, r6, four, 6);
    var both: seq<u16> := four + [6];
    assert both == [4, 6] by {
      assert both[0] == 4 && both[1] == 6 && |both| == 2;
    }
    SixRows(r1, r2, r3, r4, r5, r6);
  }

  lemma SixRows(r1: PollRow, r2: PollRow, r3: PollRow, r4: PollRow, r5: PollRow, r6: PollRow)
    ensures [r1, r2, r3] + [r4] + [r5] + [r6] == [r1, r2, r3, r4, r5, r6]
  {
  }

  /** Of the closed Eclipse rows, only four and six are mostly Best. */
  lemma EclipseBestCounts()
    ensures BestPlayerCounts(ECLIPSE_POLL[..6]) == Ok([4, 6])
  {
    var closed := ECLIPSE_POLL[..6];
    forall i | 0 <= i < 6
      ensures ParseU16(closed[i].playerCount) == Some(i + 1)
      ensures MostlyBest(closed[i]) <==> i == 3 || i == 5
    {
      EclipseRow(i);
    }
    assert closed == [closed[0], closed[1], closed[2], closed[3], closed[4], closed[5]];
    FourAndSix(closed[0], closed[1], closed[2], closed[3], closed[4], closed[5]);
  }

  /** The Eclipse item maps to a base game whose best player counts are
      four and six. */
  lemma EclipseGame(rating: F64)
    ensures ToGame(EclipseItem(rating))
            == Ok(Game(246900, false, "Eclipse: Second Dawn for the Galaxy", 2, 6, 336, [4, 6], rating))
  {
    EclipseClosedRows();
    EclipseBestCounts();
    assert PrimaryName(EclipseItem(rating).names) == Some("Eclipse: Second Dawn for the Galaxy");
  }

  /** An expansion item maps to a game marked as an expansion. */
  lemma ExpansionGame(item: Item)
    requires item.thingType == EXPANSION
    requires ToGame(item).Ok?
    ensures ToGame(item).value.isExpansion && ToGame(item).value.id == item.id
  {
  }
}
