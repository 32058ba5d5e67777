/** The `/collection` query string of src/options/collections.rs: the
    options record, its rendering as URL parameters in a fixed order, and
    the builder that fills it in one setting at a time. */
module CollectionOptions {
  import opened Errors
  import opened Text
  import opened Options

  datatype Filter = Exclude | Include

  /** `Filter::as_str`. */
  function FilterAsStr(f: Filter): (s: string)
    ensures s == (if f == Include then "1" else "0")
  {
    match f
    case Exclude => "0"
    case Include => "1"
  }

  datatype ThingType = BoardGame | BoardGameAccessory | BoardGameExpansion | RpgIssue | RpgItem | VideoGame

  /** `ThingType::as_str`: the API's tag for each type. */
  function ThingTypeAsStr(t: ThingType): string
  {
    match t
    case BoardGame => "boardgame"
    case BoardGameAccessory => "boardgameaccessory"
    case BoardGameExpansion => "boardgameexpansion"
    case RpgIssue => "rpgissue"
    case RpgItem => "rpgitem"
    case VideoGame => "videogame"
  }

  /** Reading a tag back. */
  function ThingTypeFromStr(s: string): Option<ThingType>
  {
    if s == "boardgame" then Some(BoardGame)
    else if s == "boardgameaccessory" then Some(BoardGameAccessory)
    else if s == "boardgameexpansion" then Some(BoardGameExpansion)
    else if s == "rpgissue" then Some(RpgIssue)
    else if s == "rpgitem" then Some(RpgItem)
    else if s == "videogame" then Some(VideoGame)
    else None
  }

  /** Every tag reads back as its type, so no two types share a tag. */
  lemma ThingTypeRoundTrip(t: ThingType)
    ensures ThingTypeFromStr(ThingTypeAsStr(t)) == Some(t)
    ensures forall u :: ThingTypeAsStr(u) == ThingTypeAsStr(t) ==> u == t
  {
    forall u | ThingTypeAsStr(u) == ThingTypeAsStr(t) ensures u == t {
      assert ThingTypeFromStr(ThingTypeAsStr(u)) == Some(u);
    }
  }

  /** `filter_to_param`. */
  function FilterToParam(name: string, f: Option<Filter>): (p: string)
    ensures f.None? <==> p == ""
  {
    match f
    case None => ""
    case Some(v) => Param(name, FilterAsStr(v))
  }

  /** A sent filter reads back as `1` to include and `0` to exclude. */
  lemma FilterParamReadsBack(name: string, f: Filter)
    ensures ParamValue(FilterToParam(name, Some(f)), name) == Some(FilterAsStr(f))
  {
    ParamValueOfParam(name, FilterAsStr(f));
  }

  datatype CollectionOptions = CollectionOptions(
    user: string,
    version: bool,
    subType: ThingType,
    excludeSubType: Option<ThingType>,
    ids: Option<seq<u32>>,
    brief: bool,
    stats: bool,
    own: Option<Filter>,
    rated: Option<Filter>,
    played: Option<Filter>,
    comment: Option<Filter>,
    trade: Option<Filter>,
    want: Option<Filter>,
    wishlist: Option<Filter>,
    wishlistPriority: Option<u8>,
    preOrdered: Option<Filter>,
    wantToPlay: Option<Filter>,
    wantToBuy: Option<Filter>,
    previouslyOwned: Option<Filter>,
    hasParts: Option<Filter>,
    wantParts: Option<Filter>,
    minRating: Option<u8>,
    rating: Option<u8>,
    minBggRating: Option<u8>,
    bggRating: Option<u8>,
    minPlays: Option<u16>,
    maxPlays: Option<u16>,
    collectionId: Option<u32>)

  // ---------------------------------------------------------------------
  // The query string (`as_url_params`)
  // ---------------------------------------------------------------------

  /** The mandatory head: the user, unescaped, and the subtype. */
  function Head(o: CollectionOptions): string
  {
    "?username=" + o.user + "&subtype=" + ThingTypeAsStr(o.subType)
  }

  // Each of the following appends one group of optional parameters, in the
  // order in which `as_url_params` sends them, to the query string so far;
  // a group whose options are all unset appends nothing.

  function WithExclude(p: string, o: CollectionOptions): (r: string)
    ensures p <= r && (r == p <==> o.excludeSubType.None?)
  {
    match o.excludeSubType
    case None => p
    case Some(t) => p + "&excludesubtype=" + ThingTypeAsStr(t)
  }

  function WithIds(p: string, o: CollectionOptions): (r: string)
    ensures p <= r && (r == p <==> o.ids.None?)
  {
    match o.ids
    case None => p
    case Some(ids) => p + "&id=" + IdList(ids)
  }

  function WithFlags(p: string, o: CollectionOptions): (r: string)
    ensures p <= r && (r == p <==> !o.version && !o.brief && !o.stats)
  {
    var r := p + BoolToParam("version", o.version) + BoolToParam("brief", o.brief) + BoolToParam("stats", o.stats);
    assert |r| == |p| + |BoolToParam("version", o.version)| + |BoolToParam("brief", o.brief)| + |BoolToParam("stats", o.stats)|;
    r
  }

  /** The status filters up to and including the wishlist priority. */
  function WithWants(p: string, o: CollectionOptions): (r: string)
    ensures p <= r
    ensures r == p <==> o.own.None? && o.rated.None? && o.played.None? && o.comment.None?
                        && o.trade.None? && o.want.None? && o.wishlist.None? && o.wishlistPriority.None?
  {
    var r := p + FilterToParam("own", o.own) + FilterToParam("rated", o.rated) + FilterToParam("played", o.played)
      + FilterToParam("comment", o.comment) + FilterToParam("trade", o.trade) + FilterToParam("want", o.want)
      + FilterToParam("wishlist", o.wishlist) + U8ToParam("wishlistpriority", o.wishlistPriority);
    assert |r| == |p| + |FilterToParam("own", o.own)| + |FilterToParam("rated", o.rated)| + |FilterToParam("played", o.played)|
      + |FilterToParam("comment", o.comment)| + |FilterToParam("trade", o.trade)| + |FilterToParam("want", o.want)|
      + |FilterToParam("wishlist", o.wishlist)| + |U8ToParam("wishlistpriority", o.wishlistPriority)|;
    r
  }

  /** The remaining status filters. */
  function WithHoldings(p: string, o: CollectionOptions): (r: string)
    ensures p <= r
    ensures r == p <==> o.preOrdered.None? && o.wantToPlay.None? && o.wantToBuy.None?
                        && o.previouslyOwned.None? && o.hasParts.None? && o.wantParts.None?
  {
    var r := p + FilterToParam("preordered", o.preOrdered) + FilterToParam("wanttoplay", o.wantToPlay)
      + FilterToParam("wanttobuy", o.wantToBuy) + FilterToParam("prevowned", o.previouslyOwned)
      + FilterToParam("hasparts", o.hasParts) + FilterToParam("wantparts", o.wantParts);
    assert |r| == |p| + |FilterToParam("preordered", o.preOrdered)| + |FilterToParam("wanttoplay", o.wantToPlay)|
      + |FilterToParam("wanttobuy", o.wantToBuy)| + |FilterToParam("prevowned", o.previouslyOwned)|
      + |FilterToParam("hasparts", o.hasParts)| + |FilterToParam("wantparts", o.wantParts)|;
    r
  }

  /** The rating bounds and the play-count bounds. */
  function WithBounds(p: string, o: CollectionOptions): (r: string)
    ensures p <= r
    ensures r == p <==> o.minRating.None? && o.rating.None? && o.minBggRating.None? && o.bggRating.None?
                        && o.minPlays.None? && o.maxPlays.None?
  {
    var r := p + U8ToParam("minrating", o.minRating) + U8ToParam("rating", o.rating)
      + U8ToParam("minbggrating", o.minBggRating) + U8ToParam("bggrating", o.bggRating)
      + U16ToParam("minplays", o.minPlays) + U16ToParam("maxplays", o.maxPlays);
    assert |r| == |p| + |U8ToParam("minrating", o.minRating)| + |U8ToParam("rating", o.rating)|
      + |U8ToParam("minbggrating", o.minBggRating)| + |U8ToParam("bggrating", o.bggRating)|
      + |U16ToParam("minplays", o.minPlays)| + |U16ToParam("maxplays", o.maxPlays)|;
    r
  }

  function WithCollectionId(p: string, o: CollectionOptions): (r: string)
    ensures p <= r && (r == p <==> o.collectionId.None?)
  {
    match o.collectionId
    case None => p
    case Some(id) => p + "&collid=" + NatToString(id)
  }

  /** The whole query string: the head, then every optional parameter in
      a fixed order. */
  function UrlParams(o: CollectionOptions): string
  {
    var selected := WithIds(WithExclude(Head(o), o), o);
    WithCollectionId(WithBounds(WithHoldings(WithWants(WithFlags(selected, o), o), o), o), o)
  }

  /** No optional parameter is set. */
  predicate NothingOptionalSet(o: CollectionOptions)
  {
    o.excludeSubType.None? && o.ids.None? && !o.version && !o.brief && !o.stats
    && o.own.None? && o.rated.None? && o.played.None? && o.comment.None? && o.trade.None?
    && o.want.None? && o.wishlist.None? && o.wishlistPriority.None? && o.preOrdered.None?
    && o.wantToPlay.None? && o.wantToBuy.None? && o.previouslyOwned.None? && o.hasParts.None?
    && o.wantParts.None? && o.minRating.None? && o.rating.None? && o.minBggRating.None?
    && o.bggRating.None? && o.minPlays.None? && o.maxPlays.None? && o.collectionId.None?
  }

  /** Every query string starts with the head, and options left unset
      contribute nothing: with none set, the head is all there is. */
  lemma HeadComesFirst(o: CollectionOptions)
    ensures Head(o) <= UrlParams(o)
    ensures NothingOptionalSet(o) <==> UrlParams(o) == Head(o)
  {
    var p0 := Head(o);
    var p1 := WithExclude(p0, o);
    var p2 := WithIds(p1, o);
    var p3 := WithFlags(p2, o);
    var p4 := WithWants(p3, o);
    var p5 := WithHoldings(p4, o);
    var p6 := WithBounds(p5, o);
    var p7 := WithCollectionId(p6, o);
    assert |p0| <= |p1| <= |p2| <= |p3| <= |p4| <= |p5| <= |p6| <= |p7|;
    PrefixTransitive(p0, p1, p2);
    PrefixTransitive(p0, p2, p3);
    PrefixTransitive(p0, p3, p4);
    PrefixTransitive(p0, p4, p5);
    PrefixTransitive(p0, p5, p6);
    PrefixTransitive(p0, p6, p7);
  }

  lemma PrefixTransitive(a: string, b: string, c: string)
    requires a <= b && b <= c
    ensures a <= c
  {
    assert c[..|b|][..|a|] == c[..|a|];
  }

  /** `as_url_params`: the query string built by appending one parameter
      after another to a growing string. */
  method AsUrlParams(o: CollectionOptions) returns (params: string)
    ensures params == UrlParams(o)
  {
    params := "?username=";
    params := params + o.user;
    params := params + "&subtype=";
    params := params + ThingTypeAsStr(o.subType);
    ghost var sofar := params;
    if o.excludeSubType.Some? {
      params := params + "&excludesubtype=";
      params := params + ThingTypeAsStr(o.excludeSubType.value);
    }
    if o.ids.Some? {
      params := params + "&id=";
      params := params + IdList(o.ids.value);
    }
    assert params == WithIds(WithExclude(sofar, o), o);
    sofar := params;
    params := params + BoolToParam("version", o.version);
    params := params + BoolToParam("brief", o.brief);
    params := params + BoolToParam("stats", o.stats);
    assert params == WithFlags(sofar, o);
    sofar := params;
    params := params + FilterToParam("own", o.own);
    params := params + FilterToParam("rated", o.rated);
    params := params + FilterToParam("played", o.played);
    params := params + FilterToParam("comment", o.comment);
    params := params + FilterToParam("trade", o.trade);
    params := params + FilterToParam("want", o.want);
    params := params + FilterToParam("wishlist", o.wishlist);
    params := params + U8ToParam("wishlistpriority", o.wishlistPriority);
    assert params == WithWants(sofar, o);
    sofar := params;
    params := params + FilterToParam("preordered", o.preOrdered);
    params := params + FilterToParam("wanttoplay", o.wantToPlay);
    params := params + FilterToParam("wanttobuy", o.wantToBuy);
    params := params + FilterToParam("prevowned", o.previouslyOwned);
    params := params + FilterToParam("hasparts", o.hasParts);
    params := params + FilterToParam("wantparts", o.wantParts);
    assert params == WithHoldings(sofar, o);
    sofar := params;
    params := params + U8ToParam("minrating", o.minRating);
    params := params + U8ToParam("rating", o.rating);
    params := params + U8ToParam("minbggrating", o.minBggRating);
    params := params + U8ToParam("bggrating", o.bggRating);
    params := params + U16ToParam("minplays", o.minPlays);
    params := params + U16ToParam("maxplays", o.maxPlays);
    assert params == WithBounds(sofar, o);
    sofar := params;
    if o.collectionId.Some? {
      params := params + "&collid=";
      params := params + NatToString(o.collectionId.value);
    }
    assert params == WithCollectionId(sofar, o);
  }

  // ---------------------------------------------------------------------
  // The builder
  // ---------------------------------------------------------------------

  /** `CollectionOptionsBuilder`: it owns the options and hands them over
      on `build`. */
  datatype CollectionOptionsBuilder = CollectionOptionsBuilder(options: CollectionOptions)

  /** `CollectionOptionsBuilder::default`: the user's board games, brief,
      and no other option set. */
  function Default(user: string): (b: CollectionOptionsBuilder)
    ensures b.options.user == user && b.options.subType == BoardGame
    ensures NothingOptionalSet(b.options.(brief := false)) && b.options.brief
  {
    CollectionOptionsBuilder(CollectionOptions(
      user, false, BoardGame, None, None, true, false,
      None, None, None, None, None, None, None, None, None, None, None, None, None, None,
      None, None, None, None, None, None, None))
  }

  /** The default options ask for the user's board games, briefly. */
  lemma DefaultUrlParams(user: string)
    ensures UrlParams(Build(Default(user))) == "?username=" + user + "&subtype=" + "boardgame" + Param("brief", "1")
  {
    var o := Build(Default(user));
    assert WithFlags(Head(o), o) == Head(o) + Param("brief", "1");
  }

  /** What one call of a builder setter asks for. */
  datatype Setting =
    | SubType(subType: ThingType)
    | ExcludeSubType(excluded: ThingType)
    | Ids(ids: Option<seq<u32>>)
    | Version(flag: bool)
    | Brief(flag: bool)
    | Stats(flag: bool)
    | Own(filter: Filter)
    | Rated(filter: Filter)
    | Played(filter: Filter)
    | Comment(filter: Filter)
    | Trade(filter: Filter)
    | Want(filter: Filter)
    | Wishlist(filter: Filter)
    | WishlistPriority(small: u8)
    | PreOrdered(filter: Filter)
    | WantToPlay(filter: Filter)
    | WantToBuy(filter: Filter)
    | PreviouslyOwned(filter: Filter)
    | HasParts(filter: Filter)
    | WantParts(filter: Filter)
    | MinRating(small: u8)
    | Rating(small: u8)
    | MinBggRating(small: u8)
    | BggRating(small: u8)
    | MaxPlays(count: u16)
    | MinPlays(count: u16)
    | CollectionId(id: u32)

  /** The option a setting is about; two settings with the same key set the
      same option. */
  function Key(s: Setting): nat
  {
    match s
    case SubType(_) => 0
    case ExcludeSubType(_) => 1
    case Ids(_) => 2
    case Version(_) => 3
    case Brief(_) => 4
    case Stats(_) => 5
    case Own(_) => 6
    case Rated(_) => 7
    case Played(_) => 8
    case Comment(_) => 9
    case Trade(_) => 10
    case Want(_) => 11
    case Wishlist(_) => 12
    case WishlistPriority(_) => 13
    case PreOrdered(_) => 14
    case WantToPlay(_) => 15
    case WantToBuy(_) => 16
    case PreviouslyOwned(_) => 17
    case HasParts(_) => 18
    case WantParts(_) => 19
    case MinRating(_) => 20
    case Rating(_) => 21
    case MinBggRating(_) => 22
    case BggRating(_) => 23
    case MaxPlays(_) => 24
    case MinPlays(_) => 25
    case CollectionId(_) => 26
  }

  /** The options record has the value a setting asks for. */
  predicate Holds(o: CollectionOptions, s: Setting)
  {
    match s
    case SubType(t) => o.subType == t
    case ExcludeSubType(t) => o.excludeSubType == Some(t)
    case Ids(ids) => o.ids == ids
    case Version(b) => o.version == b
    case Brief(b) => o.brief == b
    case Stats(b) => o.stats == b
    case Own(f) => o.own == Some(f)
    case Rated(f) => o.rated == Some(f)
    case Played(f) => o.played == Some(f)
    case Comment(f) => o.comment == Some(f)
    case Trade(f) => o.trade == Some(f)
    case Want(f) => o.want == Some(f)
    case Wishlist(f) => o.wishlist == Some(f)
    case WishlistPriority(v) => o.wishlistPriority == Some(v)
    case PreOrdered(f) => o.preOrdered == Some(f)
    case WantToPlay(f) => o.wantToPlay == Some(f)
    case WantToBuy(f) => o.wantToBuy == Some(f)
    case PreviouslyOwned(f) => o.previouslyOwned == Some(f)
    case HasParts(f) => o.hasParts == Some(f)
    case WantParts(f) => o.wantParts == Some(f)
    case MinRating(v) => o.minRating == Some(v)
    case Rating(v) => o.rating == Some(v)
    case MinBggRating(v) => o.minBggRating == Some(v)
    case BggRating(v) => o.bggRating == Some(v)
    case MaxPlays(v) => o.maxPlays == Some(v)
    case MinPlays(v) => o.minPlays == Some(v)
    case CollectionId(v) => o.collectionId == Some(v)
  }

  /** One builder setter (`sub_type`, `exclude_sub_type`, `ids`, those the
      `option_bool!`, `option_filter!` and `option_u8!` macros generate,
      `max_plays`, `min_plays`, `collection_id`): the option the setting is
      about takes its value, every other option keeps its own. */
  function Set(b: CollectionOptionsBuilder, s: Setting): CollectionOptionsBuilder
  {
    var o := b.options;
    CollectionOptionsBuilder(CollectionOptions(
      o.user,
      if s.Version? then s.flag else o.version,
      if s.SubType? then s.subType else o.subType,
      if s.ExcludeSubType? then Some(s.excluded) else o.excludeSubType,
      if s.Ids? then s.ids else o.ids,
      if s.Brief? then s.flag else o.brief,
      if s.Stats? then s.flag else o.stats,
      if s.Own? then Some(s.filter) else o.own,
      if s.Rated? then Some(s.filter) else o.rated,
      if s.Played? then Some(s.filter) else o.played,
      if s.Comment? then Some(s.filter) else o.comment,
      if s.Trade? then Some(s.filter) else o.trade,
      if s.Want? then Some(s.filter) else o.want,
      if s.Wishlist? then Some(s.filter) else o.wishlist,
      if s.WishlistPriority? then Some(s.small) else o.wishlistPriority,
      if s.PreOrdered? then Some(s.filter) else o.preOrdered,
      if s.WantToPlay? then Some(s.filter) else o.wantToPlay,
      if s.WantToBuy? then Some(s.filter) else o.wantToBuy,
      if s.PreviouslyOwned? then Some(s.filter) else o.previouslyOwned,
      if s.HasParts? then Some(s.filter) else o.hasParts,
      if s.WantParts? then Some(s.filter) else o.wantParts,
      if s.MinRating? then Some(s.small) else o.minRating,
      if s.Rating? then Some(s.small) else o.rating,
      if s.MinBggRating? then Some(s.small) else o.minBggRating,
      if s.BggRating? then Some(s.small) else o.bggRating,
      if s.MinPlays? then Some(s.count) else o.minPlays,
      if s.MaxPlays? then Some(s.count) else o.maxPlays,
      if s.CollectionId? then Some(s.id) else o.collectionId))
  }

  /** A setter stores its value in its option, and never changes the user. */
  lemma SetHolds(b: CollectionOptionsBuilder, s: Setting)
    ensures Holds(Set(b, s).options, s)
    ensures Set(b, s).options.user == b.options.user
  {
  }

  /** Settings with the same key are settings of the same setter. */
  lemma SameKeySameSetter(s: Setting, t: Setting)
    requires Key(s) == Key(t)
    ensures (s.SubType? <==> t.SubType?)
            && (s.ExcludeSubType? <==> t.ExcludeSubType?)
            && (s.Ids? <==> t.Ids?)
            && (s.Version? <==> t.Version?)
            && (s.Brief? <==> t.Brief?)
            && (s.Stats? <==> t.Stats?)
            && (s.Own? <==> t.Own?)
            && (s.Rated? <==> t.Rated?)
            && (s.Played? <==> t.Played?)
            && (s.Comment? <==> t.Comment?)
            && (s.Trade? <==> t.Trade?)
            && (s.Want? <==> t.Want?)
            && (s.Wishlist? <==> t.Wishlist?)
            && (s.WishlistPriority? <==> t.WishlistPriority?)
            && (s.PreOrdered? <==> t.PreOrdered?)
            && (s.WantToPlay? <==> t.WantToPlay?)
            && (s.WantToBuy? <==> t.WantToBuy?)
            && (s.PreviouslyOwned? <==> t.PreviouslyOwned?)
            && (s.HasParts? <==> t.HasParts?)
            && (s.WantParts? <==> t.WantParts?)
            && (s.MinRating? <==> t.MinRating?)
            && (s.Rating? <==> t.Rating?)
            && (s.MinBggRating? <==> t.MinBggRating?)
            && (s.BggRating? <==> t.BggRating?)
            && (s.MaxPlays? <==> t.MaxPlays?)
            && (s.MinPlays? <==> t.MinPlays?)
            && (s.CollectionId? <==> t.CollectionId?)
  {
  }

  /** A setter touches only its own option: every setting about another
      option holds afterwards exactly when it held before. */
  lemma SetChangesOnlyItsOption(b: CollectionOptionsBuilder, s: Setting, t: Setting)
    requires Key(t) != Key(s)
    ensures Holds(Set(b, s).options, t) <==> Holds(b.options, t)
  {
  }

  /** Of two settings of the same option, the later one wins. */
  lemma LaterSettingWins(b: CollectionOptionsBuilder, s: Setting, t: Setting)
    requires Key(t) == Key(s)
    ensures Set(Set(b, s), t) == Set(b, t)
  {
    SameKeySameSetter(s, t);
  }

  /** The setters `ss[from..]` called one after another on `b`, as a
      builder chain. */
  function SetAll(b: CollectionOptionsBuilder, ss: seq<Setting>, from: nat): CollectionOptionsBuilder
    requires from <= |ss|
    decreases |ss| - from
  {
    if from == |ss| then b else SetAll(Set(b, ss[from]), ss, from + 1)
  }

  /** `build`: the options as set. */
  function Build(b: CollectionOptionsBuilder): CollectionOptions
  {
    b.options
  }

  /** Setters about other options leave a setting as it was. */
  lemma {:induction false} SetAllPreserves(b: CollectionOptionsBuilder, ss: seq<Setting>, from: nat, t: Setting)
    requires from <= |ss|
    requires forall j :: from <= j < |ss| ==> Key(ss[j]) != Key(t)
    ensures Holds(Build(SetAll(b, ss, from)), t) <==> Holds(b.options, t)
    decreases |ss| - from
  {
    if from < |ss| {
      SetAllPreserves(Set(b, ss[from]), ss, from + 1, t);
      SetChangesOnlyItsOption(b, ss[from], t);
    }
  }

  /** After a chain of setters, each setting holds unless a later one in the
      chain is about the same option. */
  lemma {:induction false} SetAllKeepsLastSettings(b: CollectionOptionsBuilder, ss: seq<Setting>, from: nat, i: nat)
    requires from <= i < |ss|
    requires forall j :: i < j < |ss| ==> Key(ss[j]) != Key(ss[i])
    ensures Holds(Build(SetAll(b, ss, from)), ss[i])
    decreases |ss| - from
  {
    if from < i {
      SetAllKeepsLastSettings(Set(b, ss[from]), ss, from + 1, i);
    } else {
      SetAllPreserves(Set(b, ss[i]), ss, i + 1, ss[i]);
      SetHolds(b, ss[i]);
    }
  }

  // ---------------------------------------------------------------------
  // The two examples of src/options/collections.rs
  // ---------------------------------------------------------------------

  /** The options that chain builds. */
  const FULL_OPTIONS := CollectionOptions(
    "unixgeek", true, BoardGame, Some(BoardGameExpansion), Some([1, 2, 3]), false, true,
    Some(Include), Some(Exclude), Some(Include), Some(Exclude), Some(Include), Some(Exclude), Some(Include),
    Some(4), Some(Exclude), Some(Include), Some(Exclude), Some(Include), Some(Exclude), Some(Include),
    Some(6), Some(8), Some(4), Some(6), Some(2), Some(4), Some(100))

  // The setter chain of the fully populated example, three setters at a time.

  lemma Steps1(b: CollectionOptionsBuilder)
    ensures Set(Set(Set(b, ExcludeSubType(BoardGameExpansion)), Version(true)), Ids(Some([1, 2, 3])))
         == CollectionOptionsBuilder(b.options.(excludeSubType := Some(BoardGameExpansion), version := true, ids := Some([1, 2, 3])))
  {
  }

  lemma Steps2(b: CollectionOptionsBuilder)
    ensures Set(Set(Set(b, Brief(false)), Stats(true)), Own(Include))
         == CollectionOptionsBuilder(b.options.(brief := false, stats := true, own := Some(Include)))
  {
  }

  lemma Steps3(b: CollectionOptionsBuilder)
    ensures Set(Set(Set(b, Rated(Exclude)), Played(Include)), Comment(Exclude))
         == CollectionOptionsBuilder(b.options.(rated := Some(Exclude), played := Some(Include), comment := Some(Exclude)))
  {
  }

  lemma Steps4(b: CollectionOptionsBuilder)
    ensures Set(Set(Set(b, Trade(Include)), Want(Exclude)), Wishlist(Include))
         == CollectionOptionsBuilder(b.options.(trade := Some(Include), want := Some(Exclude), wishlist := Some(Include)))
  {
  }

  lemma Steps5(b: CollectionOptionsBuilder)
    ensures Set(Set(Set(b, WishlistPriority(4)), PreOrdered(Exclude)), WantToPlay(Include))
         == CollectionOptionsBuilder(b.options.(wishlistPriority := Some(4), preOrdered := Some(Exclude), wantToPlay := Some(Include)))
  {
  }

  lemma Steps6(b: CollectionOptionsBuilder)
    ensures Set(Set(Set(b, WantToBuy(Exclude)), PreviouslyOwned(Include)), HasParts(Exclude))
         == CollectionOptionsBuilder(b.options.(wantToBuy := Some(Exclude), previouslyOwned := Some(Include), hasParts := Some(Exclude)))
  {
  }

  lemma Steps7(b: CollectionOptionsBuilder)
    ensures Set(Set(Set(b, WantParts(Include)), MinRating(6)), Rating(8))
         == CollectionOptionsBuilder(b.options.(wantParts := Some(Include), minRating := Some(6), rating := Some(8)))
  {
  }

  lemma Steps8(b: CollectionOptionsBuilder)
    ensures Set(Set(Set(b, MinBggRating(4)), BggRating(6)), MinPlays(2))
         == CollectionOptionsBuilder(b.options.(minBggRating := Some(4), bggRating := Some(6), minPlays := Some(2)))
  {
  }

  lemma Steps9(b: CollectionOptionsBuilder)
    ensures Set(Set(b, MaxPlays(4)), CollectionId(100))
         == CollectionOptionsBuilder(b.options.(maxPlays := Some(4), collectionId := Some(100)))
  {
  }

  /** The setter chain of the fully populated example builds these options. */
  lemma FullChainBuilds()
    ensures Build(
      Set(Set(Set(Set(Set(Set(Set(Set(Set(Set(Set(Set(Set(Set(Set(Set(Set(Set(Set(Set(Set(Set(Set(Set(Set(Set(
        Default("unixgeek"),
        ExcludeSubType(BoardGameExpansion)), Version(true)), Ids(Some([1, 2, 3]))), Brief(false)), Stats(true)),
        Own(Include)), Rated(Exclude)), Played(Include)), Comment(Exclude)), Trade(Include)), Want(Exclude)),
        Wishlist(Include)), WishlistPriority(4)), PreOrdered(Exclude)), WantToPlay(Include)), WantToBuy(Exclude)),
        PreviouslyOwned(Include)), HasParts(Exclude)), WantParts(Include)), MinRating(6)), Rating(8)),
        MinBggRating(4)), BggRating(6)), MinPlays(2)), MaxPlays(4)), CollectionId(100)))
      == FULL_OPTIONS
  {
    var b0 := Default("unixgeek");
    Steps1(b0);
    var b1 := Set(Set(Set(b0, ExcludeSubType(BoardGameExpansion)), Version(true)), Ids(Some([1, 2, 3])));
    Steps2(b1);
    var b2 := Set(Set(Set(b1, Brief(false)), Stats(true)), Own(Include));
    Steps3(b2);
    var b3 := Set(Set(Set(b2, Rated(Exclude)), Played(Include)), Comment(Exclude));
    Steps4(b3);
    var b4 := Set(Set(Set(b3, Trade(Include)), Want(Exclude)), Wishlist(Include));
    Steps5(b4);
    var b5 := Set(Set(Set(b4, WishlistPriority(4)), PreOrdered(Exclude)), WantToPlay(Include));
    Steps6(b5);
    var b6 := Set(Set(Set(b5, WantToBuy(Exclude)), PreviouslyOwned(Include)), HasParts(Exclude));
    Steps7(b6);
    var b7 := Set(Set(Set(b6, WantParts(Include)), MinRating(6)), Rating(8));
    Steps8(b7);
    var b8 := Set(Set(Set(b7, MinBggRating(4)), BggRating(6)), MinPlays(2));
    Steps9(b8);
  }

  lemma FullSelection(p: string, o: CollectionOptions)
    requires o == FULL_OPTIONS
    ensures WithIds(WithExclude(p, o), o) == p + "&excludesubtype=" + "boardgameexpansion" + "&id=" + "1,2,3"
  {
    assert Decimals([1, 2, 3]) == ["1", "2", "3"];
    assert Join(["1", "2", "3"], ",") == Join(["1", "2"], ",") + "," + "3";
    assert Join(["1", "2"], ",") == "1" + "," + "2";
  }

  lemma FullFlags(p: string, o: CollectionOptions)
    requires o == FULL_OPTIONS
    ensures WithFlags(p, o) == p + Param("version", "1") + Param("stats", "1")
  {
    assert BoolToParam("version", true) == Param("version", "1");
    assert BoolToParam("stats", true) == Param("stats", "1");
  }

  lemma FullWants(p: string, o: CollectionOptions)
    requires o == FULL_OPTIONS
    ensures WithWants(p, o) == p + Param("own", "1") + Param("rated", "0") + Param("played", "1") + Param("comment", "0") + Param("trade", "1")
              + Param("want", "0") + Param("wishlist", "1") + Param("wishlistpriority", "4")
  {
    assert FilterToParam("own", Some(Include)) == Param("own", "1");
    assert FilterToParam("rated", Some(Exclude)) == Param("rated", "0");
    assert FilterToParam("played", Some(Include)) == Param("played", "1");
    assert FilterToParam("comment", Some(Exclude)) == Param("comment", "0");
    assert FilterToParam("trade", Some(Include)) == Param("trade", "1");
    assert FilterToParam("want", Some(Exclude)) == Param("want", "0");
    assert FilterToParam("wishlist", Some(Include)) == Param("wishlist", "1");
    assert U8ToParam("wishlistpriority", Some(4)) == Param("wishlistpriority", "4");
  }

  lemma FullHoldings(p: string, o: CollectionOptions)
    requires o == FULL_OPTIONS
    ensures WithHoldings(p, o) == p + Param("preordered", "0") + Param("wanttoplay", "1") + Param("wanttobuy", "0") + Param("prevowned", "1")
              + Param("hasparts", "0") + Param("wantparts", "1")
  {
    assert FilterToParam("preordered", Some(Exclude)) == Param("preordered", "0");
    assert FilterToParam("wanttoplay", Some(Include)) == Param("wanttoplay", "1");
    assert FilterToParam("wanttobuy", Some(Exclude)) == Param("wanttobuy", "0");
    assert FilterToParam("prevowned", Some(Include)) == Param("prevowned", "1");
    assert FilterToParam("hasparts", Some(Exclude)) == Param("hasparts", "0");
    assert FilterToParam("wantparts", Some(Include)) == Param("wantparts", "1");
  }

  lemma FullBounds(p: string, o: CollectionOptions)
    requires o == FULL_OPTIONS
    ensures WithBounds(p, o) == p + Param("minrating", "6") + Param("rating", "8") + Param("minbggrating", "4") + Param("bggrating", "6")
              + Param("minplays", "2") + Param("maxplays", "4")
  {
    assert U8ToParam("minrating", Some(6)) == Param("minrating", "6");
    assert U8ToParam("rating", Some(8)) == Param("rating", "8");
    assert U8ToParam("minbggrating", Some(4)) == Param("minbggrating", "4");
    assert U8ToParam("bggrating", Some(6)) == Param("bggrating", "6");
    assert U16ToParam("minplays", Some(2)) == Param("minplays", "2");
    assert U16ToParam("maxplays", Some(4)) == Param("maxplays", "4");
  }

  /** Everything the fully populated example sends before its collection id. */
  lemma FullPrefix(o: CollectionOptions)
    requires o == FULL_OPTIONS
    ensures WithBounds(WithHoldings(WithWants(WithFlags(WithIds(WithExclude(Head(o), o), o), o), o), o), o) ==
      "?username=" + "unixgeek" + "&subtype=" + "boardgame" + "&excludesubtype=" + "boardgameexpansion"
      + "&id=" + "1,2,3" + Param("version", "1") + Param("stats", "1")
      + Param("own", "1") + Param("rated", "0") + Param("played", "1") + Param("comment", "0")
      + Param("trade", "1") + Param("want", "0") + Param("wishlist", "1") + Param("wishlistpriority", "4")
      + Param("preordered", "0") + Param("wanttoplay", "1") + Param("wanttobuy", "0")
      + Param("prevowned", "1") + Param("hasparts", "0") + Param("wantparts", "1")
      + Param("minrating", "6") + Param("rating", "8") + Param("minbggrating", "4") + Param("bggrating", "6")
      + Param("minplays", "2") + Param("maxplays", "4")
  {
    var p0 := Head(o);
    assert p0 == "?username=" + "unixgeek" + "&subtype=" + "boardgame";
    FullSelection(p0, o);
    var p2 := WithIds(WithExclude(p0, o), o);
    FullFlags(p2, o);
    var p3 := WithFlags(p2, o);
    FullWants(p3, o);
    var p4 := WithWants(p3, o);
    FullHoldings(p4, o);
    var p5 := WithHoldings(p4, o);
    FullBounds(p5, o);
  }

  /** The fully populated example: every option is sent, in the fixed order. */
  lemma FullUrlParams(o: CollectionOptions)
    requires o == FULL_OPTIONS
    ensures UrlParams(o) ==
      "?username=" + "unixgeek" + "&subtype=" + "boardgame" + "&excludesubtype=" + "boardgameexpansion"
      + "&id=" + "1,2,3" + Param("version", "1") + Param("stats", "1")
      + Param("own", "1") + Param("rated", "0") + Param("played", "1") + Param("comment", "0")
      + Param("trade", "1") + Param("want", "0") + Param("wishlist", "1") + Param("wishlistpriority", "4")
      + Param("preordered", "0") + Param("wanttoplay", "1") + Param("wanttobuy", "0")
      + Param("prevowned", "1") + Param("hasparts", "0") + Param("wantparts", "1")
      + Param("minrating", "6") + Param("rating", "8") + Param("minbggrating", "4") + Param("bggrating", "6")
      + Param("minplays", "2") + Param("maxplays", "4")
      + "&collid=" + "100"
  {
    FullPrefix(o);
    Hundred();
  }

  lemma Hundred()
    ensures NatToString(100) == "100"
  {
    assert DigitChar(0) == '0' && DigitChar(1) == '1';
    assert NatToString(1) == "1";
    assert NatToString(10) == NatToString(1) + [DigitChar(0)];
    assert NatToString(100) == NatToString(10) + [DigitChar(0)];
  }
}
