/** The `/thing` query options of src/options/thing.rs: the kinds of thing
    asked for and five flags, rendered as URL parameters, and the builder
    that fills them in one setting at a time. */
module ThingOptions {
  import opened Errors
  import opened Text
  import opened Options

  datatype ThingType = BoardGame | BoardGameExpansion | BoardGameAccessory | VideoGame | RpgItem | RpgIssue

  /** The API's tag for each kind of thing. */
  function Tag(t: ThingType): (s: string)
    ensures |s| > 0 && ',' !in s && '&' !in s
  {
    match t
    case BoardGame => "boardgame"
    case BoardGameExpansion => "boardgameexpansion"
    case BoardGameAccessory => "boardgameaccessory"
    case VideoGame => "videogame"
    case RpgItem => "rpgitem"
    case RpgIssue => "rpgissue"
  }

  /** Reading a tag back. */
  function TypeOfTag(s: string): Option<ThingType>
  {
    if s == "boardgame" then Some(BoardGame)
    else if s == "boardgameexpansion" then Some(BoardGameExpansion)
    else if s == "boardgameaccessory" then Some(BoardGameAccessory)
    else if s == "videogame" then Some(VideoGame)
    else if s == "rpgitem" then Some(RpgItem)
    else if s == "rpgissue" then Some(RpgIssue)
    else None
  }

  /** Every tag reads back as its kind, so no two kinds share a tag. */
  lemma TagRoundTrip(t: ThingType)
    ensures TypeOfTag(Tag(t)) == Some(t)
    ensures forall u :: Tag(u) == Tag(t) ==> u == t
  {
    forall u | Tag(u) == Tag(t) ensures u == t {
      assert TypeOfTag(Tag(u)) == Some(u);
    }
  }

  /** The tags of the kinds, in order. */
  function Tags(ts: seq<ThingType>): (tags: seq<string>)
    ensures |tags| == |ts| && forall i :: 0 <= i < |ts| ==> tags[i] == Tag(ts[i])
  {
    if |ts| == 0 then [] else Tags(ts[..|ts| - 1]) + [Tag(ts[|ts| - 1])]
  }

  /** Reading a list of tags back, failing on the first unknown one. */
  function TypesOfTags(tags: seq<string>): Option<seq<ThingType>>
  {
    if |tags| == 0 then Some([])
    else match (TypesOfTags(tags[..|tags| - 1]), TypeOfTag(tags[|tags| - 1]))
      case (Some(ts), Some(t)) => Some(ts + [t])
      case _ => None
  }

  lemma {:induction false} TagsRoundTrip(ts: seq<ThingType>)
    ensures TypesOfTags(Tags(ts)) == Some(ts)
  {
    if |ts| > 0 {
      var tags := Tags(ts);
      assert tags[..|tags| - 1] == Tags(ts[..|ts| - 1]);
      TagsRoundTrip(ts[..|ts| - 1]);
      TagRoundTrip(ts[|ts| - 1]);
      assert ts[..|ts| - 1] + [ts[|ts| - 1]] == ts;
    }
  }

  /** The tags joined by commas: the value of `thingtype`. */
  function TypeList(ts: seq<ThingType>): string
  {
    Join(Tags(ts), ",")
  }

  /** `ThingOptions`. */
  datatype ThingOptions = ThingOptions(
    thingTypes: seq<ThingType>,
    versions: bool,
    videos: bool,
    stats: bool,
    marketplace: bool,
    comments: bool)

  /** The query string `into_url_params` builds: the kinds, always present,
      then each flag that is set, in a fixed order. */
  function UrlParams(o: ThingOptions): string
  {
    "&thingtype=" + TypeList(o.thingTypes)
      + BoolToParam("versions", o.versions)
      + BoolToParam("videos", o.videos)
      + BoolToParam("stats", o.stats)
      + BoolToParam("marketplace", o.marketplace)
      + BoolToParam("comments", o.comments)
  }

  /** `into_url_params`: the tags joined first, then one parameter after
      another appended to a growing string. */
  method IntoUrlParams(o: ThingOptions) returns (params: string)
    ensures params == UrlParams(o)
  {
    var thingTypes := TypeList(o.thingTypes);
    params := "";
    params := params + "&thingtype=";
    params := params + thingTypes;
    assert params == "&thingtype=" + TypeList(o.thingTypes);
    params := params + BoolToParam("versions", o.versions);
    params := params + BoolToParam("videos", o.videos);
    params := params + BoolToParam("stats", o.stats);
    params := params + BoolToParam("marketplace", o.marketplace);
    params := params + BoolToParam("comments", o.comments);
  }

  // ---------------------------------------------------------------------
  // Reading the query string back
  // ---------------------------------------------------------------------

  /** A flag as a `name=1` entry, or no entry when unset. */
  function FlagEntry(name: string, b: bool): seq<string>
  {
    if b then [name + "=1"] else []
  }

  /** The pieces the query string is meant to fall into when cut at `&`:
      the empty text before the first `&`, the kinds as `thingtype=`
      followed by their list, then each set flag as `name=1`, in order. */
  function Pieces(o: ThingOptions): (ps: seq<string>)
    ensures |ps| >= 2 && ps[0] == "" && ps[1] == "thingtype=" + TypeList(o.thingTypes)
  {
    ["", "thingtype=" + TypeList(o.thingTypes)]
      + FlagEntry("versions", o.versions)
      + FlagEntry("videos", o.videos)
      + FlagEntry("stats", o.stats)
      + FlagEntry("marketplace", o.marketplace)
      + FlagEntry("comments", o.comments)
  }

  /** Cutting at `&` after a flag's parameter has been appended gives the
      flag's entry after the pieces before it. */
  lemma SplitFlag(s: string, name: string, b: bool)
    requires '&' !in name
    ensures Split(s + BoolToParam(name, b), '&') == Split(s, '&') + FlagEntry(name, b)
  {
    if b {
      var entry := name + "=1";
      assert '&' !in entry;
      assert s + BoolToParam(name, b) == s + ['&'] + entry;
      SplitAtSeparator(s, entry, '&');
      SplitWithoutSeparator(entry, '&');
    } else {
      assert s + BoolToParam(name, b) == s;
    }
  }

  /** The five flags appended after any text add their entries after that
      text's pieces. */
  lemma SplitFlags(s: string, e: seq<string>, o: ThingOptions)
    requires Split(s, '&') == e
    ensures Split(s + BoolToParam("versions", o.versions)
                    + BoolToParam("videos", o.videos)
                    + BoolToParam("stats", o.stats)
                    + BoolToParam("marketplace", o.marketplace)
                    + BoolToParam("comments", o.comments), '&')
         == e + FlagEntry("versions", o.versions)
              + FlagEntry("videos", o.videos)
              + FlagEntry("stats", o.stats)
              + FlagEntry("marketplace", o.marketplace)
              + FlagEntry("comments", o.comments)
  {
    var s1, e1 := s + BoolToParam("versions", o.versions), e + FlagEntry("versions", o.versions);
    SplitFlag(s, "versions", o.versions);
    var s2, e2 := s1 + BoolToParam("videos", o.videos), e1 + FlagEntry("videos", o.videos);
    SplitFlag(s1, "videos", o.videos);
    var s3, e3 := s2 + BoolToParam("stats", o.stats), e2 + FlagEntry("stats", o.stats);
    SplitFlag(s2, "stats", o.stats);
    var s4 := s3 + BoolToParam("marketplace", o.marketplace);
    SplitFlag(s3, "marketplace", o.marketplace);
    SplitFlag(s4, "comments", o.comments);
  }

  /** The kinds' parameter alone: an empty piece, then its entry. */
  lemma SplitHead(list: string)
    requires '&' !in list
    ensures Split("&thingtype=" + list, '&') == ["", "thingtype=" + list]
  {
    var kinds := "thingtype=" + list;
    assert '&' !in kinds;
    assert "&thingtype=" + list == "" + ['&'] + kinds;
    SplitAtSeparator("", kinds, '&');
    SplitWithoutSeparator(kinds, '&');
  }

  /** Cutting the query string at `&` gives back its pieces. With no kinds
      the `thingtype` parameter is still sent, empty. */
  lemma UrlParamsReadBack(o: ThingOptions)
    ensures Split(UrlParams(o), '&') == Pieces(o)
    ensures o.thingTypes == [] ==> Pieces(o)[1] == "thingtype="
  {
    JoinChars(Tags(o.thingTypes), ',', '&');
    SplitHead(TypeList(o.thingTypes));
    SplitFlags("&thingtype=" + TypeList(o.thingTypes), ["", "thingtype=" + TypeList(o.thingTypes)], o);
  }

  /** Cutting a non-empty list of kinds at `,` gives back the tags, which
      read back as the kinds. */
  lemma TypeListReadBack(ts: seq<ThingType>)
    requires |ts| >= 1
    ensures TypesOfTags(Split(TypeList(ts), ',')) == Some(ts)
  {
    TagsRoundTrip(ts);
    SplitJoin(Tags(ts), ',');
  }

  /** The pieces are the empty head, the kinds' entry and the entries of
      the set flags, and nothing else. */
  lemma InPieces(o: ThingOptions, x: string)
    ensures x in Pieces(o) <==>
      x == "" || x == "thingtype=" + TypeList(o.thingTypes)
      || (o.versions && x == "versions=1") || (o.videos && x == "videos=1")
      || (o.stats && x == "stats=1") || (o.marketplace && x == "marketplace=1")
      || (o.comments && x == "comments=1")
  {
    assert "versions" + "=1" == "versions=1";
    assert "videos" + "=1" == "videos=1";
    assert "stats" + "=1" == "stats=1";
    assert "marketplace" + "=1" == "marketplace=1";
    assert "comments" + "=1" == "comments=1";
  }

  /** A flag is sent exactly when it is set. */
  lemma FlagSentIffSet(o: ThingOptions)
    ensures o.versions <==> "versions=1" in Pieces(o)
    ensures o.videos <==> "videos=1" in Pieces(o)
    ensures o.stats <==> "stats=1" in Pieces(o)
    ensures o.marketplace <==> "marketplace=1" in Pieces(o)
    ensures o.comments <==> "comments=1" in Pieces(o)
  {
    var kinds := "thingtype=" + TypeList(o.thingTypes);
    assert kinds[0] == 't';
    assert "versions=1"[1] != "videos=1"[1];
    InPieces(o, "versions=1");
    InPieces(o, "videos=1");
    InPieces(o, "stats=1");
    InPieces(o, "marketplace=1");
    InPieces(o, "comments=1");
  }

  // ---------------------------------------------------------------------
  // The builder
  // ---------------------------------------------------------------------

  /** `ThingOptionsBuilder`: it owns the options and hands them over on
      `build`. */
  datatype ThingOptionsBuilder = ThingOptionsBuilder(options: ThingOptions)

  /** `ThingOptionsBuilder::default`: board games only, no flag set. */
  function Default(): (b: ThingOptionsBuilder)
    ensures b.options.thingTypes == [BoardGame]
    ensures !(b.options.versions || b.options.videos || b.options.stats
              || b.options.marketplace || b.options.comments)
  {
    ThingOptionsBuilder(ThingOptions([BoardGame], false, false, false, false, false))
  }

  /** The default options ask for board games and nothing more. */
  lemma DefaultUrlParams()
    ensures UrlParams(Build(Default())) == "&thingtype=boardgame"
  {
    assert Tags([BoardGame]) == ["boardgame"];
  }

  /** What one call of a builder setter asks for. */
  datatype Setting =
    | ThingTypes(types: seq<ThingType>)
    | Versions(flag: bool)
    | Videos(flag: bool)
    | Stats(flag: bool)
    | Marketplace(flag: bool)
    | Comments(flag: bool)

  /** The option a setting is about. */
  function Key(s: Setting): nat
  {
    match s
    case ThingTypes(_) => 0
    case Versions(_) => 1
    case Videos(_) => 2
    case Stats(_) => 3
    case Marketplace(_) => 4
    case Comments(_) => 5
  }

  /** The options say what the setting asked for. */
  predicate Holds(o: ThingOptions, s: Setting)
  {
    match s
    case ThingTypes(ts) => o.thingTypes == ts
    case Versions(b) => o.versions == b
    case Videos(b) => o.videos == b
    case Stats(b) => o.stats == b
    case Marketplace(b) => o.marketplace == b
    case Comments(b) => o.comments == b
  }

  /** The setters `thing_type`, `versions`, `videos`, `stats`,
      `marketplace` and `comments`, each assigning its one field. */
  function Set(b: ThingOptionsBuilder, s: Setting): ThingOptionsBuilder
  {
    var o := b.options;
    ThingOptionsBuilder(ThingOptions(
      if s.ThingTypes? then s.types else o.thingTypes,
      if s.Versions? then s.flag else o.versions,
      if s.Videos? then s.flag else o.videos,
      if s.Stats? then s.flag else o.stats,
      if s.Marketplace? then s.flag else o.marketplace,
      if s.Comments? then s.flag else o.comments))
  }

  /** A setter does what it is asked. */
  lemma SetHolds(b: ThingOptionsBuilder, s: Setting)
    ensures Holds(Set(b, s).options, s)
  {
  }

  /** A setter touches only its own option: every setting about another
      option holds afterwards exactly when it held before. */
  lemma SetChangesOnlyItsOption(b: ThingOptionsBuilder, s: Setting, t: Setting)
    requires Key(t) != Key(s)
    ensures Holds(Set(b, s).options, t) <==> Holds(b.options, t)
  {
  }

  /** Of two settings of the same option, the later one wins. */
  lemma LaterSettingWins(b: ThingOptionsBuilder, s: Setting, t: Setting)
    requires Key(t) == Key(s)
    ensures Set(Set(b, s), t) == Set(b, t)
  {
  }

  /** The setters `ss[from..]` called one after another on `b`. */
  function SetAll(b: ThingOptionsBuilder, ss: seq<Setting>, from: nat): ThingOptionsBuilder
    requires from <= |ss|
    decreases |ss| - from
  {
    if from == |ss| then b else SetAll(Set(b, ss[from]), ss, from + 1)
  }

  /** `build`: the options as set. */
  function Build(b: ThingOptionsBuilder): ThingOptions
  {
    b.options
  }

  /** Setters about other options leave a setting as it was. */
  lemma {:induction false} SetAllPreserves(b: ThingOptionsBuilder, ss: seq<Setting>, from: nat, t: Setting)
    requires from <= |ss|
    requires forall j :: from <= j < |ss| ==> Key(ss[j]) != Key(t)
    ensures Holds(Build(SetAll(b, ss, from)), t) <==> Holds(b.options, t)
    decreases |ss| - from
  {
    if from < |ss| {
      SetAllPreserves(Set(b, ss[from]), ss, from + 1, t);
      SetChangesOnlyItsOption(b, ss[from], t);
    }
  }

  /** After a chain of setters, each setting holds unless a later one in the
      chain is about the same option. */
  lemma {:induction false} SetAllKeepsLastSettings(b: ThingOptionsBuilder, ss: seq<Setting>, from: nat, i: nat)
    requires from <= i < |ss|
    requires forall j :: i < j < |ss| ==> Key(ss[j]) != Key(ss[i])
    ensures Holds(Build(SetAll(b, ss, from)), ss[i])
    decreases |ss| - from
  {
    if from < i {
      SetAllKeepsLastSettings(Set(b, ss[from]), ss, from + 1, i);
    } else {
      SetAllPreserves(Set(b, ss[i]), ss, i + 1, ss[i]);
      SetHolds(b, ss[i]);
    }
  }

  // ---------------------------------------------------------------------
  // The example of src/options/thing.rs
  // ---------------------------------------------------------------------

  /** The example chain: three flags set, two cleared, board and video
      games asked for. */
  lemma ExampleChainBuilds()
    ensures Build(Set(Set(Set(Set(Set(Set(Default(),
              Versions(true)), Videos(false)), Stats(true)), Marketplace(false)), Comments(true)),
              ThingTypes([BoardGame, VideoGame])))
         == ThingOptions([BoardGame, VideoGame], true, false, true, false, true)
  {
  }

  /** The example's query string, written as the pieces it is pushed in. */
  lemma ExampleUrlParams()
    ensures UrlParams(ThingOptions([BoardGame, VideoGame], true, false, true, false, true))
         == "&thingtype=" + "boardgame,videogame" + "&versions=1" + "&stats=1" + "&comments=1"
  {
    var tags := Tags([BoardGame, VideoGame]);
    assert tags == ["boardgame", "videogame"];
    assert Join(tags, ",") == "boardgame,videogame" by {
      assert tags[..1] == ["boardgame"];
    }
    assert Param("versions", "1") == "&versions=1";
    assert Param("stats", "1") == "&stats=1";
    assert Param("comments", "1") == "&comments=1";
  }
}
