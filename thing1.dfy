/** The raw shape of a `/thing` response after the stylesheet has tidied it
    (src/bgg/thing/thing1.rs): items with names, player bounds, the
    "suggested number of players" poll and the average rating. Reading the
    XML into these records is the deserialiser's job and is not modelled;
    what is modelled is the one piece of logic the file holds, reading a
    poll category from its text. */
module Thing1 {
  import opened Errors
  import opened Text

  /** `<name type=".." value=".."/>`. */
  datatype Name = Name(nameType: string, value: string)

  datatype Category = Best | Recommended | NotRecommended

  /** One `<result value=".." numvotes=".."/>` of a poll row (`Result` in the source). */
  datatype Vote = Vote(value: Category, voteCount: u16)

  /** One `<results numplayers="..">` row; a row without `<result>` children
      holds no votes. (`Results` in the source.) */
  datatype PollRow = PollRow(playerCount: string, resultsByCategory: seq<Vote>)

  /** The poll; `voterCount` is the `totalvotes` attribute. */
  datatype Poll = Poll(voterCount: u16, results: seq<PollRow>)

  /** An IEEE-754 double, carried through unchanged and never computed with. */
  datatype F64 = F64(bits: bv64)

  /** One `<item>` of the response. */
  datatype Item = Item(id: u32, thingType: string, names: seq<Name>,
                       minPlayers: u8, maxPlayers: u8, poll: Poll, rating: F64)

  // ---------------------------------------------------------------------
  // Reading a category (`impl FromStr for Category`)
  // ---------------------------------------------------------------------

  const BEST := "best"
  const RECOMMENDED := "recommended"
  const NOT_RECOMMENDED := "not recommended"

  /** `Category::from_str`: the lower-cased text must be one of the three
      category names; `None` stands for `ParseCategoryError`. */
  function FromStr(s: string): (r: Option<Category>)
    ensures r.Some? <==> ToLower(s) in {BEST, RECOMMENDED, NOT_RECOMMENDED}
  {
    var t := ToLower(s);
    if t == BEST then Some(Best)
    else if t == RECOMMENDED then Some(Recommended)
    else if t == NOT_RECOMMENDED then Some(NotRecommended)
    else None
  }

  /** The spelling the XML API uses for each category. */
  function ApiName(c: Category): string
  {
    match c
    case Best => "Best"
    case Recommended => "Recommended"
    case NotRecommended => "Not Recommended"
  }

  /** Reading is insensitive to case: text and its lower-cased form read alike. */
  lemma FromStrIgnoresCase(s: string)
    ensures FromStr(s) == FromStr(ToLower(s))
  {
    ToLowerIdempotent(s);
  }

  /** Every category reads back from the API's spelling, and from the
      upper-cased spelling too. */
  lemma FromStrOfApiName(c: Category)
    ensures FromStr(ApiName(c)) == Some(c)
    ensures FromStr(ToLower(ApiName(c))) == Some(c)
  {
    FromStrIgnoresCase(ApiName(c));
  }

  // ---------------------------------------------------------------------
  // The deserialiser hook (`category_from_str`)
  // ---------------------------------------------------------------------

  /** What `category_from_str` hands the deserialiser: the category, or
      serde's "unknown variant" error carrying the offending text and the
      list of variants it expected. */
  datatype CategoryField = Read(category: Category) | UnknownVariant(variant: string, expected: seq<string>)

  /** The expected-variants list as written in the source: the closing quote
      after "Recommended" is misplaced, so the list has two entries, the
      second of which is the text "Recommended, Not Recommended". */
  const EXPECTED_AS_WRITTEN: seq<string> := ["Best", "Recommended, Not Recommended"]

  /** The list the source evidently means: one entry per category. */
  const EXPECTED_VARIANTS: seq<string> := ["Best", "Recommended", "Not Recommended"]

  /** The as-written list names an entry that the reader itself rejects, and
      names only two of the three categories. */
  lemma ExpectedAsWrittenIsWrong()
    ensures |EXPECTED_AS_WRITTEN| == 2
    ensures FromStr(EXPECTED_AS_WRITTEN[1]).None?
    ensures forall i :: 0 <= i < |EXPECTED_AS_WRITTEN| ==> FromStr(EXPECTED_AS_WRITTEN[i]) != Some(NotRecommended)
  {
    assert ToLower(EXPECTED_AS_WRITTEN[0]) == BEST;
    var t := ToLower(EXPECTED_AS_WRITTEN[1]);
    assert t[11] == ',';
    assert t != BEST && t != RECOMMENDED && t != NOT_RECOMMENDED by {
      assert |t| == 28;
    }
  }

  /** The corrected list: each entry reads as the category of the same
      position, so every category is named exactly once. */
  lemma ExpectedVariantsAreTheCategories()
    ensures |EXPECTED_VARIANTS| == 3
    ensures forall c: Category :: ApiName(c) in EXPECTED_VARIANTS
    ensures forall i :: 0 <= i < |EXPECTED_VARIANTS| ==> FromStr(EXPECTED_VARIANTS[i]).Some?
    ensures forall i, j :: 0 <= i < j < |EXPECTED_VARIANTS| ==> FromStr(EXPECTED_VARIANTS[i]) != FromStr(EXPECTED_VARIANTS[j])
  {
    FromStrOfApiName(Best);
    FromStrOfApiName(Recommended);
    FromStrOfApiName(NotRecommended);
    assert EXPECTED_VARIANTS == [ApiName(Best), ApiName(Recommended), ApiName(NotRecommended)];
  }

  /** `category_from_str`, with the corrected expected-variants list:
      accepted text becomes its category, any other text is reported back
      verbatim. */
  function CategoryFromStr(s: string): (r: CategoryField)
    ensures r.Read? <==> FromStr(s).Some?
    ensures r.Read? ==> FromStr(s) == Some(r.category)
    ensures r.UnknownVariant? ==> r.variant == s && r.expected == EXPECTED_VARIANTS
  {
    match FromStr(s)
    case Some(c) => Read(c)
    case None => UnknownVariant(s, EXPECTED_VARIANTS)
  }

  /** `category_from_str` exactly as written, with the misplaced quote. */
  function CategoryFromStrAsWritten(s: string): (r: CategoryField)
    ensures r.Read? <==> FromStr(s).Some?
    ensures r.Read? ==> FromStr(s) == Some(r.category)
    ensures r.UnknownVariant? ==> r.variant == s && r.expected == EXPECTED_AS_WRITTEN
  {
    match FromStr(s)
    case Some(c) => Read(c)
    case None => UnknownVariant(s, EXPECTED_AS_WRITTEN)
  }

  /** A rejected category is reported with a list that advertises a
      variant the reader would reject as well. */
  lemma AsWrittenAdvertisesUnreadableVariant(s: string)
    requires FromStr(s).None?
    ensures CategoryFromStrAsWritten(s).UnknownVariant?
    ensures exists v :: v in CategoryFromStrAsWritten(s).expected && FromStr(v).None?
  {
    ExpectedAsWrittenIsWrong();
    assert EXPECTED_AS_WRITTEN[1] in CategoryFromStrAsWritten(s).expected;
  }

  /** With the corrected list, every advertised variant is accepted. */
  lemma CorrectedAdvertisesReadableVariants(s: string)
    requires FromStr(s).None?
    ensures CategoryFromStr(s).UnknownVariant?
    ensures forall v :: v in CategoryFromStr(s).expected ==> FromStr(v).Some?
  {
    ExpectedVariantsAreTheCategories();
  }
}
