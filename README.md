# bgg-lib in Dafny

A model of `bgg-lib`, a Rust client for the BoardGameGeek XML API2. The model covers:

- **Query options.** The query strings for `/collection` and `/thing` requests, and the builders that fill in their options one setter at a time.
- **Request executor.** The retrying executor. Each client has its own copy of the same loop: `src/request.rs` for the current client and `src/bgg/request.rs` for the older one. The copies differ only in the first wait: 2 seconds in the current copy, 1 second in the older one. The loop retries on HTTP 202 (Accepted) and 429 (Too Many Requests) and doubles its wait after each 429. When the sixth call is also answered with 202 or 429, it gives up with "Too many retries".
- **Collection classification.** How a `/collection` response is classified: an error report, an unknown user, or a list of owned items.
- **Thing mapping.** How a `/thing` response becomes games. This includes the "best player count" rule applied to the poll in each item.
- **Clients.** Both clients, the current one in `src/lib.rs` and the older `bgg` module in `src/bgg.rs`. This covers the URLs they request, fetching games twenty ids at a time, and fetching every game a user owns.
- **Build script.** The build script that squeezes the XSLT stylesheet into one line.

### Foreign code

Some code is foreign: the HTTP agent, the XML deserialiser and the XSLT processor. The model takes each as a parameter:

- A `Server` gives the reply to each successive attempt of one request.
- A `CollectionXml` or `ThingXml` gives what the deserialiser and the stylesheet make of a text.

### Sleeping and logging

`thread::sleep` is modelled by recording each duration slept. Logging is left out.

### Files

| file | models |
|---|---|
| `errors.dfy` | the error enums, `Result`, fixed-width integers, the `?`-in-a-loop pattern (`TryMap`) |
| `text.dfy` | the standard-library string operations used: `contains`, `join`, `split`, decimal `to_string` and `parse::<u16>`, ASCII `to_lowercase` and `trim`, `replace` |
| `options.dfy` | `src/options.rs` |
| `collection_options.dfy` | `src/options/collections.rs` |
| `thing_options.dfy` | `src/options/thing.rs` |
| `request.dfy` | `src/request.rs` |
| `bgg_request.dfy` | `src/bgg/request.rs` |
| `collection.dfy` | `src/collection.rs` |
| `thing1.dfy` | `src/bgg/thing/thing1.rs` |
| `thing2.dfy` | `src/bgg/thing/thing2.rs` |
| `things.dfy` | `src/thing.rs` and `src/bgg/thing.rs`, whose `from_xml` functions are the same |
| `batching.dfy` | `slice::chunks` and putting the results of the batches back together |
| `client.dfy` | `src/lib.rs` |
| `bgg_client.dfy` | `src/bgg.rs` and `src/bgg/collection.rs` |
| `minify.dfy` | `build.rs` |

### Form of the model

Code that works step by step is modelled as methods with loops. Each method is proved equal to a specification function, and the properties are then proved about that function. The methods are:

- the executor loop (`Request.RunRequest`);
- the loops over batches, items and poll rows;
- `as_url_params` and `into_url_params`, which push one piece at a time onto a growing string;
- the build script's read loop.

The builders take `self` by value and return it, so they are datatypes with functional setters.

## Model

| member | source | states |
|---|---|---|
| Options.ParamValueOfParam | src/options.rs:6 | reading back a rendered `&name=value` under its own name gives the value |
| Options.BoolToParam | src/options.rs:4-10 | a flag contributes nothing exactly when it is unset |
| Options.BoolParamReadsBack | src/options.rs:4-10 | a set flag is sent as its name with value `1` |
| Options.U8ToParam | src/options.rs:12-16 | an 8-bit option contributes nothing exactly when it is absent |
| Options.U8ParamReadsBack | src/options.rs:12-16 | a sent 8-bit value reads back as its decimal digits, which parse back to the value |
| Options.U16ToParam | src/options.rs:18-22 | a 16-bit option contributes nothing exactly when it is absent |
| Options.U16ParamReadsBack | src/options.rs:18-22 | a sent 16-bit value reads back as its digits, which parse back to the value |
| CollectionOptions.ThingTypeRoundTrip | src/options/collections.rs:53-64 | every subtype tag reads back as its subtype, so no two subtypes share a tag |
| CollectionOptions.FilterToParam | src/options/collections.rs:258-262 | a status filter contributes nothing exactly when it is unset |
| CollectionOptions.FilterParamReadsBack | src/options/collections.rs:258-262 | a sent filter reads back as `1` (include) or `0` (exclude) |
| CollectionOptions.WithExclude | src/options/collections.rs:107-110 | the excluded subtype only extends the query so far, and changes it exactly when it is set |
| CollectionOptions.WithIds | src/options/collections.rs:112-120 | the id list only extends the query, and changes it exactly when ids are given |
| CollectionOptions.WithFlags | src/options/collections.rs:122-124 | version, brief and stats only extend the query, and change it exactly when one of them is set |
| CollectionOptions.WithWants | src/options/collections.rs:126-134 | the filters from `own` to `wishlistpriority` only extend the query, and change it exactly when one of them is set |
| CollectionOptions.WithHoldings | src/options/collections.rs:136-144 | the filters from `preordered` to `wantparts` only extend the query, and change it exactly when one of them is set |
| CollectionOptions.WithBounds | src/options/collections.rs:146-152 | the rating and play-count bounds only extend the query, and change it exactly when one of them is set |
| CollectionOptions.WithCollectionId | src/options/collections.rs:154-157 | the collection id only extends the query, and changes it exactly when it is set |
| CollectionOptions.HeadComesFirst | src/options/collections.rs:100-160 | every query starts with the user and the subtype; the query is only that exactly when no optional parameter is set |
| CollectionOptions.AsUrlParams | src/options/collections.rs:100-160 | the string pushed piece by piece equals the fixed-order definition of the query |
| CollectionOptions.Default | src/options/collections.rs:168-200 | the default options ask for the user's board games with `brief` set, and set no other optional parameter |
| CollectionOptions.DefaultUrlParams | src/options/collections.rs:268-276 | the default query is `?username=<user>&subtype=boardgame&brief=1` |
| CollectionOptions.SetHolds | src/options/collections.rs:201-251 | after a setter, its option has the value given, and the user is unchanged |
| CollectionOptions.SetChangesOnlyItsOption | src/options/collections.rs:201-251 | a setter leaves every other option as it was |
| CollectionOptions.LaterSettingWins | src/options/collections.rs:201-251 | of two calls to the same setter, only the later one counts |
| CollectionOptions.SetAllPreserves | src/options/collections.rs:201-255 | a chain of setters for other options leaves a setting as it was |
| CollectionOptions.SetAllKeepsLastSettings | src/options/collections.rs:201-255 | after a setter chain and `build`, each setting holds unless a later setter in the chain is for the same option |
| CollectionOptions.FullChainBuilds | src/options/collections.rs:279-308 | the fully populated example chain builds exactly the expected options |
| CollectionOptions.FullUrlParams | src/options/collections.rs:279-317 | the fully populated example sends every parameter, in the expected order and with the expected values |
| ThingOptions.Tag | src/options/thing.rs:32-39 | every kind's tag is non-empty and holds neither `,` nor `&` |
| ThingOptions.TagRoundTrip | src/options/thing.rs:32-39 | every tag reads back as its kind, so no two kinds share a tag |
| ThingOptions.Tags | src/options/thing.rs:29-40 | one tag per kind, in the order the kinds were given |
| ThingOptions.TagsRoundTrip | src/options/thing.rs:29-40 | the list of tags reads back as the list of kinds |
| ThingOptions.TypeListReadBack | src/options/thing.rs:29-41 | cutting a non-empty `thingtype` value at `,` gives back the kinds, in order |
| ThingOptions.IntoUrlParams | src/options/thing.rs:26-52 | the string pushed piece by piece equals the fixed-order definition of the query |
| ThingOptions.UrlParamsReadBack | src/options/thing.rs:43-49 | cutting the query at `&` gives the kinds' entry followed by the entries of the set flags, in order; with no kinds, `thingtype` is still sent, empty |
| ThingOptions.InPieces | src/options/thing.rs:43-49 | the query holds the kinds' entry, each set flag's entry, and nothing else |
| ThingOptions.FlagSentIffSet | src/options/thing.rs:45-49 | each of the five flags is sent exactly when it is set |
| ThingOptions.Default | src/options/thing.rs:61-74 | the default asks for board games only, with every flag unset |
| ThingOptions.DefaultUrlParams | src/options/thing.rs:61-74 | the default query is `&thingtype=boardgame` |
| ThingOptions.SetHolds | src/options/thing.rs:78-106 | after a setter, its option has the value given |
| ThingOptions.SetChangesOnlyItsOption | src/options/thing.rs:78-106 | a setter leaves every other option as it was |
| ThingOptions.LaterSettingWins | src/options/thing.rs:78-106 | of two calls to the same setter, only the later one counts |
| ThingOptions.SetAllPreserves | src/options/thing.rs:78-110 | a chain of setters for other options leaves a setting as it was |
| ThingOptions.SetAllKeepsLastSettings | src/options/thing.rs:78-110 | after a setter chain and `build`, each setting holds unless a later setter is for the same option |
| ThingOptions.ExampleChainBuilds | src/options/thing.rs:118-136 | the example chain builds the expected kinds and flags |
| ThingOptions.ExampleUrlParams | src/options/thing.rs:137-140 | the example's query is `&thingtype=boardgame,videogame&versions=1&stats=1&comments=1` |
| Text.ContainsIffOccurs | src/collection.rs:10 | substring search finds `sub` exactly when it occurs at some position of the text |
| Text.SplitJoin | src/options/thing.rs:40-41 | splitting a join at its one-character separator gives back the parts, when no part holds the separator |
| Text.JoinChars | src/options/thing.rs:41 | joining adds no character except the separator |
| Text.NatToString | src/lib.rs:136 | a number's decimal text is a non-empty run of digits without a leading zero |
| Text.DigitsValueOfNatToString | src/lib.rs:136 | reading a number's decimal text back gives the number |
| Text.ParseU16WithoutPlus | src/bgg/thing/thing2.rs:53 | a label without `+` parses exactly when it is a non-empty run of digits whose value fits in 16 bits, and it parses to that value |
| Text.ParseU16OfNatToString | src/bgg/thing/thing2.rs:53 | every 16-bit number, written in decimal, parses back to itself |
| Text.ToLowerIdempotent | src/bgg/thing/thing1.rs:102 | lower-casing twice changes nothing more |
| Text.TrimStart | build.rs:18 | strips only leading white space, all of it |
| Text.TrimEnd | build.rs:18 | strips only trailing white space, all of it |
| Text.RemoveChar | build.rs:18 | no occurrence of the character remains, and the text is no longer than before |
| Text.RemoveAbsentChar | build.rs:18 | a text without the character is returned unchanged |
| Text.RemoveCharKeepsOthers | build.rs:18 | every other character of the text survives |
| Text.RemoveCharAppend | build.rs:18 | removing from two parts is removing from the whole, so the characters kept stay in order |
| Text.IdListRoundTrip | src/lib.rs:136-139 | cutting the `id` parameter at commas gives one numeral per id, in order, whose value is that id |
| Errors.TryMapSucceeds | src/thing.rs:23-27 | the loop with `?` succeeds exactly when every step does, and then gives one result per element, in order |
| Errors.TryMapFailsAtFirst | src/thing.rs:23-27 | a failing loop reports the error of the first element that fails |
| Batching.Chunks | src/lib.rs:109 | every batch has between 1 and `n` ids, and every batch but the last has exactly `n` |
| Batching.ChunksFlatten | src/lib.rs:109 | the batches laid end to end give the ids: none lost, repeated or reordered |
| Batching.ChunkCount | src/lib.rs:109 | the number of batches is `|ids| / n` rounded up |
| Batching.FetchAllSucceeds | src/lib.rs:109-115 | fetching succeeds exactly when every batch does, and gives each batch's games in batch order |
| Batching.FetchAllFailsAtFirst | src/lib.rs:112 | a failed fetch reports the error of the first batch that failed; later batches play no part |
| Request.BackoffIsScaledPower | src/request.rs:34-39 | after `t` rate-limited replies the wait is the initial wait times `2^t` |
| Request.BackoffMonotonic | src/request.rs:34-39 | the wait never shrinks and never drops below the initial wait |
| Request.FirstSettled | src/request.rs:26-50 | finds the first call whose outcome is not retried, or reports that the retry limit was reached first |
| Request.Waits | src/request.rs:34-43 | the i-th sleep is the initial wait doubled once for each rate-limited reply before it |
| Request.ExecuteSettlesAt | src/request.rs:26-50 | a run whose first call that is not retried is call `k` ends as that call settles it, after `k` sleeps; a run of retries that reaches the limit ends in "Too many retries" |
| Request.RunRequest | src/request.rs:19-51 | the loop's result, number of calls and sleeps are those of the reference definition `Execute` |
| Request.DoRequest | src/request.rs:9-51 | the executor makes at most six calls and sleeps 2·2^t seconds after `t` rate-limited replies |
| Request.CallBounds | src/request.rs:26-29 | the closure is called between one and six times; there is one sleep per retried call |
| Request.DoneReturnsAtOnce | src/request.rs:32 | `Done` on the first call returns its value at once, without sleeping |
| Request.ClosureErrorPropagates | src/request.rs:31 | an error from the closure is returned at once, without retrying or sleeping |
| Request.UnexpectedStatusIsFatal | src/request.rs:45-47 | any status other than 202 and 429 ends the run with "Unexpected status code", the code and its reason |
| Request.TooManyRetries | src/request.rs:27-29 | six retried replies in a row end in "Too many retries" after six calls and six sleeps |
| Request.ThrottledDoublesWait | src/request.rs:34-39 | after a 429 reply, the next sleep is twice as long |
| Request.AcceptedKeepsWait | src/request.rs:40-44 | after a 202 reply, the next sleep is as long as the last |
| Request.WaitsBounded | src/request.rs:9-12 | every sleep lies between the initial wait and 32 times that wait, so the `u8` wait cannot overflow |
| BggRequest.DoRequest | src/bgg/request.rs:17-49 | the older executor makes at most six calls and sleeps 2^t seconds after `t` rate-limited replies |
| BggRequest.HalfTheWait | src/bgg/request.rs:9 | with a first wait of one second instead of two, the executor makes the same calls and returns the same result, and sleeps half as long each time |
| Collection.Deserialized | src/collection.rs:28-31 | a deserialiser failure becomes an XML error that carries its text; success carries the parsed value |
| Collection.FromXml | src/collection.rs:6-26 | a document holding `<errors>` is always an error, and a malformed report is an XML error carrying the deserialiser's text; any other document gives the deserialised items |
| Collection.InvalidUserIff | src/collection.rs:13-14 | the unknown-user error arises exactly from a report of one error with the invalid-username message |
| Collection.OtherReportsAreApiErrors | src/collection.rs:13-21 | every report other than the single invalid-username one is an API error that joins its messages with `, `; this covers an empty report, a single other message, and several errors among which the invalid-username message occurs |
| Collection.EmptyReportIsApiError | src/collection.rs:15-21 | an empty report is an API error with an empty text |
| Collection.SingleOtherErrorIsApiError | src/collection.rs:13-21 | a report of one message other than the invalid-username one is an API error with exactly that message |
| Collection.JoinKeepsMessages | src/collection.rs:16-20 | every message occurs in the joined text |
| Collection.ApiErrorKeepsMessages | src/collection.rs:15-21 | an API error comes from a parsed report, and its text contains every message of that report |
| Collection.UnknownErrorsFixture | src/collection.rs:119-129 | the three-error report becomes the three messages separated by `, ` |
| Thing1.FromStr | src/bgg/thing/thing1.rs:101-109 | a category is read exactly when the lower-cased text is one of the three category names |
| Thing1.FromStrIgnoresCase | src/bgg/thing/thing1.rs:102 | a text and its lower-cased form read the same |
| Thing1.FromStrOfApiName | src/bgg/thing/thing1.rs:101-109 | every category reads back from the API's spelling of its name |
| Thing1.CategoryFromStrAsWritten | src/bgg/thing/thing1.rs:111-121 | as written: the category is read exactly when `from_str` accepts the text, and it is the category `from_str` gives; otherwise the text is reported back verbatim with the two-entry list as written |
| Thing1.ExpectedAsWrittenIsWrong | src/bgg/thing/thing1.rs:116-119 | the expected-variants list as written has two entries; the second is unreadable, and none names Not Recommended |
| Thing1.AsWrittenAdvertisesUnreadableVariant | src/bgg/thing/thing1.rs:114-119 | a rejected category is reported with a list that advertises an unreadable variant |
| Thing1.CategoryFromStr | src/bgg/thing/thing1.rs:111-121 | corrected: the category is read exactly when `from_str` accepts the text; otherwise the text is reported back verbatim with the three variants |
| Thing1.ExpectedVariantsAreTheCategories | src/bgg/thing/thing1.rs:116-119 | the corrected list names each category exactly once, and each entry is readable |
| Thing1.CorrectedAdvertisesReadableVariants | src/bgg/thing/thing1.rs:114-119 | with the corrected list, every advertised variant is accepted |
| Thing2.ClosedRows | src/bgg/thing/thing2.rs:31-38 | keeps exactly the poll rows without `+`, each taken from the input |
| Thing2.ClosedPositions | src/bgg/thing/thing2.rs:31-38 | the positions of the rows without `+`, in ascending order |
| Thing2.ClosedRowsAtPositions | src/bgg/thing/thing2.rs:31-38 | the filter keeps the rows at those positions: each closed row once, in poll order |
| Thing2.ClosedPositionsComplete | src/bgg/thing/thing2.rs:31-38 | no row without `+` is left out |
| Thing2.ClosedRowsAppend | src/bgg/thing/thing2.rs:31-38 | filtering a poll in two parts gives the same rows as filtering it whole, in the same order |
| Thing2.ClosedRowsIdempotent | src/bgg/thing/thing2.rs:31-38 | filtering twice removes nothing more |
| Thing2.TotalIsVoteSum | src/bgg/thing/thing2.rs:55-58 | the `u16` fold of the votes equals their true sum when that sum fits in 16 bits |
| Thing2.BestVotes | src/bgg/thing/thing2.rs:61-65 | the vote count of the first Best entry, or 0 when there is none |
| Thing2.NoBestVotesNeverKept | src/bgg/thing/thing2.rs:61-72 | a row with no Best entry is never a best player count |
| Thing2.KeptPositions | src/bgg/thing/thing2.rs:67-72 | lists, in ascending order, only rows that are mostly Best |
| Thing2.KeptPositionsComplete | src/bgg/thing/thing2.rs:67-72 | no row that is mostly Best is missed |
| Thing2.BestPlayerCountsOk | src/bgg/thing/thing2.rs:52-80 | the rows are accepted exactly when every player count parses |
| Thing2.BestPlayerCountsFirstError | src/bgg/thing/thing2.rs:74-79 | a failure names the first row whose player count does not parse |
| Thing2.BestPlayerCountsOutcome | src/bgg/thing/thing2.rs:52-80 | accepted exactly when every count parses; otherwise the error names the first row that does not parse |
| Thing2.BestPlayerCountsFollowKeptRows | src/bgg/thing/thing2.rs:52-72 | on success, the j-th best count is the parsed count of the j-th row that is mostly Best |
| Thing2.NoVotesNoBestCounts | src/bgg/thing/thing2.rs:55-72 | rows without votes give no best count |
| Thing2.CollectBestPlayerCounts | src/bgg/thing/thing2.rs:51-80 | the loop over the rows, with its early return, computes `BestPlayerCounts` |
| Thing2.PrimaryName | src/bgg/thing/thing2.rs:82-86 | the value of the first name of type `primary`; absent exactly when no name has that type |
| Thing2.TryFrom | src/bgg/thing/thing2.rs:28-98 | the step-by-step mapping computes the reference mapping `ToGame` |
| Thing2.ToGameOutcome | src/bgg/thing/thing2.rs:28-98 | an item maps exactly when every closed row's count parses and there is a primary name; the game carries over the id, bounds, voter count and rating, and the expansion flag comes from the type |
| Thing2.OpenEndedRowsIgnored | src/bgg/thing/thing2.rs:35-38 | open-ended rows make no difference to the game |
| Thing2.BestCountsComeFromRows | src/bgg/thing/thing2.rs:31-80 | the best counts are the parsed counts of the poll's closed, mostly-Best rows: one per such row, none missed, in the order of those rows in the poll |
| Thing2.EclipseRow | src/bgg/thing/thing2.rs:40-50 | in the Eclipse poll, row i counts i + 1 players and is mostly Best only for four and six players |
| Thing2.EclipseBestCounts | src/bgg/thing/thing2.rs:40-50 | the Eclipse poll's best player counts are four and six |
| Thing2.EclipseGame | src/bgg/thing/thing2.rs:108-124 | the Eclipse item maps to a base game named "Eclipse: Second Dawn for the Galaxy" for 2 to 6 players, best with 4 and 6 |
| Thing2.ExpansionGame | src/bgg/thing/thing2.rs:127-136 | an item of type `boardgameexpansion` maps to a game marked as an expansion |
| Things.Items | src/thing.rs:19-21 | the items, or the error of the stylesheet or of the deserialiser, whichever fails first |
| Things.FromXml | src/thing.rs:15-28 | the item-by-item loop, with its early return, computes the whole pipeline `ParseGames` |
| Things.OneGamePerItem | src/thing.rs:23-27 | a successful parse gives one game per item, each mapped from the item at the same position |
| Things.FirstFailingItem | src/thing.rs:24-26 | a failed parse reports the first item that cannot be mapped |
| Things.UnvotedPollHasNoBestCounts | src/thing.rs:36-47 | a game whose poll has no votes has no best player count |
| Client.CollectionUrlShape | src/lib.rs:73-82 | the collection URL names the user after the base and path, and excludes expansions exactly when they are not wanted |
| Client.CollectionAttempt | src/lib.rs:84-96 | a 200 reply settles the request with the classified body; any other status goes back to the executor; a transport error, or the error from reading a 200 reply's body, is passed on as it is |
| Client.ThingAttempt | src/lib.rs:138-157 | a 200 reply whose body parses settles the request with the games; a parse failure, a transport error or a body-read error ends it with that error; any other status goes back to the executor |
| Client.GetCollection | src/lib.rs:68-97 | requests the collection URL and returns the executor's outcome, with the classification's error passed on |
| Client.CollectionSettlesOnOk | src/lib.rs:88-92 | a first reply of 200 is answered by its classification, an error report included, after one call |
| Client.GetGamesFromApi | src/lib.rs:135-158 | requests the thing URL for the ids and returns the executor's outcome |
| Client.ThingUrlsAt | src/lib.rs:109-112 | the c-th URL requests the c-th batch |
| Client.FetchBatch | src/lib.rs:112 | one batch's request returns that batch's outcome |
| Client.FetchBatches | src/lib.rs:105-115 | one request per batch, in order, stopping at the first failure: on failure, every batch before the last one requested succeeded and the last one's error is the result; on success the result is the batches' games in order and every id was counted |
| Client.GetGames | src/lib.rs:104-116 | the ids are fetched in batches of at most twenty, in order; on failure, every request before the last one made succeeded and no later batch is requested; on success every id was sent once; no ids means no request |
| Client.Ids | src/lib.rs:126-130 | the ids of the collection, in order |
| Client.GetAllGamesForUser | src/lib.rs:121-133 | a collection error is returned as is; otherwise the result is the games of the collection's ids |
| BggClient.CollectionFromXml | src/bgg/collection.rs:5-10 | the deserialised items, or the deserialiser's failure as an XML error; an error report is not recognised |
| BggClient.CollectionAttempt | src/bgg.rs:43-55 | a 200 reply settles the request with the deserialised body; any other status goes back to the executor; a transport or body-read error is passed on as it is |
| BggClient.GetCollection | src/bgg.rs:28-56 | requests the collection URL of boardgamegeek.com and returns the executor's outcome |
| BggClient.CollectionSettlesOnOk | src/bgg.rs:47-51 | a first reply of 200 is answered by what the deserialiser made of the body, after one call |
| BggClient.GamesAsNewerClient | src/bgg.rs:72-91 | the executor's result does not depend on the first wait, so with both clients using the same item mapper, the same replies give the same result in both |
| BggClient.GetGamesFromApi | src/bgg.rs:72-91 | requests the thing URL of boardgamegeek.com for the ids and returns the executor's outcome |
| BggClient.FetchBatch | src/bgg.rs:66 | one batch's request returns that batch's outcome |
| BggClient.FetchBatches | src/bgg.rs:59-69 | one request per batch, in order, stopping at the first failure: on failure, every batch before the last one requested succeeded and the last one's error is the result; on success the result is the batches' games in order |
| BggClient.GetGames | src/bgg.rs:58-70 | the ids are fetched in batches of at most twenty, in order; on failure, every request before the last one made succeeded and no later batch is requested; on success every id was sent once |
| Minify.LinesRead | build.rs:13-16 | the lines seen are exactly the read results before the first end of file or read failure |
| Minify.LinesReadUnique | build.rs:13-16 | exactly one list of lines fits that description |
| Minify.ReadingStopsAtFirstStop | build.rs:13-16 | nothing after end of file or a read failure is ever looked at |
| Minify.MinifyLine | build.rs:17-20 | a line contributes no line feed |
| Minify.MinifiedHasNoLineFeed | build.rs:17-23 | the stylesheet becomes a single line |
| Minify.MinifiedAppend | build.rs:13-22 | each line is minified on its own, and the results are kept in order |
| Minify.CommentLineDropped | build.rs:17 | a line holding `<!--` leaves no trace |
| Minify.CommentContinuationKept | build.rs:17 | only the line that opens a comment is dropped; its later lines are kept |
| Minify.MinifyStylesheet | build.rs:9-22 | the read loop computes the minified text of the lines read |

## Left out

- HTTP, file access and logging are parameters or are left out. The HTTP agent is a `Server`, the replies to successive attempts. The file read by `build.rs` is the sequence of `read_line` results. `debug!` and `log_headers` are not modelled, nor is the user-agent string built from Cargo metadata.
- `thread::sleep` is recorded as the list of durations slept, and does not block.
- The XML parser, the XSLT processor and `serde` are not modelled. They are oracles passed in as parameters: `ThingXml`, `CollectionXml`, and `BggClient.CollectionFromXml`'s deserialiser. Their error texts and the field mapping of `thing1.rs` (renames, defaults) are not modelled.
- The executor's status line uses a table of canonical reason phrases. Codes outside the table show `<unknown status code>`.
- Text operations are ASCII only. Lower-casing, white-space trimming and parsing are modelled for ASCII. Unicode case mapping and Unicode white space are not modelled.
- The rating is an `f64` that is carried through unchanged as its bits and never computed with.
- The "mostly Best" test compares integers: twice the Best votes must exceed the total. The source computes `best / total * 100.0 > 50.0` in `f64`. For 16-bit counts the two agree, and both reject a row with no votes at all (0/0 is NaN). Floating point itself is not modelled.
- Thing2.Total: wraps at 65536, as a release build's `u16` fold does. A debug build panics on that overflow instead, and the panic is not modelled.
- src/thing.rs uses its own `thing1` and `thing2` modules. src/thing/thing1.rs and src/thing/thing2.rs are not part of this model. Both `from_xml` pipelines are modelled with the mappers of src/bgg/thing/.
- Two test expectations depend on fixture files (`test/enormity.xml`, `test/eclipse-transformed.xml`) that the model does not read: the best player counts of the Enormity fixture in src/bgg/thing.rs:42-46 and the rating values. The model proves that a poll with no votes gives no best count (`Things.UnvotedPollHasNoBestCounts`), which is what src/thing.rs:47 expects. For src/bgg/thing.rs:42-46 to hold, the fixture would need more than half of each row's votes on Best.
- The comment at src/bgg/thing/thing2.rs:40-50 shows per-row percentages. The code's test at src/bgg/thing/thing2.rs:67-72 uses the same ratio, the row's Best votes over the row's own total, and the model states it as `2 * best > total`.
- `Request.RunRequest` takes the initial wait as a parameter and requires that six doublings of it fit in a `u8`. Both executors start at 1 or 2 seconds, so they meet that requirement.
- `Minify.MinifyStylesheet`: a `read_line` call can fail after appending part of a line to the buffer. The loop then stops without using that part. The model represents such a call only as a failure and does not model the partial data. Running out of given results is treated as end of file.
- The build script's `cargo:` output lines and its panic when the stylesheet cannot be opened are not modelled.
- The command-line programs in src/bin are not modelled.

## Findings

| source | as written | input that shows it | evidently intended | confidence | as-written member | corrected member |
|---|---|---|---|---|---|---|
| src/bgg/thing/thing1.rs:118 | the expected-variants list passed to `unknown_variant` is `["Best", "Recommended, Not Recommended"]`. A misplaced quote makes this two entries, the second of which no category reading accepts | a result whose `value` is `"Maybe"`: the error lists `Recommended, Not Recommended` as one variant | `["Best", "Recommended", "Not Recommended"]`, one entry per category | not executed | Thing1.CategoryFromStrAsWritten, Thing1.ExpectedAsWrittenIsWrong | Thing1.CategoryFromStr, Thing1.ExpectedVariantsAreTheCategories |
