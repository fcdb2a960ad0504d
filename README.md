# 2XKO tracker core in Dafny

This project models the server side of the 2XKO tracker, plus the client helpers that read its output. The server side:

- looks up a Riot account by its Riot ID (`Pseudo#TAG`), trying the regional clusters in turn;
- reads the player's ranked stats and match id list;
- fetches up to 20 match details, four at a time;
- extracts the player's side of each match: result, duo of characters, anchor and point character, counters;
- folds the tracked matches into analytics: win/loss totals, duo and anchor tables, first-hit aggressivity, recent matches;
- returns the whole profile together with a list of partial-failure warnings.

The page then derives from those warnings whether Riot refused access (HTTP 403) to the ranked or the match routes. It also formats win rates and durations.

The modules follow the source files:

| module | file | models |
|---|---|---|
| `Wrappers` | wrappers.dfy | `Option` / `Result` |
| `JsText` | js_text.dfy | the string built-ins the code uses: `trim`, `lastIndexOf`, `includes`, `toLowerCase`, `String(n)`, `padStart(2, "0")`, and a total order standing in for `localeCompare` |
| `JsValue` | js_value.dfy | decoded JSON values; truthiness, `??` and property lookup on them |
| `JsNumber` | js_number.dfy | `Math.round` and `toFixed` on exact rationals |
| `RiotServer` | riot_server.dfy | lib/riot/server.ts: `RiotApiError`, `parseRiotId`, the status mapping of `requestRiotJson`, the cluster loop of `fetchRiotAccountByRiotId`, the match-id query clamp |
| `ChampionCatalog` | champion_catalog.dfy | the shape-sniffing of the champion catalog and its summary |
| `MatchExtract` | match_extract.dfy | the match DTO, `extractTrackedMatch`, `normalizeDuo`, `numberOrZero` / `numberOrNull` |
| `MatchTally`, `RowSort`, `MatchAnalytics` | match_tally.dfy, row_sort.dfy, match_analytics.dfy | `computeAnalytics` |
| `RiotService` | riot_service.dfy | `formatPartialError`, `mapWithConcurrency`, `fetchAndTrackMatches`, `buildLiveRiotProfileByRiotId` |
| `HomePage` | home_page.dfy | `derive2XkoAvailability`, `buildLockedLines`, `safeWinrate`, `formatDuration` of app/page.tsx |

The state-changing code keeps its imperative form; the rest is modelled as functions:

- **Methods with loops.** These source loops become methods with `while` loops: `computeAnalytics` (its two `Map`s and its running totals), `fetchAndTrackMatches` (pushing into `tracked` and `warnings`), the worker pool of `mapWithConcurrency` (cursor and index-addressed result slots), `extractTrackedMatch`, and the cluster loop.
- **Specification functions.** Each such method is proved equal to a function, and the source's promises are lemmas about that function:
  - `ComputeAnalytics` ↔ `AnalyticsOf`;
  - `FetchAndTrackMatches` ↔ `TrackedOf` / `FetchWarnings`;
  - `LookupClusters` ↔ `AccountLookup`;
  - `BuildLiveRiotProfileByRiotId` ↔ `ProfileOf`.
- **Threaded warnings.** The shared `warnings` array the source pushes into is passed in and handed back extended.
- **Network as inputs.** Every network call is an input: a reply per cluster, or a `Client` of three functions giving the settled outcome of the ranked, id-list and detail requests. A thrown value is `Thrown`: a `RiotApiError`, another `Error` with its message, or anything else.

Idealisations:

- **Numbers.** Counters, statuses and durations are mathematical integers. `Math.round((w / t) * 100)` is the integer nearest to the exact ratio, halves rounding up: the product form `t*(2r-1) <= 200w < t*(2r+1)`.
  - `ratioFirstHitsPerRound` is `toFixed(3)` of the exact ratio, kept in thousandths.
  - `averageFirstHitsPerMatch` is `toFixed(2)`, kept in hundredths.
  - Floating-point error is not modelled. Its visible effect is at exact halves: the doubles give `Math.round((23 / 40) * 100) == 57`, while `SafeWinrate(23, 17)` and `RoundPercent` give 58, so a win rate at an exact half may differ by one.
- **Ordering.** `localeCompare` is code-point lexicographic order, proved total, reflexive, antisymmetric and transitive. No locale rules are modelled.
- **Map order.** `Map` iteration follows insertion order. The method keeps a key-order sequence next to a Dafny `map`, and the specification is a sequence of tallies in first-appearance order.
- **Sorting.** `Array.prototype.sort` is stable (ES2019). The specification sort is a stable insertion sort, proved sorted, a permutation, and order-preserving within a rank.

Quirks of the code that the model keeps as written:

- **`normalizeDuo` with no name.** With no usable name and an `anchorFallback` of `""`, `normalizeDuo` returns `["", "Unknown"]`. The `??` keeps the empty string, so the first slot can be empty (`MatchExtract.NormalizeDuo` states exactly when).
- **Duo key collisions.** Duo groups are keyed by `duo.join("|")`, so two different duos whose names contain `|` share a group. `MatchAnalytics.DuoKeyCollision` exhibits one pair. `MatchAnalytics.DuoKeyInjective` shows that keys are unique when the first name has no `|`.
- **Unreachable 502.** The 502 fall-through after the cluster loop (lib/riot/server.ts:163-167) can never run. The loop has a cluster to try, so it ends with `last404` set or returns earlier.
- **`formatDuration` of negatives.** The minutes are floored and the seconds keep the sign of `%`, so `formatDuration(-65)` is `"-2:-5"`. The model computes this; its contract speaks of non-negative durations.
- **`canReadRanked`.** It is `Boolean(payload.ranked)`. A ranked body that decodes to JSON `null`, `0` or `""` does not count as readable, even though `ranked` was filled in.

## Model

| member | source | states |
|---|---|---|
| `JsText.Trim` | lib/riot/server.ts:47 | the result has no leading or trailing JS whitespace (with `TrimStart`/`TrimEnd`: it is the input with a whitespace prefix and suffix removed) |
| `JsText.TrimStart` | lib/riot/server.ts:47 | the result is a suffix of the input, starts with a non-space, and what was removed is all whitespace |
| `JsText.TrimEnd` | lib/riot/server.ts:47 | the result is a prefix of the input, ends with a non-space, and what was removed is all whitespace |
| `JsText.TrimOmits` | lib/riot/server.ts:59 | trimming never introduces a character the input lacks |
| `JsText.TrimTrimmed` | lib/riot/server.ts:58-59 | trimming an already trimmed string changes nothing |
| `JsText.LastIndexOf` | lib/riot/server.ts:48 | -1 or an index holding the character, with no occurrence after it |
| `JsText.Includes` | app/page.tsx:607-614 | true iff the substring occurs at some position |
| `JsText.ToLower` | app/page.tsx:606 | same length, each character lowered independently |
| `JsText.ToLowerAppend` | app/page.tsx:606 | lowering distributes over concatenation |
| `JsText.NatToString` | app/page.tsx:823 | a non-empty digit string, one digit exactly below 10, no leading zero except for 0 |
| `JsText.NatToStringValue` | app/page.tsx:823 | the decimal value of `String(n)` is `n` |
| `JsText.IntToString` | lib/riot/service.ts:345 | `String(i)`: the digits of a non-negative `i`, or "-" then the digits of `-i` |
| `JsText.PadStart2` | app/page.tsx:823 | unchanged when two long or more, else zeros prepended to length 2 |
| `JsText.PadStart2Value` | app/page.tsx:823 | padding keeps the string all digits and keeps its decimal value |
| `JsText.LexTotal` | lib/riot/service.ts:327 | the order standing in for `localeCompare` is total |
| `JsText.LexAntisymmetric` | lib/riot/service.ts:327 | two strings ordered both ways are equal |
| `JsText.LexTransitive` | lib/riot/service.ts:327 | the order is transitive |
| `JsValue.Coalesce` | lib/riot/service.ts:137 | `a ?? b`: `a` unless it is null or undefined, else `b` |
| `JsValue.Lookup` | lib/riot/server.ts:350-353 | absent iff no field has the key; otherwise the first field with that key |
| `JsNumber.RoundPercent` | lib/riot/service.ts:339-341 | `Math.round(100 * wins / total)` as the nearest integer, halves up; 0 for no total; within 0..100 when `0 <= wins <= total` |
| `JsNumber.ToFixedScaled` | lib/riot/service.ts:269-272 | `Number(x.toFixed(k))` scaled by `10^k`: nearest integer to `scale * num / den`, halves away from zero |
| `JsNumber.RoundUnique` | lib/riot/service.ts:340 | the rounding bounds determine the rounded value |
| `RiotServer.ParseRiotId` | lib/riot/server.ts:46-70 | an error is always INVALID_RIOT_ID/400; a parse yields a non-empty trimmed game name and tag line |
| `RiotServer.ParseRiotIdFailsIff` | lib/riot/server.ts:47-67 | parsing fails iff the last '#' of the trimmed input is missing or leaves a side blank after trimming |
| `RiotServer.ParseRiotIdSplitsAtLastHash` | lib/riot/server.ts:48-59 | a successful parse is the trimmed sides around the last '#' |
| `RiotServer.ParseRiotIdTagHashFree` | lib/riot/server.ts:59 | a parsed tag line never contains '#' |
| `RiotServer.ParseRiotIdRoundTrip` | lib/riot/server.ts:46-70 | `parseRiotId(g + "#" + t)` gives back `g` and `t` for trimmed non-empty `g` and a trimmed, non-empty, '#'-free `t` |
| `RiotServer.LastHashUnique` | lib/riot/server.ts:48 | the split position is the one and only last '#' |
| `RiotServer.RequestError` | lib/riot/server.ts:290-326 | 404 gives the caller's code and message, 401/403/429 their codes, any other status RIOT_UPSTREAM_ERROR; the status and details are carried over |
| `RiotServer.RequestRiotJson` | lib/riot/server.ts:253-327 | no API key: MISSING_RIOT_API_KEY; otherwise the body exactly when the reply is ok, else an error carrying the reply's status |
| `RiotServer.AccountFrom` | lib/riot/server.ts:100-111 | the account takes the puuid and cluster of the reply, its names or those parsed, and `riotId` is `gameName#tagLine` |
| `RiotServer.AccountReplyError` | lib/riot/server.ts:118-152 | 401, 403 and 429 map to their codes, other failures to RIOT_UPSTREAM_ERROR, status and details kept |
| `RiotServer.ClusterReplies` | lib/riot/server.ts:12 | the replies of europe, americas, asia in that order |
| `RiotServer.FirstNon404` | lib/riot/server.ts:113-116 | the first reply that is not a 404; all before it are 404 |
| `RiotServer.AccountLookup` | lib/riot/server.ts:155-167 | the lookup over three clusters never ends in the 502 error |
| `RiotServer.LookupClusters` | lib/riot/server.ts:84-167 | the cluster loop equals the fold `AccountLookup` over the replies in cluster order |
| `RiotServer.FetchRiotAccountByRiotId` | lib/riot/server.ts:72-168 | missing key first, then an invalid Riot ID, then: all 404 gives ACCOUNT_NOT_FOUND, the first non-404 reply decides (ok: the account from that cluster; else its mapped error); never the 502 |
| `RiotServer.MatchIdsQueryOf` | lib/riot/server.ts:177-187 | count defaults to 20 and is clamped into [1, 100]; start defaults to 0 and is clamped to at least 0; an empty queue is not sent |
| `ChampionCatalog.CollectionUnderKeys` | lib/riot/server.ts:405-413 | none iff no collection key holds an array or non-null object; otherwise the members under the first key that does |
| `ChampionCatalog.ResolveChampionCollection` | lib/riot/server.ts:394-416 | an array as is; null for anything but an array or object; an object's own values when no collection key applies |
| `ChampionCatalog.CountMirrorsCollection` | lib/riot/server.ts:352-360 | the count under the keys exists iff the collection does, and equals its length |
| `ChampionCatalog.InferCountMirrorsResolve` | lib/riot/server.ts:341-363 | `inferCollectionCount` is the length of the resolved collection, and is null only when there is none or for the empty object |
| `ChampionCatalog.FirstPresent` | lib/riot/server.ts:382-387 | the first of the name keys whose value is not nullish, or none when all are |
| `ChampionCatalog.ChampionName` | lib/riot/server.ts:372-390 | a string item is its own name; an object's name is the string held by its first non-nullish name field, and it has none when that field is not a string; anything else has none |
| `ChampionCatalog.DisplayNameHidesName` | lib/riot/server.ts:382-389 | a numeric `displayName` hides a string `name` |
| `ChampionCatalog.NamesOf` | lib/riot/server.ts:371-391 | names are never empty and at most one per item |
| `ChampionCatalog.NamesOfAppend` | lib/riot/server.ts:371-391 | name extraction maps item by item: it distributes over concatenation |
| `ChampionCatalog.ExtractChampionNames` | lib/riot/server.ts:365-392 | no empty names; nothing when no collection resolves |
| `ChampionCatalog.StringItemsKept` | lib/riot/server.ts:373-375 | a non-empty string item keeps its place among the names |
| `ChampionCatalog.Dedupe` | lib/riot/server.ts:240 | `[...new Set(names)]`: the same elements, each once |
| `ChampionCatalog.DedupeFirstOccurrenceOrder` | lib/riot/server.ts:240 | the deduplicated names appear in the order of their first occurrences |
| `ChampionCatalog.KeepNonEmpty` | lib/riot/server.ts:240 | `.filter(Boolean)`: a name is kept iff it is in the input and non-empty; the input is unchanged when none is empty |
| `ChampionCatalog.ChampionCatalogSummary` | lib/riot/server.ts:228-251 | null iff the catalog reply failed; otherwise the sample is the first 8 of the names deduplicated in first-occurrence order; count is the unique count when there are names, else `inferCollectionCount` with no sample |
| `MatchExtract.NumberOrZero` | lib/riot/service.ts:331-333 | the number itself when the value is a number, else 0 |
| `MatchExtract.NumberOrNull` | lib/riot/service.ts:335-337 | the number itself when the value is a number, else null |
| `MatchExtract.KnownNames` | lib/riot/service.ts:317 | at most two names, none empty |
| `MatchExtract.SortPair` | lib/riot/service.ts:327-328 | the two names, ordered |
| `MatchExtract.SortPairSymmetric` | lib/riot/service.ts:327-328 | ordering a pair does not depend on the argument order |
| `MatchExtract.NormalizeDuo` | lib/riot/service.ts:312-329 | no name: the fallback (or "Unknown") and "Unknown"; one name `n`: `n` and the fallback when non-empty and different, else `n` twice; two names: those two, sorted; the first slot is empty only for the empty fallback |
| `MatchExtract.NormalizeDuoSymmetric` | lib/riot/service.ts:317-328 | the duo does not depend on the order of the two names |
| `MatchExtract.WithStringIds` | lib/riot/service.ts:146 | exactly the characters whose `char_id` is a string |
| `MatchExtract.Names` | lib/riot/service.ts:147 | the `char_id`s, position by position |
| `MatchExtract.FlaggedAnchor` | lib/riot/service.ts:149 | the first character with a truthy `is_anchor`, or none iff there is none |
| `MatchExtract.FlaggedPoint` | lib/riot/service.ts:152 | the first character with `is_anchor === false`, or none iff there is none |
| `MatchExtract.OtherName` | lib/riot/service.ts:153 | the first name different from the anchor, or none iff every name is the anchor |
| `MatchExtract.ResolveAnchor` | lib/riot/service.ts:148-150 | the first truthy-flagged character when there is one; else the second name when there are two or more, the first when there is one, null when there is none; always one of the names |
| `MatchExtract.ResolvePoint` | lib/riot/service.ts:151-153 | the first character flagged `is_anchor === false` when there is one; else the first name other than the anchor; else the first name; null iff no character; always one of the names |
| `MatchExtract.UnflaggedAnchorAndPoint` | lib/riot/service.ts:146-153 | with no flags and two distinct names, the anchor is the second and the point the first |
| `MatchExtract.CharactersOf` | lib/riot/service.ts:146 | every kept character has a string `char_id` |
| `MatchExtract.RoundsPlayedOf` | lib/riot/service.ts:157 | `rounds_played`, falling back to `rounds` only when it is null or undefined |
| `MatchExtract.TrackFrom` | lib/riot/service.ts:155-173 | the match id is `metadata.match_id ?? fallback`; WIN iff the team won; the anchor is `ResolveAnchor` of the string-id characters, absent iff there are none; the point is `ResolvePoint` given that anchor; the duo is `NormalizeDuo` of the first two names and the anchor; the duration is `numberOrNull`, the five counters `numberOrZero` of the stats, the rounds `rounds_played ?? rounds` |
| `MatchExtract.FindPlayer` | lib/riot/service.ts:141-144 | the first player of a team with the target puuid, or none iff there is none |
| `MatchExtract.FindTarget` | lib/riot/service.ts:140-144 | none iff no team has the player; otherwise a target no other target precedes in team-then-player order |
| `MatchExtract.ExtractedNone` | lib/riot/service.ts:140-177 | `extractTrackedMatch` is null iff no player of any team has the puuid |
| `MatchExtract.ExtractedFirstTarget` | lib/riot/service.ts:140-173 | for the first target in team-then-player order: the tracked match of that player, WIN iff that team won, the match id from metadata or fallback |
| `MatchExtract.ExtractTrackedMatch` | lib/riot/service.ts:132-178 | the nested loop with early return equals `Extracted`, and is null iff no player has the puuid |
| `MatchAnalytics.DuoKeyInjective` | lib/riot/service.ts:213 | duo keys are distinct for distinct duos whose first name has no '|' |
| `MatchAnalytics.DuoKeyCollision` | lib/riot/service.ts:213 | two different duos can share a key |
| `MatchAnalytics.DuoSamples` | lib/riot/service.ts:213-227 | one duo sample per match, in order |
| `MatchAnalytics.AnchorSamples` | lib/riot/service.ts:229-242 | only matches with a non-empty anchor contribute; none iff no match has one |
| `MatchAnalytics.AnchorCounts` | lib/riot/service.ts:229-241 | an anchor's group counts exactly the matches anchored with it, and its wins exactly the won ones among them |
| `MatchAnalytics.AnchoredWins` | lib/riot/service.ts:236-240 | the won matches with an anchor are at most the matches with it |
| `MatchAnalytics.RoundsSeen` | lib/riot/service.ts:245-248 | rounds are summed only over matches with a positive count; 0 when none has one |
| `MatchAnalytics.PredatorThreshold` | lib/riot/service.ts:269-279 | the rounded ratio exceeds 0.700 iff `first hits / rounds >= 0.7005` |
| `MatchAnalytics.AggressivityFrom` | lib/riot/service.ts:269-298 | with rounds seen, the ratio is `toFixed(3)` of first hits per round, else null and the badge Indetermine; the badge is Predateur iff the returned ratio exceeds 0.700, equivalently 2000·hits ≥ 1401·rounds; total rounds is the rounds seen when some match had rounds, else null; the average is 0 on an empty sample and otherwise `toFixed(2)` of the mean; total first hits is the input |
| `MatchAnalytics.AggressivityOf` | lib/riot/service.ts:244-298 | the aggressivity of a sample: ratio, total rounds and badge unknown iff no match has rounds, else the ratio is `toFixed(3)` of the summed first hits over the summed positive rounds and total rounds is that sum; Predateur iff the returned ratio exceeds 0.700; total first hits is the sum over the sample; the average is `toFixed(2)` of the mean, 0 when empty |
| `MatchAnalytics.BoundaryIsStandard` | lib/riot/service.ts:277 | exactly 0.7 (14 hits in 20 rounds) is Standard, not Predateur |
| `MatchAnalytics.RecentMatches` | lib/riot/service.ts:299-308 | the first min(10, n) matches projected, in sequence order |
| `MatchAnalytics.ToRow` | lib/riot/service.ts:251-255 | a row keeps its counts and its win rate is the rounded percentage, within 0..100 |
| `MatchAnalytics.RowsOf` | lib/riot/service.ts:251-255 | one row per group, in group order |
| `MatchAnalytics.AnalyticsTotals` | lib/riot/service.ts:186-187 | wins count the won matches and `wins + losses == sampleWindowMatches == matches.length` |
| `MatchAnalytics.RankingFacts` | lib/riot/service.ts:256-257 | the ranking keeps at most 8 rows, sorted, drawn from the input, none iff no input |
| `MatchAnalytics.TopOutranksAll` | lib/riot/service.ts:256 | the first ranked row outranks every row |
| `MatchAnalytics.DuoTableFacts` | lib/riot/service.ts:212-227 | every duo group gathers exactly the matches of one duo; the groups' totals sum to the number of matches |
| `MatchAnalytics.AnchorTableFacts` | lib/riot/service.ts:229-242 | every anchor group counts the matches of one anchor and the won ones among them; the totals sum to the anchored matches |
| `MatchAnalytics.DuoStatsFacts` | lib/riot/service.ts:251-257 | `duoStats` has at most 8 rows sorted by matches then win rate, each with `wins + losses == totalMatches >= 1` and its true counts, none iff no match |
| `MatchAnalytics.AnchorStatsFacts` | lib/riot/service.ts:259-266 | `byAnchorChar` has at most 8 sorted rows, each counting exactly the matches and the wins with that anchor, with `wins + losses == totalMatches >= 1` and the win rate the rounded percentage |
| `MatchAnalytics.TopAnchorPresence` | lib/riot/service.ts:268-290 | the top anchor and its win rate are null iff no match has an anchor, else the first row's |
| `MatchAnalytics.TopAnchorMostPlayed` | lib/riot/service.ts:259-268 | the top anchor was played at least as often as any other anchor |
| `MatchAnalytics.EmptySample` | lib/riot/service.ts:269-298 | an empty sample has no duo rows, no top anchor, an Indetermine badge, a null ratio and average 0 |
| `MatchAnalytics.RecordSample` | lib/riot/service.ts:214-227 | one map update keeps the map and key order mirroring the specification's tally |
| `MatchAnalytics.AddMatch` | lib/riot/service.ts:212-249 | one loop iteration extends every accumulator to the matches seen so far |
| `MatchAnalytics.ComputeAnalytics` | lib/riot/service.ts:180-310 | the loop over the matches and the final map/sort/slice equal `AnalyticsOf` |
| `RowSort.SortRowsRanked` | lib/riot/service.ts:256 | the sort yields rows ordered by matches then win rate, a permutation of its input |
| `RowSort.SortRowsStable` | lib/riot/service.ts:256 | rows that tie keep their first-appearance order |
| `RowSort.TakeRanked` | lib/riot/service.ts:257 | the top-8 cut of a sorted table is sorted |
| `RowSort.SortRowsSum` | lib/riot/service.ts:256 | sorting keeps the total of the matches |
| `MatchTally.TallyAllCounts` | lib/riot/service.ts:212-227 | grouping counts each key's samples and wins exactly, and the group totals sum to the samples |
| `MatchTally.TallyAllOrder` | lib/riot/service.ts:251 | groups come in the order their keys first appear (Map insertion order) |
| `RiotService.FormatPartialError` | lib/riot/service.ts:343-351 | `scope: reason`, where the reason is the message (or "erreur inconnue"), followed by ` (status)` only for a `RiotApiError` with a non-zero status |
| `RiotService.FormatPartialErrorTagged` | lib/riot/service.ts:345 | the exact text for a `RiotApiError` with a status |
| `RiotService.ScopesDisjoint` | lib/riot/service.ts:64 | a ranked warning is neither an id-list nor a detail warning |
| `RiotService.MatchScopesDisjoint` | lib/riot/service.ts:82 | an id-list warning is not a detail warning |
| `RiotService.WorkerCount` | lib/riot/service.ts:373-375 | at least one worker, at most the item count and the concurrency, exactly the concurrency when there are enough items, one for no items |
| `RiotService.MapWithConcurrency` | lib/riot/service.ts:353-379 | one result per item, and the result at index `i` is the settled outcome of the worker on item `i` |
| `RiotService.TrackOne` | lib/riot/service.ts:111-114 | rejected iff the detail request was; otherwise the extraction of the fetched match |
| `RiotService.Limited` | lib/riot/service.ts:109 | the first min(20, n) ids |
| `RiotService.OutcomesPartition` | lib/riot/service.ts:118-127 | each outcome is kept, warned about or skipped, exactly one of the three |
| `RiotService.RejectedSlotWarned` | lib/riot/service.ts:124-126 | a rejected slot produces the detail warning for its reason at its position among the warnings |
| `RiotService.FailedDetailWarned` | lib/riot/service.ts:109-126 | a failed detail request among the first 20 ids leaves its detail warning |
| `RiotService.DetailWarningsScoped` | lib/riot/service.ts:125 | every warning of the fetch loop is a "match-v1 detail" warning |
| `RiotService.KeptAllFulfilled` | lib/riot/service.ts:118-122 | when every detail yields a match, all are kept in input order with no warning |
| `RiotService.FetchBounds` | lib/riot/service.ts:109-129 | at most 20 tracked matches and 20 warnings, and tracked + warned + skipped is the number of ids fetched |
| `RiotService.IdsPastLimitIgnored` | lib/riot/service.ts:109 | ids past the 20th change nothing |
| `RiotService.CollectTracked` | lib/riot/service.ts:116-129 | the loop keeps the fulfilled matches in slot order and appends one warning per rejection |
| `RiotService.FetchAndTrackMatches` | lib/riot/service.ts:102-130 | the tracked matches are `TrackedOf` the ids, the warnings are extended with `FetchWarnings`, at most 20 matches |
| `RiotService.TrackListedMatches` | lib/riot/service.ts:67-83 | analytics of the listed matches or none, warnings extended with the id or detail warnings |
| `RiotService.BuildLiveRiotProfileByRiotId` | lib/riot/service.ts:34-100 | an account failure propagates; otherwise the profile is `ProfileOf` the client's outcomes, the queue defaulting to "ranked" |
| `RiotService.MatchWarningsScoped` | lib/riot/service.ts:67-83 | a failed id list gives exactly its one "match-v1 ids" warning; a listed one gives only detail warnings, at most 20; none is a ranked warning |
| `RiotService.ProfileRanked` | lib/riot/service.ts:60-65 | ranked is null iff its request failed, in which case the first warning is its "ranked-v1" warning; otherwise no warning is a ranked one |
| `RiotService.ProfileAnalytics` | lib/riot/service.ts:67-99 | analytics is present iff the id list was fetched, and then is the analytics of the tracked matches over at most 20; `hasPublic2XkoMatchApiInCatalog` mirrors it; the note follows it; account and catalog pass through |
| `RiotService.ProfileWarnings` | lib/riot/service.ts:60-98 | the ranked warning, if any, comes first, then the match warnings; a failed id list adds exactly one; at most 21 warnings |
| `RiotService.ProfileDetailWarning` | lib/riot/service.ts:70-75 | a failed detail request among the first 20 ids appears among the profile's warnings |
| `HomePage.Any403` | app/page.tsx:607-614 | true iff some warning signals a 403 for the panel |
| `HomePage.Derive2XkoAvailability` | app/page.tsx:594-623 | all false and no warnings without a payload; otherwise warnings pass through, ranked readable iff truthy, matches iff analytics is present, each 403 flag iff some lowercased warning holds "(403)" and that panel's scope |
| `HomePage.BuildLockedLines` | app/page.tsx:625-644 | two lines when the panel's own 403 flag is set, one otherwise; the first line is the panel's forbidden or empty text, and the second, when present, the panel's forbidden detail |
| `HomePage.LockedLinesOwnFlag` | app/page.tsx:625-644 | the lines depend only on the panel's own flag |
| `HomePage.SafeWinrate` | app/page.tsx:809-815 | 0 for a non-positive total, else the rounded percentage of wins, within 0..100 for non-negative counts |
| `HomePage.SafeWinrateAgreesWithRow` | app/page.tsx:809-815 | the page recomputes the same win rate the service put in a table row |
| `HomePage.JsRem` | app/page.tsx:822 | `%` with the sign of the dividend: below `b` in magnitude and differing from the dividend by a multiple of `b` |
| `HomePage.FormatDuration` | app/page.tsx:817-824 | "N/A" without a duration; otherwise the padded minutes, ':' and the padded seconds |
| `HomePage.FormatDurationRoundTrip` | app/page.tsx:821-823 | the seconds part reads back below 60, and 60 × minutes + seconds gives the duration back |
| `HomePage.StatusTag403` | lib/riot/service.ts:345 | the status tag of 403 is "(403)" |
| `HomePage.ForbiddenWarningFound` | app/page.tsx:606-614 | the lowered warning of a 403 error contains both its scope and "(403)" |
| `HomePage.RankedForbiddenSignalled` | app/page.tsx:607-609 | a 403 ranked error's warning signals the ranked panel |
| `HomePage.MatchForbiddenSignalled` | app/page.tsx:610-614 | a 403 id-list or detail error's warning signals the match panel |
| `HomePage.WarningFlagsPanel` | app/page.tsx:605-622 | one signalling warning in a profile raises that panel's flag |
| `HomePage.ProfileRankedForbidden` | app/page.tsx:607-609 | a 403 on the ranked request sets `has403Ranked` on the page |
| `HomePage.ProfileIdsForbidden` | app/page.tsx:610-614 | a 403 on the id list sets `has403Matches` on the page |
| `HomePage.ProfileDetailForbidden` | app/page.tsx:610-614 | a 403 on any detail request among the first 20 sets `has403Matches` on the page |

## Left out

- **HTTP and the environment.** `fetch`, request headers, `process.env` and `safeErrorBody` are I/O. Replies, the optional API key and the error-body excerpt are inputs.
- **Clock.** `new Date().toISOString()` is a `fetchedAt` parameter.
- **Concurrency.** `Promise.all`, `Promise.allSettled` and the interleaving of the pool's workers are not modelled. The pool is modelled sequentially with its index-addressed result slots, and the worker count is computed but does not change the results.
- **Orchestrator inputs.** Inside `buildLiveRiotProfileByRiotId`, the account lookup and the catalog summary are inputs. Both are modelled on their own as `RiotServer.FetchRiotAccountByRiotId` and `ChampionCatalog.ChampionCatalogSummary`. The orchestrator receives the outcome of the lookup and the summary.
- **Request wrappers.** `fetch2XkoRankedStatsByPuuid`, `fetch2XkoMatchIdsByPuuid` and `fetch2XkoMatchById` are `requestRiotJson` with fixed labels. They are modelled as `RiotServer.RequestRiotJson`, `RiotServer.MatchIdsQueryOf` and the `Client` functions. URL building and `encodeURIComponent` are not modelled.
- **Duplicate and integer-like keys.** A decoded JSON object (`JObj`) is its list of own properties in `Object.keys` order, with unique keys. `JSON.parse` keeps the last value of a repeated key. `Object.keys`/`Object.values` list integer-like keys first, in ascending order. Neither behaviour is modelled; for a repeated key, `Lookup` takes the first field.
- **Malformed match documents.** The worker also rejects when `extractTrackedMatch` throws on a document the typed DTO cannot hold, such as a null character or a `teams` that is not an array. Such a document is represented only as a rejected detail reply. It then gives the same "match-v1 detail" warning.
- **A non-array id list.** A body that is not an array is represented as `None` and becomes `[]`. Arrays holding non-string ids are outside the model.
- **`count` and `queue`.** `count` only shapes the id query (`MatchIdsQueryOf`). `queue` is copied into the analytics. Their TypeScript types are not enforced.
- **Floating point.** There is no floating-point arithmetic (so the off-by-one at exact halves noted under the idealisations is not captured) and no `Number.isFinite` on non-integers. Every JSON number is an integer, so "finite number" means "number".
- **`formatDuration` on fractions.** Non-integer durations are not modelled.
- **Locale.** Locale collation for `localeCompare` is not modelled, and neither are Unicode case mapping beyond ASCII or `Intl.DateTimeFormat`.
- HomePage.FormatDuration: states its shape only for non-negative durations. Negative ones are computed as the code does but not described by the contract.
- **Other parts of the repository.** The React component, `app/api/riot/account/route.ts` (HTTP adapter and database write), the mock profile, the layout and the type declarations are not part of this model.
