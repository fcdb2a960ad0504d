/**
 * The service layer of lib/riot/service.ts above the Riot client: the bounded
 * per-match fetch pipeline, the text of partial-failure warnings, and the
 * orchestrator that assembles a live profile. Every call into the client is an
 * input: a function from the arguments sent to the settled outcome.
 */
module RiotService {
  import opened Wrappers
  import opened JsText
  import opened JsValue
  import opened RiotServer
  import opened MatchExtract
  import opened MatchAnalytics
  import opened ChampionCatalog

  /** What a rejected promise carries: a client error, any other `Error`, or a non-error value. */
  datatype Thrown = ApiError(error: RiotApiError) | PlainError(message: string) | UnknownThrow

  /** A settled promise (`PromiseSettledResult`). */
  datatype Settled<T> = Fulfilled(value: T) | Rejected(reason: Thrown)

  const UnknownErrorText := "erreur inconnue"

  const RankedScope := "ranked-v1"

  const IdsScope := "match-v1 ids"

  const DetailScope := "match-v1 detail"

  /** At most this many match ids are fetched in detail. */
  const MatchLimit: nat := 20

  /** The number of detail requests allowed in flight at once. */
  const DetailConcurrency: int := 4

  // ---------------------------------------------------------------- warnings

  /** The text a warning gives for a failure: the error's message, or a fixed text for a non-error. */
  function Reason(error: Thrown): string {
    match error
    case ApiError(e) => e.message
    case PlainError(m) => m
    case UnknownThrow => UnknownErrorText
  }

  /** An error whose warning ends with its status: a client error with a truthy (non-zero) status. */
  predicate HasStatusTag(error: Thrown) {
    error.ApiError? && error.error.status != 0
  }

  /** The parenthesised status a warning ends with. */
  function StatusTag(status: int): string {
    "(" + IntToString(status) + ")"
  }

  /** `w` begins with `scope: `. */
  predicate IsScoped(w: string, scope: string) {
    |w| >= |scope| + 2 && w[..|scope| + 2] == scope + ": "
  }

  /** Slicing a concatenation at the seam gives back its parts. */
  lemma {:induction false} SplitConcat(a: string, b: string)
    ensures (a + b)[..|a|] == a && (a + b)[|a|..] == b
  {
  }

  /** `formatPartialError`: the scope, a colon, the reason, and ` (status)` for a client error
      with a non-zero status only. */
  function FormatPartialError(scope: string, error: Thrown): (w: string)
    ensures IsScoped(w, scope)
    ensures !HasStatusTag(error) ==> w[|scope| + 2..] == Reason(error)
    ensures HasStatusTag(error) ==>
              var tail := " " + StatusTag(error.error.status);
              && |w| == |scope| + 2 + |Reason(error)| + |tail|
              && w[|scope| + 2..|w| - |tail|] == Reason(error)
              && w[|w| - |tail|..] == tail
  {
    var head := scope + ": ";
    var body := head + Reason(error);
    SplitConcat(head, Reason(error));
    if HasStatusTag(error) then
      var tail := " " + StatusTag(error.error.status);
      SplitConcat(body, tail);
      assert (body + tail)[..|head|] == body[..|head|];
      assert (body + tail)[|head|..|body|] == body[|head|..];
      body + tail
    else
      body
  }

  /** The warning of a client error with a non-zero status, written out. */
  lemma FormatPartialErrorTagged(scope: string, e: RiotApiError)
    requires e.status != 0
    ensures FormatPartialError(scope, ApiError(e)) == scope + ": " + e.message + " " + StatusTag(e.status)
  {
  }

  /** Warnings of different scopes never coincide: neither scope is a prefix of the other
      up to its colon. */
  lemma {:induction false} ScopesDisjoint(w: string)
    requires IsScoped(w, RankedScope)
    ensures !IsScoped(w, IdsScope) && !IsScoped(w, DetailScope)
  {
    assert w[0] == 'r';
  }

  /** The warnings for the ids list and for a detail differ in their scope. */
  lemma {:induction false} MatchScopesDisjoint(w: string)
    requires IsScoped(w, IdsScope)
    ensures !IsScoped(w, DetailScope)
  {
    assert w[9] == 'i';
  }

  // ------------------------------------------------------ mapWithConcurrency

  /** `Math.max(1, Math.min(concurrency, items.length || 1))`: the number of workers started. */
  function WorkerCount(concurrency: int, n: nat): (w: int)
    ensures w >= 1
    ensures n >= 1 ==> w <= n
    ensures concurrency >= 1 ==> w <= concurrency
    ensures n >= concurrency >= 1 ==> w == concurrency
    ensures n == 0 ==> w == 1
  {
    var len := if n == 0 then 1 else n;
    var least := if concurrency < len then concurrency else len;
    if least < 1 then 1 else least
  }

  /** `mapWithConcurrency`: workers repeatedly claim the next index from a shared cursor and
      store the settled outcome of `worker` in that index's slot. A claim reads and bumps the
      cursor without yielding, so indices are claimed once each, in increasing order; the
      interleaving of the workers is not modelled, and whatever their number the slots end up
      holding each item's own outcome. */
  method MapWithConcurrency<I, O>(items: seq<I>, concurrency: int, worker: (I, nat) -> Settled<O>)
    returns (rs: seq<Settled<O>>)
    ensures |rs| == |items|
    ensures forall i :: 0 <= i < |items| ==> rs[i] == worker(items[i], i)
  {
    var results := new Settled<O>[|items|](_ => Rejected(UnknownThrow));
    var workers := WorkerCount(concurrency, |items|);
    var cursor := 0;
    while cursor < |items|
      invariant 0 <= cursor <= |items|
      invariant forall j :: 0 <= j < cursor ==> results[j] == worker(items[j], j)
    {
      var index := cursor;
      cursor := cursor + 1;
      results[index] := worker(items[index], index);
    }
    rs := results[..];
  }

  // ---------------------------------------------------- fetchAndTrackMatches

  /** The detail request as the client answers it: the match id and cluster sent, the settled reply. */
  type DetailClient = (string, Cluster) -> Settled<MatchDto>

  /** The pipeline's worker: fetch one match and extract the tracked player's record. */
  function TrackOne(matchId: string, puuid: string, cluster: Cluster, detail: DetailClient): (r: Settled<Option<TrackedMatch>>)
    ensures r.Rejected? <==> detail(matchId, cluster).Rejected?
    ensures r.Fulfilled? ==> r.value == Extracted(detail(matchId, cluster).value, puuid, matchId)
  {
    match detail(matchId, cluster)
    case Fulfilled(dto) => Fulfilled(Extracted(dto, puuid, matchId))
    case Rejected(e) => Rejected(e)
  }

  /** The ids actually fetched: the first twenty. */
  function Limited(matchIds: seq<string>): (ids: seq<string>)
    ensures |ids| <= MatchLimit && |ids| <= |matchIds|
    ensures ids == matchIds[..|ids|]
    ensures |matchIds| <= MatchLimit ==> ids == matchIds
    ensures |matchIds| >= MatchLimit ==> |ids| == MatchLimit
  {
    if |matchIds| <= MatchLimit then matchIds else matchIds[..MatchLimit]
  }

  /** The slots the pool fills for a list of ids. */
  function Outcomes(ids: seq<string>, puuid: string, cluster: Cluster, detail: DetailClient): seq<Settled<Option<TrackedMatch>>> {
    seq(|ids|, i requires 0 <= i < |ids| => TrackOne(ids[i], puuid, cluster, detail))
  }

  /** The records kept from the slots: every fulfilled non-null value, in slot order. */
  function Kept(rs: seq<Settled<Option<TrackedMatch>>>): (ms: seq<TrackedMatch>)
    ensures |ms| <= |rs|
  {
    if rs == [] then []
    else
      var last := rs[|rs| - 1];
      Kept(rs[..|rs| - 1]) + (if last.Fulfilled? && last.value.Some? then [last.value.value] else [])
  }

  /** The warnings from the slots: one per rejected slot, in slot order. */
  function DetailWarnings(rs: seq<Settled<Option<TrackedMatch>>>): (ws: seq<string>)
    ensures |ws| <= |rs|
  {
    if rs == [] then []
    else
      var last := rs[|rs| - 1];
      DetailWarnings(rs[..|rs| - 1]) + (if last.Rejected? then [FormatPartialError(DetailScope, last.reason)] else [])
  }

  /** A slot whose fetch succeeded but did not contain the player. */
  function SkippedCount(rs: seq<Settled<Option<TrackedMatch>>>): nat {
    if rs == [] then 0
    else SkippedCount(rs[..|rs| - 1]) + (if rs[|rs| - 1] == Fulfilled(None) then 1 else 0)
  }

  /** The records `fetchAndTrackMatches` returns. */
  function TrackedOf(matchIds: seq<string>, puuid: string, cluster: Cluster, detail: DetailClient): seq<TrackedMatch> {
    Kept(Outcomes(Limited(matchIds), puuid, cluster, detail))
  }

  /** The warnings `fetchAndTrackMatches` pushes. */
  function FetchWarnings(matchIds: seq<string>, puuid: string, cluster: Cluster, detail: DetailClient): seq<string> {
    DetailWarnings(Outcomes(Limited(matchIds), puuid, cluster, detail))
  }

  /** Keeping distributes over consecutive runs of slots: earlier slots' records come first. */
  lemma {:induction false} KeptAppend(a: seq<Settled<Option<TrackedMatch>>>, b: seq<Settled<Option<TrackedMatch>>>)
    ensures Kept(a + b) == Kept(a) + Kept(b)
    decreases |b|
  {
    if b == [] {
      assert a + b == a;
    } else {
      var b' := b[..|b| - 1];
      assert (a + b)[..|a + b| - 1] == a + b';
      assert (a + b)[|a + b| - 1] == b[|b| - 1];
      KeptAppend(a, b');
    }
  }

  /** Warnings distribute over consecutive runs of slots: earlier slots' warnings come first. */
  lemma {:induction false} DetailWarningsAppend(a: seq<Settled<Option<TrackedMatch>>>, b: seq<Settled<Option<TrackedMatch>>>)
    ensures DetailWarnings(a + b) == DetailWarnings(a) + DetailWarnings(b)
    decreases |b|
  {
    if b == [] {
      assert a + b == a;
    } else {
      var b' := b[..|b| - 1];
      assert (a + b)[..|a + b| - 1] == a + b';
      assert (a + b)[|a + b| - 1] == b[|b| - 1];
      DetailWarningsAppend(a, b');
    }
  }

  /** A rejected slot leaves its own warning, after the warnings of the slots before it. */
  lemma {:induction false} RejectedSlotWarned(rs: seq<Settled<Option<TrackedMatch>>>, i: nat) returns (k: nat)
    requires i < |rs| && rs[i].Rejected?
    ensures k == |DetailWarnings(rs[..i])|
    ensures k < |DetailWarnings(rs)| && DetailWarnings(rs)[k] == FormatPartialError(DetailScope, rs[i].reason)
  {
    k := |DetailWarnings(rs[..i])|;
    assert rs == rs[..i] + [rs[i]] + rs[i + 1..];
    DetailWarningsAppend(rs[..i] + [rs[i]], rs[i + 1..]);
    DetailWarningsAppend(rs[..i], [rs[i]]);
    assert [rs[i]][..0] == [];
  }

  /** A listed match among the first twenty whose request is refused leaves its warning. */
  lemma FailedDetailWarned(matchIds: seq<string>, puuid: string, cluster: Cluster, detail: DetailClient, i: nat)
    returns (k: nat)
    requires i < |matchIds| && i < MatchLimit && detail(matchIds[i], cluster).Rejected?
    ensures k < |FetchWarnings(matchIds, puuid, cluster, detail)|
    ensures FetchWarnings(matchIds, puuid, cluster, detail)[k] == FormatPartialError(DetailScope, detail(matchIds[i], cluster).reason)
  {
    var ids := Limited(matchIds);
    var rs := Outcomes(ids, puuid, cluster, detail);
    assert ids[i] == matchIds[i];
    assert rs[i] == Rejected(detail(matchIds[i], cluster).reason);
    k := RejectedSlotWarned(rs, i);
  }

  /** Every slot is kept, warned about, or skipped as not containing the player: the three
      counts add up to the number of slots. */
  lemma {:induction false} OutcomesPartition(rs: seq<Settled<Option<TrackedMatch>>>)
    ensures |Kept(rs)| + |DetailWarnings(rs)| + SkippedCount(rs) == |rs|
  {
    if rs != [] {
      OutcomesPartition(rs[..|rs| - 1]);
    }
  }

  /** Every warning from the slots is scoped to the match detail. */
  lemma {:induction false} DetailWarningsScoped(rs: seq<Settled<Option<TrackedMatch>>>)
    ensures forall k :: 0 <= k < |DetailWarnings(rs)| ==> IsScoped(DetailWarnings(rs)[k], DetailScope)
  {
    if rs != [] {
      DetailWarningsScoped(rs[..|rs| - 1]);
    }
  }

  /** When every slot holds a record, all of them are returned in slot order, whatever order
      the requests completed in. */
  lemma {:induction false} KeptAllFulfilled(rs: seq<Settled<Option<TrackedMatch>>>, ms: seq<TrackedMatch>)
    requires |rs| == |ms|
    requires forall i :: 0 <= i < |rs| ==> rs[i] == Fulfilled(Some(ms[i]))
    ensures Kept(rs) == ms
    ensures DetailWarnings(rs) == []
  {
    if rs != [] {
      KeptAllFulfilled(rs[..|rs| - 1], ms[..|ms| - 1]);
      assert ms == ms[..|ms| - 1] + [ms[|ms| - 1]];
    }
  }

  /** At most twenty records and twenty warnings come out of the fetch pipeline, and together
      with the skipped ids they account for every id fetched. */
  lemma FetchBounds(matchIds: seq<string>, puuid: string, cluster: Cluster, detail: DetailClient)
    ensures |TrackedOf(matchIds, puuid, cluster, detail)| <= MatchLimit
    ensures |FetchWarnings(matchIds, puuid, cluster, detail)| <= MatchLimit
    ensures var rs := Outcomes(Limited(matchIds), puuid, cluster, detail);
            |TrackedOf(matchIds, puuid, cluster, detail)| + |FetchWarnings(matchIds, puuid, cluster, detail)|
              + SkippedCount(rs) == |Limited(matchIds)|
  {
    OutcomesPartition(Outcomes(Limited(matchIds), puuid, cluster, detail));
  }

  /** An id past the twentieth is never requested: the pipeline's output does not depend on it. */
  lemma IdsPastLimitIgnored(matchIds: seq<string>, extra: seq<string>, puuid: string, cluster: Cluster, detail: DetailClient)
    requires |matchIds| >= MatchLimit
    ensures TrackedOf(matchIds + extra, puuid, cluster, detail) == TrackedOf(matchIds, puuid, cluster, detail)
    ensures FetchWarnings(matchIds + extra, puuid, cluster, detail) == FetchWarnings(matchIds, puuid, cluster, detail)
  {
    assert Limited(matchIds + extra) == Limited(matchIds);
  }

  /** The loop over the slots: push each fulfilled non-null record, and a warning for each
      rejected slot. */
  method CollectTracked(results: seq<Settled<Option<TrackedMatch>>>, warnings: seq<string>)
    returns (tracked: seq<TrackedMatch>, warningsOut: seq<string>)
    ensures tracked == Kept(results)
    ensures warningsOut == warnings + DetailWarnings(results)
  {
    tracked := [];
    warningsOut := warnings;
    var i := 0;
    while i < |results|
      invariant 0 <= i <= |results|
      invariant tracked == Kept(results[..i])
      invariant warningsOut == warnings + DetailWarnings(results[..i])
    {
      assert results[..i + 1][..i] == results[..i];
      var result := results[i];
      if result.Fulfilled? && result.value.Some? {
        tracked := tracked + [result.value.value];
      } else if result.Rejected? {
        warningsOut := warningsOut + [FormatPartialError(DetailScope, result.reason)];
      }
      i := i + 1;
    }
    assert results[..i] == results;
  }

  /** `fetchAndTrackMatches`: fetch the first twenty ids four at a time, then keep the records
      and push a warning per failed request onto the shared list. */
  method FetchAndTrackMatches(matchIds: seq<string>, puuid: string, cluster: Cluster, detail: DetailClient,
                              warnings: seq<string>)
    returns (tracked: seq<TrackedMatch>, warningsOut: seq<string>)
    ensures tracked == TrackedOf(matchIds, puuid, cluster, detail)
    ensures warningsOut == warnings + FetchWarnings(matchIds, puuid, cluster, detail)
    ensures |tracked| <= MatchLimit
  {
    var limitedIds := Limited(matchIds);
    var results := MapWithConcurrency(limitedIds, DetailConcurrency,
                                      (matchId: string, index: nat) => TrackOne(matchId, puuid, cluster, detail));
    assert results == Outcomes(limitedIds, puuid, cluster, detail);
    tracked, warningsOut := CollectTracked(results, warnings);
  }

  // ------------------------------------------------ buildLiveRiotProfileByRiotId

  /** The other client calls the orchestrator makes, for the arguments it sends. A match id
      listing is `None` when its body is not an array. */
  datatype Client = Client(
    rankedStats: (string, Cluster) -> Settled<Json>,
    matchIds: (string, Cluster, MatchIdsQuery) -> Settled<Option<seq<string>>>,
    matchDetail: DetailClient)

  datatype Limitations = Limitations(hasPublic2XkoMatchApiInCatalog: bool, requiresRsoPlayerOptIn: bool, note: string)

  datatype LiveProfile = LiveProfile(
    account: Account,
    ranked: Option<Json>,
    analytics: Option<Analytics>,
    championCatalog: Option<CatalogSummary>,
    limitations: Limitations,
    warnings: seq<string>)

  const LiveNote := "Endpoints 2XKO-MATCH-V1 / 2XKO-RANKED-V1 consommés selon la spec fournie. Vérifie les champs exacts si Riot change la réponse."

  const UnavailableNote := "Match/ranked 2XKO indisponibles avec la configuration actuelle (route, clé ou accès). Le lookup Riot ID reste opérationnel."

  const DefaultCount := 20

  const DefaultQueue := "ranked"

  /** The ranked stats request's outcome for an account. */
  function RankedResult(account: Account, client: Client): Settled<Json> {
    client.rankedStats(account.puuid, account.sourceCluster)
  }

  /** The match id request's outcome for an account: no start, the given count and queue. */
  function IdsResult(account: Account, client: Client, count: Option<int>, queue: string): Settled<Option<seq<string>>> {
    client.matchIds(account.puuid, account.sourceCluster, MatchIdsQueryOf(None, Some(if count.Some? then count.value else DefaultCount), Some(queue)))
  }

  /** The id list read from a fulfilled listing: `Array.isArray(value) ? value : []`. */
  function IdList(listing: Option<seq<string>>): seq<string> {
    if listing.Some? then listing.value else []
  }

  /** The ranked block: the fulfilled value, or null when the request failed. */
  function RankedOf(rankedResult: Settled<Json>): Option<Json> {
    if rankedResult.Fulfilled? then Some(rankedResult.value) else None
  }

  /** The warning a failed ranked request leaves. */
  function RankedWarnings(rankedResult: Settled<Json>): seq<string> {
    if rankedResult.Rejected? then [FormatPartialError(RankedScope, rankedResult.reason)] else []
  }

  /** The analytics: computed from the tracked records when the id listing succeeded, else null. */
  function AnalyticsPart(idsResult: Settled<Option<seq<string>>>, puuid: string, cluster: Cluster, detail: DetailClient,
                         queue: string): Option<Analytics> {
    if idsResult.Fulfilled? then Some(AnalyticsOf(TrackedOf(IdList(idsResult.value), puuid, cluster, detail), queue))
    else None
  }

  /** The warnings the match side leaves: the detail failures, or the listing's own failure. */
  function MatchWarnings(idsResult: Settled<Option<seq<string>>>, puuid: string, cluster: Cluster, detail: DetailClient): seq<string> {
    if idsResult.Fulfilled? then FetchWarnings(IdList(idsResult.value), puuid, cluster, detail)
    else [FormatPartialError(IdsScope, idsResult.reason)]
  }

  /** The limitations block for the presence of analytics. */
  function LimitationsFor(hasAnalytics: bool): Limitations {
    Limitations(hasAnalytics, true, if hasAnalytics then LiveNote else UnavailableNote)
  }

  /** The profile's warnings: the ranked one, if any, then the match side's. */
  function ProfileWarningsOf(account: Account, client: Client, count: Option<int>, queue: string): seq<string> {
    RankedWarnings(RankedResult(account, client))
      + MatchWarnings(IdsResult(account, client, count, queue), account.puuid, account.sourceCluster, client.matchDetail)
  }

  /** The profile assembled once the account and the catalog are known. */
  function ProfileOf(account: Account, catalog: Option<CatalogSummary>, client: Client, count: Option<int>, queue: string): LiveProfile {
    var analytics := AnalyticsPart(IdsResult(account, client, count, queue), account.puuid, account.sourceCluster,
                                   client.matchDetail, queue);
    LiveProfile(account, RankedOf(RankedResult(account, client)), analytics, catalog, LimitationsFor(analytics.Some?),
                ProfileWarningsOf(account, client, count, queue))
  }

  /** The match side of the orchestrator: on a successful listing, track the listed matches and
      compute the analytics; on a failed one, push the listing's warning. */
  method TrackListedMatches(idsResult: Settled<Option<seq<string>>>, puuid: string, cluster: Cluster, detail: DetailClient,
                            queue: string, warnings: seq<string>)
    returns (analytics: Option<Analytics>, warningsOut: seq<string>)
    ensures analytics == AnalyticsPart(idsResult, puuid, cluster, detail, queue)
    ensures warningsOut == warnings + MatchWarnings(idsResult, puuid, cluster, detail)
  {
    if idsResult.Fulfilled? {
      var matchIds := IdList(idsResult.value);
      var tracked;
      tracked, warningsOut := FetchAndTrackMatches(matchIds, puuid, cluster, detail, warnings);
      var a := ComputeAnalytics(tracked, queue);
      analytics := Some(a);
    } else {
      analytics := None;
      warningsOut := warnings + [FormatPartialError(IdsScope, idsResult.reason)];
    }
  }

  /** `buildLiveRiotProfileByRiotId` given the outcome of the account lookup and the catalog
      summary: a failed lookup fails the whole call; otherwise the ranked stats and the match
      ids are requested, and each failure becomes a warning instead of an error. */
  method BuildLiveRiotProfileByRiotId(account: Result<Account, Thrown>, catalog: Option<CatalogSummary>, client: Client,
                                      count: Option<int>, queue: Option<string>)
    returns (r: Result<LiveProfile, Thrown>)
    ensures account.Err? ==> r == Err(account.error)
    ensures account.Ok? ==>
              r == Ok(ProfileOf(account.value, catalog, client, count, if queue.Some? then queue.value else DefaultQueue))
  {
    if account.Err? {
      return Err(account.error);
    }
    var acc := account.value;
    var q := if queue.Some? then queue.value else DefaultQueue;
    var warnings: seq<string> := [];
    var rankedResult := RankedResult(acc, client);
    var idsResult := IdsResult(acc, client, count, q);

    var ranked: Option<Json> := None;
    if rankedResult.Fulfilled? {
      ranked := Some(rankedResult.value);
    } else {
      warnings := warnings + [FormatPartialError(RankedScope, rankedResult.reason)];
    }
    assert ranked == RankedOf(rankedResult) && warnings == RankedWarnings(rankedResult);

    var analytics;
    analytics, warnings := TrackListedMatches(idsResult, acc.puuid, acc.sourceCluster, client.matchDetail, q, warnings);

    var note := if analytics.Some? then LiveNote else UnavailableNote;
    r := Ok(LiveProfile(acc, ranked, analytics, catalog, Limitations(analytics.Some?, true, note), warnings));
  }

  /** The match side leaves at most twenty warnings: the listing's own when it failed, else
      only detail warnings. */
  lemma MatchWarningsScoped(idsResult: Settled<Option<seq<string>>>, puuid: string, cluster: Cluster, detail: DetailClient)
    ensures var ws := MatchWarnings(idsResult, puuid, cluster, detail);
            && |ws| <= MatchLimit
            && (idsResult.Rejected? ==> ws == [FormatPartialError(IdsScope, idsResult.reason)])
            && (idsResult.Fulfilled? ==> forall k :: 0 <= k < |ws| ==> IsScoped(ws[k], DetailScope))
            && forall k :: 0 <= k < |ws| ==> !IsScoped(ws[k], RankedScope)
  {
    var ws := MatchWarnings(idsResult, puuid, cluster, detail);
    if idsResult.Fulfilled? {
      var ids := IdList(idsResult.value);
      FetchBounds(ids, puuid, cluster, detail);
      DetailWarningsScoped(Outcomes(Limited(ids), puuid, cluster, detail));
    }
    forall k | 0 <= k < |ws|
      ensures !IsScoped(ws[k], RankedScope)
    {
      if IsScoped(ws[k], RankedScope) {
        ScopesDisjoint(ws[k]);
      }
    }
  }

  /** The ranked block is missing exactly when its request failed, and then the first warning
      is the ranked one; otherwise no warning is scoped to ranked stats. */
  lemma ProfileRanked(account: Account, catalog: Option<CatalogSummary>, client: Client, count: Option<int>, queue: string)
    ensures var p := ProfileOf(account, catalog, client, count, queue);
            var rr := RankedResult(account, client);
            && (p.ranked.None? <==> rr.Rejected?)
            && (rr.Fulfilled? ==> p.ranked == Some(rr.value))
            && (rr.Rejected? ==> |p.warnings| >= 1 && p.warnings[0] == FormatPartialError(RankedScope, rr.reason))
            && (rr.Fulfilled? ==> forall k :: 0 <= k < |p.warnings| ==> !IsScoped(p.warnings[k], RankedScope))
  {
    var rr := RankedResult(account, client);
    var ir := IdsResult(account, client, count, queue);
    MatchWarningsScoped(ir, account.puuid, account.sourceCluster, client.matchDetail);
  }

  /** Analytics are present exactly when the id listing succeeded; the limitations block says
      so, and the analytics then cover the records tracked from the first twenty ids. */
  lemma ProfileAnalytics(account: Account, catalog: Option<CatalogSummary>, client: Client, count: Option<int>, queue: string)
    ensures var p := ProfileOf(account, catalog, client, count, queue);
            var ir := IdsResult(account, client, count, queue);
            && (p.analytics.Some? <==> ir.Fulfilled?)
            && p.limitations.hasPublic2XkoMatchApiInCatalog == p.analytics.Some?
            && p.limitations.requiresRsoPlayerOptIn
            && p.limitations.note == (if p.analytics.Some? then LiveNote else UnavailableNote)
            && p.account == account && p.championCatalog == catalog
            && (ir.Fulfilled? ==>
                  var tracked := TrackedOf(IdList(ir.value), account.puuid, account.sourceCluster, client.matchDetail);
                  && p.analytics == Some(AnalyticsOf(tracked, queue))
                  && p.analytics.value.sampleWindowMatches <= MatchLimit)
  {
    var ir := IdsResult(account, client, count, queue);
    if ir.Fulfilled? {
      var ids := IdList(ir.value);
      FetchBounds(ids, account.puuid, account.sourceCluster, client.matchDetail);
      AnalyticsTotals(TrackedOf(ids, account.puuid, account.sourceCluster, client.matchDetail), queue);
    }
  }

  /** The warnings are the ranked one, if any, followed by the match side's: exactly the
      listing's warning when it failed, else one detail warning per failed match request. */
  lemma ProfileWarnings(account: Account, client: Client, count: Option<int>, queue: string)
    ensures var ws := ProfileWarningsOf(account, client, count, queue);
            var rr := RankedResult(account, client);
            var ir := IdsResult(account, client, count, queue);
            var lead := if rr.Rejected? then 1 else 0;
            && |ws| >= lead
            && (rr.Rejected? ==> ws[0] == FormatPartialError(RankedScope, rr.reason))
            && ws[lead..] == MatchWarnings(ir, account.puuid, account.sourceCluster, client.matchDetail)
            && (ir.Rejected? ==> |ws| == lead + 1 && ws[lead] == FormatPartialError(IdsScope, ir.reason))
            && |ws| <= MatchLimit + 1
  {
    var rr := RankedResult(account, client);
    var ir := IdsResult(account, client, count, queue);
    MatchWarningsScoped(ir, account.puuid, account.sourceCluster, client.matchDetail);
    SplitSeq(RankedWarnings(rr), MatchWarnings(ir, account.puuid, account.sourceCluster, client.matchDetail));
  }

  /** A refused request for one of the first twenty listed matches leaves its warning in the profile. */
  lemma ProfileDetailWarning(account: Account, client: Client, count: Option<int>, queue: string, i: nat) returns (j: nat)
    requires IdsResult(account, client, count, queue).Fulfilled?
    requires var ids := IdList(IdsResult(account, client, count, queue).value);
             i < |ids| && i < MatchLimit && client.matchDetail(ids[i], account.sourceCluster).Rejected?
    ensures var ws := ProfileWarningsOf(account, client, count, queue);
            var ids := IdList(IdsResult(account, client, count, queue).value);
            j < |ws| && ws[j] == FormatPartialError(DetailScope, client.matchDetail(ids[i], account.sourceCluster).reason)
  {
    var ir := IdsResult(account, client, count, queue);
    var ids := IdList(ir.value);
    var k := FailedDetailWarned(ids, account.puuid, account.sourceCluster, client.matchDetail, i);
    var rw := RankedWarnings(RankedResult(account, client));
    var ws := FetchWarnings(ids, account.puuid, account.sourceCluster, client.matchDetail);
    assert MatchWarnings(ir, account.puuid, account.sourceCluster, client.matchDetail) == ws;
    assert (rw + ws)[|rw| + k] == ws[k];
    j := |rw| + k;
  }

  /** Slicing a concatenation after its first part gives the second part. */
  lemma {:induction false} SplitSeq(a: seq<string>, b: seq<string>)
    ensures (a + b)[|a|..] == b
  {
  }
}
