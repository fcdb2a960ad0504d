/**
 * The Riot API client of lib/riot/server.ts: Riot ID parsing, the mapping of
 * HTTP statuses to typed errors, the account lookup that falls back across
 * clusters, and the window of the match id listing. HTTP itself is not
 * modelled: every reply is an input.
 */
module RiotServer {
  import opened Wrappers
  import opened JsText
  import opened JsValue

  /** The regional routing values tried, in this order, by the account lookup. */
  datatype Cluster = Europe | Americas | Asia

  const AccountClusters: seq<Cluster> := [Europe, Americas, Asia]

  datatype ErrorCode =
    | MissingRiotApiKey
    | InvalidRiotId
    | AccountNotFound
    | RiotUnauthorized
    | RiotForbidden
    | RiotRateLimit
    | RiotUpstreamError

  /** `RiotApiError`: a code, the HTTP status to answer with, a message and an optional body excerpt. */
  datatype RiotApiError = RiotApiError(code: ErrorCode, status: int, message: string, details: Option<string>)

  datatype ParsedRiotId = ParsedRiotId(gameName: string, tagLine: string)

  const InvalidRiotIdError := RiotApiError(InvalidRiotId, 400, "Format Riot ID invalide. Utilise `Pseudo#TAG`.", None)

  const MissingApiKeyError := RiotApiError(MissingRiotApiKey, 500, "Variable `RIOT_API_KEY` absente sur le serveur.", None)

  /** `value` splits at position `h` as "name#tag" with no '#' in the tag. */
  predicate IsLastHash(value: string, h: int) {
    0 <= h < |value| && value[h] == '#' && forall i :: h < i < |value| ==> value[i] != '#'
  }

  /** The two trimmed sides of `value` around position `h`. */
  function SplitAt(value: string, h: nat): (p: ParsedRiotId)
    requires h < |value|
    ensures IsTrimmed(p.gameName) && IsTrimmed(p.tagLine)
  {
    ParsedRiotId(Trim(value[..h]), Trim(value[h + 1..]))
  }

  /** `parseRiotId` after the input is trimmed: split at the last '#' and trim both sides. */
  function ParseTrimmed(value: string): (r: Result<ParsedRiotId, RiotApiError>)
    ensures r.Err? ==> r.error == InvalidRiotIdError
    ensures r.Ok? ==> r.value.gameName != "" && IsTrimmed(r.value.gameName)
    ensures r.Ok? ==> r.value.tagLine != "" && IsTrimmed(r.value.tagLine)
  {
    var hashIndex := LastIndexOf(value, '#');
    if hashIndex <= 0 || hashIndex == |value| - 1 then Err(InvalidRiotIdError)
    else
      var p := SplitAt(value, hashIndex);
      if p.gameName == "" || p.tagLine == "" then Err(InvalidRiotIdError)
      else Ok(p)
  }

  /** `parseRiotId`: split the trimmed input at its last '#' and trim both sides. */
  function ParseRiotId(input: string): (r: Result<ParsedRiotId, RiotApiError>)
    ensures r.Err? ==> r.error == InvalidRiotIdError
    ensures r.Ok? ==> r.value.gameName != "" && IsTrimmed(r.value.gameName)
    ensures r.Ok? ==> r.value.tagLine != "" && IsTrimmed(r.value.tagLine)
  {
    ParseTrimmed(Trim(input))
  }

  /** What follows the last '#' holds no '#', trimmed or not. */
  lemma HashFreeTail(value: string, k: int)
    requires 0 <= k && k == LastIndexOf(value, '#')
    ensures Excludes(Trim(value[k + 1..]), '#')
  {
    var tail := value[k + 1..];
    forall i | 0 <= i < |tail|
      ensures tail[i] != '#'
    {
      assert tail[i] == value[k + 1 + i];
    }
    TrimOmits(tail, '#');
  }

  /** A successful parse splits at the last '#'. */
  lemma ParseTrimmedSplit(value: string)
    requires ParseTrimmed(value).Ok?
    ensures 0 < LastIndexOf(value, '#') < |value| - 1
    ensures ParseTrimmed(value).value == SplitAt(value, LastIndexOf(value, '#'))
  {
  }

  /** The tag line of a parsed Riot ID holds no '#'. */
  lemma ParseRiotIdTagHashFree(input: string)
    requires ParseRiotId(input).Ok?
    ensures Excludes(ParseRiotId(input).value.tagLine, '#')
  {
    var value := Trim(input);
    ParseTrimmedSplit(value);
    HashFreeTail(value, LastIndexOf(value, '#'));
  }

  /** `LastIndexOf` finds the one position at which a string splits as "name#tag". */
  lemma LastHashUnique(value: string, h: int)
    ensures IsLastHash(value, h) <==> h >= 0 && h == LastIndexOf(value, '#')
  {
  }

  /** A parsed Riot ID is the trimmed input split at its last '#', both sides trimmed. */
  lemma ParseRiotIdSplitsAtLastHash(input: string)
    requires ParseRiotId(input).Ok?
    ensures exists h: nat :: IsLastHash(Trim(input), h) && SplitAt(Trim(input), h) == ParseRiotId(input).value
  {
    var value := Trim(input);
    ParseTrimmedSplit(value);
    assert IsLastHash(value, LastIndexOf(value, '#'));
  }

  /** Splitting `value` at `h` leaves a blank name or a blank tag. */
  predicate BlankSide(value: string, h: nat)
    requires h < |value|
  {
    SplitAt(value, h).gameName == "" || SplitAt(value, h).tagLine == ""
  }

  /** An already trimmed value fails to parse exactly when its split at the last '#'
      leaves a blank side, or there is none. */
  lemma TrimmedFailsIff(value: string)
    ensures ParseTrimmed(value).Err? <==> forall h: nat :: IsLastHash(value, h) ==> BlankSide(value, h)
  {
    var k := LastIndexOf(value, '#');
    if k >= 0 {
      assert IsLastHash(value, k);
      forall h: nat | IsLastHash(value, h)
        ensures h == k
      {
        LastHashUnique(value, h);
      }
      if k == 0 {
        assert value[..k] == "";
        TrimEmpty();
      } else if k == |value| - 1 {
        assert value[k + 1..] == "";
        TrimEmpty();
      }
    }
  }

  /** Parsing fails exactly when no split of the trimmed input at its last '#' leaves
      two non-blank sides: no '#' at all, a '#' at either end, or a blank side. */
  lemma ParseRiotIdFailsIff(input: string)
    ensures ParseRiotId(input).Err? <==> forall h: nat :: IsLastHash(Trim(input), h) ==> BlankSide(Trim(input), h)
  {
    TrimmedFailsIff(Trim(input));
  }

  /** Formatting a trimmed name and tag as "name#tag" and parsing it gives them back. */
  lemma ParseRiotIdRoundTrip(gameName: string, tagLine: string)
    requires gameName != "" && IsTrimmed(gameName)
    requires tagLine != "" && IsTrimmed(tagLine) && Excludes(tagLine, '#')
    ensures ParseRiotId(gameName + "#" + tagLine) == Ok(ParsedRiotId(gameName, tagLine))
  {
    var value := gameName + "#" + tagLine;
    assert value[0] == gameName[0] && value[|value| - 1] == tagLine[|tagLine| - 1];
    TrimTrimmed(value);
    var h := LastIndexOf(value, '#');
    assert value[|gameName|] == '#';
    assert forall i :: |gameName| < i < |value| ==> value[i] == tagLine[i - |gameName| - 1];
    assert h == |gameName|;
    assert value[..h] == gameName;
    assert value[h + 1..] == tagLine;
    TrimTrimmed(gameName);
    TrimTrimmed(tagLine);
  }

  /** `response.ok`. */
  predicate IsOk(status: int) {
    200 <= status <= 299
  }

  /** `process.env.RIOT_API_KEY?.trim()` is a non-empty string. */
  predicate HasApiKey(apiKey: Option<string>) {
    apiKey.Some? && Trim(apiKey.value) != ""
  }

  /** The error `requestRiotJson` throws for a reply that is not ok. */
  function RequestError(status: int, contextLabel: string, notFoundCode: ErrorCode, notFoundMessage: string,
                        details: Option<string>): (e: RiotApiError)
    requires !IsOk(status)
    ensures e.status == status && e.details == details
    ensures status == 404 ==> e.code == notFoundCode && e.message == notFoundMessage
    ensures status == 401 ==> e.code == RiotUnauthorized
    ensures status == 403 ==> e.code == RiotForbidden
    ensures status == 429 ==> e.code == RiotRateLimit
    ensures status != 401 && status != 403 && status != 404 && status != 429 ==> e.code == RiotUpstreamError
  {
    if status == 404 then RiotApiError(notFoundCode, 404, notFoundMessage, details)
    else if status == 401 then
      RiotApiError(RiotUnauthorized, 401, "RIOT_API_KEY invalide ou expirée (" + contextLabel + ").", details)
    else if status == 403 then
      RiotApiError(RiotForbidden, 403, "Accès refusé par Riot pour " + contextLabel
                                       + " (route non autorisée / clé insuffisante).", details)
    else if status == 429 then
      RiotApiError(RiotRateLimit, 429, "Rate limit Riot atteint sur " + contextLabel + ".", details)
    else
      RiotApiError(RiotUpstreamError, status, "Erreur Riot sur " + contextLabel + ".", details)
  }

  /** A reply from the Riot API: its status and its decoded JSON body. */
  datatype Reply = Reply(status: int, body: Json)

  /** `requestRiotJson`: the decoded body of an ok reply, otherwise the typed error.
      `details` is what `safeErrorBody` read from the reply. */
  function RequestRiotJson(apiKey: Option<string>, reply: Reply, details: Option<string>, contextLabel: string,
                           notFoundCode: ErrorCode, notFoundMessage: string): (r: Result<Json, RiotApiError>)
    ensures !HasApiKey(apiKey) ==> r == Err(MissingApiKeyError)
    ensures HasApiKey(apiKey) ==> (r.Ok? <==> IsOk(reply.status))
    ensures r.Ok? ==> r.value == reply.body
    ensures HasApiKey(apiKey) && r.Err? ==> r.error.status == reply.status
  {
    if !HasApiKey(apiKey) then Err(MissingApiKeyError)
    else if IsOk(reply.status) then Ok(reply.body)
    else Err(RequestError(reply.status, contextLabel, notFoundCode, notFoundMessage, details))
  }

  datatype AccountDto = AccountDto(puuid: string, gameName: Option<string>, tagLine: Option<string>)

  /** One cluster's answer to the account lookup, with the body excerpt read on failure. */
  datatype AccountReply = AccountReply(status: int, body: AccountDto, details: Option<string>)

  datatype Account = Account(puuid: string, gameName: string, tagLine: string, riotId: string,
                             sourceCluster: Cluster, fetchedAt: string)

  const AccountNotFoundError := RiotApiError(AccountNotFound, 404, "Compte Riot introuvable pour ce Riot ID.", None)

  /** The error after the cluster loop when no cluster answered 404 (never returned, see below). */
  const UnresolvedAccountError := RiotApiError(RiotUpstreamError, 502, "Impossible de résoudre le compte Riot pour le moment.", None)

  /** The account built from an ok reply; names the reply leaves out come from the parsed Riot ID. */
  function AccountFrom(dto: AccountDto, parsed: ParsedRiotId, cluster: Cluster, fetchedAt: string): (a: Account)
    ensures a.puuid == dto.puuid && a.sourceCluster == cluster
    ensures a.riotId == a.gameName + "#" + a.tagLine
    ensures a.gameName == (if dto.gameName.Some? then dto.gameName.value else parsed.gameName)
    ensures a.tagLine == (if dto.tagLine.Some? then dto.tagLine.value else parsed.tagLine)
  {
    var gameName := if dto.gameName.Some? then dto.gameName.value else parsed.gameName;
    var tagLine := if dto.tagLine.Some? then dto.tagLine.value else parsed.tagLine;
    Account(dto.puuid, gameName, tagLine, gameName + "#" + tagLine, cluster, fetchedAt)
  }

  /** The messages of the cluster loop's errors. */
  const UnauthorizedMessage := "RIOT_API_KEY invalide ou expirée."
  const ForbiddenMessage := "Accès refusé par Riot (clé non autorisée pour cette route / produit)."
  const RateLimitMessage := "Rate limit Riot atteint. Réessaie dans quelques secondes."
  const UpstreamMessage := "Erreur upstream Riot lors du lookup account."

  /** The error the cluster loop throws for a reply that is neither ok nor 404. */
  function AccountReplyError(status: int, details: Option<string>): (e: RiotApiError)
    requires !IsOk(status) && status != 404
    ensures e.status == status && e.details == details
    ensures status == 401 ==> e.code == RiotUnauthorized
    ensures status == 403 ==> e.code == RiotForbidden
    ensures status == 429 ==> e.code == RiotRateLimit
    ensures status != 401 && status != 403 && status != 429 ==> e.code == RiotUpstreamError
  {
    if status == 401 then RiotApiError(RiotUnauthorized, 401, UnauthorizedMessage, details)
    else if status == 403 then
      RiotApiError(RiotForbidden, 403, ForbiddenMessage, details)
    else if status == 429 then
      RiotApiError(RiotRateLimit, 429, RateLimitMessage, details)
    else RiotApiError(RiotUpstreamError, status, UpstreamMessage, details)
  }

  /** The error thrown once the loop over clusters ends without returning. */
  function ExhaustedError(last404: bool): RiotApiError {
    if last404 then AccountNotFoundError else UnresolvedAccountError
  }

  /** The replies of the three clusters, in lookup order. */
  function ClusterReplies(reply: Cluster -> AccountReply): (rs: seq<AccountReply>)
    ensures |rs| == |AccountClusters|
    ensures forall i :: 0 <= i < |rs| ==> rs[i] == reply(AccountClusters[i])
  {
    seq(|AccountClusters|, i requires 0 <= i < |AccountClusters| => reply(AccountClusters[i]))
  }

  /** The position of the first reply that is not a 404, or `|rs|` when all are. */
  function FirstNon404(rs: seq<AccountReply>): (k: nat)
    ensures k <= |rs|
    ensures forall j :: 0 <= j < k ==> rs[j].status == 404
    ensures k < |rs| ==> rs[k].status != 404
  {
    if rs == [] then 0
    else if rs[0].status != 404 then 0
    else 1 + FirstNon404(rs[1..])
  }

  /** The outcome of the cluster loop over the replies `rs`: the first reply that is not a
      404 decides (ok gives the account, anything else its error); 404 everywhere is
      ACCOUNT_NOT_FOUND. */
  function AccountLookup(rs: seq<AccountReply>, parsed: ParsedRiotId, fetchedAt: string): (r: Result<Account, RiotApiError>)
    requires |rs| == |AccountClusters|
    ensures r != Err(UnresolvedAccountError)
  {
    var k := FirstNon404(rs);
    if k == |rs| then Err(AccountNotFoundError)
    else if IsOk(rs[k].status) then Ok(AccountFrom(rs[k].body, parsed, AccountClusters[k], fetchedAt))
    else Err(AccountReplyError(rs[k].status, rs[k].details))
  }

  /** The loop of `fetchRiotAccountByRiotId` over the clusters, in order. */
  method LookupClusters(parsed: ParsedRiotId, reply: Cluster -> AccountReply, fetchedAt: string)
    returns (r: Result<Account, RiotApiError>)
    ensures r == AccountLookup(ClusterReplies(reply), parsed, fetchedAt)
  {
    ghost var rs := ClusterReplies(reply);
    var last404 := false;
    var i := 0;
    while i < |AccountClusters|
      invariant 0 <= i <= |AccountClusters|
      invariant forall j :: 0 <= j < i ==> rs[j].status == 404
      invariant last404 <==> i > 0
    {
      var cluster := AccountClusters[i];
      var response := reply(cluster);
      if IsOk(response.status) {
        assert FirstNon404(rs) == i;
        return Ok(AccountFrom(response.body, parsed, cluster, fetchedAt));
      }
      if response.status == 404 {
        last404 := true;
        i := i + 1;
        continue;
      }
      assert FirstNon404(rs) == i;
      return Err(AccountReplyError(response.status, response.details));
    }
    assert FirstNon404(rs) == |rs|;
    r := Err(ExhaustedError(last404));
  }

  /** `fetchRiotAccountByRiotId`: try the clusters in order; the first ok reply gives the
      account, a 404 moves on, any other status throws at once; 404 everywhere is
      ACCOUNT_NOT_FOUND. `reply` gives each cluster's answer, `fetchedAt` the clock. */
  method FetchRiotAccountByRiotId(apiKey: Option<string>, riotId: string, reply: Cluster -> AccountReply,
                                  fetchedAt: string) returns (r: Result<Account, RiotApiError>)
    ensures !HasApiKey(apiKey) ==> r == Err(MissingApiKeyError)
    ensures HasApiKey(apiKey) && ParseRiotId(riotId).Err? ==> r == Err(InvalidRiotIdError)
    ensures HasApiKey(apiKey) && ParseRiotId(riotId).Ok? ==>
              var rs := ClusterReplies(reply);
              var k := FirstNon404(rs);
              (k == |rs| ==> r == Err(AccountNotFoundError))
              && (k < |rs| && IsOk(rs[k].status) ==>
                    r == Ok(AccountFrom(rs[k].body, ParseRiotId(riotId).value, AccountClusters[k], fetchedAt)))
              && (k < |rs| && !IsOk(rs[k].status) ==> r == Err(AccountReplyError(rs[k].status, rs[k].details)))
    ensures r != Err(UnresolvedAccountError)
  {
    if !HasApiKey(apiKey) {
      return Err(MissingApiKeyError);
    }
    var parsed := ParseRiotId(riotId);
    if parsed.Err? {
      return Err(parsed.error);
    }
    r := LookupClusters(parsed.value, reply, fetchedAt);
  }

  /** The query `fetch2XkoMatchIdsByPuuid` sends: a start offset, a page size and an optional queue. */
  datatype MatchIdsQuery = MatchIdsQuery(start: int, count: int, queue: Option<string>)

  /** The query for optional `start` (default 0), `count` (default 20) and `queue`:
      the count clamped into [1, 100], the start clamped to at least 0, an empty queue left out. */
  function MatchIdsQueryOf(start: Option<int>, count: Option<int>, queue: Option<string>): (q: MatchIdsQuery)
    ensures 1 <= q.count <= 100 && q.start >= 0
    ensures count.None? ==> q.count == 20
    ensures count.Some? && 1 <= count.value <= 100 ==> q.count == count.value
    ensures count.Some? && count.value < 1 ==> q.count == 1
    ensures count.Some? && count.value > 100 ==> q.count == 100
    ensures start.None? ==> q.start == 0
    ensures start.Some? ==> q.start == (if start.value < 0 then 0 else start.value)
    ensures q.queue.Some? <==> queue.Some? && queue.value != ""
  {
    var requested := if count.Some? then count.value else 20;
    var safeCount := if requested < 1 then 1 else if requested > 100 then 100 else requested;
    var from := if start.Some? then start.value else 0;
    MatchIdsQuery(if from < 0 then 0 else from, safeCount,
                  if queue.Some? && queue.value != "" then queue else None)
  }
}
