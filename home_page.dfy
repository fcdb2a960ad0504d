/**
 * The display helpers of app/page.tsx that read the service's output: which
 * 2XKO data the page may show and why not, the text of the locked panels,
 * the win rate and the match duration as the page prints them.
 */
module HomePage {
  import opened Wrappers
  import opened JsText
  import opened JsValue
  import opened JsNumber
  import opened RowSort
  import opened MatchAnalytics
  import opened RiotServer
  import opened ChampionCatalog
  import opened RiotService

  /** The parts of a lookup payload the availability check reads; `warnings` may be absent. */
  datatype Payload = Payload(ranked: Option<Json>, analytics: Option<Analytics>, warnings: Option<seq<string>>)

  datatype Availability = Availability(
    canReadRanked: bool,
    canReadMatches: bool,
    has403Ranked: bool,
    has403Matches: bool,
    warnings: seq<string>)

  /** The two locked panels. */
  datatype Panel = RankedPanel | MatchPanel

  const ForbiddenTag := "(403)"

  /** The payload a profile reaches the page as. */
  function PayloadOf(p: LiveProfile): Payload {
    Payload(p.ranked, p.analytics, Some(p.warnings))
  }

  /** A warning that, lower-cased, names the panel's endpoint and a 403 status. */
  predicate Signals403(w: string, panel: Panel) {
    var lw := ToLower(w);
    Includes(lw, ForbiddenTag)
    && match panel
       case RankedPanel => Includes(lw, RankedScope)
       case MatchPanel => Includes(lw, IdsScope) || Includes(lw, DetailScope)
  }

  /** `lowerWarnings.some(...)` for one panel's test. */
  function Any403(ws: seq<string>, panel: Panel): (b: bool)
    ensures b <==> exists i :: 0 <= i < |ws| && Signals403(ws[i], panel)
  {
    if ws == [] then false
    else
      var rest := Any403(ws[1..], panel);
      assert rest ==> exists i :: 0 <= i < |ws| && Signals403(ws[i], panel) by {
        if rest {
          var i :| 0 <= i < |ws[1..]| && Signals403(ws[1..][i], panel);
          assert ws[i + 1] == ws[1..][i];
        }
      }
      assert (exists i :: 0 <= i < |ws| && Signals403(ws[i], panel)) ==> Signals403(ws[0], panel) || rest by {
        if exists i :: 0 <= i < |ws| && Signals403(ws[i], panel) {
          var i :| 0 <= i < |ws| && Signals403(ws[i], panel);
          if i > 0 {
            assert ws[1..][i - 1] == ws[i];
          }
        }
      }
      Signals403(ws[0], panel) || rest
  }

  /** `derive2XkoAvailability`: nothing is readable without a payload; otherwise the ranked and
      match panels are readable when their data is present, and each is flagged 403 when some
      warning signals a 403 on its endpoint. The warnings pass through unchanged. */
  function Derive2XkoAvailability(payload: Option<Payload>): (a: Availability)
    ensures payload.None? ==> a == Availability(false, false, false, false, [])
    ensures payload.Some? ==>
              && a.warnings == (if payload.value.warnings.Some? then payload.value.warnings.value else [])
              && a.canReadRanked == Truthy(payload.value.ranked)
              && a.canReadMatches == payload.value.analytics.Some?
    ensures a.has403Ranked <==> exists i :: 0 <= i < |a.warnings| && Signals403(a.warnings[i], RankedPanel)
    ensures a.has403Matches <==> exists i :: 0 <= i < |a.warnings| && Signals403(a.warnings[i], MatchPanel)
  {
    match payload
    case None => Availability(false, false, false, false, [])
    case Some(p) =>
      var warnings := if p.warnings.Some? then p.warnings.value else [];
      Availability(Truthy(p.ranked), p.analytics.Some?, Any403(warnings, RankedPanel), Any403(warnings, MatchPanel), warnings)
  }

  /** The flag a panel reads. */
  function Flag(a: Availability, panel: Panel): bool {
    match panel
    case RankedPanel => a.has403Ranked
    case MatchPanel => a.has403Matches
  }

  const RankedForbiddenLine := "Riot renvoie 403 sur 2XKO-RANKED-V1 avec la clé actuelle."
  const RankedForbiddenDetail := "Le site ne peut pas afficher le grade 2XKO réel tant que l’accès n’est pas autorisé."
  const RankedEmptyLine := "Aucune donnée ranked reçue pour ce joueur (ou route indisponible)."
  const MatchForbiddenLine := "Riot renvoie 403 sur 2XKO-MATCH-V1 avec la clé actuelle."
  const MatchForbiddenDetail := "Duo / Anchor / Agressivité nécessitent l’historique de matchs réel."
  const MatchEmptyLine := "Aucun match 2XKO récupéré pour ce joueur (ou route indisponible)."

  /** `buildLockedLines`: two lines explaining the 403 when the panel's flag is set, else one line
      saying no data arrived. */
  function BuildLockedLines(a: Availability, panel: Panel): (lines: seq<string>)
    ensures |lines| == (if Flag(a, panel) then 2 else 1)
    ensures panel == RankedPanel ==> lines[0] == (if a.has403Ranked then RankedForbiddenLine else RankedEmptyLine)
    ensures panel == MatchPanel ==> lines[0] == (if a.has403Matches then MatchForbiddenLine else MatchEmptyLine)
    ensures Flag(a, panel) ==> lines[1] == (if panel == RankedPanel then RankedForbiddenDetail else MatchForbiddenDetail)
  {
    match panel
    case RankedPanel =>
      if a.has403Ranked then [RankedForbiddenLine, RankedForbiddenDetail] else [RankedEmptyLine]
    case MatchPanel =>
      if a.has403Matches then [MatchForbiddenLine, MatchForbiddenDetail] else [MatchEmptyLine]
  }

  /** A panel's lines depend on its own flag only. */
  lemma LockedLinesOwnFlag(a: Availability, b: Availability, panel: Panel)
    requires Flag(a, panel) == Flag(b, panel)
    ensures BuildLockedLines(a, panel) == BuildLockedLines(b, panel)
  {
  }

  /** `safeWinrate`: 0 for no games, else the rounded percentage of wins. */
  function SafeWinrate(wins: int, losses: int): (r: int)
    ensures wins + losses <= 0 ==> r == 0
    ensures wins + losses > 0 ==>
              (wins + losses) * (2 * r - 1) <= 200 * wins < (wins + losses) * (2 * r + 1)
    ensures wins >= 0 && losses >= 0 ==> 0 <= r <= 100
  {
    RoundPercent(wins, wins + losses)
  }

  /** The page's win rate of a table row agrees with the row's own win rate, whose rounding
      the service states independently. */
  lemma SafeWinrateAgreesWithRow<L>(r: Row<L>)
    requires r.wins + r.losses == r.totalMatches > 0
    requires r.totalMatches * (2 * r.winrate - 1) <= 200 * r.wins < r.totalMatches * (2 * r.winrate + 1)
    ensures SafeWinrate(r.wins, r.losses) == r.winrate
  {
    RoundUnique(100 * r.wins, r.totalMatches, SafeWinrate(r.wins, r.losses), r.winrate);
  }

  const NotAvailable := "N/A"

  /** The `%` operator: the remainder takes the sign of the dividend. */
  function JsRem(a: int, b: int): (r: int)
    requires b > 0
    ensures a >= 0 ==> r == a % b
    ensures -b < r < b && (a == 0 || r == 0 || (a < 0) == (r < 0))
    ensures (a - r) % b == 0
  {
    if a >= 0 then
      RemainderLeavesMultiple(a, b);
      a % b
    else
      RemainderLeavesMultiple(-a, b);
      -((-a) % b)
  }

  /** Taking away the remainder, or adding it to the negation, leaves a multiple of `b`. */
  lemma RemainderLeavesMultiple(k: int, b: int)
    requires k >= 0 && b > 0
    ensures (k - k % b) % b == 0 && (-k + k % b) % b == 0
  {
    var q := k / b;
    assert k == b * q + k % b;
    MultipleMod(q, b);
    MultipleMod(-q, b);
    assert b * -q == -(b * q);
  }

  /** A multiple of `b` leaves no remainder. */
  lemma MultipleMod(q: int, b: int)
    requires b > 0
    ensures (b * q) % b == 0
  {
    var x := b * q;
    var t := q - x / b;
    assert x == b * (x / b) + x % b;
    assert b * t == x % b by {
      assert b * t == b * q - b * (x / b);
    }
    if t >= 1 {
      MulLeMono(b, 1, t);
    } else if t <= -1 {
      MulLeMono(b, t, -1);
    }
  }

  /** `formatDuration` for a whole number of seconds: "N/A" when there is none, else the
      minutes and the seconds, each padded to two digits. */
  function FormatDuration(seconds: Option<int>): (r: string)
    ensures seconds.None? ==> r == NotAvailable
    ensures seconds.Some? && seconds.value >= 0 ==>
              && |r| >= 5 && r[|r| - 3] == ':'
              && r[..|r| - 3] == PadStart2(NatToString(seconds.value / 60))
              && r[|r| - 2..] == PadStart2(NatToString(seconds.value % 60))
  {
    match seconds
    case None => NotAvailable
    case Some(s) =>
      var minutes := PadStart2(IntToString(s / 60));
      var secs := PadStart2(IntToString(JsRem(s, 60)));
      assert s >= 0 ==> |secs| == 2;
      minutes + ":" + secs
  }

  /** Reading back a formatted duration: the part before the colon is the minutes, the two digits
      after it the seconds, between 00 and 59, and together they give the duration back. */
  lemma FormatDurationRoundTrip(s: nat)
    ensures var r := FormatDuration(Some(s));
            && AllDigits(r[..|r| - 3]) && AllDigits(r[|r| - 2..])
            && DecimalValue(r[|r| - 2..]) < 60
            && 60 * DecimalValue(r[..|r| - 3]) + DecimalValue(r[|r| - 2..]) == s
  {
    NatToStringValue(s / 60);
    NatToStringValue(s % 60);
    PadStart2Value(NatToString(s / 60));
    PadStart2Value(NatToString(s % 60));
  }

  /** A lower-case endpoint name at the start of a warning is found in its lower-cased text. */
  lemma {:induction false} LowerIncludesPrefix(w: string, p: string, rest: string)
    requires w == p + rest && HasNoUpper(p)
    ensures Includes(ToLower(w), p)
  {
    ToLowerAppend(p, rest);
    ToLowerNoUpper(p);
    IncludesPrefix(ToLower(w), p, ToLower(rest));
  }

  /** A lower-case tag at the end of a warning is found in its lower-cased text. */
  lemma {:induction false} LowerIncludesSuffix(w: string, rest: string, p: string)
    requires w == rest + p && HasNoUpper(p)
    ensures Includes(ToLower(w), p)
  {
    ToLowerAppend(rest, p);
    ToLowerNoUpper(p);
    IncludesSuffix(ToLower(w), ToLower(rest), p);
  }

  /** The status 403 is printed as the 403 tag. */
  lemma StatusTag403()
    ensures StatusTag(403) == ForbiddenTag
  {
    assert NatToString(4) == "4";
    assert NatToString(40) == "40";
    assert NatToString(403) == "403";
  }

  /** The warning of a request refused with 403 begins with its scope and ends with the 403 tag,
      both found again after lower-casing when the scope has no upper-case letter. */
  lemma {:induction false} ForbiddenWarningFound(scope: string, e: RiotApiError)
    requires e.status == 403 && HasNoUpper(scope)
    ensures var lw := ToLower(FormatPartialError(scope, ApiError(e)));
            Includes(lw, ForbiddenTag) && Includes(lw, scope)
  {
    var w := FormatPartialError(scope, ApiError(e));
    FormatPartialErrorTagged(scope, e);
    StatusTag403();
    assert w == (scope + ": " + e.message + " ") + ForbiddenTag;
    assert w == scope + (": " + e.message + " " + ForbiddenTag);
    LowerIncludesSuffix(w, scope + ": " + e.message + " ", ForbiddenTag);
    LowerIncludesPrefix(w, scope, ": " + e.message + " " + ForbiddenTag);
  }

  /** A ranked stats request refused with 403 leaves a warning that flags the ranked panel. */
  lemma RankedForbiddenSignalled(e: RiotApiError)
    requires e.status == 403
    ensures Signals403(FormatPartialError(RankedScope, ApiError(e)), RankedPanel)
  {
    ForbiddenWarningFound(RankedScope, e);
  }

  /** A match id listing or a match detail request refused with 403 leaves a warning that flags
      the match panel. */
  lemma MatchForbiddenSignalled(scope: string, e: RiotApiError)
    requires scope == IdsScope || scope == DetailScope
    requires e.status == 403
    ensures Signals403(FormatPartialError(scope, ApiError(e)), MatchPanel)
  {
    if scope == IdsScope {
      ForbiddenWarningFound(IdsScope, e);
    } else {
      ForbiddenWarningFound(DetailScope, e);
    }
  }

  /** One warning signalling a 403 on a panel's endpoint is enough to flag that panel. */
  lemma {:induction false} WarningFlagsPanel(p: LiveProfile, j: nat, panel: Panel)
    requires j < |p.warnings| && Signals403(p.warnings[j], panel)
    ensures Flag(Derive2XkoAvailability(Some(PayloadOf(p))), panel)
  {
  }

  /** The loop closed: when the ranked stats request of a live profile is refused with 403,
      the page flags the ranked panel as forbidden. */
  lemma ProfileRankedForbidden(account: Account, catalog: Option<CatalogSummary>, client: Client,
                               count: Option<int>, queue: string, e: RiotApiError)
    requires RankedResult(account, client) == Rejected(ApiError(e)) && e.status == 403
    ensures Derive2XkoAvailability(Some(PayloadOf(ProfileOf(account, catalog, client, count, queue)))).has403Ranked
  {
    ProfileRanked(account, catalog, client, count, queue);
    RankedForbiddenSignalled(e);
    WarningFlagsPanel(ProfileOf(account, catalog, client, count, queue), 0, RankedPanel);
  }

  /** When the match id listing of a live profile is refused with 403, the page flags the match
      panel as forbidden. */
  lemma ProfileIdsForbidden(account: Account, catalog: Option<CatalogSummary>, client: Client,
                            count: Option<int>, queue: string, e: RiotApiError)
    requires IdsResult(account, client, count, queue) == Rejected(ApiError(e)) && e.status == 403
    ensures Derive2XkoAvailability(Some(PayloadOf(ProfileOf(account, catalog, client, count, queue)))).has403Matches
  {
    ProfileWarnings(account, client, count, queue);
    var lead := if RankedResult(account, client).Rejected? then 1 else 0;
    MatchForbiddenSignalled(IdsScope, e);
    WarningFlagsPanel(ProfileOf(account, catalog, client, count, queue), lead, MatchPanel);
  }

  /** When one of the first twenty listed matches is refused with 403, the page flags the match
      panel as forbidden. */
  lemma ProfileDetailForbidden(account: Account, catalog: Option<CatalogSummary>, client: Client,
                               count: Option<int>, queue: string, i: nat, e: RiotApiError)
    requires IdsResult(account, client, count, queue).Fulfilled?
    requires var ids := IdList(IdsResult(account, client, count, queue).value);
             i < |ids| && i < MatchLimit
             && client.matchDetail(ids[i], account.sourceCluster) == Rejected(ApiError(e))
    requires e.status == 403
    ensures Derive2XkoAvailability(Some(PayloadOf(ProfileOf(account, catalog, client, count, queue)))).has403Matches
  {
    var j := ProfileDetailWarning(account, client, count, queue, i);
    MatchForbiddenSignalled(DetailScope, e);
    WarningFlagsPanel(ProfileOf(account, catalog, client, count, queue), j, MatchPanel);
  }
}
