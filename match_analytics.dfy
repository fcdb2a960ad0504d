/**
 * `computeAnalytics` of lib/riot/service.ts: the tracked matches of one sample window
 * folded into win/loss totals, the per-duo and per-anchor tables (top 8 by matches,
 * then win rate), first-hit aggressivity with its badge, and the 10 most recent matches.
 * Ratios are exact rationals rounded as `toFixed` rounds (see JsNumber), so
 * `ratioFirstHitsPerRound` is held in thousandths and `averageFirstHitsPerMatch` in
 * hundredths.
 */
module MatchAnalytics {
  import opened Wrappers
  import opened JsNumber
  import opened MatchExtract
  import opened MatchTally
  import opened RowSort

  /** Rows kept in each table. */
  const TableSize: nat := 8
  /** Matches kept in `recentMatches`. */
  const RecentSize: nat := 10
  /** The badge threshold 0.7, in thousandths. */
  const PredatorThousandths: int := 700

  /** `match.duo.join("|")`. */
  function DuoKey(d: Duo): string {
    d.first + "|" + d.second
  }

  /** Duo keys tell duos apart as long as the first character id has no `|`. */
  lemma {:induction false} DuoKeyInjective(a: Duo, b: Duo)
    requires '|' !in a.first && '|' !in b.first
    requires DuoKey(a) == DuoKey(b)
    ensures a == b
  {
    var k := DuoKey(a);
    assert forall i :: 0 <= i < |a.first| ==> k[i] == a.first[i] && k[i] != '|';
    assert forall i :: 0 <= i < |b.first| ==> k[i] == b.first[i] && k[i] != '|';
    assert k[|a.first|] == '|' && k[|b.first|] == '|';
    assert |a.first| == |b.first|;
    assert a.first == k[..|a.first|] == b.first;
    assert a.second == k[|a.first| + 1..] == b.second;
  }

  /** Ids containing `|` can make two different duos share one group. */
  lemma DuoKeyCollision()
    ensures Duo("a|b", "c") != Duo("a", "b|c")
    ensures DuoKey(Duo("a|b", "c")) == DuoKey(Duo("a", "b|c"))
  {
  }

  function DuoSample(m: TrackedMatch): Sample<Duo> {
    Sample(DuoKey(m.duo), m.duo, m.result == Win)
  }

  /** Every match, grouped by its duo key. */
  function DuoSamples(ms: seq<TrackedMatch>): (r: seq<Sample<Duo>>)
    ensures |r| == |ms|
    ensures forall i :: 0 <= i < |ms| ==> r[i] == DuoSample(ms[i])
  {
    seq(|ms|, i requires 0 <= i < |ms| => DuoSample(ms[i]))
  }

  /** `if (match.anchorChar)`: a non-null, non-empty anchor. */
  predicate HasAnchor(m: TrackedMatch) {
    m.anchorChar.Some? && m.anchorChar.value != ""
  }

  function AnchorSample(m: TrackedMatch): Sample<string>
    requires HasAnchor(m)
  {
    Sample(m.anchorChar.value, m.anchorChar.value, m.result == Win)
  }

  /** The matches with an anchor, grouped by the anchor's id. */
  function AnchorSamples(ms: seq<TrackedMatch>): (r: seq<Sample<string>>)
    ensures |r| <= |ms|
    ensures forall i :: 0 <= i < |r| ==> r[i].key != "" && r[i].title == r[i].key
    ensures |r| == 0 <==> forall i :: 0 <= i < |ms| ==> !HasAnchor(ms[i])
  {
    if ms == [] then []
    else AnchorSamples(ms[..|ms| - 1]) + (if HasAnchor(ms[|ms| - 1]) then [AnchorSample(ms[|ms| - 1])] else [])
  }

  /** The number of matches whose anchor is `id`. */
  function AnchoredWith(ms: seq<TrackedMatch>, id: string): (n: nat)
    ensures n <= |ms|
  {
    if ms == [] then 0
    else AnchoredWith(ms[..|ms| - 1], id) + (if ms[|ms| - 1].anchorChar == Some(id) then 1 else 0)
  }

  /** The number of won matches whose anchor is `id`. */
  function AnchoredWins(ms: seq<TrackedMatch>, id: string): (n: nat)
    ensures n <= AnchoredWith(ms, id)
  {
    if ms == [] then 0
    else AnchoredWins(ms[..|ms| - 1], id) + (if ms[|ms| - 1].anchorChar == Some(id) && ms[|ms| - 1].result == Win then 1 else 0)
  }

  /** Anchor groups count exactly the matches with that anchor, and the won ones among them. */
  lemma {:induction false} AnchorCounts(ms: seq<TrackedMatch>, id: string)
    requires id != ""
    ensures CountKey(AnchorSamples(ms), id) == AnchoredWith(ms, id)
    ensures WinsKey(AnchorSamples(ms), id) == AnchoredWins(ms, id)
  {
    if ms != [] {
      var p, m := ms[..|ms| - 1], ms[|ms| - 1];
      AnchorCounts(p, id);
      if HasAnchor(m) {
        assert AnchorSamples(ms) == AnchorSamples(p) + [AnchorSample(m)];
        CountAppend(AnchorSamples(p), AnchorSample(m), id);
      } else {
        assert AnchorSamples(ms) == AnchorSamples(p);
      }
    }
  }

  /** `matches.filter((m) => m.result === "WIN").length`. */
  function CountWins(ms: seq<TrackedMatch>): (n: nat)
    ensures n <= |ms|
  {
    if ms == [] then 0 else CountWins(ms[..|ms| - 1]) + (if ms[|ms| - 1].result == Win then 1 else 0)
  }

  /** The sum of `firstHits`. */
  function TotalFirstHits(ms: seq<TrackedMatch>): int {
    if ms == [] then 0 else TotalFirstHits(ms[..|ms| - 1]) + ms[|ms| - 1].firstHits
  }

  /** `roundsPlayed !== null && roundsPlayed > 0`. */
  predicate RoundsKnown(m: TrackedMatch) {
    m.roundsPlayed.Some? && m.roundsPlayed.value > 0
  }

  /** The number of matches with known rounds. */
  function KnownRounds(ms: seq<TrackedMatch>): (n: nat)
    ensures n <= |ms|
  {
    if ms == [] then 0 else KnownRounds(ms[..|ms| - 1]) + (if RoundsKnown(ms[|ms| - 1]) then 1 else 0)
  }

  /** The rounds of the matches with known rounds; positive exactly when some match has them. */
  function RoundsSeen(ms: seq<TrackedMatch>): (n: nat)
    ensures n >= KnownRounds(ms)
    ensures KnownRounds(ms) == 0 ==> n == 0
  {
    if ms == [] then 0
    else RoundsSeen(ms[..|ms| - 1]) + (if RoundsKnown(ms[|ms| - 1]) then ms[|ms| - 1].roundsPlayed.value else 0)
  }

  datatype Badge = Indetermine | Predateur | Standard

  datatype Aggressivity = Aggressivity(
    badge: Badge,
    ratioThousandths: Option<int>,
    averageHundredths: int,
    totalFirstHits: int,
    totalRoundsSeen: Option<int>)

  /** A rounded ratio over 0.7 is a strict majority of 1401 first hits per 2000 rounds;
      exactly 0.700 is not over the threshold. */
  lemma PredatorThreshold(firstHits: int, rounds: int)
    requires rounds > 0
    ensures ToFixedScaled(firstHits, rounds, 1000) > PredatorThousandths <==> 2000 * firstHits >= 1401 * rounds
  {
    var r := ToFixedScaled(firstHits, rounds, 1000);
    if firstHits >= 0 {
      if r > 700 {
        MulLeMono(rounds, 1401, 2 * r - 1);
      }
      if 2000 * firstHits >= 1401 * rounds {
        MulLtCancel(rounds, 1401, 2 * r + 1);
      }
    }
  }

  /** The aggressivity block from the three running totals and the sample size. */
  function AggressivityFrom(firstHits: int, roundsSeen: int, roundsKnown: nat, n: nat): (a: Aggressivity)
    ensures a.ratioThousandths.None? <==> roundsSeen <= 0
    ensures a.badge == Indetermine <==> roundsSeen <= 0
    ensures a.badge == Predateur <==> roundsSeen > 0 && 2000 * firstHits >= 1401 * roundsSeen
    ensures roundsSeen > 0 ==> a.ratioThousandths == Some(ToFixedScaled(firstHits, roundsSeen, 1000))
    ensures a.badge == Predateur <==> a.ratioThousandths.Some? && a.ratioThousandths.value > PredatorThousandths
    ensures a.totalRoundsSeen.None? <==> roundsKnown == 0
    ensures roundsKnown > 0 ==> a.totalRoundsSeen == Some(roundsSeen)
    ensures n == 0 ==> a.averageHundredths == 0
    ensures n > 0 ==> a.averageHundredths == ToFixedScaled(firstHits, n, 100)
    ensures n > 0 ==> n * (2 * a.averageHundredths - 1) <= 200 * firstHits <= n * (2 * a.averageHundredths + 1)
    ensures a.totalFirstHits == firstHits
  {
    var ratio := if roundsSeen > 0 then Some(ToFixedScaled(firstHits, roundsSeen, 1000)) else None;
    assert roundsSeen > 0 ==> (ratio.value > PredatorThousandths <==> 2000 * firstHits >= 1401 * roundsSeen) by {
      if roundsSeen > 0 {
        PredatorThreshold(firstHits, roundsSeen);
      }
    }
    Aggressivity(
      match ratio
      case None => Indetermine
      case Some(r) => if r > PredatorThousandths then Predateur else Standard,
      ratio,
      if n > 0 then ToFixedScaled(firstHits, n, 100) else 0,
      firstHits,
      if roundsKnown > 0 then Some(roundsSeen) else None)
  }

  /** The aggressivity block of a sample. */
  function AggressivityOf(ms: seq<TrackedMatch>): (a: Aggressivity)
    ensures a.ratioThousandths.None? <==> KnownRounds(ms) == 0
    ensures a.totalRoundsSeen.None? <==> KnownRounds(ms) == 0
    ensures a.badge == Indetermine <==> KnownRounds(ms) == 0
    ensures a.badge == Predateur <==> KnownRounds(ms) > 0 && 2000 * TotalFirstHits(ms) >= 1401 * RoundsSeen(ms)
    ensures a.badge == Predateur <==> a.ratioThousandths.Some? && a.ratioThousandths.value > PredatorThousandths
    ensures KnownRounds(ms) > 0 ==> a.ratioThousandths == Some(ToFixedScaled(TotalFirstHits(ms), RoundsSeen(ms), 1000))
    ensures KnownRounds(ms) > 0 ==> a.totalRoundsSeen == Some(RoundsSeen(ms))
    ensures a.totalFirstHits == TotalFirstHits(ms)
    ensures |ms| == 0 ==> a.averageHundredths == 0
    ensures |ms| > 0 ==> a.averageHundredths == ToFixedScaled(TotalFirstHits(ms), |ms|, 100)
  {
    AggressivityFrom(TotalFirstHits(ms), RoundsSeen(ms), KnownRounds(ms), |ms|)
  }

  /** 14 first hits over 20 rounds is a ratio of exactly 0.700: "Standard", not "Predateur". */
  lemma BoundaryIsStandard(roundsKnown: nat, n: nat)
    ensures AggressivityFrom(14, 20, roundsKnown, n).ratioThousandths == Some(700)
    ensures AggressivityFrom(14, 20, roundsKnown, n).badge == Standard
  {
    assert ToFixedScaled(14, 20, 1000) == 700;
  }

  /** The display subset of a tracked match. */
  datatype RecentMatch = RecentMatch(
    matchId: string,
    result: MatchResult,
    duo: Duo,
    anchorChar: Option<string>,
    gameMode: Option<string>,
    durationSeconds: Option<int>,
    firstHits: int,
    comboPeak: int)

  function Recent(m: TrackedMatch): RecentMatch {
    RecentMatch(m.matchId, m.result, m.duo, m.anchorChar, m.gameMode, m.durationSeconds, m.firstHits, m.comboPeak)
  }

  /** `matches.slice(0, 10).map(...)`. */
  function RecentMatches(ms: seq<TrackedMatch>): (r: seq<RecentMatch>)
    ensures |r| == if |ms| < RecentSize then |ms| else RecentSize
    ensures forall i :: 0 <= i < |r| ==> r[i] == Recent(ms[i])
  {
    var k := if |ms| < RecentSize then |ms| else RecentSize;
    seq(k, i requires 0 <= i < k => Recent(ms[i]))
  }

  /** A group with its win rate: `entry.totalMatches > 0 ? roundPct(wins / totalMatches) : 0`. */
  function ToRow<L>(t: Tally<L>): (r: Row<L>)
    ensures r.title == t.title && r.wins == t.wins && r.losses == t.losses && r.totalMatches == t.totalMatches
    ensures t.totalMatches > 0 ==>
              t.totalMatches * (2 * r.winrate - 1) <= 200 * t.wins < t.totalMatches * (2 * r.winrate + 1)
    ensures t.wins <= t.totalMatches ==> 0 <= r.winrate <= 100
  {
    Row(t.title, t.wins, t.losses, t.totalMatches, RoundPercent(t.wins, t.totalMatches))
  }

  /** `[...map.values()].map(...)`. */
  function RowsOf<L>(table: seq<Tally<L>>): (r: seq<Row<L>>)
    ensures |r| == |table|
    ensures forall i :: 0 <= i < |r| ==> r[i] == ToRow(table[i])
  {
    seq(|table|, i requires 0 <= i < |table| => ToRow(table[i]))
  }

  /** `.sort(...).slice(0, 8)`. */
  function Ranking<L>(rows: seq<Row<L>>): seq<Row<L>> {
    Take(SortRows(rows), TableSize)
  }

  datatype AnchorSummary = AnchorSummary(
    topAnchorChar: Option<string>,
    topAnchorWinrate: Option<int>,
    byAnchorChar: seq<Row<string>>)

  datatype Analytics = Analytics(
    sampleWindowMatches: nat,
    queue: string,
    wins: nat,
    losses: int,
    duoStats: seq<Row<Duo>>,
    anchor: AnchorSummary,
    aggressivity: Aggressivity,
    recentMatches: seq<RecentMatch>)

  /** The summary built from the two tables' rows in insertion order and the aggressivity block. */
  function Summarize(ms: seq<TrackedMatch>, queue: string, duoRows: seq<Row<Duo>>, anchorRows: seq<Row<string>>,
                     aggressivity: Aggressivity): Analytics
  {
    var wins := CountWins(ms);
    var anchorStats := Ranking(anchorRows);
    Analytics(
      |ms|, queue, wins, |ms| - wins,
      Ranking(duoRows),
      AnchorSummary(
        if |anchorStats| > 0 then Some(anchorStats[0].title) else None,
        if |anchorStats| > 0 then Some(anchorStats[0].winrate) else None,
        anchorStats),
      aggressivity,
      RecentMatches(ms))
  }

  /** The duo table before sorting and truncation. */
  function DuoTable(ms: seq<TrackedMatch>): seq<Tally<Duo>> {
    TallyAll(DuoSamples(ms))
  }

  /** The anchor table before sorting and truncation. */
  function AnchorTable(ms: seq<TrackedMatch>): seq<Tally<string>> {
    TallyAll(AnchorSamples(ms))
  }

  /** What `computeAnalytics` returns. */
  function AnalyticsOf(ms: seq<TrackedMatch>, queue: string): Analytics {
    Summarize(ms, queue, RowsOf(DuoTable(ms)), RowsOf(AnchorTable(ms)), AggressivityOf(ms))
  }

  /** The sample size, and wins and losses that add up to it. */
  lemma AnalyticsTotals(ms: seq<TrackedMatch>, queue: string)
    ensures AnalyticsOf(ms, queue).sampleWindowMatches == |ms|
    ensures AnalyticsOf(ms, queue).wins == CountWins(ms)
    ensures AnalyticsOf(ms, queue).losses >= 0
    ensures AnalyticsOf(ms, queue).wins + AnalyticsOf(ms, queue).losses == |ms|
  {
  }

  lemma {:induction false} SumRowsOf<L>(table: seq<Tally<L>>)
    ensures SumRowTotals(RowsOf(table)) == SumTotals(table)
  {
    if table != [] {
      var n := |table| - 1;
      assert RowsOf(table)[..n] == RowsOf(table[..n]);
      SumRowsOf(table[..n]);
    }
  }

  lemma {:induction false} SumAtLeastLength<L>(table: seq<Tally<L>>)
    requires forall j :: 0 <= j < |table| ==> table[j].totalMatches >= 1
    ensures SumTotals(table) >= |table|
  {
    if table != [] {
      SumAtLeastLength(table[..|table| - 1]);
    }
  }

  /** The kept rows: at most `TableSize`, ordered by the comparator, every one a row of the
      table, none only when the table is empty; and they account for no more matches than
      the whole table. */
  lemma {:induction false} RankingFacts<L>(rows: seq<Row<L>>)
    ensures |Ranking(rows)| <= TableSize
    ensures Ranked(Ranking(rows))
    ensures forall i :: 0 <= i < |Ranking(rows)| ==> Ranking(rows)[i] in rows
    ensures |Ranking(rows)| == 0 <==> |rows| == 0
    ensures SumRowTotals(Ranking(rows)) <= SumRowTotals(rows)
  {
    SortRowsRanked(rows);
    var s := SortRows(rows);
    TakeRanked(s, TableSize);
    assert |s| == |multiset(s)| == |multiset(rows)| == |rows|;
    forall i | 0 <= i < |Ranking(rows)|
      ensures Ranking(rows)[i] in rows
    {
      assert Ranking(rows)[i] == s[i];
      assert s[i] in multiset(rows);
    }
    SortRowsSum(rows);
    PrefixSum(s, |Ranking(rows)|);
  }

  /** Every kept row is a row of the table. */
  lemma {:induction false} RankingMembers<L>(rows: seq<Row<L>>)
    ensures forall i :: 0 <= i < |Ranking(rows)| ==> Ranking(rows)[i] in rows
  {
    RankingFacts(rows);
  }

  /** The first kept row outranks every row of the table. */
  lemma {:induction false} TopOutranksAll<L>(rows: seq<Row<L>>)
    requires |rows| > 0
    ensures |Ranking(rows)| > 0
    ensures forall r :: r in rows ==> Outranks(Ranking(rows)[0], r)
  {
    RankingFacts(rows);
    SortRowsRanked(rows);
    var s := SortRows(rows);
    forall r | r in rows
      ensures Outranks(s[0], r)
    {
      assert r in multiset(s);
      var j :| 0 <= j < |s| && s[j] == r;
      if j > 0 {
        assert Outranks(s[0], s[j]);
      }
    }
  }

  /** A duo group is keyed by its own duo and counts the matches with that duo key. */
  ghost predicate IsDuoGroup(ms: seq<TrackedMatch>, t: Tally<Duo>) {
    t.key == DuoKey(t.title)
    && t.totalMatches == CountKey(DuoSamples(ms), DuoKey(t.title))
    && t.wins == WinsKey(DuoSamples(ms), DuoKey(t.title))
    && t.wins + t.losses == t.totalMatches && t.totalMatches >= 1
  }

  /** Each duo group is keyed by its own duo and counts the matches with that duo key. */
  lemma {:induction false} DuoTableFacts(ms: seq<TrackedMatch>)
    ensures forall j :: 0 <= j < |DuoTable(ms)| ==> IsDuoGroup(ms, DuoTable(ms)[j])
    ensures SumTotals(DuoTable(ms)) == |ms|
    ensures |DuoTable(ms)| == 0 <==> |ms| == 0
  {
    var ss := DuoSamples(ms);
    var table := TallyAll(ss);
    TallyAllCounts(ss);
    TallyAllOrder(ss);
    forall j | 0 <= j < |table|
      ensures IsDuoGroup(ms, table[j])
    {
      var f := FirstWithKey(ss, table[j].key);
      assert ss[f] == DuoSample(ms[f]);
    }
    SumAtLeastLength(table);
  }

  /** The row of a duo group. */
  lemma {:induction false} DuoRowOfGroup(ms: seq<TrackedMatch>, t: Tally<Duo>)
    requires IsDuoGroup(ms, t)
    ensures IsDuoRow(ms, ToRow(t))
  {
  }

  /** An anchor group is keyed by a non-empty anchor and counts the matches with it. */
  ghost predicate IsAnchorGroup(ms: seq<TrackedMatch>, t: Tally<string>) {
    t.key == t.title && t.title != ""
    && t.totalMatches == AnchoredWith(ms, t.title)
    && t.wins == AnchoredWins(ms, t.title)
    && t.wins + t.losses == t.totalMatches && t.totalMatches >= 1
  }

  /** Each anchor group is keyed by a non-empty anchor and counts the matches with it. */
  lemma {:induction false} AnchorTableFacts(ms: seq<TrackedMatch>)
    ensures forall j :: 0 <= j < |AnchorTable(ms)| ==> IsAnchorGroup(ms, AnchorTable(ms)[j])
    ensures SumTotals(AnchorTable(ms)) == |AnchorSamples(ms)|
    ensures |AnchorTable(ms)| == 0 <==> forall i :: 0 <= i < |ms| ==> !HasAnchor(ms[i])
  {
    var ss := AnchorSamples(ms);
    var table := TallyAll(ss);
    TallyAllCounts(ss);
    TallyAllOrder(ss);
    SumAtLeastLength(table);
    forall j | 0 <= j < |table|
      ensures IsAnchorGroup(ms, table[j])
    {
      var f := FirstWithKey(ss, table[j].key);
      assert ss[f].key == table[j].key && ss[f].title == table[j].title;
      AnchorCounts(ms, table[j].key);
    }
  }

  /** A duo row of the table counts the matches with its duo and rounds their win rate. */
  ghost predicate IsDuoRow(ms: seq<TrackedMatch>, r: Row<Duo>) {
    r.totalMatches == CountKey(DuoSamples(ms), DuoKey(r.title))
    && r.wins == WinsKey(DuoSamples(ms), DuoKey(r.title))
    && r.wins + r.losses == r.totalMatches && r.totalMatches >= 1
    && 0 <= r.winrate <= 100
    && r.totalMatches * (2 * r.winrate - 1) <= 200 * r.wins < r.totalMatches * (2 * r.winrate + 1)
  }

  /** Every kept duo row is the tally of one duo. */
  lemma {:induction false} DuoRankingRows(ms: seq<TrackedMatch>)
    ensures forall i :: 0 <= i < |Ranking(RowsOf(DuoTable(ms)))| ==> IsDuoRow(ms, Ranking(RowsOf(DuoTable(ms)))[i])
  {
    var table := DuoTable(ms);
    var rows := RowsOf(table);
    DuoTableFacts(ms);
    RankingMembers(rows);
    forall i | 0 <= i < |Ranking(rows)|
      ensures IsDuoRow(ms, Ranking(rows)[i])
    {
      var j :| 0 <= j < |rows| && rows[j] == Ranking(rows)[i];
      DuoRowOfGroup(ms, table[j]);
    }
  }

  /** The duo table as returned: at most 8 rows ordered by matches then win rate, each row
      the tally of the matches with that duo, with `wins + losses == totalMatches >= 1` and
      the win rate the nearest integer percentage; empty only for an empty sample; the kept
      rows account for at most the sample, the whole table for exactly the sample. */
  lemma DuoStatsFacts(ms: seq<TrackedMatch>, queue: string)
    ensures |AnalyticsOf(ms, queue).duoStats| <= TableSize
    ensures Ranked(AnalyticsOf(ms, queue).duoStats)
    ensures |AnalyticsOf(ms, queue).duoStats| == 0 <==> |ms| == 0
    ensures forall i :: 0 <= i < |AnalyticsOf(ms, queue).duoStats| ==> IsDuoRow(ms, AnalyticsOf(ms, queue).duoStats[i])
    ensures SumRowTotals(AnalyticsOf(ms, queue).duoStats) <= AnalyticsOf(ms, queue).sampleWindowMatches
    ensures SumRowTotals(RowsOf(DuoTable(ms))) == |ms|
  {
    var rows := RowsOf(DuoTable(ms));
    assert AnalyticsOf(ms, queue).duoStats == Ranking(rows);
    DuoTableFacts(ms);
    RankingFacts(rows);
    SumRowsOf(DuoTable(ms));
    DuoRankingRows(ms);
  }

  /** An anchor row of the table counts the matches with its anchor and rounds their win rate. */
  ghost predicate IsAnchorRow(ms: seq<TrackedMatch>, r: Row<string>) {
    r.title != "" && r.totalMatches == AnchoredWith(ms, r.title)
    && r.wins == AnchoredWins(ms, r.title)
    && r.wins + r.losses == r.totalMatches && r.totalMatches >= 1
    && 0 <= r.winrate <= 100
    && r.totalMatches * (2 * r.winrate - 1) <= 200 * r.wins < r.totalMatches * (2 * r.winrate + 1)
  }

  /** The row of an anchor group. */
  lemma {:induction false} AnchorRowOfGroup(ms: seq<TrackedMatch>, t: Tally<string>)
    requires IsAnchorGroup(ms, t)
    ensures IsAnchorRow(ms, ToRow(t))
  {
  }

  /** Every kept anchor row is the tally of one anchor. */
  lemma {:induction false} AnchorRankingRows(ms: seq<TrackedMatch>)
    ensures forall i :: 0 <= i < |Ranking(RowsOf(AnchorTable(ms)))| ==> IsAnchorRow(ms, Ranking(RowsOf(AnchorTable(ms)))[i])
  {
    var table := AnchorTable(ms);
    var rows := RowsOf(table);
    AnchorTableFacts(ms);
    RankingMembers(rows);
    forall i | 0 <= i < |Ranking(rows)|
      ensures IsAnchorRow(ms, Ranking(rows)[i])
    {
      var j :| 0 <= j < |rows| && rows[j] == Ranking(rows)[i];
      AnchorRowOfGroup(ms, table[j]);
    }
  }

  /** The anchor table as returned: at most 8 rows ordered by matches then win rate, each
      for a non-empty anchor, counting exactly the matches with it and the won ones among
      them, with the win rate the nearest integer percentage. */
  lemma AnchorStatsFacts(ms: seq<TrackedMatch>, queue: string)
    ensures |AnalyticsOf(ms, queue).anchor.byAnchorChar| <= TableSize
    ensures Ranked(AnalyticsOf(ms, queue).anchor.byAnchorChar)
    ensures forall i :: 0 <= i < |AnalyticsOf(ms, queue).anchor.byAnchorChar| ==>
              IsAnchorRow(ms, AnalyticsOf(ms, queue).anchor.byAnchorChar[i])
    ensures SumRowTotals(RowsOf(AnchorTable(ms))) == |AnchorSamples(ms)|
  {
    var rows := RowsOf(AnchorTable(ms));
    assert AnalyticsOf(ms, queue).anchor.byAnchorChar == Ranking(rows);
    AnchorTableFacts(ms);
    RankingFacts(rows);
    SumRowsOf(AnchorTable(ms));
    AnchorRankingRows(ms);
  }

  lemma {:induction false} AnchoredPositive(ms: seq<TrackedMatch>, i: nat)
    requires i < |ms| && HasAnchor(ms[i])
    ensures AnchoredWith(ms, ms[i].anchorChar.value) > 0
    decreases |ms|
  {
    if i < |ms| - 1 {
      AnchoredPositive(ms[..|ms| - 1], i);
    }
  }

  /** The group of the anchor of match `i`. */
  lemma {:induction false} AnchorGroupOf(ms: seq<TrackedMatch>, i: nat) returns (j: nat)
    requires i < |ms| && HasAnchor(ms[i])
    ensures j < |AnchorTable(ms)| && AnchorTable(ms)[j].key == ms[i].anchorChar.value
  {
    var k := ms[i].anchorChar.value;
    AnchoredPositive(ms, i);
    AnchorCounts(ms, k);
    TallyAllCounts(AnchorSamples(ms));
    j := KeyIndex(AnchorTable(ms), k);
  }

  /** The top anchor is absent exactly when no match has an anchor, and otherwise is the
      first row of the anchor table with that row's win rate. */
  lemma TopAnchorPresence(ms: seq<TrackedMatch>, queue: string)
    ensures var an := AnalyticsOf(ms, queue).anchor;
            (an.topAnchorChar.None? <==> forall i :: 0 <= i < |ms| ==> !HasAnchor(ms[i]))
            && (an.topAnchorChar.None? <==> an.topAnchorWinrate.None?)
            && (an.topAnchorChar.Some? ==>
                  |an.byAnchorChar| > 0
                  && an.topAnchorChar.value == an.byAnchorChar[0].title
                  && an.topAnchorWinrate == Some(an.byAnchorChar[0].winrate))
  {
    AnchorTableFacts(ms);
    RankingFacts(RowsOf(AnchorTable(ms)));
  }

  /** The top anchor is played in at least as many matches as any anchor of the sample. */
  lemma TopAnchorMostPlayed(ms: seq<TrackedMatch>, queue: string, i: nat)
    requires i < |ms| && HasAnchor(ms[i])
    ensures AnalyticsOf(ms, queue).anchor.topAnchorChar.Some?
    ensures AnchoredWith(ms, AnalyticsOf(ms, queue).anchor.topAnchorChar.value)
              >= AnchoredWith(ms, ms[i].anchorChar.value)
  {
    var table := AnchorTable(ms);
    var rows := RowsOf(table);
    var j := AnchorGroupOf(ms, i);
    AnchorTableFacts(ms);
    AnchorStatsFacts(ms, queue);
    TopOutranksAll(rows);
    assert rows[j] in rows;
    var top := Ranking(rows)[0];
    assert Outranks(top, rows[j]);
    assert rows[j].totalMatches == AnchoredWith(ms, ms[i].anchorChar.value);
  }

  /** An empty sample: no groups, no ratio, an undetermined badge, a zero average, no top anchor. */
  lemma EmptySample(queue: string)
    ensures AnalyticsOf([], queue).duoStats == []
    ensures AnalyticsOf([], queue).aggressivity.badge == Indetermine
    ensures AnalyticsOf([], queue).aggressivity.ratioThousandths == None
    ensures AnalyticsOf([], queue).aggressivity.averageHundredths == 0
    ensures AnalyticsOf([], queue).anchor.topAnchorChar == None
  {
    DuoStatsFacts([], queue);
    TopAnchorPresence([], queue);
  }

  lemma {:induction false} DuoTableStep(ms: seq<TrackedMatch>, m: TrackedMatch)
    ensures DuoTable(ms + [m]) == Record(DuoTable(ms), DuoSample(m))
    ensures DistinctKeys(DuoTable(ms))
  {
    var ss := DuoSamples(ms);
    assert DuoSamples(ms + [m]) == ss + [DuoSample(m)];
    assert (ss + [DuoSample(m)])[..|ss|] == ss;
    TallyAllCounts(ss);
  }

  lemma {:induction false} AnchorTableStep(ms: seq<TrackedMatch>, m: TrackedMatch)
    ensures AnchorTable(ms + [m]) == if HasAnchor(m) then Record(AnchorTable(ms), AnchorSample(m)) else AnchorTable(ms)
    ensures DistinctKeys(AnchorTable(ms))
  {
    var ss := AnchorSamples(ms);
    assert (ms + [m])[..|ms|] == ms;
    if HasAnchor(m) {
      assert AnchorSamples(ms + [m]) == ss + [AnchorSample(m)];
      assert (ss + [AnchorSample(m)])[..|ss|] == ss;
    } else {
      assert AnchorSamples(ms + [m]) == ss;
    }
    TallyAllCounts(ss);
  }

  lemma {:induction false} TotalsStep(ms: seq<TrackedMatch>, m: TrackedMatch)
    ensures TotalFirstHits(ms + [m]) == TotalFirstHits(ms) + m.firstHits
    ensures RoundsSeen(ms + [m]) == RoundsSeen(ms) + (if RoundsKnown(m) then m.roundsPlayed.value else 0)
    ensures KnownRounds(ms + [m]) == KnownRounds(ms) + (if RoundsKnown(m) then 1 else 0)
  {
    assert (ms + [m])[..|ms|] == ms;
  }

  /** `[...map.values()].map(...)`: the rows of a `Map` in insertion order. */
  function MapRows<L>(m: map<string, Tally<L>>, order: seq<string>): (r: seq<Row<L>>)
    requires forall j :: 0 <= j < |order| ==> order[j] in m
    ensures |r| == |order|
    ensures forall j :: 0 <= j < |order| ==> r[j] == ToRow(m[order[j]])
  {
    seq(|order|, j requires 0 <= j < |order| => ToRow(m[order[j]]))
  }

  lemma {:induction false} RowsFromMap<L>(m: map<string, Tally<L>>, order: seq<string>, table: seq<Tally<L>>)
    requires Mirrors(m, order, table)
    ensures forall j :: 0 <= j < |order| ==> order[j] in m
    ensures MapRows(m, order) == RowsOf(table)
  {
    assert forall j :: 0 <= j < |order| ==> MapRows(m, order)[j] == RowsOf(table)[j];
  }

  /** `map.get(key) ?? fresh`, bumped, then `map.set(key, entry)`: a new key goes to the
      end of the insertion order. */
  method RecordSample<L>(m: map<string, Tally<L>>, order: seq<string>, ghost table: seq<Tally<L>>, s: Sample<L>)
    returns (m': map<string, Tally<L>>, order': seq<string>)
    requires Mirrors(m, order, table) && DistinctKeys(table)
    ensures Mirrors(m', order', Record(table, s))
  {
    RecordMirrors(m, order, table, s);
    if s.key in m {
      m' := m[s.key := Bump(m[s.key], s.won)];
      order' := order;
    } else {
      m' := m[s.key := Fresh(s)];
      order' := order + [s.key];
    }
  }

  /** The state of `computeAnalytics` after the matches `done`: the two maps with their
      insertion orders and the three running totals. */
  ghost predicate Accumulated(done: seq<TrackedMatch>,
                              duoMap: map<string, Tally<Duo>>, duoOrder: seq<string>,
                              anchorMap: map<string, Tally<string>>, anchorOrder: seq<string>,
                              totalFirstHits: int, totalRoundsSeen: int, roundsKnownCount: int)
  {
    Mirrors(duoMap, duoOrder, DuoTable(done))
    && Mirrors(anchorMap, anchorOrder, AnchorTable(done))
    && totalFirstHits == TotalFirstHits(done)
    && totalRoundsSeen == RoundsSeen(done)
    && roundsKnownCount == KnownRounds(done)
  }

  /** The duo map after one more match. */
  method AddDuo(ghost done: seq<TrackedMatch>, m: TrackedMatch, duoMap: map<string, Tally<Duo>>, duoOrder: seq<string>)
    returns (duoMap': map<string, Tally<Duo>>, duoOrder': seq<string>)
    requires Mirrors(duoMap, duoOrder, DuoTable(done))
    ensures Mirrors(duoMap', duoOrder', DuoTable(done + [m]))
  {
    DuoTableStep(done, m);
    duoMap', duoOrder' := RecordSample(duoMap, duoOrder, DuoTable(done), DuoSample(m));
  }

  /** The anchor map after one more match: unchanged when the match has no anchor. */
  method AddAnchor(ghost done: seq<TrackedMatch>, m: TrackedMatch, anchorMap: map<string, Tally<string>>, anchorOrder: seq<string>)
    returns (anchorMap': map<string, Tally<string>>, anchorOrder': seq<string>)
    requires Mirrors(anchorMap, anchorOrder, AnchorTable(done))
    ensures Mirrors(anchorMap', anchorOrder', AnchorTable(done + [m]))
  {
    AnchorTableStep(done, m);
    anchorMap', anchorOrder' := anchorMap, anchorOrder;
    if m.anchorChar.Some? && m.anchorChar.value != "" {
      anchorMap', anchorOrder' := RecordSample(anchorMap, anchorOrder, AnchorTable(done), AnchorSample(m));
    }
  }

  /** The body of the loop of `computeAnalytics` for one match. */
  method AddMatch(ghost done: seq<TrackedMatch>, m: TrackedMatch,
                  duoMap: map<string, Tally<Duo>>, duoOrder: seq<string>,
                  anchorMap: map<string, Tally<string>>, anchorOrder: seq<string>,
                  totalFirstHits: int, totalRoundsSeen: int, roundsKnownCount: int)
    returns (duoMap': map<string, Tally<Duo>>, duoOrder': seq<string>,
             anchorMap': map<string, Tally<string>>, anchorOrder': seq<string>,
             totalFirstHits': int, totalRoundsSeen': int, roundsKnownCount': int)
    requires Accumulated(done, duoMap, duoOrder, anchorMap, anchorOrder, totalFirstHits, totalRoundsSeen, roundsKnownCount)
    ensures Accumulated(done + [m], duoMap', duoOrder', anchorMap', anchorOrder', totalFirstHits', totalRoundsSeen', roundsKnownCount')
  {
    TotalsStep(done, m);
    duoMap', duoOrder' := AddDuo(done, m, duoMap, duoOrder);
    anchorMap', anchorOrder' := AddAnchor(done, m, anchorMap, anchorOrder);
    totalFirstHits' := totalFirstHits + m.firstHits;
    totalRoundsSeen', roundsKnownCount' := totalRoundsSeen, roundsKnownCount;
    if m.roundsPlayed.Some? && m.roundsPlayed.value > 0 {
      totalRoundsSeen' := totalRoundsSeen + m.roundsPlayed.value;
      roundsKnownCount' := roundsKnownCount + 1;
    }
  }

  /** The end of `computeAnalytics`: the rows read off the two maps in insertion order, the
      aggressivity from the totals, and the summary assembled. */
  method Summary(ms: seq<TrackedMatch>, queue: string,
                 duoMap: map<string, Tally<Duo>>, duoOrder: seq<string>,
                 anchorMap: map<string, Tally<string>>, anchorOrder: seq<string>,
                 totalFirstHits: int, totalRoundsSeen: int, roundsKnownCount: int)
    returns (a: Analytics)
    requires Accumulated(ms, duoMap, duoOrder, anchorMap, anchorOrder, totalFirstHits, totalRoundsSeen, roundsKnownCount)
    ensures a == AnalyticsOf(ms, queue)
  {
    RowsFromMap(duoMap, duoOrder, DuoTable(ms));
    RowsFromMap(anchorMap, anchorOrder, AnchorTable(ms));
    var duoRows := MapRows(duoMap, duoOrder);
    var anchorRows := MapRows(anchorMap, anchorOrder);
    var aggressivity := AggressivityFrom(totalFirstHits, totalRoundsSeen, roundsKnownCount, |ms|);
    a := Summarize(ms, queue, duoRows, anchorRows, aggressivity);
  }

  /** `computeAnalytics`: one pass over the matches updating the two maps and the three
      running totals, then the rows ranked and cut, and the summary assembled. */
  method ComputeAnalytics(ms: seq<TrackedMatch>, queue: string) returns (a: Analytics)
    ensures a == AnalyticsOf(ms, queue)
  {
    var duoMap: map<string, Tally<Duo>> := map[];
    var duoOrder: seq<string> := [];
    var anchorMap: map<string, Tally<string>> := map[];
    var anchorOrder: seq<string> := [];
    var totalFirstHits := 0;
    var totalRoundsSeen := 0;
    var roundsKnownCount := 0;
    var i := 0;
    assert ms[..0] == [];
    while i < |ms|
      invariant 0 <= i <= |ms|
      invariant Accumulated(ms[..i], duoMap, duoOrder, anchorMap, anchorOrder, totalFirstHits, totalRoundsSeen, roundsKnownCount)
    {
      assert ms[..i + 1] == ms[..i] + [ms[i]];
      duoMap, duoOrder, anchorMap, anchorOrder, totalFirstHits, totalRoundsSeen, roundsKnownCount :=
        AddMatch(ms[..i], ms[i], duoMap, duoOrder, anchorMap, anchorOrder, totalFirstHits, totalRoundsSeen, roundsKnownCount);
      i := i + 1;
    }
    assert ms[..i] == ms;
    a := Summary(ms, queue, duoMap, duoOrder, anchorMap, anchorOrder, totalFirstHits, totalRoundsSeen, roundsKnownCount);
  }
}
