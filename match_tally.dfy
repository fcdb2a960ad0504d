/**
 * The grouping behind the per-duo and per-anchor tables of `computeAnalytics` in
 * lib/riot/service.ts: a JavaScript `Map` from a group key to a win/loss tally, filled
 * one match at a time. A `Map` iterates in key-insertion order, so the table is
 * modelled as a sequence of tallies in first-appearance order.
 */
module MatchTally {

  /** One match as seen by a table: its group key, the title stored when the group is
      created, and whether it was won. */
  datatype Sample<L> = Sample(key: string, title: L, won: bool)

  /** One group of a table. */
  datatype Tally<L> = Tally(key: string, title: L, wins: nat, losses: nat, totalMatches: nat)

  /** The position of the group with `key`, or `|table|` when there is none (`Map.get`). */
  function KeyIndex<L>(table: seq<Tally<L>>, key: string): (i: nat)
    ensures i <= |table|
    ensures i < |table| ==> table[i].key == key
    ensures forall j :: 0 <= j < i ==> table[j].key != key
  {
    if table == [] then 0
    else if table[0].key == key then 0
    else 1 + KeyIndex(table[1..], key)
  }

  /** The group a first match creates (`{ wins: 0, losses: 0, totalMatches: 0 }` bumped once). */
  function Fresh<L>(s: Sample<L>): (t: Tally<L>)
    ensures t.key == s.key && t.title == s.title && t.totalMatches == 1
  {
    Tally(s.key, s.title, if s.won then 1 else 0, if s.won then 0 else 1, 1)
  }

  /** One more match in a group. */
  function Bump<L>(t: Tally<L>, won: bool): (r: Tally<L>)
    ensures r.key == t.key && r.title == t.title && r.totalMatches == t.totalMatches + 1
  {
    if won then t.(wins := t.wins + 1, totalMatches := t.totalMatches + 1)
    else t.(losses := t.losses + 1, totalMatches := t.totalMatches + 1)
  }

  /** `map.set(key, (map.get(key) ?? fresh) bumped)`: an existing group is updated in
      place, a new key is appended at the end. */
  function Record<L>(table: seq<Tally<L>>, s: Sample<L>): seq<Tally<L>> {
    var i := KeyIndex(table, s.key);
    if i < |table| then table[i := Bump(table[i], s.won)] else table + [Fresh(s)]
  }

  /** The table after all samples, in order. */
  function TallyAll<L>(ss: seq<Sample<L>>): seq<Tally<L>> {
    if ss == [] then [] else Record(TallyAll(ss[..|ss| - 1]), ss[|ss| - 1])
  }

  /** The number of samples with `key`. */
  function CountKey<L>(ss: seq<Sample<L>>, key: string): (n: nat)
    ensures n <= |ss|
  {
    if ss == [] then 0
    else CountKey(ss[..|ss| - 1], key) + (if ss[|ss| - 1].key == key then 1 else 0)
  }

  /** The number of won samples with `key`. */
  function WinsKey<L>(ss: seq<Sample<L>>, key: string): (n: nat)
    ensures n <= CountKey(ss, key)
  {
    if ss == [] then 0
    else WinsKey(ss[..|ss| - 1], key) + (if ss[|ss| - 1].key == key && ss[|ss| - 1].won then 1 else 0)
  }

  /** The position of the first sample with `key`, or `|ss|` when there is none. */
  function FirstWithKey<L>(ss: seq<Sample<L>>, key: string): (i: nat)
    ensures i <= |ss|
    ensures i < |ss| ==> ss[i].key == key
    ensures forall j :: 0 <= j < i ==> ss[j].key != key
  {
    if ss == [] then 0
    else
      var p := FirstWithKey(ss[..|ss| - 1], key);
      if p < |ss| - 1 then p else if ss[|ss| - 1].key == key then |ss| - 1 else |ss|
  }

  predicate DistinctKeys<L>(table: seq<Tally<L>>) {
    forall i, j :: 0 <= i < j < |table| ==> table[i].key != table[j].key
  }

  /** The sum of the groups' match counts. */
  function SumTotals<L>(table: seq<Tally<L>>): nat {
    if table == [] then 0 else SumTotals(table[..|table| - 1]) + table[|table| - 1].totalMatches
  }

  lemma {:induction false} SumAppend<L>(table: seq<Tally<L>>, t: Tally<L>)
    ensures SumTotals(table + [t]) == SumTotals(table) + t.totalMatches
  {
    assert (table + [t])[..|table|] == table;
  }

  lemma {:induction false} SumUpdate<L>(table: seq<Tally<L>>, i: nat, t: Tally<L>)
    requires i < |table|
    ensures SumTotals(table[i := t]) + table[i].totalMatches == SumTotals(table) + t.totalMatches
    decreases |table|
  {
    var n := |table| - 1;
    if i == n {
      assert table[i := t][..n] == table[..n];
    } else {
      assert table[i := t][..n] == table[..n][i := t];
      SumUpdate(table[..n], i, t);
    }
  }

  /** Tables with the same keys in the same positions look keys up alike. */
  lemma {:induction false} KeyIndexSameKeys<L>(a: seq<Tally<L>>, b: seq<Tally<L>>, key: string)
    requires |a| == |b| && forall j :: 0 <= j < |a| ==> a[j].key == b[j].key
    ensures KeyIndex(a, key) == KeyIndex(b, key)
  {
  }

  /** Appending a group does not change the position of keys already present. */
  lemma {:induction false} KeyIndexAppend<L>(table: seq<Tally<L>>, t: Tally<L>, key: string)
    ensures KeyIndex(table + [t], key) ==
              if KeyIndex(table, key) < |table| then KeyIndex(table, key)
              else if t.key == key then |table| else |table| + 1
  {
    assert forall j :: 0 <= j < |table| ==> (table + [t])[j] == table[j];
    assert (table + [t])[|table|] == t;
  }

  /** Keys are distinct and a key has a group exactly when some sample carries it. */
  ghost predicate KeysOf<L>(ss: seq<Sample<L>>, table: seq<Tally<L>>) {
    DistinctKeys(table) && forall k :: KeyIndex(table, k) < |table| <==> CountKey(ss, k) > 0
  }

  /** Each group counts exactly the samples with its key, and the counts add up to the
      number of samples. */
  ghost predicate CountsOf<L>(ss: seq<Sample<L>>, table: seq<Tally<L>>) {
    (forall j :: 0 <= j < |table| ==>
       table[j].totalMatches == CountKey(ss, table[j].key) && table[j].wins == WinsKey(ss, table[j].key)
       && table[j].wins + table[j].losses == table[j].totalMatches && table[j].totalMatches >= 1)
    && SumTotals(table) == |ss|
  }

  /** `table` is the reference grouping of `ss`. */
  ghost predicate GroupsOf<L>(ss: seq<Sample<L>>, table: seq<Tally<L>>) {
    KeysOf(ss, table) && CountsOf(ss, table)
  }

  lemma {:induction false} CountAppend<L>(ss: seq<Sample<L>>, s: Sample<L>, key: string)
    ensures CountKey(ss + [s], key) == CountKey(ss, key) + (if s.key == key then 1 else 0)
    ensures WinsKey(ss + [s], key) == WinsKey(ss, key) + (if s.key == key && s.won then 1 else 0)
    ensures FirstWithKey(ss + [s], key) ==
              if FirstWithKey(ss, key) < |ss| then FirstWithKey(ss, key)
              else if s.key == key then |ss| else |ss| + 1
  {
    assert (ss + [s])[..|ss|] == ss;
    assert (ss + [s])[|ss|] == s;
  }

  lemma {:induction false} RecordExistingKeys<L>(ss: seq<Sample<L>>, table: seq<Tally<L>>, s: Sample<L>)
    requires KeysOf(ss, table) && KeyIndex(table, s.key) < |table|
    ensures KeysOf(ss + [s], Record(table, s))
  {
    var i := KeyIndex(table, s.key);
    var t := Record(table, s);
    assert t == table[i := Bump(table[i], s.won)];
    assert forall j :: 0 <= j < |t| ==> t[j].key == table[j].key;
    forall k
      ensures KeyIndex(t, k) < |t| <==> CountKey(ss + [s], k) > 0
    {
      KeyIndexSameKeys(t, table, k);
      CountAppend(ss, s, k);
    }
  }

  /** Bumping the group of the new sample's key counts it there and nowhere else. */
  lemma {:induction false} BumpCounts<L>(ss: seq<Sample<L>>, table: seq<Tally<L>>, s: Sample<L>, i: nat)
    requires CountsOf(ss, table) && DistinctKeys(table) && i < |table| && table[i].key == s.key
    ensures CountsOf(ss + [s], table[i := Bump(table[i], s.won)])
  {
    var t := table[i := Bump(table[i], s.won)];
    SumUpdate(table, i, Bump(table[i], s.won));
    forall j | 0 <= j < |t|
      ensures t[j].totalMatches == CountKey(ss + [s], t[j].key) && t[j].wins == WinsKey(ss + [s], t[j].key)
      ensures t[j].wins + t[j].losses == t[j].totalMatches && t[j].totalMatches >= 1
    {
      CountAppend(ss, s, table[j].key);
    }
  }

  lemma {:induction false} RecordExistingCounts<L>(ss: seq<Sample<L>>, table: seq<Tally<L>>, s: Sample<L>)
    requires KeysOf(ss, table) && CountsOf(ss, table) && KeyIndex(table, s.key) < |table|
    ensures CountsOf(ss + [s], Record(table, s))
  {
    BumpCounts(ss, table, s, KeyIndex(table, s.key));
  }

  lemma {:induction false} RecordNewKeys<L>(ss: seq<Sample<L>>, table: seq<Tally<L>>, s: Sample<L>)
    requires KeysOf(ss, table) && KeyIndex(table, s.key) == |table|
    ensures KeysOf(ss + [s], Record(table, s))
  {
    var t := Record(table, s);
    assert t == table + [Fresh(s)];
    forall k
      ensures KeyIndex(t, k) < |t| <==> CountKey(ss + [s], k) > 0
    {
      KeyIndexAppend(table, Fresh(s), k);
      CountAppend(ss, s, k);
    }
  }

  /** A group appended for a key no sample carried counts the one new sample. */
  lemma {:induction false} AppendCounts<L>(ss: seq<Sample<L>>, table: seq<Tally<L>>, s: Sample<L>)
    requires CountsOf(ss, table) && CountKey(ss, s.key) == 0
    ensures CountsOf(ss + [s], table + [Fresh(s)])
  {
    var t := table + [Fresh(s)];
    SumAppend(table, Fresh(s));
    forall j | 0 <= j < |table|
      ensures t[j].totalMatches == CountKey(ss + [s], t[j].key) && t[j].wins == WinsKey(ss + [s], t[j].key)
    {
      assert t[j] == table[j];
      CountAppend(ss, s, table[j].key);
    }
    CountAppend(ss, s, s.key);
    assert t[|table|] == Fresh(s);
  }

  lemma {:induction false} RecordNewCounts<L>(ss: seq<Sample<L>>, table: seq<Tally<L>>, s: Sample<L>)
    requires KeysOf(ss, table) && CountsOf(ss, table) && KeyIndex(table, s.key) == |table|
    ensures CountsOf(ss + [s], Record(table, s))
  {
    assert CountKey(ss, s.key) == 0;
    AppendCounts(ss, table, s);
  }

  /** The table is the reference grouping of the samples (see `GroupsOf`). */
  lemma {:induction false} TallyAllCounts<L>(ss: seq<Sample<L>>)
    ensures GroupsOf(ss, TallyAll(ss))
    ensures SumTotals(TallyAll(ss)) == |ss|
  {
    if ss != [] {
      var p, s := ss[..|ss| - 1], ss[|ss| - 1];
      TallyAllCounts(p);
      assert p + [s] == ss;
      if KeyIndex(TallyAll(p), s.key) < |TallyAll(p)| {
        RecordExistingKeys(p, TallyAll(p), s);
        RecordExistingCounts(p, TallyAll(p), s);
      } else {
        RecordNewKeys(p, TallyAll(p), s);
        RecordNewCounts(p, TallyAll(p), s);
      }
    }
  }

  /** Groups appear in the order their keys first appear among the samples, and each
      keeps the title of the first sample with its key. */
  ghost predicate OrderedAs<L>(ss: seq<Sample<L>>, table: seq<Tally<L>>) {
    (forall j :: 0 <= j < |table| ==>
       FirstWithKey(ss, table[j].key) < |ss| && table[j].title == ss[FirstWithKey(ss, table[j].key)].title)
    && (forall i, j :: 0 <= i < j < |table| ==> FirstWithKey(ss, table[i].key) < FirstWithKey(ss, table[j].key))
  }

  lemma {:induction false} RecordOrderedExisting<L>(ss: seq<Sample<L>>, table: seq<Tally<L>>, s: Sample<L>)
    requires OrderedAs(ss, table) && KeyIndex(table, s.key) < |table|
    ensures OrderedAs(ss + [s], Record(table, s))
  {
    var i := KeyIndex(table, s.key);
    var t := Record(table, s);
    assert t == table[i := Bump(table[i], s.won)];
    forall j | 0 <= j < |t|
      ensures t[j].key == table[j].key && t[j].title == table[j].title
      ensures FirstWithKey(ss + [s], t[j].key) == FirstWithKey(ss, table[j].key)
      ensures (ss + [s])[FirstWithKey(ss, table[j].key)] == ss[FirstWithKey(ss, table[j].key)]
    {
      CountAppend(ss, s, t[j].key);
    }
  }

  /** A key no sample carries has no first sample. */
  lemma {:induction false} AbsentKeyFirst<L>(ss: seq<Sample<L>>, key: string)
    requires CountKey(ss, key) == 0
    ensures FirstWithKey(ss, key) == |ss|
  {
    if FirstWithKey(ss, key) < |ss| {
      CountPositive(ss, key, FirstWithKey(ss, key));
    }
  }

  /** Appending a sample keeps the first sample of every key already seen. */
  lemma {:induction false} FirstWithKeyKept<L>(ss: seq<Sample<L>>, s: Sample<L>, key: string)
    requires FirstWithKey(ss, key) < |ss|
    ensures FirstWithKey(ss + [s], key) == FirstWithKey(ss, key)
    ensures (ss + [s])[FirstWithKey(ss, key)] == ss[FirstWithKey(ss, key)]
  {
    CountAppend(ss, s, key);
  }

  /** A group appended for a first-seen key comes after every existing group. */
  lemma {:induction false} AppendOrdered<L>(ss: seq<Sample<L>>, table: seq<Tally<L>>, s: Sample<L>)
    requires OrderedAs(ss, table) && FirstWithKey(ss, s.key) == |ss|
    ensures OrderedAs(ss + [s], table + [Fresh(s)])
  {
    var t := table + [Fresh(s)];
    CountAppend(ss, s, s.key);
    assert FirstWithKey(ss + [s], s.key) == |ss|;
    assert (ss + [s])[|ss|] == s;
    forall j | 0 <= j < |table|
      ensures FirstWithKey(ss + [s], t[j].key) == FirstWithKey(ss, table[j].key)
      ensures (ss + [s])[FirstWithKey(ss, table[j].key)] == ss[FirstWithKey(ss, table[j].key)]
    {
      assert t[j] == table[j];
      FirstWithKeyKept(ss, s, table[j].key);
    }
    assert t[|table|] == Fresh(s);
  }

  lemma {:induction false} RecordOrderedNew<L>(ss: seq<Sample<L>>, table: seq<Tally<L>>, s: Sample<L>)
    requires KeysOf(ss, table) && OrderedAs(ss, table) && KeyIndex(table, s.key) == |table|
    ensures OrderedAs(ss + [s], Record(table, s))
  {
    assert CountKey(ss, s.key) == 0;
    AbsentKeyFirst(ss, s.key);
    AppendOrdered(ss, table, s);
  }

  lemma {:induction false} TallyAllOrder<L>(ss: seq<Sample<L>>)
    ensures OrderedAs(ss, TallyAll(ss))
  {
    if ss != [] {
      var p, s := ss[..|ss| - 1], ss[|ss| - 1];
      TallyAllOrder(p);
      TallyAllCounts(p);
      assert p + [s] == ss;
      if KeyIndex(TallyAll(p), s.key) < |TallyAll(p)| {
        RecordOrderedExisting(p, TallyAll(p), s);
      } else {
        RecordOrderedNew(p, TallyAll(p), s);
      }
    }
  }

  /** A sample with `key` makes the key's count positive. */
  lemma {:induction false} CountPositive<L>(ss: seq<Sample<L>>, key: string, i: nat)
    requires i < |ss| && ss[i].key == key
    ensures CountKey(ss, key) > 0
    decreases |ss|
  {
    if i < |ss| - 1 {
      CountPositive(ss[..|ss| - 1], key, i);
    }
  }

  /** `map` holds the tallies of `table`, whose keys iterate in the order `order`: the
      state of the JavaScript `Map` and its insertion order. */
  ghost predicate Mirrors<L>(m: map<string, Tally<L>>, order: seq<string>, table: seq<Tally<L>>) {
    |order| == |table|
    && (forall j :: 0 <= j < |table| ==> order[j] == table[j].key && order[j] in m && m[order[j]] == table[j])
    && (forall k :: k in m ==> k in order)
  }

  /** One `get`/`set` step on the map keeps it in step with `Record`. */
  lemma {:induction false} RecordMirrors<L>(m: map<string, Tally<L>>, order: seq<string>, table: seq<Tally<L>>, s: Sample<L>)
    requires Mirrors(m, order, table) && DistinctKeys(table)
    ensures s.key in m ==> Mirrors(m[s.key := Bump(m[s.key], s.won)], order, Record(table, s))
    ensures s.key !in m ==> Mirrors(m[s.key := Fresh(s)], order + [s.key], Record(table, s))
  {
    var i := KeyIndex(table, s.key);
    if s.key in m {
      assert s.key in order;
      var j :| 0 <= j < |order| && order[j] == s.key;
      assert i == j;
    } else {
      assert i == |table|;
    }
  }
}
