/**
 * The champion catalog summary of lib/riot/server.ts: the catalog payload's shape
 * is not fixed, so the collection is looked for under a list of candidate keys,
 * names are read from a list of candidate fields, then deduplicated and sampled.
 */
module ChampionCatalog {
  import opened Wrappers
  import opened JsValue

  const ChampionsUrl := "https://map.rgpub.io/public/2xko/latest/champions.json"

  /** The keys that may hold the collection, in the order they are tried. */
  const CollectionKeys: seq<string> := ["champions", "data", "items", "results"]

  /** The fields that may hold a champion's name, in the order they are tried. */
  const NameKeys: seq<string> := ["displayName", "name", "championName", "id", "slug"]

  /** The members of an array, or the values of an object. */
  function Members(v: Json): seq<Json>
    requires v.JArr? || v.JObj?
  {
    if v.JArr? then v.items else Values(v.fields)
  }

  /** The candidate key `keys[i]` holds an array or an object, and no earlier one does. */
  predicate FirstCollectionKey(fields: seq<(string, Json)>, keys: seq<string>, i: int) {
    && 0 <= i < |keys|
    && IsObjectLike(Lookup(fields, keys[i]))
    && forall j :: 0 <= j < i ==> !IsObjectLike(Lookup(fields, keys[j]))
  }

  /** The loop over the candidate keys: the members under the first key holding a collection. */
  function CollectionUnderKeys(fields: seq<(string, Json)>, keys: seq<string>): (r: Option<seq<Json>>)
    ensures r.None? <==> forall i :: 0 <= i < |keys| ==> !IsObjectLike(Lookup(fields, keys[i]))
    ensures r.Some? ==> exists i :: FirstCollectionKey(fields, keys, i)
                                    && r.value == Members(Lookup(fields, keys[i]).value)
  {
    if keys == [] then None
    else
      var v := Lookup(fields, keys[0]);
      if IsObjectLike(v) then
        assert FirstCollectionKey(fields, keys, 0);
        Some(Members(v.value))
      else
        var r := CollectionUnderKeys(fields, keys[1..]);
        assert r.Some? ==> exists i :: FirstCollectionKey(fields, keys, i)
                                       && r.value == Members(Lookup(fields, keys[i]).value) by {
          if r.Some? {
            var i :| FirstCollectionKey(fields, keys[1..], i) && r.value == Members(Lookup(fields, keys[1..][i]).value);
            assert FirstCollectionKey(fields, keys, i + 1) by {
              forall j | 0 <= j < i + 1 ensures !IsObjectLike(Lookup(fields, keys[j])) {
                if j > 0 { assert keys[j] == keys[1..][j - 1]; }
              }
            }
          }
        }
        assert r.None? ==> forall i :: 0 <= i < |keys| ==> !IsObjectLike(Lookup(fields, keys[i])) by {
          if r.None? {
            forall i | 0 <= i < |keys| ensures !IsObjectLike(Lookup(fields, keys[i])) {
              if i > 0 { assert keys[i] == keys[1..][i - 1]; }
            }
          }
        }
        r
  }

  /** `resolveChampionCollection`: an array as is; for an object, the collection under the
      first candidate key, else the object's own values; anything else has none. */
  function ResolveChampionCollection(payload: Json): (r: Option<seq<Json>>)
    ensures payload.JArr? ==> r == Some(payload.items)
    ensures r.None? <==> !payload.JArr? && !payload.JObj?
    ensures payload.JObj? && CollectionUnderKeys(payload.fields, CollectionKeys).None? ==>
              r == Some(Values(payload.fields))
  {
    match payload
    case JArr(items) => Some(items)
    case JObj(fields) =>
      (match CollectionUnderKeys(fields, CollectionKeys)
       case Some(c) => Some(c)
       case None => Some(Values(fields)))
    case _ => None
  }

  /** The count loop over the candidate keys: the size of the first collection found. */
  function CountUnderKeys(fields: seq<(string, Json)>, keys: seq<string>): Option<nat> {
    if keys == [] then None
    else
      match Lookup(fields, keys[0])
      case Some(JArr(items)) => Some(|items|)
      case Some(JObj(fs)) => Some(|fs|)
      case _ => CountUnderKeys(fields, keys[1..])
  }

  /** `inferCollectionCount`: like `resolveChampionCollection`, with sizes, and an object
      none of whose candidate keys holds a collection counts its own keys, 0 giving null. */
  function InferCollectionCount(payload: Json): Option<nat> {
    match payload
    case JArr(items) => Some(|items|)
    case JObj(fields) =>
      (match CountUnderKeys(fields, CollectionKeys)
       case Some(n) => Some(n)
       case None => if |fields| > 0 then Some(|fields|) else None)
    case _ => None
  }

  lemma {:induction false} CountMirrorsCollection(fields: seq<(string, Json)>, keys: seq<string>)
    ensures CountUnderKeys(fields, keys).Some? <==> CollectionUnderKeys(fields, keys).Some?
    ensures CountUnderKeys(fields, keys).Some? ==>
              CountUnderKeys(fields, keys).value == |CollectionUnderKeys(fields, keys).value|
  {
    if keys != [] {
      CountMirrorsCollection(fields, keys[1..]);
    }
  }

  /** `inferCollectionCount` is the size of what `resolveChampionCollection` finds, except
      that an object with no collection under its candidate keys and no keys counts as null. */
  lemma InferCountMirrorsResolve(payload: Json)
    ensures InferCollectionCount(payload).Some? ==>
              ResolveChampionCollection(payload).Some?
              && InferCollectionCount(payload).value == |ResolveChampionCollection(payload).value|
    ensures ResolveChampionCollection(payload).None? ==> InferCollectionCount(payload).None?
    ensures ResolveChampionCollection(payload).Some? && InferCollectionCount(payload).None? ==>
              payload == JObj([])
  {
    if payload.JObj? {
      CountMirrorsCollection(payload.fields, CollectionKeys);
    }
  }

  /** `a ?? b ?? ...` over the candidate name fields: the first one not null or undefined. */
  function FirstPresent(fields: seq<(string, Json)>, keys: seq<string>): (r: Option<Json>)
    ensures r.None? <==> forall i :: 0 <= i < |keys| ==> IsNullish(Lookup(fields, keys[i]))
    ensures r.Some? ==> exists i :: 0 <= i < |keys| && Lookup(fields, keys[i]) == r
                                    && !IsNullish(r)
                                    && forall j :: 0 <= j < i ==> IsNullish(Lookup(fields, keys[j]))
  {
    if keys == [] then None
    else
      var v := Lookup(fields, keys[0]);
      if !IsNullish(v) then v
      else
        var r := FirstPresent(fields, keys[1..]);
        assert r.Some? ==> exists i :: 0 <= i < |keys| && Lookup(fields, keys[i]) == r && !IsNullish(r)
                                       && forall j :: 0 <= j < i ==> IsNullish(Lookup(fields, keys[j])) by {
          if r.Some? {
            var i :| 0 <= i < |keys[1..]| && Lookup(fields, keys[1..][i]) == r && !IsNullish(r)
                     && forall j :: 0 <= j < i ==> IsNullish(Lookup(fields, keys[1..][j]));
            assert Lookup(fields, keys[i + 1]) == r;
            forall j | 0 <= j < i + 1 ensures IsNullish(Lookup(fields, keys[j])) {
              if j > 0 { assert keys[j] == keys[1..][j - 1]; }
            }
          }
        }
        assert r.None? ==> forall i :: 0 <= i < |keys| ==> IsNullish(Lookup(fields, keys[i])) by {
          if r.None? {
            forall i | 0 <= i < |keys| ensures IsNullish(Lookup(fields, keys[i])) {
              if i > 0 { assert keys[i] == keys[1..][i - 1]; }
            }
          }
        }
        r
  }

  /** The name one collection item contributes: a string as is; for an object, the first
      candidate field that is not null or undefined, kept only when it is a string. */
  function ChampionName(item: Json): (r: Option<string>)
    ensures item.JStr? ==> r == Some(item.s)
    ensures !item.JStr? && !item.JObj? ==> r.None?
    ensures item.JObj? ==> (r.Some? <==> FirstPresent(item.fields, NameKeys).Some?
                                         && FirstPresent(item.fields, NameKeys).value.JStr?)
    ensures item.JObj? && r.Some? ==> r.value == FirstPresent(item.fields, NameKeys).value.s
  {
    match item
    case JStr(s) => Some(s)
    case JObj(fields) =>
      (match FirstPresent(fields, NameKeys)
       case Some(JStr(s)) => Some(s)
       case _ => None)
    case _ => None
  }

  /** A non-string `displayName` hides a string `name`. */
  lemma DisplayNameHidesName()
    ensures ChampionName(JObj([("displayName", JNum(7)), ("name", JStr("Ahri"))])) == None
  {
    var fields := [("displayName", JNum(7)), ("name", JStr("Ahri"))];
    assert Lookup(fields, "displayName") == Some(JNum(7));
    assert FirstPresent(fields, NameKeys) == Some(JNum(7));
  }

  /** The items' names, in order, dropping items without one and empty names. */
  function NamesOf(items: seq<Json>): (r: seq<string>)
    ensures |r| <= |items|
    ensures forall i :: 0 <= i < |r| ==> r[i] != ""
  {
    if items == [] then []
    else
      var name := ChampionName(items[|items| - 1]);
      NamesOf(items[..|items| - 1]) + (if name.Some? && name.value != "" then [name.value] else [])
  }

  /** Names come out in item order: the names of a concatenation are the concatenation. */
  lemma {:induction false} NamesOfAppend(a: seq<Json>, b: seq<Json>)
    ensures NamesOf(a + b) == NamesOf(a) + NamesOf(b)
    decreases |b|
  {
    if b == [] {
      assert a + b == a;
    } else {
      assert (a + b)[..|a + b| - 1] == a + b[..|b| - 1];
      NamesOfAppend(a, b[..|b| - 1]);
    }
  }

  /** `extractChampionNames`. */
  function ExtractChampionNames(payload: Json): (r: seq<string>)
    ensures forall i :: 0 <= i < |r| ==> r[i] != ""
    ensures ResolveChampionCollection(payload).None? ==> r == []
  {
    match ResolveChampionCollection(payload)
    case None => []
    case Some(collection) => NamesOf(collection)
  }

  /** The names of an array payload are the names of its items. */
  lemma ArrayNames(items: seq<Json>)
    ensures ExtractChampionNames(JArr(items)) == NamesOf(items)
  {
    assert ResolveChampionCollection(JArr(items)) == Some(items);
  }

  /** A lone non-empty string item is its own name. */
  lemma {:induction false} SingleStringName(s: string)
    requires s != ""
    ensures NamesOf([JStr(s)]) == [s]
  {
    var items := [JStr(s)];
    assert items[..0] == [];
    assert ChampionName(items[0]) == Some(s);
  }

  /** Every non-empty string of an array payload is extracted, in order. */
  lemma StringItemsKept(prefix: seq<Json>, s: string, suffix: seq<Json>)
    requires s != ""
    ensures ExtractChampionNames(JArr(prefix + [JStr(s)] + suffix))
              == NamesOf(prefix) + [s] + NamesOf(suffix)
  {
    ArrayNames(prefix + [JStr(s)] + suffix);
    NamesOfAppend(prefix + [JStr(s)], suffix);
    NamesOfAppend(prefix, [JStr(s)]);
    SingleStringName(s);
  }

  predicate Distinct(s: seq<string>) {
    forall i, j :: 0 <= i < j < |s| ==> s[i] != s[j]
  }

  /** The position of the first occurrence of `x` in `s`. */
  function FirstIndex(s: seq<string>, x: string): (k: nat)
    requires x in s
    ensures k < |s| && s[k] == x
    ensures forall j :: 0 <= j < k ==> s[j] != x
  {
    if s[0] == x then 0 else 1 + FirstIndex(s[1..], x)
  }

  /** `[...new Set(s)]`: the distinct strings of `s`, in order of first occurrence. */
  function Dedupe(s: seq<string>): (r: seq<string>)
    ensures forall x :: x in r <==> x in s
    ensures Distinct(r)
    ensures |r| <= |s|
  {
    if s == [] then []
    else
      var r := Dedupe(s[..|s| - 1]);
      if s[|s| - 1] in r then r else r + [s[|s| - 1]]
  }

  /** Appending a string keeps the first occurrence of every string already present. */
  lemma {:induction false} FirstIndexPrefix(p: seq<string>, x: string, y: string)
    requires y in p
    ensures y in p + [x] && FirstIndex(p + [x], y) == FirstIndex(p, y)
  {
    var s := p + [x];
    var k := FirstIndex(p, y);
    assert s[k] == y;
    var k' := FirstIndex(s, y);
    assert k' <= k;
    assert p[k'] == y;
  }

  /** A string first seen at the end is first found there. */
  lemma {:induction false} FirstIndexNew(p: seq<string>, x: string)
    requires x !in p
    ensures FirstIndex(p + [x], x) == |p|
  {
    var s := p + [x];
    assert s[|p|] == x;
    assert forall j :: 0 <= j < |p| ==> s[j] == p[j];
  }

  /** `Dedupe` lists the strings in the order of their first occurrence in the input. */
  lemma {:induction false} DedupeFirstOccurrenceOrder(s: seq<string>)
    ensures forall i, j :: 0 <= i < j < |Dedupe(s)| ==> FirstIndex(s, Dedupe(s)[i]) < FirstIndex(s, Dedupe(s)[j])
  {
    if s != [] {
      var p := s[..|s| - 1];
      var x := s[|s| - 1];
      assert s == p + [x];
      DedupeFirstOccurrenceOrder(p);
      var r := Dedupe(p);
      forall i | 0 <= i < |r|
        ensures FirstIndex(s, r[i]) == FirstIndex(p, r[i])
      {
        FirstIndexPrefix(p, x, r[i]);
      }
      if x !in r {
        FirstIndexNew(p, x);
        assert Dedupe(s) == r + [x];
      } else {
        assert Dedupe(s) == r;
      }
    }
  }

  /** `.filter(Boolean)` over strings. */
  function KeepNonEmpty(s: seq<string>): (r: seq<string>)
    ensures (forall i :: 0 <= i < |s| ==> s[i] != "") ==> r == s
    ensures forall i :: 0 <= i < |r| ==> r[i] != ""
    ensures forall x :: x in r <==> x in s && x != ""
  {
    if s == [] then []
    else
      assert s == s[..|s| - 1] + [s[|s| - 1]];
      KeepNonEmpty(s[..|s| - 1]) + (if s[|s| - 1] != "" then [s[|s| - 1]] else [])
  }

  /** How many sample names the summary keeps. */
  const SampleSize := 8

  datatype CatalogSummary = CatalogSummary(sourceUrl: string, count: Option<nat>, sampleNames: seq<string>,
                                           fetchedAt: string)

  /** `fetch2XkoChampionCatalogSummary` for the decoded catalog body; `None` stands for a
      request that threw, a reply that was not ok, or a body that was not JSON. */
  function ChampionCatalogSummary(payload: Option<Json>, fetchedAt: string): (r: Option<CatalogSummary>)
    ensures r.None? <==> payload.None?
    ensures r.Some? ==> r.value.sourceUrl == ChampionsUrl && r.value.fetchedAt == fetchedAt
    ensures r.Some? ==>
              var names := ExtractChampionNames(payload.value);
              && |r.value.sampleNames| <= SampleSize
              && Distinct(r.value.sampleNames)
              && (forall n :: n in r.value.sampleNames ==> n in names)
              && (names != [] ==> r.value.count == Some(|Dedupe(names)|) && r.value.sampleNames != [])
              && (names == [] ==> r.value.count == InferCollectionCount(payload.value) && r.value.sampleNames == [])
    ensures r.Some? ==>
              var u := Dedupe(ExtractChampionNames(payload.value));
              r.value.sampleNames == u[..if |u| < SampleSize then |u| else SampleSize]
  {
    match payload
    case None => None
    case Some(p) =>
      var names := ExtractChampionNames(p);
      var uniqueNames := KeepNonEmpty(Dedupe(names));
      var deduped := Dedupe(names);
      assert forall i :: 0 <= i < |deduped| ==> deduped[i] != "" by {
        forall i | 0 <= i < |deduped| ensures deduped[i] != "" {
          assert deduped[i] in names;
        }
      }
      assert uniqueNames == deduped;
      assert names != [] ==> names[0] in uniqueNames;
      Some(CatalogSummary(
             ChampionsUrl,
             if |uniqueNames| > 0 then Some(|uniqueNames|) else InferCollectionCount(p),
             uniqueNames[..if |uniqueNames| < SampleSize then |uniqueNames| else SampleSize],
             fetchedAt))
  }
}
