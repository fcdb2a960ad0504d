/**
 * JSON values as `response.json()` produces them, and the JavaScript
 * operators the core applies to them: truthiness, `??`, property reads.
 * A property read yields `Option<Json>`: `None` is `undefined`.
 */
module JsValue {
  import opened Wrappers

  /** An object is its ordered list of (key, value) bindings, in property order. */
  datatype Json =
    | JNull
    | JBool(b: bool)
    | JNum(n: int)
    | JStr(s: string)
    | JArr(items: seq<Json>)
    | JObj(fields: seq<(string, Json)>)

  /** `Boolean(v)`: false for undefined, null, false, 0 and "". */
  predicate Truthy(v: Option<Json>) {
    match v
    case None => false
    case Some(j) =>
      match j
      case JNull => false
      case JBool(b) => b
      case JNum(n) => n != 0
      case JStr(s) => s != []
      case _ => true
  }

  /** `v === null || v === undefined`. */
  predicate IsNullish(v: Option<Json>) {
    v == None || v == Some(JNull)
  }

  /** `a ?? b`. */
  function Coalesce(a: Option<Json>, b: Option<Json>): (r: Option<Json>)
    ensures !IsNullish(a) ==> r == a
    ensures IsNullish(a) ==> r == b
  {
    if IsNullish(a) then b else a
  }

  /** `value && typeof value === "object"`: an array or an object. */
  predicate IsObjectLike(v: Option<Json>) {
    v.Some? && (v.value.JArr? || v.value.JObj?)
  }

  /** `record[key]`: the first binding of `key`, or undefined. */
  function Lookup(fields: seq<(string, Json)>, key: string): (r: Option<Json>)
    ensures r.None? <==> forall i :: 0 <= i < |fields| ==> fields[i].0 != key
    ensures r.Some? ==> exists i :: 0 <= i < |fields| && fields[i] == (key, r.value)
                                    && forall j :: 0 <= j < i ==> fields[j].0 != key
  {
    if fields == [] then None
    else if fields[0].0 == key then Some(fields[0].1)
    else
      var r := Lookup(fields[1..], key);
      assert r.Some? ==> exists i :: 0 <= i < |fields| && fields[i] == (key, r.value)
                                     && forall j :: 0 <= j < i ==> fields[j].0 != key by {
        if r.Some? {
          var i :| 0 <= i < |fields[1..]| && fields[1..][i] == (key, r.value)
                   && forall j :: 0 <= j < i ==> fields[1..][j].0 != key;
          assert fields[i + 1] == (key, r.value);
          assert forall j :: 0 <= j < i + 1 ==> fields[j].0 != key by {
            forall j | 0 <= j < i + 1 ensures fields[j].0 != key {
              if j > 0 { assert fields[j] == fields[1..][j - 1]; }
            }
          }
        }
      }
      r
  }

  /** `Object.values(record)`. */
  function Values(fields: seq<(string, Json)>): (r: seq<Json>)
    ensures |r| == |fields|
    ensures forall i :: 0 <= i < |r| ==> r[i] == fields[i].1
  {
    seq(|fields|, i requires 0 <= i < |fields| => fields[i].1)
  }
}
