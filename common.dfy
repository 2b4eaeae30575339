/** Values shared by every part of the model: an optional value and the JSON
    values that travel as event payloads. */
module Common {

  datatype Option<T> = None | Some(value: T)

  /** No element occurs twice. */
  predicate Distinct<T(==)>(s: seq<T>) {
    forall i, j :: 0 <= i < j < |s| ==> s[i] != s[j]
  }

  /** Dropping the last element keeps the rest distinct and loses the only
      copy of that element. */
  lemma DistinctInit<T>(s: seq<T>)
    requires Distinct(s) && s != []
    ensures Distinct(s[..|s| - 1]) && s[|s| - 1] !in s[..|s| - 1]
  {
  }

  /** Appending an element not yet present keeps a sequence distinct. */
  lemma DistinctSnoc<T>(s: seq<T>, x: T)
    requires Distinct(s) && x !in s
    ensures Distinct(s + [x])
  {
    var r := s + [x];
    forall i, j | 0 <= i < j < |r| ensures r[i] != r[j] {
      assert r[i] == s[i];
      if j < |s| {
        assert r[j] == s[j];
      }
    }
  }

  /** A JSON value as `JSON.parse` produces it. Numbers are exact reals: the
      rounding of JavaScript's doubles is not modelled. An object is a map from
      key to value, so a repeated key keeps only one value, as `JSON.parse`
      keeps the last one. */
  datatype Json =
    | JNull
    | JBool(b: bool)
    | JNum(n: real)
    | JStr(s: string)
    | JArr(items: seq<Json>)
    | JObj(fields: map<string, Json>)

  /** `j?.key`: the member `key` of an object, absent (`undefined`) for
      anything else. */
  function Field(j: Json, key: string): (r: Option<Json>)
    ensures r.Some? <==> j.JObj? && key in j.fields
    ensures r.Some? ==> r.value == j.fields[key]
  {
    if j.JObj? && key in j.fields then Some(j.fields[key]) else None
  }

  /** JavaScript truthiness of a JSON value. */
  predicate Truthy(j: Json) {
    match j
    case JNull => false
    case JBool(b) => b
    case JNum(n) => n != 0.0
    case JStr(s) => s != ""
    case _ => true
  }

  /** `v ?? fallback`: `null` and `undefined` give the fallback. */
  function OrElse(v: Option<Json>, fallback: Json): (r: Json)
    ensures v.None? || v.value == JNull ==> r == fallback
    ensures v.Some? && v.value != JNull ==> r == v.value
  {
    match v
    case Some(x) => if x == JNull then fallback else x
    case None => fallback
  }

  /** `Array.isArray(v) ? v : []`. */
  function ArrayOrEmpty(v: Option<Json>): (r: seq<Json>)
    ensures v.Some? && v.value.JArr? ==> r == v.value.items
    ensures !(v.Some? && v.value.JArr?) ==> r == []
  {
    if v.Some? && v.value.JArr? then v.value.items else []
  }

  /** An object literal `{ k1: v1, ... }` built from key/value pairs. */
  function Obj(entries: seq<(string, Json)>): (r: Json)
    ensures r.JObj?
    ensures forall i :: 0 <= i < |entries| ==> entries[i].0 in r.fields
  {
    if entries == [] then JObj(map[])
    else
      var rest := Obj(entries[..|entries| - 1]);
      var last := entries[|entries| - 1];
      JObj(rest.fields[last.0 := last.1])
  }
}
