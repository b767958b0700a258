/** JSON values as the routes and the browser see them after `JSON.parse`, with
    the JavaScript operations the source applies to them: truthiness, property
    reads with and without optional chaining, and `Option.fromNullable`. */
module Json {
  import opened Wrappers

  /** Numbers are integers: every amount in the system is a whole number. */
  datatype Json =
    | JNull
    | JBool(b: bool)
    | JNum(n: int)
    | JStr(s: string)
    | JArr(items: seq<Json>)
    | JObj(fields: map<string, Json>)

  /** JavaScript truthiness of a parsed JSON value. */
  predicate Truthy(v: Json)
  {
    match v
    case JNull => false
    case JBool(b) => b
    case JNum(n) => n != 0
    case JStr(s) => s != ""
    case _ => true
  }

  /** `v?.k`: the value of field `k`, or `None` (undefined) when `v` is not an
      object holding `k`; never throws. */
  function Get(v: Json, k: string): (r: Option<Json>)
    ensures r.Some? <==> v.JObj? && k in v.fields
    ensures r.Some? ==> r.value == v.fields[k]
  {
    if v.JObj? && k in v.fields then Some(v.fields[k]) else None
  }

  /** Outcome of a plain property read `v.k`. */
  datatype Access = Throws | Undefined | Value(v: Json)

  /** `v.k` without optional chaining: reading a property of `null` throws a
      TypeError; reading a missing property (or one of a primitive) is undefined. */
  function Read(v: Json, k: string): (r: Access)
    ensures r.Throws? <==> v.JNull?
    ensures r.Value? <==> v.JObj? && k in v.fields
    ensures r.Value? ==> r.v == v.fields[k]
  {
    if v.JNull? then Throws
    else if v.JObj? && k in v.fields then Value(v.fields[k])
    else Undefined
  }

  /** `Option.fromNullable(v.k)` after a read that did not throw. */
  function FromNullable(a: Access): (r: Option<Json>)
    ensures r.Some? <==> a.Value? && !a.v.JNull?
    ensures r.Some? ==> r.value == a.v
  {
    if a.Value? && !a.v.JNull? then Some(a.v) else None
  }

  /** Adds `k` to an object under construction when the value is defined:
      `JSON.stringify` drops keys whose value is `undefined`. */
  function Put(m: map<string, Json>, k: string, v: Option<Json>): (r: map<string, Json>)
    ensures k in r <==> k in m || v.Some?
    ensures forall j :: j != k ==> (j in r <==> j in m)
    ensures forall j :: j in r && j != k ==> r[j] == m[j]
    ensures v.Some? ==> r[k] == v.value
    ensures v.None? ==> r == m
  {
    if v.Some? then m[k := v.value] else m
  }

  /** The keys after a `Put`. */
  lemma PutKeys(m: map<string, Json>, k: string, v: Option<Json>)
    ensures Put(m, k, v).Keys == m.Keys + (if v.Some? then {k} else {})
  {
  }

  /** The response body `{ error: message }` every route uses for a failure. */
  function ErrorBody(message: string): (r: Json)
    ensures r.JObj? && r.fields.Keys == {"error"}
    ensures r.fields["error"] == JStr(message)
  {
    JObj(map["error" := JStr(message)])
  }
}
