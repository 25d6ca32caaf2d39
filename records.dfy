/** The JSON records the mock API routes of the clothing-exchange app keep in
    their in-memory stores: a record is a map from keys to primitive JSON
    values, read with JavaScript's property access, tested with JavaScript's
    truthiness, and built with object spread. */
module Records {
  import opened JsText

  /** A primitive JSON value. */
  datatype Json = JNum(n: int) | JStr(s: string) | JBool(b: bool) | JNull

  /** A JSON object. */
  type Record = map<string, Json>

  /** `r.key`: the value, or `undefined` when the key is absent. */
  function Field(r: Record, key: string): (v: Option<Json>)
    ensures v.Some? <==> key in r
    ensures v.Some? ==> v.value == r[key]
  {
    if key in r then Some(r[key]) else None
  }

  /** JavaScript truthiness of a property read: false for `undefined`,
      `null`, `false`, `0` and the empty string. */
  predicate Truthy(v: Option<Json>) {
    match v
    case None => false
    case Some(JNull) => false
    case Some(JBool(b)) => b
    case Some(JNum(n)) => n != 0
    case Some(JStr(s)) => s != ""
  }

  /** `{ ...before, ...body, ...after }`: a key takes its value from the last
      object that has it. */
  function Spread(before: Record, body: Record, after: Record): (r: Record)
    ensures r.Keys == before.Keys + body.Keys + after.Keys
    ensures forall k | k in after :: r[k] == after[k]
    ensures forall k | k in body && k !in after :: r[k] == body[k]
    ensures forall k | k in before && k !in body && k !in after :: r[k] == before[k]
  {
    before + body + after
  }
}
