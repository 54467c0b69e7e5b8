/** The JSON values a response body can hold, and JavaScript's reading of them:
    optional chaining (`x?.k`), "last element of a non-empty array" and truthiness. */
module Json {
  import opened Wrappers

  datatype Json =
    | JNull
    | JBool(b: bool)
    | JNum(n: real)
    | JStr(s: string)
    | JArr(items: seq<Json>)
    | JObj(fields: map<string, Json>)

  /** `x?.k` on a parsed JSON value: only an object with key `k` yields something;
      `null`, `undefined`, strings, numbers, booleans and arrays give `undefined`. */
  function Field(x: Option<Json>, k: string): (r: Option<Json>)
    ensures r.Some? <==> x.Some? && x.value.JObj? && k in x.value.fields
  {
    match x
    case Some(JObj(fields)) => if k in fields then Some(fields[k]) else None
    case _ => None
  }

  /** `Array.isArray(x) && x.length > 0 ? x[x.length - 1] : undefined`. */
  function LastItem(x: Option<Json>): (r: Option<Json>)
    ensures r.Some? <==> x.Some? && x.value.JArr? && |x.value.items| > 0
    ensures r.Some? ==> r.value == x.value.items[|x.value.items| - 1]
  {
    match x
    case Some(JArr(items)) => if |items| > 0 then Some(items[|items| - 1]) else None
    case _ => None
  }

  /** One step of a path through a JSON document. */
  datatype Step = Key(name: string) | Last

  /** Follows `path` from `x`; `None` as soon as a step does not apply. */
  function Walk(x: Option<Json>, path: seq<Step>): (r: Option<Json>)
    ensures x.None? ==> r.None?
    decreases |path|
  {
    if path == [] then x
    else
      var next := match path[0] case Key(k) => Field(x, k) case Last => LastItem(x);
      Walk(next, path[1..])
  }

  /** `typeof v === "string"`: the string a walk ends on, if it ends on one. */
  function AsString(x: Option<Json>): (r: Option<string>)
    ensures r.Some? <==> x.Some? && x.value.JStr?
    ensures r.Some? ==> x.value == JStr(r.value)
  {
    match x
    case Some(JStr(s)) => Some(s)
    case _ => None
  }

  /** JavaScript truthiness of a value read out of a JSON document
      (`undefined`, `null`, `false`, `0` and `""` are falsy). */
  predicate Truthy(x: Option<Json>): (b: bool)
    ensures b ==> x.Some? && !x.value.JNull?
    ensures x.Some? && (x.value.JArr? || x.value.JObj?) ==> b
  {
    match x
    case None => false
    case Some(JNull) => false
    case Some(JBool(b)) => b
    case Some(JNum(n)) => n != 0.0
    case Some(JStr(s)) => s != ""
    case Some(JArr(_)) => true
    case Some(JObj(_)) => true
  }
}
