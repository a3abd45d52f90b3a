/** JSON values as the route handlers and the request schemas see them. */
module Json {
  import opened Wrappers

  datatype Json =
    | JNull
    | JBool(b: bool)
    | JNum(n: real)
    | JStr(s: string)
    | JArr(items: seq<Json>)
    | JObj(fields: map<string, Json>)

  /** JavaScript truthiness of a property read; `None` stands for `undefined`. */
  predicate Truthy(v: Option<Json>) {
    match v
    case None => false
    case Some(JNull) => false
    case Some(JBool(b)) => b
    case Some(JNum(n)) => n != 0.0
    case Some(JStr(s)) => s != ""
    case Some(_) => true
  }

  /** The property read `body.key` on a non-null value. Only objects carry the keys read here. */
  function Get(body: Json, key: string): Option<Json> {
    if body.JObj? && key in body.fields then Some(body.fields[key]) else None
  }

  /** The expression `v || fallback`. */
  function Or(v: Option<Json>, fallback: Json): Json {
    if Truthy(v) then v.value else fallback
  }

  /** A present string property. */
  predicate IsString(v: Option<Json>) {
    v.Some? && v.value.JStr?
  }
}
