/** Plain JSON values, as they cross the wire or sit in persisted records. */
module Json {
  import opened Wrappers

  /** A JSON value. Numbers are modelled as integers. */
  datatype Json =
    | JNull
    | JBool(b: bool)
    | JNum(n: int)
    | JStr(s: string)
    | JArr(items: seq<Json>)
    | JObj(fields: map<string, Json>)

  /** Property access `value.key` on a decoded JSON value; `None` is JavaScript's `undefined`.
      Only objects carry the keys this layer reads. */
  function Field(j: Json, key: string): (r: Option<Json>)
    ensures r.Some? <==> j.JObj? && key in j.fields
    ensures r.Some? ==> r.value == j.fields[key]
  {
    if j.JObj? && key in j.fields then Some(j.fields[key]) else None
  }

  /** `typeof value === "string" ? value : undefined` for a property. */
  function StringField(j: Json, key: string): (r: Option<string>)
    ensures r.Some? <==> Field(j, key).Some? && Field(j, key).value.JStr?
    ensures r.Some? ==> Field(j, key) == Some(JStr(r.value))
  {
    match Field(j, key)
    case Some(JStr(s)) => Some(s)
    case _ => None
  }

  /** `typeof value === "number" ? value : undefined` for a property. */
  function NumberField(j: Json, key: string): (r: Option<int>)
    ensures r.Some? <==> Field(j, key).Some? && Field(j, key).value.JNum?
    ensures r.Some? ==> Field(j, key) == Some(JNum(r.value))
  {
    match Field(j, key)
    case Some(JNum(n)) => Some(n)
    case _ => None
  }

  /** JavaScript truthiness of a JSON value. */
  predicate Truthy(j: Json) {
    match j
    case JNull => false
    case JBool(b) => b
    case JNum(n) => n != 0
    case JStr(s) => s != ""
    case _ => true
  }

  /** `value && typeof value === "object"`: arrays and non-null objects. */
  predicate IsObject(j: Json) {
    j.JArr? || j.JObj?
  }

  /** JavaScript truthiness of an optional string (`undefined`, `null` and `""` are falsy). */
  predicate TruthyString(s: Option<string>) {
    s.Some? && s.value != ""
  }
}
