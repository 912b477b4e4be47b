/**
 * The value `JSON.parse` returns, as an abstract datatype, and the
 * JavaScript notions the normaliser tests it with: property access,
 * truthiness and `typeof … === 'number'`. The parser itself is not part of
 * this model; its outcome is an input.
 */
module Json {
  import opened Options

  datatype Json =
    | JNull
    | JBool(b: bool)
    | JNumber(n: real)
    | JString(s: string)
    | JArray(elems: seq<Json>)
    | JObject(fields: map<string, Json>)

  /** What `JSON.parse` did: threw a SyntaxError, or returned a value. */
  datatype ParseOutcome = SyntaxError | Parsed(value: Json)

  /** `obj[key]` on an object: `None` stands for `undefined`. */
  function Field(fields: map<string, Json>, key: string): Option<Json> {
    if key in fields then Some(fields[key]) else None
  }

  /**
   * `v.key` on a parsed value: only `null` throws (a TypeError, `None` here);
   * strings, numbers, booleans and arrays have none of the record's property
   * names, so reading one gives `undefined`.
   */
  function Property(v: Json, key: string): Option<Option<Json>> {
    match v
    case JNull => None
    case JObject(fields) => Some(Field(fields, key))
    case _ => Some(None)
  }

  /** JavaScript truthiness of a possibly-undefined JSON value. */
  predicate Truthy(v: Option<Json>) {
    match v
    case None => false
    case Some(JNull) => false
    case Some(JBool(b)) => b
    case Some(JNumber(n)) => n != 0.0
    case Some(JString(s)) => s != ""
    case Some(_) => true
  }

  /** `typeof v === 'number'`. */
  predicate IsNumber(v: Option<Json>) {
    v.Some? && v.value.JNumber?
  }
}
