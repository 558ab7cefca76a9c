/**
 * Values shared by the whole model: an optional value (JavaScript's `undefined`
 * is `None`), the JSON values that travel through the protocol server, the
 * truthiness test JavaScript applies to them, and the outcome of a call into
 * code outside the model (it returns a value or throws an error with a message).
 */
module Values {

  datatype Option<+T> = None | Some(value: T)

  /** A JSON value. Numbers are integers: no request path here looks at fractions. */
  datatype Json =
    | JNull
    | JBool(b: bool)
    | JNum(n: int)
    | JStr(s: string)
    | JArr(items: seq<Json>)
    | JObj(fields: map<string, Json>)

  /** JavaScript truthiness: `null`, `false`, `0` and `""` are falsy, everything else is truthy. */
  predicate Truthy(j: Json) {
    match j
    case JNull => false
    case JBool(b) => b
    case JNum(n) => n != 0
    case JStr(s) => s != ""
    case JArr(_) => true
    case JObj(_) => true
  }

  /** Truthiness of a value that may be `undefined`. */
  predicate TruthyOpt(j: Option<Json>) {
    j.Some? && Truthy(j.value)
  }

  /** The outcome of a call into code the model cannot see. */
  datatype Attempt<+T> = Returned(value: T) | Threw(message: string)

  /** A string-keyed record lifted to a JSON object. */
  function StringsToJson(m: map<string, string>): (r: map<string, Json>)
    ensures r.Keys == m.Keys
    ensures forall k :: k in m ==> r[k] == JStr(m[k])
  {
    map k | k in m :: JStr(m[k])
  }

  /** Concatenation regroups freely. */
  lemma AppendAssoc<T>(x: seq<T>, y: seq<T>, z: seq<T>)
    ensures (x + y) + z == x + (y + z)
  {
  }
}
