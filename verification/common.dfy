/** Shared vocabulary: optional values, identifiers, parsed JSON values and
    the few string operations several handlers use. */
module Common {

  datatype Option<+T> = None | Some(value: T)

  /** Primary keys are opaque strings generated by the store. */
  type Id = string

  /** A parsed JSON value, as a request body delivers it. Numbers are split
      into integers and non-integers; a non-integer keeps only its floor
      (it lies strictly between `floor` and `floor + 1`), which is all the
      validators ever compare. */
  datatype Json =
    | JUndefined
    | JNull
    | JBool(b: bool)
    | JInt(i: int)
    | JFrac(floor: int)
    | JStr(s: string)
    | JArray
    | JObject(fields: map<string, Json>)

  /** JavaScript truthiness of a JSON value. */
  predicate Truthy(j: Json) {
    match j
    case JUndefined => false
    case JNull => false
    case JBool(b) => b
    case JInt(i) => i != 0
    case JFrac(_) => true
    case JStr(s) => s != ""
    case JArray => true
    case JObject(_) => true
  }

  /** Property access `j.key`: a missing key, or a value that is not an
      object, reads as undefined. */
  function Get(j: Json, key: string): Json {
    if j.JObject? && key in j.fields then j.fields[key] else JUndefined
  }

  /** Truthiness of a `string | null`, such as a header or an environment variable. */
  predicate Present(s: Option<string>) {
    s.Some? && s.value != ""
  }

  /** The text before the first `sep` in `s`, or all of `s` when it has none:
      what `s.split(sep)[0]` returns. */
  function TakeUntil(s: string, sep: char): (r: string)
    ensures r <= s
    ensures sep !in r
    ensures |r| < |s| ==> s[|r|] == sep
  {
    if s == [] then []
    else if s[0] == sep then []
    else [s[0]] + TakeUntil(s[1..], sep)
  }

  /** The three facts above pin the result down: any prefix without `sep`
      that stops at `sep` or at the end is the one `TakeUntil` returns. */
  lemma TakeUntilUnique(s: string, sep: char, r: string)
    requires r <= s && sep !in r
    requires |r| < |s| ==> s[|r|] == sep
    ensures r == TakeUntil(s, sep)
  {
  }
}
