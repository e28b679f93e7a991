/**
 * JSON values as `encoding/json` hands them to Go code that decodes into
 * `map[string]interface{}`: numbers arrive as float64 (here an exact `real`).
 * Parsing text into this type is done by the standard library and is not
 * modelled; callers receive the parser as a function.
 */
module Json {
  import opened Wrappers

  datatype Json =
    | JNull
    | JBool(b: bool)
    | JNumber(n: real)
    | JString(s: string)
    | JArray(items: seq<Json>)
    | JObject(members: map<string, Json>)

  /**
   * Decoding a document into a Go `map[string]interface{}`: an object yields its
   * members, `null` leaves the map nil (reads of a nil map find nothing), and any
   * other document is a type error.
   */
  function AsObject(j: Json): (r: Option<map<string, Json>>)
    ensures j.JObject? ==> r == Some(j.members)
    ensures j.JNull? ==> r == Some(map[])
    ensures r.None? <==> !j.JObject? && !j.JNull?
  {
    match j
    case JObject(m) => Some(m)
    case JNull => Some(map[])
    case _ => None
  }

  /** `v, _ := claims[k].(string)`: the string stored under `k`, or "" when absent or not a string. */
  function StringClaim(claims: map<string, Json>, k: string): (v: string)
    ensures v != "" ==> k in claims && claims[k] == JString(v)
    ensures k in claims && claims[k].JString? ==> v == claims[k].s
  {
    if k in claims && claims[k].JString? then claims[k].s else ""
  }

  /** `v, _ := claims[k].(float64)`: the number stored under `k`, or 0 when absent or not a number. */
  function NumberClaim(claims: map<string, Json>, k: string): (v: real)
    ensures k in claims && claims[k].JNumber? ==> v == claims[k].n
    ensures !(k in claims && claims[k].JNumber?) ==> v == 0.0
  {
    if k in claims && claims[k].JNumber? then claims[k].n else 0.0
  }

  /** Go's `int64(f)` conversion: the fraction is discarded, rounding toward zero. */
  function TruncateToInt(f: real): (i: int)
    ensures 0.0 <= f ==> 0 <= i && i as real <= f < i as real + 1.0
    ensures f < 0.0 ==> i <= 0 && i as real - 1.0 < f <= i as real
  {
    if f >= 0.0 then f.Floor else -((-f).Floor)
  }
}
