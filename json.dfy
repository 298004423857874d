/** JSON values as the client handles them, their JavaScript truthiness, and
    `JSON.stringify` / `JSON.parse` as an abstract pair of functions. */
module Json {
  import opened Wrappers

  /** A JSON value. Numbers are integers (floating point is not modelled);
      object members keep their order, as JavaScript objects do. */
  datatype Json =
    | JNull
    | JBool(b: bool)
    | JNumber(n: int)
    | JString(s: string)
    | JArray(items: seq<Json>)
    | JObject(members: seq<(string, Json)>)

  /** The JSON values JavaScript treats as false in `x || y`. Arrays and
      objects are truthy, even when empty. */
  predicate Falsy(j: Json)
    ensures Falsy(j) ==> !j.JArray? && !j.JObject?
  {
    j == JNull || j == JBool(false) || j == JNumber(0) || j == JString("")
  }

  /** `JSON.stringify` and `JSON.parse`; `parse` yields None where it throws a
      SyntaxError. */
  datatype Codec = Codec(stringify: Json -> string, parse: string -> Option<Json>)

  /** The only properties of the codec the model relies on: parsing what
      was stringified gives the value back, and parsing the text "undefined"
      (what `String(undefined)` yields) throws. */
  ghost predicate Lawful(c: Codec) {
    && (forall j :: c.parse(c.stringify(j)) == Some(j))
    && c.parse("undefined") == None
  }
}
