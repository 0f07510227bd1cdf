/** JSON values as `JSON.parse` produces them, and the JSON facility itself
    taken as a pair of functions about which only a round-trip law is known. */
module Json {
  import opened Wrappers

  /** A number as JSON text writes it, `mantissa × 10^exponent`. */
  datatype Decimal = Decimal(mantissa: int, exponent: int)

  /** The one form of each number: no trailing zero in the mantissa, and zero
      written `0 × 10^0`. Every double has exactly one such form. */
  predicate Canonical(d: Decimal) {
    if d.mantissa == 0 then d.exponent == 0 else d.mantissa % 10 != 0
  }

  type Number = d: Decimal | Canonical(d) witness Decimal(0, 0)

  /** Countably many values, as there are strings to write them in: a codec
      that round-trips every one of them can exist. */
  datatype Json =
    | JNull
    | JBool(b: bool)
    | JNumber(n: Number)
    | JString(s: string)
    | JArray(items: seq<Json>)
    | JObject(fields: map<string, Json>)

  /** JavaScript truthiness of a parsed value (`if (v)`, `!v`, `v || d`). */
  predicate Truthy(v: Json) {
    match v
    case JNull => false
    case JBool(b) => b
    case JNumber(n) => n.mantissa != 0
    case JString(s) => s != ""
    case JArray(_) => true
    case JObject(_) => true
  }

  /** `JSON.stringify` and `JSON.parse`; `parse` answers None where the real
      one throws a SyntaxError. */
  datatype Codec = Codec(stringify: Json -> string, parse: string -> Option<Json>)

  /** The round-trip law the session code relies on: parsing what was
      stringified gives the value back, and no value stringifies to the
      empty string. */
  ghost predicate Lawful(json: Codec) {
    forall v :: json.parse(json.stringify(v)) == Some(v) && json.stringify(v) != ""
  }
}
