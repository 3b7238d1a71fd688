/**
 * JSON values and the two JSON operations the adapter uses. Parsing and
 * serialising are not modelled: a `JsonCodec` carries them as given functions.
 */
module JsonModel {
  import opened Wrappers

  /** A JSON value. A number keeps its literal text, so no floating point is involved. */
  datatype Json =
    | JNull
    | JBool(b: bool)
    | JNumber(literal: string)
    | JString(s: string)
    | JArray(items: seq<Json>)
    | JObject(members: seq<(string, Json)>)

  /** The value `{}`. */
  const EmptyObject: Json := JObject([])

  /** `JSON.parse` on a value (`None` when it throws) and `JSON.stringify`. */
  datatype JsonCodec = JsonCodec(parse: string -> Option<Json>, stringify: Json -> string)
}
