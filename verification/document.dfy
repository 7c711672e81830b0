/**
 * The generic structured document exchanged with the search engine: the JSON value that
 * `encoding/json` produces from a struct and parses back into one. Objects are key -> value maps,
 * so the order of keys on the wire is not modelled.
 */
module Document {

  datatype Json =
    | Null
    | Bool(b: bool)
    | Number(n: int)
    | Str(s: string)
    | Array(elems: seq<Json>)
    | Object(fields: map<string, Json>)

  /**
   * A document body as the engine hands it back: either text that is not JSON at all
   * (a syntax error, which `json.Unmarshal` reports before touching its target) or a JSON value.
   */
  datatype Source = Malformed | Body(json: Json)
}
