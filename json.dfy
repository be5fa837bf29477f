/**
 * JSON values (RFC 8259) as the agent handles them, and the JSON library as an
 * abstract collaborator: `json.loads` may reject its input, `json.dumps` is an
 * abstract serialiser.
 */
module JsonModel {
  import opened Wrappers

  /** A JSON value. Objects are dictionaries from member names to values. */
  datatype Json =
    | JNull
    | JBool(b: bool)
    | JInt(i: int)
    | JStr(s: string)
    | JArr(items: seq<Json>)
    | JObj(fields: map<string, Json>)

  /** The JSON library: a parser that fails on malformed text, and a serialiser. */
  datatype Codec = Codec(loads: string -> Option<Json>, dumps: Json -> string)

  /** `d.get(key)`: the member's value, or `null` when the key is absent. */
  function Get(d: map<string, Json>, key: string): (v: Json)
    ensures key in d ==> v == d[key]
    ensures key !in d ==> v == JNull
  {
    if key in d then d[key] else JNull
  }
}
