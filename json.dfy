/**
 * The structured values exchanged between the reference-data client, the
 * fetcher and the persister (Gson's JsonElement tree).
 */
module Json {

  datatype Json =
    | JsonNull
    | JsonPrimitive(literal: string)
    | JsonArray(elements: seq<Json>)
    | JsonObject(members: seq<JsonMember>)

  datatype JsonMember = JsonMember(name: string, value: Json)

  /** The byte type of serialised data. */
  type byte = b: int | 0 <= b < 256
}
