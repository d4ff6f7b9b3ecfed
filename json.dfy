/** The JSON values the client sends as request bodies. */
module Json {
  datatype Json =
    | JNull
    | JBool(b: bool)
    | JInt(i: int)
    | JStr(s: string)
    | JArray(items: seq<Json>)
    | JObject(fields: map<string, Json>)

  /**
   * A value replaced by the empty object unless it is already an object:
   * what `post` does to its payload and `create_data_source` to its options
   * (`if x is None or not isinstance(x, dict): x = {}`).
   */
  function ObjectOrEmpty(v: Json): (o: Json)
    ensures o.JObject?
    ensures v.JObject? ==> o == v
    ensures !v.JObject? ==> o.fields == map[]
  {
    if v.JObject? then v else JObject(map[])
  }
}
