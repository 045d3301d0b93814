/**
 * A parsed JSON document, as a deserializer sees it. Numbers are split the
 * way serde_json splits them: a literal without fraction or exponent is an
 * integer, any other number literal is a floating-point value. Object members
 * keep the order and the repetitions of the text.
 */
module Json {

  datatype Json =
    | JNull
    | JBool(b: bool)
    | JInt(i: int)
    | JFloat(r: real)
    | JString(s: string)
    | JArray(items: seq<Json>)
    | JObject(members: seq<Member>)

  /** One `"key": value` pair of an object. */
  type Member = (string, Json)
}
