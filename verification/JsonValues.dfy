/** JSON values as the JSON library holds them: it keeps signed and unsigned integers apart. */
module JsonValues {
  import opened Integers

  datatype Json =
    | JNull
    | JBool(flag: bool)
    | JInt(number: Int64)
    | JUnsigned(magnitude: UInt64)
    | JFloat(amount: real)
    | JText(text: string)
    | JArray(elements: seq<Json>)
    | JObject(members: map<string, Json>)
}
