/** JSON values as the API sends and receives them. Numbers are integers
    here: the numbers the core inspects (counts, offsets, quantization,
    timeshift) are integers, and values that only pass through (row maps,
    time-series entries) are limited to integers, which loses nothing the
    core looks at. */
module Json {

  datatype JValue =
    | JNull
    | JBool(b: bool)
    | JNum(n: int)
    | JStr(s: string)
    | JArr(items: seq<JValue>)
    | JObj(members: map<string, JValue>)

  /** A JSON object: a row map, a metadata block, an output record. */
  type Record = map<string, JValue>
}
