/** JSON documents as the Python code sees them after parsing. Python's
    `None` and JSON `null` are the same value there, so `JNull` stands for both. */
module Json {
  import opened Outcomes

  datatype Json =
    | JNull
    | JBool(b: bool)
    | JNum(n: int)
    | JStr(s: string)
    | JArr(items: seq<Json>)
    | JObj(fields: map<string, Json>)

  /** `dict.get(key)`: the value under `key`, or `None` when the key is absent. */
  function Get(m: map<string, Json>, key: string): (r: Json)
    ensures key in m ==> r == m[key]
    ensures key !in m ==> r == JNull
  {
    if key in m then m[key] else JNull
  }

  /** `doc[key]`: fails with a KeyError on a missing key and with a TypeError
      when `doc` is not an object. */
  function Index(doc: Json, key: string): (r: Result<Json>)
    ensures r.Ok? <==> doc.JObj? && key in doc.fields
    ensures r.Ok? ==> r.value == doc.fields[key]
    ensures !doc.JObj? ==> r == Err(NotAnObject)
    ensures doc.JObj? && key !in doc.fields ==> r == Err(MissingKey(key))
  {
    match doc
    case JObj(fields) => if key in fields then Ok(fields[key]) else Err(MissingKey(key))
    case _ => Err(NotAnObject)
  }
}
