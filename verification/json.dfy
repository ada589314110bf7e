/** JSON values as the provider sends them and as the error handler renders them. */
module Json {
  import opened Runtime

  datatype Json =
    | JNull
    | JBool(b: bool)
    | JNum(n: int)
    | JStr(s: string)
    | JArr(items: seq<Json>)
    | JObj(fields: map<string, Json>)

  /** Python's `value[key]` on a decoded JSON value: only an object holding
      the key answers; an object without it raises KeyError, anything else
      raises TypeError. */
  function Subscript(j: Json, key: string): (r: Result<Json, Exception>)
    ensures r.Success? <==> j.JObj? && key in j.fields
    ensures r.Success? ==> r.value == j.fields[key]
    ensures r.Failure? && j.JObj? ==> r.error == KeyError(key)
    ensures r.Failure? && !j.JObj? ==> r.error == TypeError
  {
    match j
    case JObj(fields) =>
      if key in fields then Success(fields[key]) else Failure(KeyError(key))
    case _ => Failure(TypeError)
  }
}
