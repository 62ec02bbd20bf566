/**
 * Decoded JSON payloads as the fetchers receive them, and the Python
 * subscript operations the constructors apply to them, with the exception
 * each one raises when the payload does not have the expected shape.
 */
module Json {
  import opened Wrappers

  /** A decoded JSON value. Numbers are integers only. */
  datatype Json =
    | JNull
    | JBool(b: bool)
    | JNum(n: int)
    | JStr(s: string)
    | JArr(items: seq<Json>)
    | JObj(fields: map<string, Json>)

  /** The Python exceptions the core can raise; `NoSuchPage` is a list page the server model does not describe. */
  datatype Error =
    | KeyError(key: Json)
    | IndexError
    | TypeError
    | AttributeError(name: string)
    | NoSuchPage(page: int)

  /** `j[key]` for a string key. */
  function Index(j: Json, key: string): (r: Result<Json, Error>)
    ensures r.Ok? <==> j.JObj? && key in j.fields
    ensures r.Ok? ==> r.value == j.fields[key]
    ensures j.JObj? && key !in j.fields ==> r == Err(KeyError(JStr(key)))
  {
    match j
    case JObj(fields) => if key in fields then Ok(fields[key]) else Err(KeyError(JStr(key)))
    case _ => Err(TypeError)
  }

  /** `j[0]`: the first element of a list, or the first character of a string. */
  function First(j: Json): Result<Json, Error>
  {
    match j
    case JArr(items) => if |items| > 0 then Ok(items[0]) else Err(IndexError)
    case JStr(s) => if |s| > 0 then Ok(JStr([s[0]])) else Err(IndexError)
    case JObj(_) => Err(KeyError(JNum(0)))
    case _ => Err(TypeError)
  }

  /** `body['data'][0]`, the record a single-entity response carries. */
  function Record(body: Json): (r: Result<Json, Error>)
    ensures body.JObj? && "data" in body.fields && body.fields["data"].JArr? && |body.fields["data"].items| > 0
            ==> r == Ok(body.fields["data"].items[0])
    ensures body.JObj? && "data" in body.fields && body.fields["data"] == JArr([]) ==> r == Err(IndexError)
  {
    var data :- Index(body, "data");
    First(data)
  }

  /** The values `for x in j` visits: list elements, or the characters of a string. */
  function Elements(j: Json): (r: Result<seq<Json>, Error>)
    ensures j.JArr? ==> r == Ok(j.items)
    ensures j.JStr? ==> r.Ok? && |r.value| == |j.s| && forall i :: 0 <= i < |j.s| ==> r.value[i] == JStr([j.s[i]])
  {
    match j
    case JArr(items) => Ok(items)
    case JStr(s) => Ok(seq(|s|, i requires 0 <= i < |s| => JStr([s[i]])))
    case _ => Err(TypeError)
  }

  /** Python truthiness of a decoded JSON value, as `if value:` tests it. */
  predicate Truthy(j: Json)
  {
    match j
    case JNull => false
    case JBool(b) => b
    case JNum(n) => n != 0
    case JStr(s) => s != []
    case JArr(items) => items != []
    case JObj(fields) => fields != map[]
  }

  /** A guid the fetchers treat as missing: `guid is None or guid == ''`. */
  predicate Absent(guid: Json) {
    guid == JNull || guid == JStr("")
  }
}
