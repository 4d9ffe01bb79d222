/** Parsed JSON values as a Python program sees them after `json.loads`, and
    the three Python operations the upload script applies to them: subscript
    by key or by index, item assignment, and the `in` test. Each raises the
    exception Python raises for a value of the wrong shape. */
module PyJson {
  import opened Wrappers

  /** A JSON document: `dict` for objects, `list` for arrays. Numbers are
      integers in this model. */
  datatype Json =
    | JNull
    | JBool(b: bool)
    | JNumber(n: int)
    | JString(s: string)
    | JArray(items: seq<Json>)
    | JObject(fields: map<string, Json>)

  /** The exceptions the modelled Python code can raise. */
  datatype PyError =
    | AssertionError(returnCode: int)  // a failed `assert`
    | JSONDecodeError                  // `json.loads` on text that is not JSON
    | KeyError                         // missing dict key
    | IndexError                       // list or str index out of range
    | TypeError                        // operation on a value of the wrong type
    | ValueError                       // raised explicitly by the script

  /** `j[k]` for a string key `k`. */
  function GetItem(j: Json, k: string): Result<Json, PyError>
  {
    match j
    case JObject(fields) => if k in fields then Success(fields[k]) else Failure(KeyError)
    case _ => Failure(TypeError)
  }

  /** `j[i]` for a non-negative integer index `i`. A JSON object's keys are
      strings, so an integer key is never found in it. */
  function GetIndex(j: Json, i: nat): Result<Json, PyError>
  {
    match j
    case JArray(items) => if i < |items| then Success(items[i]) else Failure(IndexError)
    case JString(s) => if i < |s| then Success(JString([s[i]])) else Failure(IndexError)
    case JObject(_) => Failure(KeyError)
    case _ => Failure(TypeError)
  }

  /** `j[k] = v` for a string key `k`, giving the updated value; only a dict
      supports item assignment with a string key. */
  function SetItem(j: Json, k: string, v: Json): Result<Json, PyError>
  {
    match j
    case JObject(fields) => Success(JObject(fields[k := v]))
    case _ => Failure(TypeError)
  }

  /** Whether `k` occurs as a contiguous piece of `s`. */
  predicate Occurs(k: string, s: string)
  {
    k <= s || (s != [] && Occurs(k, s[1..]))
  }

  /** `k in j` for a string `k`: key membership for a dict, element
      membership for a list, substring for a str; other values are not
      iterable. */
  function Contains(j: Json, k: string): Result<bool, PyError>
  {
    match j
    case JObject(fields) => Success(k in fields)
    case JArray(items) => Success(JString(k) in items)
    case JString(s) => Success(Occurs(k, s))
    case _ => Failure(TypeError)
  }

  /** The value reached by following `path` through nested objects, if every
      step finds its key: the reference reading of a chain of subscripts. */
  function Lookup(j: Json, path: seq<string>): Option<Json>
  {
    if path == [] then Some(j)
    else if j.JObject? && path[0] in j.fields then Lookup(j.fields[path[0]], path[1..])
    else None
  }
}
