/**
 * Structured data as the service's JSON responses carry it, and the
 * failures that reading a field out of it can raise.
 */
module Json {
  import opened Results

  /** A decoded JSON value. Numbers are integers: every numeric field read here is an integer. */
  datatype Json =
    | JNull
    | JBool(b: bool)
    | JNumber(n: int)
    | JString(s: string)
    | JArray(items: seq<Json>)
    | JObject(fields: map<string, Json>)

  /**
   * Why a conversion from a payload failed. MissingKey stands for Python's
   * KeyError (the only failure the client re-raises as a DuneError);
   * InvalidValue and NotAnObject stand for the TypeError or ValueError a
   * value of the wrong shape raises.
   */
  datatype ParseError =
    | MissingKey(key: string)
    | InvalidValue(key: string)
    | NotAnObject

  /** The key is absent or bound to null: `data.get(key)` gives None. */
  predicate Absent(fields: map<string, Json>, key: string) {
    key !in fields || fields[key] == JNull
  }

  /** `data[key]`: the bound value, or a KeyError. */
  function Required(fields: map<string, Json>, key: string): (r: Result<Json, ParseError>)
    ensures r.Ok? <==> key in fields
    ensures r.Ok? ==> r.value == fields[key]
    ensures r.Err? ==> r.error == MissingKey(key)
  {
    if key in fields then Ok(fields[key]) else Err(MissingKey(key))
  }

  /** A required string field. */
  function RequiredString(fields: map<string, Json>, key: string): (r: Result<string, ParseError>)
    ensures r.Ok? <==> key in fields && fields[key].JString?
    ensures r.Ok? ==> r.value == fields[key].s
    ensures r.Err? ==> r.error == if key in fields then InvalidValue(key) else MissingKey(key)
  {
    var v :- Required(fields, key);
    if v.JString? then Ok(v.s) else Err(InvalidValue(key))
  }

  /** A required integer field. */
  function RequiredInt(fields: map<string, Json>, key: string): (r: Result<int, ParseError>)
    ensures r.Ok? <==> key in fields && fields[key].JNumber?
    ensures r.Ok? ==> r.value == fields[key].n
    ensures r.Err? ==> r.error == if key in fields then InvalidValue(key) else MissingKey(key)
  {
    var v :- Required(fields, key);
    if v.JNumber? then Ok(v.n) else Err(InvalidValue(key))
  }

  /** The fields of a payload that must be an object. */
  function Fields(data: Json): (r: Result<map<string, Json>, ParseError>)
    ensures r.Ok? <==> data.JObject?
    ensures r.Ok? ==> r.value == data.fields
    ensures r.Err? ==> r.error == NotAnObject
  {
    if data.JObject? then Ok(data.fields) else Err(NotAnObject)
  }
}
