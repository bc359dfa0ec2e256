/**
 * The part of a JSON document library that attribute records are read with:
 * a JSON value, the exceptions the library throws, and the two accessors
 * `value.at(key)` and `value.get<std::string>()` whose failures decide how an
 * attribute record is rejected.
 */
module Json {
  import opened Wrappers

  /** A JSON value. Objects map each key to one value (keys are unique). */
  datatype Value =
    | Null
    | Boolean(b: bool)
    | Number(n: int)
    | String(s: string)
    | Array(items: seq<Value>)
    | Object(fields: map<string, Value>)

  /** The two exception families of the library that matter here, and any other. */
  datatype Exception =
    | TypeError(what: string)   // the value has the wrong JSON type for the request
    | OutOfRange(what: string)  // a key or index that is not there
    | OtherError(what: string)  // anything else a fill hook may throw

  /** The library's name for the JSON type of a value, as used in its messages. */
  function TypeName(v: Value): string {
    match v
    case Null => "null"
    case Boolean(_) => "boolean"
    case Number(_) => "number"
    case String(_) => "string"
    case Array(_) => "array"
    case Object(_) => "object"
  }

  /**
   * `v.at(key)` on a const value: a value that is not an object raises a type
   * error; an object without the key raises out_of_range. Each message carries
   * the library's exception id prefix, as `what()` returns it.
   */
  function At(v: Value, key: string): (r: Result<Value, Exception>)
    ensures r.Success? <==> v.Object? && key in v.fields
    ensures r.Success? ==> r.value == v.fields[key]
    ensures r.Failure? && r.error.TypeError? <==> !v.Object?
    ensures r.Failure? && r.error.OutOfRange? <==> v.Object? && key !in v.fields
  {
    match v
    case Object(fields) =>
      if key in fields then Success(fields[key])
      else Failure(OutOfRange("[json.exception.out_of_range.403] key '" + key + "' not found"))
    case _ => Failure(TypeError("[json.exception.type_error.304] cannot use at() with " + TypeName(v)))
  }

  /** `v.get<std::string>()`: only a JSON string converts to a string. */
  function GetString(v: Value): (r: Result<string, Exception>)
    ensures r.Success? <==> v.String?
    ensures r.Success? ==> r.value == v.s
    ensures r.Failure? ==> r.error.TypeError?
  {
    match v
    case String(s) => Success(s)
    case _ => Failure(TypeError("[json.exception.type_error.302] type must be string, but is " + TypeName(v)))
  }
}
