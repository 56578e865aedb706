/** The Python values `json.loads` produces, used for the model's reply and
    for the price cache file. */
module Json {

  datatype Json =
    | JNull                         // None
    | JBool(b: bool)
    | JInt(i: int)                  // a JSON number without fraction or exponent
    | JFloat(r: real)
    | JStr(s: string)
    | JArr(items: seq<Json>)        // list
    | JObj(fields: map<string, Json>)  // dict

  /** `d.get(key, default)` on a dict. */
  function GetOr(fields: map<string, Json>, key: string, default: Json): (v: Json)
    ensures key in fields ==> v == fields[key]
    ensures key !in fields ==> v == default
  {
    if key in fields then fields[key] else default
  }

  /** The name Python gives the type of a decoded value, as it appears in an
      `AttributeError` message. */
  function TypeName(j: Json): string
  {
    match j
    case JNull => "NoneType"
    case JBool(_) => "bool"
    case JInt(_) => "int"
    case JFloat(_) => "float"
    case JStr(_) => "str"
    case JArr(_) => "list"
    case JObj(_) => "dict"
  }
}
