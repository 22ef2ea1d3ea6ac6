/** A parsed JSON document, reduced to the shapes the command consumer tells apart. */
module Json {
  import opened Wrappers

  /** `JObject` stands for a Vert.x `JsonObject`, `JArray` for a `JsonArray`; a number
      keeps its literal text, so that distinct numbers stay distinct without arithmetic. */
  datatype Json =
    | JObject(fields: map<string, Json>)
    | JArray(items: seq<Json>)
    | JString(str: string)
    | JNumber(literal: string)
    | JBool(b: bool)
    | JNull

  /** `getString(key)` of a JSON object: the string stored under `key`, or None when the
      key is absent or its value is not a string. */
  function GetString(fields: map<string, Json>, key: string): Option<string>
  {
    if key in fields && fields[key].JString? then Some(fields[key].str) else None
  }

  /** `getJsonObject(key)` of a JSON object: the object stored under `key`, or None when
      the key is absent, its value is `null`, or it is not an object (where Vert.x throws). */
  function GetObject(fields: map<string, Json>, key: string): Option<map<string, Json>>
  {
    if key in fields && fields[key].JObject? then Some(fields[key].fields) else None
  }
}
