/** The document store's JSON values, as the DAOs use them: a document is a
    string key with a JSON object as content, and a JSON object is a
    string-keyed map. Java's null (a missing key, or a key bound to null)
    reads back as None. */
module Json {
  import opened Wrappers

  datatype Json =
    | JNull
    | JNumber(n: int)
    | JString(s: string)
    | JObject(fields: map<string, Json>)

  type JsonObject = map<string, Json>

  datatype JsonDocument = JsonDocument(id: string, content: JsonObject)

  /** The Java exceptions the model raises: a failed cast, and a null
      dereference. The decoders' NumberFormatException and
      IllegalArgumentException are caught where they arise and read as None. */
  datatype JavaException = ClassCast | NullPointer

  /** The JSON value stored by `put(key, s)` for a Java String that may be null. */
  function FromString(s: Option<string>): Json {
    match s
    case None => JNull
    case Some(v) => JString(v)
  }

  /** `o.getString(key)`: null for a missing or null entry, the string for a
      string entry, and a ClassCastException for any other entry. */
  function GetString(o: JsonObject, key: string): (r: Result<Option<string>, JavaException>)
    ensures r.Ok? && r.value.Some? <==> key in o && o[key].JString?
    ensures r.Ok? && r.value.Some? ==> o[key] == JString(r.value.value)
    ensures r.Err? <==> key in o && !o[key].JNull? && !o[key].JString?
  {
    if key !in o then Ok(None)
    else match o[key]
      case JNull => Ok(None)
      case JString(s) => Ok(Some(s))
      case _ => Err(ClassCast)
  }

  /** `(JsonObject) o.get(key)`: null for a missing or null entry, the object
      for an object entry, and a ClassCastException for any other entry. */
  function GetObject(o: JsonObject, key: string): (r: Result<Option<JsonObject>, JavaException>)
    ensures r.Ok? && r.value.Some? <==> key in o && o[key].JObject?
    ensures r.Ok? && r.value.Some? ==> o[key] == JObject(r.value.value)
    ensures r.Err? <==> key in o && !o[key].JNull? && !o[key].JObject?
  {
    if key !in o then Ok(None)
    else match o[key]
      case JNull => Ok(None)
      case JObject(m) => Ok(Some(m))
      case _ => Err(ClassCast)
  }

  /** What `put(key, s)` stores, `getString(key)` gives back, null included. */
  lemma GetStringOfFromString(o: JsonObject, key: string, s: Option<string>)
    ensures GetString(o[key := FromString(s)], key) == Ok(s)
  {
  }
}
