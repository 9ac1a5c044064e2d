/**
 * The part of org.json the storage handlers rely on. Parsing and printing
 * are not modelled: they are a `Codec` of functions the caller supplies,
 * and the round-trip property the loaders need of them is stated as a
 * predicate that lemmas take as a hypothesis.
 */
module Json {
  import opened Results
  import opened Files

  /** A member value: a JSON string, or any other value kept as its text. */
  datatype JsonValue = JString(s: string) | JOther(text: string)

  type JsonObject = map<string, JsonValue>

  /** An element of a JSON array: an object, or some other value. */
  datatype JsonElement = JObject(fields: JsonObject) | JNonObject(text: string)

  datatype Codec = Codec(
    parse: string -> Option<seq<JsonElement>>,  // new JSONArray(text); None when it throws JSONException
    render: seq<JsonElement> -> string,         // JSONArray.toString(4)
    renderObject: JsonObject -> string)         // JSONObject.toString(4)

  /** `getString(key)`: the string value of a member; None when org.json throws (no member, or not a string). */
  function GetString(o: JsonObject, key: string): (r: Option<string>)
    ensures r.Some? <==> key in o && o[key].JString?
    ensures r.Some? ==> o[key] == JString(r.value)
  {
    if key in o && o[key].JString? then Some(o[key].s) else None
  }

  /** `new JSONArray().toString(4)` is the two characters "[]". */
  predicate RendersEmptyAsBrackets(codec: Codec)
  {
    codec.render([]) == "[]"
  }

  /**
   * What the loaders need of the codec to read back what the handlers
   * wrote: a rendered array is non-empty text, and parsing it after its
   * line terminators are dropped gives the same elements.
   */
  ghost predicate ReadsBackRendered(codec: Codec)
  {
    forall es: seq<JsonElement> {:trigger codec.render(es)} ::
      codec.render(es) != [] && codec.parse(Unbroken(codec.render(es))) == Some(es)
  }
}
