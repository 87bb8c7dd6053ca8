/**
 * JSON values as encoding/json hands them to a map[string]interface{}: the parse itself
 * is an oracle, and what the provider does with the result is modelled here.
 */
module Json {
  import opened Wrappers
  import opened Utf8

  /** A decoded JSON value; a number keeps its literal text, as its float64 formatting is not modelled. */
  datatype Json =
    | JNull
    | JBool(b: bool)
    | JNumber(literal: string)
    | JString(s: string)
    | JArray(items: seq<Json>)
    | JObject(fields: map<string, Json>)

  /** json.Unmarshal's parse of a byte slice: None when the text is not JSON. */
  type Parser = Bytes -> Option<Json>

  /** fmt.Sprintf("%v", value) for a decoded value. */
  type Formatter = Json -> string

  /**
   * json.Unmarshal into a map[string]interface{}: an object gives its fields, null leaves
   * the map nil (no keys, no error), anything else is an error.
   */
  function UnmarshalObject(parsed: Option<Json>): (r: Option<map<string, Json>>)
    ensures r.Some? <==> parsed == Some(JNull) || (parsed.Some? && parsed.value.JObject?)
    ensures parsed == Some(JNull) ==> r == Some(map[])
    ensures parsed.Some? && parsed.value.JObject? ==> r == Some(parsed.value.fields)
  {
    match parsed
    case Some(JNull) => Some(map[])
    case Some(JObject(fields)) => Some(fields)
    case _ => None
  }

  /** The text a value is stored as: a string as it is, anything else formatted. */
  function Render(j: Json, format: Formatter): string {
    if j.JString? then j.s else format(j)
  }

  /** parsed_data: one entry per top-level key. */
  function ParsedData(fields: map<string, Json>, format: Formatter): (r: map<string, string>)
    ensures r.Keys == fields.Keys
    ensures forall k :: k in fields && fields[k].JString? ==> r[k] == fields[k].s
    ensures forall k :: k in fields && !fields[k].JString? ==> r[k] == format(fields[k])
  {
    map k | k in fields :: Render(fields[k], format)
  }

  /** The loop that fills parsed_data from the decoded map, in whatever order the map yields. */
  method Project(fields: map<string, Json>, format: Formatter) returns (r: map<string, string>)
    ensures r == ParsedData(fields, format)
  {
    r := map[];
    var todo := fields.Keys;
    while todo != {}
      invariant todo <= fields.Keys
      invariant r.Keys == fields.Keys - todo
      invariant forall k :: k in r ==> r[k] == Render(fields[k], format)
      decreases |todo|
    {
      var key :| key in todo;
      var value := fields[key];
      if value.JString? {
        r := r[key := value.s];
      } else {
        r := r[key := format(value)];
      }
      todo := todo - {key};
    }
  }

  /** The id a created object is given: its "id" when that is a JSON string, else the fallback. */
  function IdFrom(decoded: Option<map<string, Json>>, fallback: string): (id: string)
    ensures (decoded.Some? && "id" in decoded.value && decoded.value["id"].JString?) ==> id == decoded.value["id"].s
    ensures !(decoded.Some? && "id" in decoded.value && decoded.value["id"].JString?) ==> id == fallback
  {
    match decoded
    case Some(fields) => if "id" in fields && fields["id"].JString? then fields["id"].s else fallback
    case None => fallback
  }

  /** A body that is not JSON, is null, is not an object, or has no string "id" keeps the fallback. */
  lemma IdFallback(parsed: Option<Json>, fallback: string)
    requires parsed.None? || parsed == Some(JNull) || !parsed.value.JObject?
             || "id" !in parsed.value.fields || !parsed.value.fields["id"].JString?
    ensures IdFrom(UnmarshalObject(parsed), fallback) == fallback
  {
  }
}
