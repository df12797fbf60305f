/** The text columns that hold JSON: `json_to_text` and `text_to_json` of
    database/database_manager.py. `json.dumps` and `json.loads` are given as
    parameters: `dumps` is only consulted on values it accepts, and `loads`
    answers `None` for text that is not JSON. */
module DbJson {
  import opened Wrappers
  import opened Json

  /** `json_to_text`: `None` becomes the empty text, a string is stored as it
      is, anything else is serialised; `None` here is the `TypeError` that
      `json.dumps` raises on a value it cannot encode. */
  function JsonToText(v: Value, dumps: Value -> string): (r: Option<string>)
    ensures r.None? <==> !Encodable(v)
    ensures v == Null ==> r == Some("")
    ensures v.Str? ==> r == Some(v.s)
  {
    match v
    case Null => Some("")
    case Str(s) => Some(s)
    case _ => if Encodable(v) then Some(dumps(v)) else None
  }

  /** `text_to_json`: empty text reads as `None`, JSON text as its value, and
      any other text as itself. */
  function TextToJson(text: string, loads: string -> Option<Value>): (r: Value)
    ensures text == "" ==> r == Null
    ensures text != "" && loads(text).None? ==> r == Str(text)
    ensures text != "" && loads(text).Some? ==> r == loads(text).value
  {
    if text == "" then Null
    else match loads(text)
      case Some(v) => v
      case None => Str(text)
  }

  /** Which stored strings come back as themselves: a non-empty text that is
      not JSON, or one that is the JSON spelling of itself. The empty string
      comes back as `None`, and a string such as "123" as a number. */
  lemma StringRoundTrip(s: string, dumps: Value -> string, loads: string -> Option<Value>)
    ensures JsonToText(Str(s), dumps) == Some(s)
    ensures TextToJson(s, loads) == Str(s) <==> s != "" && (loads(s).None? || loads(s) == Some(Str(s)))
  {
  }

  /** A container or scalar that `json.loads` reads back from its own
      serialisation survives a store and load. */
  lemma StructuredRoundTrip(v: Value, dumps: Value -> string, loads: string -> Option<Value>)
    requires Encodable(v) && !v.Null? && !v.Str?
    requires dumps(v) != "" && loads(dumps(v)) == Some(v)
    ensures JsonToText(v, dumps).Some?
    ensures TextToJson(JsonToText(v, dumps).value, loads) == v
  {
  }
}
