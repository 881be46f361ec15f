/** How the adapters read fields of a decoded JSON object.  A malformed field is
    always the same error, so `None` stands for it. */
module Access {
  import opened Wrappers
  import opened Json
  import opened JsonParser
  import opened Numerals
  import opened Utf8

  function AsObject(v: JsonValue): Option<seq<Member>> {
    if v.Object? then Some(v.fields) else None
  }

  function RequiredObject(fields: seq<Member>, name: string): Option<seq<Member>> {
    match Field(fields, name)
    case Some(Object(inner)) => Some(inner)
    case _ => None
  }

  function RequiredArray(fields: seq<Member>, name: string): Option<seq<JsonValue>> {
    match Field(fields, name)
    case Some(Array(items)) => Some(items)
    case _ => None
  }

  function RequiredString(fields: seq<Member>, name: string): Option<string> {
    match Field(fields, name)
    case Some(String(s)) => Some(s)
    case _ => None
  }

  /** Absent, or a string. */
  function OptionalString(fields: seq<Member>, name: string): Option<Option<string>> {
    match Field(fields, name)
    case None => Some(None)
    case Some(String(s)) => Some(Some(s))
    case _ => None
  }

  /** `unsigned`. */
  function Unsigned(v: JsonValue): Option<nat> {
    if v.Number? then ParseUnsigned(v.lexeme, U64_MAX) else None
  }

  function RequiredUnsigned(fields: seq<Member>, name: string): Option<nat> {
    match Field(fields, name)
    case None => None
    case Some(v) => Unsigned(v)
  }

  /** `decode_json_object` of the bytes of one event. */
  function DecodePayload(payload: seq<byte>): Option<seq<Member>> {
    match FromBytes(payload)
    case None => None
    case Some(text) =>
      match DecodeObject(text)
      case Err(_) => None
      case Ok(fields) => Some(fields)
  }
}
