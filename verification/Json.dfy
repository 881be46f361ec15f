/** JSON values as the gateway holds them, and the printers its components use.

    Numbers keep their source lexeme and objects keep their member order. */
module Json {
  import opened Wrappers

  datatype JsonValue =
    | Null
    | Bool(b: bool)
    | Number(lexeme: string)
    | String(text: string)
    | Array(items: seq<JsonValue>)
    | Object(fields: seq<Member>)

  datatype Member = Member(key: string, value: JsonValue)

  /** First member with the given name, as `field`/`get` look it up. */
  function Field(fields: seq<Member>, name: string): Option<JsonValue> {
    if fields == [] then None
    else if fields[0].key == name then Some(fields[0].value)
    else Field(fields[1..], name)
  }

  predicate HasKey(fields: seq<Member>, name: string) {
    exists i :: 0 <= i < |fields| && fields[i].key == name
  }

  /** No object at any depth repeats a decoded key. */
  ghost predicate NoDuplicates(v: JsonValue)
    decreases v
  {
    match v
    case Array(items) => forall i :: 0 <= i < |items| ==> NoDuplicates(items[i])
    case Object(fields) =>
      && DistinctKeys(fields)
      && forall i :: 0 <= i < |fields| ==> NoDuplicates(fields[i].value)
    case _ => true
  }

  ghost predicate DistinctKeys(fields: seq<Member>) {
    forall i, j :: 0 <= i < j < |fields| ==> fields[i].key != fields[j].key
  }

  // ---------------------------------------------------------------- printers

  /** The three escaping tables of the source: `quote` of the compatible family,
      `escape` of the Anthropic and Gemini adapters (the same table twice), and
      `json_escape` of the server. */
  datatype Style = Compatible | Native | Server

  function HexDigit(n: nat): char
    requires n < 16
  {
    if n < 10 then ('0' as int + n) as char else ('a' as int + n - 10) as char
  }

  /** `\u{:04x}` of a scalar below 0x100. */
  function UnicodeEscape(c: char): string
    requires c as int < 0x100
  {
    "\\u00" + [HexDigit(c as int / 16), HexDigit(c as int % 16)]
  }

  predicate IsControl(c: char) {
    c as int < 0x20 || 0x7F <= c as int < 0xA0
  }

  function EscapeChar(style: Style, c: char): string {
    if c == '\"' then "\\\""
    else if c == '\\' then "\\\\"
    else if c == '\n' then "\\n"
    else if c == '\r' then "\\r"
    else if c == '\t' then "\\t"
    else if style.Compatible? && c == '\U{08}' then "\\b"
    else if style.Compatible? && c == '\U{0C}' then "\\f"
    else if c as int < 0x20 || (style.Server? && IsControl(c)) then UnicodeEscape(c)
    else [c]
  }

  function Escape(style: Style, s: string): string {
    if s == "" then "" else EscapeChar(style, s[0]) + Escape(style, s[1..])
  }

  function Quote(style: Style, s: string): string {
    "\"" + Escape(style, s) + "\""
  }

  function Encode(style: Style, v: JsonValue): string
    decreases v
  {
    match v
    case Null => "null"
    case Bool(b) => if b then "true" else "false"
    case Number(lexeme) => lexeme
    case String(text) => Quote(style, text)
    case Array(items) => "[" + EncodeItems(style, items) + "]"
    case Object(fields) => "{" + EncodeFields(style, fields) + "}"
  }

  /** Items joined with commas. */
  function EncodeItems(style: Style, items: seq<JsonValue>): string
    decreases items
  {
    if items == [] then ""
    else if |items| == 1 then Encode(style, items[0])
    else Encode(style, items[0]) + "," + EncodeItems(style, items[1..])
  }

  function EncodeField(style: Style, field: Member): string
    decreases field
  {
    Quote(style, field.key) + ":" + Encode(style, field.value)
  }

  function EncodeFields(style: Style, fields: seq<Member>): string
    decreases fields
  {
    if fields == [] then ""
    else if |fields| == 1 then EncodeField(style, fields[0])
    else EncodeField(style, fields[0]) + "," + EncodeFields(style, fields[1..])
  }
}
