/** What the recursive-descent parser of src/request.rs computes, as functions on
    the remaining input. */
module JsonParser {
  import opened Wrappers
  import opened Json
  import opened JsonGrammar

  /** `DecodeError`: bad JSON, or sound JSON with a repeated member. */
  datatype JsonError = Malformed | DuplicateMember

  datatype Parsed<+T> = Good(value: T, rest: string) | Bad(error: JsonError)

  // ---------------------------------------------------------- specification

  function SkipWs(s: string): (r: string)
    ensures |r| <= |s|
  {
    if s != "" && IsWs(s[0]) then SkipWs(s[1..]) else s
  }

  function SkipDigits(s: string): (r: string)
    ensures |r| <= |s|
  {
    if s != "" && IsDigit(s[0]) then SkipDigits(s[1..]) else s
  }

  function ParseHex4(s: string): (r: Parsed<nat>)
    ensures r.Good? ==> r.value < 0x10000 && |r.rest| < |s|
  {
    if |s| < 4 || !IsHex4(s[..4]) then Bad(Malformed) else Good(Hex4Value(s[..4]), s[4..])
  }

  /** `\u` has been read. */
  function ParseUnicode(s: string): (r: Parsed<char>)
    ensures r.Good? ==> |r.rest| < |s|
  {
    match ParseHex4(s)
    case Bad(e) => Bad(e)
    case Good(first, rest) =>
      if IsHigh(first) then
        if |rest| < 2 || rest[0] != '\\' || rest[1] != 'u' then Bad(Malformed)
        else
          match ParseHex4(rest[2..])
          case Bad(e) => Bad(e)
          case Good(second, rest2) =>
            if IsLow(second) then Good(SurrogateScalar(first, second), rest2) else Bad(Malformed)
      else if IsLow(first) then Bad(Malformed)
      else Good(first as char, rest)
  }

  /** The backslash has been read. */
  function ParseEscape(s: string): (r: Parsed<char>)
    ensures r.Good? ==> |r.rest| < |s|
  {
    if s == "" then Bad(Malformed)
    else if s[0] == 'u' then ParseUnicode(s[1..])
    else if IsShort(s[0]) then Good(ShortMeaning(s[0]), s[1..])
    else Bad(Malformed)
  }

  /** The opening quote has been read; `out` holds what was decoded so far. */
  function ParseBody(s: string, out: string): (r: Parsed<string>)
    ensures r.Good? ==> |r.rest| < |s|
    decreases |s|
  {
    if s == "" then Bad(Malformed)
    else if s[0] == '\"' then Good(out, s[1..])
    else if s[0] == '\\' then
      match ParseEscape(s[1..])
      case Bad(e) => Bad(e)
      case Good(c, rest) => ParseBody(rest, out + [c])
    else if s[0] as int < 0x20 then Bad(Malformed)
    else ParseBody(s[1..], out + [s[0]])
  }

  function ParseString(s: string): (r: Parsed<string>)
    ensures r.Good? ==> |r.rest| < |s|
  {
    if s == "" || s[0] != '\"' then Bad(Malformed) else ParseBody(s[1..], "")
  }

  /** The digits of the integer part. */
  function ScanWhole(s: string): (r: Option<string>)
    ensures r.Some? ==> |r.value| < |s|
  {
    if s == "" || !IsDigit(s[0]) then None
    else if s[0] == '0' then Some(s[1..])
    else Some(SkipDigits(s[1..]))
  }

  function ScanDigits(s: string): (r: Option<string>)
    ensures r.Some? ==> |r.value| < |s|
  {
    if SkipDigits(s) == s then None else Some(SkipDigits(s))
  }

  function ScanFrac(s: string): (r: Option<string>)
    ensures r.Some? ==> |r.value| <= |s|
  {
    if s == "" || s[0] != '.' then Some(s) else ScanDigits(s[1..])
  }

  function SkipSign(s: string): (r: string)
    ensures |r| <= |s|
  {
    if s != "" && (s[0] == '+' || s[0] == '-') then s[1..] else s
  }

  function ScanExp(s: string): (r: Option<string>)
    ensures r.Some? ==> |r.value| <= |s|
  {
    if s == "" || !(s[0] == 'e' || s[0] == 'E') then Some(s) else ScanDigits(SkipSign(s[1..]))
  }

  function SkipMinus(s: string): (r: string)
    ensures |r| <= |s|
  {
    if s != "" && s[0] == '-' then s[1..] else s
  }

  function ScanNumber(s: string): (r: Option<string>)
    ensures r.Some? ==> |r.value| < |s|
  {
    match ScanWhole(SkipMinus(s))
    case None => None
    case Some(s1) =>
      match ScanFrac(s1)
      case None => None
      case Some(s2) => ScanExp(s2)
  }

  /** The lexeme is the slice the scan passed over. */
  function ParseNumber(s: string): (r: Parsed<JsonValue>)
    ensures r.Good? ==> |r.rest| < |s|
  {
    match ScanNumber(s)
    case None => Bad(Malformed)
    case Some(rest) => Good(Number(s[..|s| - |rest|]), rest)
  }

  function ParseLiteral(s: string, literal: string, v: JsonValue): (r: Parsed<JsonValue>)
    requires literal != ""
    ensures r.Good? ==> |r.rest| < |s|
  {
    if literal <= s then Good(v, s[|literal|..]) else Bad(Malformed)
  }

  /** A string, a literal or a number; its first character tells which. */
  function ParseScalar(s: string): (r: Parsed<JsonValue>)
    ensures r.Good? ==> |r.rest| < |s|
  {
    if s == "" then Bad(Malformed)
    else if s[0] == '\"' then
      match ParseString(s)
      case Bad(e) => Bad(e)
      case Good(text, rest) => Good(String(text), rest)
    else if s[0] == 't' then ParseLiteral(s, "true", Bool(true))
    else if s[0] == 'f' then ParseLiteral(s, "false", Bool(false))
    else if s[0] == 'n' then ParseLiteral(s, "null", Null)
    else if s[0] == '-' || IsDigit(s[0]) then ParseNumber(s)
    else Bad(Malformed)
  }

  function ParseValue(s0: string): (r: Parsed<JsonValue>)
    ensures r.Good? ==> |r.rest| < |s0|
    decreases |s0|, 0
  {
    var s := SkipWs(s0);
    if s != "" && s[0] == '{' then ParseObject(s[1..])
    else if s != "" && s[0] == '[' then ParseArray(s[1..])
    else ParseScalar(s)
  }

  /** The opening brace has been read. */
  function ParseObject(s0: string): (r: Parsed<JsonValue>)
    ensures r.Good? ==> |r.rest| < |s0|
    decreases |s0|, 3
  {
    var s := SkipWs(s0);
    if s != "" && s[0] == '}' then Good(Object([]), s[1..]) else ParseMembers(s, [])
  }

  function ParseArray(s0: string): (r: Parsed<JsonValue>)
    ensures r.Good? ==> |r.rest| < |s0|
    decreases |s0|, 3
  {
    var s := SkipWs(s0);
    if s != "" && s[0] == ']' then Good(Array([]), s[1..]) else ParseElems(s, [])
  }

  /** A key, its colon, and the text where the member's value starts. */
  function ParseKey(s0: string): (r: Parsed<string>)
    ensures r.Good? ==> |r.rest| < |s0|
  {
    match ParseString(SkipWs(s0))
    case Bad(e) => Bad(e)
    case Good(key, rest) =>
      var s := SkipWs(rest);
      if s != "" && s[0] == ':' then Good(key, s[1..]) else Bad(Malformed)
  }

  /** One key and value; the repeat is noticed only after the value has been read. */
  function ParseMember(s: string, fields: seq<Member>): (r: Parsed<Member>)
    ensures r.Good? ==> |r.rest| < |s|
    decreases |s|, 1
  {
    match ParseKey(s)
    case Bad(e) => Bad(e)
    case Good(key, s1) =>
      match ParseValue(s1)
      case Bad(e) => Bad(e)
      case Good(v, s2) => if HasKey(fields, key) then Bad(DuplicateMember) else Good(Member(key, v), s2)
  }

  /** The member loop of `object`. */
  function ParseMembers(s: string, fields: seq<Member>): (r: Parsed<JsonValue>)
    ensures r.Good? ==> |r.rest| < |s|
    decreases |s|, 2
  {
    match ParseMember(s, fields)
    case Bad(e) => Bad(e)
    case Good(m, s1) =>
      var s2 := SkipWs(s1);
      if s2 != "" && s2[0] == ',' then ParseMembers(s2[1..], fields + [m])
      else if s2 != "" && s2[0] == '}' then Good(Object(fields + [m]), s2[1..])
      else Bad(Malformed)
  }

  /** The element loop of `array`. */
  function ParseElems(s: string, items: seq<JsonValue>): (r: Parsed<JsonValue>)
    ensures r.Good? ==> |r.rest| < |s|
    decreases |s|, 1
  {
    match ParseValue(s)
    case Bad(e) => Bad(e)
    case Good(v, s1) =>
      var s2 := SkipWs(s1);
      if s2 != "" && s2[0] == ',' then ParseElems(s2[1..], items + [v])
      else if s2 != "" && s2[0] == ']' then Good(Array(items + [v]), s2[1..])
      else Bad(Malformed)
  }

  /** `decode_json_value`: one value, nothing but whitespace around it. */
  function DecodeValue(text: string): Result<JsonValue, JsonError> {
    match ParseValue(text)
    case Bad(e) => Err(e)
    case Good(v, rest) => if SkipWs(rest) == "" then Ok(v) else Err(Malformed)
  }

  /** `decode_json_object`. */
  function DecodeObject(text: string): Result<seq<Member>, JsonError> {
    match DecodeValue(text)
    case Err(e) => Err(e)
    case Ok(Object(fields)) => Ok(fields)
    case Ok(_) => Err(Malformed)
  }
}
