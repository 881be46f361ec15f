/** The parser object of src/request.rs: a text, a position, and methods that move it. */
module JsonMachine {
  import opened Wrappers
  import opened Json
  import opened JsonGrammar
  import opened JsonParser

  lemma Consumed(input: string, start: nat, end: nat)
    requires start <= end <= |input|
    ensures input[start..end] == input[start..][..|input[start..]| - |input[end..]|]
  {
  }

  class Parser {
    const input: string
    var pos: nat

    constructor (text: string)
      ensures Valid() && input == text && Rest() == text
    {
      input := text;
      pos := 0;
    }

    ghost predicate Valid()
      reads this
    {
      pos <= |input|
    }

    /** The unread text. */
    ghost function Rest(): string
      requires Valid()
      reads this
    {
      input[pos..]
    }

    /** The method did what the specification says: same result, same text left. */
    ghost predicate Did<T>(spec: Parsed<T>, r: Result<T, JsonError>)
      requires Valid()
      reads this
    {
      match spec
      case Good(v, rest) => r == Ok(v) && Rest() == rest
      case Bad(e) => r == Err(e)
    }

    method Eof() returns (b: bool)
      requires Valid()
      ensures b <==> Rest() == ""
    {
      b := pos == |input|;
    }

    method Byte() returns (c: Option<char>)
      requires Valid()
      ensures c == if Rest() == "" then None else Some(Rest()[0])
    {
      c := if pos < |input| then Some(input[pos]) else None;
    }

    method Ws()
      requires Valid()
      modifies this`pos
      ensures Valid() && old(pos) <= pos && Rest() == SkipWs(old(Rest()))
    {
      while pos < |input| && IsWs(input[pos])
        invariant Valid() && old(pos) <= pos
        invariant SkipWs(Rest()) == SkipWs(old(Rest()))
      {
        assert Rest()[1..] == input[pos + 1..];
        pos := pos + 1;
      }
    }

    method Digits()
      requires Valid()
      modifies this`pos
      ensures Valid() && old(pos) <= pos && Rest() == SkipDigits(old(Rest()))
    {
      while pos < |input| && IsDigit(input[pos])
        invariant Valid() && old(pos) <= pos
        invariant SkipDigits(Rest()) == SkipDigits(old(Rest()))
      {
        assert Rest()[1..] == input[pos + 1..];
        pos := pos + 1;
      }
    }

    method Take(expected: char) returns (r: Result<(), JsonError>)
      requires Valid()
      modifies this`pos
      ensures Valid() && old(pos) <= pos
      ensures Did(if old(Rest()) != "" && old(Rest())[0] == expected then Good((), old(Rest())[1..]) else Bad(Malformed), r)
      ensures r.Ok? ==> old(pos) < pos
    {
      if pos < |input| && input[pos] == expected {
        pos := pos + 1;
        r := Ok(());
      } else {
        r := Err(Malformed);
      }
    }

    method Literal(literal: string, v: JsonValue) returns (r: Result<JsonValue, JsonError>)
      requires Valid() && literal != ""
      modifies this`pos
      ensures Valid() && old(pos) <= pos && Did(ParseLiteral(old(Rest()), literal, v), r)
    {
      var end := pos + |literal|;
      var found := end <= |input| && input[pos..end] == literal;
      assert end <= |input| ==> Rest()[..|literal|] == input[pos..end];
      assert found <==> literal <= Rest();
      if found {
        pos := end;
        r := Ok(v);
      } else {
        r := Err(Malformed);
      }
    }

    method Hex4() returns (r: Result<nat, JsonError>)
      requires Valid()
      modifies this`pos
      ensures Valid() && old(pos) <= pos && Did(ParseHex4(old(Rest())), r)
      ensures r.Ok? ==> r.value < 0x10000
    {
      if pos + 4 > |input| {
        return Err(Malformed);
      }
      var digits := input[pos..pos + 4];
      assert digits == Rest()[..4];
      if !IsHex4(digits) {
        return Err(Malformed);
      }
      pos := pos + 4;
      r := Ok(Hex4Value(digits));
    }

    method UnicodeEscape() returns (r: Result<char, JsonError>)
      requires Valid()
      modifies this`pos
      ensures Valid() && old(pos) <= pos && Did(ParseUnicode(old(Rest())), r)
    {
      var first :- Hex4();
      if IsHigh(first) {
        if pos + 2 > |input| || input[pos] != '\\' || input[pos + 1] != 'u' {
          return Err(Malformed);
        }
        assert Rest()[2..] == input[pos + 2..];
        pos := pos + 2;
        var second :- Hex4();
        if !IsLow(second) {
          return Err(Malformed);
        }
        return Ok(SurrogateScalar(first, second));
      } else if IsLow(first) {
        return Err(Malformed);
      } else {
        return Ok(first as char);
      }
    }

    method EscapeSequence() returns (r: Result<char, JsonError>)
      requires Valid()
      modifies this`pos
      ensures Valid() && old(pos) <= pos && Did(ParseEscape(old(Rest())), r)
    {
      if pos == |input| {
        return Err(Malformed);
      }
      var letter := input[pos];
      pos := pos + 1;
      assert Rest() == old(Rest())[1..];
      if letter == 'u' {
        r := UnicodeEscape();
      } else if IsShort(letter) {
        r := Ok(ShortMeaning(letter));
      } else {
        r := Err(Malformed);
      }
    }

    method Str() returns (r: Result<string, JsonError>)
      requires Valid()
      modifies this`pos
      ensures Valid() && old(pos) <= pos && Did(ParseString(old(Rest())), r)
    {
      var _ :- Take('\"');
      var out := "";
      ghost var spec := ParseBody(Rest(), "");
      while true
        invariant Valid() && old(pos) <= pos
        invariant ParseBody(Rest(), out) == spec
        decreases |input| - pos
      {
        if pos == |input| {
          return Err(Malformed);
        }
        var c := input[pos];
        ghost var before := Rest();
        pos := pos + 1;
        assert Rest() == before[1..];
        if c == '\"' {
          return Ok(out);
        } else if c == '\\' {
          var e :- EscapeSequence();
          out := out + [e];
        } else if c as int < 0x20 {
          return Err(Malformed);
        } else {
          out := out + [c];
        }
      }
    }

    /** A run of digits that must not be empty. */
    method SomeDigits() returns (r: Result<(), JsonError>)
      requires Valid()
      modifies this`pos
      ensures Valid() && old(pos) <= pos && Scanned(ScanDigits(old(Rest())), r)
    {
      var start := pos;
      Digits();
      assert pos == start <==> Rest() == old(Rest());
      r := if pos == start then Err(Malformed) else Ok(());
    }

    method Number() returns (r: Result<JsonValue, JsonError>)
      requires Valid()
      modifies this`pos
      ensures Valid() && old(pos) <= pos && Did(ParseNumber(old(Rest())), r)
    {
      var start := pos;
      if pos < |input| && input[pos] == '-' {
        pos := pos + 1;
      }
      assert Rest() == SkipMinus(old(Rest()));
      var _ :- WholePart();
      var _ :- FractionPart();
      var _ :- ExponentPart();
      Consumed(input, start, pos);
      r := Ok(JsonValue.Number(input[start..pos]));
    }

    /** A scan either fails or stops where the specification does. */
    ghost predicate Scanned(spec: Option<string>, r: Result<(), JsonError>)
      requires Valid()
      reads this
    {
      match spec
      case None => r == Err(Malformed)
      case Some(rest) => r == Ok(()) && Rest() == rest
    }

    method WholePart() returns (r: Result<(), JsonError>)
      requires Valid()
      modifies this`pos
      ensures Valid() && old(pos) <= pos && Scanned(ScanWhole(old(Rest())), r)
    {
      if pos < |input| && input[pos] == '0' {
        pos := pos + 1;
        r := Ok(());
      } else if pos < |input| && '1' <= input[pos] <= '9' {
        pos := pos + 1;
        Digits();
        r := Ok(());
      } else {
        r := Err(Malformed);
      }
    }

    method FractionPart() returns (r: Result<(), JsonError>)
      requires Valid()
      modifies this`pos
      ensures Valid() && old(pos) <= pos && Scanned(ScanFrac(old(Rest())), r)
    {
      if pos < |input| && input[pos] == '.' {
        pos := pos + 1;
        assert Rest() == old(Rest())[1..];
        r := SomeDigits();
      } else {
        r := Ok(());
      }
    }

    method ExponentPart() returns (r: Result<(), JsonError>)
      requires Valid()
      modifies this`pos
      ensures Valid() && old(pos) <= pos && Scanned(ScanExp(old(Rest())), r)
    {
      if pos < |input| && (input[pos] == 'e' || input[pos] == 'E') {
        assert Rest()[1..] == input[pos + 1..];
        pos := pos + 1;
        if pos < |input| && (input[pos] == '+' || input[pos] == '-') {
          assert Rest()[1..] == input[pos + 1..];
          pos := pos + 1;
        }
        r := SomeDigits();
      } else {
        r := Ok(());
      }
    }

    method Value() returns (r: Result<JsonValue, JsonError>)
      requires Valid()
      modifies this`pos
      ensures Valid() && old(pos) <= pos && Did(ParseValue(old(Rest())), r)
      ensures r.Ok? ==> old(pos) < pos
      decreases |input| - pos, 1
    {
      Ws();
      var c := Byte();
      match c {
        case None => r := Err(Malformed);
        case Some(c) =>
          assert Rest()[1..] == input[pos + 1..];
          if c == '{' {
            r := ReadObject();
          } else if c == '[' {
            r := ReadArray();
          } else if c == '\"' {
            var text :- Str();
            r := Ok(String(text));
          } else if c == 't' {
            r := Literal("true", Bool(true));
          } else if c == 'f' {
            r := Literal("false", Bool(false));
          } else if c == 'n' {
            r := Literal("null", Null);
          } else if c == '-' || IsDigit(c) {
            r := Number();
          } else {
            r := Err(Malformed);
          }
      }
    }

    method ReadObject() returns (r: Result<JsonValue, JsonError>)
      requires Valid() && Rest() != "" && Rest()[0] == '{'
      modifies this`pos
      ensures Valid() && old(pos) <= pos && Did(ParseObject(old(Rest())[1..]), r)
      decreases |input| - pos, 0
    {
      pos := pos + 1;
      Ws();
      var fields := [];
      if pos < |input| && input[pos] == '}' {
        pos := pos + 1;
        return Ok(Object(fields));
      }
      ghost var spec := ParseMembers(Rest(), []);
      while true
        invariant Valid() && old(pos) < pos
        invariant ParseMembers(Rest(), fields) == spec
        decreases |input| - pos
      {
        var member :- ReadMember(fields);
        fields := fields + [member];
        var more :- Separator('}');
        if !more {
          return Ok(Object(fields));
        }
      }
    }

    /** Whitespace, then a comma (`true`) or the closing bracket (`false`). */
    method Separator(close: char) returns (r: Result<bool, JsonError>)
      requires Valid()
      modifies this`pos
      ensures Valid() && old(pos) <= pos
      ensures var s := SkipWs(old(Rest()));
              if s != "" && (s[0] == ',' || s[0] == close) then r == Ok(s[0] == ',') && Rest() == s[1..] && old(pos) < pos
              else r == Err(Malformed)
    {
      Ws();
      if pos < |input| && (input[pos] == ',' || input[pos] == close) {
        r := Ok(input[pos] == ',');
        pos := pos + 1;
      } else {
        r := Err(Malformed);
      }
    }

    method ReadMember(fields: seq<Member>) returns (r: Result<Member, JsonError>)
      requires Valid()
      modifies this`pos
      ensures Valid() && old(pos) <= pos && Did(ParseMember(old(Rest()), fields), r)
      ensures r.Ok? ==> old(pos) < pos
      decreases |input| - pos, 2
    {
      var key :- Key();
      var value :- Value();
      r := if HasKey(fields, key) then Err(DuplicateMember) else Ok(Member(key, value));
    }

    method Key() returns (r: Result<string, JsonError>)
      requires Valid()
      modifies this`pos
      ensures Valid() && old(pos) <= pos && Did(ParseKey(old(Rest())), r)
      ensures r.Ok? ==> old(pos) < pos
    {
      Ws();
      if !(pos < |input| && input[pos] == '\"') {
        return Err(Malformed);
      }
      var key :- Str();
      Ws();
      var _ :- Take(':');
      r := Ok(key);
    }

    method ReadArray() returns (r: Result<JsonValue, JsonError>)
      requires Valid() && Rest() != "" && Rest()[0] == '['
      modifies this`pos
      ensures Valid() && old(pos) <= pos && Did(ParseArray(old(Rest())[1..]), r)
      decreases |input| - pos, 0
    {
      pos := pos + 1;
      Ws();
      var values := [];
      if pos < |input| && input[pos] == ']' {
        pos := pos + 1;
        return Ok(Array(values));
      }
      ghost var spec := ParseElems(Rest(), []);
      while true
        invariant Valid() && old(pos) < pos
        invariant ParseElems(Rest(), values) == spec
        decreases |input| - pos
      {
        var value :- Value();
        values := values + [value];
        var more :- Separator(']');
        if !more {
          return Ok(Array(values));
        }
      }
    }
  }

  /** `decode_json_value`. */
  method DecodeJsonValue(text: string) returns (r: Result<JsonValue, JsonError>)
    ensures r == DecodeValue(text)
  {
    var parser := new Parser(text);
    parser.Ws();
    SkipWsTwice(text);
    var value :- parser.Value();
    parser.Ws();
    var eof := parser.Eof();
    r := if eof then Ok(value) else Err(Malformed);
  }

  lemma {:induction false} SkipWsTwice(s: string)
    ensures SkipWs(SkipWs(s)) == SkipWs(s)
    ensures ParseValue(SkipWs(s)) == ParseValue(s)
  {
    if s != "" && IsWs(s[0]) {
      SkipWsTwice(s[1..]);
    }
  }

  /** `decode_json_object`. */
  method DecodeJsonObject(text: string) returns (r: Result<seq<Member>, JsonError>)
    ensures r == DecodeObject(text)
  {
    var value :- DecodeJsonValue(text);
    match value {
      case Object(fields) => r := Ok(fields);
      case _ => r := Err(Malformed);
    }
  }
}
