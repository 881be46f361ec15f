/** What a serialized chunk looks like on the wire: one printable document on one
    `data:` line, followed by a blank line. */
module WireText {
  import opened Wrappers
  import opened Json
  import opened JsonGrammar
  import opened JsonParser
  import opened JsonTheorems
  import opened Numerals
  import opened Utf8
  import opened Response
  import opened Sse
  import opened Access
  import opened Serialize

  // ------------------------------------------------------------ printability

  lemma IntPrintable(n: nat)
    ensures Printable(IntJson(n))
  {
    DecimalIsLexeme(n);
  }

  predicate Disjoint(a: seq<Member>, b: seq<Member>) {
    forall i, j :: 0 <= i < |a| && 0 <= j < |b| ==> a[i].key != b[j].key
  }

  ghost predicate PrintableFields(fields: seq<Member>) {
    DistinctKeys(fields) && forall i :: 0 <= i < |fields| ==> Printable(fields[i].value)
  }

  lemma FieldsPrintable(fields: seq<Member>)
    requires PrintableFields(fields)
    ensures Printable(Object(fields))
  {
  }

  lemma ConcatPrintable(a: seq<Member>, b: seq<Member>)
    requires PrintableFields(a) && PrintableFields(b) && Disjoint(a, b)
    ensures PrintableFields(a + b)
  {
    var all := a + b;
    forall i, j | 0 <= i < j < |all| ensures all[i].key != all[j].key {
      if i < |a| && j >= |a| {
        assert all[i] == a[i] && all[j] == b[j - |a|];
      }
    }
  }

  lemma FunctionPrintable(call: ToolCallDelta)
    ensures Printable(Object(FunctionFields(call)))
  {
    ConcatPrintable(OptString("name", call.name), OptString("arguments", call.arguments));
    FieldsPrintable(FunctionFields(call));
  }

  lemma CallPrintable(call: ToolCallDelta)
    ensures Printable(Object(CallFields(call)))
  {
    IntPrintable(call.index);
    FunctionPrintable(call);
    var a := [Member("index", IntJson(call.index))];
    var b, c, d := OptString("id", call.id), OptString("type", call.kind), FunctionMember(call);
    ConcatPrintable(a, b);
    ConcatPrintable(a + b, c);
    ConcatPrintable(a + b + c, d);
    FieldsPrintable(CallFields(call));
  }

  lemma CallsPrintable(calls: seq<ToolCallDelta>)
    ensures Printable(Array(CallsJson(calls)))
  {
    forall i | 0 <= i < |calls| ensures Printable(CallsJson(calls)[i]) {
      CallPrintable(calls[i]);
    }
  }

  lemma DeltaPrintable(delta: AssistantDelta)
    ensures Printable(Object(DeltaFields(delta)))
  {
    CallsPrintable(delta.toolCalls);
    var a, b, c := OptString("role", delta.role), OptString("content", delta.content), CallsMember(delta.toolCalls);
    ConcatPrintable(a, b);
    ConcatPrintable(a + b, c);
    FieldsPrintable(DeltaFields(delta));
  }

  lemma ChoicePrintable(choice: ChunkChoice)
    ensures Printable(Object(ChoiceFields(choice)))
  {
    IntPrintable(choice.index);
    DeltaPrintable(choice.delta);
    FieldsPrintable(ChoiceFields(choice));
  }

  lemma ChoicesPrintable(choices: seq<ChunkChoice>)
    ensures Printable(Array(ChoicesJson(choices)))
  {
    forall i | 0 <= i < |choices| ensures Printable(ChoicesJson(choices)[i]) {
      ChoicePrintable(choices[i]);
    }
  }

  lemma UsagePrintable(u: Usage)
    ensures Printable(Object(UsageFields(u)))
  {
    IntPrintable(u.promptTokens);
    IntPrintable(u.completionTokens);
    IntPrintable(u.totalTokens);
    FieldsPrintable(UsageFields(u));
  }

  lemma HeadPrintable(c: ChatChunk)
    ensures PrintableFields(HeadFields(c))
  {
    IntPrintable(c.created);
    ChoicesPrintable(c.choices);
  }

  lemma ChunkPrintable(c: ChatChunk)
    ensures Printable(Object(ChunkFields(c)))
  {
    HeadPrintable(c);
    if c.usage.Some? {
      UsagePrintable(c.usage.value);
    }
    ConcatPrintable(HeadFields(c), UsageMember(c.usage));
    FieldsPrintable(ChunkFields(c));
  }

  // ------------------------------------------------------------ no control characters

  predicate NoControl(s: string) {
    forall i :: 0 <= i < |s| ==> s[i] as int >= 0x20
  }

  lemma NoControlConcat(a: string, b: string)
    requires NoControl(a) && NoControl(b)
    ensures NoControl(a + b)
  {
  }

  lemma EscapeCharClean(style: Style, c: char)
    ensures NoControl(EscapeChar(style, c))
  {
    if c as int < 0x100 {
      var h := UnicodeEscape(c);
      assert h == ['\\', 'u', '0', '0', HexDigit(c as int / 16), HexDigit(c as int % 16)];
    }
  }

  lemma {:induction false} EscapeClean(style: Style, s: string)
    ensures NoControl(Escape(style, s))
  {
    if s != "" {
      EscapeCharClean(style, s[0]);
      EscapeClean(style, s[1..]);
    }
  }

  lemma LexemeClean(s: string)
    requires IsLexeme(s)
    ensures NoControl(s)
  {
    var n :| NumberOk(n) && ShowNumber(n, "") == s;
    assert NoControl(n.whole);
    var e := ShowExp(n.exp, "");
    assert NoControl(e) by {
      if n.exp.Some? {
        NoControlConcat(n.exp.value.sign, n.exp.value.digits + "");
      }
    }
    assert NoControl(ShowFrac(n.frac, e)) by {
      if n.frac.Some? {
        NoControlConcat(n.frac.value, e);
      }
    }
    NoControlConcat(n.whole, ShowFrac(n.frac, e));
  }

  /** Printed JSON holds no control character, so never a newline. */
  lemma {:induction false} EncodeClean(style: Style, v: JsonValue)
    requires LegalNumbers(v)
    ensures NoControl(Encode(style, v))
    decreases v
  {
    match v
    case Number(lexeme) => LexemeClean(lexeme);
    case String(s) =>
      EscapeClean(style, s);
      BetweenClean("\"", Escape(style, s), "\"");
    case Array(items) =>
      EncodeItemsClean(style, items);
      BetweenClean("[", EncodeItems(style, items), "]");
    case Object(fields) =>
      EncodeFieldsClean(style, fields);
      BetweenClean("{", EncodeFields(style, fields), "}");
    case _ =>
  }

  lemma BetweenClean(open: string, s: string, close: string)
    requires NoControl(open) && NoControl(s) && NoControl(close)
    ensures NoControl(open + s + close)
  {
  }

  lemma {:induction false} EncodeItemsClean(style: Style, items: seq<JsonValue>)
    requires forall i :: 0 <= i < |items| ==> LegalNumbers(items[i])
    ensures NoControl(EncodeItems(style, items))
    decreases items
  {
    if items != [] {
      EncodeClean(style, items[0]);
      EncodeItemsClean(style, items[1..]);
    }
  }

  lemma {:induction false} EncodeFieldsClean(style: Style, fields: seq<Member>)
    requires forall i :: 0 <= i < |fields| ==> LegalNumbers(fields[i].value)
    ensures NoControl(EncodeFields(style, fields))
    decreases fields
  {
    if fields != [] {
      EncodeClean(style, fields[0].value);
      EscapeClean(style, fields[0].key);
      EncodeFieldsClean(style, fields[1..]);
      FieldClean(style, fields[0]);
    }
  }

  lemma FieldClean(style: Style, f: Member)
    requires NoControl(Escape(style, f.key)) && NoControl(Encode(style, f.value))
    ensures NoControl(EncodeField(style, f))
  {
    NoControlConcat(Quote(style, f.key) + ":", Encode(style, f.value));
  }

  // ------------------------------------------------------------ bytes

  /** The bytes of a text without newlines contain no newline byte. */
  lemma NoLineFeed(s: string)
    requires NoControl(s)
    ensures forall i :: 0 <= i < |ToBytes(s)| ==> ToBytes(s)[i] != LF
  {
    if LF in ToBytes(s) {
      AsciiBytes(s, LF);
      assert false;
    }
  }

  /** The line of an event whose payload is `payload`. */
  function DataLine(payload: seq<byte>): seq<byte> {
    DATA_FIELD + [SPACE] + payload
  }

  lemma EventBytes(payload: string)
    ensures ToBytes(EventText(payload)) == DataLine(ToBytes(payload)) + [LF] + [LF]
  {
    EncodeConcat("data: ", payload);
    EncodeConcat("data: " + payload, "\n\n");
    AsciiEncode("data: ");
    AsciiEncode("\n\n");
    assert ToBytes("data: ") == DATA_FIELD + [SPACE];
    assert ToBytes("\n\n") == [LF, LF];
  }

  lemma {:induction false} AsciiEncode(s: string)
    requires forall i :: 0 <= i < |s| ==> s[i] as int < 0x80
    ensures |ToBytes(s)| == |s| && forall i :: 0 <= i < |s| ==> ToBytes(s)[i] == s[i] as int
  {
    if s != "" {
      AsciiEncode(s[1..]);
    }
  }

  /** The `data:` line hands over its payload unchanged. */
  lemma DataLineValue(payload: seq<byte>)
    requires payload != [] && payload[|payload| - 1] != CR
    requires |payload| <= MAX_SSE_EVENT_BYTES
    ensures var line := DataLine(payload);
            && StripCr(line) == line && line != [] && line[0] != COLON
            && FieldValue(line, DATA_FIELD) == Some(payload)
            && AppendData([], payload) == Some(payload)
  {
    var line := DataLine(payload);
    assert line[|line| - 1] == payload[|payload| - 1];
    assert line[|DATA_FIELD|..] == [SPACE] + payload;
    assert ([SPACE] + payload)[1..] == payload;
  }

  /** The payload of a serialized chunk. */
  function Payload(c: ChatChunk): seq<byte> {
    ToBytes(Encode(Server, Object(ChunkFields(c))))
  }

  lemma EndsWithBrace(v: JsonValue)
    requires v.Object?
    ensures var b := ToBytes(Encode(Server, v)); b != [] && b[|b| - 1] == 125
  {
    var text := Encode(Server, v);
    var init := text[..|text| - 1];
    assert text == init + "}";
    EncodeConcat(init, "}");
    AsciiEncode("}");
  }

  /** Decoding the payload gives the chunk's own fields back. */
  lemma PayloadDecodes(c: ChatChunk)
    ensures DecodePayload(Payload(c)) == Some(ChunkFields(c))
    ensures Payload(c) != [] && Payload(c)[|Payload(c)| - 1] == 125
    ensures forall i :: 0 <= i < |Payload(c)| ==> Payload(c)[i] != LF
  {
    var v := Object(ChunkFields(c));
    ChunkPrintable(c);
    EncodeRoundTrip(Server, v);
    DecodeOfEncode(Encode(Server, v));
    EndsWithBrace(v);
    EncodeClean(Server, v);
    NoLineFeed(Encode(Server, v));
  }
}
