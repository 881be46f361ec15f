/** The compatible-family stream parser undoes the gateway's own chunk documents. */
module ReadBack {
  import opened Wrappers
  import opened Json
  import opened Numerals
  import opened Response
  import opened Assembler
  import opened Access
  import opened Serialize
  import opened OpenAi

  /** A delta as the assembler emits it; an index is a `usize`. */
  ghost predicate CanonicalCall(call: ToolCallDelta) {
    call.index <= U64_MAX && (call.kind.Some? ==> call.kind.value == "function")
  }

  ghost predicate CanonicalDelta(delta: AssistantDelta) {
    && (delta.role.Some? ==> delta.role.value == "assistant")
    && forall i :: 0 <= i < |delta.toolCalls| ==> CanonicalCall(delta.toolCalls[i])
  }

  lemma {:induction false} FieldConcat(a: seq<Member>, b: seq<Member>, name: string)
    ensures Field(a + b, name) == if Field(a, name).Some? then Field(a, name) else Field(b, name)
  {
    if a == [] {
      assert a + b == b;
    } else {
      assert (a + b)[1..] == a[1..] + b;
      FieldConcat(a[1..], b, name);
    }
  }

  lemma FieldOne(key: string, v: JsonValue, name: string)
    ensures Field([Member(key, v)], name) == if key == name then Some(v) else None
  {
    assert Field([], name) == None;
  }

  lemma FieldOpt(key: string, v: Option<JsonValue>, name: string)
    ensures Field(Opt(key, v), name) == if key == name then v else None
  {
    if v.Some? {
      FieldOne(key, v.value, name);
    }
  }

  lemma FieldOptString(key: string, s: Option<string>, name: string)
    ensures Field(OptString(key, s), name) == if key == name && s.Some? then Some(String(s.value)) else None
  {
    if s.Some? {
      FieldOne(key, String(s.value), name);
    }
  }

  lemma IntReadsBack(n: nat)
    requires n <= U64_MAX
    ensures Unsigned(IntJson(n)) == Some(n)
  {
    ParseDecimal(n, U64_MAX);
  }

  lemma FunctionField(call: ToolCallDelta, name: string)
    ensures Field(FunctionFields(call), name)
         == if name == "name" && call.name.Some? then Some(String(call.name.value))
            else if name == "arguments" && call.arguments.Some? then Some(String(call.arguments.value))
            else None
  {
    FieldConcat(OptString("name", call.name), OptString("arguments", call.arguments), name);
    FieldOptString("name", call.name, name);
    FieldOptString("arguments", call.arguments, name);
  }

  lemma CallField(call: ToolCallDelta, name: string)
    ensures Field(CallFields(call), name)
         == if name == "index" then Some(IntJson(call.index))
            else if name == "id" && call.id.Some? then Some(String(call.id.value))
            else if name == "type" && call.kind.Some? then Some(String(call.kind.value))
            else if name == "function" && (call.name.Some? || call.arguments.Some?) then Some(Object(FunctionFields(call)))
            else None
  {
    var a := [Member("index", IntJson(call.index))];
    var b, c, d := OptString("id", call.id), OptString("type", call.kind), FunctionMember(call);
    FieldConcat(a, b, name);
    FieldConcat(a + b, c, name);
    FieldConcat(a + b + c, d, name);
    FieldOne("index", IntJson(call.index), name);
    FieldOptString("id", call.id, name);
    FieldOptString("type", call.kind, name);
    FieldOpt("function", if call.name.Some? || call.arguments.Some? then Some(Object(FunctionFields(call))) else None, name);
  }

  lemma CallReadsBack(call: ToolCallDelta)
    requires CanonicalCall(call)
    ensures ParseStreamToolCall(Object(CallFields(call))) == Some(call)
  {
    IntReadsBack(call.index);
    CallField(call, "index");
    CallField(call, "id");
    CallField(call, "type");
    CallField(call, "function");
    FunctionField(call, "name");
    FunctionField(call, "arguments");
  }

  lemma {:induction false} CallsReadBack(calls: seq<ToolCallDelta>)
    requires forall i :: 0 <= i < |calls| ==> CanonicalCall(calls[i])
    ensures ParseStreamToolCalls(CallsJson(calls)) == Some(calls)
  {
    if calls != [] {
      CallReadsBack(calls[0]);
      CallsReadBack(calls[1..]);
      assert CallsJson(calls)[1..] == CallsJson(calls[1..]);
      assert [calls[0]] + calls[1..] == calls;
    } else {
      assert CallsJson(calls) == [];
    }
  }

  lemma DeltaField(delta: AssistantDelta, name: string)
    ensures Field(DeltaFields(delta), name)
         == if name == "role" && delta.role.Some? then Some(String(delta.role.value))
            else if name == "content" && delta.content.Some? then Some(String(delta.content.value))
            else if name == "tool_calls" && delta.toolCalls != [] then Some(Array(CallsJson(delta.toolCalls)))
            else None
  {
    var a, b, c := OptString("role", delta.role), OptString("content", delta.content), CallsMember(delta.toolCalls);
    FieldConcat(a, b, name);
    FieldConcat(a + b, c, name);
    FieldOptString("role", delta.role, name);
    FieldOptString("content", delta.content, name);
    FieldOpt("tool_calls", if delta.toolCalls != [] then Some(Array(CallsJson(delta.toolCalls))) else None, name);
  }

  lemma DeltaReadsBack(delta: AssistantDelta)
    requires CanonicalDelta(delta)
    ensures ParseDelta(DeltaFields(delta)) == Some(delta)
  {
    DeltaField(delta, "role");
    DeltaField(delta, "content");
    DeltaField(delta, "tool_calls");
    CallsReadBack(delta.toolCalls);
  }

  /** The native terminal a client reads in a canonical finish reason. */
  function NativeOf(f: FinishReason): NativeTerminal {
    match f
    case FStop => NStop
    case FLength => NLength
    case FToolCalls => NToolCalls
    case FContentFilter => NContentFilter
  }

  function NativeOption(f: Option<FinishReason>): Option<NativeTerminal> {
    if f.Some? then Some(NativeOf(f.value)) else None
  }

  lemma TerminalReadsBack(f: FinishReason, deepSeek: bool)
    ensures Terminal(FinishText(f), deepSeek) == NativeOf(f)
  {
    assert FinishText(f) == "stop" <==> f == FStop;
    assert FinishText(f) == "length" <==> f == FLength;
    assert FinishText(f) == "tool_calls" <==> f == FToolCalls;
    assert FinishText(f) == "content_filter" <==> f == FContentFilter;
  }

  lemma ChoiceField(choice: ChunkChoice)
    ensures Field(ChoiceFields(choice), "index") == Some(IntJson(choice.index))
    ensures Field(ChoiceFields(choice), "delta") == Some(Object(DeltaFields(choice.delta)))
    ensures Field(ChoiceFields(choice), "finish_reason") == Some(FinishJson(choice.finishReason))
  {
    var f := ChoiceFields(choice);
    assert f[0..] == f;
    FieldFrom(f, 0, "index");
    FieldFrom(f, 0, "delta");
    FieldFrom(f, 1, "delta");
    FieldFrom(f, 0, "finish_reason");
    FieldFrom(f, 1, "finish_reason");
    FieldFrom(f, 2, "finish_reason");
  }

  /** `parse_stream_choice` on the printed choice. */
  lemma ChoiceReadsBack(choice: ChunkChoice, deepSeek: bool)
    requires choice.index <= U64_MAX && CanonicalDelta(choice.delta)
    ensures ParseStreamChoice(Object(ChoiceFields(choice)), deepSeek)
         == Some(StreamChoice(choice.index, choice.delta, NativeOption(choice.finishReason)))
  {
    ChoiceField(choice);
    IntReadsBack(choice.index);
    DeltaReadsBack(choice.delta);
    if choice.finishReason.Some? {
      TerminalReadsBack(choice.finishReason.value, deepSeek);
    }
  }

  lemma UsageReadsBack(u: Usage)
    requires ValidUsage(u)
    ensures ParseUsage(Object(UsageFields(u))) == Some(u)
  {
    var f := UsageFields(u);
    assert f[0..] == f;
    FieldFrom(f, 0, "prompt_tokens");
    FieldFrom(f, 0, "completion_tokens");
    FieldFrom(f, 1, "completion_tokens");
    IntReadsBack(u.promptTokens);
    IntReadsBack(u.completionTokens);
  }

  lemma HeadField(c: ChatChunk)
    ensures Field(HeadFields(c), "choices") == Some(Array(ChoicesJson(c.choices)))
    ensures Field(HeadFields(c), "usage") == None
  {
    var f := HeadFields(c);
    assert f[0..] == f && f[5..] == [];
    FieldFrom(f, 0, "choices");
    FieldFrom(f, 1, "choices");
    FieldFrom(f, 2, "choices");
    FieldFrom(f, 3, "choices");
    FieldFrom(f, 4, "choices");
    FieldFrom(f, 0, "usage");
    FieldFrom(f, 1, "usage");
    FieldFrom(f, 2, "usage");
    FieldFrom(f, 3, "usage");
    FieldFrom(f, 4, "usage");
  }

  lemma FieldFrom(f: seq<Member>, n: nat, name: string)
    requires n < |f|
    ensures Field(f[n..], name) == if f[n].key == name then Some(f[n].value) else Field(f[n + 1..], name)
  {
    assert f[n..][0] == f[n] && f[n..][1..] == f[n + 1..];
  }

  lemma ChunkField(c: ChatChunk)
    ensures Field(ChunkFields(c), "choices") == Some(Array(ChoicesJson(c.choices)))
    ensures Field(ChunkFields(c), "usage") == if c.usage.Some? then Some(Object(UsageFields(c.usage.value))) else None
  {
    HeadField(c);
    FieldConcat(HeadFields(c), UsageMember(c.usage), "choices");
    FieldConcat(HeadFields(c), UsageMember(c.usage), "usage");
    FieldOpt("usage", if c.usage.Some? then Some(Object(UsageFields(c.usage.value))) else None, "usage");
  }
}
