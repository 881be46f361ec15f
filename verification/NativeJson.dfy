/** The native documents tell the whole conversation: two transcripts that translate alike
    differ at most in their instructions and in how call arguments were spelled. */
module NativeJson {
  import opened Wrappers
  import opened Json
  import opened Transcript
  import opened Native
  import opened Translators

  ghost predicate Injective<A(!new)>(render: A -> JsonValue) {
    forall a, b :: render(a) == render(b) ==> a == b
  }

  lemma {:induction false} EachInjective<A(!new)>(render: A -> JsonValue, a: seq<A>, b: seq<A>)
    requires Injective(render) && Each(render, a) == Each(render, b)
    ensures a == b
  {
    assert |a| == |Each(render, a)| == |b|;
    forall i | 0 <= i < |a| ensures a[i] == b[i] {
      assert render(a[i]) == Each(render, a)[i] == Each(render, b)[i] == render(b[i]);
    }
  }

  lemma CallsInjective()
    ensures Injective(ToolUse) && Injective(FunctionCall)
  {
    forall a, b | ToolUse(a) == ToolUse(b) ensures a == b {
      assert ToolUse(a).fields[1] == ToolUse(b).fields[1] && ToolUse(a).fields[2] == ToolUse(b).fields[2];
      assert ToolUse(a).fields[3] == ToolUse(b).fields[3];
    }
    forall a, b | FunctionCall(a) == FunctionCall(b) ensures a == b {
      var x, y := FunctionCall(a).fields[0].value.fields, FunctionCall(b).fields[0].value.fields;
      assert x[0] == y[0] && x[1] == y[1] && x[2] == y[2];
    }
  }

  /** An Anthropic answer does not say the name; the rest it does. */
  lemma AnswerTells(a: Answer, b: Answer)
    requires ToolResultBlock(a) == ToolResultBlock(b)
    ensures a.id == b.id && a.result == b.result
  {
    assert ToolResultBlock(a).fields[1] == ToolResultBlock(b).fields[1];
    assert ToolResultBlock(a).fields[2] == ToolResultBlock(b).fields[2];
  }

  lemma ResponsesInjective()
    ensures Injective(FunctionResponse)
  {
    forall a, b | FunctionResponse(a) == FunctionResponse(b) ensures a == b {
      var x, y := FunctionResponse(a).fields[0].value.fields, FunctionResponse(b).fields[0].value.fields;
      assert x[0] == y[0] && x[1] == y[1] && x[2] == y[2];
      assert x[2].value.fields[0] == y[2].value.fields[0];
    }
  }

  /** Text first, if any, and then calls, which do not look like text. */
  lemma SpeechTells(text: string -> JsonValue, render: NativeCall -> JsonValue, c1: Option<string>, calls1: seq<NativeCall>,
                    c2: Option<string>, calls2: seq<NativeCall>)
    requires Injective(render)
    requires forall s, t :: text(s) == text(t) ==> s == t
    requires forall s, c :: text(s) != render(c)
    requires Speech(MapText(text, c1), Each(render, calls1)) == Speech(MapText(text, c2), Each(render, calls2))
    ensures c1 == c2 && calls1 == calls2
  {
    SpeechStarts(text, render, c1, calls1);
    SpeechStarts(text, render, c2, calls2);
    assert c1.Some? <==> c2.Some?;
    EachInjective(render, calls1, calls2);
  }

  lemma SpeechStarts(text: string -> JsonValue, render: NativeCall -> JsonValue, c: Option<string>, calls: seq<NativeCall>)
    ensures var s := Speech(MapText(text, c), Each(render, calls));
            if c.Some? then s != [] && s[0] == text(c.value) && s[1..] == Each(render, calls) else s == Each(render, calls)
  {
  }

  lemma TextTells()
    ensures forall s, t :: TextBlock(s) == TextBlock(t) ==> s == t
    ensures forall s, t :: TextPart(s) == TextPart(t) ==> s == t
    ensures forall s, c :: TextBlock(s) != ToolUse(c)
    ensures forall s, c :: TextPart(s) != FunctionCall(c)
    ensures forall s, a :: TextBlock(s) != ToolResultBlock(a)
    ensures forall s, a :: TextPart(s) != FunctionResponse(a)
  {
    forall s, t | TextBlock(s) == TextBlock(t) ensures s == t {
      assert TextBlock(s).fields[1] == TextBlock(t).fields[1];
    }
    forall s, t | TextPart(s) == TextPart(t) ensures s == t {
      assert TextPart(s).fields[0] == TextPart(t).fields[0];
    }
    forall s, c ensures TextBlock(s) != ToolUse(c) {
      assert |TextBlock(s).fields| != |ToolUse(c).fields|;
    }
    forall s, c ensures TextPart(s) != FunctionCall(c) {
      assert TextPart(s).fields[0].key == "text" && FunctionCall(c).fields[0].key == "functionCall";
    }
    forall s, a ensures TextBlock(s) != ToolResultBlock(a) {
      assert |TextBlock(s).fields| != |ToolResultBlock(a).fields|;
    }
    forall s, a ensures TextPart(s) != FunctionResponse(a) {
      assert TextPart(s).fields[0].key == "text" && FunctionResponse(a).fields[0].key == "functionResponse";
    }
  }

  /** The role and the parts of a native message. */
  lemma MessageTells(r1: string, c1: seq<JsonValue>, r2: string, c2: seq<JsonValue>)
    ensures NativeMessage(r1, c1) == NativeMessage(r2, c2) ==> r1 == r2 && c1 == c2
    ensures Content(r1, c1) == Content(r2, c2) ==> r1 == r2 && c1 == c2
  {
    if NativeMessage(r1, c1) == NativeMessage(r2, c2) {
      var a, b := NativeMessage(r1, c1).fields, NativeMessage(r2, c2).fields;
      assert a[0] == b[0] && a[1] == b[1];
    }
    if Content(r1, c1) == Content(r2, c2) {
      var a, b := Content(r1, c1).fields, Content(r2, c2).fields;
      assert a[0] == b[0] && a[1] == b[1];
    }
  }

  function Parts(text: string -> JsonValue, call: NativeCall -> JsonValue, answer: Answer -> JsonValue,
                 turn: NativeTurn): seq<JsonValue> {
    match turn
    case UserText(s) => [text(s)]
    case AssistantTurn(content, calls) => Speech(MapText(text, content), Each(call, calls))
    case Results(answers) => Each(answer, answers)
  }

  lemma AnthropicTells(a: NativeTurn, b: NativeTurn)
    requires AnthropicMessage(a) == AnthropicMessage(b)
    ensures FlattenTurn(a) == FlattenTurn(b)
  {
    var x, y := Parts(TextBlock, ToolUse, ToolResultBlock, a), Parts(TextBlock, ToolUse, ToolResultBlock, b);
    var ra, rb := if UserSide(a) then "user" else "assistant", if UserSide(b) then "user" else "assistant";
    MessageTells(ra, x, rb, y);
    TextTells();
    assert x != [] ==> x[0] == y[0];
    if a.AssistantTurn? {
      CallsInjective();
      SpeechTells(TextBlock, ToolUse, a.content, a.calls, b.content, b.calls);
    } else if a.Results? && b.Results? {
      forall i | 0 <= i < |x| ensures a.answers[i].id == b.answers[i].id && a.answers[i].result == b.answers[i].result {
        assert x[i] == y[i];
        AnswerTells(a.answers[i], b.answers[i]);
      }
    }
  }

  lemma GeminiTells(a: NativeTurn, b: NativeTurn)
    requires GeminiContent(a) == GeminiContent(b)
    ensures a == b
  {
    var x, y := Parts(TextPart, FunctionCall, FunctionResponse, a), Parts(TextPart, FunctionCall, FunctionResponse, b);
    var ra, rb := if UserSide(a) then "user" else "model", if UserSide(b) then "user" else "model";
    MessageTells(ra, x, rb, y);
    TextTells();
    assert x != [] ==> x[0] == y[0];
    if a.AssistantTurn? {
      CallsInjective();
      SpeechTells(TextPart, FunctionCall, a.content, a.calls, b.content, b.calls);
    } else if a.Results? && b.Results? {
      ResponsesInjective();
      EachInjective(FunctionResponse, a.answers, b.answers);
    }
  }

  lemma {:induction false} FlattenAlike(a: seq<NativeTurn>, b: seq<NativeTurn>)
    requires |a| == |b| && forall i :: 0 <= i < |a| ==> FlattenTurn(a[i]) == FlattenTurn(b[i])
    ensures Flatten(a) == Flatten(b)
    decreases |a|
  {
    if a != [] {
      FlattenAlike(a[1..], b[1..]);
    }
  }

  /** What Anthropic is sent determines the conversation. */
  lemma AnthropicKeepsTheConversation(ms1: seq<Message>, ms2: seq<Message>)
    requires Each(AnthropicMessage, Group(ms1, [])) == Each(AnthropicMessage, Group(ms2, []))
    ensures PlainMessages(ms1) == PlainMessages(ms2)
  {
    var a, b := Group(ms1, []), Group(ms2, []);
    assert |a| == |Each(AnthropicMessage, a)| == |b|;
    forall i | 0 <= i < |a| ensures FlattenTurn(a[i]) == FlattenTurn(b[i]) {
      assert AnthropicMessage(a[i]) == Each(AnthropicMessage, a)[i] == Each(AnthropicMessage, b)[i] == AnthropicMessage(b[i]);
      AnthropicTells(a[i], b[i]);
    }
    FlattenAlike(a, b);
    FlattenGroup(ms1, []);
    FlattenGroup(ms2, []);
  }

  /** So does what Gemini is sent. */
  lemma GeminiKeepsTheConversation(ms1: seq<Message>, ms2: seq<Message>)
    requires Each(GeminiContent, Group(ms1, [])) == Each(GeminiContent, Group(ms2, []))
    ensures PlainMessages(ms1) == PlainMessages(ms2) && Group(ms1, []) == Group(ms2, [])
  {
    forall a, b | GeminiContent(a) == GeminiContent(b) ensures a == b {
      GeminiTells(a, b);
    }
    EachInjective(GeminiContent, Group(ms1, []), Group(ms2, []));
    FlattenGroup(ms1, []);
    FlattenGroup(ms2, []);
  }
}
