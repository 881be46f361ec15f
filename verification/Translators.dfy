/** The Anthropic and Gemini translations of a validated transcript, as the adapters run
    them; every value they take for granted is there. */
module Translators {
  import opened Wrappers
  import opened Json
  import opened JsonParser
  import opened JsonMachine
  import opened Transcript
  import opened Native

  // --------------------------------------------------------------- rendering

  function TextBlock(text: string): JsonValue {
    Object([Member("type", String("text")), Member("text", String(text))])
  }

  function ToolUse(call: NativeCall): JsonValue {
    Object([Member("type", String("tool_use")), Member("id", String(call.id)), Member("name", String(call.name)),
            Member("input", Object(call.input))])
  }

  function ToolResultBlock(answer: Answer): JsonValue {
    Object([Member("type", String("tool_result")), Member("tool_use_id", String(answer.id)),
            Member("content", String(answer.result))])
  }

  function NativeMessage(role: string, content: seq<JsonValue>): JsonValue {
    Object([Member("role", String(role)), Member("content", Array(content))])
  }

  function TextPart(text: string): JsonValue {
    Object([Member("text", String(text))])
  }

  function FunctionCall(call: NativeCall): JsonValue {
    Object([Member("functionCall",
                   Object([Member("id", String(call.id)), Member("name", String(call.name)), Member("args", Object(call.input))]))])
  }

  function FunctionResponse(answer: Answer): JsonValue {
    Object([Member("functionResponse",
                   Object([Member("id", String(answer.id)), Member("name", String(answer.name)),
                           Member("response", Object([Member("result", String(answer.result))]))]))])
  }

  function Content(role: string, parts: seq<JsonValue>): JsonValue {
    Object([Member("role", String(role)), Member("parts", Array(parts))])
  }

  function Each<A>(render: A -> JsonValue, items: seq<A>): (r: seq<JsonValue>)
    ensures |r| == |items| && forall i :: 0 <= i < |items| ==> r[i] == render(items[i])
  {
    seq(|items|, i requires 0 <= i < |items| => render(items[i]))
  }

  /** The blocks of an assistant turn: its text, if any, and then its calls. */
  function Speech(text: Option<JsonValue>, calls: seq<JsonValue>): seq<JsonValue> {
    (if text.Some? then [text.value] else []) + calls
  }

  function MapText(render: string -> JsonValue, text: Option<string>): Option<JsonValue> {
    if text.None? then None else Some(render(text.value))
  }

  function AnthropicMessage(turn: NativeTurn): JsonValue {
    match turn
    case UserText(text) => NativeMessage("user", [TextBlock(text)])
    case AssistantTurn(content, calls) => NativeMessage("assistant", Speech(MapText(TextBlock, content), Each(ToolUse, calls)))
    case Results(answers) => NativeMessage("user", Each(ToolResultBlock, answers))
  }

  function GeminiContent(turn: NativeTurn): JsonValue {
    match turn
    case UserText(text) => Content("user", [TextPart(text)])
    case AssistantTurn(content, calls) => Content("model", Speech(MapText(TextPart, content), Each(FunctionCall, calls)))
    case Results(answers) => Content("user", Each(FunctionResponse, answers))
  }

  // ------------------------------------------------- what validation granted

  /** The calls of a transcript have distinct IDs, and arguments that are objects. */
  ghost predicate Usable(calls: seq<Call>) {
    RouteChecked(calls) && forall i, j :: 0 <= i < j < |calls| ==> calls[i].id != calls[j].id
  }

  lemma UsableParts(a: seq<Call>, b: seq<Call>)
    requires Usable(a + b)
    ensures Usable(a) && Usable(b)
  {
    var all := a + b;
    forall i | 0 <= i < |a| ensures DecodeObject(a[i].arguments).Ok? {
      assert all[i] == a[i];
    }
    forall i | 0 <= i < |b| ensures DecodeObject(b[i].arguments).Ok? {
      assert all[|a| + i] == b[i];
    }
    forall i, j | 0 <= i < j < |a| ensures a[i].id != a[j].id {
      assert all[i].id != all[j].id;
    }
    forall i, j | 0 <= i < j < |b| ensures b[i].id != b[j].id {
      assert all[|a| + i].id != all[|a| + j].id;
    }
  }

  /** Where the parts of a call are found. */
  ghost predicate ShowsCall(v: JsonValue, call: Call) {
    && v.Object? && StringField(v.fields, "id") == Some(call.id)
    && var function_ := Field(v.fields, "function");
       && function_.Some? && function_.value.Object?
       && StringField(function_.value.fields, "name") == Some(call.name)
       && StringField(function_.value.fields, "arguments") == Some(call.arguments)
  }

  ghost predicate ShowsCalls(v: Option<JsonValue>, calls: seq<Call>) {
    if v.None? then calls == []
    else v.value.Array? && |v.value.items| == |calls| && forall i :: 0 <= i < |calls| ==> ShowsCall(v.value.items[i], calls[i])
  }

  /** Where the parts of a message are found. */
  ghost predicate Shows(v: JsonValue, m: Message) {
    && v.Object?
    && match m
       case Instruction(_) => StringField(v.fields, "role") == Some("system") || StringField(v.fields, "role") == Some("developer")
       case User(text) => StringField(v.fields, "role") == Some("user") && StringField(v.fields, "content") == Some(text)
       case Assistant(content, calls) =>
         && StringField(v.fields, "role") == Some("assistant") && StringField(v.fields, "content") == content
         && ShowsCalls(Field(v.fields, "tool_calls"), calls)
       case ToolResult(id, result) =>
         && StringField(v.fields, "role") == Some("tool")
         && StringField(v.fields, "tool_call_id") == Some(id) && StringField(v.fields, "content") == Some(result)
  }

  lemma ReadShowsCall(v: JsonValue, call: Call)
    requires ReadCall(v) == Some(call)
    ensures ShowsCall(v, call)
  {
  }

  lemma ReadShowsCalls(v: Option<JsonValue>, calls: seq<Call>)
    requires ReadToolCalls(v) == Some(calls)
    ensures ShowsCalls(v, calls)
  {
    if v.Some? {
      forall i | 0 <= i < |calls| ensures ShowsCall(v.value.items[i], calls[i]) {
        ReadShowsCall(v.value.items[i], calls[i]);
      }
    }
  }

  lemma ReadShows(v: JsonValue, m: Message)
    requires ReadMessage(v) == Some(m)
    ensures Shows(v, m)
  {
    if m.Assistant? {
      ReadShowsCalls(Field(v.fields, "tool_calls"), m.calls);
    }
  }

  ghost predicate ShowsAll(items: seq<JsonValue>, ms: seq<Message>) {
    |items| == |ms| && forall i {:trigger Shows(items[i], ms[i])} :: 0 <= i < |items| ==> Shows(items[i], ms[i])
  }

  lemma ReadShowsAll(items: seq<JsonValue>)
    requires ReadMessages(items).Some?
    ensures ShowsAll(items, ReadMessages(items).value)
  {
    forall i | 0 <= i < |items| ensures Shows(items[i], ReadMessages(items).value[i]) {
      ReadShows(items[i], ReadMessages(items).value[i]);
    }
  }

  // --------------------------------------------------------- one step onwards

  /** What has been put out, and what the rest of the transcript will add. */
  ghost predicate Along(render: NativeTurn -> JsonValue, whole: seq<JsonValue>, rest: seq<Message>, p: Phase, output: seq<JsonValue>) {
    && Remaining(rest, p)
    && Usable(AllCalls(rest))
    && whole == output + Each(render, Group(rest, Asked(p)))
  }

  lemma PassInstruction(render: NativeTurn -> JsonValue, whole: seq<JsonValue>, rest: seq<Message>, p: Phase, output: seq<JsonValue>)
    requires Along(render, whole, rest, p, output) && rest != [] && rest[0].Instruction?
    ensures Along(render, whole, rest[1..], p, output)
  {
    NextPhase(rest, p);
    assert [] + AllCalls(rest[1..]) == AllCalls(rest[1..]);
  }

  lemma AlongMore(render: NativeTurn -> JsonValue, whole: seq<JsonValue>, rest: seq<Message>, p: Phase, output: seq<JsonValue>,
                  turn: NativeTurn, next: seq<Message>, q: Phase)
    requires Along(render, whole, rest, p, output)
    requires Group(rest, Asked(p)) == [turn] + Group(next, Asked(q))
    requires Remaining(next, q) && Usable(AllCalls(next))
    ensures Along(render, whole, next, q, output + [render(turn)])
  {
    EachMore(render, turn, Group(next, Asked(q)), output);
  }

  lemma EachMore(render: NativeTurn -> JsonValue, turn: NativeTurn, more: seq<NativeTurn>, output: seq<JsonValue>)
    ensures output + Each(render, [turn] + more) == output + [render(turn)] + Each(render, more)
  {
    assert Each(render, [turn] + more) == [render(turn)] + Each(render, more);
    Associative(output, [render(turn)], Each(render, more));
  }

  lemma PassUser(render: NativeTurn -> JsonValue, whole: seq<JsonValue>, rest: seq<Message>, p: Phase, output: seq<JsonValue>)
    requires Along(render, whole, rest, p, output) && rest != [] && rest[0].User?
    ensures Along(render, whole, rest[1..], AssistantNext, output + [render(UserText(rest[0].text))])
  {
    NextPhase(rest, p);
    assert [] + AllCalls(rest[1..]) == AllCalls(rest[1..]);
    AlongMore(render, whole, rest, p, output, UserText(rest[0].text), rest[1..], AssistantNext);
  }

  lemma PassAssistant(render: NativeTurn -> JsonValue, whole: seq<JsonValue>, rest: seq<Message>, p: Phase, output: seq<JsonValue>)
    requires Along(render, whole, rest, p, output) && rest != [] && rest[0].Assistant?
    ensures Usable(rest[0].calls)
    ensures Along(render, whole, rest[1..], AfterCalls(rest[0].calls),
                  output + [render(AssistantTurn(rest[0].content, NativeCalls(rest[0].calls)))])
  {
    var calls := rest[0].calls;
    NextPhase(rest, p);
    UsableParts(calls, AllCalls(rest[1..]));
    AlongMore(render, whole, rest, p, output, AssistantTurn(rest[0].content, NativeCalls(calls)), rest[1..], AfterCalls(calls));
  }

  lemma {:induction false} ResultsCallNothing(results: seq<Message>, rest: seq<Message>)
    requires AllResults(results)
    ensures AllCalls(results + rest) == AllCalls(rest)
    decreases |results|
  {
    if results == [] {
      assert results + rest == rest;
    } else {
      assert (results + rest)[1..] == results[1..] + rest;
      ResultsCallNothing(results[1..], rest);
      assert [] + AllCalls(rest) == AllCalls(rest);
    }
  }

  /** The results that come next answer the calls just made. */
  lemma ResultsAnswer(rest: seq<Message>, p: Phase)
    requires Remaining(rest, p) && rest != [] && rest[0].ToolResult?
    ensures var n := LeadingResults(rest);
            n > 0 && multiset(ResultIds(rest[..n])) == multiset(CallIds(Asked(p)))
  {
    NextPhase(rest, p);
  }

  /** They are one native turn, and what follows is usable as before. */
  lemma ResultsGroup(rest: seq<Message>, p: Phase)
    requires Remaining(rest, p) && Usable(AllCalls(rest)) && rest != [] && rest[0].ToolResult?
    ensures var n := LeadingResults(rest);
            && Group(rest, Asked(p)) == [Results(Answers(Asked(p), rest[..n]))] + Group(rest[n..], [])
            && Remaining(rest[n..], AssistantNext) && Usable(AllCalls(rest[n..]))
  {
    var n := LeadingResults(rest);
    NextPhase(rest, p);
    ResultsCallNothing(rest[..n], rest[n..]);
    assert rest == rest[..n] + rest[n..];
  }

  lemma PassResults(render: NativeTurn -> JsonValue, whole: seq<JsonValue>, rest: seq<Message>, p: Phase, output: seq<JsonValue>)
    requires Along(render, whole, rest, p, output) && rest != [] && rest[0].ToolResult?
    ensures var n := LeadingResults(rest);
            Along(render, whole, rest[n..], AssistantNext, output + [render(Results(Answers(Asked(p), rest[..n])))])
  {
    var n := LeadingResults(rest);
    ResultsGroup(rest, p);
    AlongMore(render, whole, rest, p, output, Results(Answers(Asked(p), rest[..n])), rest[n..], AssistantNext);
  }
}
