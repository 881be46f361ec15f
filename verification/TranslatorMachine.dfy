/** `messages` and `contents`: the loops themselves. */
module TranslatorMachine {
  import opened Wrappers
  import opened Json
  import opened JsonParser
  import opened JsonMachine
  import opened Transcript
  import opened Native
  import opened Translators

  /** The call at position `i`: what `expect` and `unreachable!` rely on. */
  lemma CallAt(items: seq<JsonValue>, calls: seq<Call>, i: nat)
    requires ShowsCalls(Some(Array(items)), calls) && RouteChecked(calls) && i < |calls|
    ensures ShowsCall(items[i], calls[i])
    ensures DecodeValue(calls[i].arguments) == Ok(Object(Input(calls[i].arguments)))
  {
    assert DecodeObject(calls[i].arguments).Ok?;
  }

  method StructuredCall(v: JsonValue, ghost call: Call) returns (native: NativeCall)
    requires ShowsCall(v, call) && DecodeValue(call.arguments) == Ok(Object(Input(call.arguments)))
    ensures native == NativeCall(call.id, call.name, Input(call.arguments))
  {
    var function_ := Field(v.fields, "function").value.fields;
    var input := DecodeJsonValue(StringField(function_, "arguments").value);
    native := NativeCall(StringField(v.fields, "id").value, StringField(function_, "name").value, input.value.fields);
  }

  method ToolUses(items: seq<JsonValue>, ghost calls: seq<Call>) returns (blocks: seq<JsonValue>)
    requires ShowsCalls(Some(Array(items)), calls) && RouteChecked(calls)
    ensures blocks == Each(ToolUse, NativeCalls(calls))
  {
    blocks := [];
    for i := 0 to |items|
      invariant |blocks| == i && forall k :: 0 <= k < i ==> blocks[k] == Each(ToolUse, NativeCalls(calls))[k]
    {
      CallAt(items, calls, i);
      var native := StructuredCall(items[i], calls[i]);
      blocks := blocks + [ToolUse(native)];
    }
  }

  /** The names under which the calls just made are known. */
  ghost predicate Named(names: map<string, string>, calls: seq<Call>) {
    forall i :: 0 <= i < |calls| ==> calls[i].id in names && names[calls[i].id] == calls[i].name
  }

  method FunctionCalls(items: seq<JsonValue>, names: map<string, string>, ghost calls: seq<Call>)
    returns (parts: seq<JsonValue>, named: map<string, string>)
    requires ShowsCalls(Some(Array(items)), calls) && Usable(calls)
    ensures parts == Each(FunctionCall, NativeCalls(calls)) && Named(named, calls)
  {
    parts, named := [], names;
    for i := 0 to |items|
      invariant |parts| == i && forall k :: 0 <= k < i ==> parts[k] == Each(FunctionCall, NativeCalls(calls))[k]
      invariant forall k :: 0 <= k < i ==> calls[k].id in named && named[calls[k].id] == calls[k].name
    {
      CallAt(items, calls, i);
      var native := StructuredCall(items[i], calls[i]);
      named := named[native.id := native.name];
      parts := parts + [FunctionCall(native)];
    }
  }

  /** The results read from the rest of a transcript so far. */
  ghost predicate ResultsSoFar(render: Answer -> JsonValue, rest: seq<Message>, asked: seq<Call>, n: nat, blocks: seq<JsonValue>) {
    && |blocks| == n <= |rest| && AllResults(rest[..n])
    && forall k :: 0 <= k < n ==> blocks[k] == render(Answer(rest[k].id, NameOf(asked, rest[k].id), rest[k].result))
  }

  lemma ResultsDone(render: Answer -> JsonValue, rest: seq<Message>, asked: seq<Call>, n: nat, blocks: seq<JsonValue>)
    requires ResultsSoFar(render, rest, asked, n, blocks) && (n < |rest| ==> !rest[n].ToolResult?)
    ensures n == LeadingResults(rest) && blocks == Each(render, Answers(asked, rest[..n]))
  {
    LeadingResultsIs(rest, n);
  }

  /** The run of results goes at least as far as the results read. */
  lemma {:induction false} RunGoesOn(rest: seq<Message>, n: nat)
    requires n <= |rest| && AllResults(rest[..n])
    ensures LeadingResults(rest) >= n
    decreases n
  {
    if n > 0 {
      assert rest[..n][0] == rest[0] && rest[1..][..n - 1] == rest[..n][1..];
      RunGoesOn(rest[1..], n - 1);
    }
  }

  lemma OneMoreRun(rest: seq<Message>, n: nat)
    requires n < |rest| && AllResults(rest[..n]) && rest[n].ToolResult?
    ensures n < LeadingResults(rest)
  {
    assert rest[..n + 1] == rest[..n] + [rest[n]];
    RunGoesOn(rest, n + 1);
  }

  lemma RestAfter(ms: seq<Message>, index: nat, next: nat)
    requires index <= next <= |ms|
    ensures ms[index..][next - index..] == ms[next..]
  {
  }

  /** One result more. */
  lemma OneMoreResult(render: Answer -> JsonValue, rest: seq<Message>, asked: seq<Call>, n: nat, blocks: seq<JsonValue>,
                      block: JsonValue)
    requires ResultsSoFar(render, rest, asked, n, blocks) && n < |rest| && rest[n].ToolResult?
    requires block == render(Answer(rest[n].id, NameOf(asked, rest[n].id), rest[n].result))
    ensures ResultsSoFar(render, rest, asked, n + 1, blocks + [block])
  {
    assert rest[..n + 1] == rest[..n] + [rest[n]];
  }

  /** The block for a result, or nothing if the message is not one. */
  method AnthropicResult(source: seq<JsonValue>, index: nat, ghost ms: seq<Message>, ghost asked: seq<Call>)
    returns (block: Option<JsonValue>)
    requires ShowsAll(source, ms) && index < |source|
    ensures var m := ms[index];
            if m.ToolResult? then block == Some(ToolResultBlock(Answer(m.id, NameOf(asked, m.id), m.result))) else block == None
  {
    RoleOf(source, ms, index);
    var fields := source[index].fields;
    if StringField(fields, "role") != Some("tool") {
      return None;
    }
    block := Some(ToolResultBlock(Answer(StringField(fields, "tool_call_id").value, "", StringField(fields, "content").value)));
  }

  method GeminiResult(source: seq<JsonValue>, index: nat, names: map<string, string>, ghost ms: seq<Message>, ghost asked: seq<Call>)
    returns (part: Option<JsonValue>)
    requires ShowsAll(source, ms) && index < |source|
    requires ms[index].ToolResult? ==> HasName(names, asked, ms[index].id)
    ensures var m := ms[index];
            if m.ToolResult? then part == Some(FunctionResponse(Answer(m.id, NameOf(asked, m.id), m.result))) else part == None
  {
    RoleOf(source, ms, index);
    var fields := source[index].fields;
    if StringField(fields, "role") != Some("tool") {
      return None;
    }
    var id := StringField(fields, "tool_call_id").value;
    part := Some(FunctionResponse(Answer(id, names[id], StringField(fields, "content").value)));
  }

  /** One result more, if there is one. */
  method AnthropicMore(source: seq<JsonValue>, index: nat, ghost ms: seq<Message>, ghost rest: seq<Message>,
                       ghost asked: seq<Call>, ghost n: nat, blocks: seq<JsonValue>)
    returns (more: bool, all: seq<JsonValue>)
    requires ShowsAll(source, ms) && index < |source| && n < |rest| && rest[n] == ms[index]
    requires ResultsSoFar(ToolResultBlock, rest, asked, n, blocks)
    ensures more == rest[n].ToolResult?
    ensures ResultsSoFar(ToolResultBlock, rest, asked, if more then n + 1 else n, all)
  {
    var result := AnthropicResult(source, index, ms, asked);
    if result.None? {
      return false, blocks;
    }
    OneMoreResult(ToolResultBlock, rest, asked, n, blocks, result.value);
    more, all := true, blocks + [result.value];
  }

  method ToolResultTurn(source: seq<JsonValue>, start: nat, ghost ms: seq<Message>, ghost rest: seq<Message>, ghost asked: seq<Call>)
    returns (native: JsonValue, index: nat)
    requires ShowsAll(source, ms) && start <= |ms| && rest == ms[start..]
    ensures index == start + LeadingResults(rest)
    ensures native == AnthropicMessage(Results(Answers(asked, rest[..LeadingResults(rest)])))
  {
    var blocks := [];
    index := start;
    while index < |source|
      invariant start <= index <= |ms| && ResultsSoFar(ToolResultBlock, rest, asked, index - start, blocks)
    {
      var more;
      more, blocks := AnthropicMore(source, index, ms, rest, asked, index - start, blocks);
      if !more {
        break;
      }
      index := index + 1;
    }
    ResultsDone(ToolResultBlock, rest, asked, index - start, blocks);
    native := NativeMessage("user", blocks);
  }

  /** Each result of the run answers a call whose name is on record. */
  ghost predicate OnRecord(rest: seq<Message>, asked: seq<Call>, names: map<string, string>) {
    forall k :: 0 <= k < LeadingResults(rest) ==> rest[k].ToolResult? && HasName(names, asked, rest[k].id)
  }

  ghost predicate HasName(names: map<string, string>, asked: seq<Call>, id: string) {
    id in names && names[id] == NameOf(asked, id)
  }

  /** Results answer the calls asked, whose names are known: `expect` finds every one. */
  lemma NamesOnRecord(rest: seq<Message>, asked: seq<Call>, names: map<string, string>)
    requires Named(names, asked)
    requires multiset(ResultIds(rest[..LeadingResults(rest)])) == multiset(CallIds(asked))
    ensures OnRecord(rest, asked, names)
  {
    var ids := ResultIds(rest[..LeadingResults(rest)]);
    forall k | 0 <= k < LeadingResults(rest) ensures rest[k].ToolResult? && HasName(names, asked, rest[k].id) {
      assert rest[..LeadingResults(rest)][k] == rest[k];
      assert ids[k] in multiset(CallIds(asked));
      NameIsOfCall(asked, rest[k].id);
    }
  }

  lemma NameFound(rest: seq<Message>, asked: seq<Call>, names: map<string, string>, n: nat)
    requires OnRecord(rest, asked, names) && n < |rest| && AllResults(rest[..n])
    ensures rest[n].ToolResult? ==> HasName(names, asked, rest[n].id)
  {
    if rest[n].ToolResult? {
      OneMoreRun(rest, n);
    }
  }

  /** One result more, if there is one. */
  method GeminiMore(source: seq<JsonValue>, index: nat, names: map<string, string>, ghost ms: seq<Message>, ghost rest: seq<Message>,
                    ghost asked: seq<Call>, ghost n: nat, parts: seq<JsonValue>)
    returns (more: bool, all: seq<JsonValue>)
    requires ShowsAll(source, ms) && index < |source| && n < |rest| && rest[n] == ms[index]
    requires OnRecord(rest, asked, names)
    requires ResultsSoFar(FunctionResponse, rest, asked, n, parts)
    ensures more == rest[n].ToolResult?
    ensures ResultsSoFar(FunctionResponse, rest, asked, if more then n + 1 else n, all)
  {
    NameFound(rest, asked, names, n);
    var result := GeminiResult(source, index, names, ms, asked);
    if result.None? {
      return false, parts;
    }
    OneMoreResult(FunctionResponse, rest, asked, n, parts, result.value);
    more, all := true, parts + [result.value];
  }

  method FunctionResponseTurn(source: seq<JsonValue>, start: nat, names: map<string, string>, ghost ms: seq<Message>,
                              ghost rest: seq<Message>, ghost asked: seq<Call>)
    returns (native: JsonValue, index: nat)
    requires ShowsAll(source, ms) && start <= |ms| && rest == ms[start..]
    requires OnRecord(rest, asked, names)
    ensures index == start + LeadingResults(rest)
    ensures native == GeminiContent(Results(Answers(asked, rest[..LeadingResults(rest)])))
  {
    var parts := [];
    index := start;
    while index < |source|
      invariant start <= index <= |ms| && ResultsSoFar(FunctionResponse, rest, asked, index - start, parts)
    {
      var more;
      more, parts := GeminiMore(source, index, names, ms, rest, asked, index - start, parts);
      if !more {
        break;
      }
      index := index + 1;
    }
    ResultsDone(FunctionResponse, rest, asked, index - start, parts);
    native := Content("user", parts);
  }

  /** What a validated request whose route wants structured arguments offers. */
  ghost predicate Translatable(source: seq<JsonValue>, ms: seq<Message>) {
    && ReadMessages(source) == Some(ms)
    && Conversation(ms) && Usable(AllCalls(ms))
  }

  lemma RoleOf(source: seq<JsonValue>, ms: seq<Message>, index: nat)
    requires ShowsAll(source, ms) && index < |ms|
    ensures source[index].Object? && StringField(source[index].fields, "role").Some? && Shows(source[index], ms[index])
    ensures var role := StringField(source[index].fields, "role").value;
            match ms[index]
            case Instruction(_) => role == "system" || role == "developer"
            case User(_) => role == "user"
            case Assistant(_, _) => role == "assistant"
            case ToolResult(_, _) => role == "tool"
  {
    assert Shows(source[index], ms[index]);
  }

  /** Which arm of the match a message takes. */
  datatype Arm = SkipIt | TakeUser | TakeAssistant | TakeResults

  function ArmOf(m: Message): Arm {
    match m
    case Instruction(_) => SkipIt
    case User(_) => TakeUser
    case Assistant(_, _) => TakeAssistant
    case ToolResult(_, _) => TakeResults
  }

  method ChooseArm(source: seq<JsonValue>, index: nat, ghost ms: seq<Message>) returns (arm: Arm)
    requires ShowsAll(source, ms) && index < |source|
    ensures arm == ArmOf(ms[index]) && Shows(source[index], ms[index])
  {
    RoleOf(source, ms, index);
    var role := StringField(source[index].fields, "role").value;
    arm := if role == "system" || role == "developer" then SkipIt
           else if role == "user" then TakeUser
           else if role == "assistant" then TakeAssistant
           else TakeResults;
  }

  lemma Begin(render: NativeTurn -> JsonValue, source: seq<JsonValue>, ms: seq<Message>)
    requires Translatable(source, ms)
    ensures ShowsAll(source, ms) && Along(render, Each(render, Group(ms, [])), ms[0..], Opening, [])
  {
    ReadShowsAll(source);
    assert ms[0..] == ms && [] + Each(render, Group(ms, [])) == Each(render, Group(ms, []));
  }

  lemma Done(render: NativeTurn -> JsonValue, whole: seq<JsonValue>, p: Phase, output: seq<JsonValue>)
    requires Along(render, whole, [], p, output)
    ensures output == whole
  {
    assert output + Each(render, []) == output;
  }

  method AnthropicSpeech(message: seq<Member>, ghost m: Message) returns (native: JsonValue)
    requires m.Assistant? && Shows(Object(message), m) && Usable(m.calls)
    ensures native == AnthropicMessage(AssistantTurn(m.content, NativeCalls(m.calls)))
  {
    var content := StringField(message, "content");
    var text := if content.Some? then Some(TextBlock(content.value)) else None;
    var toolCalls := Field(message, "tool_calls");
    var parts := [];
    if toolCalls.Some? {
      parts := ToolUses(toolCalls.value.items, m.calls);
    } else {
      assert Each(ToolUse, NativeCalls(m.calls)) == [];
    }
    native := NativeMessage("assistant", Speech(text, parts));
  }

  method AnthropicUser(source: seq<JsonValue>, index: nat, ghost ms: seq<Message>, ghost whole: seq<JsonValue>,
                       ghost p: Phase, ghost output: seq<JsonValue>)
    returns (turn: JsonValue)
    requires index < |source| == |ms| && Shows(source[index], ms[index]) && ms[index].User?
    requires Along(AnthropicMessage, whole, ms[index..], p, output)
    ensures Along(AnthropicMessage, whole, ms[index + 1..], AssistantNext, output + [turn])
  {
    turn := NativeMessage("user", [TextBlock(StringField(source[index].fields, "content").value)]);
    PassUser(AnthropicMessage, whole, ms[index..], p, output);
    assert ms[index..][1..] == ms[index + 1..];
  }

  method AnthropicAssistant(source: seq<JsonValue>, index: nat, ghost ms: seq<Message>, ghost whole: seq<JsonValue>, ghost p: Phase,
                            ghost output: seq<JsonValue>)
    returns (turn: JsonValue)
    requires index < |source| == |ms| && Shows(source[index], ms[index]) && ms[index].Assistant?
    requires Along(AnthropicMessage, whole, ms[index..], p, output)
    ensures Along(AnthropicMessage, whole, ms[index + 1..], AfterCalls(ms[index].calls), output + [turn])
  {
    PassAssistant(AnthropicMessage, whole, ms[index..], p, output);
    assert ms[index..][1..] == ms[index + 1..];
    turn := AnthropicSpeech(source[index].fields, ms[index]);
  }

  method AnthropicResults(source: seq<JsonValue>, index: nat, ghost ms: seq<Message>, ghost whole: seq<JsonValue>, ghost p: Phase,
                          ghost output: seq<JsonValue>)
    returns (turn: JsonValue, next: nat)
    requires ShowsAll(source, ms) && index < |source| && ms[index].ToolResult?
    requires Along(AnthropicMessage, whole, ms[index..], p, output)
    ensures index < next <= |ms| && Along(AnthropicMessage, whole, ms[next..], AssistantNext, output + [turn])
  {
    ResultsAnswer(ms[index..], p);
    PassResults(AnthropicMessage, whole, ms[index..], p, output);
    turn, next := ToolResultTurn(source, index, ms, ms[index..], Asked(p));
    RestAfter(ms, index, next);
  }

  /** Anthropic's `messages`. */
  method Messages(source: seq<JsonValue>, ghost ms: seq<Message>) returns (output: seq<JsonValue>)
    requires Translatable(source, ms)
    ensures output == Each(AnthropicMessage, Group(ms, []))
  {
    output := [];
    var index := 0;
    ghost var p, whole := Opening, Each(AnthropicMessage, Group(ms, []));
    Begin(AnthropicMessage, source, ms);
    while index < |source|
      invariant ShowsAll(source, ms) && index <= |ms| && Along(AnthropicMessage, whole, ms[index..], p, output)
    {
      var arm := ChooseArm(source, index, ms);
      if arm == SkipIt {
        PassInstruction(AnthropicMessage, whole, ms[index..], p, output);
        RestAfter(ms, index, index + 1);
        index := index + 1;
      } else if arm == TakeUser {
        var turn := AnthropicUser(source, index, ms, whole, p, output);
        output, index, p := output + [turn], index + 1, AssistantNext;
      } else if arm == TakeAssistant {
        var turn := AnthropicAssistant(source, index, ms, whole, p, output);
        output, index, p := output + [turn], index + 1, AfterCalls(ms[index].calls);
      } else {
        var turn, next := AnthropicResults(source, index, ms, whole, p, output);
        output, index, p := output + [turn], next, AssistantNext;
      }
    }
    Done(AnthropicMessage, whole, p, output);
  }

  method GeminiSpeech(message: seq<Member>, names: map<string, string>, ghost m: Message) returns (native: JsonValue,
                                                                                                   named: map<string, string>)
    requires m.Assistant? && Shows(Object(message), m) && Usable(m.calls)
    ensures native == GeminiContent(AssistantTurn(m.content, NativeCalls(m.calls)))
    ensures Named(named, m.calls)
  {
    var content := StringField(message, "content");
    var text := if content.Some? then Some(TextPart(content.value)) else None;
    var toolCalls := Field(message, "tool_calls");
    var parts := [];
    named := names;
    if toolCalls.Some? {
      parts, named := FunctionCalls(toolCalls.value.items, names, m.calls);
    } else {
      assert Each(FunctionCall, NativeCalls(m.calls)) == [];
    }
    native := Content("model", Speech(text, parts));
  }

  method GeminiUser(source: seq<JsonValue>, index: nat, ghost ms: seq<Message>, ghost whole: seq<JsonValue>,
                    ghost p: Phase, ghost output: seq<JsonValue>)
    returns (turn: JsonValue)
    requires index < |source| == |ms| && Shows(source[index], ms[index]) && ms[index].User?
    requires Along(GeminiContent, whole, ms[index..], p, output)
    ensures Along(GeminiContent, whole, ms[index + 1..], AssistantNext, output + [turn])
  {
    turn := Content("user", [TextPart(StringField(source[index].fields, "content").value)]);
    PassUser(GeminiContent, whole, ms[index..], p, output);
    assert ms[index..][1..] == ms[index + 1..];
  }

  method GeminiAssistant(source: seq<JsonValue>, index: nat, calls: map<string, string>, ghost ms: seq<Message>,
                         ghost whole: seq<JsonValue>, ghost p: Phase,
                         ghost output: seq<JsonValue>)
    returns (turn: JsonValue, named: map<string, string>)
    requires index < |source| == |ms| && Shows(source[index], ms[index]) && ms[index].Assistant?
    requires Along(GeminiContent, whole, ms[index..], p, output)
    ensures Along(GeminiContent, whole, ms[index + 1..], AfterCalls(ms[index].calls), output + [turn])
    ensures Named(named, Asked(AfterCalls(ms[index].calls)))
  {
    PassAssistant(GeminiContent, whole, ms[index..], p, output);
    assert ms[index..][1..] == ms[index + 1..];
    turn, named := GeminiSpeech(source[index].fields, calls, ms[index]);
  }

  method GeminiResults(source: seq<JsonValue>, index: nat, calls: map<string, string>, ghost ms: seq<Message>,
                       ghost whole: seq<JsonValue>, ghost p: Phase,
                       ghost output: seq<JsonValue>)
    returns (turn: JsonValue, next: nat)
    requires ShowsAll(source, ms) && index < |source| && ms[index].ToolResult?
    requires Along(GeminiContent, whole, ms[index..], p, output) && Named(calls, Asked(p))
    ensures index < next <= |ms| && Along(GeminiContent, whole, ms[next..], AssistantNext, output + [turn])
  {
    ResultsAnswer(ms[index..], p);
    PassResults(GeminiContent, whole, ms[index..], p, output);
    NamesOnRecord(ms[index..], Asked(p), calls);
    turn, next := FunctionResponseTurn(source, index, calls, ms, ms[index..], Asked(p));
    RestAfter(ms, index, next);
  }

  /** Gemini's `contents`; `calls` remembers the name of every call. */
  method Contents(source: seq<JsonValue>, ghost ms: seq<Message>) returns (output: seq<JsonValue>)
    requires Translatable(source, ms)
    ensures output == Each(GeminiContent, Group(ms, []))
  {
    output := [];
    var index := 0;
    var calls: map<string, string> := map[];
    ghost var p, whole := Opening, Each(GeminiContent, Group(ms, []));
    Begin(GeminiContent, source, ms);
    while index < |source|
      invariant ShowsAll(source, ms) && index <= |ms| && Along(GeminiContent, whole, ms[index..], p, output)
      invariant Named(calls, Asked(p))
    {
      var arm := ChooseArm(source, index, ms);
      if arm == SkipIt {
        PassInstruction(GeminiContent, whole, ms[index..], p, output);
        RestAfter(ms, index, index + 1);
        index := index + 1;
      } else if arm == TakeUser {
        var turn := GeminiUser(source, index, ms, whole, p, output);
        output, index, p := output + [turn], index + 1, AssistantNext;
      } else if arm == TakeAssistant {
        var turn, named := GeminiAssistant(source, index, calls, ms, whole, p, output);
        output, calls, index, p := output + [turn], named, index + 1, AfterCalls(ms[index].calls);
      } else {
        var turn, next := GeminiResults(source, index, calls, ms, whole, p, output);
        output, index, p := output + [turn], next, AssistantNext;
      }
    }
    Done(GeminiContent, whole, p, output);
  }
}
