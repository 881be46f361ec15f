/** `validate_messages` and `validate_tool_calls` as the source runs them: one pass that
    updates the turn state and the two ID sets in place. */
module TranscriptMachine {
  import opened Wrappers
  import opened Json
  import opened Transcript

  lemma {:induction false} RunConcat(tools: seq<string>, s: Turns, a: seq<Message>, b: seq<Message>)
    ensures Run(tools, s, a + b) == match Run(tools, s, a) case None => None case Some(mid) => Run(tools, mid, b)
    decreases |a|
  {
    if a == [] {
      assert a + b == b;
    } else {
      assert (a + b)[0] == a[0] && (a + b)[1..] == a[1..] + b;
      match Turn(tools, s, a[0]) {
        case None =>
        case Some(next) => RunConcat(tools, next, a[1..], b);
      }
    }
  }

  lemma FreshPrefix(tools: seq<string>, taken: set<string>, calls: seq<Call>, n: nat)
    requires n <= |calls| && Fresh(tools, taken, calls)
    ensures Fresh(tools, taken, calls[..n])
  {
    assert calls == calls[..n] + calls[n..];
    FreshSplit(tools, taken, calls[..n], calls[n..]);
  }

  lemma FreshSnoc(tools: seq<string>, taken: set<string>, calls: seq<Call>, call: Call)
    requires Fresh(tools, taken, calls)
    ensures Fresh(tools, taken, calls + [call]) <==> call.id != "" && call.id !in taken + Ids(calls) && call.name in tools
    ensures Ids(calls + [call]) == Ids(calls) + {call.id}
  {
    FreshSplit(tools, taken, calls, [call]);
    assert [call][0] == call;
    assert (calls + [call])[|calls|] == call;
  }

  class Validator {
    const toolNames: seq<string>
    var state: TurnState
    var callIds: set<string>
    var unresolved: set<string>

    constructor (toolNames: seq<string>)
      ensures this.toolNames == toolNames && View() == START
    {
      this.toolNames := toolNames;
      state, callIds, unresolved := ExpectInstruction, {}, {};
    }

    function View(): Turns
      reads this
    {
      Turns(state, callIds, unresolved)
    }

    /** The message was taken, exactly if it has an allowed shape and it is its turn. */
    ghost predicate Took(before: Turns, m: Option<Message>, ok: bool)
      reads this
    {
      && (ok <==> m.Some? && Turn(toolNames, before, m.value).Some?)
      && (ok ==> Some(View()) == Turn(toolNames, before, m.value))
    }

    /** `validate_tool_calls`. */
    method ToolCalls(value: JsonValue) returns (ids: Option<set<string>>)
      modifies this`callIds
      ensures var calls := ReadToolCalls(Some(value));
              && (ids.Some? <==> calls.Some? && Fresh(toolNames, old(callIds), calls.value))
              && (ids.Some? ==> ids.value == Ids(calls.value) && callIds == old(callIds) + Ids(calls.value))
    {
      if !value.Array? || value.items == [] {
        return None;
      }
      ids := AddToolCalls(value.items, ReadCall);
    }

    /** Its loop, one shape after the other. */
    method AddToolCalls(items: seq<JsonValue>, read: JsonValue -> Option<Call>) returns (ids: Option<set<string>>)
      modifies this`callIds
      ensures var calls := Collect(read, items);
              && (ids.Some? <==> calls.Some? && Fresh(toolNames, old(callIds), calls.value))
              && (ids.Some? ==> ids.value == Ids(calls.value) && callIds == old(callIds) + Ids(calls.value))
    {
      var added: set<string> := {};
      ghost var calls: seq<Call> := [];
      for index := 0 to |items|
        invariant |calls| == index && forall i :: 0 <= i < index ==> read(items[i]) == Some(calls[i])
        invariant Fresh(toolNames, old(callIds), calls)
        invariant added == Ids(calls) && callIds == old(callIds) + added
      {
        var call := read(items[index]);
        if call.None? {
          return None;
        }
        FreshSnoc(toolNames, old(callIds), calls, call.value);
        StillFresh(toolNames, old(callIds), calls, call.value, items, read);
        if call.value.id == "" || call.value.id in callIds {
          return None;
        }
        callIds := callIds + {call.value.id};
        if call.value.name !in toolNames {
          return None;
        }
        added := added + {call.value.id};
        calls := calls + [call.value];
      }
      assert Collect(read, items).value == calls;
      ids := Some(added);
    }

    /** A system or developer message. */
    method TakeInstruction(fields: seq<Member>) returns (ok: bool)
      modifies this
      ensures Took(old(View()), match ReadText(fields) case None => None case Some(t) => Some(Instruction(t)), ok)
    {
      ok := ReadText(fields).Some? && state == ExpectInstruction;
    }

    method TakeUser(fields: seq<Member>) returns (ok: bool)
      modifies this
      ensures Took(old(View()), match ReadText(fields) case None => None case Some(t) => Some(User(t)), ok)
    {
      if ReadText(fields).None? || (state != ExpectInstruction && state != AfterAssistant) {
        return false;
      }
      state := AfterUser;
      ok := true;
    }

    /** The calls of an assistant message, if it has any, are in use and unresolved. */
    method AwaitResults(toolCalls: Option<JsonValue>) returns (ok: bool)
      modifies this`callIds, this`unresolved
      ensures var calls := ReadToolCalls(toolCalls);
              && (ok <==> calls.Some? && AddCalls(toolNames, old(callIds), calls.value).Some?)
              && (ok ==> AddCalls(toolNames, old(callIds), calls.value) == Some(callIds) && unresolved == old(unresolved) + Ids(calls.value))
    {
      ghost var calls := ReadToolCalls(toolCalls);
      if calls.Some? {
        AddCallsIsFresh(toolNames, callIds, calls.value);
      }
      if toolCalls.None? {
        assert unresolved + Ids([]) == unresolved;
        return true;
      }
      var ids := ToolCalls(toolCalls.value);
      if ids.None? {
        return false;
      }
      unresolved := unresolved + ids.value;
      ok := true;
    }

    method TakeAssistant(fields: seq<Member>) returns (ok: bool)
      modifies this
      ensures Took(old(View()), ReadAssistant(fields), ok)
    {
      if !Closed(fields, {"role", "content", "tool_calls"}, {"role"}) {
        return false;
      }
      ok := TakeSpeech(ReadContent(Field(fields, "content")), Field(fields, "tool_calls"));
    }

    method TakeSpeech(content: Option<Option<string>>, toolCalls: Option<JsonValue>) returns (ok: bool)
      modifies this
      ensures Took(old(View()), AssistantOf(content, ReadToolCalls(toolCalls)), ok)
    {
      if content.None? {
        return false;
      }
      var added := AwaitResults(toolCalls);
      if !added {
        return false;
      }
      if content.value.None? && toolCalls.None? {
        return false;
      }
      if state != AfterUser && state != AfterToolResult {
        return false;
      }
      state := if toolCalls.Some? then ToolResults else AfterAssistant;
      ok := true;
    }

    method TakeToolResult(fields: seq<Member>) returns (ok: bool)
      modifies this
      ensures Took(old(View()), ReadToolResult(fields), ok)
    {
      if !Closed(fields, {"role", "tool_call_id", "content"}, {"role", "tool_call_id", "content"}) {
        return false;
      }
      var id := StringField(fields, "tool_call_id");
      if id.None? || (state != ToolResults && state != AfterToolResult) || id.value !in unresolved {
        return false;
      }
      unresolved := unresolved - {id.value};
      state := if unresolved == {} then AfterToolResult else ToolResults;
      ok := StringField(fields, "content").Some?;
    }

    method Take(value: JsonValue) returns (ok: bool)
      modifies this
      ensures Took(old(View()), ReadMessage(value), ok)
    {
      if !value.Object? {
        return false;
      }
      var fields := value.fields;
      var role := StringField(fields, "role");
      if role.None? {
        return false;
      }
      match role.value {
        case "system" => ok := TakeInstruction(fields);
        case "developer" => ok := TakeInstruction(fields);
        case "user" => ok := TakeUser(fields);
        case "assistant" => ok := TakeAssistant(fields);
        case "tool" => ok := TakeToolResult(fields);
        case _ => ok := false;
      }
    }
  }

  /** Calls that are refused once are refused for good. */
  lemma StillFresh(tools: seq<string>, taken: set<string>, calls: seq<Call>, call: Call, items: seq<JsonValue>,
                   read: JsonValue -> Option<Call>)
    requires |calls| < |items| && read(items[|calls|]) == Some(call)
    requires forall i :: 0 <= i < |calls| ==> read(items[i]) == Some(calls[i])
    ensures Collect(read, items).Some? && Fresh(tools, taken, Collect(read, items).value) ==> Fresh(tools, taken, calls + [call])
  {
    if Collect(read, items).Some? && Fresh(tools, taken, Collect(read, items).value) {
      var whole := Collect(read, items).value;
      assert whole[..|calls| + 1] == calls + [call];
      FreshPrefix(tools, taken, whole, |calls| + 1);
    }
  }

  /** The pass over the messages decides the grammar. */
  method ValidateMessages(value: JsonValue, toolNames: seq<string>) returns (ok: bool)
    ensures ok <==> ValidMessages(toolNames, value)
  {
    if !value.Array? || value.items == [] {
      return false;
    }
    var items := value.items;
    var validator := new Validator(toolNames);
    ghost var ms: seq<Message> := [];
    for index := 0 to |items|
      invariant validator.toolNames == toolNames && Upto(ReadMessage, items, ms, index)
      invariant Run(toolNames, START, ms) == Some(validator.View())
    {
      ghost var before := validator.View();
      var taken := validator.Take(items[index]);
      OneMoreMessage(toolNames, items, ms, before, ReadMessage);
      if !taken {
        return false;
      }
      ms := ms + [ReadMessage(items[index]).value];
    }
    AllRead(ReadMessage, items, ms);
    TurnMachineIsGrammar(toolNames, ms);
    ok := validator.state == AfterUser || validator.state == AfterToolResult;
  }

  /** The first `n` items have been read. */
  ghost predicate Upto(read: JsonValue -> Option<Message>, items: seq<JsonValue>, ms: seq<Message>, n: nat) {
    n == |ms| <= |items| && forall i :: 0 <= i < n ==> read(items[i]) == Some(ms[i])
  }

  lemma AllRead(read: JsonValue -> Option<Message>, items: seq<JsonValue>, ms: seq<Message>)
    requires Upto(read, items, ms, |items|)
    ensures Collect(read, items) == Some(ms)
  {
    assert Collect(read, items).value == ms;
  }

  /** A message that is taken is one step more of the run; one that is refused makes the whole list invalid. */
  lemma OneMoreMessage(tools: seq<string>, items: seq<JsonValue>, ms: seq<Message>, before: Turns, read: JsonValue -> Option<Message>)
    requires Upto(read, items, ms, |ms|) && |ms| < |items| && Run(tools, START, ms) == Some(before)
    ensures var m := read(items[|ms|]);
            if m.Some? && Turn(tools, before, m.value).Some?
            then && Upto(read, items, ms + [m.value], |ms| + 1)
                 && Run(tools, START, ms + [m.value]) == Turn(tools, before, m.value)
            else !(Collect(read, items).Some? && Conversation(Collect(read, items).value)
                   && Fresh(tools, {}, AllCalls(Collect(read, items).value)))
  {
    var m := read(items[|ms|]);
    if m.Some? {
      RunConcat(tools, START, ms, [m.value]);
      assert [m.value][1..] == [];
    }
    if m.Some? && Turn(tools, before, m.value).None? && Collect(read, items).Some? {
      var whole := Collect(read, items).value;
      TurnMachineIsGrammar(tools, whole);
      assert whole == ms + whole[|ms|..];
      RunConcat(tools, START, ms, whole[|ms|..]);
    }
  }
}
