/** `StreamAssembler` as the source keeps it: a map of calls by index, a set of used IDs,
    a counter and flags, all updated in place. */
module AssemblerMachine {
  import opened Wrappers
  import opened Response
  import opened Assembler

  /** The entries of a map whose keys are 0, 1, ..., n - 1. */
  ghost function InOrder(calls: map<nat, PartialCall>, n: nat): (r: seq<PartialCall>)
    requires forall i: nat :: i in calls <==> i < n
    ensures |r| == n && forall i: nat :: i < n ==> r[i] == calls[i]
  {
    seq(n, i requires 0 <= i < n && i in calls => calls[i])
  }

  class StreamAssembler {
    const session: Session
    var calls: map<nat, PartialCall>
    var usedIds: set<string>
    var nextIndex: nat
    /** How many values this stream has drawn from `NEXT_ID`. */
    var drawn: nat
    var started: bool
    var sawContent: bool
    var terminal: bool
    var emittedUsage: bool

    constructor (session: Session, drawn: nat)
      ensures Valid() && this.session == session && View() == Initial(drawn)
    {
      this.session, this.drawn := session, drawn;
      calls, usedIds, nextIndex := map[], {}, 0;
      started, sawContent, terminal, emittedUsage := false, false, false, false;
    }

    /** The calls known are those introduced, in order. */
    ghost predicate Valid()
      reads this
    {
      forall i: nat :: i in calls <==> i < nextIndex
    }

    /** The state as a value. */
    ghost function View(): State
      reads this
      requires Valid()
    {
      State(InOrder(calls, nextIndex), usedIds, drawn, started, sawContent, terminal, emittedUsage)
    }

    /** `generated_call_id`: draw until the ID is new. */
    method GenerateCallId() returns (id: string)
      modifies this`usedIds, this`drawn
      ensures (id, drawn) == GeneratedCallId(session.ids, old(usedIds), old(drawn))
      ensures usedIds == old(usedIds) + {id}
    {
      id := CallId(session.ids(drawn));
      drawn := drawn + 1;
      while id in usedIds
        invariant usedIds == old(usedIds)
        invariant drawn > 0 && id == CallId(session.ids(drawn - 1))
        invariant GeneratedCallId(session.ids, usedIds, drawn - 1) == GeneratedCallId(session.ids, usedIds, old(drawn))
        decreases Ahead(session.ids, usedIds, drawn - 1)
      {
        AheadShrinks(session.ids, usedIds, drawn - 1);
        id := CallId(session.ids(drawn));
        drawn := drawn + 1;
      }
      usedIds := usedIds + {id};
    }

    /** A part with the next index introduces its call. */
    method IntroduceCall(native: Option<string>)
      requires Valid()
      modifies this`calls, this`usedIds, this`nextIndex, this`drawn
      ensures Valid() && View() == Introduce(session.ids, old(View()), native)
    {
      var id;
      var preserved := native.Some? && native.value != "" && native.value !in usedIds;
      if preserved {
        id := native.value;
        usedIds := usedIds + {id};
      } else {
        id := GenerateCallId();
      }
      ghost var before := InOrder(calls, nextIndex);
      calls := calls[nextIndex := PartialCall(id, preserved, "", "")];
      nextIndex := nextIndex + 1;
      assert InOrder(calls, nextIndex) == before + [PartialCall(id, preserved, "", "")];
    }

    /** `accept_call_delta`: the part comes back as it will be emitted. */
    method AcceptCallDelta(part: ToolCallDelta) returns (r: Result<ToolCallDelta, ResponseError>)
      requires Valid()
      modifies this`calls, this`usedIds, this`nextIndex, this`drawn
      ensures Valid()
      ensures var spec := AcceptPart(session.ids, old(View()), part);
              match r
              case Err(e) => spec == Err(e)
              case Ok(emitted) => spec == Ok((View(), emitted))
    {
      if part.index > nextIndex {
        return Err(InvalidResponse);
      }
      var out := part;
      if part.index == nextIndex {
        IntroduceCall(part.id);
        out := out.(id := Some(calls[part.index].id));
      }
      var call := calls[part.index];
      assert call == View().calls[part.index];
      if out.id.Some? && call.preserved && out.id.value != call.id {
        return Err(InvalidResponse);
      }
      if !call.preserved {
        out := out.(id := Some(call.id));
      }
      if out.kind.Some? && out.kind.value != "function" {
        return Err(InvalidResponse);
      }
      ghost var before := View();
      calls := calls[part.index := Extend(call, part)];
      assert View().calls == before.calls[part.index := Extend(call, part)];
      r := Ok(out);
    }

    /** The parts of one delta, in order, up to one that is refused. */
    method AcceptCallDeltas(parts: seq<ToolCallDelta>) returns (r: Result<seq<ToolCallDelta>, ResponseError>)
      requires Valid()
      modifies this`calls, this`usedIds, this`nextIndex, this`drawn
      ensures Valid()
      ensures var spec := AcceptParts(session.ids, old(View()), parts);
              match r
              case Err(e) => spec == Err(e)
              case Ok(emitted) => spec == Ok(Accepted(View(), emitted))
    {
      var emitted: seq<ToolCallDelta> := [];
      assert parts[0..] == parts;
      AfterNone(AcceptParts(session.ids, View(), parts));
      for i := 0 to |parts|
        invariant Valid()
        invariant AcceptParts(session.ids, old(View()), parts) == After(emitted, AcceptParts(session.ids, View(), parts[i..]))
      {
        ghost var before := View();
        var one := AcceptCallDelta(parts[i]);
        assert parts[i..][0] == parts[i] && parts[i..][1..] == parts[i + 1..];
        if one.Err? {
          return Err(one.error);
        }
        AfterOne(emitted, one.value, AcceptParts(session.ids, View(), parts[i + 1..]));
        emitted := emitted + [one.value];
      }
      assert emitted + [] == emitted;
      r := Ok(emitted);
    }

    /** `completed_calls`, in index order. */
    method CompleteCalls() returns (r: Result<seq<ToolCall>, ResponseError>)
      requires Valid()
      ensures r == CompletedCalls(DeclaredTools(session.request), View().calls)
    {
      var declared := DeclaredTools(session.request);
      var done: seq<ToolCall> := [];
      ghost var all := View().calls;
      assert all[0..] == all;
      BeforeNone(CompletedCalls(declared, all));
      for i := 0 to nextIndex
        invariant CompletedCalls(declared, all) == PutBefore(done, CompletedCalls(declared, all[i..]))
      {
        var call := calls[i];
        assert all[i..][0] == call && all[i..][1..] == all[i + 1..];
        if call.name == "" || call.name !in declared {
          return Err(InvalidResponse);
        }
        BeforeOne(done, ToolCall(call.id, call.name, call.arguments), CompletedCalls(declared, all[i + 1..]));
        done := done + [ToolCall(call.id, call.name, call.arguments)];
      }
      assert done + [] == done;
      r := Ok(done);
    }

    /** `push`. */
    method PushDelta(choiceIndex: nat, delta: AssistantDelta,
                     native: Option<NativeTerminal>) returns (r: Result<Option<ChatChunk>, ResponseError>)
      requires Valid()
      modifies this
      ensures Valid()
      ensures var spec := Push(session, old(View()), choiceIndex, delta, native);
              match r
              case Err(e) => spec == Err(e)
              case Ok(chunk) => spec == Ok(Pushed(View(), chunk))
    {
      if choiceIndex != 0 || terminal || (delta.role.Some? && delta.role.value != "assistant") {
        return Err(InvalidResponse);
      }
      var parts :- AcceptCallDeltas(delta.toolCalls);
      if delta.role.None? && delta.content.None? && parts == [] && native.None? {
        return Ok(None);
      }
      r := EmitDelta(delta.(toolCalls := parts), native);
    }

    method EmitDelta(delta: AssistantDelta, native: Option<NativeTerminal>) returns (r: Result<Option<ChatChunk>, ResponseError>)
      requires Valid()
      modifies this`started, this`sawContent, this`terminal
      ensures Valid()
      ensures var spec := Emit(session, old(View()), delta, native);
              match r
              case Err(e) => spec == Err(e)
              case Ok(chunk) => spec == Ok(Pushed(View(), chunk))
    {
      var out := delta;
      if !started {
        out := out.(role := Some("assistant"));
        started := true;
      }
      sawContent := sawContent || delta.content.Some?;
      var finish := None;
      if native.Some? {
        var completed :- CompleteCalls();
        var reason :- FinishWith(session.request, sawContent, completed, native.value);
        terminal := true;
        finish := Some(reason);
      }
      r := Ok(Some(OrdinaryChunk(session, out, finish)));
    }

    /** `usage_chunk`. */
    method UsageChunk(usage: Usage) returns (r: Result<Option<ChatChunk>, ResponseError>)
      requires Valid()
      modifies this`emittedUsage
      ensures Valid()
      ensures var spec := PushUsage(session, old(View()), usage);
              match r
              case Err(e) => spec == Err(e)
              case Ok(chunk) => spec == Ok(Pushed(View(), chunk))
    {
      if !started || !terminal {
        return Err(InvalidResponse);
      }
      if !session.request.includeUsage || emittedUsage || !ValidUsage(usage) {
        return Ok(None);
      }
      emittedUsage := true;
      r := Ok(Some(UsageOnlyChunk(session, usage)));
    }
  }

  ghost function After(parts: seq<ToolCallDelta>, rest: Result<Accepted, ResponseError>): Result<Accepted, ResponseError> {
    match rest
    case Err(e) => Err(e)
    case Ok(a) => Ok(Accepted(a.state, parts + a.parts))
  }

  lemma AfterNone(rest: Result<Accepted, ResponseError>)
    ensures After([], rest) == rest
  {
    if rest.Ok? {
      assert [] + rest.value.parts == rest.value.parts;
    }
  }

  lemma AfterOne(parts: seq<ToolCallDelta>, part: ToolCallDelta, rest: Result<Accepted, ResponseError>)
    ensures After(parts, After([part], rest)) == After(parts + [part], rest)
  {
    if rest.Ok? {
      Associative(parts, [part], rest.value.parts);
    }
  }

  ghost function PutBefore(done: seq<ToolCall>, rest: Result<seq<ToolCall>, ResponseError>): Result<seq<ToolCall>, ResponseError> {
    match rest
    case Err(e) => Err(e)
    case Ok(calls) => Ok(done + calls)
  }

  lemma BeforeNone(rest: Result<seq<ToolCall>, ResponseError>)
    ensures PutBefore([], rest) == rest
  {
    if rest.Ok? {
      assert [] + rest.value == rest.value;
    }
  }

  lemma BeforeOne(done: seq<ToolCall>, call: ToolCall, rest: Result<seq<ToolCall>, ResponseError>)
    ensures PutBefore(done, PutBefore([call], rest)) == PutBefore(done + [call], rest)
  {
    if rest.Ok? {
      Associative(done, [call], rest.value);
    }
  }
}
