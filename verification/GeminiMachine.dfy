/** The event handlers of `GeminiSseDecoder`, updating its call tables in place. */
module GeminiMachine {
  import opened Wrappers
  import opened Json
  import opened Utf8
  import opened Response
  import opened Assembler
  import opened AssemblerMachine
  import opened Sse
  import opened Access
  import opened Gemini

  class GeminiEvents {
    const assembler: StreamAssembler
    var data: seq<byte>
    var nativeCalls: map<string, GeminiCall>
    var ambiguousNativeIds: set<string>
    var nextCall: nat
    var done: bool
    var promptTokens: Option<nat>
    var completionTokens: Option<nat>
    var invalidUsage: bool

    constructor (session: Session, drawn: nat)
      ensures fresh(assembler) && assembler.session == session
      ensures assembler.Valid() && View() == Gemini.Start(drawn)
    {
      assembler := new StreamAssembler(session, drawn);
      data, nativeCalls, ambiguousNativeIds, nextCall, done := [], map[], {}, 0, false;
      promptTokens, completionTokens, invalidUsage := None, None, false;
    }

    ghost function View(): GeminiState
      reads this, assembler
      requires assembler.Valid()
    {
      GeminiState(assembler.View(), data, nativeCalls, ambiguousNativeIds, nextCall, done, promptTokens, completionTokens, invalidUsage)
    }

    /** The walk over the parts of one event, as far as it has come. */
    ghost function Walk(eventIds: set<string>, content: Option<string>, toolCalls: seq<ToolCallDelta>): Scan
      reads this
    {
      Scan(nativeCalls, ambiguousNativeIds, nextCall, eventIds, content, toolCalls)
    }

    ghost predicate Did(step: Step<GeminiState>, r: Result<seq<ChatChunk>, TargetErrorKind>)
      reads this, assembler
    {
      match r
      case Err(kind) => step == Fail(kind)
      case Ok(out) => assembler.Valid() && step == Next(View(), out)
    }

    /** `line`. */
    method ReadLine(raw: seq<byte>) returns (r: Result<seq<ChatChunk>, TargetErrorKind>)
      requires assembler.Valid()
      modifies this, assembler
      ensures Did(Line(assembler.session, old(View()), raw), r)
    {
      var line := StripCr(raw);
      if line == [] {
        r := DispatchData();
        return;
      }
      if line[0] == COLON {
        return Ok([]);
      }
      var value := FieldValue(line, DATA_FIELD);
      if value.Some? {
        var appended := AppendData(data, value.value);
        if appended.None? {
          return Err(InvalidResponseError);
        }
        data := appended.value;
      }
      r := Ok([]);
    }

    /** `dispatch`. */
    method DispatchData() returns (r: Result<seq<ChatChunk>, TargetErrorKind>)
      requires assembler.Valid()
      modifies this, assembler
      ensures Did(Dispatch(assembler.session, old(View())), r)
    {
      if data == [] {
        return Ok([]);
      }
      var payload := data;
      data := [];
      var root := DecodePayload(payload);
      if root.None? {
        return Err(InvalidResponseError);
      }
      Capture(root.value);
      r := ReadRoot(root.value);
    }

    method ReadRoot(root: seq<Member>) returns (r: Result<seq<ChatChunk>, TargetErrorKind>)
      requires assembler.Valid()
      modifies this, assembler
      ensures Did(DispatchRoot(assembler.session, old(View()), root), r)
    {
      var candidates := Field(root, "candidates");
      var hasUsage := Field(root, "usageMetadata").Some?;
      if done {
        return if candidates.None? && hasUsage then Ok([]) else Err(InvalidResponseError);
      }
      match candidates {
        case Some(Array(items)) =>
          if |items| == 1 {
            r := ReadCandidate(items[0]);
          } else if items == [] && PolicyBlock(root) {
            r := Push(EMPTY_DELTA, Some(NContentFilter));
          } else {
            r := Err(InvalidResponseError);
          }
        case None =>
          if hasUsage {
            r := Ok([]);
          } else if PolicyBlock(root) {
            r := Push(EMPTY_DELTA, Some(NContentFilter));
          } else {
            r := Err(InvalidResponseError);
          }
        case _ => r := Err(InvalidResponseError);
      }
    }

    /** `capture_usage`. */
    method Capture(root: seq<Member>)
      requires assembler.Valid()
      modifies this`promptTokens, this`completionTokens, this`invalidUsage
      ensures View() == CaptureUsage(old(View()), root)
    {
      match Field(root, "usageMetadata") {
        case None =>
        case Some(Object(usage)) =>
          var prompt := UsageComponent(Field(usage, "promptTokenCount"));
          if prompt.None? {
            invalidUsage := true;
          } else if prompt.value.Some? {
            promptTokens := prompt.value;
          }
          var completion := UsageComponent(Field(usage, "candidatesTokenCount"));
          if completion.None? {
            invalidUsage := true;
          } else if completion.value.Some? {
            completionTokens := completion.value;
          }
        case _ => invalidUsage := true;
      }
    }

    /** `candidate`. */
    method ReadCandidate(v: JsonValue) returns (r: Result<seq<ChatChunk>, TargetErrorKind>)
      requires assembler.Valid()
      modifies this, assembler
      ensures Did(Candidate(assembler.session, old(View()), v), r)
    {
      if !v.Object? || !IndexIsZero(v.fields) {
        return Err(InvalidResponseError);
      }
      var terminal := CandidateTerminal(v.fields);
      if terminal.None? {
        return Err(InvalidResponseError);
      }
      var content := Field(v.fields, "content");
      if content.None? {
        if terminal.value != Some(NContentFilter) {
          return Err(InvalidResponseError);
        }
        r := Push(EMPTY_DELTA, terminal.value);
        return;
      }
      var delta := ReadContent(content.value);
      if delta.None? {
        return Err(InvalidResponseError);
      }
      r := Push(delta.value, terminal.value);
    }

    /** `content`: the delta of one event, its calls entered in the tables on the way. */
    method ReadContent(v: JsonValue) returns (delta: Option<AssistantDelta>)
      requires assembler.Valid()
      modifies this`nativeCalls, this`ambiguousNativeIds, this`nextCall
      ensures var sc := Content(assembler.session.request, old(View()), v);
              && (delta.None? <==> sc.None?)
              && (delta.Some? ==>
                    && delta.value == AssistantDelta(None, sc.value.content, sc.value.toolCalls)
                    && View() == old(View()).(nativeCalls := sc.value.calls, ambiguous := sc.value.ambiguous, nextCall := sc.value.nextCall))
    {
      if !v.Object? {
        return None;
      }
      if Field(v.fields, "role").Some? && RequiredString(v.fields, "role") != Some("model") {
        return None;
      }
      var parts := RequiredArray(v.fields, "parts");
      if parts.None? {
        return None;
      }
      delta := ReadParts(parts.value);
    }

    method ReadParts(parts: seq<JsonValue>) returns (delta: Option<AssistantDelta>)
      modifies this`nativeCalls, this`ambiguousNativeIds, this`nextCall
      ensures var sc := ScanParts(assembler.session.request, old(Walk({}, None, [])), parts);
              && (delta.None? <==> sc.None?)
              && (delta.Some? ==>
                    && delta.value == AssistantDelta(None, sc.value.content, sc.value.toolCalls)
                    && nativeCalls == sc.value.calls && ambiguousNativeIds == sc.value.ambiguous && nextCall == sc.value.nextCall)
    {
      var content: Option<string> := None;
      var toolCalls: seq<ToolCallDelta> := [];
      var eventIds: set<string> := {};
      assert parts[0..] == parts;
      for i := 0 to |parts|
        invariant ScanParts(assembler.session.request, old(Walk({}, None, [])), parts)
               == ScanParts(assembler.session.request, Walk(eventIds, content, toolCalls), parts[i..])
      {
        assert parts[i..][0] == parts[i] && parts[i..][1..] == parts[i + 1..];
        if !parts[i].Object? {
          return None;
        }
        match (Field(parts[i].fields, "text"), Field(parts[i].fields, "functionCall")) {
          case (Some(String(text)), None) =>
            content := Some((if content.Some? then content.value else "") + text);
          case (None, Some(call)) =>
            var part;
            part, eventIds := ReadCall(call, eventIds, content, toolCalls);
            if part.None? {
              return None;
            }
            toolCalls := toolCalls + [part.value];
          case _ => return None;
        }
      }
      delta := Some(AssistantDelta(None, content, toolCalls));
    }

    /** `call`: one function call, with the native IDs already seen in this event. */
    method ReadCall(v: JsonValue, eventIds: set<string>, ghost content: Option<string>, ghost toolCalls: seq<ToolCallDelta>)
      returns (part: Option<ToolCallDelta>, seen: set<string>)
      modifies this`nativeCalls, this`ambiguousNativeIds, this`nextCall
      ensures var sc := ScanCall(assembler.session.request, old(Walk(eventIds, content, toolCalls)), v);
              && (part.None? <==> sc.None?)
              && (part.Some? ==> sc.value == Walk(seen, content, toolCalls + [part.value]))
    {
      seen := eventIds;
      if !v.Object? {
        return None, seen;
      }
      var id, name, args := NativeId(v.fields), RequiredString(v.fields, "name"), RequiredObject(v.fields, "args");
      if id.None? || name.None? || args.None? || !CallAllowed(assembler.session.request, name.value) {
        return None, seen;
      }
      part, seen := EnterCall(id.value, name.value, Encode(Native, Object(args.value)), eventIds, content, toolCalls);
    }

    method EnterCall(id: Option<string>, name: string, arguments: string, eventIds: set<string>,
                     ghost content: Option<string>, ghost toolCalls: seq<ToolCallDelta>)
      returns (part: Option<ToolCallDelta>, seen: set<string>)
      modifies this`nativeCalls, this`ambiguousNativeIds, this`nextCall
      ensures var sc := TakeCall(old(Walk(eventIds, content, toolCalls)), id, name, arguments);
              && (part.None? <==> sc.None?)
              && (part.Some? ==> sc.value == Walk(seen, content, toolCalls + [part.value]))
    {
      seen := eventIds;
      if id.None? {
        var new_ := NewCallPart(None, name, arguments);
        return Some(new_), seen;
      }
      if id.value in ambiguousNativeIds {
        return None, seen;
      }
      if id.value in seen {
        ambiguousNativeIds := ambiguousNativeIds + {id.value};
        var new_ := NewCallPart(None, name, arguments);
        return Some(new_), seen;
      }
      seen := seen + {id.value};
      if id.value in nativeCalls {
        var existing := nativeCalls[id.value];
        if existing.name != name {
          return None, seen;
        }
        return Some(ToolCallDelta(existing.index, id, None, None, Some(arguments))), seen;
      }
      nativeCalls := nativeCalls[id.value := GeminiCall(nextCall, name)];
      var new_ := NewCallPart(id, name, arguments);
      part := Some(new_);
    }

    method NewCallPart(id: Option<string>, name: string, arguments: string) returns (part: ToolCallDelta)
      modifies this`nextCall
      ensures part == ToolCallDelta(old(nextCall), id, Some("function"), Some(name), Some(arguments)) && nextCall == old(nextCall) + 1
    {
      part := ToolCallDelta(nextCall, id, Some("function"), Some(name), Some(arguments));
      nextCall := nextCall + 1;
    }

    /** `push`. */
    method Push(delta: AssistantDelta, terminal: Option<NativeTerminal>) returns (r: Result<seq<ChatChunk>, TargetErrorKind>)
      requires assembler.Valid()
      modifies this`done, assembler
      ensures Did(PushDelta(assembler.session, old(View()), delta, terminal), r)
    {
      var chunk := assembler.PushDelta(0, delta, terminal);
      if chunk.Err? {
        return Err(TargetError(chunk.error));
      }
      if terminal.Some? {
        done := true;
      }
      r := Ok(ChunkList(chunk.value));
    }

    /** The end of the source: `finish`. */
    method Finish() returns (r: Result<seq<ChatChunk>, TargetErrorKind>)
      requires assembler.Valid()
      modifies assembler
      ensures Did(End(assembler.session, old(View())), r)
    {
      if data != [] || !done || !assembler.started || !assembler.terminal {
        return Err(InvalidResponseError);
      }
      var usage := if invalidUsage then None else NormalizeUsage(promptTokens, completionTokens);
      if usage.None? {
        return Ok([]);
      }
      var chunk := assembler.UsageChunk(usage.value);
      if chunk.Err? {
        return Err(TargetError(chunk.error));
      }
      r := Ok(ChunkList(chunk.value));
    }
  }
}
