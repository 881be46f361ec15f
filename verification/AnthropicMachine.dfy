/** The event handlers of `AnthropicSseDecoder`, which update its fields and its assembler
    in place. */
module AnthropicMachine {
  import opened Wrappers
  import opened Json
  import opened JsonMachine
  import opened Utf8
  import opened Response
  import opened Assembler
  import opened AssemblerMachine
  import opened Sse
  import opened Access
  import opened Anthropic

  class AnthropicEvents {
    const assembler: StreamAssembler
    var data: seq<byte>
    var event: Option<string>
    var blocks: map<nat, Block>
    var nextBlock: nat
    var nextCall: nat
    var started: bool
    var sawMessageDelta: bool
    var sawMessageStop: bool
    var done: bool
    var inputTokens: Option<nat>
    var outputTokens: Option<nat>

    constructor (session: Session, drawn: nat)
      ensures fresh(assembler) && assembler.session == session
      ensures assembler.Valid() && View() == Anthropic.Start(drawn)
    {
      assembler := new StreamAssembler(session, drawn);
      data, event, blocks, nextBlock, nextCall := [], None, map[], 0, 0;
      started, sawMessageDelta, sawMessageStop, done := false, false, false, false;
      inputTokens, outputTokens := None, None;
    }

    ghost function View(): AnthropicState
      reads this, assembler
      requires assembler.Valid()
    {
      AnthropicState(assembler.View(), data, event, blocks, nextBlock, nextCall, started, sawMessageDelta, sawMessageStop, done,
                     inputTokens, outputTokens)
    }

    /** The handler did what the specification says, chunks put out and error included. */
    ghost predicate Did(step: Step<AnthropicState>, r: Result<seq<ChatChunk>, TargetErrorKind>)
      reads this, assembler
    {
      match r
      case Err(kind) => step == Fail(kind)
      case Ok(out) => assembler.Valid() && step == Next(View(), out)
    }

    method Push(delta: AssistantDelta, native: Option<NativeTerminal>) returns (r: Result<seq<ChatChunk>, TargetErrorKind>)
      requires assembler.Valid()
      modifies assembler
      ensures Did(PushDelta(assembler.session, old(View()), delta, native), r)
    {
      var chunk := assembler.PushDelta(0, delta, native);
      if chunk.Err? {
        return Err(TargetError(chunk.error));
      }
      r := Ok(ChunkList(chunk.value));
    }

    method StartMessage(value: seq<Member>) returns (r: Result<seq<ChatChunk>, TargetErrorKind>)
      requires assembler.Valid()
      modifies this, assembler
      ensures Did(MessageStart(old(View()), value), r)
    {
      if started || sawMessageDelta || sawMessageStop {
        return Err(InvalidResponseError);
      }
      var message := RequiredObject(value, "message");
      if message.None? || RequiredString(message.value, "type") != Some("message")
         || RequiredString(message.value, "role") != Some("assistant") {
        return Err(InvalidResponseError);
      }
      if Field(message.value, "usage").Some? {
        inputTokens := UsageCount(message.value, "input_tokens");
      }
      started := true;
      r := Ok([]);
    }

    method StartBlock(value: seq<Member>) returns (r: Result<seq<ChatChunk>, TargetErrorKind>)
      requires assembler.Valid()
      modifies this, assembler
      ensures Did(BlockStart(assembler.session, old(View()), value), r)
    {
      if !started || sawMessageDelta || RequiredUnsigned(value, "index") != Some(nextBlock) {
        return Err(InvalidResponseError);
      }
      var block := RequiredObject(value, "content_block");
      if block.None? {
        return Err(InvalidResponseError);
      }
      match RequiredString(block.value, "type") {
        case Some("text") => r := StartText(block.value);
        case Some("tool_use") => r := StartTool(block.value);
        case _ => r := Err(InvalidResponseError);
      }
    }

    /** A new block, under the next index. */
    method Open(block: Block)
      requires assembler.Valid()
      modifies this`blocks, this`nextBlock
      ensures View() == OpenBlock(old(View()), block)
    {
      blocks := blocks[nextBlock := block];
      nextBlock := nextBlock + 1;
    }

    method StartText(block: seq<Member>) returns (r: Result<seq<ChatChunk>, TargetErrorKind>)
      requires assembler.Valid()
      modifies this, assembler
      ensures Did(TextStart(assembler.session, old(View()), block), r)
    {
      var text := OptionalString(block, "text");
      if text.None? {
        return Err(InvalidResponseError);
      }
      Open(Block(TextBlock, None, ""));
      r := Push(EMPTY_DELTA.(content := text.value), None);
    }

    method StartTool(block: seq<Member>) returns (r: Result<seq<ChatChunk>, TargetErrorKind>)
      requires assembler.Valid()
      modifies this, assembler
      ensures Did(ToolStart(assembler.session, old(View()), block), r)
    {
      var id, name := OptionalString(block, "id"), RequiredString(block, "name");
      if id.None? || name.None? || RequiredObject(block, "input") != Some([]) {
        return Err(InvalidResponseError);
      }
      var index := nextCall;
      nextCall := nextCall + 1;
      Open(Block(ToolBlock, Some(index), ""));
      r := Push(EMPTY_DELTA.(toolCalls := [ToolStartPart(index, id.value, name.value)]), None);
    }

    method DeltaOfBlock(value: seq<Member>) returns (r: Result<seq<ChatChunk>, TargetErrorKind>)
      requires assembler.Valid() && Coupled(View())
      modifies this, assembler
      ensures Did(BlockDelta(assembler.session, old(View()), value), r)
    {
      if !started || sawMessageDelta {
        return Err(InvalidResponseError);
      }
      var index, delta := RequiredUnsigned(value, "index"), RequiredObject(value, "delta");
      if index.None? || delta.None? || index.value !in blocks {
        return Err(InvalidResponseError);
      }
      var state := blocks[index.value];
      var text := DeltaText(delta.value, state.kind);
      if text.None? {
        return Err(InvalidResponseError);
      }
      assert BlockCoupled(state, assembler.View().calls);
      match state.kind {
        case TextBlock =>
          r := Push(EMPTY_DELTA.(content := text), None);
        case ToolBlock =>
          blocks := blocks[index.value := state.(arguments := state.arguments + text.value)];
          r := Push(EMPTY_DELTA.(toolCalls := [ArgumentsPart(state.callIndex.value, text.value)]), None);
      }
    }

    method StopBlock(value: seq<Member>) returns (r: Result<seq<ChatChunk>, TargetErrorKind>)
      requires assembler.Valid()
      modifies this, assembler
      ensures Did(BlockStop(old(View()), value), r)
    {
      if !started || sawMessageDelta {
        return Err(InvalidResponseError);
      }
      var index := RequiredUnsigned(value, "index");
      if index.None? || index.value !in blocks {
        return Err(InvalidResponseError);
      }
      var state := blocks[index.value];
      blocks := blocks - {index.value};
      if state.kind.ToolBlock? {
        var parsed := DecodeJsonValue(state.arguments);
        if parsed.Err? || !parsed.value.Object? {
          return Err(InvalidResponseError);
        }
      }
      r := Ok([]);
    }

    method DeltaOfMessage(value: seq<Member>) returns (r: Result<seq<ChatChunk>, TargetErrorKind>)
      requires assembler.Valid()
      modifies this, assembler
      ensures Did(MessageDelta(assembler.session, old(View()), value), r)
    {
      if !started || sawMessageDelta || blocks != map[] {
        return Err(InvalidResponseError);
      }
      var delta := RequiredObject(value, "delta");
      if delta.None? {
        return Err(InvalidResponseError);
      }
      var reason := RequiredString(delta.value, "stop_reason");
      if reason.None? {
        return Err(InvalidResponseError);
      }
      if Field(value, "usage").Some? {
        outputTokens := UsageCount(value, "output_tokens");
      }
      sawMessageDelta := true;
      r := Push(EMPTY_DELTA, Some(Terminal(reason.value)));
    }

    method StopMessage() returns (r: Result<seq<ChatChunk>, TargetErrorKind>)
      requires assembler.Valid()
      modifies this, assembler
      ensures Did(MessageStop(assembler.session, old(View())), r)
    {
      if !sawMessageDelta || sawMessageStop {
        return Err(InvalidResponseError);
      }
      sawMessageStop := true;
      if !assembler.started || !assembler.terminal {
        return Err(InvalidResponseError);
      }
      done := true;
      var usage := NormalizeUsage(inputTokens, outputTokens);
      if usage.None? {
        return Ok([]);
      }
      var chunk := assembler.UsageChunk(usage.value);
      if chunk.Err? {
        return Err(TargetError(chunk.error));
      }
      r := Ok(ChunkList(chunk.value));
    }

    /** `dispatch`. */
    method DispatchEvent() returns (r: Result<seq<ChatChunk>, TargetErrorKind>)
      requires assembler.Valid() && Coupled(View())
      modifies this, assembler
      ensures Did(Dispatch(assembler.session, old(View())), r)
    {
      if data == [] {
        event := None;
        return Ok([]);
      }
      var payload, name := data, event;
      data, event := [], None;
      if name.None? || done {
        return Err(InvalidResponseError);
      }
      var value := DecodePayload(payload);
      if value.None? || RequiredString(value.value, "type") != name {
        return Err(InvalidResponseError);
      }
      r := HandleEvent(name.value, value.value);
    }

    method HandleEvent(name: string, value: seq<Member>) returns (r: Result<seq<ChatChunk>, TargetErrorKind>)
      requires assembler.Valid() && Coupled(View())
      modifies this, assembler
      ensures Did(Handle(assembler.session, old(View()), name, value), r)
    {
      match name {
        case "message_start" => r := StartMessage(value);
        case "content_block_start" => r := StartBlock(value);
        case "content_block_delta" => r := DeltaOfBlock(value);
        case "content_block_stop" => r := StopBlock(value);
        case "message_delta" => r := DeltaOfMessage(value);
        case "message_stop" => r := StopMessage();
        case _ => r := Err(InvalidResponseError);
      }
    }

    /** `line`. */
    method ReadLine(raw: seq<byte>) returns (r: Result<seq<ChatChunk>, TargetErrorKind>)
      requires assembler.Valid() && Coupled(View())
      modifies this, assembler
      ensures Did(Line(assembler.session, old(View()), raw), r)
    {
      var line := StripCr(raw);
      if line == [] {
        r := DispatchEvent();
        return;
      }
      if line[0] == COLON {
        return Ok([]);
      }
      var name := FieldValue(line, EVENT_FIELD);
      if name.Some? {
        var text := FromBytes(name.value);
        if event.Some? || text.None? {
          return Err(InvalidResponseError);
        }
        event := text;
        return Ok([]);
      }
      var value := FieldValue(line, DATA_FIELD);
      if value.Some? {
        var appended := AppendData(data, value.value);
        if appended.None? {
          return Err(InvalidResponseError);
        }
        data := appended.value;
      }
      r := Ok([]);
    }
  }
}
