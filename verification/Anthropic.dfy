/** The Anthropic Messages stream decoder of src/anthropic.rs. */
module Anthropic {
  import opened Wrappers
  import opened Json
  import opened JsonParser
  import opened Utf8
  import opened Response
  import opened Assembler
  import opened Sse
  import opened Access

  datatype BlockKind = TextBlock | ToolBlock
  datatype Block = Block(kind: BlockKind, callIndex: Option<nat>, arguments: string)

  datatype AnthropicState = AnthropicState(
    asm: State, data: seq<byte>, event: Option<string>,
    blocks: map<nat, Block>, nextBlock: nat, nextCall: nat,
    started: bool, sawMessageDelta: bool, sawMessageStop: bool, done: bool,
    inputTokens: Option<nat>, outputTokens: Option<nat>)

  function Start(cursor: nat): AnthropicState {
    AnthropicState(Initial(cursor), [], None, map[], 0, 0, false, false, false, false, None, None)
  }

  // ------------------------------------------------------------ coupling

  /** Exactly one JSON object. */
  predicate IsObjectText(s: string) {
    DecodeValue(s).Ok? && DecodeValue(s).value.Object?
  }

  /** An open tool block has a call index, and the arguments the assembler has for that call. */
  ghost predicate BlockCoupled(b: Block, calls: seq<PartialCall>) {
    match b.kind
    case TextBlock => b.callIndex.None?
    case ToolBlock => b.callIndex.Some? && b.callIndex.value < |calls| && b.arguments == calls[b.callIndex.value].arguments
  }

  ghost predicate BlocksCoupled(blocks: map<nat, Block>, calls: seq<PartialCall>) {
    && (forall i :: i in blocks ==> BlockCoupled(blocks[i], calls))
    && (forall i, j :: i in blocks && j in blocks && i != j && blocks[i].callIndex.Some? ==> blocks[i].callIndex != blocks[j].callIndex)
  }

  ghost predicate HasBlock(blocks: map<nat, Block>, c: nat) {
    exists i :: i in blocks && blocks[i].callIndex == Some(c)
  }

  /** A call whose block was stopped has a complete argument object. */
  ghost predicate CallsClosed(blocks: map<nat, Block>, calls: seq<PartialCall>) {
    forall c :: 0 <= c < |calls| ==> HasBlock(blocks, c) || IsObjectText(calls[c].arguments)
  }

  ghost predicate FlagsOrdered(d: AnthropicState) {
    && (d.blocks != map[] || d.nextBlock > 0 || d.sawMessageDelta ==> d.started)
    && (d.asm.terminal ==> d.sawMessageDelta)
    && (d.sawMessageDelta ==> d.blocks == map[])
    && (d.sawMessageStop ==> d.sawMessageDelta)
    && (d.done ==> d.sawMessageStop && Finished(d.asm))
  }

  /** What every reachable state satisfies. */
  ghost predicate Coupled(d: AnthropicState) {
    && d.nextCall == |d.asm.calls|
    && BlocksCoupled(d.blocks, d.asm.calls)
    && CallsClosed(d.blocks, d.asm.calls)
    && (forall i :: i in d.blocks ==> i < d.nextBlock)
    && FlagsOrdered(d)
    && |d.data| <= MAX_SSE_EVENT_BYTES
  }

  // ------------------------------------------------------------ lines and events

  function Line(ss: Session, d: AnthropicState, raw: seq<byte>): Step<AnthropicState>
    requires Coupled(d)
  {
    var line := StripCr(raw);
    if line == [] then Dispatch(ss, d)
    else if line[0] == COLON then Next(d, [])
    else
      match FieldValue(line, EVENT_FIELD)
      case Some(name) => EventLine(d, name)
      case None =>
        match FieldValue(line, DATA_FIELD)
        case None => Next(d, [])
        case Some(value) =>
          match AppendData(d.data, value)
          case None => Fail(InvalidResponseError)
          case Some(data) => Next(d.(data := data), [])
  }

  function EventLine(d: AnthropicState, name: seq<byte>): Step<AnthropicState> {
    if d.event.Some? then Fail(InvalidResponseError)
    else
      match FromBytes(name)
      case None => Fail(InvalidResponseError)
      case Some(text) => Next(d.(event := Some(text)), [])
  }

  function Dispatch(ss: Session, d: AnthropicState): Step<AnthropicState>
    requires Coupled(d)
  {
    if d.data == [] then Next(d.(event := None), [])
    else if d.event.None? || d.done then Fail(InvalidResponseError)
    else
      match DecodePayload(d.data)
      case None => Fail(InvalidResponseError)
      case Some(value) =>
        if RequiredString(value, "type") != Some(d.event.value) then Fail(InvalidResponseError)
        else Handle(ss, d.(data := [], event := None), d.event.value, value)
  }

  function Handle(ss: Session, d: AnthropicState, event: string, value: seq<Member>): Step<AnthropicState>
    requires Coupled(d)
  {
    if event == "message_start" then MessageStart(d, value)
    else if event == "content_block_start" then BlockStart(ss, d, value)
    else if event == "content_block_delta" then BlockDelta(ss, d, value)
    else if event == "content_block_stop" then BlockStop(d, value)
    else if event == "message_delta" then MessageDelta(ss, d, value)
    else if event == "message_stop" then MessageStop(ss, d)
    else Fail(InvalidResponseError)
  }

  /** `usage_count`. */
  function UsageCount(fields: seq<Member>, name: string): Option<nat> {
    match Field(fields, "usage")
    case Some(Object(usage)) => RequiredUnsigned(usage, name)
    case _ => None
  }

  function MessageStart(d: AnthropicState, value: seq<Member>): Step<AnthropicState> {
    if d.started || d.sawMessageDelta || d.sawMessageStop then Fail(InvalidResponseError)
    else
      match RequiredObject(value, "message")
      case None => Fail(InvalidResponseError)
      case Some(message) =>
        if RequiredString(message, "type") != Some("message") || RequiredString(message, "role") != Some("assistant")
        then Fail(InvalidResponseError)
        else
          var tokens := if Field(message, "usage").Some? then UsageCount(message, "input_tokens") else d.inputTokens;
          Next(d.(started := true, inputTokens := tokens), [])
  }

  function PushDelta(ss: Session, d: AnthropicState, delta: AssistantDelta, terminal: Option<NativeTerminal>): Step<AnthropicState> {
    match Push(ss, d.asm, 0, delta, terminal)
    case Err(e) => Fail(TargetError(e))
    case Ok(p) => Next(d.(asm := p.state), ChunkList(p.chunk))
  }

  function BlockStart(ss: Session, d: AnthropicState, value: seq<Member>): Step<AnthropicState> {
    if !d.started || d.sawMessageDelta || RequiredUnsigned(value, "index") != Some(d.nextBlock) then Fail(InvalidResponseError)
    else
      match RequiredObject(value, "content_block")
      case None => Fail(InvalidResponseError)
      case Some(block) =>
        match RequiredString(block, "type")
        case None => Fail(InvalidResponseError)
        case Some(kind) =>
          if kind == "text" then TextStart(ss, d, block)
          else if kind == "tool_use" then ToolStart(ss, d, block)
          else Fail(InvalidResponseError)
  }

  function OpenBlock(d: AnthropicState, b: Block): AnthropicState {
    d.(blocks := d.blocks[d.nextBlock := b], nextBlock := d.nextBlock + 1)
  }

  function TextStart(ss: Session, d: AnthropicState, block: seq<Member>): Step<AnthropicState> {
    match OptionalString(block, "text")
    case None => Fail(InvalidResponseError)
    case Some(text) =>
      PushDelta(ss, OpenBlock(d, Block(TextBlock, None, "")), EMPTY_DELTA.(content := text), None)
  }

  function ToolStartPart(index: nat, id: Option<string>, name: string): ToolCallDelta {
    ToolCallDelta(index, id, Some("function"), Some(name), None)
  }

  function ToolStart(ss: Session, d: AnthropicState, block: seq<Member>): Step<AnthropicState> {
    match (OptionalString(block, "id"), RequiredString(block, "name"))
    case (Some(id), Some(name)) =>
      if RequiredObject(block, "input") != Some([]) then Fail(InvalidResponseError)
      else
        var d' := OpenBlock(d, Block(ToolBlock, Some(d.nextCall), "")).(nextCall := d.nextCall + 1);
        PushDelta(ss, d', EMPTY_DELTA.(toolCalls := [ToolStartPart(d.nextCall, id, name)]), None)
    case _ => Fail(InvalidResponseError)
  }

  /** The text of a delta of the kind the block expects. */
  function DeltaText(delta: seq<Member>, kind: BlockKind): Option<string> {
    match kind
    case TextBlock => if RequiredString(delta, "type") == Some("text_delta") then RequiredString(delta, "text") else None
    case ToolBlock => if RequiredString(delta, "type") == Some("input_json_delta") then RequiredString(delta, "partial_json") else None
  }

  function ArgumentsPart(index: nat, arguments: string): ToolCallDelta {
    ToolCallDelta(index, None, None, None, Some(arguments))
  }

  function BlockDelta(ss: Session, d: AnthropicState, value: seq<Member>): Step<AnthropicState>
    requires Coupled(d)
  {
    if !d.started || d.sawMessageDelta then Fail(InvalidResponseError)
    else
      match (RequiredUnsigned(value, "index"), RequiredObject(value, "delta"))
      case (Some(index), Some(delta)) =>
        if index !in d.blocks then Fail(InvalidResponseError)
        else
          (match DeltaText(delta, d.blocks[index].kind)
           case None => Fail(InvalidResponseError)
           case Some(text) => BlockText(ss, d, index, text))
      case _ => Fail(InvalidResponseError)
  }

  /** The `unwrap` of the block's call index is the `.value` below. */
  function BlockText(ss: Session, d: AnthropicState, index: nat, text: string): Step<AnthropicState>
    requires Coupled(d) && index in d.blocks
  {
    var b := d.blocks[index];
    match b.kind
    case TextBlock => PushDelta(ss, d, EMPTY_DELTA.(content := Some(text)), None)
    case ToolBlock =>
      assert BlockCoupled(b, d.asm.calls);
      var d' := d.(blocks := d.blocks[index := b.(arguments := b.arguments + text)]);
      PushDelta(ss, d', EMPTY_DELTA.(toolCalls := [ArgumentsPart(b.callIndex.value, text)]), None)
  }

  function BlockStop(d: AnthropicState, value: seq<Member>): Step<AnthropicState> {
    if !d.started || d.sawMessageDelta then Fail(InvalidResponseError)
    else
      match RequiredUnsigned(value, "index")
      case None => Fail(InvalidResponseError)
      case Some(index) =>
        if index !in d.blocks then Fail(InvalidResponseError)
        else if d.blocks[index].kind.ToolBlock? && !IsObjectText(d.blocks[index].arguments) then Fail(InvalidResponseError)
        else Next(d.(blocks := d.blocks - {index}), [])
  }

  /** `terminal`. */
  function Terminal(reason: string): NativeTerminal {
    if reason == "end_turn" || reason == "stop_sequence" then NStop
    else if reason == "max_tokens" || reason == "model_context_window_exceeded" then NLength
    else if reason == "tool_use" then NToolCalls
    else if reason == "refusal" then NContentFilter
    else if reason == "pause_turn" then NInvalid
    else NUnknown
  }

  function MessageDelta(ss: Session, d: AnthropicState, value: seq<Member>): Step<AnthropicState> {
    if !d.started || d.sawMessageDelta || d.blocks != map[] then Fail(InvalidResponseError)
    else
      match RequiredObject(value, "delta")
      case None => Fail(InvalidResponseError)
      case Some(delta) =>
        match RequiredString(delta, "stop_reason")
        case None => Fail(InvalidResponseError)
        case Some(reason) =>
          var tokens := if Field(value, "usage").Some? then UsageCount(value, "output_tokens") else d.outputTokens;
          PushDelta(ss, d.(sawMessageDelta := true, outputTokens := tokens), EMPTY_DELTA, Some(Terminal(reason)))
  }

  function MessageStop(ss: Session, d: AnthropicState): Step<AnthropicState> {
    if !d.sawMessageDelta || d.sawMessageStop || !Finished(d.asm) then Fail(InvalidResponseError)
    else
      var d' := d.(sawMessageStop := true, done := true);
      match NormalizeUsage(d.inputTokens, d.outputTokens)
      case None => Next(d', [])
      case Some(usage) =>
        match PushUsage(ss, d.asm, usage)
        case Err(e) => Fail(TargetError(e))
        case Ok(p) => Next(d'.(asm := p.state), ChunkList(p.chunk))
  }

  function End(d: AnthropicState): Step<AnthropicState> {
    if d.data != [] || !d.done then Fail(InvalidResponseError) else Next(d, [])
  }

  // ------------------------------------------------------------ the assembler never objects

  /** A text delta is always taken in, and leaves the calls alone. */
  lemma PushText(ss: Session, st: State, content: Option<string>)
    requires !st.terminal
    ensures var r := Push(ss, st, 0, EMPTY_DELTA.(content := content), None);
            r.Ok? && r.value.state.calls == st.calls && !r.value.state.terminal
  {
  }

  lemma OnePart(ids: IdSource, st: State, part: ToolCallDelta)
    ensures AcceptParts(ids, st, [part])
         == match AcceptPart(ids, st, part)
            case Err(e) => Err(e)
            case Ok((st', part')) => Ok(Accepted(st', [part']))
  {
    assert [part][1..] == [];
    if AcceptPart(ids, st, part).Ok? {
      var part' := AcceptPart(ids, st, part).value.1;
      assert [part'] + [] == [part'];
    }
  }

  lemma PushOnePart(ss: Session, st: State, part: ToolCallDelta)
    requires !st.terminal && AcceptPart(ss.ids, st, part).Ok?
    ensures var r := Push(ss, st, 0, EMPTY_DELTA.(toolCalls := [part]), None);
            && r.Ok? && !r.value.state.terminal
            && r.value.state.calls == AcceptPart(ss.ids, st, part).value.0.calls
  {
    OnePart(ss.ids, st, part);
  }

  /** Nor is a new tool block: its index is the next one. */
  lemma PushToolStart(ss: Session, st: State, id: Option<string>, name: string)
    requires !st.terminal
    ensures var r := Push(ss, st, 0, EMPTY_DELTA.(toolCalls := [ToolStartPart(|st.calls|, id, name)]), None);
            && r.Ok? && !r.value.state.terminal
            && |r.value.state.calls| == |st.calls| + 1 && r.value.state.calls[..|st.calls|] == st.calls
            && r.value.state.calls[|st.calls|].name == name && r.value.state.calls[|st.calls|].arguments == ""
  {
    var part := ToolStartPart(|st.calls|, id, name);
    PushOnePart(ss, st, part);
    assert "" + name == name;
  }

  /** Nor an argument fragment of an open block. */
  lemma PushArguments(ss: Session, st: State, c: nat, text: string)
    requires !st.terminal && c < |st.calls|
    ensures var r := Push(ss, st, 0, EMPTY_DELTA.(toolCalls := [ArgumentsPart(c, text)]), None);
            && r.Ok? && !r.value.state.terminal
            && r.value.state.calls == st.calls[c := st.calls[c].(arguments := st.calls[c].arguments + text)]
  {
    var part := ArgumentsPart(c, text);
    PushOnePart(ss, st, part);
    assert st.calls[c].name + "" == st.calls[c].name;
  }

  lemma PushTerminal(ss: Session, st: State, terminal: NativeTerminal)
    requires Push(ss, st, 0, EMPTY_DELTA, Some(terminal)).Ok?
    ensures Push(ss, st, 0, EMPTY_DELTA, Some(terminal)).value.state.calls == st.calls
  {
  }

  // ------------------------------------------------------------ preservation

  lemma TextStartCoupled(ss: Session, d: AnthropicState, block: seq<Member>)
    requires Coupled(d) && d.started && !d.sawMessageDelta
    ensures var step := TextStart(ss, d, block);
            OptionalString(block, "text").Some? ==> step.Next? && Coupled(step.state)
  {
    if OptionalString(block, "text").Some? {
      var text := OptionalString(block, "text").value;
      PushText(ss, d.asm, text);
      var step := TextStart(ss, d, block);
      var d' := step.state;
      assert d'.blocks == d.blocks[d.nextBlock := Block(TextBlock, None, "")];
      forall c | 0 <= c < |d.asm.calls| && HasBlock(d.blocks, c) ensures HasBlock(d'.blocks, c) {
        var i :| i in d.blocks && d.blocks[i].callIndex == Some(c);
        assert i in d'.blocks && d'.blocks[i].callIndex == Some(c);
      }
    }
  }

  lemma ToolStartCoupled(ss: Session, d: AnthropicState, block: seq<Member>)
    requires Coupled(d) && d.started && !d.sawMessageDelta
    requires OptionalString(block, "id").Some? && RequiredString(block, "name").Some? && RequiredObject(block, "input") == Some([])
    ensures var step := ToolStart(ss, d, block);
            step.Next? && Coupled(step.state)
  {
    var id, name := OptionalString(block, "id").value, RequiredString(block, "name").value;
    PushToolStart(ss, d.asm, id, name);
    var n := d.nextCall;
    var d' := ToolStart(ss, d, block).state;
    var calls := d'.asm.calls;
    assert forall c :: 0 <= c < n ==> calls[c] == calls[..n][c];
    forall i | i in d'.blocks ensures BlockCoupled(d'.blocks[i], calls) {
      if i != d.nextBlock {
        assert BlockCoupled(d.blocks[i], d.asm.calls);
      }
    }
    forall c | 0 <= c < |calls| ensures HasBlock(d'.blocks, c) || IsObjectText(calls[c].arguments) {
      if c == n {
        assert d'.blocks[d.nextBlock].callIndex == Some(c);
      } else if HasBlock(d.blocks, c) {
        var i :| i in d.blocks && d.blocks[i].callIndex == Some(c);
        assert i in d'.blocks && d'.blocks[i].callIndex == Some(c);
      }
    }
  }

  lemma BlockTextCoupled(ss: Session, d: AnthropicState, index: nat, text: string)
    requires Coupled(d) && d.started && !d.sawMessageDelta && index in d.blocks
    ensures var step := BlockText(ss, d, index, text);
            step.Next? && Coupled(step.state)
  {
    var b := d.blocks[index];
    assert BlockCoupled(b, d.asm.calls);
    if b.kind.TextBlock? {
      PushText(ss, d.asm, Some(text));
    } else {
      PushArguments(ss, d.asm, b.callIndex.value, text);
      var d' := BlockText(ss, d, index, text).state;
      forall i | i in d'.blocks ensures BlockCoupled(d'.blocks[i], d'.asm.calls) && d'.blocks[i].callIndex == d.blocks[i].callIndex {
        assert BlockCoupled(d.blocks[i], d.asm.calls);
      }
      forall c | 0 <= c < |d'.asm.calls| ensures HasBlock(d'.blocks, c) || IsObjectText(d'.asm.calls[c].arguments) {
        if HasBlock(d.blocks, c) {
          var i :| i in d.blocks && d.blocks[i].callIndex == Some(c);
          assert d'.blocks[i].callIndex == Some(c);
        } else {
          assert c != b.callIndex.value;
        }
      }
    }
  }

  lemma BlockStopCoupled(d: AnthropicState, index: nat)
    requires Coupled(d) && d.started && !d.sawMessageDelta && index in d.blocks
    requires d.blocks[index].kind.ToolBlock? ==> IsObjectText(d.blocks[index].arguments)
    ensures Coupled(d.(blocks := d.blocks - {index}))
  {
    var d' := d.(blocks := d.blocks - {index});
    assert BlockCoupled(d.blocks[index], d.asm.calls);
    forall c | 0 <= c < |d.asm.calls| ensures HasBlock(d'.blocks, c) || IsObjectText(d.asm.calls[c].arguments) {
      if HasBlock(d.blocks, c) {
        var i :| i in d.blocks && d.blocks[i].callIndex == Some(c);
        if i != index {
          assert i in d'.blocks && d'.blocks[i].callIndex == Some(c);
        }
      }
    }
  }

  lemma MessageDeltaCoupled(ss: Session, d: AnthropicState, value: seq<Member>)
    requires Coupled(d)
    ensures var step := MessageDelta(ss, d, value); step.Next? ==> Coupled(step.state)
  {
    var step := MessageDelta(ss, d, value);
    if step.Next? {
      var reason := RequiredString(RequiredObject(value, "delta").value, "stop_reason").value;
      PushTerminal(ss, d.asm, Terminal(reason));
    }
  }

  lemma MessageStopCoupled(ss: Session, d: AnthropicState)
    requires Coupled(d)
    ensures var step := MessageStop(ss, d); step.Next? ==> Coupled(step.state)
  {
  }

  lemma BlockStartCoupled(ss: Session, d: AnthropicState, value: seq<Member>)
    requires Coupled(d)
    ensures var step := BlockStart(ss, d, value); step.Next? ==> Coupled(step.state)
  {
    if BlockStart(ss, d, value).Next? {
      var block := RequiredObject(value, "content_block").value;
      if RequiredString(block, "type") == Some("text") {
        TextStartCoupled(ss, d, block);
      } else {
        ToolStartCoupled(ss, d, block);
      }
    }
  }

  lemma BlockDeltaCoupled(ss: Session, d: AnthropicState, value: seq<Member>)
    requires Coupled(d)
    ensures var step := BlockDelta(ss, d, value); step.Next? ==> Coupled(step.state)
  {
    if BlockDelta(ss, d, value).Next? {
      var index := RequiredUnsigned(value, "index").value;
      BlockTextCoupled(ss, d, index, DeltaText(RequiredObject(value, "delta").value, d.blocks[index].kind).value);
    }
  }

  lemma HandleCoupled(ss: Session, d: AnthropicState, event: string, value: seq<Member>)
    requires Coupled(d)
    ensures var step := Handle(ss, d, event, value); step.Next? ==> Coupled(step.state)
  {
    BlockStartCoupled(ss, d, value);
    BlockDeltaCoupled(ss, d, value);
    MessageDeltaCoupled(ss, d, value);
    MessageStopCoupled(ss, d);
    if event == "content_block_stop" && BlockStop(d, value).Next? {
      BlockStopCoupled(d, RequiredUnsigned(value, "index").value);
    }
  }

  /** No line breaks the coupling. */
  lemma LineCoupled(ss: Session, d: AnthropicState, raw: seq<byte>)
    requires Coupled(d)
    ensures var step := Line(ss, d, raw); step.Next? ==> Coupled(step.state)
  {
    if StripCr(raw) == [] && d.data != [] && d.event.Some? && DecodePayload(d.data).Some? {
      HandleCoupled(ss, d.(data := [], event := None), d.event.value, DecodePayload(d.data).value);
    }
  }
}
