/** The OpenAI-compatible stream decoder of src/openai_compatible.rs. */
module OpenAi {
  import opened Wrappers
  import opened Json
  import opened Utf8
  import opened Response
  import opened Assembler
  import opened Gate
  import opened Sse
  import opened Access
  import opened Adapters

  datatype Config = Config(ss: Session, deepSeek: bool)

  datatype OpenAiState = OpenAiState(asm: State, data: seq<byte>, done: bool, usage: Option<Usage>)

  // ------------------------------------------------------------ wire to native

  /** `terminal`. */
  function Terminal(reason: string, deepSeek: bool): NativeTerminal {
    if reason == "stop" then NStop
    else if reason == "length" then NLength
    else if reason == "tool_calls" then NToolCalls
    else if reason == "content_filter" then NContentFilter
    else if reason == "insufficient_system_resource" && deepSeek then NOverloaded
    else NUnknown
  }

  /** `parse_usage`. */
  function ParseUsage(v: JsonValue): Option<Usage> {
    if v.Object? then
      NormalizeUsage(RequiredUnsigned(v.fields, "prompt_tokens"), RequiredUnsigned(v.fields, "completion_tokens"))
    else None
  }

  /** Absent, or exactly the given string. */
  function OptionalLiteral(fields: seq<Member>, name: string, literal: string): Option<Option<string>> {
    match Field(fields, name)
    case None => Some(None)
    case Some(String(s)) => if s == literal then Some(Some(literal)) else None
    case _ => None
  }

  /** Absent, null, or a string. */
  function NullableString(fields: seq<Member>, name: string): Option<Option<string>> {
    if Field(fields, name) == Some(Null) then Some(None) else OptionalString(fields, name)
  }

  /** Name and arguments of the optional `function` member. */
  function ParseFunction(call: seq<Member>): Option<(Option<string>, Option<string>)> {
    match Field(call, "function")
    case None => Some((None, None))
    case Some(Object(function_)) =>
      (match (OptionalString(function_, "name"), OptionalString(function_, "arguments"))
       case (Some(name), Some(arguments)) => Some((name, arguments))
       case _ => None)
    case _ => None
  }

  /** `parse_stream_tool_call`. */
  function ParseStreamToolCall(v: JsonValue): Option<ToolCallDelta> {
    match AsObject(v)
    case None => None
    case Some(call) =>
      match (RequiredUnsigned(call, "index"), OptionalString(call, "id"), OptionalLiteral(call, "type", "function"), ParseFunction(call))
      case (Some(index), Some(id), Some(kind), Some((name, arguments))) => Some(ToolCallDelta(index, id, kind, name, arguments))
      case _ => None
  }

  function ParseStreamToolCalls(calls: seq<JsonValue>): Option<seq<ToolCallDelta>> {
    if calls == [] then Some([])
    else
      match (ParseStreamToolCall(calls[0]), ParseStreamToolCalls(calls[1..]))
      case (Some(first), Some(rest)) => Some([first] + rest)
      case _ => None
  }

  /** Absent, or a nonempty array. */
  function ParseCallList(delta: seq<Member>): Option<seq<ToolCallDelta>> {
    match Field(delta, "tool_calls")
    case None => Some([])
    case Some(Array(calls)) => if calls == [] then None else ParseStreamToolCalls(calls)
    case _ => None
  }

  function ParseDelta(delta: seq<Member>): Option<AssistantDelta> {
    match (OptionalLiteral(delta, "role", "assistant"), NullableString(delta, "content"), ParseCallList(delta))
    case (Some(role), Some(content), Some(calls)) => Some(AssistantDelta(role, content, calls))
    case _ => None
  }

  /** `finish_reason` is required; null means the stream goes on. */
  function ParseFinish(choice: seq<Member>, deepSeek: bool): Option<Option<NativeTerminal>> {
    match Field(choice, "finish_reason")
    case Some(Null) => Some(None)
    case Some(String(reason)) => Some(Some(Terminal(reason, deepSeek)))
    case _ => None
  }

  datatype StreamChoice = StreamChoice(index: nat, delta: AssistantDelta, terminal: Option<NativeTerminal>)

  /** `parse_stream_choice`. */
  function ParseStreamChoice(v: JsonValue, deepSeek: bool): Option<StreamChoice> {
    match AsObject(v)
    case None => None
    case Some(choice) =>
      match (RequiredUnsigned(choice, "index"), RequiredObject(choice, "delta"), ParseFinish(choice, deepSeek))
      case (Some(index), Some(deltaFields), Some(terminal)) =>
        (match ParseDelta(deltaFields)
         case None => None
         case Some(delta) => Some(StreamChoice(index, delta, terminal)))
      case _ => None
  }

  // ------------------------------------------------------------ the decoder

  function Start(cursor: nat): OpenAiState {
    OpenAiState(Initial(cursor), [], false, None)
  }

  function Line(cfg: Config, d: OpenAiState, raw: seq<byte>): Step<OpenAiState> {
    var line := StripCr(raw);
    if line == [] then Dispatch(cfg, d)
    else if line[0] == COLON then Next(d, [])
    else
      match FieldValue(line, DATA_FIELD)
      case None => Next(d, [])
      case Some(value) =>
        match AppendData(d.data, value)
        case None => Fail(InvalidResponseError)
        case Some(data) => Next(d.(data := data), [])
  }

  function Dispatch(cfg: Config, d: OpenAiState): Step<OpenAiState> {
    if d.data == [] then Next(d, [])
    else if d.done then Fail(InvalidResponseError)
    else if d.data == DONE_PAYLOAD then DispatchDone(cfg, d.(data := []))
    else DispatchEvent(cfg, d.(data := []), d.data)
  }

  function DispatchDone(cfg: Config, d: OpenAiState): Step<OpenAiState> {
    if !Finished(d.asm) then Fail(InvalidResponseError)
    else
      var d' := d.(done := true, usage := None);
      match d.usage
      case None => Next(d', [])
      case Some(usage) =>
        match PushUsage(cfg.ss, d.asm, usage)
        case Err(e) => Fail(TargetError(e))
        case Ok(p) => Next(d'.(asm := p.state), ChunkList(p.chunk))
  }

  function DispatchEvent(cfg: Config, d: OpenAiState, payload: seq<byte>): Step<OpenAiState> {
    match DecodePayload(payload)
    case None => Fail(InvalidResponseError)
    case Some(event) =>
      match RequiredArray(event, "choices")
      case None => Fail(InvalidResponseError)
      case Some(choices) =>
        if choices == [] then
          match Field(event, "usage")
          case None => Fail(InvalidResponseError)
          case Some(usage) => Next(d.(usage := ParseUsage(usage)), [])
        else if |choices| != 1 then Fail(InvalidResponseError)
        else DispatchChoice(cfg, d, choices[0])
  }

  function DispatchChoice(cfg: Config, d: OpenAiState, v: JsonValue): Step<OpenAiState> {
    match ParseStreamChoice(v, cfg.deepSeek)
    case None => Fail(InvalidResponseError)
    case Some(choice) =>
      match Push(cfg.ss, d.asm, choice.index, choice.delta, choice.terminal)
      case Err(e) => Fail(TargetError(e))
      case Ok(p) => Next(d.(asm := p.state), ChunkList(p.chunk))
  }

  function End(d: OpenAiState): Step<OpenAiState> {
    if d.data != [] || !d.done then Fail(InvalidResponseError) else Next(d, [])
  }

  // ------------------------------------------------------------ the gate

  /** What every run keeps: `[DONE]` is accepted only from a finished assembler, and
      the event buffer stays within its limit. */
  predicate Sound(d: OpenAiState) {
    (d.done ==> Finished(d.asm)) && |d.data| <= MAX_SSE_EVENT_BYTES
  }

  type Decoding = d: OpenAiState | Sound(d) witness Start(0)

  lemma LineKeepsSound(cfg: Config, d: OpenAiState, raw: seq<byte>)
    requires Sound(d)
    ensures var step := Line(cfg, d, raw); step.Next? ==> Sound(step.state)
  {
  }

  function DecodingLine(cfg: Config, d: Decoding, raw: seq<byte>): Step<Decoding> {
    LineKeepsSound(cfg, d, raw);
    match Line(cfg, d, raw)
    case Fail(k) => Fail(k)
    case Next(d', out) => Next(d', out)
  }

  function DecodingEnd(d: Decoding): Step<Decoding> {
    match End(d)
    case Fail(k) => Fail(k)
    case Next(d', out) => Next(d', out)
  }

  function OpenAiDecoder(cfg: Config): Decoder<Decoding> {
    Decoder((d: Decoding, raw: seq<byte>) => DecodingLine(cfg, d, raw), (d: Decoding) => DecodingEnd(d))
  }

  lemma LineEmits(cfg: Config, d: OpenAiState, raw: seq<byte>)
    ensures var step := Line(cfg, d, raw);
            step.Next? ==> Emits(cfg.ss, d.asm, step.out, step.state.asm)
  {
    EmitsNothing(cfg.ss, d.asm);
    if StripCr(raw) == [] && d.data != [] && !d.done {
      if d.data == DONE_PAYLOAD {
        if d.usage.Some? && PushUsage(cfg.ss, d.asm, d.usage.value).Ok? {
          EmitsOne(cfg.ss, d.asm, UsageOp(d.usage.value));
        }
      } else {
        EventEmits(cfg, d.(data := []), d.data);
      }
    }
  }

  lemma EventEmits(cfg: Config, d: OpenAiState, payload: seq<byte>)
    ensures var step := DispatchEvent(cfg, d, payload);
            step.Next? ==> Emits(cfg.ss, d.asm, step.out, step.state.asm)
  {
    EmitsNothing(cfg.ss, d.asm);
    forall index, delta, terminal | Push(cfg.ss, d.asm, index, delta, terminal).Ok?
      ensures var p := Push(cfg.ss, d.asm, index, delta, terminal).value;
              Emits(cfg.ss, d.asm, ChunkList(p.chunk), p.state)
    {
      EmitsOne(cfg.ss, d.asm, PushOp(index, delta, terminal));
    }
  }

  lemma OpenAiConforms(cfg: Config)
    ensures Conforms(cfg.ss, OpenAiDecoder(cfg), (d: Decoding) => d.asm)
  {
    var decoder := OpenAiDecoder(cfg);
    var asm := (d: Decoding) => d.asm;
    forall d: Decoding, raw: seq<byte> ensures LineConforms(cfg.ss, decoder, asm, d, raw) {
      LineEmits(cfg, d, raw);
    }
    forall d: Decoding ensures EndConforms(cfg.ss, decoder, asm, d) {
      EmitsNothing(cfg.ss, d.asm);
    }
  }

  /** Whatever bytes arrive, the chunks the decoder emits pass the gate in order; if it
      ends without an error, the gate has seen the terminal chunk. */
  lemma OpenAiPassesGate(cfg: Config, cursor: nat, source: seq<Fragment>)
    ensures var items := Feed(OpenAiDecoder(cfg), Start(cursor), [], source);
            var end := Pass(Closed(cfg.ss.request.includeUsage), Chunks(items));
            end.Some? && (NoError(items) ==> end.value.Open? && end.value.gate.terminal)
  {
    OpenAiConforms(cfg);
    FeedPassesGate(cfg.ss, OpenAiDecoder(cfg), (d: Decoding) => d.asm, Start(cursor), [], source);
  }
}
