/** The Gemini stream decoder of src/gemini.rs. */
module Gemini {
  import opened Wrappers
  import opened Json
  import opened Numerals
  import opened Utf8
  import opened Response
  import opened Assembler
  import opened Sse
  import opened Access

  datatype GeminiCall = GeminiCall(index: nat, name: string)

  datatype GeminiState = GeminiState(
    asm: State, data: seq<byte>, nativeCalls: map<string, GeminiCall>, ambiguous: set<string>, nextCall: nat,
    done: bool, promptTokens: Option<nat>, completionTokens: Option<nat>, invalidUsage: bool)

  function Start(cursor: nat): GeminiState {
    GeminiState(Initial(cursor), [], map[], {}, 0, false, None, None, false)
  }

  // ------------------------------------------------------------ usage

  /** `usage_component`: nothing, a count, or poison. */
  function UsageComponent(v: Option<JsonValue>): Option<Option<nat>> {
    match v
    case None => Some(None)
    case Some(Number(lexeme)) =>
      (match ParseUnsigned(lexeme, U128_MAX)
       case None => None
       case Some(n) => Some(Some(n)))
    case _ => None
  }

  function Later(old_: Option<nat>, seen: Option<Option<nat>>): Option<nat> {
    if seen.Some? && seen.value.Some? then seen.value else old_
  }

  function CaptureUsage(d: GeminiState, root: seq<Member>): GeminiState {
    match Field(root, "usageMetadata")
    case None => d
    case Some(Object(usage)) =>
      var prompt := UsageComponent(Field(usage, "promptTokenCount"));
      var completion := UsageComponent(Field(usage, "candidatesTokenCount"));
      d.(promptTokens := Later(d.promptTokens, prompt), completionTokens := Later(d.completionTokens, completion),
         invalidUsage := d.invalidUsage || prompt.None? || completion.None?)
    case _ => d.(invalidUsage := true)
  }

  // ------------------------------------------------------------ one event's parts

  /** The decoder's call tables while it walks the parts of one candidate. */
  datatype Scan = Scan(
    calls: map<string, GeminiCall>, ambiguous: set<string>, nextCall: nat, eventIds: set<string>,
    content: Option<string>, toolCalls: seq<ToolCallDelta>)

  function NewCall(sc: Scan, id: Option<string>, name: string, arguments: string): Scan {
    sc.(nextCall := sc.nextCall + 1,
        toolCalls := sc.toolCalls + [ToolCallDelta(sc.nextCall, id, Some("function"), Some(name), Some(arguments))])
  }

  predicate CallAllowed(request: CanonicalRequest, name: string) {
    && name != "" && name in DeclaredTools(request)
    && !request.toolChoice.NoTools?
    && (request.toolChoice.NamedTool? ==> request.toolChoice.name == name)
  }

  /** A call part whose fields have been checked. */
  function TakeCall(sc: Scan, id: Option<string>, name: string, arguments: string): Option<Scan> {
    if id.None? then Some(NewCall(sc, None, name, arguments))
    else if id.value in sc.ambiguous then None
    else if id.value in sc.eventIds then
      Some(NewCall(sc.(ambiguous := sc.ambiguous + {id.value}), None, name, arguments))
    else
      var sc' := sc.(eventIds := sc.eventIds + {id.value});
      if id.value in sc.calls then
        var existing := sc.calls[id.value];
        if existing.name != name then None
        else Some(sc'.(toolCalls := sc.toolCalls + [ToolCallDelta(existing.index, id, None, None, Some(arguments))]))
      else Some(NewCall(sc'.(calls := sc.calls[id.value := GeminiCall(sc.nextCall, name)]), id, name, arguments))
  }

  /** The native ID of a call part; an empty one counts as absent. */
  function NativeId(call: seq<Member>): Option<Option<string>> {
    match OptionalString(call, "id")
    case None => None
    case Some(id) => Some(if id == Some("") then None else id)
  }

  /** `call`. */
  function ScanCall(request: CanonicalRequest, sc: Scan, v: JsonValue): Option<Scan> {
    match AsObject(v)
    case None => None
    case Some(call) =>
      match (NativeId(call), RequiredString(call, "name"), RequiredObject(call, "args"))
      case (Some(id), Some(name), Some(args)) =>
        if !CallAllowed(request, name) then None else TakeCall(sc, id, name, Encode(Native, Object(args)))
      case _ => None
  }

  function ScanPart(request: CanonicalRequest, sc: Scan, v: JsonValue): Option<Scan> {
    match AsObject(v)
    case None => None
    case Some(part) =>
      match (Field(part, "text"), Field(part, "functionCall"))
      case (Some(String(text)), None) =>
        Some(sc.(content := Some((if sc.content.Some? then sc.content.value else "") + text)))
      case (None, Some(call)) => ScanCall(request, sc, call)
      case _ => None
  }

  function ScanParts(request: CanonicalRequest, sc: Scan, parts: seq<JsonValue>): Option<Scan>
    decreases |parts|
  {
    if parts == [] then Some(sc)
    else
      match ScanPart(request, sc, parts[0])
      case None => None
      case Some(sc') => ScanParts(request, sc', parts[1..])
  }

  function NewScan(d: GeminiState): Scan {
    Scan(d.nativeCalls, d.ambiguous, d.nextCall, {}, None, [])
  }

  /** `content`: the role, then the parts. */
  function Content(request: CanonicalRequest, d: GeminiState, v: JsonValue): Option<Scan> {
    match AsObject(v)
    case None => None
    case Some(content) =>
      if !(Field(content, "role").None? || RequiredString(content, "role") == Some("model")) then None
      else
        match RequiredArray(content, "parts")
        case None => None
        case Some(parts) => ScanParts(request, NewScan(d), parts)
  }

  // ------------------------------------------------------------ the decoder

  /** `terminal`. */
  function Terminal(reason: string): NativeTerminal {
    if reason == "STOP" then NStop
    else if reason == "MAX_TOKENS" then NLength
    else if reason in {"SAFETY", "RECITATION", "LANGUAGE", "BLOCKLIST", "PROHIBITED_CONTENT", "SPII"} then NContentFilter
    else if reason in {"MALFORMED_FUNCTION_CALL", "UNEXPECTED_TOOL_CALL", "TOO_MANY_TOOL_CALLS",
                       "MISSING_THOUGHT_SIGNATURE", "MALFORMED_RESPONSE", "FINISH_REASON_UNSPECIFIED"} then NInvalid
    else NUnknown
  }

  /** `explicit_policy_block`. */
  predicate PolicyBlock(root: seq<Member>) {
    match Field(root, "promptFeedback")
    case Some(Object(feedback)) =>
      (match Field(feedback, "blockReason")
       case Some(String(reason)) =>
         reason in {"SAFETY", "RECITATION", "LANGUAGE", "BLOCKLIST", "PROHIBITED_CONTENT", "SPII",
                    "IMAGE_SAFETY", "JAILBREAK", "MODEL_ARMOR", "OTHER"}
       case _ => false)
    case _ => false
  }

  function PushDelta(ss: Session, d: GeminiState, delta: AssistantDelta, terminal: Option<NativeTerminal>): Step<GeminiState> {
    match Push(ss, d.asm, 0, delta, terminal)
    case Err(e) => Fail(TargetError(e))
    case Ok(p) => Next(d.(asm := p.state, done := d.done || terminal.Some?), ChunkList(p.chunk))
  }

  function Line(ss: Session, d: GeminiState, raw: seq<byte>): Step<GeminiState> {
    var line := StripCr(raw);
    if line == [] then Dispatch(ss, d)
    else if line[0] == COLON then Next(d, [])
    else
      match FieldValue(line, DATA_FIELD)
      case None => Next(d, [])
      case Some(value) =>
        match AppendData(d.data, value)
        case None => Fail(InvalidResponseError)
        case Some(data) => Next(d.(data := data), [])
  }

  function Dispatch(ss: Session, d: GeminiState): Step<GeminiState> {
    if d.data == [] then Next(d, [])
    else
      match DecodePayload(d.data)
      case None => Fail(InvalidResponseError)
      case Some(root) => DispatchRoot(ss, CaptureUsage(d.(data := []), root), root)
  }

  function DispatchRoot(ss: Session, d: GeminiState, root: seq<Member>): Step<GeminiState> {
    var hasUsage := Field(root, "usageMetadata").Some?;
    if d.done then
      if Field(root, "candidates").None? && hasUsage then Next(d, []) else Fail(InvalidResponseError)
    else
      match Field(root, "candidates")
      case Some(Array(candidates)) =>
        if |candidates| == 1 then Candidate(ss, d, candidates[0])
        else if candidates == [] && PolicyBlock(root) then PushDelta(ss, d, EMPTY_DELTA, Some(NContentFilter))
        else Fail(InvalidResponseError)
      case None =>
        if hasUsage then Next(d, [])
        else if PolicyBlock(root) then PushDelta(ss, d, EMPTY_DELTA, Some(NContentFilter))
        else Fail(InvalidResponseError)
      case _ => Fail(InvalidResponseError)
  }

  /** The candidate's finish reason, if it has one. */
  function CandidateTerminal(candidate: seq<Member>): Option<Option<NativeTerminal>> {
    match OptionalString(candidate, "finishReason")
    case None => None
    case Some(None) => Some(None)
    case Some(Some(reason)) => Some(Some(Terminal(reason)))
  }

  predicate IndexIsZero(candidate: seq<Member>) {
    Field(candidate, "index").None? || RequiredUnsigned(candidate, "index") == Some(0)
  }

  function Candidate(ss: Session, d: GeminiState, v: JsonValue): Step<GeminiState> {
    match AsObject(v)
    case None => Fail(InvalidResponseError)
    case Some(candidate) =>
      if !IndexIsZero(candidate) then Fail(InvalidResponseError)
      else
        match CandidateTerminal(candidate)
        case None => Fail(InvalidResponseError)
        case Some(terminal) => CandidateContent(ss, d, candidate, terminal)
  }

  function CandidateContent(ss: Session, d: GeminiState, candidate: seq<Member>, terminal: Option<NativeTerminal>): Step<GeminiState> {
    match Field(candidate, "content")
    case None =>
      if terminal == Some(NContentFilter) then PushDelta(ss, d, EMPTY_DELTA, terminal) else Fail(InvalidResponseError)
    case Some(content) =>
      match Content(ss.request, d, content)
      case None => Fail(InvalidResponseError)
      case Some(sc) => PushScan(ss, d, sc, terminal)
  }

  function PushScan(ss: Session, d: GeminiState, sc: Scan, terminal: Option<NativeTerminal>): Step<GeminiState> {
    PushDelta(ss, d.(nativeCalls := sc.calls, ambiguous := sc.ambiguous, nextCall := sc.nextCall),
              AssistantDelta(None, sc.content, sc.toolCalls), terminal)
  }

  /** End of the source: `finish`. */
  function End(ss: Session, d: GeminiState): Step<GeminiState> {
    if d.data != [] || !d.done || !Finished(d.asm) then Fail(InvalidResponseError)
    else
      match (if d.invalidUsage then None else NormalizeUsage(d.promptTokens, d.completionTokens))
      case None => Next(d, [])
      case Some(usage) =>
        match PushUsage(ss, d.asm, usage)
        case Err(e) => Fail(TargetError(e))
        case Ok(p) => Next(d.(asm := p.state), ChunkList(p.chunk))
  }
}
