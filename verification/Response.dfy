/** The canonical response types of src/response.rs and its buffered path. */
module Response {
  import opened Wrappers
  import opened Json
  import opened Numerals

  datatype ToolChoice = NoTools | AutoTools | RequiredTools | NamedTool(name: string)

  /** The parts of a validated request that response handling reads. */
  datatype CanonicalRequest = CanonicalRequest(
    fields: seq<Member>, model: string, includeUsage: bool, toolChoice: ToolChoice)

  datatype ResponseError = InvalidResponse | Overloaded

  datatype FinishReason = FStop | FLength | FToolCalls | FContentFilter

  function FinishText(f: FinishReason): string {
    match f
    case FStop => "stop"
    case FLength => "length"
    case FToolCalls => "tool_calls"
    case FContentFilter => "content_filter"
  }

  datatype NativeTerminal = NStop | NLength | NToolCalls | NContentFilter | NUnknown | NOverloaded | NInvalid

  datatype Usage = Usage(promptTokens: nat, completionTokens: nat, totalTokens: nat)

  /** `checked_add` on u64. */
  function CheckedAdd(a: nat, b: nat): Option<nat> {
    if a + b > U64_MAX then None else Some(a + b)
  }

  function NormalizeUsage(prompt: Option<nat>, completion: Option<nat>): (r: Option<Usage>)
    ensures r.Some? ==> ValidUsage(r.value)
  {
    if prompt.None? || completion.None? || prompt.value > U64_MAX || completion.value > U64_MAX then None
    else
      match CheckedAdd(prompt.value, completion.value)
      case None => None
      case Some(total) => Some(Usage(prompt.value, completion.value, total))
  }

  predicate ValidUsage(u: Usage) {
    CheckedAdd(u.promptTokens, u.completionTokens) == Some(u.totalTokens)
  }

  datatype Metadata = Metadata(id: string, created: nat)

  datatype ToolCall = ToolCall(id: string, name: string, arguments: string)
  datatype NativeToolCall = NativeToolCall(id: Option<string>, name: string, arguments: string)

  datatype AssistantMessage = AssistantMessage(content: Option<string>, toolCalls: Option<seq<ToolCall>>)
  datatype ChatResponse = ChatResponse(
    id: string, created: nat, model: string, message: AssistantMessage, finishReason: FinishReason, usage: Option<Usage>)

  datatype ToolCallDelta = ToolCallDelta(
    index: nat, id: Option<string>, kind: Option<string>, name: Option<string>, arguments: Option<string>)
  datatype AssistantDelta = AssistantDelta(role: Option<string>, content: Option<string>, toolCalls: seq<ToolCallDelta>)
  datatype ChunkChoice = ChunkChoice(index: nat, delta: AssistantDelta, finishReason: Option<FinishReason>)
  datatype ChatChunk = ChatChunk(
    id: string, objectName: string, created: nat, model: string, choices: seq<ChunkChoice>, usage: Option<Usage>)

  const EMPTY_DELTA := AssistantDelta(None, None, [])
  const CHUNK_OBJECT := "chat.completion.chunk"

  // ------------------------------------------------------------ declared tools

  function ToolName(tool: JsonValue): Option<string> {
    match tool
    case Object(fields) =>
      (match Field(fields, "function")
       case Some(Object(function_)) =>
         (match Field(function_, "name")
          case Some(String(name)) => Some(name)
          case _ => None)
       case _ => None)
    case _ => None
  }

  function ToolNames(tools: seq<JsonValue>): set<string> {
    if tools == [] then {}
    else (if ToolName(tools[0]).Some? then {ToolName(tools[0]).value} else {}) + ToolNames(tools[1..])
  }

  /** `declared_tools` and Gemini's `declared_tool_names`. */
  function DeclaredTools(request: CanonicalRequest): set<string> {
    match Field(request.fields, "tools")
    case Some(Array(tools)) => ToolNames(tools)
    case _ => {}
  }

  // ------------------------------------------------------------- generated IDs

  /** The values this stream draws from the shared `NEXT_ID` counter: other threads
      may draw in between, so all that is known is that they increase. */
  type IdSource = f: nat -> nat | Increasing(f) witness Identity

  ghost predicate Increasing(f: nat -> nat) {
    forall i: nat, j: nat :: i < j ==> f(i) < f(j)
  }

  function Identity(n: nat): nat { n }

  function CallId(n: nat): (id: string)
    ensures id != ""
  {
    "call_" + Hex(n)
  }

  lemma CallIdInjective(m: nat, n: nat)
    requires CallId(m) == CallId(n)
    ensures m == n
  {
    assert CallId(m)[5..] == Hex(m) && CallId(n)[5..] == Hex(n);
    HexInjective(m, n);
  }

  /** IDs already taken that the counter could still produce. */
  ghost function Ahead(ids: IdSource, used: set<string>, from: nat): set<string> {
    set s | s in used && exists k: nat :: k >= from && CallId(ids(k)) == s
  }

  lemma AheadShrinks(ids: IdSource, used: set<string>, from: nat)
    requires CallId(ids(from)) in used
    ensures Ahead(ids, used, from + 1) < Ahead(ids, used, from)
  {
    var s := CallId(ids(from));
    if s in Ahead(ids, used, from + 1) {
      var k: nat :| k >= from + 1 && CallId(ids(k)) == s;
      CallIdInjective(ids(k), ids(from));
      assert false;
    }
    assert s in Ahead(ids, used, from);
  }

  /** The retry loop of `generated_call_id`: an unused ID, and the counter after it. */
  function GeneratedCallId(ids: IdSource, used: set<string>, cursor: nat): (r: (string, nat))
    ensures r.0 !in used && r.0 != "" && r.1 > cursor
    decreases Ahead(ids, used, cursor)
  {
    var id := CallId(ids(cursor));
    if id !in used then (id, cursor + 1)
    else
      AheadShrinks(ids, used, cursor);
      GeneratedCallId(ids, used, cursor + 1)
  }

  /** A native ID is kept if it is nonempty and new; otherwise one is generated. */
  function ChooseId(ids: IdSource, used: set<string>, cursor: nat, native: Option<string>): (r: (string, bool, nat))
    ensures r.0 !in used && r.0 != ""
    ensures r.1 ==> native == Some(r.0)
  {
    if native.Some? && native.value != "" && native.value !in used then (native.value, true, cursor)
    else
      var (id, cursor') := GeneratedCallId(ids, used, cursor);
      (id, false, cursor')
  }

  // ------------------------------------------------------------- buffered path

  function NormalizeCalls(ids: IdSource, declared: set<string>, native: seq<NativeToolCall>,
                          used: set<string>, cursor: nat, out: seq<ToolCall>): Result<seq<ToolCall>, ResponseError>
  {
    if native == [] then Ok(out)
    else if native[0].name !in declared then Err(InvalidResponse)
    else
      var (id, _, cursor') := ChooseId(ids, used, cursor, native[0].id);
      NormalizeCalls(ids, declared, native[1..], used + {id}, cursor',
                     out + [ToolCall(id, native[0].name, native[0].arguments)])
  }

  function NormalizeTerminal(terminal: NativeTerminal, hasContent: bool, hasCalls: bool): Result<FinishReason, ResponseError> {
    match terminal
    case NOverloaded => Err(Overloaded)
    case NInvalid => Err(InvalidResponse)
    case NContentFilter => Ok(FContentFilter)
    case _ =>
      if hasCalls then Ok(FToolCalls)
      else
        match terminal
        case NLength => Ok(FLength)
        case NStop => Ok(FStop)
        case NUnknown => if hasContent then Ok(FStop) else Err(InvalidResponse)
        case _ => Err(InvalidResponse)
  }

  /** `validate_outcome`; every rejection is an invalid response. */
  predicate OutcomeOk(choice: ToolChoice, hasContent: bool, calls: seq<ToolCall>, finish: FinishReason) {
    && (finish == FContentFilter || hasContent || calls != [])
    && (calls != [] <==> finish == FToolCalls)
    && (finish != FContentFilter ==>
          match choice
          case NoTools => calls == []
          case AutoTools => true
          case RequiredTools => calls != []
          case NamedTool(name) => calls != [] && forall i :: 0 <= i < |calls| ==> calls[i].name == name)
  }

  function FinishWith(request: CanonicalRequest, hasContent: bool, calls: seq<ToolCall>, terminal: NativeTerminal)
    : Result<FinishReason, ResponseError>
  {
    match NormalizeTerminal(terminal, hasContent, calls != [])
    case Err(e) => Err(e)
    case Ok(finish) =>
      if OutcomeOk(request.toolChoice, hasContent, calls, finish) then Ok(finish) else Err(InvalidResponse)
  }

  function BuildResponse(request: CanonicalRequest, meta: Metadata, ids: IdSource, cursor: nat, content: Option<string>,
                         native: seq<NativeToolCall>, terminal: NativeTerminal, usage: Option<Usage>)
    : Result<ChatResponse, ResponseError>
  {
    match NormalizeCalls(ids, DeclaredTools(request), native, {}, cursor, [])
    case Err(e) => Err(e)
    case Ok(calls) =>
      match FinishWith(request, content.Some?, calls, terminal)
      case Err(e) => Err(e)
      case Ok(finish) =>
        Ok(ChatResponse(meta.id, meta.created, request.model,
                        AssistantMessage(content, if calls == [] then None else Some(calls)), finish,
                        if usage.Some? && ValidUsage(usage.value) then usage else None))
  }
}
