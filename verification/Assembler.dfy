/** `StreamAssembler` as a function on its state.

    `calls` is the source's map from index to partial call; its keys are always
    0, 1, ..., `next_index - 1`, so a sequence carries both. */
module Assembler {
  import opened Wrappers
  import opened Response

  datatype PartialCall = PartialCall(id: string, preserved: bool, name: string, arguments: string)

  datatype State = State(
    calls: seq<PartialCall>, used: set<string>, cursor: nat,
    started: bool, sawContent: bool, terminal: bool, emittedUsage: bool)

  /** What is fixed for the life of one stream. */
  datatype Session = Session(request: CanonicalRequest, meta: Metadata, ids: IdSource)

  function Initial(cursor: nat): State {
    State([], {}, cursor, false, false, false, false)
  }

  function TextOf(s: Option<string>): string {
    if s.Some? then s.value else ""
  }

  /** A call is introduced by its first part. */
  function Introduce(ids: IdSource, st: State, native: Option<string>): State {
    var (id, preserved, cursor) := ChooseId(ids, st.used, st.cursor, native);
    st.(calls := st.calls + [PartialCall(id, preserved, "", "")], used := st.used + {id}, cursor := cursor)
  }

  function Extend(call: PartialCall, part: ToolCallDelta): PartialCall {
    call.(name := call.name + TextOf(part.name), arguments := call.arguments + TextOf(part.arguments))
  }

  /** `accept_call_delta`: the state after the part, and the part as it will be emitted. */
  function AcceptPart(ids: IdSource, st: State, part: ToolCallDelta): Result<(State, ToolCallDelta), ResponseError> {
    if part.index > |st.calls| then Err(InvalidResponse)
    else
      var isNew := part.index == |st.calls|;
      var st1 := if isNew then Introduce(ids, st, part.id) else st;
      var call := st1.calls[part.index];
      var id := if isNew || !call.preserved then Some(call.id) else part.id;
      if id.Some? && id.value != call.id then Err(InvalidResponse)
      else if part.kind.Some? && part.kind.value != "function" then Err(InvalidResponse)
      else Ok((st1.(calls := st1.calls[part.index := Extend(call, part)]), part.(id := id)))
  }

  datatype Accepted = Accepted(state: State, parts: seq<ToolCallDelta>)

  /** All parts of one delta, in order. */
  function AcceptParts(ids: IdSource, st: State, parts: seq<ToolCallDelta>): (r: Result<Accepted, ResponseError>)
    ensures r.Ok? ==> |r.value.parts| == |parts|
    decreases |parts|
  {
    if parts == [] then Ok(Accepted(st, []))
    else
      match AcceptPart(ids, st, parts[0])
      case Err(e) => Err(e)
      case Ok((st', part)) =>
        match AcceptParts(ids, st', parts[1..])
        case Err(e) => Err(e)
        case Ok(rest) => Ok(Accepted(rest.state, [part] + rest.parts))
  }

  /** `completed_calls`, in index order. */
  function CompletedCalls(declared: set<string>, calls: seq<PartialCall>): Result<seq<ToolCall>, ResponseError> {
    if calls == [] then Ok([])
    else if calls[0].name == "" || calls[0].name !in declared then Err(InvalidResponse)
    else
      match CompletedCalls(declared, calls[1..])
      case Err(e) => Err(e)
      case Ok(rest) => Ok([ToolCall(calls[0].id, calls[0].name, calls[0].arguments)] + rest)
  }

  function Finish(request: CanonicalRequest, st: State, terminal: NativeTerminal): Result<FinishReason, ResponseError> {
    match CompletedCalls(DeclaredTools(request), st.calls)
    case Err(e) => Err(e)
    case Ok(calls) => FinishWith(request, st.sawContent, calls, terminal)
  }

  function OrdinaryChunk(ss: Session, delta: AssistantDelta, finish: Option<FinishReason>): ChatChunk {
    ChatChunk(ss.meta.id, CHUNK_OBJECT, ss.meta.created, ss.request.model, [ChunkChoice(0, delta, finish)], None)
  }

  function UsageOnlyChunk(ss: Session, usage: Usage): ChatChunk {
    ChatChunk(ss.meta.id, CHUNK_OBJECT, ss.meta.created, ss.request.model, [], Some(usage))
  }

  datatype Pushed = Pushed(state: State, chunk: Option<ChatChunk>)

  function Push(ss: Session, st: State, choiceIndex: nat, delta: AssistantDelta, terminal: Option<NativeTerminal>)
    : Result<Pushed, ResponseError>
  {
    if choiceIndex != 0 || st.terminal || (delta.role.Some? && delta.role.value != "assistant") then Err(InvalidResponse)
    else
      match AcceptParts(ss.ids, st, delta.toolCalls)
      case Err(e) => Err(e)
      case Ok(Accepted(st1, parts)) =>
        if delta.role.None? && delta.content.None? && parts == [] && terminal.None? then Ok(Pushed(st1, None))
        else Emit(ss, st1, delta.(toolCalls := parts), terminal)
  }

  /** The second half of `push`: the delta is observable and becomes a chunk. */
  function Emit(ss: Session, st: State, delta: AssistantDelta, terminal: Option<NativeTerminal>): Result<Pushed, ResponseError> {
    var delta' := if st.started then delta else delta.(role := Some("assistant"));
    var st' := st.(started := true, sawContent := st.sawContent || delta.content.Some?);
    match terminal
    case None => Ok(Pushed(st', Some(OrdinaryChunk(ss, delta', None))))
    case Some(native) =>
      match Finish(ss.request, st', native)
      case Err(e) => Err(e)
      case Ok(finish) => Ok(Pushed(st'.(terminal := true), Some(OrdinaryChunk(ss, delta', Some(finish)))))
  }

  /** `finish()`. */
  predicate Finished(st: State) {
    st.started && st.terminal
  }

  function PushUsage(ss: Session, st: State, usage: Usage): Result<Pushed, ResponseError> {
    if !Finished(st) then Err(InvalidResponse)
    else if !ss.request.includeUsage || st.emittedUsage || !ValidUsage(usage) then Ok(Pushed(st, None))
    else Ok(Pushed(st.(emittedUsage := true), Some(UsageOnlyChunk(ss, usage))))
  }

  function ChunkList(c: Option<ChatChunk>): seq<ChatChunk> {
    if c.Some? then [c.value] else []
  }

  /** Accepting parts touches only the calls and the IDs. */
  lemma {:induction false} AcceptKeepsFlags(ids: IdSource, st: State, parts: seq<ToolCallDelta>)
    requires AcceptParts(ids, st, parts).Ok?
    ensures var st' := AcceptParts(ids, st, parts).value.state;
            st'.started == st.started && st'.sawContent == st.sawContent && st'.terminal == st.terminal
              && st'.emittedUsage == st.emittedUsage
    decreases |parts|
  {
    if parts != [] {
      var (st', _) := AcceptPart(ids, st, parts[0]).value;
      AcceptKeepsFlags(ids, st', parts[1..]);
    }
  }

  // ------------------------------------------------------------ runs

  /** What an adapter may ask of the assembler. */
  datatype Op = PushOp(choiceIndex: nat, delta: AssistantDelta, terminal: Option<NativeTerminal>) | UsageOp(usage: Usage)

  function Apply(ss: Session, st: State, op: Op): Result<Pushed, ResponseError> {
    match op
    case PushOp(choiceIndex, delta, terminal) => Push(ss, st, choiceIndex, delta, terminal)
    case UsageOp(usage) => PushUsage(ss, st, usage)
  }

  datatype Run = Run(state: State, chunks: seq<ChatChunk>)

  /** Any sequence of requests, none of them refused. */
  function RunOps(ss: Session, st: State, ops: seq<Op>): Result<Run, ResponseError>
    decreases |ops|
  {
    if ops == [] then Ok(Run(st, []))
    else
      match Apply(ss, st, ops[0])
      case Err(e) => Err(e)
      case Ok(p) =>
        match RunOps(ss, p.state, ops[1..])
        case Err(e) => Err(e)
        case Ok(rest) => Ok(Run(rest.state, ChunkList(p.chunk) + rest.chunks))
  }

  /** Some requests, none refused, that put out these chunks and lead to this state. */
  ghost predicate Emits(ss: Session, st: State, chunks: seq<ChatChunk>, st': State) {
    exists ops :: RunOps(ss, st, ops) == Ok(Run(st', chunks))
  }

  lemma EmitsNothing(ss: Session, st: State)
    ensures Emits(ss, st, [], st)
  {
    assert RunOps(ss, st, []) == Ok(Run(st, []));
  }

  lemma EmitsOne(ss: Session, st: State, op: Op)
    requires Apply(ss, st, op).Ok?
    ensures var p := Apply(ss, st, op).value; Emits(ss, st, ChunkList(p.chunk), p.state)
  {
    var p := Apply(ss, st, op).value;
    assert [op][1..] == [] && ChunkList(p.chunk) + [] == ChunkList(p.chunk);
    assert RunOps(ss, st, [op]) == Ok(Run(p.state, ChunkList(p.chunk)));
  }

  lemma {:induction false} RunOpsConcat(ss: Session, st: State, a: seq<Op>, b: seq<Op>)
    requires RunOps(ss, st, a).Ok? && RunOps(ss, RunOps(ss, st, a).value.state, b).Ok?
    ensures var first := RunOps(ss, st, a).value;
            var second := RunOps(ss, first.state, b).value;
            RunOps(ss, st, a + b) == Ok(Run(second.state, first.chunks + second.chunks))
    decreases |a|
  {
    if a == [] {
      var second := RunOps(ss, st, b).value;
      assert a + b == b && [] + second.chunks == second.chunks;
    } else {
      var p := Apply(ss, st, a[0]).value;
      assert (a + b)[0] == a[0] && (a + b)[1..] == a[1..] + b;
      RunOpsConcat(ss, p.state, a[1..], b);
      var rest := RunOps(ss, p.state, a[1..]).value;
      Associative(ChunkList(p.chunk), rest.chunks, RunOps(ss, rest.state, b).value.chunks);
    }
  }

  lemma EmitsChain(ss: Session, st: State, a: seq<ChatChunk>, mid: State, b: seq<ChatChunk>, st': State)
    requires Emits(ss, st, a, mid) && Emits(ss, mid, b, st')
    ensures Emits(ss, st, a + b, st')
  {
    var ops1 :| RunOps(ss, st, ops1) == Ok(Run(mid, a));
    var ops2 :| RunOps(ss, mid, ops2) == Ok(Run(st', b));
    RunOpsConcat(ss, st, ops1, ops2);
  }
}
