/** `StreamSuccessState`: the last check before a chunk becomes public, and the
    proof that whatever `StreamAssembler` emits passes it. */
module Gate {
  import opened Wrappers
  import opened Response
  import opened Assembler

  datatype StreamMetadata = StreamMetadata(id: string, objectName: string, created: nat, model: string)

  function MetadataOf(c: ChatChunk): StreamMetadata {
    StreamMetadata(c.id, c.objectName, c.created, c.model)
  }

  datatype GateState = GateState(terminal: bool, usageSeen: bool, includeUsage: bool)

  function AcceptUsage(g: GateState, usage: Option<Usage>): Option<GateState> {
    if usage.None? || !g.includeUsage || g.usageSeen || !g.terminal || !ValidUsage(usage.value) then None
    else Some(g.(usageSeen := true))
  }

  function AcceptChoice(g: GateState, choice: ChunkChoice): Option<GateState> {
    var delta := choice.delta;
    var hasDelta := delta.role.Some? || delta.content.Some? || delta.toolCalls != [];
    if choice.index != 0 then None
    else if (!hasDelta && choice.finishReason.None?) || (delta.role.Some? && delta.role.value != "assistant") then None
    else Some(g.(terminal := g.terminal || choice.finishReason.Some?))
  }

  /** `accept`: the state after the chunk, or nothing if it must not be sent. */
  function Accept(g: GateState, c: ChatChunk, expected: StreamMetadata): Option<GateState> {
    if MetadataOf(c) != expected then None
    else if c.choices == [] then AcceptUsage(g, c.usage)
    else if g.terminal || c.usage.Some? || |c.choices| != 1 then None
    else AcceptChoice(g, c.choices[0])
  }

  /** `first`. */
  function First(c: ChatChunk, includeUsage: bool): Option<GateState> {
    if |c.choices| == 1 && c.choices[0].delta.role == Some("assistant")
    then Accept(GateState(false, false, includeUsage), c, MetadataOf(c))
    else None
  }

  /** The gate before and after the chunk that commits the response. */
  datatype Phase = Closed(includeUsage: bool) | Open(expected: StreamMetadata, gate: GateState)

  function PassOne(p: Phase, c: ChatChunk): Option<Phase> {
    match p
    case Closed(includeUsage) =>
      (match First(c, includeUsage)
       case None => None
       case Some(g) => Some(Open(MetadataOf(c), g)))
    case Open(expected, gate) =>
      (match Accept(gate, c, expected)
       case None => None
       case Some(g) => Some(Open(expected, g)))
  }

  /** `first` on the first chunk, `accept` on the others. */
  function Pass(p: Phase, chunks: seq<ChatChunk>): Option<Phase>
    decreases |chunks|
  {
    if chunks == [] then Some(p)
    else
      match PassOne(p, chunks[0])
      case None => None
      case Some(p') => Pass(p', chunks[1..])
  }

  lemma {:induction false} PassConcat(p: Phase, a: seq<ChatChunk>, b: seq<ChatChunk>)
    ensures Pass(p, a + b) == match Pass(p, a) case None => None case Some(p') => Pass(p', b)
    decreases |a|
  {
    if a == [] {
      assert a + b == b;
    } else {
      assert (a + b)[0] == a[0] && (a + b)[1..] == a[1..] + b;
      match PassOne(p, a[0]) {
        case None =>
        case Some(p') => PassConcat(p', a[1..], b);
      }
    }
  }

  // --------------------------------------------------------------- simulation

  function SessionMetadata(ss: Session): StreamMetadata {
    StreamMetadata(ss.meta.id, CHUNK_OBJECT, ss.meta.created, ss.request.model)
  }

  /** The gate state that goes with an assembler state. */
  function PhaseOf(ss: Session, st: State): Phase {
    if !st.started then Closed(ss.request.includeUsage)
    else Open(SessionMetadata(ss), GateState(st.terminal, st.emittedUsage, ss.request.includeUsage))
  }

  /** What no assembler run leaves: nothing happens before the first ordinary chunk. */
  ghost predicate Orderly(st: State) {
    (!st.started ==> !st.terminal && !st.emittedUsage && !st.sawContent) && (st.emittedUsage ==> st.terminal)
  }

  /** The chunks are let through, one state's gate to the other's. */
  ghost predicate Passes(ss: Session, st: State, chunks: seq<ChatChunk>, st': State) {
    Orderly(st) ==> Orderly(st') && Pass(PhaseOf(ss, st), chunks) == Some(PhaseOf(ss, st'))
  }

  lemma PassesNothing(ss: Session, st: State)
    ensures Passes(ss, st, [], st)
  {
  }

  lemma PassesOne(ss: Session, st: State, c: ChatChunk, st': State)
    requires Orderly(st) ==> Orderly(st') && PassOne(PhaseOf(ss, st), c) == Some(PhaseOf(ss, st'))
    ensures Passes(ss, st, [c], st')
  {
    assert [c][1..] == [];
  }

  lemma PassesChain(ss: Session, st: State, a: seq<ChatChunk>, mid: State, b: seq<ChatChunk>, st': State)
    requires Passes(ss, st, a, mid) && Passes(ss, mid, b, st')
    ensures Passes(ss, st, a + b, st')
  {
    PassConcat(PhaseOf(ss, st), a, b);
  }

  lemma EmitPasses(ss: Session, st: State, delta: AssistantDelta, terminal: Option<NativeTerminal>)
    requires !st.terminal && (delta.role.Some? ==> delta.role.value == "assistant")
    requires delta.role.Some? || delta.content.Some? || delta.toolCalls != [] || terminal.Some?
    requires Emit(ss, st, delta, terminal).Ok?
    ensures var p := Emit(ss, st, delta, terminal).value;
            p.chunk.Some? && Passes(ss, st, [p.chunk.value], p.state)
  {
    var p := Emit(ss, st, delta, terminal).value;
    PassesOne(ss, st, p.chunk.value, p.state);
  }

  /** Every chunk `push` emits is one the gate accepts next. */
  lemma PushPasses(ss: Session, st: State, choiceIndex: nat, delta: AssistantDelta, terminal: Option<NativeTerminal>)
    requires Push(ss, st, choiceIndex, delta, terminal).Ok?
    ensures var p := Push(ss, st, choiceIndex, delta, terminal).value;
            && Passes(ss, st, ChunkList(p.chunk), p.state)
            && p.state.terminal == terminal.Some?
  {
    var p := Push(ss, st, choiceIndex, delta, terminal).value;
    var a := AcceptParts(ss.ids, st, delta.toolCalls).value;
    AcceptKeepsFlags(ss.ids, st, delta.toolCalls);
    assert PhaseOf(ss, a.state) == PhaseOf(ss, st);
    if p.chunk.Some? {
      EmitPasses(ss, a.state, delta.(toolCalls := a.parts), terminal);
    }
  }

  /** So is the usage chunk. */
  lemma PushUsagePasses(ss: Session, st: State, usage: Usage)
    requires PushUsage(ss, st, usage).Ok?
    ensures var p := PushUsage(ss, st, usage).value;
            Passes(ss, st, ChunkList(p.chunk), p.state) && p.state.terminal && p.state.started
  {
    var p := PushUsage(ss, st, usage).value;
    if p.chunk.Some? {
      PassesOne(ss, st, p.chunk.value, p.state);
    }
  }

  lemma {:induction false} RunPasses(ss: Session, st: State, ops: seq<Op>)
    requires RunOps(ss, st, ops).Ok?
    ensures Passes(ss, st, RunOps(ss, st, ops).value.chunks, RunOps(ss, st, ops).value.state)
    decreases |ops|
  {
    if ops == [] {
      PassesNothing(ss, st);
    } else {
      var p := Apply(ss, st, ops[0]).value;
      match ops[0] {
        case PushOp(choiceIndex, delta, terminal) => PushPasses(ss, st, choiceIndex, delta, terminal);
        case UsageOp(usage) => PushUsagePasses(ss, st, usage);
      }
      RunPasses(ss, p.state, ops[1..]);
      var rest := RunOps(ss, p.state, ops[1..]).value;
      PassesChain(ss, st, ChunkList(p.chunk), p.state, rest.chunks, rest.state);
    }
  }

  /** Whatever the assembler emits, the gate lets through. */
  lemma EmittedPasses(ss: Session, st: State, chunks: seq<ChatChunk>, st': State)
    requires Emits(ss, st, chunks, st')
    ensures Passes(ss, st, chunks, st')
  {
    var ops :| RunOps(ss, st, ops) == Ok(Run(st', chunks));
    RunPasses(ss, st, ops);
  }

  // ------------------------------------------------------------------ machine

  class StreamSuccessState {
    var terminal: bool
    var usageSeen: bool
    const includeUsage: bool

    constructor (includeUsage: bool)
      ensures View() == GateState(false, false, includeUsage)
    {
      terminal, usageSeen := false, false;
      this.includeUsage := includeUsage;
    }

    function View(): GateState
      reads this
    {
      GateState(terminal, usageSeen, includeUsage)
    }

    /** A refused chunk leaves the state as it was. */
    method AcceptChunk(c: ChatChunk, expected: StreamMetadata) returns (ok: bool)
      modifies this
      ensures ok == Accept(old(View()), c, expected).Some?
      ensures View() == if ok then Accept(old(View()), c, expected).value else old(View())
    {
      if c.id != expected.id || c.objectName != expected.objectName || c.created != expected.created || c.model != expected.model {
        return false;
      }
      if c.choices == [] {
        if c.usage.None? {
          return false;
        }
        var usage := c.usage.value;
        if !includeUsage || usageSeen || !terminal
           || CheckedAdd(usage.promptTokens, usage.completionTokens) != Some(usage.totalTokens) {
          return false;
        }
        usageSeen := true;
        return true;
      }
      if terminal || c.usage.Some? || |c.choices| != 1 {
        return false;
      }
      var choice := c.choices[0];
      if choice.index != 0 {
        return false;
      }
      var hasDelta := choice.delta.role.Some? || choice.delta.content.Some? || choice.delta.toolCalls != [];
      if (!hasDelta && choice.finishReason.None?) || (choice.delta.role.Some? && choice.delta.role.value != "assistant") {
        return false;
      }
      if choice.finishReason.Some? {
        terminal := true;
      }
      ok := true;
    }
  }
}
