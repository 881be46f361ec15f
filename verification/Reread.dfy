/** The gateway's output, read by the gateway's own client decoder, is itself. */
module Reread {
  import opened Wrappers
  import opened Json
  import opened Numerals
  import opened Utf8
  import opened Response
  import opened Assembler
  import opened Sse
  import opened Access
  import opened Serialize
  import opened OpenAi
  import opened WireText
  import opened ReadBack

  // ------------------------------------------------------------ the two assemblers

  /** What every run of the first assembler keeps. */
  ghost predicate WellFormed(st: State) {
    && (forall i :: 0 <= i < |st.calls| ==> st.calls[i].id != "" && st.calls[i].id in st.used)
    && (forall i, j :: 0 <= i < j < |st.calls| ==> st.calls[i].id != st.calls[j].id)
    && (forall s :: s in st.used ==> exists i :: 0 <= i < |st.calls| && st.calls[i].id == s)
  }

  function Kept(c: PartialCall): PartialCall {
    c.(preserved := true)
  }

  /** The reading assembler holds the same calls under the same IDs, all of them native to it. */
  ghost predicate SameCalls(st: State, mirror: State) {
    && |mirror.calls| == |st.calls|
    && (forall i :: 0 <= i < |st.calls| ==> mirror.calls[i] == Kept(st.calls[i]))
    && mirror.used == st.used
  }

  ghost predicate SameFlags(st: State, mirror: State) {
    mirror.started == st.started && mirror.sawContent == st.sawContent && mirror.terminal == st.terminal
  }

  lemma IntroduceWellFormed(ids: IdSource, st: State, native: Option<string>)
    requires WellFormed(st)
    ensures WellFormed(Introduce(ids, st, native))
  {
    var st' := Introduce(ids, st, native);
    var n := |st.calls|;
    assert st'.calls[n].id !in st.used;
    forall s | s in st'.used ensures exists i :: 0 <= i < |st'.calls| && st'.calls[i].id == s {
      if s in st.used {
        var i :| 0 <= i < |st.calls| && st.calls[i].id == s;
        assert st'.calls[i].id == s;
      } else {
        assert st'.calls[n].id == s;
      }
    }
  }

  lemma ExtendWellFormed(st: State, i: nat, part: ToolCallDelta)
    requires WellFormed(st) && i < |st.calls|
    ensures WellFormed(st.(calls := st.calls[i := Extend(st.calls[i], part)]))
  {
    var st' := st.(calls := st.calls[i := Extend(st.calls[i], part)]);
    assert forall j :: 0 <= j < |st.calls| ==> st'.calls[j].id == st.calls[j].id;
    forall s | s in st'.used ensures exists j :: 0 <= j < |st'.calls| && st'.calls[j].id == s {
      var j :| 0 <= j < |st.calls| && st.calls[j].id == s;
      assert st'.calls[j].id == s;
    }
  }

  lemma AcceptPartWellFormed(ids: IdSource, st: State, part: ToolCallDelta)
    requires WellFormed(st) && AcceptPart(ids, st, part).Ok?
    ensures WellFormed(AcceptPart(ids, st, part).value.0)
  {
    if part.index == |st.calls| {
      IntroduceWellFormed(ids, st, part.id);
      ExtendWellFormed(Introduce(ids, st, part.id), part.index, part);
    } else {
      ExtendWellFormed(st, part.index, part);
    }
  }

  /** A part that opens a call carries that call's ID when emitted, so the reader keeps it. */
  lemma IntroductionMirrors(ids: IdSource, ids2: IdSource, st: State, mirror: State, part: ToolCallDelta)
    requires WellFormed(st) && SameCalls(st, mirror)
    requires AcceptPart(ids, st, part).Ok? && part.index == |st.calls|
    ensures var (st', part') := AcceptPart(ids, st, part).value;
            var r := AcceptPart(ids2, mirror, part');
            r.Ok? && r.value.1 == part' && SameCalls(st', r.value.0) && r.value.0 == mirror.(calls := r.value.0.calls, used := r.value.0.used)
  {
    var (st', part') := AcceptPart(ids, st, part).value;
    var st1 := Introduce(ids, st, part.id);
    var id := st1.calls[part.index].id;
    assert part'.id == Some(id) && id != "" && id !in mirror.used;
    var mirror1 := Introduce(ids2, mirror, part'.id);
    assert mirror1.calls == mirror.calls + [PartialCall(id, true, "", "")];
  }

  lemma ExtensionMirrors(ids: IdSource, ids2: IdSource, st: State, mirror: State, part: ToolCallDelta)
    requires WellFormed(st) && SameCalls(st, mirror)
    requires AcceptPart(ids, st, part).Ok? && part.index < |st.calls|
    ensures var (st', part') := AcceptPart(ids, st, part).value;
            var r := AcceptPart(ids2, mirror, part');
            r.Ok? && r.value.1 == part' && SameCalls(st', r.value.0) && r.value.0 == mirror.(calls := r.value.0.calls, used := r.value.0.used)
  {
    var i := part.index;
    assert mirror.calls[i] == Kept(st.calls[i]);
  }

  lemma {:induction false} PartsMirror(ids: IdSource, ids2: IdSource, st: State, mirror: State, parts: seq<ToolCallDelta>)
    requires WellFormed(st) && SameCalls(st, mirror)
    requires AcceptParts(ids, st, parts).Ok?
    ensures var a := AcceptParts(ids, st, parts).value;
            var r := AcceptParts(ids2, mirror, a.parts);
            && WellFormed(a.state)
            && r.Ok? && r.value.parts == a.parts && SameCalls(a.state, r.value.state)
            && r.value.state == mirror.(calls := r.value.state.calls, used := r.value.state.used)
    decreases |parts|
  {
    if parts != [] {
      var (st', part) := AcceptPart(ids, st, parts[0]).value;
      AcceptPartWellFormed(ids, st, parts[0]);
      if parts[0].index == |st.calls| {
        IntroductionMirrors(ids, ids2, st, mirror, parts[0]);
      } else {
        ExtensionMirrors(ids, ids2, st, mirror, parts[0]);
      }
      var mirror' := AcceptPart(ids2, mirror, part).value.0;
      PartsMirror(ids, ids2, st', mirror', parts[1..]);
      var a := AcceptParts(ids, st, parts).value;
      assert a.parts[0] == part && a.parts[1..] == AcceptParts(ids, st', parts[1..]).value.parts;
    }
  }

  // ------------------------------------------------------------ the terminal

  lemma {:induction false} CompletedCallsMirror(declared: set<string>, a: seq<PartialCall>, b: seq<PartialCall>)
    requires |a| == |b| && forall i :: 0 <= i < |a| ==> b[i] == Kept(a[i])
    ensures CompletedCalls(declared, b) == CompletedCalls(declared, a)
    decreases |a|
  {
    if a != [] {
      CompletedCallsMirror(declared, a[1..], b[1..]);
    }
  }

  /** A canonical finish reason, read as a native one, is normalized to itself. */
  lemma FinishMirrors(request: CanonicalRequest, st: State, mirror: State, terminal: NativeTerminal)
    requires SameCalls(st, mirror) && mirror.sawContent == st.sawContent
    requires Finish(request, st, terminal).Ok?
    ensures Finish(request, mirror, NativeOf(Finish(request, st, terminal).value)) == Finish(request, st, terminal)
  {
    CompletedCallsMirror(DeclaredTools(request), st.calls, mirror.calls);
  }

  // ------------------------------------------------------------ one chunk

  /** The client sees the same document under its own ID and timestamp. */
  function Rebrand(meta: Metadata, c: ChatChunk): ChatChunk {
    c.(id := meta.id, created := meta.created)
  }

  function RebrandAll(meta: Metadata, chunks: seq<ChatChunk>): (r: seq<ChatChunk>)
    ensures |r| == |chunks|
    ensures forall i :: 0 <= i < |chunks| ==> r[i] == Rebrand(meta, chunks[i])
  {
    seq(|chunks|, i requires 0 <= i < |chunks| => Rebrand(meta, chunks[i]))
  }

  lemma EmitMirrors(ss: Session, ss2: Session, st: State, mirror: State, delta: AssistantDelta, terminal: Option<NativeTerminal>)
    requires ss2.request == ss.request && SameCalls(st, mirror) && SameFlags(st, mirror)
    requires Emit(ss, st, delta, terminal).Ok?
    ensures var p := Emit(ss, st, delta, terminal).value;
            && p.chunk.Some? && |p.chunk.value.choices| == 1
            && var choice := p.chunk.value.choices[0];
               var r := Emit(ss2, mirror, choice.delta, NativeOption(choice.finishReason));
               && r.Ok? && r.value.chunk == Some(Rebrand(ss2.meta, p.chunk.value))
               && SameCalls(p.state, r.value.state) && SameFlags(p.state, r.value.state)
               && r.value.state.emittedUsage == mirror.emittedUsage
               && p.state.emittedUsage == st.emittedUsage
  {
    if terminal.Some? {
      var st' := st.(started := true, sawContent := st.sawContent || delta.content.Some?);
      var mirror' := mirror.(started := true, sawContent := mirror.sawContent || delta.content.Some?);
      FinishMirrors(ss.request, st', mirror', terminal.value);
    }
  }

  /** The emitted choice, pushed into the reading assembler, comes out again. */
  lemma PushMirrors(ss: Session, ss2: Session, st: State, mirror: State, choiceIndex: nat, delta: AssistantDelta,
                    terminal: Option<NativeTerminal>)
    requires ss2.request == ss.request && WellFormed(st) && SameCalls(st, mirror) && SameFlags(st, mirror)
    requires Push(ss, st, choiceIndex, delta, terminal).Ok?
    ensures var p := Push(ss, st, choiceIndex, delta, terminal).value;
            && WellFormed(p.state) && p.state.emittedUsage == st.emittedUsage
            && (p.chunk.None? ==> p.state == st)
            && (p.chunk.Some? ==>
                  && |p.chunk.value.choices| == 1 && p.chunk.value.usage.None? && p.chunk.value.choices[0].index == 0
                  && var choice := p.chunk.value.choices[0];
                     var r := Push(ss2, mirror, 0, choice.delta, NativeOption(choice.finishReason));
                     && r.Ok? && r.value.chunk == Some(Rebrand(ss2.meta, p.chunk.value))
                     && SameCalls(p.state, r.value.state) && SameFlags(p.state, r.value.state)
                     && r.value.state.emittedUsage == mirror.emittedUsage)
  {
    var p := Push(ss, st, choiceIndex, delta, terminal).value;
    PushSplits(ss, st, choiceIndex, delta, terminal);
    if p.chunk.Some? {
      var a := AcceptParts(ss.ids, st, delta.toolCalls).value;
      AcceptedMirror(ss.ids, ss2.ids, st, mirror, delta.toolCalls);
      var mirror1 := AcceptParts(ss2.ids, mirror, a.parts).value.state;
      EmitMirrors(ss, ss2, a.state, mirror1, delta.(toolCalls := a.parts), terminal);
      EmitKeepsCalls(ss, a.state, delta.(toolCalls := a.parts), terminal);
      EmitReads(ss, ss2, a.state, mirror, delta.(toolCalls := a.parts), terminal);
    }
  }

  /** A push either leaves everything as it was or emits what its accepted parts make of the delta. */
  lemma PushSplits(ss: Session, st: State, choiceIndex: nat, delta: AssistantDelta, terminal: Option<NativeTerminal>)
    requires Push(ss, st, choiceIndex, delta, terminal).Ok?
    ensures var p := Push(ss, st, choiceIndex, delta, terminal).value;
            && AcceptParts(ss.ids, st, delta.toolCalls).Ok? && !st.terminal
            && var a := AcceptParts(ss.ids, st, delta.toolCalls).value;
               && (p.chunk.None? ==> p.state == st)
               && (p.chunk.Some? ==>
                     && Ok(p) == Emit(ss, a.state, delta.(toolCalls := a.parts), terminal)
                     && Observable(delta.(toolCalls := a.parts), terminal))
  {
  }

  /** Something for the client to see. */
  ghost predicate Observable(delta: AssistantDelta, terminal: Option<NativeTerminal>) {
    && (delta.role.Some? ==> delta.role.value == "assistant")
    && (delta.role.Some? || delta.content.Some? || delta.toolCalls != [] || terminal.Some?)
  }

  /** Both assemblers have taken the parts, and nothing but the calls and IDs has changed. */
  lemma AcceptedMirror(ids: IdSource, ids2: IdSource, st: State, mirror: State, parts: seq<ToolCallDelta>)
    requires WellFormed(st) && SameCalls(st, mirror) && SameFlags(st, mirror) && AcceptParts(ids, st, parts).Ok?
    ensures var a := AcceptParts(ids, st, parts).value;
            var r := AcceptParts(ids2, mirror, a.parts);
            && r.Ok? && r.value.parts == a.parts
            && WellFormed(a.state) && a.state.emittedUsage == st.emittedUsage
            && SameCalls(a.state, r.value.state) && SameFlags(a.state, r.value.state)
            && r.value.state.emittedUsage == mirror.emittedUsage
  {
    PartsMirror(ids, ids2, st, mirror, parts);
    AcceptKeepsFlags(ids, st, parts);
  }

  /** The reading assembler takes the emitted choice for something to emit. */
  lemma EmitReads(ss: Session, ss2: Session, st: State, mirror: State, delta: AssistantDelta, terminal: Option<NativeTerminal>)
    requires !mirror.terminal && Observable(delta, terminal) && Emit(ss, st, delta, terminal).Ok?
    requires AcceptParts(ss2.ids, mirror, delta.toolCalls).Ok?
    requires AcceptParts(ss2.ids, mirror, delta.toolCalls).value.parts == delta.toolCalls
    ensures var choice := Emit(ss, st, delta, terminal).value.chunk.value.choices[0];
            Push(ss2, mirror, 0, choice.delta, NativeOption(choice.finishReason))
            == Emit(ss2, AcceptParts(ss2.ids, mirror, delta.toolCalls).value.state, choice.delta, NativeOption(choice.finishReason))
  {
    var choice := Emit(ss, st, delta, terminal).value.chunk.value.choices[0];
    assert choice.delta.toolCalls == delta.toolCalls;
    PushIsEmit(ss2, mirror, choice.delta, NativeOption(choice.finishReason));
  }

  /** A delta with something in it is emitted once its parts are accepted. */
  lemma PushIsEmit(ss: Session, st: State, delta: AssistantDelta, terminal: Option<NativeTerminal>)
    requires !st.terminal && Observable(delta, terminal) && AcceptParts(ss.ids, st, delta.toolCalls).Ok?
    ensures var a := AcceptParts(ss.ids, st, delta.toolCalls).value;
            Push(ss, st, 0, delta, terminal) == Emit(ss, a.state, delta.(toolCalls := a.parts), terminal)
  {
  }

  lemma EmitKeepsCalls(ss: Session, st: State, delta: AssistantDelta, terminal: Option<NativeTerminal>)
    requires WellFormed(st) && Emit(ss, st, delta, terminal).Ok?
    ensures WellFormed(Emit(ss, st, delta, terminal).value.state)
  {
  }

  // ------------------------------------------------------------ emitted literals

  /** The only role and call type that ever leave the assembler. */
  ghost predicate Typed(calls: seq<ToolCallDelta>) {
    forall i :: 0 <= i < |calls| && calls[i].kind.Some? ==> calls[i].kind.value == "function"
  }

  lemma {:induction false} PartsAreTyped(ids: IdSource, st: State, parts: seq<ToolCallDelta>)
    requires AcceptParts(ids, st, parts).Ok?
    ensures Typed(AcceptParts(ids, st, parts).value.parts)
    decreases |parts|
  {
    if parts != [] {
      var (st', part) := AcceptPart(ids, st, parts[0]).value;
      PartsAreTyped(ids, st', parts[1..]);
      var a := AcceptParts(ids, st, parts).value.parts;
      assert a == [part] + AcceptParts(ids, st', parts[1..]).value.parts;
    }
  }

  lemma PushIsTyped(ss: Session, st: State, choiceIndex: nat, delta: AssistantDelta, terminal: Option<NativeTerminal>)
    requires Push(ss, st, choiceIndex, delta, terminal).Ok?
    ensures var p := Push(ss, st, choiceIndex, delta, terminal).value;
            p.chunk.Some? ==>
              && |p.chunk.value.choices| == 1
              && var d := p.chunk.value.choices[0].delta;
                 (d.role.Some? ==> d.role.value == "assistant") && Typed(d.toolCalls)
  {
    PartsAreTyped(ss.ids, st, delta.toolCalls);
  }

  /** So what the serializer prints bare is never in need of an escape. */
  lemma EmittedIsSafe(ss: Session, st: State, op: Op)
    requires Apply(ss, st, op).Ok? && Apply(ss, st, op).value.chunk.Some?
    ensures SafeLiterals(Apply(ss, st, op).value.chunk.value)
  {
    SafeText(CHUNK_OBJECT);
    if op.PushOp? {
      PushIsTyped(ss, st, op.choiceIndex, op.delta, op.terminal);
      var d := Apply(ss, st, op).value.chunk.value.choices[0].delta;
      SafeText("assistant");
      SafeText("function");
      forall i | 0 <= i < |d.toolCalls| ensures SafeCall(d.toolCalls[i]) {
        if d.toolCalls[i].kind.Some? {
          assert d.toolCalls[i].kind.value == "function";
        }
      }
    }
  }

  lemma SafeText(s: string)
    requires s == CHUNK_OBJECT || s == "assistant" || s == "function"
    ensures Safe(s)
  {
  }

  // ------------------------------------------------------------ one event

  /** The reading decoder after any number of the gateway's events. */
  ghost predicate Mirror(st: State, d: OpenAiState) {
    && WellFormed(st)
    && SameCalls(st, d.asm) && SameFlags(st, d.asm)
    && (st.emittedUsage <==> d.usage.Some?) && (st.emittedUsage ==> Finished(st))
    && !d.asm.emittedUsage && d.data == [] && !d.done
  }

  /** The usage event is held back until `[DONE]`. */
  function Held(ss: Session, d: OpenAiState): seq<ChatChunk> {
    if d.usage.Some? then [UsageOnlyChunk(ss, d.usage.value)] else []
  }

  /** The reader at the end of one event: the payload is its whole buffer. */
  lemma ReadEvent(cfg: Config, d: Decoding, payload: seq<byte>, rest: seq<byte>)
    requires d.data == [] && payload != [] && payload[|payload| - 1] != CR && |payload| <= MAX_SSE_EVENT_BYTES
    requires forall i :: 0 <= i < |payload| ==> payload[i] != LF
    ensures var step := Dispatch(cfg, d.(data := payload));
            ReadLines(OpenAiDecoder(cfg), d, DataLine(payload) + [LF] + [LF] + rest)
              == if step.Fail? then Dead([], step.kind) else Prepend(step.out, ReadLines(OpenAiDecoder(cfg), step.state, rest))
  {
    TakesData(cfg, d, payload);
    ReadLinesEvent(OpenAiDecoder(cfg), d, DataLine(payload), d.(data := payload), rest);
  }

  lemma TakesData(cfg: Config, d: Decoding, payload: seq<byte>)
    requires d.data == [] && payload != [] && payload[|payload| - 1] != CR && |payload| <= MAX_SSE_EVENT_BYTES
    ensures OpenAiDecoder(cfg).line(d, DataLine(payload)) == Next(d.(data := payload), [])
    ensures OpenAiDecoder(cfg).line(d.(data := payload), []) == DecodingLine(cfg, d.(data := payload), [])
  {
    DataLineValue(payload);
  }

  /** A serialized chunk within the event limit, whose call indices are `usize` values. */
  ghost predicate Readable(c: ChatChunk) {
    && |Payload(c)| <= MAX_SSE_EVENT_BYTES
    && forall i :: 0 <= i < |c.choices| ==> WidthOk(c.choices[i].delta.toolCalls)
  }

  ghost predicate WidthOk(calls: seq<ToolCallDelta>) {
    forall i :: 0 <= i < |calls| ==> calls[i].index <= U64_MAX
  }

  lemma OrdinaryEvent(cfg: Config, d: OpenAiState, c: ChatChunk)
    requires |c.choices| == 1 && c.choices[0].index == 0 && CanonicalDelta(c.choices[0].delta) && !d.done && d.data == Payload(c)
    ensures var choice := c.choices[0];
            Dispatch(cfg, d) == match Push(cfg.ss, d.asm, 0, choice.delta, NativeOption(choice.finishReason))
                                case Err(e) => Fail(TargetError(e))
                                case Ok(p) => Next(d.(data := [], asm := p.state), ChunkList(p.chunk))
  {
    ChoiceReadsBack(c.choices[0], cfg.deepSeek);
    OneChoiceEvent(cfg, d, c);
  }

  /** The payload is an event with this one choice. */
  lemma OneChoiceEvent(cfg: Config, d: OpenAiState, c: ChatChunk)
    requires |c.choices| == 1 && !d.done && d.data == Payload(c)
    ensures Dispatch(cfg, d) == DispatchChoice(cfg, d.(data := []), Object(ChoiceFields(c.choices[0])))
  {
    PayloadDecodes(c);
    ChunkField(c);
    assert ChoicesJson(c.choices) == [Object(ChoiceFields(c.choices[0]))];
    assert Payload(c)[|Payload(c)| - 1] != DONE_PAYLOAD[|DONE_PAYLOAD| - 1];
  }

  lemma UsageEvent(cfg: Config, d: OpenAiState, c: ChatChunk)
    requires c.choices == [] && c.usage.Some? && ValidUsage(c.usage.value) && !d.done && d.data == Payload(c)
    ensures Dispatch(cfg, d) == Next(d.(data := [], usage := c.usage), [])
  {
    PayloadDecodes(c);
    ChunkField(c);
    assert ChoicesJson(c.choices) == [];
    UsageReadsBack(c.usage.value);
    assert Payload(c)[|Payload(c)| - 1] != DONE_PAYLOAD[|DONE_PAYLOAD| - 1];
  }

  // ------------------------------------------------------------ whole runs

  function BodyText(chunks: seq<ChatChunk>): string
    decreases |chunks|
  {
    if chunks == [] then DONE_TEXT else ChunkText(chunks[0]) + BodyText(chunks[1..])
  }

  lemma BodyBytes(c: ChatChunk, rest: seq<ChatChunk>)
    requires SafeLiterals(c)
    ensures ToBytes(BodyText([c] + rest)) == DataLine(Payload(c)) + [LF] + [LF] + ToBytes(BodyText(rest))
  {
    assert ([c] + rest)[1..] == rest;
    ChunkIsDocument(c);
    EncodeConcat(ChunkText(c), BodyText(rest));
    EventBytes(Encode(Server, Object(ChunkFields(c))));
  }

  /** Reading from `d` on gives `out` and ends as the gateway's stream should. */
  ghost predicate ReadsTo(cfg: Config, d: Decoding, bytes: seq<byte>, out: seq<ChatChunk>) {
    var r := ReadLines(OpenAiDecoder(cfg), d, bytes);
    r.Alive? && r.partial == [] && r.state.data == [] && r.state.done && r.out == out
  }

  lemma DoneBytes()
    ensures ToBytes(DONE_TEXT) == DataLine(DONE_PAYLOAD) + [LF] + [LF]
  {
    EventBytes("[DONE]");
    AsciiEncode("[DONE]");
    assert ToBytes("[DONE]") == DONE_PAYLOAD;
  }

  /** `[DONE]` closes the reader and releases the usage chunk. */
  lemma DoneDispatch(cfg: Config, st: State, d: OpenAiState)
    requires Mirror(st, d) && Finished(st) && (st.emittedUsage ==> cfg.ss.request.includeUsage && ValidUsage(d.usage.value))
    ensures var step := Dispatch(cfg, d.(data := DONE_PAYLOAD));
            step.Next? && step.state.done && step.state.data == [] && step.out == Held(cfg.ss, d)
  {
  }

  lemma DoneReads(cfg: Config, st: State, d: Decoding)
    requires Mirror(st, d) && Finished(st) && (st.emittedUsage ==> cfg.ss.request.includeUsage && ValidUsage(d.usage.value))
    ensures ReadsTo(cfg, d, ToBytes(DONE_TEXT), Held(cfg.ss, d))
  {
    DoneBytes();
    DonePayloadFits();
    DonePayloadReads(cfg, st, d, DONE_PAYLOAD);
  }

  lemma DonePayloadFits()
    ensures DONE_PAYLOAD != [] && DONE_PAYLOAD[|DONE_PAYLOAD| - 1] != CR && |DONE_PAYLOAD| <= MAX_SSE_EVENT_BYTES
    ensures forall i :: 0 <= i < |DONE_PAYLOAD| ==> DONE_PAYLOAD[i] != LF
  {
  }

  lemma DonePayloadReads(cfg: Config, st: State, d: Decoding, payload: seq<byte>)
    requires Mirror(st, d) && Finished(st) && (st.emittedUsage ==> cfg.ss.request.includeUsage && ValidUsage(d.usage.value))
    requires payload == DONE_PAYLOAD && payload != [] && payload[|payload| - 1] != CR && |payload| <= MAX_SSE_EVENT_BYTES
    requires forall i :: 0 <= i < |payload| ==> payload[i] != LF
    ensures ReadsTo(cfg, d, DataLine(payload) + [LF] + [LF], Held(cfg.ss, d))
  {
    var bytes := DataLine(payload) + [LF] + [LF];
    assert bytes + [] == bytes;
    DoneDispatch(cfg, st, d);
    ReadEvent(cfg, d, payload, []);
    NothingMore(OpenAiDecoder(cfg), Dispatch(cfg, d.(data := payload)).state, Held(cfg.ss, d));
  }

  lemma NothingMore<S>(d: Decoder<S>, s: S, out: seq<ChatChunk>)
    ensures Prepend(out, ReadLines(d, s, [])) == Alive(s, [], out)
  {
    assert out + [] == out;
  }

  /** Usage is emitted only on request and only when it adds up. */
  ghost predicate UsageOk(ss: Session, st: State, d: OpenAiState) {
    st.emittedUsage ==> ss.request.includeUsage && d.usage.Some? && ValidUsage(d.usage.value)
  }

  /** One request to the gateway's assembler, and the event it may cause at the reader. */
  lemma OpMirrors(ss: Session, cfg: Config, st: State, d: Decoding, op: Op, rest: seq<byte>)
    returns (d': Decoding, out: seq<ChatChunk>)
    requires cfg.ss.request == ss.request && Mirror(st, d) && UsageOk(ss, st, d)
    requires Apply(ss, st, op).Ok?
    requires Apply(ss, st, op).value.chunk.Some? ==> Readable(Apply(ss, st, op).value.chunk.value)
    ensures var p := Apply(ss, st, op).value;
            && Mirror(p.state, d') && UsageOk(ss, p.state, d')
            && out + Held(cfg.ss, d') == Held(cfg.ss, d) + RebrandAll(cfg.ss.meta, ChunkList(p.chunk))
            && ReadLines(OpenAiDecoder(cfg), d, (if p.chunk.Some? then DataLine(Payload(p.chunk.value)) + [LF] + [LF] else []) + rest)
                 == Prepend(out, ReadLines(OpenAiDecoder(cfg), d', rest))
  {
    var p := Apply(ss, st, op).value;
    if p.chunk.None? {
      d', out := d, [];
      if op.PushOp? {
        PushMirrors(ss, cfg.ss, st, d.asm, op.choiceIndex, op.delta, op.terminal);
      }
      assert [] + rest == rest;
      assert Prepend([], ReadLines(OpenAiDecoder(cfg), d, rest)) == ReadLines(OpenAiDecoder(cfg), d, rest);
    } else {
      var c := p.chunk.value;
      PayloadDecodes(c);
      ReadEvent(cfg, d, Payload(c), rest);
      d', out := EventMirrors(ss, cfg, st, d, op);
    }
  }

  lemma EventMirrors(ss: Session, cfg: Config, st: State, d: Decoding, op: Op)
    returns (d': Decoding, out: seq<ChatChunk>)
    requires cfg.ss.request == ss.request && Mirror(st, d) && UsageOk(ss, st, d)
    requires Apply(ss, st, op).Ok? && Apply(ss, st, op).value.chunk.Some?
    requires Readable(Apply(ss, st, op).value.chunk.value)
    ensures var p := Apply(ss, st, op).value;
            && Dispatch(cfg, d.(data := Payload(p.chunk.value))) == Next(d', out)
            && Mirror(p.state, d') && UsageOk(ss, p.state, d')
            && out + Held(cfg.ss, d') == Held(cfg.ss, d) + RebrandAll(cfg.ss.meta, [p.chunk.value])
  {
    var p := Apply(ss, st, op).value;
    var c := p.chunk.value;
    match op
    case PushOp(choiceIndex, delta, terminal) =>
      PushMirrors(ss, cfg.ss, st, d.asm, choiceIndex, delta, terminal);
      PushIsTyped(ss, st, choiceIndex, delta, terminal);
      OrdinaryEvent(cfg, d.(data := Payload(c)), c);
      var r := Push(cfg.ss, d.asm, 0, c.choices[0].delta, NativeOption(c.choices[0].finishReason)).value;
      d', out := d.(asm := r.state), ChunkList(r.chunk);
      assert out == RebrandAll(cfg.ss.meta, [c]);
    case UsageOp(usage) =>
      UsageEvent(cfg, d.(data := Payload(c)), c);
      d', out := d.(usage := c.usage), [];
      assert RebrandAll(cfg.ss.meta, [c]) == [UsageOnlyChunk(cfg.ss, usage)];
  }

  lemma {:induction false} RunMirrors(ss: Session, cfg: Config, st: State, d: Decoding, ops: seq<Op>)
    requires cfg.ss.request == ss.request && Mirror(st, d) && UsageOk(ss, st, d)
    requires RunOps(ss, st, ops).Ok? && Finished(RunOps(ss, st, ops).value.state)
    requires forall i :: 0 <= i < |RunOps(ss, st, ops).value.chunks| ==> Readable(RunOps(ss, st, ops).value.chunks[i])
    ensures var chunks := RunOps(ss, st, ops).value.chunks;
            ReadsTo(cfg, d, ToBytes(BodyText(chunks)), Held(cfg.ss, d) + RebrandAll(cfg.ss.meta, chunks))
    decreases |ops|
  {
    if ops == [] {
      DoneReads(cfg, st, d);
      assert Held(cfg.ss, d) + RebrandAll(cfg.ss.meta, []) == Held(cfg.ss, d);
    } else {
      var p := Apply(ss, st, ops[0]).value;
      var rest := RunOps(ss, p.state, ops[1..]).value.chunks;
      ReadableParts(ChunkList(p.chunk), rest);
      assert p.chunk.Some? ==> ChunkList(p.chunk)[0] == p.chunk.value;
      var d', out := OpMirrors(ss, cfg, st, d, ops[0], ToBytes(BodyText(rest)));
      RunMirrors(ss, cfg, p.state, d', ops[1..]);
      if p.chunk.Some? {
        EmittedIsSafe(ss, st, ops[0]);
      }
      BodyOfRun(p.chunk, rest);
      OutputOfRun(cfg, d, d', out, p.chunk, rest);
    }
  }

  lemma ReadableParts(a: seq<ChatChunk>, b: seq<ChatChunk>)
    requires forall i :: 0 <= i < |a + b| ==> Readable((a + b)[i])
    ensures forall i :: 0 <= i < |a| ==> Readable(a[i])
    ensures forall i :: 0 <= i < |b| ==> Readable(b[i])
  {
    forall i | 0 <= i < |a| ensures Readable(a[i]) {
      assert (a + b)[i] == a[i];
    }
    forall i | 0 <= i < |b| ensures Readable(b[i]) {
      assert (a + b)[|a| + i] == b[i];
    }
  }

  lemma OutputOfRun(cfg: Config, d: OpenAiState, d': OpenAiState, out: seq<ChatChunk>, chunk: Option<ChatChunk>, rest: seq<ChatChunk>)
    requires out + Held(cfg.ss, d') == Held(cfg.ss, d) + RebrandAll(cfg.ss.meta, ChunkList(chunk))
    ensures out + (Held(cfg.ss, d') + RebrandAll(cfg.ss.meta, rest))
         == Held(cfg.ss, d) + RebrandAll(cfg.ss.meta, ChunkList(chunk) + rest)
  {
    var meta := cfg.ss.meta;
    assert RebrandAll(meta, ChunkList(chunk) + rest) == RebrandAll(meta, ChunkList(chunk)) + RebrandAll(meta, rest);
    assert out + (Held(cfg.ss, d') + RebrandAll(meta, rest)) == (out + Held(cfg.ss, d')) + RebrandAll(meta, rest);
  }

  lemma BodyOfRun(chunk: Option<ChatChunk>, rest: seq<ChatChunk>)
    requires chunk.Some? ==> SafeLiterals(chunk.value)
    ensures ToBytes(BodyText(ChunkList(chunk) + rest))
         == (if chunk.Some? then DataLine(Payload(chunk.value)) + [LF] + [LF] else []) + ToBytes(BodyText(rest))
  {
    if chunk.Some? {
      BodyBytes(chunk.value, rest);
    } else {
      assert [] + rest == rest;
    }
  }

  /** Take any run of the assembler that finishes, write its chunks and `[DONE]` as
      the gateway does, cut the bytes in any way that fits the buffer, and give them to
      the compatible-family decoder for the same request: it yields exactly those
      chunks, without error, changed only in ID and timestamp. */
  lemma GatewayOutputRereads(ss: Session, cursor: nat, ops: seq<Op>, cfg: Config, cursor2: nat, source: seq<Fragment>)
    requires cfg.ss.request == ss.request
    requires RunOps(ss, Initial(cursor), ops).Ok? && Finished(RunOps(ss, Initial(cursor), ops).value.state)
    requires forall i :: 0 <= i < |RunOps(ss, Initial(cursor), ops).value.chunks| ==> Readable(RunOps(ss, Initial(cursor), ops).value.chunks[i])
    requires Fits([], source)
    requires Joined(source) == Delivery(ToBytes(BodyText(RunOps(ss, Initial(cursor), ops).value.chunks)), Eof)
    ensures Feed(OpenAiDecoder(cfg), Start(cursor2), [], source)
         == Items(RebrandAll(cfg.ss.meta, RunOps(ss, Initial(cursor), ops).value.chunks))
  {
    var chunks := RunOps(ss, Initial(cursor), ops).value.chunks;
    FragmentationIndependence(OpenAiDecoder(cfg), Start(cursor2), source);
    RunMirrors(ss, cfg, Initial(cursor), Start(cursor2), ops);
    assert [] + RebrandAll(cfg.ss.meta, chunks) == RebrandAll(cfg.ss.meta, chunks);
    var r := ReadLines(OpenAiDecoder(cfg), Start(cursor2), ToBytes(BodyText(chunks)));
    assert EndItems(OpenAiDecoder(cfg), r.state, []) == Items([]);
    ItemsConcat(r.out, []);
    assert r.out + [] == r.out;
  }
}
