/** A stream assembled piece by piece and the same content answered at once: the
    two paths accept the same responses, agree on the finish reason and on the
    error class, and a client that folds the deltas by index recovers the
    buffered message. */
module StreamBuffer {
  import opened Wrappers
  import opened Response
  import opened Assembler

  // ------------------------------------------------------------ concatenation

  function JoinContent(a: Option<string>, b: Option<string>): Option<string> {
    if a.None? then b else if b.None? then a else Some(a.value + b.value)
  }

  /** The buffered call list a part contributes to. */
  function CollectPart(acc: seq<NativeToolCall>, part: ToolCallDelta): seq<NativeToolCall> {
    if part.index < |acc| then
      var c := acc[part.index];
      acc[part.index := c.(name := c.name + TextOf(part.name), arguments := c.arguments + TextOf(part.arguments))]
    else acc + [NativeToolCall(part.id, TextOf(part.name), TextOf(part.arguments))]
  }

  function CollectParts(acc: seq<NativeToolCall>, parts: seq<ToolCallDelta>): seq<NativeToolCall>
    decreases |parts|
  {
    if parts == [] then acc else CollectParts(CollectPart(acc, parts[0]), parts[1..])
  }

  datatype Message<C> = Message(content: Option<string>, calls: seq<C>)

  /** Everything the provider sent, concatenated. */
  function Collect(acc: Message<NativeToolCall>, deltas: seq<AssistantDelta>): Message<NativeToolCall>
    decreases |deltas|
  {
    if deltas == [] then acc
    else Collect(Message(JoinContent(acc.content, deltas[0].content), CollectParts(acc.calls, deltas[0].toolCalls)), deltas[1..])
  }

  // ------------------------------------------------------------------- client

  datatype ClientCall = ClientCall(id: Option<string>, name: string, arguments: string)

  /** How a client folds a tool-call delta: by index, later IDs replacing earlier ones. */
  function ClientPart(acc: seq<ClientCall>, part: ToolCallDelta): seq<ClientCall> {
    if part.index < |acc| then
      var c := acc[part.index];
      acc[part.index := ClientCall(if part.id.Some? then part.id else c.id,
                                   c.name + TextOf(part.name), c.arguments + TextOf(part.arguments))]
    else acc + [ClientCall(part.id, TextOf(part.name), TextOf(part.arguments))]
  }

  function ClientParts(acc: seq<ClientCall>, parts: seq<ToolCallDelta>): seq<ClientCall>
    decreases |parts|
  {
    if parts == [] then acc else ClientParts(ClientPart(acc, parts[0]), parts[1..])
  }

  function ClientChunk(acc: Message<ClientCall>, chunk: ChatChunk): Message<ClientCall> {
    if chunk.choices == [] then acc
    else
      var delta := chunk.choices[0].delta;
      Message(JoinContent(acc.content, delta.content), ClientParts(acc.calls, delta.toolCalls))
  }

  function ClientFold(acc: Message<ClientCall>, chunks: seq<ChatChunk>): Message<ClientCall>
    decreases |chunks|
  {
    if chunks == [] then acc else ClientFold(ClientChunk(acc, chunks[0]), chunks[1..])
  }

  function AsToolCall(c: ClientCall): ToolCall {
    ToolCall(TextOf(c.id), c.name, c.arguments)
  }

  // ------------------------------------------------------------ ID assignment

  datatype Assignment = Assignment(chosen: seq<string>, used: set<string>, cursor: nat)

  /** The IDs given to calls whose native IDs are `native`, in order. */
  function Assigned(ids: IdSource, cursor: nat, native: seq<Option<string>>): (a: Assignment)
    ensures |a.chosen| == |native|
  {
    if native == [] then Assignment([], {}, cursor)
    else
      var a := Assigned(ids, cursor, native[..|native| - 1]);
      var (id, _, cursor') := ChooseId(ids, a.used, a.cursor, native[|native| - 1]);
      Assignment(a.chosen + [id], a.used + {id}, cursor')
  }

  function NativeIds(calls: seq<NativeToolCall>): (r: seq<Option<string>>)
    ensures |r| == |calls|
  {
    seq(|calls|, i requires 0 <= i < |calls| => calls[i].id)
  }

  lemma AssignedSnoc(ids: IdSource, cursor: nat, native: seq<Option<string>>, last: Option<string>)
    ensures var a := Assigned(ids, cursor, native);
            var (id, _, cursor') := ChooseId(ids, a.used, a.cursor, last);
            Assigned(ids, cursor, native + [last]) == Assignment(a.chosen + [id], a.used + {id}, cursor')
  {
    assert (native + [last])[..|native|] == native;
  }

  function NamedCalls(chosen: seq<string>, native: seq<NativeToolCall>): (r: seq<ToolCall>)
    requires |chosen| == |native|
    ensures |r| == |native|
    ensures forall i :: 0 <= i < |native| ==> r[i] == ToolCall(chosen[i], native[i].name, native[i].arguments)
  {
    seq(|native|, i requires 0 <= i < |native| => ToolCall(chosen[i], native[i].name, native[i].arguments))
  }

  predicate AllDeclared(declared: set<string>, native: seq<NativeToolCall>) {
    forall i :: 0 <= i < |native| ==> native[i].name in declared
  }

  /** The loop of `normalize_calls` once the first `n` calls are done. */
  lemma {:induction false} NormalizeLoop(ids: IdSource, declared: set<string>, cursor: nat, all: seq<NativeToolCall>, n: nat)
    requires n <= |all|
    ensures var a := Assigned(ids, cursor, NativeIds(all[..n]));
            NormalizeCalls(ids, declared, all[n..], a.used, a.cursor, NamedCalls(a.chosen, all[..n]))
              == if AllDeclared(declared, all[n..]) then Ok(NamedCalls(Assigned(ids, cursor, NativeIds(all)).chosen, all))
                 else Err(InvalidResponse)
    decreases |all| - n
  {
    if n == |all| {
      assert all[..n] == all;
    } else if all[n].name in declared {
      NormalizeOne(ids, declared, cursor, all, n);
      assert all[n..][0] == all[n] && all[n..][1..] == all[n + 1..];
      assert AllDeclared(declared, all[n..]) <==> AllDeclared(declared, all[n + 1..]);
      NormalizeLoop(ids, declared, cursor, all, n + 1);
    } else {
      assert all[n..][0] == all[n];
    }
  }

  /** One turn of that loop. */
  lemma NormalizeOne(ids: IdSource, declared: set<string>, cursor: nat, all: seq<NativeToolCall>, n: nat)
    requires n < |all| && all[n].name in declared
    ensures var a := Assigned(ids, cursor, NativeIds(all[..n]));
            var a' := Assigned(ids, cursor, NativeIds(all[..n + 1]));
            NormalizeCalls(ids, declared, all[n..], a.used, a.cursor, NamedCalls(a.chosen, all[..n]))
              == NormalizeCalls(ids, declared, all[n + 1..], a'.used, a'.cursor, NamedCalls(a'.chosen, all[..n + 1]))
  {
    var done, call := all[..n], all[n];
    var a := Assigned(ids, cursor, NativeIds(done));
    var (id, _, _) := ChooseId(ids, a.used, a.cursor, call.id);
    AssignedSnoc(ids, cursor, NativeIds(done), call.id);
    assert all[..n + 1] == done + [call] && all[n..][1..] == all[n + 1..];
    assert NativeIds(done + [call]) == NativeIds(done) + [call.id];
    assert NamedCalls(a.chosen + [id], done + [call]) == NamedCalls(a.chosen, done) + [ToolCall(id, call.name, call.arguments)];
  }

  /** What `normalize_calls` returns: each call under its assigned ID, if all are declared. */
  lemma NormalizeCallsAssigns(ids: IdSource, declared: set<string>, cursor: nat, native: seq<NativeToolCall>)
    ensures NormalizeCalls(ids, declared, native, {}, cursor, [])
         == if AllDeclared(declared, native) then Ok(NamedCalls(Assigned(ids, cursor, NativeIds(native)).chosen, native))
            else Err(InvalidResponse)
  {
    NormalizeLoop(ids, declared, cursor, native, 0);
    assert native[..0] == [] && native[0..] == native;
    assert NamedCalls([], []) == [];
  }

  // ----------------------------------------------------------------- coupling

  /** The assembler, the concatenated provider calls and the client's fold describe the same calls. */
  ghost predicate Coupled(ids: IdSource, cursor: nat, st: State, native: seq<NativeToolCall>, client: seq<ClientCall>) {
    && |st.calls| == |native| == |client|
    && Assigned(ids, cursor, NativeIds(native)) == Assignment(CallIds(st.calls), st.used, st.cursor)
    && forall i :: 0 <= i < |native| ==> SameCall(st.calls[i], native[i], client[i])
  }

  ghost predicate SameCall(c: PartialCall, n: NativeToolCall, client: ClientCall) {
    && n.name == c.name && n.arguments == c.arguments
    && client == ClientCall(Some(c.id), c.name, c.arguments)
  }

  function CallIds(calls: seq<PartialCall>): (r: seq<string>)
    ensures |r| == |calls|
  {
    seq(|calls|, i requires 0 <= i < |calls| => calls[i].id)
  }

  /** The ID an emitted part carries is the call's own, or none. */
  lemma AcceptedId(ids: IdSource, st: State, part: ToolCallDelta)
    requires AcceptPart(ids, st, part).Ok?
    ensures var (st', part') := AcceptPart(ids, st, part).value;
            && part.index <= |st.calls| && part.index < |st'.calls|
            && part' == part.(id := part'.id)
            && (part'.id.Some? ==> part'.id.value == st'.calls[part.index].id)
            && (part.index == |st.calls| ==> part'.id.Some?)
  {
  }

  lemma AcceptPartCouples(ids: IdSource, cursor: nat, st: State, native: seq<NativeToolCall>, client: seq<ClientCall>,
                          part: ToolCallDelta)
    requires Coupled(ids, cursor, st, native, client)
    requires AcceptPart(ids, st, part).Ok?
    ensures var (st', part') := AcceptPart(ids, st, part).value;
            Coupled(ids, cursor, st', CollectPart(native, part), ClientPart(client, part'))
  {
    var (st', part') := AcceptPart(ids, st, part).value;
    AcceptedId(ids, st, part);
    if part.index == |st.calls| {
      IntroductionCouples(ids, cursor, st, native, client, part);
    } else {
      ExtensionCouples(ids, cursor, st, native, client, part);
    }
  }

  lemma IntroductionCouples(ids: IdSource, cursor: nat, st: State, native: seq<NativeToolCall>, client: seq<ClientCall>,
                            part: ToolCallDelta)
    requires Coupled(ids, cursor, st, native, client)
    requires AcceptPart(ids, st, part).Ok? && part.index == |st.calls|
    ensures var (st', part') := AcceptPart(ids, st, part).value;
            Coupled(ids, cursor, st', CollectPart(native, part), ClientPart(client, part'))
  {
    var (st', part') := AcceptPart(ids, st, part).value;
    var n := |st.calls|;
    var st1 := Introduce(ids, st, part.id);
    var call := Extend(st1.calls[n], part);
    assert st'.calls == st.calls + [call];
    assert "" + TextOf(part.name) == TextOf(part.name) && "" + TextOf(part.arguments) == TextOf(part.arguments);
    AssignedSnoc(ids, cursor, NativeIds(native), part.id);
    assert NativeIds(CollectPart(native, part)) == NativeIds(native) + [part.id];
    assert CallIds(st'.calls) == CallIds(st.calls) + [call.id];
  }

  lemma ExtensionCouples(ids: IdSource, cursor: nat, st: State, native: seq<NativeToolCall>, client: seq<ClientCall>,
                         part: ToolCallDelta)
    requires Coupled(ids, cursor, st, native, client)
    requires AcceptPart(ids, st, part).Ok? && part.index < |st.calls|
    ensures var (st', part') := AcceptPart(ids, st, part).value;
            Coupled(ids, cursor, st', CollectPart(native, part), ClientPart(client, part'))
  {
    var (st', part') := AcceptPart(ids, st, part).value;
    AcceptedId(ids, st, part);
    var i := part.index;
    assert SameCall(st.calls[i], native[i], client[i]);
    assert st'.calls == st.calls[i := Extend(st.calls[i], part)];
    assert NativeIds(CollectPart(native, part)) == NativeIds(native);
    assert CallIds(st'.calls) == CallIds(st.calls);
  }

  lemma {:induction false} AcceptPartsCouples(ids: IdSource, cursor: nat, st: State, native: seq<NativeToolCall>,
                                              client: seq<ClientCall>, parts: seq<ToolCallDelta>)
    requires Coupled(ids, cursor, st, native, client)
    requires AcceptParts(ids, st, parts).Ok?
    ensures var a := AcceptParts(ids, st, parts).value;
            Coupled(ids, cursor, a.state, CollectParts(native, parts), ClientParts(client, a.parts))
    decreases |parts|
  {
    if parts != [] {
      var (st', part) := AcceptPart(ids, st, parts[0]).value;
      AcceptPartCouples(ids, cursor, st, native, client, parts[0]);
      AcceptPartsCouples(ids, cursor, st', CollectPart(native, parts[0]), ClientPart(client, part), parts[1..]);
      assert AcceptParts(ids, st, parts).value.parts[1..] == AcceptParts(ids, st', parts[1..]).value.parts;
    }
  }

  // --------------------------------------------------------------- whole runs

  /** Pushes without a terminal, one after another. */
  function RunPushes(ss: Session, st: State, deltas: seq<AssistantDelta>): Result<Run, ResponseError>
    decreases |deltas|
  {
    if deltas == [] then Ok(Run(st, []))
    else
      match Push(ss, st, 0, deltas[0], None)
      case Err(e) => Err(e)
      case Ok(p) =>
        match RunPushes(ss, p.state, deltas[1..])
        case Err(e) => Err(e)
        case Ok(rest) => Ok(Run(rest.state, ChunkList(p.chunk) + rest.chunks))
  }

  function CollectDelta(acc: Message<NativeToolCall>, delta: AssistantDelta): Message<NativeToolCall> {
    Message(JoinContent(acc.content, delta.content), CollectParts(acc.calls, delta.toolCalls))
  }

  /** `Coupled`, with the text. */
  ghost predicate InStep(ids: IdSource, cursor: nat, st: State, native: Message<NativeToolCall>, client: Message<ClientCall>) {
    && Coupled(ids, cursor, st, native.calls, client.calls)
    && client.content == native.content
    && (st.sawContent <==> native.content.Some?)
  }

  lemma EmitKeepsStep(ss: Session, cursor: nat, st: State, native: Message<NativeToolCall>, client: Message<ClientCall>,
                      delta: AssistantDelta, terminal: Option<NativeTerminal>)
    requires Coupled(ss.ids, cursor, st, native.calls, ClientParts(client.calls, delta.toolCalls))
    requires client.content == native.content && (st.sawContent <==> native.content.Some?)
    requires Emit(ss, st, delta, terminal).Ok?
    ensures var p := Emit(ss, st, delta, terminal).value;
            && p.chunk.Some?
            && p.state.calls == st.calls && p.state.terminal == (st.terminal || terminal.Some?)
            && InStep(ss.ids, cursor, p.state, Message(JoinContent(native.content, delta.content), native.calls),
                      ClientChunk(client, p.chunk.value))
  {
  }

  lemma PushKeepsStep(ss: Session, cursor: nat, st: State, native: Message<NativeToolCall>, client: Message<ClientCall>,
                      delta: AssistantDelta, terminal: Option<NativeTerminal>)
    requires InStep(ss.ids, cursor, st, native, client)
    requires Push(ss, st, 0, delta, terminal).Ok?
    ensures var p := Push(ss, st, 0, delta, terminal).value;
            && (terminal.Some? ==> p.chunk.Some?)
            && p.state.terminal == terminal.Some?
            && InStep(ss.ids, cursor, p.state, CollectDelta(native, delta), ClientFold(client, ChunkList(p.chunk)))
  {
    var p := Push(ss, st, 0, delta, terminal).value;
    AcceptPartsCouples(ss.ids, cursor, st, native.calls, client.calls, delta.toolCalls);
    AcceptKeepsFlags(ss.ids, st, delta.toolCalls);
    var a := AcceptParts(ss.ids, st, delta.toolCalls).value;
    if p.chunk.Some? {
      var native' := Message(native.content, CollectParts(native.calls, delta.toolCalls));
      EmitKeepsStep(ss, cursor, a.state, native', client, delta.(toolCalls := a.parts), terminal);
      assert ClientFold(client, [p.chunk.value]) == ClientChunk(client, p.chunk.value);
    }
  }

  lemma {:induction false} ClientFoldConcat(acc: Message<ClientCall>, a: seq<ChatChunk>, b: seq<ChatChunk>)
    ensures ClientFold(acc, a + b) == ClientFold(ClientFold(acc, a), b)
    decreases |a|
  {
    if a == [] {
      assert a + b == b;
    } else {
      assert (a + b)[1..] == a[1..] + b;
      ClientFoldConcat(ClientChunk(acc, a[0]), a[1..], b);
    }
  }

  lemma {:induction false} CollectSnoc(acc: Message<NativeToolCall>, deltas: seq<AssistantDelta>, last: AssistantDelta)
    ensures Collect(acc, deltas + [last]) == CollectDelta(Collect(acc, deltas), last)
    decreases |deltas|
  {
    if deltas == [] {
      assert deltas + [last] == [last];
    } else {
      assert (deltas + [last])[1..] == deltas[1..] + [last];
      CollectSnoc(CollectDelta(acc, deltas[0]), deltas[1..], last);
    }
  }

  lemma {:induction false} RunKeepsStep(ss: Session, cursor: nat, st: State, native: Message<NativeToolCall>,
                                        client: Message<ClientCall>, deltas: seq<AssistantDelta>)
    requires InStep(ss.ids, cursor, st, native, client) && !st.terminal
    requires RunPushes(ss, st, deltas).Ok?
    ensures var run := RunPushes(ss, st, deltas).value;
            && !run.state.terminal
            && InStep(ss.ids, cursor, run.state, Collect(native, deltas), ClientFold(client, run.chunks))
    decreases |deltas|
  {
    if deltas != [] {
      var p := Push(ss, st, 0, deltas[0], None).value;
      var rest := RunPushes(ss, p.state, deltas[1..]).value;
      PushKeepsStep(ss, cursor, st, native, client, deltas[0], None);
      ClientFoldConcat(client, ChunkList(p.chunk), rest.chunks);
      RunKeepsStep(ss, cursor, p.state, CollectDelta(native, deltas[0]), ClientFold(client, ChunkList(p.chunk)), deltas[1..]);
    }
  }

  // ------------------------------------------------------------- the terminal

  /** `completed_calls` and `normalize_calls` see the same calls. */
  lemma {:induction false} CompletedIsNamed(declared: set<string>, calls: seq<PartialCall>, native: seq<NativeToolCall>)
    requires "" !in declared && |calls| == |native|
    requires forall i :: 0 <= i < |calls| ==> calls[i].name == native[i].name && calls[i].arguments == native[i].arguments
    ensures CompletedCalls(declared, calls)
         == if AllDeclared(declared, native) then Ok(NamedCalls(CallIds(calls), native)) else Err(InvalidResponse)
    decreases |calls|
  {
    if calls != [] {
      CompletedIsNamed(declared, calls[1..], native[1..]);
      assert AllDeclared(declared, native) <==> native[0].name in declared && AllDeclared(declared, native[1..]);
      assert NamedCalls(CallIds(calls), native)
          == [ToolCall(calls[0].id, native[0].name, native[0].arguments)] + NamedCalls(CallIds(calls[1..]), native[1..]);
    }
  }

  lemma FinishIsBuffered(ss: Session, cursor: nat, st: State, native: Message<NativeToolCall>, client: Message<ClientCall>,
                         terminal: NativeTerminal, usage: Option<Usage>)
    requires "" !in DeclaredTools(ss.request)
    requires InStep(ss.ids, cursor, st, native, client)
    ensures var r := BuildResponse(ss.request, ss.meta, ss.ids, cursor, native.content, native.calls, terminal, usage);
            match Finish(ss.request, st, terminal)
            case Err(e) => r == Err(e)
            case Ok(finish) => r.Ok? && r.value.finishReason == finish && SameMessage(client, r.value.message)
  {
    var declared := DeclaredTools(ss.request);
    NormalizeCallsAssigns(ss.ids, declared, cursor, native.calls);
    forall i | 0 <= i < |st.calls|
      ensures st.calls[i].name == native.calls[i].name && st.calls[i].arguments == native.calls[i].arguments
    {
      assert SameCall(st.calls[i], native.calls[i], client.calls[i]);
    }
    CompletedIsNamed(declared, st.calls, native.calls);
    var named := NamedCalls(CallIds(st.calls), native.calls);
    forall i | 0 <= i < |named| ensures named[i] == AsToolCall(client.calls[i]) && client.calls[i].id.Some? {
      assert SameCall(st.calls[i], native.calls[i], client.calls[i]);
    }
  }

  /** The client's fold is the buffered message: text, call IDs, names and arguments. */
  ghost predicate SameMessage(client: Message<ClientCall>, m: AssistantMessage) {
    && client.content == m.content
    && (m.toolCalls.None? <==> client.calls == [])
    && (m.toolCalls.Some? ==>
          && |m.toolCalls.value| == |client.calls|
          && forall i :: 0 <= i < |client.calls| ==>
               client.calls[i].id.Some? && m.toolCalls.value[i] == AsToolCall(client.calls[i]))
  }

  /** The delta of a terminal push is one the assembler can take in. */
  ghost predicate Acceptable(ids: IdSource, st: State, delta: AssistantDelta) {
    (delta.role.Some? ==> delta.role.value == "assistant") && AcceptParts(ids, st, delta.toolCalls).Ok?
  }

  lemma TerminalPush(ss: Session, st: State, delta: AssistantDelta, terminal: NativeTerminal)
    requires !st.terminal && Acceptable(ss.ids, st, delta)
    ensures var a := AcceptParts(ss.ids, st, delta.toolCalls).value;
            var st' := a.state.(started := true, sawContent := a.state.sawContent || delta.content.Some?);
            match Finish(ss.request, st', terminal)
            case Err(e) => Push(ss, st, 0, delta, Some(terminal)) == Err(e)
            case Ok(finish) =>
              && Push(ss, st, 0, delta, Some(terminal)).Ok?
              && var chunk := Push(ss, st, 0, delta, Some(terminal)).value.chunk;
                 chunk.Some? && chunk.value.choices != [] && chunk.value.choices[0].finishReason == Some(finish)
  {
  }

  /** An accepted run of pushes closed by a terminal succeeds exactly when
      `build_response` succeeds on the concatenated content and calls and the same
      terminal; then finish reason, text, call IDs, names and arguments agree, and
      otherwise the error class does. */
  lemma StreamAgreesWithBuffer(ss: Session, cursor: nat, deltas: seq<AssistantDelta>, last: AssistantDelta,
                               terminal: NativeTerminal, usage: Option<Usage>)
    requires "" !in DeclaredTools(ss.request)
    requires RunPushes(ss, Initial(cursor), deltas).Ok?
    requires Acceptable(ss.ids, RunPushes(ss, Initial(cursor), deltas).value.state, last)
    ensures var run := RunPushes(ss, Initial(cursor), deltas).value;
            var sent := Collect(Message(None, []), deltas + [last]);
            var buffered := BuildResponse(ss.request, ss.meta, ss.ids, cursor, sent.content, sent.calls, terminal, usage);
            match Push(ss, run.state, 0, last, Some(terminal))
            case Err(e) => buffered == Err(e)
            case Ok(p) =>
              && buffered.Ok? && p.chunk.Some? && p.chunk.value.choices != []
              && p.chunk.value.choices[0].finishReason == Some(buffered.value.finishReason)
              && SameMessage(ClientFold(Message(None, []), run.chunks + [p.chunk.value]), buffered.value.message)
  {
    var empty, emptyClient := Message(None, []), Message(None, []);
    var run := RunPushes(ss, Initial(cursor), deltas).value;
    RunKeepsStep(ss, cursor, Initial(cursor), empty, emptyClient, deltas);
    var native, client := Collect(empty, deltas), ClientFold(emptyClient, run.chunks);
    CollectSnoc(empty, deltas, last);
    TerminalPush(ss, run.state, last, terminal);
    AcceptKeepsFlags(ss.ids, run.state, last.toolCalls);
    AcceptPartsCouples(ss.ids, cursor, run.state, native.calls, client.calls, last.toolCalls);
    var a := AcceptParts(ss.ids, run.state, last.toolCalls).value;
    var st' := a.state.(started := true, sawContent := a.state.sawContent || last.content.Some?);
    var client' := Message(JoinContent(client.content, last.content), ClientParts(client.calls, a.parts));
    FinishIsBuffered(ss, cursor, st', CollectDelta(native, last), client', terminal, usage);
    var p := Push(ss, run.state, 0, last, Some(terminal));
    if p.Ok? {
      ClientFoldConcat(emptyClient, run.chunks, [p.value.chunk.value]);
      assert ClientFold(client, [p.value.chunk.value]) == ClientChunk(client, p.value.chunk.value) == client';
    }
  }
}
