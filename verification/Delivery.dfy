/** Delivery of a committed stream: the materialised body of `sse_response` and the
    incremental `write_sse_stream`, over arbitrary provider items, clock readings,
    cancellation readings and write results. */
module Delivery {
  import opened Wrappers
  import opened Response
  import opened Gate
  import opened Sse
  import opened Serialize

  /** `Duration`, in any unit; `saturating_add` stops at its maximum. */
  const MAX_DURATION: nat := 0xFFFF_FFFF_FFFF_FFFF * 1_000_000_000 + 999_999_999

  function SaturatingAdd(a: nat, b: nat): nat {
    if a + b > MAX_DURATION then MAX_DURATION else a + b
  }

  /** Successive readings of the clock and of the cancellation flag. */
  datatype Oracle = Oracle(clock: nat -> nat, cancelled: nat -> bool)

  datatype Outcome = Completed | ClientDisconnected | UpstreamFailedAfterCommit

  /** A chunk that was sent: which clock reading came just before it was read (the next
      one came just after), and the deadline in force then. */
  datatype Sent = Sent(chunk: ChatChunk, at: nat, deadline: nat)

  datatype Delivered = Delivered(sent: seq<Sent>, outcome: Outcome)

  /** One trip to the provider, with the checks on either side of it. */
  datatype Reading = Stop(outcome: Outcome) | Got(item: Option<Item>)

  function ReadAt(o: Oracle, deadline: nat, items: seq<Item>, t: nat, c: nat): Reading {
    if o.cancelled(c) then Stop(ClientDisconnected)
    else if o.clock(t) >= deadline then Stop(UpstreamFailedAfterCommit)
    else if o.cancelled(c + 1) then Stop(ClientDisconnected)
    else if o.clock(t + 1) >= deadline then Stop(UpstreamFailedAfterCommit)
    else Got(if items == [] then None else Some(items[0]))
  }

  /** Where the loop stands: the gate, the deadline in force, what the provider still has,
      and how many clock and cancellation readings were made. */
  datatype Cursor = Cursor(gate: GateState, deadline: nat, items: seq<Item>, t: nat, c: nat)

  /** What happens to the item just read. */
  datatype Turn = Halt(outcome: Outcome) | Send(sent: Sent, next: Cursor)

  function TakeTurn(o: Oracle, idle: nat, expected: StreamMetadata, at: Cursor): (r: Turn)
    ensures r.Send? ==> at.items != [] && r.next.items == at.items[1..]
  {
    match ReadAt(o, at.deadline, at.items, at.t, at.c)
    case Stop(outcome) => Halt(outcome)
    case Got(item) =>
      if item.None? then Halt(if at.gate.terminal then Completed else UpstreamFailedAfterCommit)
      else if item.value.Err? || Accept(at.gate, item.value.value, expected).None? then Halt(UpstreamFailedAfterCommit)
      else
        var chunk := item.value.value;
        var ordinary := chunk.choices != [];
        var renewed := if ordinary then SaturatingAdd(o.clock(at.t + 2), idle) else at.deadline;
        Send(Sent(chunk, at.t, at.deadline),
             Cursor(Accept(at.gate, chunk, expected).value, renewed, at.items[1..],
                    if ordinary then at.t + 3 else at.t + 2, at.c + 2))
  }

  /** The whole loop. */
  function DeliverFrom(o: Oracle, idle: nat, expected: StreamMetadata, at: Cursor): Delivered
    decreases |at.items|
  {
    match TakeTurn(o, idle, expected, at)
    case Halt(outcome) => Delivered([], outcome)
    case Send(s, next) =>
      var rest := DeliverFrom(o, idle, expected, next);
      Delivered([s] + rest.sent, rest.outcome)
  }

  /** Everything after the first chunk was committed. */
  function Deliver(o: Oracle, idle: nat, includeUsage: bool, first: ChatChunk, items: seq<Item>): Delivered
    requires First(first, includeUsage).Some?
  {
    DeliverFrom(o, idle, MetadataOf(first),
                Cursor(First(first, includeUsage).value, SaturatingAdd(o.clock(0), idle), items, 1, 0))
  }

  function SentChunks(sent: seq<Sent>): (r: seq<ChatChunk>)
    ensures |r| == |sent|
    ensures forall i :: 0 <= i < |sent| ==> r[i] == sent[i].chunk
  {
    seq(|sent|, i requires 0 <= i < |sent| => sent[i].chunk)
  }

  /** The chunks made public, the first included. */
  function Public(first: ChatChunk, d: Delivered): seq<ChatChunk> {
    [first] + SentChunks(d.sent)
  }

  /** The texts of chunks, in order. */
  function Texts(text: ChatChunk -> string, chunks: seq<ChatChunk>): (r: seq<string>)
    ensures |r| == |chunks|
  {
    if chunks == [] then [] else [text(chunks[0])] + Texts(text, chunks[1..])
  }

  function EventTexts(chunks: seq<ChatChunk>): (r: seq<string>)
    ensures |r| == |chunks|
  {
    Texts(ChunkText, chunks)
  }

  /** The events written, in order. */
  function Events(first: ChatChunk, d: Delivered): seq<string> {
    EventTexts(Public(first, d)) + (if d.outcome == Completed then [DONE_TEXT] else [])
  }

  function Join(texts: seq<string>): string {
    if texts == [] then "" else Join(texts[..|texts| - 1]) + texts[|texts| - 1]
  }

  // ------------------------------------------------------------ the two loops

  /** A selected stream: the first chunk, and what will be read after it. */
  class StreamRouteDispatch {
    const firstChunk: ChatChunk
    const includeUsage: bool
    const idleTimeout: nat
    const oracle: Oracle
    var stream: seq<Item>
    var clockReads: nat
    var cancelReads: nat
    var cancelRequested: bool

    constructor (first: ChatChunk, includeUsage: bool, idle: nat, oracle: Oracle, items: seq<Item>)
      ensures firstChunk == first && this.includeUsage == includeUsage && idleTimeout == idle && this.oracle == oracle
      ensures stream == items && clockReads == 0 && cancelReads == 0 && !cancelRequested
    {
      firstChunk, this.includeUsage, idleTimeout, this.oracle := first, includeUsage, idle, oracle;
      stream, clockReads, cancelReads, cancelRequested := items, 0, 0, false;
    }

    /** Where a loop with this gate and this deadline stands. */
    function At(gate: GateState, deadline: nat): Cursor
      reads this
    {
      Cursor(gate, deadline, stream, clockReads, cancelReads)
    }

    /** What delivery will do from the start. */
    ghost function Ahead(): Delivered
      reads this
      requires First(firstChunk, includeUsage).Some?
    {
      Deliver(oracle, idleTimeout, includeUsage, firstChunk, stream)
    }

    method Now() returns (now: nat)
      modifies this`clockReads
      ensures now == oracle.clock(old(clockReads)) && clockReads == old(clockReads) + 1
    {
      now := oracle.clock(clockReads);
      clockReads := clockReads + 1;
    }

    method IsCancelled() returns (b: bool)
      modifies this`cancelReads
      ensures b == (cancelRequested || oracle.cancelled(old(cancelReads))) && cancelReads == old(cancelReads) + 1
    {
      b := cancelRequested || oracle.cancelled(cancelReads);
      cancelReads := cancelReads + 1;
    }

    method Next() returns (item: Option<Item>)
      modifies this`stream
      ensures old(stream) == [] ==> item == None && stream == []
      ensures old(stream) != [] ==> item == Some(old(stream)[0]) && stream == old(stream)[1..]
    {
      if stream == [] {
        item := None;
      } else {
        item := Some(stream[0]);
        stream := stream[1..];
      }
    }

    /** `next` between its two checks; decoding can itself consume the idle budget. */
    method Read(deadline: nat) returns (r: Reading)
      requires !cancelRequested
      modifies this`stream, this`clockReads, this`cancelReads
      ensures r == ReadAt(oracle, deadline, old(stream), old(clockReads), old(cancelReads))
      ensures r.Got? ==> clockReads == old(clockReads) + 2 && cancelReads == old(cancelReads) + 2
      ensures r.Got? && r.item.Some? ==> stream == old(stream)[1..]
    {
      var cancelled := IsCancelled();
      if cancelled {
        return Stop(ClientDisconnected);
      }
      var before := Now();
      if before >= deadline {
        return Stop(UpstreamFailedAfterCommit);
      }
      var item := Next();
      cancelled := IsCancelled();
      if cancelled {
        return Stop(ClientDisconnected);
      }
      var after := Now();
      if after >= deadline {
        return Stop(UpstreamFailedAfterCommit);
      }
      r := Got(item);
    }
  }

  lemma {:induction false} TextsSnoc(text: ChatChunk -> string, chunks: seq<ChatChunk>, c: ChatChunk)
    ensures Texts(text, chunks + [c]) == Texts(text, chunks) + [text(c)]
    decreases |chunks|
  {
    if chunks == [] {
      assert chunks + [c] == [c] && [c][1..] == [];
    } else {
      assert (chunks + [c])[1..] == chunks[1..] + [c];
      TextsSnoc(text, chunks[1..], c);
    }
  }

  lemma JoinSnoc(texts: seq<string>, last: string)
    ensures Join(texts + [last]) == Join(texts) + last
  {
    assert (texts + [last])[..|texts|] == texts;
  }

  lemma JoinOne(text: string)
    ensures Join([text]) == text
  {
    JoinSnoc([], text);
    assert [] + [text] == [text] && "" + text == text;
  }

  /** The loop has sent `sent` so far and will go on as the specification does. */
  ghost predicate OnTrack(total: Delivered, sent: seq<Sent>, rest: Delivered) {
    total == Delivered(sent + rest.sent, rest.outcome)
  }

  lemma SentChunksSnoc(sent: seq<Sent>, s: Sent)
    ensures SentChunks(sent + [s]) == SentChunks(sent) + [s.chunk]
  {
  }

  /** One event more: the texts of what has been sent. */
  lemma PublicSnoc(text: ChatChunk -> string, first: ChatChunk, sent: seq<Sent>, s: Sent)
    ensures Texts(text, [first] + SentChunks(sent + [s])) == Texts(text, [first] + SentChunks(sent)) + [text(s.chunk)]
  {
    SentChunksSnoc(sent, s);
    TextsSnoc(text, [first] + SentChunks(sent), s.chunk);
    Associative([first], SentChunks(sent), [s.chunk]);
  }

  /** The fixed circumstances of one delivery: what it will come to, and how chunks and the end are written. */
  datatype Job = Job(oracle: Oracle, idle: nat, first: ChatChunk, total: Delivered, text: ChatChunk -> string, done: string)

  /** The events of the whole delivery. */
  ghost function Published(job: Job): seq<string> {
    Texts(job.text, Public(job.first, job.total)) + (if job.total.outcome == Completed then [job.done] else [])
  }

  /** A loop that stands at `at` and has made `events` public will go on as the specification does. */
  ghost predicate Under(job: Job, at: Cursor, sent: seq<Sent>, events: seq<string>) {
    && OnTrack(job.total, sent, DeliverFrom(job.oracle, job.idle, MetadataOf(job.first), at))
    && events == Texts(job.text, [job.first] + SentChunks(sent))
  }

  lemma Begin(job: Job, includeUsage: bool, items: seq<Item>)
    requires First(job.first, includeUsage).Some?
    requires job.total == Deliver(job.oracle, job.idle, includeUsage, job.first, items)
    ensures Under(job, Cursor(First(job.first, includeUsage).value, SaturatingAdd(job.oracle.clock(0), job.idle), items, 1, 0),
                  [], [job.text(job.first)])
  {
    assert SentChunks([]) == [] && [job.first] + [] == [job.first] && [job.first][1..] == [];
    assert [] + job.total.sent == job.total.sent;
  }

  /** The turn goes on with this chunk. */
  lemma TurnSends(job: Job, at: Cursor, sent: seq<Sent>, events: seq<string>)
    requires Under(job, at, sent, events)
    requires TakeTurn(job.oracle, job.idle, MetadataOf(job.first), at).Send?
    ensures var turn := TakeTurn(job.oracle, job.idle, MetadataOf(job.first), at);
            Under(job, turn.next, sent + [turn.sent], events + [job.text(turn.sent.chunk)])
  {
    var turn := TakeTurn(job.oracle, job.idle, MetadataOf(job.first), at);
    var rest := DeliverFrom(job.oracle, job.idle, MetadataOf(job.first), turn.next);
    assert DeliverFrom(job.oracle, job.idle, MetadataOf(job.first), at) == Delivered([turn.sent] + rest.sent, rest.outcome);
    Associative(sent, [turn.sent], rest.sent);
    PublicSnoc(job.text, job.first, sent, turn.sent);
  }

  /** The turn ends the loop: everything has been written, `[DONE]` aside. */
  lemma TurnHalts(job: Job, at: Cursor, sent: seq<Sent>, events: seq<string>)
    requires Under(job, at, sent, events)
    requires TakeTurn(job.oracle, job.idle, MetadataOf(job.first), at).Halt?
    ensures job.total.outcome == TakeTurn(job.oracle, job.idle, MetadataOf(job.first), at).outcome
    ensures Published(job) == if job.total.outcome == Completed then events + [job.done] else events
  {
    assert sent + [] == sent && events + [] == events;
  }

  /** The part of a turn before anything is written: read, check, accept. */
  method Advance(dispatch: StreamRouteDispatch, expected: StreamMetadata, state: GateState, idleDeadline: nat, ghost at: Cursor)
    returns (halted: Option<Outcome>, chunk: ChatChunk, next: GateState)
    requires at == dispatch.At(state, idleDeadline)
    requires !dispatch.cancelRequested
    modifies dispatch`stream, dispatch`clockReads, dispatch`cancelReads
    ensures var turn := TakeTurn(dispatch.oracle, dispatch.idleTimeout, expected, at);
            match halted
            case Some(outcome) => turn == Halt(outcome)
            case None =>
              && turn.Send? && turn.sent.chunk == chunk && turn.next.gate == next
              && turn.next.items == dispatch.stream && turn.next.c == dispatch.cancelReads
              && dispatch.clockReads == at.t + 2
  {
    chunk, next := dispatch.firstChunk, state;
    var reading := dispatch.Read(idleDeadline);
    if reading.Stop? {
      return Some(reading.outcome), chunk, next;
    }
    if reading.item.None? {
      return Some(if state.terminal then Completed else UpstreamFailedAfterCommit), chunk, next;
    }
    if reading.item.value.Err? || Accept(state, reading.item.value.value, expected).None? {
      return Some(UpstreamFailedAfterCommit), chunk, next;
    }
    halted, chunk := None, reading.item.value.value;
    next := Accept(state, chunk, expected).value;
  }

  /** A turn up to the write: the event to write, and where the loop stands once the deadline is renewed. */
  method Prepare(dispatch: StreamRouteDispatch, state: GateState, idleDeadline: nat,
                 ghost job: Job, ghost at: Cursor, ghost sent: seq<Sent>, ghost events: seq<string>)
    returns (halted: Option<Outcome>, text: string, ordinary: bool, next: GateState, ghost on: Cursor, ghost done: seq<Sent>,
             ghost more: seq<string>)
    requires Serves(dispatch, job) && at == dispatch.At(state, idleDeadline)
    requires Under(job, at, sent, events)
    modifies dispatch`stream, dispatch`clockReads, dispatch`cancelReads
    ensures halted.Some? ==> halted.value == job.total.outcome
    ensures halted.Some? ==>
              Published(job) == if job.total.outcome == Completed then events + [job.done] else events
    ensures halted.None? ==> Under(job, on, done, more) && |on.items| < |at.items|
    ensures halted.None? ==> more == events + [text] && Join(more) == Join(events) + text
    ensures halted.None? ==> on == Cursor(next, Renewed(dispatch, ordinary, idleDeadline), dispatch.stream,
                                          dispatch.clockReads + (if ordinary then 1 else 0), dispatch.cancelReads)
  {
    text, ordinary, on, done, more := "", false, at, sent, events;
    var chunk;
    halted, chunk, next := Advance(dispatch, MetadataOf(dispatch.firstChunk), state, idleDeadline, at);
    if halted.Some? {
      TurnHalts(job, at, sent, events);
      return;
    }
    text := EventOf(chunk, job);
    ordinary := chunk.choices != [];
    TurnSends(job, at, sent, events);
    ghost var turn := TakeTurn(job.oracle, job.idle, MetadataOf(job.first), at);
    on, done, more := turn.next, sent + [turn.sent], events + [text];
    JoinSnoc(events, text);
  }

  ghost predicate Serves(dispatch: StreamRouteDispatch, job: Job)
    reads dispatch
  {
    && job.oracle == dispatch.oracle && job.idle == dispatch.idleTimeout && job.first == dispatch.firstChunk
    && !dispatch.cancelRequested
    && Genuine(job)
  }

  /** Its texts are those that the serializer prints. */
  ghost predicate Genuine(job: Job) {
    job.done == DONE_TEXT && forall c {:trigger ChunkText(c)} :: job.text(c) == ChunkText(c)
  }

  method EventOf(chunk: ChatChunk, ghost job: Job) returns (text: string)
    requires Genuine(job)
    ensures text == job.text(chunk)
  {
    text := SerializeSseChunk(chunk);
  }

  /** `[DONE]` after everything else. */
  method CloseBody(body: string, ghost events: seq<string>, ghost job: Job) returns (closed: string)
    requires Genuine(job) && body == Join(events)
    ensures closed == Join(events + [job.done])
  {
    JoinSnoc(events, DONE_TEXT);
    closed := body + DONE_TEXT;
  }

  /** The job of this dispatch. */
  ghost function JobOf(dispatch: StreamRouteDispatch): Job
    requires First(dispatch.firstChunk, dispatch.includeUsage).Some?
    reads dispatch
  {
    Job(dispatch.oracle, dispatch.idleTimeout, dispatch.firstChunk, dispatch.Ahead(), ChunkText, DONE_TEXT)
  }

  /** Only an ordinary chunk renews the idle deadline. */
  function Renewed(dispatch: StreamRouteDispatch, ordinary: bool, idleDeadline: nat): nat
    reads dispatch
  {
    if ordinary then SaturatingAdd(dispatch.oracle.clock(dispatch.clockReads), dispatch.idleTimeout) else idleDeadline
  }

  method Renew(dispatch: StreamRouteDispatch, ordinary: bool, idleDeadline: nat) returns (deadline: nat)
    modifies dispatch`clockReads
    ensures deadline == old(Renewed(dispatch, ordinary, idleDeadline))
    ensures dispatch.clockReads == old(dispatch.clockReads) + if ordinary then 1 else 0
  {
    deadline := idleDeadline;
    if ordinary {
      var now := dispatch.Now();
      deadline := SaturatingAdd(now, dispatch.idleTimeout);
    }
  }

  /** The first event and the deadline that its commitment starts. */
  method Commit(dispatch: StreamRouteDispatch, ghost job: Job) returns (text: string, state: GateState)
    requires dispatch.clockReads == 0 && dispatch.cancelReads == 0
    requires First(dispatch.firstChunk, dispatch.includeUsage).Some?
    requires Serves(dispatch, job) && job.total == dispatch.Ahead()
    ensures Under(job, Cursor(state, Renewed(dispatch, true, 0), dispatch.stream, 1, 0), [], [text])
  {
    Begin(job, dispatch.includeUsage, dispatch.stream);
    state := First(dispatch.firstChunk, dispatch.includeUsage).value;
    text := EventOf(dispatch.firstChunk, job);
  }

  /** `sse_response`: the whole body at once. */
  method SseResponse(dispatch: StreamRouteDispatch) returns (body: string, outcome: Outcome)
    requires dispatch.clockReads == 0 && dispatch.cancelReads == 0 && !dispatch.cancelRequested
    modifies dispatch
    ensures First(dispatch.firstChunk, dispatch.includeUsage).None? ==> body == "" && outcome == UpstreamFailedAfterCommit
    ensures First(dispatch.firstChunk, dispatch.includeUsage).Some? ==>
              body == Join(Events(dispatch.firstChunk, old(dispatch.Ahead()))) && outcome == old(dispatch.Ahead()).outcome
  {
    if First(dispatch.firstChunk, dispatch.includeUsage).None? {
      return "", UpstreamFailedAfterCommit;
    }
    body, outcome := BuildBody(dispatch, JobOf(dispatch));
  }

  /** Its loop. */
  method BuildBody(dispatch: StreamRouteDispatch, ghost job: Job) returns (body: string, outcome: Outcome)
    requires dispatch.clockReads == 0 && dispatch.cancelReads == 0
    requires First(dispatch.firstChunk, dispatch.includeUsage).Some?
    requires Serves(dispatch, job) && job.total == dispatch.Ahead()
    modifies dispatch
    ensures body == Join(Published(job)) && outcome == job.total.outcome
  {
    var start, state := Commit(dispatch, job);
    var idleDeadline := Renew(dispatch, true, 0);
    JoinOne(start);
    body, outcome := BuildRest(dispatch, start, state, idleDeadline, job, dispatch.At(state, idleDeadline), [], [start]);
  }

  /** The body from here on. */
  method BuildRest(dispatch: StreamRouteDispatch, start: string, first: GateState, firstDeadline: nat,
                   ghost job: Job, ghost from: Cursor, ghost before: seq<Sent>, ghost already: seq<string>)
    returns (body: string, outcome: Outcome)
    requires Serves(dispatch, job) && from == dispatch.At(first, firstDeadline)
    requires Under(job, from, before, already) && start == Join(already)
    modifies dispatch`stream, dispatch`clockReads, dispatch`cancelReads
    ensures body == Join(Published(job)) && outcome == job.total.outcome
  {
    body := start;
    var state, idleDeadline := first, firstDeadline;
    ghost var at, sent, events := from, before, already;
    while true
      invariant Serves(dispatch, job) && at == dispatch.At(state, idleDeadline)
      invariant Under(job, at, sent, events) && body == Join(events)
      decreases |at.items|
    {
      var halted, text, ordinary, next, on, done, more := Prepare(dispatch, state, idleDeadline, job, at, sent, events);
      if halted.Some? {
        outcome := halted.value;
        break;
      }
      body := body + text;
      idleDeadline := Renew(dispatch, ordinary, idleDeadline);
      state, at, sent, events := next, on, done, more;
    }
    if outcome == Completed {
      body := CloseBody(body, events, job);
    }
  }

  /** A connection: which of its writes succeed, and the events written in full. */
  class Socket {
    const writable: nat -> bool
    var written: seq<string>

    constructor (writable: nat -> bool)
      ensures this.writable == writable && written == []
    {
      this.writable, written := writable, [];
    }

    method WriteAll(text: string) returns (ok: bool)
      modifies this
      ensures ok == writable(|old(written)|)
      ensures written == if ok then old(written) + [text] else old(written)
    {
      ok := writable(|written|);
      if ok {
        written := written + [text];
      }
    }
  }

  /** What a connection shows after writing `events` until the first failure. */
  ghost predicate Wrote(writable: nat -> bool, events: seq<string>, written: seq<string>) {
    && |written| <= |events| && written == events[..|written|]
    && (forall i :: 0 <= i < |written| ==> writable(i))
    && (|written| < |events| ==> !writable(|written|))
  }

  ghost predicate WroteAll(writable: nat -> bool, events: seq<string>) {
    forall i :: 0 <= i < |events| ==> writable(i)
  }

  /** What a delivery of `events` that ends with `ending` promises a connection. */
  ghost predicate Served(writable: nat -> bool, events: seq<string>, ending: Outcome, written: seq<string>, outcome: Outcome,
                         cancelled: bool) {
    && Wrote(writable, events, written)
    && outcome == (if |written| < |events| then ClientDisconnected else ending)
    && cancelled == (|written| < |events|)
  }

  /** The write that fails is the first one that does. */
  lemma WriteFailed(writable: nat -> bool, job: Job, at: Cursor, sent: seq<Sent>, events: seq<string>, written: seq<string>)
    requires Under(job, at, sent, events) && |events| > 0
    requires written == events[..|events| - 1] && WroteAll(writable, written) && !writable(|written|)
    ensures Served(writable, Published(job), job.total.outcome, written, ClientDisconnected, true)
  {
    EventsExtend(job, at, sent, events);
  }

  /** What is public already is what comes first. */
  lemma EventsExtend(job: Job, at: Cursor, sent: seq<Sent>, events: seq<string>)
    requires Under(job, at, sent, events)
    ensures |events| <= |Published(job)| && Published(job)[..|events|] == events
  {
    PublicExtends(job.text, job.first, sent, DeliverFrom(job.oracle, job.idle, MetadataOf(job.first), at).sent);
  }

  lemma SentChunksConcat(a: seq<Sent>, b: seq<Sent>)
    ensures SentChunks(a + b) == SentChunks(a) + SentChunks(b)
  {
  }

  lemma PublicExtends(text: ChatChunk -> string, first: ChatChunk, sent: seq<Sent>, more: seq<Sent>)
    ensures Texts(text, [first] + SentChunks(sent + more)) == Texts(text, [first] + SentChunks(sent)) + Texts(text, SentChunks(more))
  {
    TextsConcat(text, [first] + SentChunks(sent), SentChunks(more));
    SentChunksConcat(sent, more);
    Associative([first], SentChunks(sent), SentChunks(more));
  }

  lemma {:induction false} TextsConcat(text: ChatChunk -> string, a: seq<ChatChunk>, b: seq<ChatChunk>)
    ensures Texts(text, a + b) == Texts(text, a) + Texts(text, b)
    decreases |a|
  {
    if a == [] {
      assert a + b == b;
    } else {
      assert (a + b)[1..] == a[1..] + b;
      TextsConcat(text, a[1..], b);
    }
  }

  lemma FinalWrite(writable: nat -> bool, job: Job, events: seq<string>, written: seq<string>, done: bool)
    requires job.total.outcome == Completed && Published(job) == events + [job.done]
    requires WroteAll(writable, events) && done == writable(|events|)
    requires written == if done then events + [job.done] else events
    ensures Served(writable, Published(job), job.total.outcome, written, if done then Completed else ClientDisconnected, !done)
  {
  }

  lemma HaltWithout(writable: nat -> bool, job: Job, events: seq<string>)
    requires job.total.outcome != Completed && Published(job) == events && WroteAll(writable, events)
    ensures Served(writable, Published(job), job.total.outcome, events, job.total.outcome, false)
  {
  }

  /** Everything so far went out. */
  ghost predicate Intact(stream: Socket, dispatch: StreamRouteDispatch, events: seq<string>)
    reads stream, dispatch
  {
    stream.written == events && WroteAll(stream.writable, events) && !dispatch.cancelRequested
  }

  /** A write, and the cancellation that answers its failure. */
  method Emit(stream: Socket, dispatch: StreamRouteDispatch, text: string, ghost job: Job, ghost at: Cursor,
              ghost sent: seq<Sent>, ghost events: seq<string>) returns (ok: bool)
    requires Intact(stream, dispatch, events) && Under(job, at, sent, events + [text])
    modifies stream, dispatch`cancelRequested
    ensures ok ==> Intact(stream, dispatch, events + [text])
    ensures !ok ==> Served(stream.writable, Published(job), job.total.outcome, stream.written, ClientDisconnected, dispatch.cancelRequested)
  {
    ok := stream.WriteAll(text);
    if !ok {
      dispatch.cancelRequested := true;
      WriteFailed(stream.writable, job, at, sent, events + [text], stream.written);
    }
  }

  method EmitDone(stream: Socket, dispatch: StreamRouteDispatch, ghost job: Job, ghost events: seq<string>) returns (outcome: Outcome)
    requires Intact(stream, dispatch, events)
    requires job.total.outcome == Completed && Published(job) == events + [job.done] && job.done == DONE_TEXT
    modifies stream, dispatch`cancelRequested
    ensures Served(stream.writable, Published(job), job.total.outcome, stream.written, outcome, dispatch.cancelRequested)
  {
    var ok := stream.WriteAll(DONE_TEXT);
    FinalWrite(stream.writable, job, events, stream.written, ok);
    if ok {
      outcome := Completed;
    } else {
      dispatch.cancelRequested := true;
      outcome := ClientDisconnected;
    }
  }

  /** `write_sse_stream`: one event at a time; a failed write cancels the rest. */
  method WriteSseStream(stream: Socket, dispatch: StreamRouteDispatch) returns (outcome: Outcome)
    requires dispatch.clockReads == 0 && dispatch.cancelReads == 0 && !dispatch.cancelRequested
    requires stream.written == []
    modifies stream, dispatch
    ensures First(dispatch.firstChunk, dispatch.includeUsage).None? ==>
              stream.written == [] && outcome == UpstreamFailedAfterCommit
    ensures First(dispatch.firstChunk, dispatch.includeUsage).Some? ==>
              Served(stream.writable, Events(dispatch.firstChunk, old(dispatch.Ahead())), old(dispatch.Ahead()).outcome,
                     stream.written, outcome, dispatch.cancelRequested)
  {
    if First(dispatch.firstChunk, dispatch.includeUsage).None? {
      return UpstreamFailedAfterCommit;
    }
    outcome := WriteEvents(stream, dispatch, JobOf(dispatch));
  }

  /** Its loop. */
  method WriteEvents(stream: Socket, dispatch: StreamRouteDispatch, ghost job: Job) returns (outcome: Outcome)
    requires dispatch.clockReads == 0 && dispatch.cancelReads == 0 && stream.written == []
    requires First(dispatch.firstChunk, dispatch.includeUsage).Some?
    requires Serves(dispatch, job) && job.total == dispatch.Ahead()
    modifies stream, dispatch
    ensures Served(stream.writable, Published(job), job.total.outcome, stream.written, outcome, dispatch.cancelRequested)
  {
    var text, state := Commit(dispatch, job);
    ghost var at, sent, events := Cursor(state, Renewed(dispatch, true, 0), dispatch.stream, 1, 0), [], [];
    assert events + [text] == [text];
    var ok := Emit(stream, dispatch, text, job, at, sent, events);
    if !ok {
      return ClientDisconnected;
    }
    events := events + [text];
    var idleDeadline := Renew(dispatch, true, 0);
    while true
      invariant Serves(dispatch, job) && at == dispatch.At(state, idleDeadline)
      invariant Under(job, at, sent, events) && Intact(stream, dispatch, events)
      decreases |dispatch.stream|
    {
      var halted, ordinary, next;
      ghost var on, done, more;
      halted, text, ordinary, next, on, done, more := Prepare(dispatch, state, idleDeadline, job, at, sent, events);
      if halted.Some? {
        outcome := halted.value;
        break;
      }
      ok := Emit(stream, dispatch, text, job, on, done, events);
      if !ok {
        return ClientDisconnected;
      }
      idleDeadline := Renew(dispatch, ordinary, idleDeadline);
      state, at, sent, events := next, on, done, more;
    }
    if outcome == Completed {
      outcome := EmitDone(stream, dispatch, job, events);
    } else {
      HaltWithout(stream.writable, job, events);
    }
  }

  lemma {:induction false} JoinConcat(a: seq<string>, b: seq<string>)
    ensures Join(a + b) == Join(a) + Join(b)
    decreases |b|
  {
    if b == [] {
      assert a + b == a;
    } else {
      var init, last := b[..|b| - 1], b[|b| - 1];
      assert (a + b)[..|a + b| - 1] == a + init;
      JoinConcat(a, init);
      Associative(Join(a), Join(init), last);
    }
  }

  /** What a connection has received in full is a prefix of the body that `sse_response` would
      have built from the same readings; it is that body, with the same outcome, if no write fails. */
  lemma IncrementalRefinesMaterialised(writable: nat -> bool, first: ChatChunk, total: Delivered, written: seq<string>,
                                       outcome: Outcome, cancelled: bool)
    requires Served(writable, Events(first, total), total.outcome, written, outcome, cancelled)
    ensures Join(written) <= Join(Events(first, total))
    ensures WroteAll(writable, Events(first, total)) ==>
              Join(written) == Join(Events(first, total)) && outcome == total.outcome && !cancelled
    ensures !WroteAll(writable, Events(first, total)) ==> outcome == ClientDisconnected && cancelled
  {
    var events := Events(first, total);
    JoinConcat(written, events[|written|..]);
    assert events == written + events[|written|..];
  }
}
