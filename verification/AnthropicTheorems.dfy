/** Whole-run properties of the Anthropic decoder: the gate lets its output through,
    every completed call carries one JSON object, and only streams with the
    documented lifecycle end without an error. */
module AnthropicTheorems {
  import opened Wrappers
  import opened Json
  import opened Utf8
  import opened Response
  import opened Assembler
  import opened Gate
  import opened Sse
  import opened Access
  import opened Adapters
  import opened Anthropic

  type Reachable = d: AnthropicState | Coupled(d) witness Start(0)

  function ReachableLine(ss: Session, d: Reachable, raw: seq<byte>): Step<Reachable> {
    LineCoupled(ss, d, raw);
    match Line(ss, d, raw)
    case Fail(k) => Fail(k)
    case Next(d', out) => Next(d', out)
  }

  function ReachableEnd(d: Reachable): Step<Reachable> {
    match End(d)
    case Fail(k) => Fail(k)
    case Next(d', out) => Next(d', out)
  }

  function AnthropicDecoder(ss: Session): Decoder<Reachable> {
    Decoder((d: Reachable, raw: seq<byte>) => ReachableLine(ss, d, raw), (d: Reachable) => ReachableEnd(d))
  }

  // ------------------------------------------------------------ the gate

  lemma PushDeltaEmits(ss: Session, d: AnthropicState, delta: AssistantDelta, terminal: Option<NativeTerminal>)
    ensures var step := PushDelta(ss, d, delta, terminal);
            step.Next? ==> Emits(ss, d.asm, step.out, step.state.asm)
  {
    if Push(ss, d.asm, 0, delta, terminal).Ok? {
      EmitsOne(ss, d.asm, PushOp(0, delta, terminal));
    }
  }

  lemma BlockStartEmits(ss: Session, d: AnthropicState, value: seq<Member>)
    ensures var step := BlockStart(ss, d, value);
            step.Next? ==> Emits(ss, d.asm, step.out, step.state.asm)
  {
    forall d2: AnthropicState, delta | d2.asm == d.asm
      ensures var step := PushDelta(ss, d2, delta, None);
              step.Next? ==> Emits(ss, d.asm, step.out, step.state.asm)
    {
      PushDeltaEmits(ss, d2, delta, None);
    }
  }

  lemma BlockDeltaEmits(ss: Session, d: AnthropicState, value: seq<Member>)
    requires Coupled(d)
    ensures var step := BlockDelta(ss, d, value);
            step.Next? ==> Emits(ss, d.asm, step.out, step.state.asm)
  {
    forall d2: AnthropicState, delta | d2.asm == d.asm
      ensures var step := PushDelta(ss, d2, delta, None);
              step.Next? ==> Emits(ss, d.asm, step.out, step.state.asm)
    {
      PushDeltaEmits(ss, d2, delta, None);
    }
  }

  lemma MessageDeltaEmits(ss: Session, d: AnthropicState, value: seq<Member>)
    ensures var step := MessageDelta(ss, d, value);
            step.Next? ==> Emits(ss, d.asm, step.out, step.state.asm)
  {
    forall d2: AnthropicState, terminal | d2.asm == d.asm
      ensures var step := PushDelta(ss, d2, EMPTY_DELTA, terminal);
              step.Next? ==> Emits(ss, d.asm, step.out, step.state.asm)
    {
      PushDeltaEmits(ss, d2, EMPTY_DELTA, terminal);
    }
  }

  lemma MessageStopEmits(ss: Session, d: AnthropicState)
    ensures var step := MessageStop(ss, d);
            step.Next? ==> Emits(ss, d.asm, step.out, step.state.asm)
  {
    EmitsNothing(ss, d.asm);
    forall usage | PushUsage(ss, d.asm, usage).Ok?
      ensures var p := PushUsage(ss, d.asm, usage).value; Emits(ss, d.asm, ChunkList(p.chunk), p.state)
    {
      EmitsOne(ss, d.asm, UsageOp(usage));
    }
  }

  lemma HandleEmits(ss: Session, d: AnthropicState, event: string, value: seq<Member>)
    requires Coupled(d)
    ensures var step := Handle(ss, d, event, value);
            step.Next? ==> Emits(ss, d.asm, step.out, step.state.asm)
  {
    EmitsNothing(ss, d.asm);
    BlockStartEmits(ss, d, value);
    BlockDeltaEmits(ss, d, value);
    MessageDeltaEmits(ss, d, value);
    MessageStopEmits(ss, d);
  }

  lemma LineEmits(ss: Session, d: AnthropicState, raw: seq<byte>)
    requires Coupled(d)
    ensures var step := Line(ss, d, raw);
            step.Next? ==> Emits(ss, d.asm, step.out, step.state.asm)
  {
    EmitsNothing(ss, d.asm);
    if StripCr(raw) == [] && d.data != [] && d.event.Some? && DecodePayload(d.data).Some? {
      HandleEmits(ss, d.(data := [], event := None), d.event.value, DecodePayload(d.data).value);
    }
  }

  lemma AnthropicConforms(ss: Session)
    ensures Conforms(ss, AnthropicDecoder(ss), (d: Reachable) => d.asm)
  {
    var decoder := AnthropicDecoder(ss);
    var asm := (d: Reachable) => d.asm;
    forall d: Reachable, raw: seq<byte> ensures LineConforms(ss, decoder, asm, d, raw) {
      LineEmits(ss, d, raw);
    }
    forall d: Reachable ensures EndConforms(ss, decoder, asm, d) {
      EmitsNothing(ss, d.asm);
    }
  }

  lemma AnthropicPassesGate(ss: Session, cursor: nat, source: seq<Fragment>)
    ensures var items := Feed(AnthropicDecoder(ss), Start(cursor), [], source);
            var end := Pass(Closed(ss.request.includeUsage), Chunks(items));
            end.Some? && (NoError(items) ==> end.value.Open? && end.value.gate.terminal)
  {
    AnthropicConforms(ss);
    FeedPassesGate(ss, AnthropicDecoder(ss), (d: Reachable) => d.asm, Start(cursor), [], source);
  }

  // ------------------------------------------------------------ completed calls

  /** Once the terminal chunk is out, every call's arguments are exactly one JSON object. */
  lemma TerminalCallsAreObjects(d: Reachable, c: nat)
    requires d.asm.terminal && c < |d.asm.calls|
    ensures IsObjectText(d.asm.calls[c].arguments)
  {
    assert !HasBlock(d.blocks, c);
  }

  // ------------------------------------------------------------ lifecycle

  datatype Event =
    | MessageStarted | BlockStarted(index: nat) | BlockChanged(index: nat) | BlockStopped(index: nat)
    | MessageChanged | MessageStopped | Other

  function Indexed(value: seq<Member>, e: nat -> Event): Event {
    match RequiredUnsigned(value, "index")
    case None => Other
    case Some(index) => e(index)
  }

  /** What a dispatched event is, from its name and payload alone. */
  function EventOf(name: string, value: seq<Member>): Event {
    if name == "message_start" then MessageStarted
    else if name == "content_block_start" then Indexed(value, (i: nat) => BlockStarted(i))
    else if name == "content_block_delta" then Indexed(value, (i: nat) => BlockChanged(i))
    else if name == "content_block_stop" then Indexed(value, (i: nat) => BlockStopped(i))
    else if name == "message_delta" then MessageChanged
    else if name == "message_stop" then MessageStopped
    else Other
  }

  function Dispatched(data: seq<byte>, event: Option<string>): seq<Event> {
    if data == [] then []
    else
      match (event, DecodePayload(data))
      case (Some(name), Some(value)) => [EventOf(name, value)]
      case _ => [Other]
  }

  /** The fields gathered after one accepted line, by the SSE rules alone. */
  function AfterLine(data: seq<byte>, event: Option<string>, line: seq<byte>): (seq<byte>, Option<string>) {
    if line == [] then ([], None)
    else if line[0] == COLON then (data, event)
    else
      match FieldValue(line, EVENT_FIELD)
      case Some(name) => (data, FromBytes(name))
      case None =>
        match FieldValue(line, DATA_FIELD)
        case None => (data, event)
        case Some(value) =>
          match AppendData(data, value)
          case None => (data, event)
          case Some(data') => (data', event)
  }

  /** The events a byte stream dispatches, by the SSE rules alone; `data` and `event`
      are the fields gathered so far. */
  function Trace(data: seq<byte>, event: Option<string>, b: seq<byte>): seq<Event>
    decreases |b|
  {
    var n := FirstLf(b);
    if n == |b| then []
    else
      var line := StripCr(b[..n]);
      var (data', event') := AfterLine(data, event, line);
      (if line == [] then Dispatched(data, event) else []) + Trace(data', event', b[n + 1..])
  }

  function Starts(events: seq<Event>): nat {
    if events == [] then 0
    else Starts(events[..|events| - 1]) + (if events[|events| - 1].BlockStarted? then 1 else 0)
  }

  predicate IsOpen(events: seq<Event>, i: nat) {
    BlockStarted(i) in events && BlockStopped(i) !in events
  }

  /** A block event in its place: indices are opened consecutively, and touched only while open. */
  predicate Legal(before: seq<Event>, e: Event) {
    match e
    case BlockStarted(i) => i == Starts(before)
    case BlockChanged(i) => IsOpen(before, i)
    case BlockStopped(i) => IsOpen(before, i)
    case _ => false
  }

  ghost predicate BlockEvents(events: seq<Event>) {
    forall k :: 0 <= k < |events| ==> Legal(events[..k], events[k])
  }

  ghost predicate AllClosed(events: seq<Event>) {
    forall i: nat :: !IsOpen(events, i)
  }

  /** One message_start; blocks, each opened in turn, stopped once, and changed only
      while open; one message_delta with no block open; one message_stop; nothing else. */
  ghost predicate Lifecycle(events: seq<Event>) {
    exists blocks :: BlockEvents(blocks) && AllClosed(blocks)
      && events == [MessageStarted] + blocks + [MessageChanged, MessageStopped]
  }

  /** The open blocks and the next index are what the block events say. */
  ghost predicate BlocksTrack(open: set<nat>, next: nat, blocks: seq<Event>) {
    && BlockEvents(blocks) && next == Starts(blocks)
    && (forall i: nat :: BlockStarted(i) in blocks || BlockStopped(i) in blocks ==> i < next)
    && (forall i: nat :: i in open <==> IsOpen(blocks, i))
  }

  function Marked(flag: bool, e: Event): seq<Event> {
    if flag then [e] else []
  }

  /** How far a reachable state is into the lifecycle, given the blocks so far. */
  ghost predicate Tracks(d: AnthropicState, events: seq<Event>, blocks: seq<Event>) {
    && BlocksTrack(d.blocks.Keys, d.nextBlock, blocks)
    && events == Marked(d.started, MessageStarted) + blocks + Marked(d.sawMessageDelta, MessageChanged)
                 + Marked(d.sawMessageStop, MessageStopped)
    && (!d.started ==> blocks == [])
  }

  lemma {:induction false} StartsSnoc(events: seq<Event>, e: Event)
    ensures Starts(events + [e]) == Starts(events) + (if e.BlockStarted? then 1 else 0)
  {
    assert (events + [e])[..|events|] == events;
  }

  lemma BlockEventsSnoc(events: seq<Event>, e: Event)
    requires BlockEvents(events) && Legal(events, e)
    ensures BlockEvents(events + [e])
  {
    var all := events + [e];
    forall k | 0 <= k < |all| ensures Legal(all[..k], all[k]) {
      if k < |events| {
        assert all[..k] == events[..k];
      } else {
        assert all[..k] == events;
      }
    }
  }

  /** What one block event does to the set of open blocks. */
  lemma OpenSnoc(events: seq<Event>, e: Event, i: nat)
    ensures IsOpen(events + [e], i)
         == ((BlockStarted(i) in events || e == BlockStarted(i)) && BlockStopped(i) !in events && e != BlockStopped(i))
  {
  }

  /** The open set and next index after a block event. */
  function AfterOpen(open: set<nat>, e: Event): set<nat> {
    match e
    case BlockStarted(i) => open + {i}
    case BlockStopped(i) => open - {i}
    case _ => open
  }

  function AfterNext(next: nat, e: Event): nat {
    if e.BlockStarted? then next + 1 else next
  }

  lemma BlocksTrackSnoc(open: set<nat>, next: nat, blocks: seq<Event>, e: Event)
    requires BlocksTrack(open, next, blocks)
    requires (e.BlockStarted? && e.index == next) || ((e.BlockChanged? || e.BlockStopped?) && e.index in open)
    ensures BlocksTrack(AfterOpen(open, e), AfterNext(next, e), blocks + [e])
  {
    assert Legal(blocks, e);
    BlockEventsSnoc(blocks, e);
    StartsSnoc(blocks, e);
    forall i: nat ensures i in AfterOpen(open, e) <==> IsOpen(blocks + [e], i) {
      OpenSnoc(blocks, e, i);
      assert i in open <==> IsOpen(blocks, i);
    }
    forall i: nat | BlockStarted(i) in blocks + [e] || BlockStopped(i) in blocks + [e] ensures i < AfterNext(next, e) {
      assert BlockStarted(i) in blocks || BlockStopped(i) in blocks || e == BlockStarted(i) || e == BlockStopped(i);
    }
  }

  lemma MarkedSnoc(events: seq<Event>, blocks: seq<Event>, e: Event)
    requires events == Marked(true, MessageStarted) + blocks + Marked(false, MessageChanged) + Marked(false, MessageStopped)
    ensures events + [e] == Marked(true, MessageStarted) + (blocks + [e]) + Marked(false, MessageChanged) + Marked(false, MessageStopped)
  {
  }

  lemma BlockTracks(d: AnthropicState, d': AnthropicState, events: seq<Event>, blocks: seq<Event>, e: Event)
    requires Tracks(d, events, blocks) && d.started && !d.sawMessageDelta && !d.sawMessageStop
    requires d'.started && !d'.sawMessageDelta && !d'.sawMessageStop
    requires (e.BlockStarted? && e.index == d.nextBlock) || ((e.BlockChanged? || e.BlockStopped?) && e.index in d.blocks)
    requires d'.blocks.Keys == AfterOpen(d.blocks.Keys, e) && d'.nextBlock == AfterNext(d.nextBlock, e)
    ensures Tracks(d', events + [e], blocks + [e])
  {
    BlocksTrackSnoc(d.blocks.Keys, d.nextBlock, blocks, e);
    MarkedSnoc(events, blocks, e);
  }

  lemma PushDeltaKeeps(ss: Session, d: AnthropicState, delta: AssistantDelta, terminal: Option<NativeTerminal>)
    requires PushDelta(ss, d, delta, terminal).Next?
    ensures var d' := PushDelta(ss, d, delta, terminal).state; d' == d.(asm := d'.asm)
  {
  }

  /** What an accepted block event does to the open blocks. */
  lemma BlockEventEffect(ss: Session, d: AnthropicState, name: string, value: seq<Member>)
    requires Coupled(d) && Handle(ss, d, name, value).Next?
    requires name == "content_block_start" || name == "content_block_delta" || name == "content_block_stop"
    ensures var d', e := Handle(ss, d, name, value).state, EventOf(name, value);
            && d.started && !d.sawMessageDelta && !d.sawMessageStop
            && d'.started && !d'.sawMessageDelta && !d'.sawMessageStop
            && ((e.BlockStarted? && e.index == d.nextBlock) || ((e.BlockChanged? || e.BlockStopped?) && e.index in d.blocks))
            && d'.blocks.Keys == AfterOpen(d.blocks.Keys, e) && d'.nextBlock == AfterNext(d.nextBlock, e)
  {
    var d', e := Handle(ss, d, name, value).state, EventOf(name, value);
    if name == "content_block_delta" {
      assert d'.blocks.Keys == d.blocks.Keys;
    }
  }

  /** What an accepted message event does to the flags. */
  lemma MessageEventEffect(ss: Session, d: AnthropicState, name: string, value: seq<Member>)
    requires Coupled(d) && Handle(ss, d, name, value).Next?
    requires name != "content_block_start" && name != "content_block_delta" && name != "content_block_stop"
    ensures var d' := Handle(ss, d, name, value).state;
            && d'.blocks == d.blocks && d'.nextBlock == d.nextBlock
            && match EventOf(name, value)
               case MessageStarted => !d.started && d' == d.(started := true, inputTokens := d'.inputTokens)
               case MessageChanged => d.started && !d.sawMessageDelta && d'.started && d'.sawMessageDelta && d'.sawMessageStop == d.sawMessageStop
               case MessageStopped => d.sawMessageDelta && !d.sawMessageStop && d'.started == d.started && d'.sawMessageDelta && d'.sawMessageStop
               case _ => false
  {
  }

  /** Every handled event advances the lifecycle by itself. */
  lemma HandleTracks(ss: Session, d: AnthropicState, name: string, value: seq<Member>, events: seq<Event>, blocks: seq<Event>)
    returns (blocks': seq<Event>)
    requires Coupled(d) && Tracks(d, events, blocks) && Handle(ss, d, name, value).Next?
    ensures Tracks(Handle(ss, d, name, value).state, events + [EventOf(name, value)], blocks')
  {
    var d' := Handle(ss, d, name, value).state;
    var e := EventOf(name, value);
    if name == "content_block_start" || name == "content_block_delta" || name == "content_block_stop" {
      blocks' := blocks + [e];
      BlockEventEffect(ss, d, name, value);
      BlockTracks(d, d', events, blocks, e);
    } else {
      blocks' := blocks;
      MessageEventEffect(ss, d, name, value);
      MessageTracks(d, d', events, blocks, e);
    }
  }

  lemma MessageTracks(d: AnthropicState, d': AnthropicState, events: seq<Event>, blocks: seq<Event>, e: Event)
    requires FlagsOrdered(d) && Tracks(d, events, blocks) && d'.blocks == d.blocks && d'.nextBlock == d.nextBlock
    requires match e
             case MessageStarted => !d.started && d'.started && d'.sawMessageDelta == d.sawMessageDelta && d'.sawMessageStop == d.sawMessageStop
             case MessageChanged => d.started && !d.sawMessageDelta && d'.started && d'.sawMessageDelta && d'.sawMessageStop == d.sawMessageStop
             case MessageStopped => d.sawMessageDelta && !d.sawMessageStop && d'.started == d.started && d'.sawMessageDelta && d'.sawMessageStop
             case _ => false
    ensures Tracks(d', events + [e], blocks)
  {
    var all := events + [e];
    if e.MessageStarted? {
      assert events == [] && all == [MessageStarted] + blocks + [] + [];
    } else if e.MessageChanged? {
      assert all == [MessageStarted] + blocks + [MessageChanged] + [];
    } else {
      assert all == Marked(d.started, MessageStarted) + blocks + [MessageChanged] + [MessageStopped];
    }
  }

  lemma {:induction false} RunTracks(ss: Session, d: Reachable, b: seq<byte>, events: seq<Event>, blocks: seq<Event>)
    returns (blocks': seq<Event>)
    requires Tracks(d, events, blocks) && ReadLines(AnthropicDecoder(ss), d, b).Alive?
    ensures Tracks(ReadLines(AnthropicDecoder(ss), d, b).state, events + Trace(d.data, d.event, b), blocks')
    decreases |b|
  {
    var n := FirstLf(b);
    if n == |b| {
      blocks' := blocks;
      assert events + [] == events;
    } else {
      var rest := b[n + 1..];
      var d': Reachable := ReachableLine(ss, d, b[..n]).state;
      var events';
      events', blocks' := LineTracks(ss, d, b[..n], events, blocks);
      blocks' := RunTracks(ss, d', rest, events + events', blocks');
      BuffersFollow(ss, d, b[..n]);
      Associative(events, events', Trace(d'.data, d'.event, rest));
    }
  }

  /** The events of one accepted line. */
  function LineEvents(d: AnthropicState, raw: seq<byte>): seq<Event> {
    if StripCr(raw) == [] then Dispatched(d.data, d.event) else []
  }

  lemma LineTracks(ss: Session, d: Reachable, raw: seq<byte>, events: seq<Event>, blocks: seq<Event>)
    returns (events': seq<Event>, blocks': seq<Event>)
    requires Tracks(d, events, blocks) && Line(ss, d, raw).Next?
    ensures events' == LineEvents(d, raw)
    ensures Tracks(Line(ss, d, raw).state, events + events', blocks')
  {
    events' := LineEvents(d, raw);
    if StripCr(raw) == [] && d.data != [] {
      var name, value := d.event.value, DecodePayload(d.data).value;
      blocks' := HandleTracks(ss, d.(data := [], event := None), name, value, events, blocks);
    } else {
      blocks' := blocks;
      assert events + [] == events;
    }
  }

  /** The decoder's own buffers follow those rules as long as it accepts. */
  lemma BuffersFollow(ss: Session, d: Reachable, raw: seq<byte>)
    requires Line(ss, d, raw).Next?
    ensures var d' := Line(ss, d, raw).state; (d'.data, d'.event) == AfterLine(d.data, d.event, StripCr(raw))
  {
    if StripCr(raw) == [] && d.data != [] {
      HandleClearsFields(ss, d.(data := [], event := None), d.event.value, DecodePayload(d.data).value);
    }
  }

  lemma HandleClearsFields(ss: Session, d: AnthropicState, name: string, value: seq<Member>)
    requires Coupled(d) && Handle(ss, d, name, value).Next?
    ensures Handle(ss, d, name, value).state.data == d.data && Handle(ss, d, name, value).state.event == d.event
  {
  }

  /** A stream that ends without an error has dispatched exactly one whole lifecycle. */
  lemma CleanStreamsFollowLifecycle(ss: Session, cursor: nat, source: seq<Fragment>)
    requires NoError(Feed(AnthropicDecoder(ss), Start(cursor), [], source))
    ensures Fits([], source) && Joined(source).ending.Eof?
    ensures Lifecycle(Trace([], None, Joined(source).bytes))
  {
    CleanFeed(AnthropicDecoder(ss), Start(cursor), source);
    CleanBytesFollowLifecycle(ss, cursor, Joined(source).bytes);
  }

  lemma CleanBytesFollowLifecycle(ss: Session, cursor: nat, b: seq<byte>)
    requires var r := ReadLines(AnthropicDecoder(ss), Start(cursor), b); r.Alive? && ReachableEnd(r.state).Next?
    ensures Lifecycle(Trace([], None, b))
  {
    StartTracks(cursor);
    var blocks := RunTracks(ss, Start(cursor), b, [], []);
    LifecycleDone(ReadLines(AnthropicDecoder(ss), Start(cursor), b).state, Trace([], None, b), blocks);
  }

  lemma StartTracks(cursor: nat)
    ensures Tracks(Start(cursor), [], [])
  {
  }

  lemma LifecycleDone(d: AnthropicState, events: seq<Event>, blocks: seq<Event>)
    requires Coupled(d) && d.done && Tracks(d, [] + events, blocks)
    ensures Lifecycle(events)
  {
    assert [] + events == events;
    assert [MessageStarted] + blocks + [MessageChanged] + [MessageStopped]
        == [MessageStarted] + blocks + [MessageChanged, MessageStopped];
    assert AllClosed(blocks);
  }
}
