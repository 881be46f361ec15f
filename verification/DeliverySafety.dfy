/** What a client can rely on whatever the provider does: the language of the gate, and
    the deadlines every public chunk met. */
module DeliverySafety {
  import opened Wrappers
  import opened Response
  import opened Gate
  import opened Sse
  import opened Serialize
  import opened Delivery
  import Adapters

  // ------------------------------------------------- the language of the gate

  predicate EndsTurn(c: ChatChunk) {
    |c.choices| == 1 && c.choices[0].finishReason.Some?
  }

  /** A chunk that carries one choice with something in it. */
  predicate Ordinary(c: ChatChunk) {
    && |c.choices| == 1 && c.usage.None?
    && var choice := c.choices[0];
       && choice.index == 0
       && (choice.delta.role.Some? ==> choice.delta.role.value == "assistant")
       && (choice.delta != EMPTY_DELTA || choice.finishReason.Some?)
  }

  predicate UsageOnly(c: ChatChunk) {
    c.choices == [] && c.usage.Some? && ValidUsage(c.usage.value)
  }

  /** Chunk `i` may stand where it does: the first brings the role, after the one that ends
      the turn comes at most a last usage chunk, and every other is an ordinary one. */
  predicate Placed(includeUsage: bool, chunks: seq<ChatChunk>, i: nat)
    requires i < |chunks|
  {
    && MetadataOf(chunks[i]) == MetadataOf(chunks[0])
    && (i == 0 ==> Ordinary(chunks[0]) && chunks[0].choices[0].delta.role.Some?)
    && (i > 0 && !EndsTurn(chunks[i - 1]) ==> Ordinary(chunks[i]))
    && (i > 0 && EndsTurn(chunks[i - 1]) ==> UsageOnly(chunks[i]) && includeUsage && i == |chunks| - 1)
  }

  ghost predicate Publishable(includeUsage: bool, chunks: seq<ChatChunk>) {
    forall i :: 0 <= i < |chunks| ==> Placed(includeUsage, chunks, i)
  }

  /** The gate after `chunks`, read off the last two. */
  function After(includeUsage: bool, chunks: seq<ChatChunk>): Phase {
    if chunks == [] then Closed(includeUsage)
    else
      var last := chunks[|chunks| - 1];
      Open(MetadataOf(chunks[0]), GateState(EndsTurn(last) || last.choices == [], last.choices == [], includeUsage))
  }

  lemma PassSnoc(p: Phase, chunks: seq<ChatChunk>, c: ChatChunk)
    ensures Pass(p, chunks + [c]) == match Pass(p, chunks) case None => None case Some(p') => PassOne(p', c)
  {
    PassConcat(p, chunks, [c]);
    assert [c][1..] == [];
  }

  lemma OneMore(includeUsage: bool, init: seq<ChatChunk>, c: ChatChunk)
    requires Publishable(includeUsage, init)
    ensures PassOne(After(includeUsage, init), c)
         == if Placed(includeUsage, init + [c], |init|) && (init != [] ==> init[|init| - 1].choices != [])
            then Some(After(includeUsage, init + [c])) else None
  {
    if init != [] {
      assert Placed(includeUsage, init, |init| - 1);
    }
  }

  /** All the places of a longer sequence. */
  lemma PlacesSnoc(includeUsage: bool, init: seq<ChatChunk>, c: ChatChunk)
    ensures Publishable(includeUsage, init + [c])
       <==> && Publishable(includeUsage, init)
            && Placed(includeUsage, init + [c], |init|)
            && (init != [] ==> init[|init| - 1].choices != [])
  {
    var all := init + [c];
    if Publishable(includeUsage, all) {
      assert Placed(includeUsage, all, |init|);
      if init != [] {
        assert Placed(includeUsage, all, |init| - 1);
      }
      forall i | 0 <= i < |init| ensures Placed(includeUsage, init, i) {
        assert Placed(includeUsage, all, i);
      }
    } else if Publishable(includeUsage, init) && (init != [] ==> init[|init| - 1].choices != []) {
      var i :| 0 <= i < |all| && !Placed(includeUsage, all, i);
      assert i < |init| ==> Placed(includeUsage, init, i);
    }
  }

  /** The gate lets a chunk sequence through exactly when it is publishable. */
  lemma {:induction false} GateLanguage(includeUsage: bool, chunks: seq<ChatChunk>)
    ensures Pass(Closed(includeUsage), chunks).Some? <==> Publishable(includeUsage, chunks)
    ensures Publishable(includeUsage, chunks) ==> Pass(Closed(includeUsage), chunks) == Some(After(includeUsage, chunks))
    decreases |chunks|
  {
    if chunks != [] {
      var init, c := chunks[..|chunks| - 1], chunks[|chunks| - 1];
      assert chunks == init + [c];
      GateLanguage(includeUsage, init);
      PassSnoc(Closed(includeUsage), init, c);
      PlacesSnoc(includeUsage, init, c);
      if Publishable(includeUsage, init) {
        OneMore(includeUsage, init, c);
      }
    }
  }

  // ------------------------------------------------------ whole deliveries

  lemma {:induction false} LoopPasses(o: Oracle, idle: nat, expected: StreamMetadata, at: Cursor)
    ensures var d := DeliverFrom(o, idle, expected, at);
            var end := Pass(Open(expected, at.gate), SentChunks(d.sent));
            && end.Some? && end.value.Open?
            && (d.outcome == Completed ==> end.value.gate.terminal && |d.sent| == |at.items|)
    decreases |at.items|
  {
    var turn := TakeTurn(o, idle, expected, at);
    var d := DeliverFrom(o, idle, expected, at);
    if turn.Send? {
      LoopPasses(o, idle, expected, turn.next);
      var rest := DeliverFrom(o, idle, expected, turn.next);
      assert SentChunks(d.sent)[0] == turn.sent.chunk && SentChunks(d.sent)[1..] == SentChunks(rest.sent);
    } else {
      assert d.sent == [];
    }
  }

  /** Whatever the provider yields and whatever the clock and the client do, what becomes public
      is a publishable sequence; `[DONE]` closes it only after the chunk that ends the turn. */
  lemma PublicIsPublishable(o: Oracle, idle: nat, includeUsage: bool, first: ChatChunk, items: seq<Item>)
    requires First(first, includeUsage).Some?
    ensures var d := Deliver(o, idle, includeUsage, first, items);
            && Publishable(includeUsage, Public(first, d))
            && (d.outcome == Completed ==> After(includeUsage, Public(first, d)).gate.terminal)
            && (d.outcome == Completed ==> Public(first, d) == [first] + Adapters.Chunks(items) && Adapters.NoError(items))
  {
    var d := Deliver(o, idle, includeUsage, first, items);
    var at := Cursor(First(first, includeUsage).value, SaturatingAdd(o.clock(0), idle), items, 1, 0);
    LoopPasses(o, idle, MetadataOf(first), at);
    assert Public(first, d)[0] == first && Public(first, d)[1..] == SentChunks(d.sent);
    GateLanguage(includeUsage, Public(first, d));
    if d.outcome == Completed {
      CompletedIsWhole(o, idle, MetadataOf(first), at);
    }
  }

  lemma SentChunksCons(s: Sent, rest: seq<Sent>)
    ensures SentChunks([s] + rest) == [s.chunk] + SentChunks(rest)
  {
  }

  lemma NoErrorCons(items: seq<Item>)
    requires items != [] && items[0].Ok? && Adapters.NoError(items[1..])
    ensures Adapters.NoError(items)
  {
    forall i | 0 <= i < |items| ensures items[i].Ok? {
      assert i > 0 ==> items[i] == items[1..][i - 1];
    }
  }

  lemma {:induction false} CompletedIsWhole(o: Oracle, idle: nat, expected: StreamMetadata, at: Cursor)
    requires DeliverFrom(o, idle, expected, at).outcome == Completed
    ensures SentChunks(DeliverFrom(o, idle, expected, at).sent) == Adapters.Chunks(at.items)
    ensures Adapters.NoError(at.items)
    decreases |at.items|
  {
    var turn := TakeTurn(o, idle, expected, at);
    if turn.Send? {
      CompletedIsWhole(o, idle, expected, turn.next);
      SentChunksCons(turn.sent, DeliverFrom(o, idle, expected, turn.next).sent);
      NoErrorCons(at.items);
    }
  }

  /** Where the deadlines of a delivery come from: the readings around each chunk lie below the
      deadline in force, which only an ordinary chunk renews, from the next reading on. */
  ghost predicate Timely(o: Oracle, idle: nat, sent: seq<Sent>, deadline: nat, t: nat) {
    forall i :: 0 <= i < |sent| ==> OnTime(o, idle, sent, deadline, t, i)
  }

  ghost predicate OnTime(o: Oracle, idle: nat, sent: seq<Sent>, deadline: nat, t: nat, i: nat)
    requires i < |sent|
  {
    && o.clock(sent[i].at) < sent[i].deadline && o.clock(sent[i].at + 1) < sent[i].deadline
    && (i == 0 ==> sent[0].deadline == deadline && sent[0].at == t)
    && (i > 0 && sent[i - 1].chunk.choices == [] ==>
          sent[i].deadline == sent[i - 1].deadline && sent[i].at == sent[i - 1].at + 2)
    && (i > 0 && sent[i - 1].chunk.choices != [] ==>
          sent[i].deadline == SaturatingAdd(o.clock(sent[i - 1].at + 2), idle) && sent[i].at == sent[i - 1].at + 3)
  }

  lemma {:induction false} LoopIsTimely(o: Oracle, idle: nat, expected: StreamMetadata, at: Cursor)
    ensures Timely(o, idle, DeliverFrom(o, idle, expected, at).sent, at.deadline, at.t)
    decreases |at.items|
  {
    var turn := TakeTurn(o, idle, expected, at);
    if turn.Send? {
      LoopIsTimely(o, idle, expected, turn.next);
      TimelyCons(o, idle, turn.sent, DeliverFrom(o, idle, expected, turn.next).sent, turn.next.deadline, turn.next.t);
    }
  }

  lemma TimelyCons(o: Oracle, idle: nat, s: Sent, rest: seq<Sent>, deadline: nat, t: nat)
    requires Timely(o, idle, rest, deadline, t)
    requires o.clock(s.at) < s.deadline && o.clock(s.at + 1) < s.deadline
    requires deadline == if s.chunk.choices == [] then s.deadline else SaturatingAdd(o.clock(s.at + 2), idle)
    requires t == s.at + if s.chunk.choices == [] then 2 else 3
    ensures Timely(o, idle, [s] + rest, s.deadline, s.at)
  {
    var sent := [s] + rest;
    forall i | 0 <= i < |sent| ensures OnTime(o, idle, sent, s.deadline, s.at, i) {
      if i > 0 {
        assert OnTime(o, idle, rest, deadline, t, i - 1);
      }
    }
  }

  /** No chunk is made public that was read at or past the idle deadline, which runs from the
      reading that followed the last ordinary chunk. */
  lemma PublicIsTimely(o: Oracle, idle: nat, includeUsage: bool, first: ChatChunk, items: seq<Item>)
    requires First(first, includeUsage).Some?
    ensures Timely(o, idle, Deliver(o, idle, includeUsage, first, items).sent, SaturatingAdd(o.clock(0), idle), 1)
  {
    LoopIsTimely(o, idle, MetadataOf(first),
                 Cursor(First(first, includeUsage).value, SaturatingAdd(o.clock(0), idle), items, 1, 0));
  }

  // ----------------------------------------------------- why it stopped

  /** The clock reading that comes after the chunks in `sent`, the first of which was due at `t`. */
  function NextReading(sent: seq<Sent>, t: nat): nat {
    if sent == [] then t
    else
      var last := sent[|sent| - 1];
      last.at + if last.chunk.choices != [] then 3 else 2
  }

  /** The deadline in force then. */
  function NextDeadline(o: Oracle, idle: nat, sent: seq<Sent>, deadline: nat): nat {
    if sent == [] then deadline
    else
      var last := sent[|sent| - 1];
      if last.chunk.choices != [] then SaturatingAdd(o.clock(last.at + 2), idle) else last.deadline
  }

  /** Where the loop halts. */
  function StopAt(o: Oracle, idle: nat, expected: StreamMetadata, at: Cursor): Cursor
    decreases |at.items|
  {
    match TakeTurn(o, idle, expected, at)
    case Halt(_) => at
    case Send(_, next) => StopAt(o, idle, expected, next)
  }

  /** The first items are the chunks sent. */
  ghost predicate Leads(sent: seq<Sent>, items: seq<Item>) {
    |sent| <= |items| && forall i :: 0 <= i < |sent| ==> items[i] == Ok(sent[i].chunk)
  }

  /** The place where it halts, read off what was sent. */
  ghost predicate Stands(o: Oracle, idle: nat, expected: StreamMetadata, at: Cursor, sent: seq<Sent>, stop: Cursor) {
    && Leads(sent, at.items)
    && stop.items == at.items[|sent|..]
    && stop.t == NextReading(sent, at.t) && stop.c == at.c + 2 * |sent|
    && stop.deadline == NextDeadline(o, idle, sent, at.deadline)
    && Pass(Open(expected, at.gate), SentChunks(sent)) == Some(Open(expected, stop.gate))
  }

  lemma {:induction false} LoopStands(o: Oracle, idle: nat, expected: StreamMetadata, at: Cursor)
    ensures var d := DeliverFrom(o, idle, expected, at);
            var stop := StopAt(o, idle, expected, at);
            && Stands(o, idle, expected, at, d.sent, stop)
            && TakeTurn(o, idle, expected, stop) == Halt(d.outcome)
    decreases |at.items|
  {
    var turn := TakeTurn(o, idle, expected, at);
    if turn.Send? {
      LoopStands(o, idle, expected, turn.next);
      StandsCons(o, idle, expected, at, turn.sent, turn.next, DeliverFrom(o, idle, expected, turn.next).sent,
                 StopAt(o, idle, expected, turn.next));
    }
  }

  lemma StandsCons(o: Oracle, idle: nat, expected: StreamMetadata, at: Cursor, s: Sent, next: Cursor, rest: seq<Sent>, stop: Cursor)
    requires TakeTurn(o, idle, expected, at) == Send(s, next) && Stands(o, idle, expected, next, rest, stop)
    ensures Stands(o, idle, expected, at, [s] + rest, stop)
  {
    var sent := [s] + rest;
    SentChunksCons(s, rest);
    assert SentChunks(sent)[0] == s.chunk && SentChunks(sent)[1..] == SentChunks(rest);
    assert at.items[1..][|rest|..] == at.items[|sent|..];
    forall i | 0 <= i < |sent| ensures at.items[i] == Ok(sent[i].chunk) {
      assert i > 0 ==> at.items[i] == at.items[1..][i - 1];
    }
    assert rest != [] ==> sent[|sent| - 1] == rest[|rest| - 1];
  }

  /** The checks around one reading, from clock reading `t` and cancellation reading `c` on. */
  predicate FoundCancelled(o: Oracle, deadline: nat, t: nat, c: nat) {
    o.cancelled(c) || (o.clock(t) < deadline && o.cancelled(c + 1))
  }

  predicate FoundLate(o: Oracle, deadline: nat, t: nat) {
    o.clock(t) >= deadline || o.clock(t + 1) >= deadline
  }

  /** What the provider yields next cannot be made public: an error, a chunk that does not fit
      what is public already, or an end before the turn has ended. */
  ghost predicate CannotGoOn(includeUsage: bool, public: seq<ChatChunk>, items: seq<Item>)
    requires public != []
  {
    if items == [] then !After(includeUsage, public).gate.terminal
    else items[0].Err? || !Publishable(includeUsage, public + [items[0].value])
  }

  /** The same, asked of the gate. */
  predicate Refuses(gate: GateState, expected: StreamMetadata, items: seq<Item>) {
    if items == [] then !gate.terminal else items[0].Err? || Accept(gate, items[0].value, expected).None?
  }

  lemma HaltsForCause(o: Oracle, idle: nat, expected: StreamMetadata, stop: Cursor, outcome: Outcome)
    requires TakeTurn(o, idle, expected, stop) == Halt(outcome)
    ensures outcome == ClientDisconnected <==> FoundCancelled(o, stop.deadline, stop.t, stop.c)
    ensures outcome == Completed
       <==> && !FoundCancelled(o, stop.deadline, stop.t, stop.c) && !FoundLate(o, stop.deadline, stop.t)
            && stop.items == [] && stop.gate.terminal
    ensures outcome == UpstreamFailedAfterCommit
       <==> && !FoundCancelled(o, stop.deadline, stop.t, stop.c)
            && (FoundLate(o, stop.deadline, stop.t) || Refuses(stop.gate, expected, stop.items))
  {
  }

  lemma RefusalIsCannotGoOn(includeUsage: bool, public: seq<ChatChunk>, gate: GateState, items: seq<Item>)
    requires public != [] && Publishable(includeUsage, public)
    requires After(includeUsage, public) == Open(MetadataOf(public[0]), gate)
    ensures Refuses(gate, MetadataOf(public[0]), items) <==> CannotGoOn(includeUsage, public, items)
  {
    if items != [] && items[0].Ok? {
      GateTakesNext(includeUsage, public, gate, items[0].value);
    }
  }

  /** A delivery stops for a cause: the readings that follow the last chunk sent, or the provider's
      next item, tell the outcome, and the outcome tells them. */
  lemma DeliveryStopsForCause(o: Oracle, idle: nat, includeUsage: bool, first: ChatChunk, items: seq<Item>)
    requires First(first, includeUsage).Some?
    ensures var d := Deliver(o, idle, includeUsage, first, items);
            var n, t, deadline := |d.sent|, NextReading(d.sent, 1), NextDeadline(o, idle, d.sent, SaturatingAdd(o.clock(0), idle));
            && Leads(d.sent, items)
            && (d.outcome == ClientDisconnected <==> FoundCancelled(o, deadline, t, 2 * n))
            && (d.outcome == Completed <==>
                  && !FoundCancelled(o, deadline, t, 2 * n) && !FoundLate(o, deadline, t)
                  && items[n..] == [] && After(includeUsage, Public(first, d)).gate.terminal)
            && (d.outcome == UpstreamFailedAfterCommit <==>
                  && !FoundCancelled(o, deadline, t, 2 * n)
                  && (FoundLate(o, deadline, t) || (CannotGoOn(includeUsage, Public(first, d), items[n..]))))
  {
    var d := Deliver(o, idle, includeUsage, first, items);
    var at := Cursor(First(first, includeUsage).value, SaturatingAdd(o.clock(0), idle), items, 1, 0);
    var stop := StopAt(o, idle, MetadataOf(first), at);
    LoopStands(o, idle, MetadataOf(first), at);
    HaltsForCause(o, idle, MetadataOf(first), stop, d.outcome);
    GateAfterPublic(includeUsage, first, d.sent, stop.gate);
    RefusalIsCannotGoOn(includeUsage, Public(first, d), stop.gate, stop.items);
  }

  lemma GateAfterPublic(includeUsage: bool, first: ChatChunk, sent: seq<Sent>, gate: GateState)
    requires First(first, includeUsage).Some?
    requires Pass(Open(MetadataOf(first), First(first, includeUsage).value), SentChunks(sent)) == Some(Open(MetadataOf(first), gate))
    ensures var public := [first] + SentChunks(sent);
            Publishable(includeUsage, public) && After(includeUsage, public) == Open(MetadataOf(first), gate)
  {
    var public := [first] + SentChunks(sent);
    assert public[0] == first && public[1..] == SentChunks(sent);
    GateLanguage(includeUsage, public);
  }

  lemma GateTakesNext(includeUsage: bool, public: seq<ChatChunk>, gate: GateState, c: ChatChunk)
    requires public != [] && Publishable(includeUsage, public)
    requires After(includeUsage, public) == Open(MetadataOf(public[0]), gate)
    ensures Accept(gate, c, MetadataOf(public[0])).Some? <==> Publishable(includeUsage, public + [c])
  {
    GateLanguage(includeUsage, public);
    GateLanguage(includeUsage, public + [c]);
    PassSnoc(Closed(includeUsage), public, c);
  }

  // ------------------------------------------------- conforming, undisturbed

  /** Over the readings that delivering `n` more items can make, nobody hangs up and no reading falls an
      idle timeout after one of the four before it. */
  ghost predicate Steady(o: Oracle, idle: nat, n: nat) {
    && (forall c: nat :: c < 2 * n + 2 ==> !o.cancelled(c))
    && (forall s: nat, t: nat :: s < t <= s + 4 && t < 3 * n + 3 ==> o.clock(t) < SaturatingAdd(o.clock(s), idle))
  }

  /** The deadline in force runs from reading `s`, which is the last one made; only a usage chunk,
      after which nothing more is accepted, leaves it two readings behind. */
  predicate RunsFrom(o: Oracle, idle: nat, n: nat, at: Cursor, s: nat) {
    && at.deadline == SaturatingAdd(o.clock(s), idle)
    && (at.t == s + 1 || (at.t == s + 3 && at.gate.usageSeen))
    && (at.gate.usageSeen ==> at.gate.terminal)
    && at.c + 2 * |at.items| <= 2 * n && at.t + 3 * |at.items| <= 3 * n + 1
  }

  lemma {:induction false} SteadyLoop(o: Oracle, idle: nat, n: nat, expected: StreamMetadata, at: Cursor, s: nat)
    requires Steady(o, idle, n) && RunsFrom(o, idle, n, at, s)
    ensures var end := Pass(Open(expected, at.gate), Adapters.Chunks(at.items));
            Adapters.NoError(at.items) && end.Some? && end.value.Open? && end.value.gate.terminal ==>
              DeliverFrom(o, idle, expected, at).outcome == Completed
    decreases |at.items|
  {
    assert o.clock(at.t) < SaturatingAdd(o.clock(s), idle) && o.clock(at.t + 1) < SaturatingAdd(o.clock(s), idle);
    assert !o.cancelled(at.c) && !o.cancelled(at.c + 1);
    var turn := TakeTurn(o, idle, expected, at);
    if turn.Send? {
      SteadyLoop(o, idle, n, expected, turn.next, if turn.sent.chunk.choices != [] then at.t + 2 else s);
    }
  }

  /** Undisturbed, however long it lasts, a delivery completes exactly when the provider yields no error and
      the gate accepts the whole and has seen the turn end. */
  lemma SteadyDeliveryCompletes(o: Oracle, idle: nat, includeUsage: bool, first: ChatChunk, items: seq<Item>)
    requires Steady(o, idle, |items|) && First(first, includeUsage).Some?
    ensures Deliver(o, idle, includeUsage, first, items).outcome == Completed
       <==> && Adapters.NoError(items)
            && Publishable(includeUsage, [first] + Adapters.Chunks(items))
            && After(includeUsage, [first] + Adapters.Chunks(items)).gate.terminal
  {
    var all := [first] + Adapters.Chunks(items);
    GateLanguage(includeUsage, all);
    assert all[1..] == Adapters.Chunks(items);
    PublicIsPublishable(o, idle, includeUsage, first, items);
    SteadyLoop(o, idle, |items|, MetadataOf(first),
               Cursor(First(first, includeUsage).value, SaturatingAdd(o.clock(0), idle), items, 1, 0), 0);
  }

  // ------------------------------------------------------------- the end mark

  lemma {:induction false} NoChunkIsDone(chunks: seq<ChatChunk>)
    ensures DONE_TEXT !in EventTexts(chunks)
  {
    if chunks != [] {
      ChunkIsNotDone(chunks[0]);
      NoChunkIsDone(chunks[1..]);
      assert EventTexts(chunks) == [ChunkText(chunks[0])] + EventTexts(chunks[1..]);
    }
  }

  /** `[DONE]` is among the events once if the delivery completed, as the last of them, and never otherwise. */
  lemma DoneOnceIfCompleted(first: ChatChunk, d: Delivered)
    ensures multiset(Events(first, d))[DONE_TEXT] == if d.outcome == Completed then 1 else 0
    ensures d.outcome == Completed <==> Events(first, d)[|Events(first, d)| - 1] == DONE_TEXT
  {
    var chunks := EventTexts(Public(first, d));
    NoChunkIsDone(Public(first, d));
    assert Events(first, d) == chunks + if d.outcome == Completed then [DONE_TEXT] else [];
    assert chunks[|chunks| - 1] in chunks;
  }
}
