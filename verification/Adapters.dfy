/** What the three decoders share: every chunk they emit comes out of the assembler,
    so everything they emit passes the gate. */
module Adapters {
  import opened Wrappers
  import Utf8
  import opened Response
  import opened Assembler
  import opened Gate
  import opened Sse

  /** `asm` reads the assembler out of a decoder's state. */
  ghost predicate Conforms<S(!new)>(ss: Session, d: Decoder<S>, asm: S -> State) {
    && (forall s: S, line: seq<Utf8.byte> :: LineConforms(ss, d, asm, s, line))
    && (forall s: S :: EndConforms(ss, d, asm, s))
  }

  ghost predicate LineConforms<S>(ss: Session, d: Decoder<S>, asm: S -> State, s: S, line: seq<Utf8.byte>) {
    var step := d.line(s, line);
    step.Next? ==> Emits(ss, asm(s), step.out, asm(step.state))
  }

  ghost predicate EndConforms<S>(ss: Session, d: Decoder<S>, asm: S -> State, s: S) {
    var step := d.end(s);
    step.Next? ==> Emits(ss, asm(s), step.out, asm(step.state)) && Finished(asm(step.state))
  }

  /** The chunks of an item sequence, up to its error if it has one. */
  function Chunks(items: seq<Item>): seq<ChatChunk>
    decreases |items|
  {
    if items == [] || items[0].Err? then [] else [items[0].value] + Chunks(items[1..])
  }

  predicate NoError(items: seq<Item>) {
    forall i :: 0 <= i < |items| ==> items[i].Ok?
  }

  lemma {:induction false} ChunksOfItems(out: seq<ChatChunk>, rest: seq<Item>)
    ensures Chunks(Items(out) + rest) == out + Chunks(rest)
    decreases |out|
  {
    var all := Items(out) + rest;
    if out == [] {
      assert all == rest && out + Chunks(rest) == Chunks(rest);
    } else {
      assert all[0] == Ok(out[0]) && all[1..] == Items(out[1..]) + rest;
      ChunksOfItems(out[1..], rest);
      assert [out[0]] + (out[1..] + Chunks(rest)) == out + Chunks(rest);
    }
  }

  lemma PassesPrefix(ss: Session, st: State, a: seq<ChatChunk>, mid: State, b: seq<ChatChunk>)
    requires Orderly(st) && Passes(ss, st, a, mid) && Pass(PhaseOf(ss, mid), b).Some?
    ensures Pass(PhaseOf(ss, st), a + b) == Pass(PhaseOf(ss, mid), b)
  {
    PassConcat(PhaseOf(ss, st), a, b);
  }

  /** The gate, fed what the iterator yields from state `s` on. */
  ghost predicate GateHolds<S>(ss: Session, asm: S -> State, s: S, items: seq<Item>) {
    var end := Pass(PhaseOf(ss, asm(s)), Chunks(items));
    && end.Some?
    && (NoError(items) ==> end.value.Open? && end.value.gate.terminal)
  }

  lemma {:induction false} FeedPassesGate<S(!new)>(ss: Session, d: Decoder<S>, asm: S -> State, s: S,
                                                   input: seq<Utf8.byte>, source: seq<Fragment>)
    requires Conforms(ss, d, asm) && Orderly(asm(s))
    ensures GateHolds(ss, asm, s, Feed(d, s, input, source))
    decreases |source|, |input|
  {
    var n := FirstLf(input);
    if n < |input| {
      assert LineConforms(ss, d, asm, s, input[..n]);
      var step := d.line(s, input[..n]);
      if step.Next? {
        var rest := Feed(d, step.state, input[n + 1..], source);
        EmittedPasses(ss, asm(s), step.out, asm(step.state));
        FeedPassesGate(ss, d, asm, step.state, input[n + 1..], source);
        PrependHolds(ss, asm, s, step.out, step.state, rest);
      }
    } else if source == [] {
      if input == [] {
        EndPassesGate(ss, d, asm, s);
      }
    } else if source[0].Bytes? && |input| + |source[0].bytes| <= MAX_BUFFERED_INPUT {
      FeedPassesGate(ss, d, asm, s, input + source[0].bytes, source[1..]);
    }
  }

  lemma PrependHolds<S>(ss: Session, asm: S -> State, s: S, out: seq<ChatChunk>, s': S, rest: seq<Item>)
    requires Orderly(asm(s)) && Passes(ss, asm(s), out, asm(s')) && GateHolds(ss, asm, s', rest)
    ensures GateHolds(ss, asm, s, Items(out) + rest)
  {
    var items := Items(out) + rest;
    ChunksOfItems(out, rest);
    PassesPrefix(ss, asm(s), out, asm(s'), Chunks(rest));
    if NoError(items) {
      forall i | 0 <= i < |rest| ensures rest[i].Ok? {
        assert items[|out| + i] == rest[i];
      }
    }
  }

  lemma EndPassesGate<S(!new)>(ss: Session, d: Decoder<S>, asm: S -> State, s: S)
    requires Conforms(ss, d, asm) && Orderly(asm(s))
    ensures GateHolds(ss, asm, s, EndItems(d, s, []))
  {
    assert EndConforms(ss, d, asm, s);
    var step := d.end(s);
    if step.Next? {
      EmittedPasses(ss, asm(s), step.out, asm(step.state));
      ChunksOfItems(step.out, []);
      assert Items(step.out) + [] == Items(step.out) && step.out + Chunks([]) == step.out;
    }
  }

  /** No error item means no dead line, no disconnection, and an end the decoder accepts. */
  lemma CleanEnd<S>(decoder: Decoder<S>, r: Lines<S>, ending: Ending)
    requires NoError(Conclude(decoder, r, ending))
    ensures r.Alive? && ending.Eof? && r.partial == [] && decoder.end(r.state).Next?
  {
    if !(r.Alive? && ending.Eof? && r.partial == [] && decoder.end(r.state).Next?) {
      DirtyEnd(decoder, r, ending);
    }
  }

  lemma DirtyEnd<S>(decoder: Decoder<S>, r: Lines<S>, ending: Ending)
    requires !(r.Alive? && ending.Eof? && r.partial == [] && decoder.end(r.state).Next?)
    ensures !NoError(Conclude(decoder, r, ending))
  {
    assert Conclude(decoder, r, ending)[|r.out|].Err?;
  }

  /** A stream without an error was read to its end: nothing overflowed, the transport
      ended normally, and the decoder accepted the end. */
  lemma CleanFeed<S>(decoder: Decoder<S>, s: S, source: seq<Fragment>)
    requires NoError(Feed(decoder, s, [], source))
    ensures Fits([], source) && Joined(source).ending.Eof?
    ensures var r := ReadLines(decoder, s, Joined(source).bytes);
            r.Alive? && r.partial == [] && decoder.end(r.state).Next?
  {
    FeedIsReference(decoder, s, [], source);
    DeliveredIsJoined([], source);
    var got := Delivered([], source);
    CleanEnd(decoder, ReadLines(decoder, s, got.bytes), got.ending);
    assert [] + Joined(source).bytes == Joined(source).bytes;
  }

  // -------------------------------------------------------- assembler runs

  /** The chunks read so far come out of an assembler run, which is finished if no error follows. */
  ghost predicate RunOf(ss: Session, st: State, items: seq<Item>) {
    exists st' :: Emits(ss, st, Chunks(items), st') && (NoError(items) ==> Finished(st'))
  }

  lemma PrependRun(ss: Session, st: State, out: seq<ChatChunk>, mid: State, rest: seq<Item>)
    requires Emits(ss, st, out, mid) && RunOf(ss, mid, rest)
    ensures RunOf(ss, st, Items(out) + rest)
  {
    var items := Items(out) + rest;
    var end :| Emits(ss, mid, Chunks(rest), end) && (NoError(rest) ==> Finished(end));
    ChunksOfItems(out, rest);
    EmitsChain(ss, st, out, mid, Chunks(rest), end);
    if NoError(items) {
      forall i | 0 <= i < |rest| ensures rest[i].Ok? {
        assert items[|out| + i] == rest[i];
      }
    }
  }

  /** What a conforming decoder yields is what some run of the assembler emits. */
  lemma {:induction false} FeedIsARun<S(!new)>(ss: Session, d: Decoder<S>, asm: S -> State, s: S, input: seq<Utf8.byte>,
                                               source: seq<Fragment>)
    requires Conforms(ss, d, asm)
    ensures RunOf(ss, asm(s), Feed(d, s, input, source))
    decreases |source|, |input|
  {
    var n := FirstLf(input);
    EmitsNothing(ss, asm(s));
    if n < |input| {
      assert LineConforms(ss, d, asm, s, input[..n]);
      var step := d.line(s, input[..n]);
      if step.Next? {
        FeedIsARun(ss, d, asm, step.state, input[n + 1..], source);
        PrependRun(ss, asm(s), step.out, asm(step.state), Feed(d, step.state, input[n + 1..], source));
      } else {
        OnlyAnError(ss, asm(s), step.kind);
      }
    } else if source == [] {
      EndIsARun(ss, d, asm, s, input);
    } else if source[0].Broken? {
      OnlyAnError(ss, asm(s), ConnectionError);
    } else if |input| + |source[0].bytes| > MAX_BUFFERED_INPUT {
      OnlyAnError(ss, asm(s), InvalidResponseError);
    } else {
      FeedIsARun(ss, d, asm, s, input + source[0].bytes, source[1..]);
    }
  }

  lemma OnlyAnError(ss: Session, st: State, kind: TargetErrorKind)
    ensures RunOf(ss, st, [Err(kind)])
  {
    var items: seq<Item> := [Err(kind)];
    EmitsNothing(ss, st);
    assert Chunks(items) == [] && items[0].Err?;
  }

  lemma EndIsARun<S(!new)>(ss: Session, d: Decoder<S>, asm: S -> State, s: S, input: seq<Utf8.byte>)
    requires Conforms(ss, d, asm)
    ensures RunOf(ss, asm(s), EndItems(d, s, input))
  {
    assert EndConforms(ss, d, asm, s);
    var step := d.end(s);
    if input != [] {
      OnlyAnError(ss, asm(s), InvalidResponseError);
    } else if step.Fail? {
      OnlyAnError(ss, asm(s), step.kind);
    } else {
      ChunksOfItems(step.out, []);
      assert Items(step.out) + [] == Items(step.out) && step.out + Chunks([]) == step.out;
    }
  }
}
