/** The iterator that the three decoders share, with its buffers: `next` and `next_event`. */
module SseMachine {
  import opened Wrappers
  import opened Utf8
  import opened Response
  import opened Sse

  lemma FirstOfTwo(pending: seq<Item>, rest: seq<Item>)
    requires pending != []
    ensures (pending + rest)[0] == pending[0] && (pending + rest)[1..] == pending[1..] + rest
  {
  }

  class SseDecoder<S> {
    const decoder: Decoder<S>
    var state: S
    var source: seq<Fragment>
    var input: seq<byte>
    var pending: seq<Item>
    var exhausted: bool

    constructor (decoder: Decoder<S>, start: S, source: seq<Fragment>)
      ensures this.decoder == decoder && Remaining() == Feed(decoder, start, [], source)
    {
      this.decoder, state, this.source := decoder, start, source;
      input, pending, exhausted := [], [], false;
      new;
      assert [] + Feed(decoder, start, [], source) == Feed(decoder, start, [], source);
    }

    /** What is still to be yielded. */
    ghost function Remaining(): seq<Item>
      reads this
    {
      pending + if exhausted then [] else Feed(decoder, state, input, source)
    }

    /** `next_event`: one line, or the end. */
    method NextEvent() returns (r: Result<bool, TargetErrorKind>)
      requires !exhausted && pending == []
      modifies this
      ensures match r
              case Err(kind) => old(Remaining()) == [Err(kind)] && pending == []
              case Ok(more) => Remaining() == old(Remaining()) && exhausted == !more
      ensures r == Ok(true) ==> |source| < |old(source)| || (source == old(source) && |input| < |old(input)|)
    {
      ghost var rest := Feed(decoder, state, input, source);
      assert [] + rest == rest;
      while true
        invariant !exhausted && pending == [] && Feed(decoder, state, input, source) == rest
        invariant |source| < |old(source)| || (source == old(source) && input == old(input))
        decreases |source|
      {
        var newline := FirstLf(input);
        if newline < |input| {
          var step := decoder.line(state, input[..newline]);
          if step.Fail? {
            return Err(step.kind);
          }
          input := input[newline + 1..];
          state, pending := step.state, Items(step.out);
          return Ok(true);
        }
        if source == [] {
          exhausted := true;
          if input != [] {
            return Err(InvalidResponseError);
          }
          var step := decoder.end(state);
          if step.Fail? {
            return Err(step.kind);
          }
          state, pending := step.state, Items(step.out);
          return Ok(false);
        }
        var fragment := source[0];
        source := source[1..];
        if fragment.Broken? {
          return Err(ConnectionError);
        }
        if |input| + |fragment.bytes| > MAX_BUFFERED_INPUT {
          return Err(InvalidResponseError);
        }
        input := input + fragment.bytes;
      }
    }

    /** A pending item is the next of those that remain. */
    method PopFront() returns (item: Option<Item>)
      modifies this`pending
      ensures item.None? ==> pending == [] && Remaining() == old(Remaining())
      ensures item.Some? ==> old(Remaining()) != [] && item.value == old(Remaining())[0] && Remaining() == old(Remaining())[1..]
      ensures exhausted && old(pending) == [] ==> old(Remaining()) == []
    {
      if pending == [] {
        return None;
      }
      FirstOfTwo(pending, if exhausted then [] else Feed(decoder, state, input, source));
      item, pending := Some(pending[0]), pending[1..];
    }

    /** `next`: exactly the items of the specification, one at a time. */
    method NextItem() returns (item: Option<Item>)
      modifies this
      ensures old(Remaining()) == [] ==> item == None && Remaining() == []
      ensures old(Remaining()) != [] ==> item == Some(old(Remaining())[0]) && Remaining() == old(Remaining())[1..]
    {
      ghost var all := Remaining();
      item := PopFront();
      if item.Some? || exhausted {
        return;
      }
      while true
        invariant !exhausted && pending == [] && Remaining() == all
        decreases |source|, |input|
      {
        var r := NextEvent();
        if r.Err? {
          exhausted := true;
          return Some(Err(r.error));
        }
        item := PopFront();
        if item.Some? || !r.value {
          return;
        }
      }
    }
  }
}
