/** Server-sent events as the three decoders read them: the `next_event` loop over
    byte fragments, which is the same in each, and the rules for one line. */
module Sse {
  import opened Wrappers
  import opened Utf8
  import opened Response

  datatype TargetErrorKind =
    | Timeout | ConnectionError | RateLimited | Authentication | PermissionDenied
    | RejectedRequest | InvalidResponseError | OverloadedError | UpstreamHttp

  /** What a provider stream yields. */
  type Item = Result<ChatChunk, TargetErrorKind>

  function TargetError(e: ResponseError): TargetErrorKind {
    match e
    case InvalidResponse => InvalidResponseError
    case Overloaded => OverloadedError
  }

  const MAX_SSE_EVENT_BYTES: nat := 1024 * 1024
  const MAX_BUFFERED_INPUT: nat := MAX_SSE_EVENT_BYTES + 64 * 1024

  // ------------------------------------------------------------ one line

  const LF: byte := 10
  const CR: byte := 13
  const SPACE: byte := 32
  const COLON: byte := 58
  /** `data:` */
  const DATA_FIELD: seq<byte> := [100, 97, 116, 97, 58]
  /** `event:` */
  const EVENT_FIELD: seq<byte> := [101, 118, 101, 110, 116, 58]
  /** `[DONE]` */
  const DONE_PAYLOAD: seq<byte> := [91, 68, 79, 78, 69, 93]

  function StripCr(line: seq<byte>): seq<byte> {
    if line != [] && line[|line| - 1] == CR then line[..|line| - 1] else line
  }

  /** The value after a field name, less one leading space. */
  function FieldValue(line: seq<byte>, field: seq<byte>): Option<seq<byte>> {
    if field <= line then
      var value := line[|field|..];
      Some(if value != [] && value[0] == SPACE then value[1..] else value)
    else None
  }

  /** `data` lines of one event joined with newlines, up to the event limit. */
  function AppendData(data: seq<byte>, value: seq<byte>): (r: Option<seq<byte>>)
    ensures r.Some? ==> |r.value| <= MAX_SSE_EVENT_BYTES
  {
    if |data| + |value| + (if data == [] then 0 else 1) > MAX_SSE_EVENT_BYTES then None
    else Some(if data == [] then value else data + [LF] + value)
  }

  // ------------------------------------------------------------ framing

  /** One step of a decoder: what it emits, or the error that ends the stream. */
  datatype Step<+S> = Next(state: S, out: seq<ChatChunk>) | Fail(kind: TargetErrorKind)

  /** A decoder: its reaction to a complete line, and to the end of the source. */
  datatype Decoder<!S> = Decoder(line: (S, seq<byte>) -> Step<S>, end: S -> Step<S>)

  /** One element of the transport's byte stream. */
  datatype Fragment = Bytes(bytes: seq<byte>) | Broken

  function FirstLf(b: seq<byte>): (n: nat)
    ensures n <= |b|
    ensures n < |b| ==> b[n] == LF
    ensures forall i :: 0 <= i < n ==> b[i] != LF
  {
    if b == [] then 0 else if b[0] == LF then 0 else 1 + FirstLf(b[1..])
  }

  function Items(chunks: seq<ChatChunk>): (r: seq<Item>)
    ensures |r| == |chunks|
    ensures forall i :: 0 <= i < |chunks| ==> r[i] == Ok(chunks[i])
  {
    seq(|chunks|, i requires 0 <= i < |chunks| => Ok(chunks[i]))
  }

  function EndItems<S>(d: Decoder<S>, s: S, input: seq<byte>): seq<Item> {
    if input != [] then [Err(InvalidResponseError)]
    else
      match d.end(s)
      case Fail(k) => [Err(k)]
      case Next(_, out) => Items(out)
  }

  /** Everything the iterator yields from here on: `input` is the unread buffer,
      `source` what the transport will still deliver. */
  function Feed<S>(d: Decoder<S>, s: S, input: seq<byte>, source: seq<Fragment>): seq<Item>
    decreases |source|, |input|
  {
    var n := FirstLf(input);
    if n < |input| then
      match d.line(s, input[..n])
      case Fail(k) => [Err(k)]
      case Next(s', out) => Items(out) + Feed(d, s', input[n + 1..], source)
    else if source == [] then EndItems(d, s, input)
    else
      match source[0]
      case Broken => [Err(ConnectionError)]
      case Bytes(b) =>
        if |input| + |b| > MAX_BUFFERED_INPUT then [Err(InvalidResponseError)]
        else Feed(d, s, input + b, source[1..])
  }

  // ------------------------------------------------------------ reference

  /** A stretch of bytes read line by line, without any buffer. */
  datatype Lines<+S> = Alive(state: S, partial: seq<byte>, out: seq<ChatChunk>) | Dead(out: seq<ChatChunk>, kind: TargetErrorKind)

  function Prepend<S>(out: seq<ChatChunk>, r: Lines<S>): Lines<S> {
    match r
    case Alive(s, partial, more) => Alive(s, partial, out + more)
    case Dead(more, k) => Dead(out + more, k)
  }

  function ReadLines<S>(d: Decoder<S>, s: S, b: seq<byte>): Lines<S>
    decreases |b|
  {
    var n := FirstLf(b);
    if n == |b| then Alive(s, b, [])
    else
      match d.line(s, b[..n])
      case Fail(k) => Dead([], k)
      case Next(s', out) => Prepend(out, ReadLines(d, s', b[n + 1..]))
  }

  /** How the transport ended, as far as the decoder gets to see it. */
  datatype Ending = Eof | Disconnected | Overflow

  function LastItems<S>(d: Decoder<S>, s: S, partial: seq<byte>, ending: Ending): seq<Item> {
    match ending
    case Eof => EndItems(d, s, partial)
    case Disconnected => [Err(ConnectionError)]
    case Overflow => [Err(InvalidResponseError)]
  }

  function Conclude<S>(d: Decoder<S>, r: Lines<S>, ending: Ending): seq<Item> {
    match r
    case Dead(out, k) => Items(out) + [Err(k)]
    case Alive(s, partial, out) => Items(out) + LastItems(d, s, partial, ending)
  }

  /** The items of an uncut stream: every line in order, then the ending. */
  function Reference<S>(d: Decoder<S>, s: S, b: seq<byte>, ending: Ending): seq<Item> {
    Conclude(d, ReadLines(d, s, b), ending)
  }

  /** The bytes after the last newline. */
  function Tail(b: seq<byte>): seq<byte>
    decreases |b|
  {
    var n := FirstLf(b);
    if n == |b| then b else Tail(b[n + 1..])
  }

  datatype Delivery = Delivery(bytes: seq<byte>, ending: Ending)

  /** The bytes that reach the line reader, and why no more do.  This depends on
      the cuts only through the buffer bound. */
  function Delivered(b: seq<byte>, source: seq<Fragment>): Delivery
    decreases |source|
  {
    if source == [] then Delivery(b, Eof)
    else
      match source[0]
      case Broken => Delivery(b, Disconnected)
      case Bytes(f) =>
        if |Tail(b)| + |f| > MAX_BUFFERED_INPUT then Delivery(b, Overflow) else Delivered(b + f, source[1..])
  }

  lemma ItemsConcat(a: seq<ChatChunk>, b: seq<ChatChunk>)
    ensures Items(a + b) == Items(a) + Items(b)
  {
  }

  lemma FirstLfUnique(b: seq<byte>, n: nat)
    requires n <= |b| && (n < |b| ==> b[n] == LF) && forall i :: 0 <= i < n ==> b[i] != LF
    ensures FirstLf(b) == n
  {
  }

  /** What every line keeps, a whole run keeps. */
  lemma {:induction false} ReadLinesKeeps<S(!new)>(d: Decoder<S>, inv: S -> bool, s: S, b: seq<byte>)
    requires forall x: S, line: seq<byte> :: inv(x) && d.line(x, line).Next? ==> inv(d.line(x, line).state)
    requires inv(s) && ReadLines(d, s, b).Alive?
    ensures inv(ReadLines(d, s, b).state)
    decreases |b|
  {
    var n := FirstLf(b);
    if n < |b| {
      ReadLinesKeeps(d, inv, d.line(s, b[..n]).state, b[n + 1..]);
    }
  }

  lemma {:induction false} DeliveredAfterLine(input: seq<byte>, n: nat, source: seq<Fragment>)
    requires n == FirstLf(input) < |input|
    ensures var rest := Delivered(input[n + 1..], source);
            Delivered(input, source) == Delivery(input[..n + 1] + rest.bytes, rest.ending)
    decreases |source|
  {
    assert input[..n + 1] + input[n + 1..] == input;
    if source != [] && source[0].Bytes? {
      var f := source[0].bytes;
      FirstLfUnique(input + f, n);
      assert (input + f)[n + 1..] == input[n + 1..] + f && (input + f)[..n + 1] == input[..n + 1];
      DeliveredAfterLine(input + f, n, source[1..]);
    }
  }

  lemma ReadLinesCons<S>(d: Decoder<S>, s: S, line: seq<byte>, rest: seq<byte>)
    requires forall i :: 0 <= i < |line| ==> line[i] != LF
    ensures var step := d.line(s, line);
            ReadLines(d, s, line + [LF] + rest)
              == if step.Fail? then Dead([], step.kind) else Prepend(step.out, ReadLines(d, step.state, rest))
  {
    var b := line + [LF] + rest;
    FirstLfUnique(b, |line|);
    assert b[..|line|] == line && b[|line| + 1..] == rest;
  }

  /** A line that only changes the state, and the empty line after it. */
  lemma ReadLinesEvent<S>(d: Decoder<S>, s: S, line: seq<byte>, s': S, rest: seq<byte>)
    requires (forall i :: 0 <= i < |line| ==> line[i] != LF) && d.line(s, line) == Next(s', [])
    ensures var step := d.line(s', []);
            ReadLines(d, s, line + [LF] + [LF] + rest)
              == if step.Fail? then Dead([], step.kind) else Prepend(step.out, ReadLines(d, step.state, rest))
  {
    assert line + [LF] + [LF] + rest == line + [LF] + ([LF] + rest);
    ReadLinesCons(d, s, line, [LF] + rest);
    assert [] + [LF] + rest == [LF] + rest;
    ReadLinesCons(d, s', [], rest);
    var r := ReadLines(d, s', [LF] + rest);
    assert [] + r.out == r.out;
  }

  lemma ReferenceCons<S>(d: Decoder<S>, s: S, line: seq<byte>, rest: seq<byte>, ending: Ending)
    requires forall i :: 0 <= i < |line| ==> line[i] != LF
    ensures var step := d.line(s, line);
            Reference(d, s, line + [LF] + rest, ending)
              == if step.Fail? then [Err(step.kind)] else Items(step.out) + Reference(d, step.state, rest, ending)
  {
    ReadLinesCons(d, s, line, rest);
    var step := d.line(s, line);
    if step.Fail? {
      assert Items([]) == [];
    } else {
      ConcludePrepend(d, step.out, ReadLines(d, step.state, rest), ending);
    }
  }

  lemma ConcludePrepend<S>(d: Decoder<S>, out: seq<ChatChunk>, r: Lines<S>, ending: Ending)
    ensures Conclude(d, Prepend(out, r), ending) == Items(out) + Conclude(d, r, ending)
  {
    ItemsConcat(out, r.out);
  }

  /** The buffered `next_event` loop yields exactly what reading the delivered bytes
      line by line yields. */
  lemma {:induction false} FeedIsReference<S>(d: Decoder<S>, s: S, input: seq<byte>, source: seq<Fragment>)
    ensures var got := Delivered(input, source);
            Feed(d, s, input, source) == Reference(d, s, got.bytes, got.ending)
    decreases |source|, |input|
  {
    var n := FirstLf(input);
    var got := Delivered(input, source);
    if n < |input| {
      DeliveredAfterLine(input, n, source);
      var rest := Delivered(input[n + 1..], source);
      assert got.bytes == input[..n] + [LF] + rest.bytes;
      ReferenceCons(d, s, input[..n], rest.bytes, rest.ending);
      match d.line(s, input[..n]) {
        case Fail(_) =>
        case Next(s', _) => FeedIsReference(d, s', input[n + 1..], source);
      }
    } else if source == [] || source[0].Broken? || |input| + |source[0].bytes| > MAX_BUFFERED_INPUT {
      assert got.bytes == input && ReadLines(d, s, input) == Alive(s, input, []);
      assert Items([]) + EndItems(d, s, input) == EndItems(d, s, input);
    } else {
      FeedIsReference(d, s, input + source[0].bytes, source[1..]);
    }
  }

  // ------------------------------------------------------------ fragmentation

  /** The uncut stream: all bytes up to a disconnection, if there is one. */
  function Joined(source: seq<Fragment>): Delivery {
    if source == [] then Delivery([], Eof)
    else
      match source[0]
      case Broken => Delivery([], Disconnected)
      case Bytes(f) =>
        var rest := Joined(source[1..]);
        Delivery(f + rest.bytes, rest.ending)
  }

  /** Nothing overflows: no unfinished line and the fragment after it exceed the buffer. */
  predicate Fits(b: seq<byte>, source: seq<Fragment>)
    decreases |source|
  {
    source == [] || source[0].Broken?
    || (|Tail(b)| + |source[0].bytes| <= MAX_BUFFERED_INPUT && Fits(b + source[0].bytes, source[1..]))
  }

  lemma {:induction false} DeliveredIsJoined(b: seq<byte>, source: seq<Fragment>)
    ensures Fits(b, source) <==> !Delivered(b, source).ending.Overflow?
    ensures Fits(b, source) ==> Delivered(b, source) == Delivery(b + Joined(source).bytes, Joined(source).ending)
    decreases |source|
  {
    if source == [] || source[0].Broken? {
      assert b + [] == b;
    } else if |Tail(b)| + |source[0].bytes| <= MAX_BUFFERED_INPUT {
      DeliveredIsJoined(b + source[0].bytes, source[1..]);
      assert b + source[0].bytes + Joined(source[1..]).bytes == b + Joined(source).bytes;
    }
  }

  /** However a stream is cut, the items are those of the uncut stream, provided no
      unfinished line plus the next fragment exceeds the buffer bound. */
  lemma FragmentationIndependence<S>(d: Decoder<S>, s: S, source: seq<Fragment>)
    requires Fits([], source)
    ensures Feed(d, s, [], source) == Reference(d, s, Joined(source).bytes, Joined(source).ending)
  {
    FeedIsReference(d, s, [], source);
    DeliveredIsJoined([], source);
    assert [] + Joined(source).bytes == Joined(source).bytes;
  }

  /** Two cuts of one stream are told apart only by the buffer bound. */
  lemma CutsAgree<S>(d: Decoder<S>, s: S, source1: seq<Fragment>, source2: seq<Fragment>)
    requires Joined(source1) == Joined(source2) && Fits([], source1) && Fits([], source2)
    ensures Feed(d, s, [], source1) == Feed(d, s, [], source2)
  {
    FragmentationIndependence(d, s, source1);
    FragmentationIndependence(d, s, source2);
  }

  // ------------------------------------------------- the production transport

  /** One read of `ResponseStream` (src/providers.rs:340). */
  const MAX_READ: nat := 16 * 1024

  predicate SmallReads(source: seq<Fragment>) {
    forall i :: 0 <= i < |source| && source[i].Bytes? ==> |source[i].bytes| <= MAX_READ
  }

  /** No run of bytes without a newline is longer than `m`. */
  ghost predicate LinesAtMost(b: seq<byte>, m: nat) {
    forall i :: 0 <= i <= |b| ==> |Tail(b[..i])| <= m
  }

  lemma {:induction false} ShortLinesFitFrom(b: seq<byte>, source: seq<Fragment>)
    requires SmallReads(source) && LinesAtMost(b + Joined(source).bytes, MAX_BUFFERED_INPUT - MAX_READ)
    ensures Fits(b, source)
    decreases |source|
  {
    if source != [] && source[0].Bytes? {
      var f := source[0].bytes;
      var all := b + Joined(source).bytes;
      assert all[..|b|] == b;
      assert b + f + Joined(source[1..]).bytes == all;
      ShortLinesFitFrom(b + f, source[1..]);
    }
  }

  /** With reads of at most 16 KiB, lines of at most 1 MiB + 48 KiB never trip the bound,
      and every cut of the stream decodes alike. */
  lemma ShortLinesDecodeAlike<S>(d: Decoder<S>, s: S, source: seq<Fragment>)
    requires SmallReads(source) && LinesAtMost(Joined(source).bytes, MAX_SSE_EVENT_BYTES + 48 * 1024)
    ensures Feed(d, s, [], source) == Reference(d, s, Joined(source).bytes, Joined(source).ending)
  {
    assert [] + Joined(source).bytes == Joined(source).bytes;
    ShortLinesFitFrom([], source);
    FragmentationIndependence(d, s, source);
  }
}
