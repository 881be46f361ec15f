/** The chain end to end: bytes from a provider, through its decoder and the gate, to the
    body a client receives. */
module Gateway {
  import opened Wrappers
  import opened Response
  import opened Gate
  import opened Sse
  import opened Utf8
  import opened Delivery
  import opened DeliverySafety
  import Adapters
  import opened Assembler
  import Serialize
  import Reread
  import OpenAi
  import Anthropic
  import AnthropicTheorems
  import Gemini
  import GeminiTheorems

  function Concat(texts: seq<string>): string {
    if texts == [] then "" else texts[0] + Concat(texts[1..])
  }

  lemma {:induction false} JoinIsConcat(texts: seq<string>)
    ensures Join(texts) == Concat(texts)
  {
    if texts != [] {
      JoinIsConcat(texts[1..]);
      assert texts == [texts[0]] + texts[1..];
      JoinConcat([texts[0]], texts[1..]);
      JoinSnoc([], texts[0]);
      assert [] + [texts[0]] == [texts[0]] && "" + texts[0] == texts[0];
    }
  }

  lemma {:induction false} ConcatIsBody(chunks: seq<ChatChunk>)
    ensures Concat(EventTexts(chunks)) + Serialize.DONE_TEXT == Reread.BodyText(chunks)
    decreases |chunks|
  {
    if chunks != [] {
      var text := Serialize.ChunkText(chunks[0]);
      ConcatIsBody(chunks[1..]);
      assert EventTexts(chunks)[1..] == EventTexts(chunks[1..]);
      Associative(text, Concat(EventTexts(chunks[1..])), Serialize.DONE_TEXT);
    }
  }

  lemma JoinIsBody(chunks: seq<ChatChunk>)
    ensures Join(EventTexts(chunks) + [Serialize.DONE_TEXT]) == Reread.BodyText(chunks)
  {
    JoinSnoc(EventTexts(chunks), Serialize.DONE_TEXT);
    JoinIsConcat(EventTexts(chunks));
    ConcatIsBody(chunks);
  }

  /** The body a stream should become: its chunks, one event each, and `[DONE]`. */
  ghost predicate DeliversAll(o: Oracle, idle: nat, includeUsage: bool, items: seq<Item>) {
    && items != [] && items[0].Ok?
    && First(items[0].value, includeUsage).Some?
    && var d := Deliver(o, idle, includeUsage, items[0].value, items[1..]);
       d.outcome == Completed && Join(Events(items[0].value, d)) == Reread.BodyText(Adapters.Chunks(items))
  }

  /** Nobody hangs up while the items are delivered, and no gap between readings is an idle timeout long. */
  ghost predicate Undisturbed(o: Oracle, idle: nat, items: seq<Item>) {
    items != [] ==> Steady(o, idle, |items| - 1)
  }

  lemma GatedItemsAreDelivered(o: Oracle, idle: nat, includeUsage: bool, items: seq<Item>)
    requires Undisturbed(o, idle, items) && Adapters.NoError(items)
    requires var end := Pass(Closed(includeUsage), Adapters.Chunks(items));
             end.Some? && end.value.Open? && end.value.gate.terminal
    ensures DeliversAll(o, idle, includeUsage, items)
  {
    var first, rest := items[0].value, items[1..];
    assert Adapters.Chunks(items) == [first] + Adapters.Chunks(rest);
    GateLanguage(includeUsage, Adapters.Chunks(items));
    DeliveredWhole(o, idle, includeUsage, first, rest);
  }

  lemma DeliveredWhole(o: Oracle, idle: nat, includeUsage: bool, first: ChatChunk, rest: seq<Item>)
    requires Steady(o, idle, |rest|) && First(first, includeUsage).Some? && Adapters.NoError(rest)
    requires var chunks := [first] + Adapters.Chunks(rest);
             Publishable(includeUsage, chunks) && After(includeUsage, chunks).gate.terminal
    ensures var d := Deliver(o, idle, includeUsage, first, rest);
            d.outcome == Completed && Join(Events(first, d)) == Reread.BodyText([first] + Adapters.Chunks(rest))
  {
    SteadyDeliveryCompletes(o, idle, includeUsage, first, rest);
    PublicIsPublishable(o, idle, includeUsage, first, rest);
    JoinIsBody([first] + Adapters.Chunks(rest));
  }

  // ------------------------------------------------- what decoders hand on

  lemma RunPassesGate(ss: Session, cursor: nat, items: seq<Item>)
    requires Adapters.RunOf(ss, Initial(cursor), items)
    ensures var end := Pass(Closed(ss.request.includeUsage), Adapters.Chunks(items));
            end.Some? && (Adapters.NoError(items) ==> end.value.Open? && end.value.gate.terminal)
  {
    var end :| Emits(ss, Initial(cursor), Adapters.Chunks(items), end) && (Adapters.NoError(items) ==> Finished(end));
    EmittedPasses(ss, Initial(cursor), Adapters.Chunks(items), end);
  }

  /** Another gateway, or any reader of the compatible family, for the same request. */
  datatype Reader = Reader(cfg: OpenAi.Config, cursor: nat, source: seq<Fragment>)

  /** It reads this body, however it is cut, as far as its buffer lets it. */
  ghost predicate Receives(r: Reader, ss: Session, body: string) {
    r.cfg.ss.request == ss.request && Fits([], r.source) && Joined(r.source) == Sse.Delivery(ToBytes(body), Eof)
  }

  function Reads(r: Reader): seq<Item> {
    Feed(OpenAi.OpenAiDecoder(r.cfg), OpenAi.Start(r.cursor), [], r.source)
  }

  /** Left in peace, a stream that a decoder reads without an error is delivered whole, closed by `[DONE]`,
      and whoever reads the body as a compatible stream gets exactly the decoder's chunks,
      changed only in ID and timestamp. */
  ghost predicate Relays(ss: Session, items: seq<Item>, o: Oracle, idle: nat) {
    && DeliversAll(o, idle, ss.request.includeUsage, items)
    && forall r: Reader :: Receives(r, ss, Reread.BodyText(Adapters.Chunks(items))) ==>
         Reads(r) == Items(Reread.RebrandAll(r.cfg.ss.meta, Adapters.Chunks(items)))
  }

  ghost predicate AllReadable(chunks: seq<ChatChunk>) {
    forall i :: 0 <= i < |chunks| ==> Reread.Readable(chunks[i])
  }

  lemma RunIsRelayed(ss: Session, cursor: nat, items: seq<Item>, o: Oracle, idle: nat)
    requires Adapters.RunOf(ss, Initial(cursor), items) && Adapters.NoError(items)
    requires Undisturbed(o, idle, items) && AllReadable(Adapters.Chunks(items))
    ensures Relays(ss, items, o, idle)
  {
    RunPassesGate(ss, cursor, items);
    GatedItemsAreDelivered(o, idle, ss.request.includeUsage, items);
    var end :| Emits(ss, Initial(cursor), Adapters.Chunks(items), end) && Finished(end);
    var ops :| RunOps(ss, Initial(cursor), ops) == Ok(Run(end, Adapters.Chunks(items)));
    forall r: Reader | Receives(r, ss, Reread.BodyText(Adapters.Chunks(items)))
      ensures Reads(r) == Items(Reread.RebrandAll(r.cfg.ss.meta, Adapters.Chunks(items)))
    {
      Reread.GatewayOutputRereads(ss, cursor, ops, r.cfg, r.cursor, r.source);
    }
  }

  lemma OpenAiRelayed(cfg: OpenAi.Config, cursor: nat, source: seq<Fragment>, o: Oracle, idle: nat)
    requires var items := Feed(OpenAi.OpenAiDecoder(cfg), OpenAi.Start(cursor), [], source);
             Adapters.NoError(items) && AllReadable(Adapters.Chunks(items)) && Undisturbed(o, idle, items)
    ensures Relays(cfg.ss, Feed(OpenAi.OpenAiDecoder(cfg), OpenAi.Start(cursor), [], source), o, idle)
  {
    OpenAi.OpenAiConforms(cfg);
    Adapters.FeedIsARun(cfg.ss, OpenAi.OpenAiDecoder(cfg), (d: OpenAi.Decoding) => d.asm, OpenAi.Start(cursor), [], source);
    RunIsRelayed(cfg.ss, cursor, Feed(OpenAi.OpenAiDecoder(cfg), OpenAi.Start(cursor), [], source), o, idle);
  }

  lemma AnthropicRelayed(ss: Session, cursor: nat, source: seq<Fragment>, o: Oracle, idle: nat)
    requires var items := Feed(AnthropicTheorems.AnthropicDecoder(ss), Anthropic.Start(cursor), [], source);
             Adapters.NoError(items) && AllReadable(Adapters.Chunks(items)) && Undisturbed(o, idle, items)
    ensures Relays(ss, Feed(AnthropicTheorems.AnthropicDecoder(ss), Anthropic.Start(cursor), [], source), o, idle)
  {
    AnthropicTheorems.AnthropicConforms(ss);
    Adapters.FeedIsARun(ss, AnthropicTheorems.AnthropicDecoder(ss), (d: AnthropicTheorems.Reachable) => d.asm, Anthropic.Start(cursor), [], source);
    RunIsRelayed(ss, cursor, Feed(AnthropicTheorems.AnthropicDecoder(ss), Anthropic.Start(cursor), [], source), o, idle);
  }

  lemma GeminiRelayed(ss: Session, cursor: nat, source: seq<Fragment>, o: Oracle, idle: nat)
    requires var items := Feed(GeminiTheorems.GeminiDecoder(ss), Gemini.Start(cursor), [], source);
             Adapters.NoError(items) && AllReadable(Adapters.Chunks(items)) && Undisturbed(o, idle, items)
    ensures Relays(ss, Feed(GeminiTheorems.GeminiDecoder(ss), Gemini.Start(cursor), [], source), o, idle)
  {
    GeminiTheorems.GeminiConforms(ss);
    Adapters.FeedIsARun(ss, GeminiTheorems.GeminiDecoder(ss), (d: Gemini.GeminiState) => d.asm, Gemini.Start(cursor), [], source);
    RunIsRelayed(ss, cursor, Feed(GeminiTheorems.GeminiDecoder(ss), Gemini.Start(cursor), [], source), o, idle);
  }

  // --------------------------------------------- delivery without that limit

  /** Left in peace, a delivery of whatever a decoder reads without error completes with
      `[DONE]` and a body of exactly the decoder's chunks. */
  lemma OpenAiDelivered(cfg: OpenAi.Config, cursor: nat, source: seq<Fragment>, o: Oracle, idle: nat)
    ensures var items := Feed(OpenAi.OpenAiDecoder(cfg), OpenAi.Start(cursor), [], source);
            Adapters.NoError(items) && Undisturbed(o, idle, items) ==> DeliversAll(o, idle, cfg.ss.request.includeUsage, items)
  {
    OpenAi.OpenAiPassesGate(cfg, cursor, source);
    var items := Feed(OpenAi.OpenAiDecoder(cfg), OpenAi.Start(cursor), [], source);
    if Adapters.NoError(items) && Undisturbed(o, idle, items) {
      GatedItemsAreDelivered(o, idle, cfg.ss.request.includeUsage, items);
    }
  }

  lemma AnthropicDelivered(ss: Session, cursor: nat, source: seq<Fragment>, o: Oracle, idle: nat)
    ensures var items := Feed(AnthropicTheorems.AnthropicDecoder(ss), Anthropic.Start(cursor), [], source);
            Adapters.NoError(items) && Undisturbed(o, idle, items) ==> DeliversAll(o, idle, ss.request.includeUsage, items)
  {
    AnthropicTheorems.AnthropicPassesGate(ss, cursor, source);
    var items := Feed(AnthropicTheorems.AnthropicDecoder(ss), Anthropic.Start(cursor), [], source);
    if Adapters.NoError(items) && Undisturbed(o, idle, items) {
      GatedItemsAreDelivered(o, idle, ss.request.includeUsage, items);
    }
  }

  lemma GeminiDelivered(ss: Session, cursor: nat, source: seq<Fragment>, o: Oracle, idle: nat)
    ensures var items := Feed(GeminiTheorems.GeminiDecoder(ss), Gemini.Start(cursor), [], source);
            Adapters.NoError(items) && Undisturbed(o, idle, items) ==> DeliversAll(o, idle, ss.request.includeUsage, items)
  {
    GeminiTheorems.GeminiPassesGate(ss, cursor, source);
    var items := Feed(GeminiTheorems.GeminiDecoder(ss), Gemini.Start(cursor), [], source);
    if Adapters.NoError(items) && Undisturbed(o, idle, items) {
      GatedItemsAreDelivered(o, idle, ss.request.includeUsage, items);
    }
  }
}
