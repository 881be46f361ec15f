/** `serialize_sse_chunk` of src/server.rs: the text it concatenates, and the JSON document
    that this text is whenever the literals it prints bare need no escape. */
module Serialize {
  import opened Wrappers
  import opened Json
  import opened Numerals
  import opened Response

  // ------------------------------------------------------------ the document

  function Opt(name: string, v: Option<JsonValue>): seq<Member> {
    if v.Some? then [Member(name, v.value)] else []
  }

  function AsJson(s: Option<string>): Option<JsonValue> {
    if s.Some? then Some(String(s.value)) else None
  }

  function OptString(name: string, s: Option<string>): seq<Member> {
    Opt(name, AsJson(s))
  }

  function IntJson(n: nat): JsonValue {
    Number(Decimal(n))
  }

  function FunctionFields(call: ToolCallDelta): seq<Member> {
    OptString("name", call.name) + OptString("arguments", call.arguments)
  }

  function FunctionJson(call: ToolCallDelta): Option<JsonValue> {
    if call.name.Some? || call.arguments.Some? then Some(Object(FunctionFields(call))) else None
  }

  function FunctionMember(call: ToolCallDelta): seq<Member> {
    Opt("function", FunctionJson(call))
  }

  function CallFields(call: ToolCallDelta): seq<Member> {
    [Member("index", IntJson(call.index))] + OptString("id", call.id) + OptString("type", call.kind) + FunctionMember(call)
  }

  function CallsJson(calls: seq<ToolCallDelta>): (r: seq<JsonValue>)
    ensures |r| == |calls|
    ensures forall i :: 0 <= i < |calls| ==> r[i] == Object(CallFields(calls[i]))
  {
    seq(|calls|, i requires 0 <= i < |calls| => Object(CallFields(calls[i])))
  }

  function CallsValue(calls: seq<ToolCallDelta>): Option<JsonValue> {
    if calls != [] then Some(Array(CallsJson(calls))) else None
  }

  function CallsMember(calls: seq<ToolCallDelta>): seq<Member> {
    Opt("tool_calls", CallsValue(calls))
  }

  function DeltaFields(delta: AssistantDelta): seq<Member> {
    OptString("role", delta.role) + OptString("content", delta.content) + CallsMember(delta.toolCalls)
  }

  function FinishJson(f: Option<FinishReason>): JsonValue {
    if f.Some? then String(FinishText(f.value)) else Null
  }

  function ChoiceFields(choice: ChunkChoice): seq<Member> {
    [Member("index", IntJson(choice.index)), Member("delta", Object(DeltaFields(choice.delta))),
     Member("finish_reason", FinishJson(choice.finishReason))]
  }

  function ChoicesJson(choices: seq<ChunkChoice>): (r: seq<JsonValue>)
    ensures |r| == |choices|
    ensures forall i :: 0 <= i < |choices| ==> r[i] == Object(ChoiceFields(choices[i]))
  {
    seq(|choices|, i requires 0 <= i < |choices| => Object(ChoiceFields(choices[i])))
  }

  function UsageFields(u: Usage): seq<Member> {
    [Member("prompt_tokens", IntJson(u.promptTokens)), Member("completion_tokens", IntJson(u.completionTokens)),
     Member("total_tokens", IntJson(u.totalTokens))]
  }

  function UsageValue(u: Option<Usage>): Option<JsonValue> {
    if u.Some? then Some(Object(UsageFields(u.value))) else None
  }

  function UsageMember(u: Option<Usage>): seq<Member> {
    Opt("usage", UsageValue(u))
  }

  function HeadFields(c: ChatChunk): seq<Member> {
    [Member("id", String(c.id)), Member("object", String(c.objectName)), Member("created", IntJson(c.created)),
     Member("model", String(c.model)), Member("choices", Array(ChoicesJson(c.choices)))]
  }

  function ChunkFields(c: ChatChunk): seq<Member> {
    HeadFields(c) + UsageMember(c.usage)
  }

  // ---------------------------------------------------------------- the text

  /** A member as it is pushed: a key and a text that is already printed. */
  datatype Piece = Piece(key: string, text: string)

  function Key(key: string): string {
    "\"" + key + "\":"
  }

  /** Members separated by commas. */
  function PiecesText(pieces: seq<Piece>): string {
    if pieces == [] then ""
    else Key(pieces[0].key) + pieces[0].text + if |pieces| == 1 then "" else "," + PiecesText(pieces[1..])
  }

  function ObjectOf(pieces: seq<Piece>): string {
    "{" + PiecesText(pieces) + "}"
  }

  function ListText(texts: seq<string>): string {
    if texts == [] then "" else texts[0] + if |texts| == 1 then "" else "," + ListText(texts[1..])
  }

  function ArrayOf(texts: seq<string>): string {
    "[" + ListText(texts) + "]"
  }

  /** Text between quotes as it stands. */
  function Bare(s: string): string {
    "\"" + s + "\""
  }

  function OptPiece(key: string, text: Option<string>): seq<Piece> {
    if text.Some? then [Piece(key, text.value)] else []
  }

  function Quoted(s: Option<string>): Option<string> {
    if s.Some? then Some(Quote(Server, s.value)) else None
  }

  function Bared(s: Option<string>): Option<string> {
    if s.Some? then Some(Bare(s.value)) else None
  }

  function FunctionPieces(call: ToolCallDelta): seq<Piece> {
    OptPiece("name", Quoted(call.name)) + OptPiece("arguments", Quoted(call.arguments))
  }

  function FunctionText(call: ToolCallDelta): Option<string> {
    if call.name.Some? || call.arguments.Some? then Some(ObjectOf(FunctionPieces(call))) else None
  }

  function CallPieces(call: ToolCallDelta): seq<Piece> {
    [Piece("index", Decimal(call.index))] + OptPiece("id", Quoted(call.id)) + OptPiece("type", Bared(call.kind))
    + OptPiece("function", FunctionText(call))
  }

  function CallTexts(calls: seq<ToolCallDelta>): (r: seq<string>)
    ensures |r| == |calls|
    ensures forall i :: 0 <= i < |calls| ==> r[i] == ObjectOf(CallPieces(calls[i]))
  {
    seq(|calls|, i requires 0 <= i < |calls| => ObjectOf(CallPieces(calls[i])))
  }

  function CallsText(calls: seq<ToolCallDelta>): Option<string> {
    if calls != [] then Some(ArrayOf(CallTexts(calls))) else None
  }

  function DeltaPieces(delta: AssistantDelta): seq<Piece> {
    OptPiece("role", Bared(delta.role)) + OptPiece("content", Quoted(delta.content)) + OptPiece("tool_calls", CallsText(delta.toolCalls))
  }

  function FinishPrinted(f: Option<FinishReason>): string {
    if f.Some? then Bare(FinishText(f.value)) else "null"
  }

  function ChoicePieces(choice: ChunkChoice): seq<Piece> {
    [Piece("index", Decimal(choice.index)), Piece("delta", ObjectOf(DeltaPieces(choice.delta))),
     Piece("finish_reason", FinishPrinted(choice.finishReason))]
  }

  function ChoiceTexts(choices: seq<ChunkChoice>): (r: seq<string>)
    ensures |r| == |choices|
    ensures forall i :: 0 <= i < |choices| ==> r[i] == ObjectOf(ChoicePieces(choices[i]))
  {
    seq(|choices|, i requires 0 <= i < |choices| => ObjectOf(ChoicePieces(choices[i])))
  }

  function UsagePieces(u: Usage): seq<Piece> {
    [Piece("prompt_tokens", Decimal(u.promptTokens)), Piece("completion_tokens", Decimal(u.completionTokens)),
     Piece("total_tokens", Decimal(u.totalTokens))]
  }

  function UsageText(u: Option<Usage>): Option<string> {
    if u.Some? then Some(ObjectOf(UsagePieces(u.value))) else None
  }

  function HeadPieces(c: ChatChunk): seq<Piece> {
    [Piece("id", Quote(Server, c.id)), Piece("object", Bare(c.objectName)), Piece("created", Decimal(c.created)),
     Piece("model", Quote(Server, c.model)), Piece("choices", ArrayOf(ChoiceTexts(c.choices)))]
  }

  function ChunkPieces(c: ChatChunk): seq<Piece> {
    HeadPieces(c) + OptPiece("usage", UsageText(c.usage))
  }

  /** One event: a data line and the blank line that ends it. */
  function EventText(payload: string): string {
    "data: " + payload + "\n\n"
  }

  function ChunkText(c: ChatChunk): string {
    EventText(ObjectOf(ChunkPieces(c)))
  }

  const DONE_TEXT: string := EventText("[DONE]")

  /** No chunk is ever mistaken for the end of the stream. */
  lemma ChunkIsNotDone(c: ChatChunk)
    ensures ChunkText(c) != DONE_TEXT
  {
    assert ChunkText(c)[6] == '{' && DONE_TEXT[6] == '[';
  }

  // --------------------------------------------------- the text as a document

  predicate SafeChar(c: char) {
    ' ' <= c <= '~' && c != '\"' && c != '\\'
  }

  /** Needs no escape. */
  predicate Safe(s: string) {
    forall i :: 0 <= i < |s| ==> SafeChar(s[i])
  }

  /** The static strings of a chunk, which are printed bare, need no escape. */
  ghost predicate SafeLiterals(c: ChatChunk) {
    && Safe(c.objectName)
    && forall i :: 0 <= i < |c.choices| ==> SafeDelta(c.choices[i].delta)
  }

  ghost predicate SafeDelta(delta: AssistantDelta) {
    && (delta.role.Some? ==> Safe(delta.role.value))
    && forall i :: 0 <= i < |delta.toolCalls| ==> SafeCall(delta.toolCalls[i])
  }

  ghost predicate SafeCall(call: ToolCallDelta) {
    call.kind.Some? ==> Safe(call.kind.value)
  }

  lemma {:induction false} SafeEscape(s: string)
    requires Safe(s)
    ensures Escape(Server, s) == s
  {
    if s != "" {
      SafeEscape(s[1..]);
      assert [s[0]] + s[1..] == s;
    }
  }

  lemma SafeQuote(s: string)
    requires Safe(s)
    ensures Bare(s) == Quote(Server, s)
  {
    SafeEscape(s);
  }

  /** One member printed two ways. */
  ghost predicate PrintsOne(piece: Piece, f: Member) {
    piece.key == f.key && Safe(f.key) && piece.text == Encode(Server, f.value)
  }

  ghost predicate Prints(pieces: seq<Piece>, fields: seq<Member>) {
    |pieces| == |fields| && forall i :: 0 <= i < |pieces| ==> PrintsOne(pieces[i], fields[i])
  }

  lemma OnePrints(piece: Piece, f: Member)
    requires PrintsOne(piece, f)
    ensures Key(piece.key) + piece.text == EncodeField(Server, f)
  {
    SafeEscape(f.key);
    assert "\"" + f.key + "\"" + ":" == "\"" + f.key + "\":";
  }

  lemma {:induction false} PiecesPrint(pieces: seq<Piece>, fields: seq<Member>)
    requires Prints(pieces, fields)
    ensures PiecesText(pieces) == EncodeFields(Server, fields)
    decreases |pieces|
  {
    if pieces != [] {
      OnePrints(pieces[0], fields[0]);
      assert Prints(pieces[1..], fields[1..]);
      PiecesPrint(pieces[1..], fields[1..]);
    }
  }

  lemma ObjectPrints(pieces: seq<Piece>, fields: seq<Member>)
    requires Prints(pieces, fields)
    ensures ObjectOf(pieces) == Encode(Server, Object(fields))
  {
    PiecesPrint(pieces, fields);
  }

  lemma {:induction false} ListPrints(texts: seq<string>, items: seq<JsonValue>)
    requires |texts| == |items| && forall i :: 0 <= i < |texts| ==> texts[i] == Encode(Server, items[i])
    ensures ListText(texts) == EncodeItems(Server, items)
    decreases |texts|
  {
    if texts != [] {
      ListPrints(texts[1..], items[1..]);
    }
  }

  lemma OptPrints(key: string, text: Option<string>, v: Option<JsonValue>)
    requires Safe(key) && (text.Some? <==> v.Some?) && (text.Some? ==> text.value == Encode(Server, v.value))
    ensures Prints(OptPiece(key, text), Opt(key, v))
  {
  }

  lemma PrintsConcat(a: seq<Piece>, fa: seq<Member>, b: seq<Piece>, fb: seq<Member>)
    requires Prints(a, fa) && Prints(b, fb)
    ensures Prints(a + b, fa + fb)
  {
  }

  lemma SafeKeys()
    ensures Safe("name") && Safe("arguments")
    ensures Safe("index") && Safe("id") && Safe("type") && Safe("function")
    ensures Safe("role") && Safe("content") && Safe("tool_calls")
    ensures Safe("delta") && Safe("finish_reason") && Safe("usage")
  {
  }

  lemma SafeHeadKeys()
    ensures Safe("id") && Safe("object") && Safe("created") && Safe("model") && Safe("choices")
    ensures Safe("prompt_tokens") && Safe("completion_tokens") && Safe("total_tokens")
  {
  }

  lemma FunctionPrints(call: ToolCallDelta)
    ensures ObjectOf(FunctionPieces(call)) == Encode(Server, Object(FunctionFields(call)))
  {
    SafeKeys();
    OptPrints("name", Quoted(call.name), AsJson(call.name));
    OptPrints("arguments", Quoted(call.arguments), AsJson(call.arguments));
    PrintsConcat(OptPiece("name", Quoted(call.name)), OptString("name", call.name),
                 OptPiece("arguments", Quoted(call.arguments)), OptString("arguments", call.arguments));
    ObjectPrints(FunctionPieces(call), FunctionFields(call));
  }

  lemma CallPrints(call: ToolCallDelta)
    requires SafeCall(call)
    ensures ObjectOf(CallPieces(call)) == Encode(Server, Object(CallFields(call)))
  {
    SafeKeys();
    FunctionPrints(call);
    if call.kind.Some? {
      SafeQuote(call.kind.value);
    }
    var index, indexJson := [Piece("index", Decimal(call.index))], [Member("index", IntJson(call.index))];
    OptPrints("id", Quoted(call.id), AsJson(call.id));
    OptPrints("type", Bared(call.kind), AsJson(call.kind));
    OptPrints("function", FunctionText(call), FunctionJson(call));
    PrintsConcat(index, indexJson, OptPiece("id", Quoted(call.id)), OptString("id", call.id));
    PrintsConcat(index + OptPiece("id", Quoted(call.id)), indexJson + OptString("id", call.id),
                 OptPiece("type", Bared(call.kind)), OptString("type", call.kind));
    PrintsConcat(index + OptPiece("id", Quoted(call.id)) + OptPiece("type", Bared(call.kind)),
                 indexJson + OptString("id", call.id) + OptString("type", call.kind),
                 OptPiece("function", FunctionText(call)), FunctionMember(call));
    ObjectPrints(CallPieces(call), CallFields(call));
  }

  lemma CallsPrint(calls: seq<ToolCallDelta>)
    requires forall i :: 0 <= i < |calls| ==> SafeCall(calls[i])
    ensures ArrayOf(CallTexts(calls)) == Encode(Server, Array(CallsJson(calls)))
  {
    forall i | 0 <= i < |calls| ensures CallTexts(calls)[i] == Encode(Server, CallsJson(calls)[i]) {
      CallPrints(calls[i]);
    }
    ListPrints(CallTexts(calls), CallsJson(calls));
  }

  lemma DeltaPrints(delta: AssistantDelta)
    requires SafeDelta(delta)
    ensures ObjectOf(DeltaPieces(delta)) == Encode(Server, Object(DeltaFields(delta)))
  {
    SafeKeys();
    CallsPrint(delta.toolCalls);
    if delta.role.Some? {
      SafeQuote(delta.role.value);
    }
    OptPrints("role", Bared(delta.role), AsJson(delta.role));
    OptPrints("content", Quoted(delta.content), AsJson(delta.content));
    OptPrints("tool_calls", CallsText(delta.toolCalls), CallsValue(delta.toolCalls));
    PrintsConcat(OptPiece("role", Bared(delta.role)), OptString("role", delta.role),
                 OptPiece("content", Quoted(delta.content)), OptString("content", delta.content));
    PrintsConcat(OptPiece("role", Bared(delta.role)) + OptPiece("content", Quoted(delta.content)),
                 OptString("role", delta.role) + OptString("content", delta.content),
                 OptPiece("tool_calls", CallsText(delta.toolCalls)), CallsMember(delta.toolCalls));
    ObjectPrints(DeltaPieces(delta), DeltaFields(delta));
  }

  lemma FinishPrints(f: Option<FinishReason>)
    ensures FinishPrinted(f) == Encode(Server, FinishJson(f))
  {
    if f.Some? {
      SafeFinish(f.value);
      SafeQuote(FinishText(f.value));
    }
  }

  lemma SafeFinish(f: FinishReason)
    ensures Safe(FinishText(f))
  {
  }

  lemma ChoicePrints(choice: ChunkChoice)
    requires SafeDelta(choice.delta)
    ensures ObjectOf(ChoicePieces(choice)) == Encode(Server, Object(ChoiceFields(choice)))
  {
    SafeKeys();
    DeltaPrints(choice.delta);
    FinishPrints(choice.finishReason);
    ObjectPrints(ChoicePieces(choice), ChoiceFields(choice));
  }

  lemma ChoicesPrint(choices: seq<ChunkChoice>)
    requires forall i :: 0 <= i < |choices| ==> SafeDelta(choices[i].delta)
    ensures ArrayOf(ChoiceTexts(choices)) == Encode(Server, Array(ChoicesJson(choices)))
  {
    forall i | 0 <= i < |choices| ensures ChoiceTexts(choices)[i] == Encode(Server, ChoicesJson(choices)[i]) {
      ChoicePrints(choices[i]);
    }
    ListPrints(ChoiceTexts(choices), ChoicesJson(choices));
  }

  lemma UsagePrints(u: Usage)
    ensures ObjectOf(UsagePieces(u)) == Encode(Server, Object(UsageFields(u)))
  {
    SafeHeadKeys();
    ObjectPrints(UsagePieces(u), UsageFields(u));
  }

  lemma HeadPrints(c: ChatChunk)
    requires SafeLiterals(c)
    ensures Prints(HeadPieces(c), HeadFields(c))
  {
    SafeHeadKeys();
    SafeQuote(c.objectName);
    ChoicesPrint(c.choices);
    FivePrint(HeadPieces(c), HeadFields(c));
  }

  lemma FivePrint(pieces: seq<Piece>, fields: seq<Member>)
    requires |pieces| == |fields| == 5
    requires PrintsOne(pieces[0], fields[0]) && PrintsOne(pieces[1], fields[1]) && PrintsOne(pieces[2], fields[2])
    requires PrintsOne(pieces[3], fields[3]) && PrintsOne(pieces[4], fields[4])
    ensures Prints(pieces, fields)
  {
  }

  /** The text is, character for character, the printed JSON document of the chunk. */
  lemma ChunkIsDocument(c: ChatChunk)
    requires SafeLiterals(c)
    ensures ChunkText(c) == EventText(Encode(Server, Object(ChunkFields(c))))
  {
    SafeKeys();
    HeadPrints(c);
    if c.usage.Some? {
      UsagePrints(c.usage.value);
    }
    OptPrints("usage", UsageText(c.usage), UsageValue(c.usage));
    PrintsConcat(HeadPieces(c), HeadFields(c), OptPiece("usage", UsageText(c.usage)), UsageMember(c.usage));
    ObjectPrints(ChunkPieces(c), ChunkFields(c));
  }

  // ------------------------------------------------------------ the printer

  lemma {:induction false} PiecesTextSnoc(pieces: seq<Piece>, piece: Piece)
    ensures PiecesText(pieces + [piece])
         == if pieces == [] then Key(piece.key) + piece.text else PiecesText(pieces) + "," + (Key(piece.key) + piece.text)
    decreases |pieces|
  {
    if pieces == [] {
      assert pieces + [piece] == [piece];
    } else {
      assert (pieces + [piece])[1..] == pieces[1..] + [piece];
      PiecesTextSnoc(pieces[1..], piece);
    }
  }

  lemma {:induction false} ListTextSnoc(texts: seq<string>, text: string)
    ensures ListText(texts + [text]) == if texts == [] then text else ListText(texts) + "," + text
    decreases |texts|
  {
    if texts == [] {
      assert texts + [text] == [text];
    } else {
      assert (texts + [text])[1..] == texts[1..] + [text];
      ListTextSnoc(texts[1..], text);
    }
  }

  lemma ListTextNext(texts: seq<string>, i: nat)
    requires i < |texts|
    ensures ListText(texts[..i + 1]) == if i == 0 then texts[0] else ListText(texts[..i]) + "," + texts[i]
  {
    ListTextSnoc(texts[..i], texts[i]);
    assert texts[..i + 1] == texts[..i] + [texts[i]];
  }

  /** Append a member if there is one: a first member needs no comma, a later one does. */
  method PushOptional(body: string, key: string, text: Option<string>, needsComma: bool, ghost pieces: seq<Piece>)
    returns (r: string, comma: bool, ghost all: seq<Piece>)
    requires body == PiecesText(pieces) && (needsComma <==> pieces != [])
    ensures r == PiecesText(all) && all == pieces + OptPiece(key, text) && (comma <==> all != [])
  {
    r, comma, all := body, needsComma, pieces + OptPiece(key, text);
    if text.Some? {
      PiecesTextSnoc(pieces, Piece(key, text.value));
      r := if needsComma then body + "," + (Key(key) + text.value) else Key(key) + text.value;
      comma := true;
    } else {
      assert all == pieces;
    }
  }

  method SerializeFunction(call: ToolCallDelta) returns (body: string)
    ensures body == ObjectOf(FunctionPieces(call))
  {
    var comma;
    ghost var pieces;
    body, comma, pieces := PushOptional("", "name", Quoted(call.name), false, []);
    body, comma, pieces := PushOptional(body, "arguments", Quoted(call.arguments), comma, pieces);
    assert pieces == FunctionPieces(call);
    body := "{" + body + "}";
  }

  method SerializeCall(call: ToolCallDelta) returns (body: string)
    ensures body == ObjectOf(CallPieces(call))
  {
    var function_ := None;
    if call.name.Some? || call.arguments.Some? {
      var text := SerializeFunction(call);
      function_ := Some(text);
    }
    var comma;
    ghost var pieces;
    body, comma, pieces := PushOptional("", "index", Some(Decimal(call.index)), false, []);
    body, comma, pieces := PushOptional(body, "id", Quoted(call.id), comma, pieces);
    body, comma, pieces := PushOptional(body, "type", Bared(call.kind), comma, pieces);
    body, comma, pieces := PushOptional(body, "function", function_, comma, pieces);
    assert pieces == CallPieces(call);
    body := "{" + body + "}";
  }

  method SerializeCalls(calls: seq<ToolCallDelta>) returns (body: string)
    ensures body == ArrayOf(CallTexts(calls))
  {
    body := "";
    ghost var texts := CallTexts(calls);
    for i := 0 to |calls|
      invariant body == ListText(texts[..i])
    {
      var text := SerializeCall(calls[i]);
      ListTextNext(texts, i);
      body := if i != 0 then body + "," + text else text;
    }
    assert texts[..|calls|] == texts;
    body := "[" + body + "]";
  }

  method SerializeDelta(delta: AssistantDelta) returns (body: string)
    ensures body == ObjectOf(DeltaPieces(delta))
  {
    var calls := None;
    if delta.toolCalls != [] {
      var text := SerializeCalls(delta.toolCalls);
      calls := Some(text);
    }
    var comma;
    ghost var pieces;
    body, comma, pieces := PushOptional("", "role", Bared(delta.role), false, []);
    body, comma, pieces := PushOptional(body, "content", Quoted(delta.content), comma, pieces);
    body, comma, pieces := PushOptional(body, "tool_calls", calls, comma, pieces);
    assert pieces == DeltaPieces(delta);
    body := "{" + body + "}";
  }

  method SerializeChoice(choice: ChunkChoice) returns (body: string)
    ensures body == ObjectOf(ChoicePieces(choice))
  {
    var delta := SerializeDelta(choice.delta);
    var comma;
    ghost var pieces;
    body, comma, pieces := PushOptional("", "index", Some(Decimal(choice.index)), false, []);
    body, comma, pieces := PushOptional(body, "delta", Some(delta), comma, pieces);
    body, comma, pieces := PushOptional(body, "finish_reason", Some(FinishPrinted(choice.finishReason)), comma, pieces);
    assert pieces == ChoicePieces(choice);
    body := "{" + body + "}";
  }

  method SerializeChoices(choices: seq<ChunkChoice>) returns (body: string)
    ensures body == ArrayOf(ChoiceTexts(choices))
  {
    body := "";
    ghost var texts := ChoiceTexts(choices);
    for i := 0 to |choices|
      invariant body == ListText(texts[..i])
    {
      var text := SerializeChoice(choices[i]);
      ListTextNext(texts, i);
      body := if i != 0 then body + "," + text else text;
    }
    assert texts[..|choices|] == texts;
    body := "[" + body + "]";
  }

  method SerializeUsage(usage: Usage) returns (body: string)
    ensures body == ObjectOf(UsagePieces(usage))
  {
    var comma;
    ghost var pieces;
    body, comma, pieces := PushOptional("", "prompt_tokens", Some(Decimal(usage.promptTokens)), false, []);
    body, comma, pieces := PushOptional(body, "completion_tokens", Some(Decimal(usage.completionTokens)), comma, pieces);
    body, comma, pieces := PushOptional(body, "total_tokens", Some(Decimal(usage.totalTokens)), comma, pieces);
    assert pieces == UsagePieces(usage);
    body := "{" + body + "}";
  }

  method SerializeHead(c: ChatChunk) returns (body: string)
    ensures body == PiecesText(HeadPieces(c))
  {
    var choices := SerializeChoices(c.choices);
    var comma;
    ghost var pieces;
    body, comma, pieces := PushOptional("", "id", Some(Quote(Server, c.id)), false, []);
    body, comma, pieces := PushOptional(body, "object", Some(Bare(c.objectName)), comma, pieces);
    body, comma, pieces := PushOptional(body, "created", Some(Decimal(c.created)), comma, pieces);
    body, comma, pieces := PushOptional(body, "model", Some(Quote(Server, c.model)), comma, pieces);
    body, comma, pieces := PushOptional(body, "choices", Some(choices), comma, pieces);
    HeadInOrder(c);
  }

  lemma HeadInOrder(c: ChatChunk)
    ensures [] + OptPiece("id", Some(Quote(Server, c.id))) + OptPiece("object", Some(Bare(c.objectName)))
              + OptPiece("created", Some(Decimal(c.created))) + OptPiece("model", Some(Quote(Server, c.model)))
              + OptPiece("choices", Some(ArrayOf(ChoiceTexts(c.choices)))) == HeadPieces(c)
  {
  }

  /** The event of a chunk, whatever the chunk. */
  method SerializeSseChunk(c: ChatChunk) returns (body: string)
    ensures body == ChunkText(c)
  {
    var usage := None;
    if c.usage.Some? {
      var text := SerializeUsage(c.usage.value);
      usage := Some(text);
    }
    body := SerializeHead(c);
    var comma;
    ghost var pieces;
    body, comma, pieces := PushOptional(body, "usage", usage, true, HeadPieces(c));
    body := EventText("{" + body + "}");
  }
}
