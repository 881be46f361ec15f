/** Whole-run properties of the Gemini decoder: call indices, native IDs and the
    assembler never come apart, and the gate lets the output through. */
module GeminiTheorems {
  import opened Wrappers
  import opened Json
  import opened Utf8
  import opened Response
  import opened Assembler
  import opened Gate
  import opened Sse
  import opened Access
  import opened Adapters
  import opened Gemini

  // ------------------------------------------------------------ correlation

  /** A native ID's record and the assembler's call at its index are the same call; if
      the assembler kept a native ID there, it is this one. */
  ghost predicate CallMatches(id: string, g: GeminiCall, calls: seq<PartialCall>) {
    && id != "" && g.index < |calls|
    && calls[g.index].name == g.name
    && (calls[g.index].preserved ==> calls[g.index].id == id)
  }

  ghost predicate TableMatches(table: map<string, GeminiCall>, calls: seq<PartialCall>) {
    && (forall id :: id in table ==> CallMatches(id, table[id], calls))
    && (forall a, b :: a in table && b in table && a != b ==> table[a].index != table[b].index)
  }

  ghost predicate NamesDeclared(request: CanonicalRequest, calls: seq<PartialCall>) {
    forall c :: 0 <= c < |calls| ==> calls[c].name in DeclaredTools(request) && calls[c].name != ""
  }

  /** What every reachable state satisfies at event boundaries. */
  ghost predicate Correlated(request: CanonicalRequest, d: GeminiState) {
    && d.nextCall == |d.asm.calls|
    && TableMatches(d.nativeCalls, d.asm.calls)
    && d.ambiguous <= d.nativeCalls.Keys
    && NamesDeclared(request, d.asm.calls)
    && (d.asm.terminal ==> d.done)
    && |d.data| <= MAX_SSE_EVENT_BYTES
  }

  lemma StartCorrelated(request: CanonicalRequest, cursor: nat)
    ensures Correlated(request, Start(cursor))
  {
  }

  /** While an event is being read: the parts built so far are acceptable to the
      assembler, and the tables describe the calls it will then have. */
  ghost predicate ScanInv(ss: Session, st: State, sc: Scan) {
    var r := AcceptParts(ss.ids, st, sc.toolCalls);
    && r.Ok?
    && sc.nextCall == |r.value.state.calls|
    && TableMatches(sc.calls, r.value.state.calls)
    && sc.ambiguous <= sc.calls.Keys && sc.eventIds <= sc.calls.Keys
    && NamesDeclared(ss.request, r.value.state.calls)
    && forall i :: 0 <= i < |sc.toolCalls| ==> sc.toolCalls[i].index < sc.nextCall
  }

  lemma {:induction false} AcceptPartsSnoc(ids: IdSource, st: State, parts: seq<ToolCallDelta>, last: ToolCallDelta)
    requires AcceptParts(ids, st, parts).Ok?
    ensures var mid := AcceptParts(ids, st, parts).value.state;
            match AcceptPart(ids, mid, last)
            case Err(e) => AcceptParts(ids, st, parts + [last]).Err?
            case Ok((st', _)) => AcceptParts(ids, st, parts + [last]).Ok? && AcceptParts(ids, st, parts + [last]).value.state == st'
    decreases |parts|
  {
    if parts == [] {
      assert parts + [last] == [last] && [last][1..] == [];
    } else {
      assert (parts + [last])[0] == parts[0] && (parts + [last])[1..] == parts[1..] + [last];
      AcceptPartsSnoc(ids, AcceptPart(ids, st, parts[0]).value.0, parts[1..], last);
    }
  }

  /** The assembler's view of a new call. */
  lemma NewCallAccepted(ids: IdSource, st: State, id: Option<string>, name: string, arguments: string)
    ensures var part := ToolCallDelta(|st.calls|, id, Some("function"), Some(name), Some(arguments));
            var r := AcceptPart(ids, st, part);
            && r.Ok? && |r.value.0.calls| == |st.calls| + 1 && r.value.0.calls[..|st.calls|] == st.calls
            && r.value.0.calls[|st.calls|].name == name
            && (r.value.0.calls[|st.calls|].preserved ==> id == Some(r.value.0.calls[|st.calls|].id))
  {
    assert "" + name == name;
  }

  lemma NewCallKeeps(ss: Session, st: State, sc: Scan, id: Option<string>, name: string, arguments: string)
    requires ScanInv(ss, st, sc) && CallAllowed(ss.request, name)
    ensures var sc' := NewCall(sc, id, name, arguments);
            var mid := AcceptParts(ss.ids, st, sc.toolCalls).value.state;
            var r := AcceptParts(ss.ids, st, sc'.toolCalls);
            && r.Ok? && ScanInv(ss, st, sc')
            && |r.value.state.calls| == sc.nextCall + 1
            && r.value.state.calls[..sc.nextCall] == mid.calls
            && r.value.state.calls[sc.nextCall].name == name
            && (r.value.state.calls[sc.nextCall].preserved ==> id == Some(r.value.state.calls[sc.nextCall].id))
  {
    var sc' := NewCall(sc, id, name, arguments);
    var mid := AcceptParts(ss.ids, st, sc.toolCalls).value.state;
    var part := ToolCallDelta(sc.nextCall, id, Some("function"), Some(name), Some(arguments));
    NewCallAccepted(ss.ids, mid, id, name, arguments);
    AcceptPartsSnoc(ss.ids, st, sc.toolCalls, part);
    var calls := AcceptParts(ss.ids, st, sc'.toolCalls).value.state.calls;
    GrownTableMatches(sc.calls, mid.calls, calls);
    forall c | 0 <= c < |calls| ensures calls[c].name in DeclaredTools(ss.request) && calls[c].name != "" {
      if c < sc.nextCall {
        assert calls[c] == mid.calls[c];
      }
    }
  }

  lemma GrownTableMatches(table: map<string, GeminiCall>, calls: seq<PartialCall>, grown: seq<PartialCall>)
    requires TableMatches(table, calls) && |calls| <= |grown| && grown[..|calls|] == calls
    ensures TableMatches(table, grown)
  {
    forall id | id in table ensures CallMatches(id, table[id], grown) {
      assert CallMatches(id, table[id], calls);
      assert grown[table[id].index] == calls[table[id].index];
    }
  }

  /** A repeated ID from an earlier event extends its call and is never refused. */
  lemma ExistingCallKeeps(ss: Session, st: State, sc: Scan, id: string, arguments: string)
    requires ScanInv(ss, st, sc) && id in sc.calls
    ensures var part := ToolCallDelta(sc.calls[id].index, Some(id), None, None, Some(arguments));
            ScanInv(ss, st, sc.(toolCalls := sc.toolCalls + [part]))
  {
    var part := ToolCallDelta(sc.calls[id].index, Some(id), None, None, Some(arguments));
    var mid := AcceptParts(ss.ids, st, sc.toolCalls).value.state;
    assert CallMatches(id, sc.calls[id], mid.calls);
    assert AcceptPart(ss.ids, mid, part).Ok?;
    AcceptPartsSnoc(ss.ids, st, sc.toolCalls, part);
    var calls := AcceptParts(ss.ids, st, sc.toolCalls + [part]).value.state.calls;
    assert mid.calls[part.index].name + "" == mid.calls[part.index].name;
    assert forall c :: 0 <= c < |calls| ==>
      calls[c].name == mid.calls[c].name && calls[c].preserved == mid.calls[c].preserved && calls[c].id == mid.calls[c].id;
    forall k | k in sc.calls ensures CallMatches(k, sc.calls[k], calls) {
      assert CallMatches(k, sc.calls[k], mid.calls);
    }
  }

  lemma TakeCallKeeps(ss: Session, st: State, sc: Scan, id: Option<string>, name: string, arguments: string)
    requires ScanInv(ss, st, sc) && CallAllowed(ss.request, name) && id != Some("")
    requires TakeCall(sc, id, name, arguments).Some?
    ensures ScanInv(ss, st, TakeCall(sc, id, name, arguments).value)
  {
    if id.None? || id.value in sc.eventIds {
      NewCallKeeps(ss, st, sc, None, name, arguments);
    } else if id.value in sc.calls {
      ExistingCallKeeps(ss, st, sc, id.value, arguments);
    } else {
      NewCallKeeps(ss, st, sc, id, name, arguments);
      var sc' := TakeCall(sc, id, name, arguments).value;
      var calls := AcceptParts(ss.ids, st, sc'.toolCalls).value.state.calls;
      assert CallMatches(id.value, sc'.calls[id.value], calls);
      forall k | k in sc.calls ensures sc.calls[k].index < sc.nextCall {
        assert CallMatches(k, sc.calls[k], AcceptParts(ss.ids, st, sc.toolCalls).value.state.calls);
      }
    }
  }

  lemma {:induction false} ScanPartsKeeps(ss: Session, st: State, sc: Scan, parts: seq<JsonValue>)
    requires ScanInv(ss, st, sc) && ScanParts(ss.request, sc, parts).Some?
    ensures ScanInv(ss, st, ScanParts(ss.request, sc, parts).value)
    decreases |parts|
  {
    if parts != [] {
      ScanPartKeeps(ss, st, sc, parts[0]);
      ScanPartsKeeps(ss, st, ScanPart(ss.request, sc, parts[0]).value, parts[1..]);
    }
  }

  lemma ScanPartKeeps(ss: Session, st: State, sc: Scan, v: JsonValue)
    requires ScanInv(ss, st, sc) && ScanPart(ss.request, sc, v).Some?
    ensures ScanInv(ss, st, ScanPart(ss.request, sc, v).value)
  {
    var part := AsObject(v).value;
    if Field(part, "text").None? {
      var call := AsObject(Field(part, "functionCall").value).value;
      var id, name, args := NativeId(call).value, RequiredString(call, "name").value, RequiredObject(call, "args").value;
      TakeCallKeeps(ss, st, sc, id, name, Encode(Native, Object(args)));
    }
  }

  /** The assembler accepts every tool-call delta the decoder builds: the errors for a
      changed ID or an index out of order cannot occur. */
  lemma ContentAccepted(ss: Session, d: GeminiState, v: JsonValue)
    requires Correlated(ss.request, d) && Content(ss.request, d, v).Some?
    ensures ScanInv(ss, d.asm, Content(ss.request, d, v).value)
  {
    var content := AsObject(v).value;
    ScanPartsKeeps(ss, d.asm, NewScan(d), RequiredArray(content, "parts").value);
  }

  /** So an event without a finish reason is never refused by the assembler. */
  lemma OrdinaryContentNeverRefused(ss: Session, d: GeminiState, v: JsonValue)
    requires Correlated(ss.request, d) && !d.done && Content(ss.request, d, v).Some?
    ensures PushScan(ss, d, Content(ss.request, d, v).value, None).Next?
  {
    ContentAccepted(ss, d, v);
  }

  // ------------------------------------------------------------ preservation

  lemma PushCalls(ss: Session, st: State, delta: AssistantDelta, terminal: Option<NativeTerminal>)
    requires Push(ss, st, 0, delta, terminal).Ok?
    ensures AcceptParts(ss.ids, st, delta.toolCalls).Ok?
    ensures var p := Push(ss, st, 0, delta, terminal).value;
            && p.state.calls == AcceptParts(ss.ids, st, delta.toolCalls).value.state.calls
            && (p.state.terminal ==> terminal.Some?)
  {
    AcceptKeepsFlags(ss.ids, st, delta.toolCalls);
  }

  lemma PushDeltaKeeps(ss: Session, d: GeminiState, delta: AssistantDelta, terminal: Option<NativeTerminal>)
    requires PushDelta(ss, d, delta, terminal).Next?
    requires AcceptParts(ss.ids, d.asm, delta.toolCalls).Ok? ==>
               Correlated(ss.request, d.(done := true, asm := AcceptParts(ss.ids, d.asm, delta.toolCalls).value.state))
    ensures Correlated(ss.request, PushDelta(ss, d, delta, terminal).state)
  {
    PushCalls(ss, d.asm, delta, terminal);
  }

  lemma CandidateKeeps(ss: Session, d: GeminiState, v: JsonValue)
    requires Correlated(ss.request, d) && !d.done && Candidate(ss, d, v).Next?
    ensures Correlated(ss.request, Candidate(ss, d, v).state)
  {
    var candidate := AsObject(v).value;
    var terminal := CandidateTerminal(candidate).value;
    if Field(candidate, "content").None? {
      PushDeltaKeeps(ss, d, EMPTY_DELTA, terminal);
    } else {
      var content := Field(candidate, "content").value;
      ContentAccepted(ss, d, content);
      var sc := Content(ss.request, d, content).value;
      var d' := d.(nativeCalls := sc.calls, ambiguous := sc.ambiguous, nextCall := sc.nextCall);
      PushDeltaKeeps(ss, d', AssistantDelta(None, sc.content, sc.toolCalls), terminal);
    }
  }

  lemma RootKeeps(ss: Session, d: GeminiState, root: seq<Member>)
    requires Correlated(ss.request, d)
    ensures var step := DispatchRoot(ss, d, root); step.Next? ==> Correlated(ss.request, step.state)
  {
    if !d.done && DispatchRoot(ss, d, root).Next? {
      match Field(root, "candidates") {
        case Some(Array(candidates)) =>
          if |candidates| == 1 {
            CandidateKeeps(ss, d, candidates[0]);
          } else {
            PushDeltaKeeps(ss, d, EMPTY_DELTA, Some(NContentFilter));
          }
        case _ =>
          if Field(root, "usageMetadata").None? {
            PushDeltaKeeps(ss, d, EMPTY_DELTA, Some(NContentFilter));
          }
      }
    }
  }

  lemma LineCorrelated(ss: Session, d: GeminiState, raw: seq<byte>)
    requires Correlated(ss.request, d)
    ensures var step := Line(ss, d, raw); step.Next? ==> Correlated(ss.request, step.state)
  {
    if StripCr(raw) == [] && d.data != [] && DecodePayload(d.data).Some? {
      var root := DecodePayload(d.data).value;
      var d1 := CaptureUsage(d.(data := []), root);
      assert Correlated(ss.request, d1);
      RootKeeps(ss, d1, root);
    }
  }

  // ------------------------------------------------------------ native IDs over a run

  /** Records are never dropped or changed, and an ambiguous ID stays ambiguous. */
  ghost predicate Grows(d: GeminiState, d': GeminiState) {
    && (forall id :: id in d.nativeCalls ==> id in d'.nativeCalls && d'.nativeCalls[id] == d.nativeCalls[id])
    && d.ambiguous <= d'.ambiguous
    && d.nextCall <= d'.nextCall
  }

  ghost predicate ScanGrows(sc: Scan, sc': Scan) {
    && (forall id :: id in sc.calls ==> id in sc'.calls && sc'.calls[id] == sc.calls[id])
    && sc.ambiguous <= sc'.ambiguous
    && sc.nextCall <= sc'.nextCall
    && sc.eventIds <= sc'.eventIds && sc.toolCalls <= sc'.toolCalls
  }

  lemma {:induction false} ScanPartsGrow(request: CanonicalRequest, sc: Scan, parts: seq<JsonValue>)
    requires ScanParts(request, sc, parts).Some?
    ensures ScanGrows(sc, ScanParts(request, sc, parts).value)
    decreases |parts|
  {
    if parts != [] {
      ScanPartsGrow(request, ScanPart(request, sc, parts[0]).value, parts[1..]);
    }
  }

  lemma RootGrows(ss: Session, d: GeminiState, root: seq<Member>)
    ensures var step := DispatchRoot(ss, d, root); step.Next? ==> Grows(d, step.state)
  {
    match Field(root, "candidates") {
      case Some(Array(candidates)) =>
        if |candidates| == 1 {
          CandidateGrows(ss, d, candidates[0]);
        }
      case _ =>
    }
  }

  lemma LineGrows(ss: Session, d: GeminiState, raw: seq<byte>)
    ensures var step := Line(ss, d, raw); step.Next? ==> Grows(d, step.state)
  {
    if StripCr(raw) == [] && d.data != [] && DecodePayload(d.data).Some? {
      var root := DecodePayload(d.data).value;
      RootGrows(ss, CaptureUsage(d.(data := []), root), root);
    }
  }

  lemma CandidateGrows(ss: Session, d: GeminiState, v: JsonValue)
    ensures var step := Candidate(ss, d, v); step.Next? ==> Grows(d, step.state)
  {
    if Candidate(ss, d, v).Next? && Field(AsObject(v).value, "content").Some? {
      var content := AsObject(Field(AsObject(v).value, "content").value).value;
      ScanPartsGrow(ss.request, NewScan(d), RequiredArray(content, "parts").value);
    }
  }

  lemma GrowsOn(a: GeminiState, b: GeminiState, c: GeminiState)
    requires Grows(a, b) && Grows(b, c)
    ensures Grows(a, c)
  {
  }

  function GeminiDecoder(ss: Session): Decoder<GeminiState> {
    Decoder((d: GeminiState, raw: seq<byte>) => Line(ss, d, raw), (d: GeminiState) => End(ss, d))
  }

  /** Over any run: the index counter equals the assembler's count, a native ID keeps
      the one index and name it was first given, and distinct IDs have distinct indices. */
  lemma RunStaysCorrelated(ss: Session, d: GeminiState, b: seq<byte>)
    requires Correlated(ss.request, d) && ReadLines(GeminiDecoder(ss), d, b).Alive?
    ensures var d' := ReadLines(GeminiDecoder(ss), d, b).state;
            Correlated(ss.request, d') && Grows(d, d')
  {
    var decoder := GeminiDecoder(ss);
    var inv := (x: GeminiState) => Correlated(ss.request, x) && Grows(d, x);
    forall x: GeminiState, line: seq<byte> | inv(x) && decoder.line(x, line).Next?
      ensures inv(decoder.line(x, line).state)
    {
      LineCorrelated(ss, x, line);
      LineGrows(ss, x, line);
      GrowsOn(d, x, Line(ss, x, line).state);
    }
    ReadLinesKeeps(decoder, inv, d, b);
  }

  /** So from the start of any stream: after whatever lines were accepted, the correlation holds. */
  lemma EveryRunIsCorrelated(ss: Session, cursor: nat, b: seq<byte>)
    requires ReadLines(GeminiDecoder(ss), Start(cursor), b).Alive?
    ensures Correlated(ss.request, ReadLines(GeminiDecoder(ss), Start(cursor), b).state)
  {
    StartCorrelated(ss.request, cursor);
    RunStaysCorrelated(ss, Start(cursor), b);
  }

  // ------------------------------------------------------------ shared native IDs

  predicate MentionsCall(v: JsonValue, id: string) {
    match v
    case Object(part) =>
      (match Field(part, "functionCall")
       case Some(Object(call)) => RequiredString(call, "id") == Some(id)
       case _ => false)
    case _ => false
  }

  /** What a part with this native ID adds: one call delta, at an index of its own if the event has used the ID. */
  lemma PartMentions(request: CanonicalRequest, sc: Scan, v: JsonValue, id: string)
    requires id != "" && MentionsCall(v, id) && ScanPart(request, sc, v).Some?
    ensures var sc' := ScanPart(request, sc, v).value;
            && id in sc'.eventIds && |sc'.toolCalls| == |sc.toolCalls| + 1
            && (id in sc.eventIds ==> sc'.toolCalls[|sc.toolCalls|].index == sc.nextCall && id in sc'.ambiguous)
  {
  }

  lemma {:induction false} ScanPartsSplit(request: CanonicalRequest, sc: Scan, a: seq<JsonValue>, b: seq<JsonValue>)
    ensures ScanParts(request, sc, a + b)
         == match ScanParts(request, sc, a) case None => None case Some(mid) => ScanParts(request, mid, b)
    decreases |a|
  {
    if a == [] {
      assert a + b == b;
    } else {
      assert (a + b)[0] == a[0] && (a + b)[1..] == a[1..] + b;
      if ScanPart(request, sc, a[0]).Some? {
        ScanPartsSplit(request, ScanPart(request, sc, a[0]).value, a[1..], b);
      }
    }
  }

  /** The walk just before part `i`, the part, and the rest of the walk. */
  lemma ScanUpTo(request: CanonicalRequest, sc: Scan, parts: seq<JsonValue>, i: nat)
    requires i < |parts| && ScanParts(request, sc, parts).Some?
    ensures ScanParts(request, sc, parts[..i]).Some?
    ensures var mid := ScanParts(request, sc, parts[..i]).value;
            && ScanPart(request, mid, parts[i]).Some?
            && ScanParts(request, sc, parts[..i + 1]) == ScanPart(request, mid, parts[i])
            && ScanParts(request, ScanPart(request, mid, parts[i]).value, parts[i + 1..]) == ScanParts(request, sc, parts)
  {
    assert parts == parts[..i] + parts[i..] && parts[i..][0] == parts[i] && parts[i..][1..] == parts[i + 1..];
    ScanPartsSplit(request, sc, parts[..i], parts[i..]);
    assert parts[..i + 1] == parts[..i] + [parts[i]] && [parts[i]][1..] == [];
    ScanPartsSplit(request, sc, parts[..i], [parts[i]]);
  }

  /** Where the call delta of part `i` stands among those of its event. */
  function CallPosition(request: CanonicalRequest, sc: Scan, parts: seq<JsonValue>, i: nat): nat
    requires i < |parts| && ScanParts(request, sc, parts).Some?
  {
    ScanUpTo(request, sc, parts, i);
    |ScanParts(request, sc, parts[..i]).value.toolCalls|
  }

  /** Between two parts of one event the walk only grows. */
  lemma ScanBetween(request: CanonicalRequest, sc: Scan, parts: seq<JsonValue>, i: nat, j: nat)
    requires i < j < |parts| && ScanParts(request, sc, parts).Some?
    ensures ScanParts(request, sc, parts[..i + 1]).Some? && ScanParts(request, sc, parts[..j]).Some?
    ensures ScanGrows(ScanParts(request, sc, parts[..i + 1]).value, ScanParts(request, sc, parts[..j]).value)
  {
    ScanUpTo(request, sc, parts, i);
    ScanUpTo(request, sc, parts, j);
    assert parts[..j] == parts[..i + 1] + parts[i + 1..j];
    ScanPartsSplit(request, sc, parts[..i + 1], parts[i + 1..j]);
    ScanPartsGrow(request, ScanParts(request, sc, parts[..i + 1]).value, parts[i + 1..j]);
  }

  /** Two parts of one event with the same native ID are two calls with different indices, and the
      ID is ambiguous from then on. */
  lemma SharedIdSplits(ss: Session, d: GeminiState, parts: seq<JsonValue>, id: string, i: nat, j: nat)
    requires Correlated(ss.request, d) && ScanParts(ss.request, NewScan(d), parts).Some?
    requires id != "" && i < j < |parts| && MentionsCall(parts[i], id) && MentionsCall(parts[j], id)
    ensures var sc := ScanParts(ss.request, NewScan(d), parts).value;
            var a, b := CallPosition(ss.request, NewScan(d), parts, i), CallPosition(ss.request, NewScan(d), parts, j);
            && a < b < |sc.toolCalls| && sc.toolCalls[a].index != sc.toolCalls[b].index
            && id in sc.ambiguous
  {
    var start := NewScan(d);
    ScanUpTo(ss.request, start, parts, i);
    ScanUpTo(ss.request, start, parts, j);
    ScanBetween(ss.request, start, parts, i, j);
    var before, later := ScanParts(ss.request, start, parts[..i]).value, ScanParts(ss.request, start, parts[..j]).value;
    PartMentions(ss.request, before, parts[i], id);
    PartMentions(ss.request, later, parts[j], id);
    ScanPartsKeeps(ss, d.asm, start, parts[..j]);
    var after := ScanPart(ss.request, later, parts[j]).value;
    ScanPartsGrow(ss.request, later, parts[j..][..1]);
    ScanPartsGrow(ss.request, after, parts[j + 1..]);
  }

  /** Any event that uses an ambiguous ID again is rejected, wherever in it the call stands. */
  lemma {:induction false} AmbiguousIdRejected(request: CanonicalRequest, sc: Scan, parts: seq<JsonValue>, id: string, k: nat)
    requires id in sc.ambiguous && id != "" && k < |parts| && MentionsCall(parts[k], id)
    ensures ScanParts(request, sc, parts).None?
    decreases |parts|
  {
    if k > 0 && ScanPart(request, sc, parts[0]).Some? {
      ScanPartsGrow(request, sc, parts[..1]);
      AmbiguousIdRejected(request, ScanPart(request, sc, parts[0]).value, parts[1..], id, k - 1);
    }
  }

  /** The parts of the event in the buffer, if it has one candidate with content. */
  function EventParts(d: GeminiState): Option<seq<JsonValue>> {
    if d.data == [] || DecodePayload(d.data).None? then None
    else
      match Field(DecodePayload(d.data).value, "candidates")
      case Some(Array(candidates)) => if |candidates| == 1 then CandidateParts(candidates[0]) else None
      case _ => None
  }

  function CandidateParts(v: JsonValue): Option<seq<JsonValue>> {
    if !v.Object? then None
    else
      match RequiredObject(v.fields, "content")
      case None => None
      case Some(content) => RequiredArray(content, "parts")
  }

  /** Part `k` of the event in the buffer is a call with this native ID. */
  predicate EventUses(d: GeminiState, id: string, k: nat) {
    EventParts(d).Some? && k < |EventParts(d).value| && MentionsCall(EventParts(d).value[k], id)
  }

  /** The blank line dispatches that event: its parts are walked, and the walk's tables are the new ones. */
  lemma EventIsScanned(ss: Session, d: GeminiState, raw: seq<byte>)
    requires StripCr(raw) == [] && EventParts(d).Some? && Line(ss, d, raw).Next?
    ensures ScanParts(ss.request, NewScan(d), EventParts(d).value).Some?
    ensures Line(ss, d, raw).state.ambiguous == ScanParts(ss.request, NewScan(d), EventParts(d).value).value.ambiguous
  {
    var root := DecodePayload(d.data).value;
    var d1 := CaptureUsage(d.(data := []), root);
    assert NewScan(d1) == NewScan(d);
    assert Line(ss, d, raw) == DispatchRoot(ss, d1, root);
    CandidateIsScanned(ss, d1, Field(root, "candidates").value.items[0]);
  }

  lemma CandidateIsScanned(ss: Session, d: GeminiState, v: JsonValue)
    requires CandidateParts(v).Some? && Candidate(ss, d, v).Next?
    ensures var sc := ScanParts(ss.request, NewScan(d), CandidateParts(v).value);
            sc.Some? && Candidate(ss, d, v).state.ambiguous == sc.value.ambiguous
  {
  }

  /** Once an event has used a native ID for two calls, the ID is spoilt for good: whatever bytes follow,
      a later event that uses it fails, and with it the stream. */
  lemma SharedIdSpoilsTheRun(ss: Session, d: GeminiState, raw: seq<byte>, id: string, i: nat, j: nat,
                             between: seq<byte>, k: nat, raw': seq<byte>)
    requires Correlated(ss.request, d) && StripCr(raw) == [] && Line(ss, d, raw).Next?
    requires id != "" && i < j && EventUses(d, id, i) && EventUses(d, id, j)
    requires ReadLines(GeminiDecoder(ss), Line(ss, d, raw).state, between).Alive?
    requires EventUses(ReadLines(GeminiDecoder(ss), Line(ss, d, raw).state, between).state, id, k) && StripCr(raw') == []
    ensures Line(ss, ReadLines(GeminiDecoder(ss), Line(ss, d, raw).state, between).state, raw').Fail?
  {
    var d1 := Line(ss, d, raw).state;
    var d2 := ReadLines(GeminiDecoder(ss), d1, between).state;
    EventIsScanned(ss, d, raw);
    SharedIdSplits(ss, d, EventParts(d).value, id, i, j);
    LineCorrelated(ss, d, raw);
    RunStaysCorrelated(ss, d1, between);
    AmbiguousEventFails(ss, d2, raw', id, k);
  }

  lemma AmbiguousEventFails(ss: Session, d: GeminiState, raw: seq<byte>, id: string, k: nat)
    requires id in d.ambiguous && id != "" && EventUses(d, id, k) && StripCr(raw) == []
    ensures Line(ss, d, raw).Fail?
  {
    AmbiguousIdRejected(ss.request, NewScan(d), EventParts(d).value, id, k);
    if Line(ss, d, raw).Next? {
      EventIsScanned(ss, d, raw);
      assert false;
    }
  }

  // ------------------------------------------------------------ the gate

  lemma PushDeltaEmits(ss: Session, d: GeminiState, delta: AssistantDelta, terminal: Option<NativeTerminal>)
    ensures var step := PushDelta(ss, d, delta, terminal);
            step.Next? ==> Emits(ss, d.asm, step.out, step.state.asm)
  {
    if Push(ss, d.asm, 0, delta, terminal).Ok? {
      EmitsOne(ss, d.asm, PushOp(0, delta, terminal));
    }
  }

  lemma LineEmits(ss: Session, d: GeminiState, raw: seq<byte>)
    ensures var step := Line(ss, d, raw);
            step.Next? ==> Emits(ss, d.asm, step.out, step.state.asm)
  {
    EmitsNothing(ss, d.asm);
    if StripCr(raw) == [] && d.data != [] && DecodePayload(d.data).Some? {
      var root := DecodePayload(d.data).value;
      RootEmits(ss, CaptureUsage(d.(data := []), root), root);
    }
  }

  lemma RootEmits(ss: Session, d: GeminiState, root: seq<Member>)
    ensures var step := DispatchRoot(ss, d, root);
            step.Next? ==> Emits(ss, d.asm, step.out, step.state.asm)
  {
    EmitsNothing(ss, d.asm);
    forall d2: GeminiState, delta, terminal | d2.asm == d.asm
      ensures var step := PushDelta(ss, d2, delta, terminal);
              step.Next? ==> Emits(ss, d.asm, step.out, step.state.asm)
    {
      PushDeltaEmits(ss, d2, delta, terminal);
    }
  }

  lemma EndEmits(ss: Session, d: GeminiState)
    ensures var step := End(ss, d);
            step.Next? ==> Emits(ss, d.asm, step.out, step.state.asm) && Finished(step.state.asm)
  {
    EmitsNothing(ss, d.asm);
    forall usage | PushUsage(ss, d.asm, usage).Ok?
      ensures var p := PushUsage(ss, d.asm, usage).value;
              Emits(ss, d.asm, ChunkList(p.chunk), p.state) && Finished(p.state)
    {
      EmitsOne(ss, d.asm, UsageOp(usage));
    }
  }

  lemma GeminiConforms(ss: Session)
    ensures Conforms(ss, GeminiDecoder(ss), (d: GeminiState) => d.asm)
  {
    var decoder := GeminiDecoder(ss);
    var asm := (d: GeminiState) => d.asm;
    forall d: GeminiState, raw: seq<byte> ensures LineConforms(ss, decoder, asm, d, raw) {
      LineEmits(ss, d, raw);
    }
    forall d: GeminiState ensures EndConforms(ss, decoder, asm, d) {
      EndEmits(ss, d);
    }
  }

  lemma GeminiPassesGate(ss: Session, cursor: nat, source: seq<Fragment>)
    ensures var items := Feed(GeminiDecoder(ss), Start(cursor), [], source);
            var end := Pass(Closed(ss.request.includeUsage), Chunks(items));
            end.Some? && (NoError(items) ==> end.value.Open? && end.value.gate.terminal)
  {
    GeminiConforms(ss);
    FeedPassesGate(ss, GeminiDecoder(ss), (d: GeminiState) => d.asm, Start(cursor), [], source);
  }
}
