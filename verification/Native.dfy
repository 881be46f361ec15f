/** The native form of a transcript, one turn per native message, and what it keeps of
    the canonical one. */
module Native {
  import opened Wrappers
  import opened Json
  import opened JsonParser
  import opened Transcript

  datatype NativeCall = NativeCall(id: string, name: string, input: seq<Member>)
  datatype Answer = Answer(id: string, name: string, result: string)

  datatype NativeTurn =
    | UserText(text: string)
    | AssistantTurn(content: Option<string>, calls: seq<NativeCall>)
    | Results(answers: seq<Answer>)

  /** The structured form of call arguments; routes that need it have checked it exists. */
  function Input(arguments: string): seq<Member> {
    match DecodeObject(arguments)
    case Ok(fields) => fields
    case Err(_) => []
  }

  /** `validate_route_tool_arguments`: every call's arguments are exactly one JSON object. */
  predicate RouteChecked(calls: seq<Call>) {
    forall i :: 0 <= i < |calls| ==> DecodeObject(calls[i].arguments).Ok?
  }

  function NativeCalls(calls: seq<Call>): (r: seq<NativeCall>)
    ensures |r| == |calls|
  {
    seq(|calls|, i requires 0 <= i < |calls| => NativeCall(calls[i].id, calls[i].name, Input(calls[i].arguments)))
  }

  /** The name of the call with this ID. */
  function NameOf(calls: seq<Call>, id: string): string {
    if calls == [] then "" else if calls[0].id == id then calls[0].name else NameOf(calls[1..], id)
  }

  function LeadingResults(ms: seq<Message>): (n: nat)
    ensures n <= |ms| && AllResults(ms[..n]) && (n < |ms| ==> !ms[n].ToolResult?)
  {
    if ms != [] && ms[0].ToolResult? then 1 + LeadingResults(ms[1..]) else 0
  }

  function Answers(asked: seq<Call>, results: seq<Message>): (r: seq<Answer>)
    requires AllResults(results)
    ensures |r| == |results|
  {
    seq(|results|, i requires 0 <= i < |results| => Answer(results[i].id, NameOf(asked, results[i].id), results[i].result))
  }

  /** One native turn per message, but one for a whole group of results; `asked` are the calls
      of the assistant message just before. */
  function Group(ms: seq<Message>, asked: seq<Call>): seq<NativeTurn>
    decreases |ms|
  {
    if ms == [] then []
    else
      match ms[0]
      case Instruction(_) => Group(ms[1..], asked)
      case User(text) => [UserText(text)] + Group(ms[1..], [])
      case Assistant(content, calls) => [AssistantTurn(content, NativeCalls(calls))] + Group(ms[1..], calls)
      case ToolResult(_, _) =>
        var n := LeadingResults(ms);
        [Results(Answers(asked, ms[..n]))] + Group(ms[n..], [])
  }

  // --------------------------------------------------------- nothing is lost

  /** A message with its calls' arguments as the objects they denote. */
  datatype Plain = PlainUser(text: string) | PlainAssistant(content: Option<string>, calls: seq<NativeCall>) | PlainResult(id: string, result: string)

  /** The conversation without its instructions. */
  function PlainMessages(ms: seq<Message>): seq<Plain> {
    if ms == [] then [] else PlainMessage(ms[0]) + PlainMessages(ms[1..])
  }

  function PlainMessage(m: Message): seq<Plain> {
    match m
    case Instruction(_) => []
    case User(text) => [PlainUser(text)]
    case Assistant(content, calls) => [PlainAssistant(content, NativeCalls(calls))]
    case ToolResult(id, result) => [PlainResult(id, result)]
  }

  function FlattenAnswers(answers: seq<Answer>): seq<Plain> {
    seq(|answers|, i requires 0 <= i < |answers| => PlainResult(answers[i].id, answers[i].result))
  }

  function FlattenTurn(turn: NativeTurn): seq<Plain> {
    match turn
    case UserText(text) => [PlainUser(text)]
    case AssistantTurn(content, calls) => [PlainAssistant(content, calls)]
    case Results(answers) => FlattenAnswers(answers)
  }

  function Flatten(turns: seq<NativeTurn>): seq<Plain> {
    if turns == [] then [] else FlattenTurn(turns[0]) + Flatten(turns[1..])
  }

  lemma {:induction false} PlainConcat(a: seq<Message>, b: seq<Message>)
    ensures PlainMessages(a + b) == PlainMessages(a) + PlainMessages(b)
    decreases |a|
  {
    if a == [] {
      assert a + b == b;
    } else {
      assert (a + b)[0] == a[0] && (a + b)[1..] == a[1..] + b;
      PlainConcat(a[1..], b);
      Associative(PlainMessage(a[0]), PlainMessages(a[1..]), PlainMessages(b));
    }
  }

  lemma {:induction false} PlainResults(asked: seq<Call>, results: seq<Message>)
    requires AllResults(results)
    ensures PlainMessages(results) == FlattenAnswers(Answers(asked, results))
  {
    if results != [] {
      PlainResults(asked, results[1..]);
      assert FlattenAnswers(Answers(asked, results))
          == [PlainResult(results[0].id, results[0].result)] + FlattenAnswers(Answers(asked, results[1..]));
    }
  }

  lemma FlattenCons(turn: NativeTurn, rest: seq<NativeTurn>)
    ensures Flatten([turn] + rest) == FlattenTurn(turn) + Flatten(rest)
  {
    assert ([turn] + rest)[1..] == rest;
  }

  lemma PlainGroup(results: seq<Message>, rest: seq<Message>, asked: seq<Call>)
    requires AllResults(results)
    ensures PlainMessages(results + rest) == FlattenAnswers(Answers(asked, results)) + PlainMessages(rest)
  {
    PlainResults(asked, results);
    PlainConcat(results, rest);
  }

  /** The native turns hold exactly the non-instruction messages, in their order. */
  lemma {:induction false} FlattenGroup(ms: seq<Message>, asked: seq<Call>)
    ensures Flatten(Group(ms, asked)) == PlainMessages(ms)
    decreases |ms|
  {
    if ms != [] {
      match ms[0] {
        case Instruction(_) => FlattenGroup(ms[1..], asked);
        case User(text) =>
          FlattenGroup(ms[1..], []);
          FlattenCons(UserText(text), Group(ms[1..], []));
        case Assistant(content, calls) =>
          FlattenGroup(ms[1..], calls);
          FlattenCons(AssistantTurn(content, NativeCalls(calls)), Group(ms[1..], calls));
        case ToolResult(_, _) =>
          var n := LeadingResults(ms);
          FlattenGroup(ms[n..], []);
          FlattenCons(Results(Answers(asked, ms[..n])), Group(ms[n..], []));
          PlainGroup(ms[..n], ms[n..], asked);
          assert ms[..n] + ms[n..] == ms;
      }
    }
  }

  // -------------------------------------------------- the shape of the turns

  /** Where a valid transcript stands at a native message boundary. */
  datatype Phase = Opening | UserNext | AssistantNext | AnswersNext(calls: seq<Call>)

  function Asked(p: Phase): seq<Call> {
    if p.AnswersNext? then p.calls else []
  }

  function AfterCalls(calls: seq<Call>): Phase {
    if calls == [] then UserNext else AnswersNext(calls)
  }

  /** What is left of it. */
  ghost predicate Remaining(ms: seq<Message>, p: Phase) {
    match p
    case Opening => Conversation(ms)
    case UserNext => UserTurn(ms)
    case AssistantNext => MaybeAssistantTurn(ms)
    case AnswersNext(calls) => calls != [] && Answered(calls, ms) && MaybeAssistantTurn(ms[|calls|..])
  }

  lemma {:induction false} LeadingResultsIs(ms: seq<Message>, n: nat)
    requires n <= |ms| && AllResults(ms[..n]) && (n < |ms| ==> !ms[n].ToolResult?)
    ensures LeadingResults(ms) == n
    decreases n
  {
    if n > 0 {
      assert ms[..n][0] == ms[0] && ms[1..][..n - 1] == ms[..n][1..];
      LeadingResultsIs(ms[1..], n - 1);
    }
  }

  /** The phase after the message, or the results, that come next. */
  lemma NextPhase(ms: seq<Message>, p: Phase)
    requires Remaining(ms, p) && ms != []
    ensures match ms[0]
            case Instruction(_) => p == Opening && Remaining(ms[1..], p)
            case User(_) => (p == Opening || p == UserNext) && Remaining(ms[1..], AssistantNext)
            case Assistant(_, calls) => p == AssistantNext && Remaining(ms[1..], AfterCalls(calls))
            case ToolResult(_, _) =>
              p.AnswersNext? && LeadingResults(ms) == |p.calls| && Remaining(ms[|p.calls|..], AssistantNext)
  {
    if p.AnswersNext? {
      var n := |p.calls|;
      assert ms[..n][0] == ms[0];
      LeadingResultsIs(ms, n);
    } else if ms[0].Assistant? && ms[0].calls != [] {
      assert ms[1..][|ms[0].calls|..] == ms[1 + |ms[0].calls|..];
    }
  }

  predicate UserSide(turn: NativeTurn) {
    !turn.AssistantTurn?
  }

  /** Roles strictly alternate, from the given side to the user's. */
  predicate Alternates(turns: seq<NativeTurn>, userFirst: bool) {
    && (forall i :: 0 <= i < |turns| ==> (UserSide(turns[i]) <==> (i % 2 == 0) == userFirst))
    && (|turns| % 2 == if userFirst then 1 else 0)
  }

  lemma AlternatesMore(turn: NativeTurn, rest: seq<NativeTurn>)
    requires Alternates(rest, !UserSide(turn))
    ensures Alternates([turn] + rest, UserSide(turn))
  {
    var all := [turn] + rest;
    forall i | 0 <= i < |all| ensures UserSide(all[i]) <==> (i % 2 == 0) == UserSide(turn) {
      if i > 0 {
        assert all[i] == rest[i - 1];
      }
    }
  }

  lemma {:induction false} GroupAlternates(ms: seq<Message>, p: Phase)
    requires Remaining(ms, p)
    ensures Alternates(Group(ms, Asked(p)), p != AssistantNext)
    decreases |ms|
  {
    if ms != [] {
      NextPhase(ms, p);
      match ms[0] {
        case Instruction(_) =>
          GroupAlternates(ms[1..], p);
        case User(text) =>
          GroupAlternates(ms[1..], AssistantNext);
          AlternatesMore(UserText(text), Group(ms[1..], []));
        case Assistant(content, calls) =>
          GroupAlternates(ms[1..], AfterCalls(calls));
          AlternatesMore(AssistantTurn(content, NativeCalls(calls)), Group(ms[1..], calls));
        case ToolResult(_, _) =>
          var n := LeadingResults(ms);
          GroupAlternates(ms[n..], AssistantNext);
          AlternatesMore(Results(Answers(p.calls, ms[..n])), Group(ms[n..], []));
      }
    }
  }

  // ------------------------------------------------- answers and their calls

  function NativeIds(calls: seq<NativeCall>): seq<string> {
    seq(|calls|, i requires 0 <= i < |calls| => calls[i].id)
  }

  function AnswerIds(answers: seq<Answer>): seq<string> {
    seq(|answers|, i requires 0 <= i < |answers| => answers[i].id)
  }

  /** Each call is answered once, and each answer carries the name of the call it answers. */
  ghost predicate AnswersTurn(calls: seq<NativeCall>, answers: seq<Answer>) {
    && multiset(AnswerIds(answers)) == multiset(NativeIds(calls))
    && forall i :: 0 <= i < |answers| ==>
         exists j :: 0 <= j < |calls| && calls[j].id == answers[i].id && calls[j].name == answers[i].name
  }

  /** Turn `i` is a results turn exactly if the one just before it made calls; then it answers them. */
  ghost predicate Matched(turns: seq<NativeTurn>, asked: seq<NativeCall>, i: nat)
    requires i < |turns|
  {
    var before := if i == 0 then asked else if turns[i - 1].AssistantTurn? then turns[i - 1].calls else [];
    && (turns[i].Results? <==> before != [])
    && (turns[i].Results? ==> AnswersTurn(before, turns[i].answers))
  }

  ghost predicate AllMatched(turns: seq<NativeTurn>, asked: seq<NativeCall>) {
    forall i :: 0 <= i < |turns| ==> Matched(turns, asked, i)
  }

  lemma MatchedMore(turn: NativeTurn, rest: seq<NativeTurn>, asked: seq<NativeCall>)
    requires Matched([turn], asked, 0)
    requires AllMatched(rest, if turn.AssistantTurn? then turn.calls else [])
    ensures AllMatched([turn] + rest, asked)
  {
    var all := [turn] + rest;
    forall i | 0 <= i < |all| ensures Matched(all, asked, i) {
      if i == 0 {
        assert [turn][0] == turn;
      } else {
        assert Matched(rest, if turn.AssistantTurn? then turn.calls else [], i - 1);
        assert all[i] == rest[i - 1] && (i > 1 ==> all[i - 1] == rest[i - 2]);
      }
    }
  }

  lemma {:induction false} NameIsOfCall(calls: seq<Call>, id: string)
    requires id in CallIds(calls)
    ensures exists j :: 0 <= j < |calls| && calls[j].id == id && calls[j].name == NameOf(calls, id)
  {
    var k :| 0 <= k < |calls| && CallIds(calls)[k] == id;
    if calls[0].id != id {
      assert CallIds(calls[1..])[k - 1] == id;
      NameIsOfCall(calls[1..], id);
      var j :| 0 <= j < |calls[1..]| && calls[1..][j].id == id && calls[1..][j].name == NameOf(calls[1..], id);
      assert calls[j + 1] == calls[1..][j];
    }
  }

  lemma AnswersMatch(asked: seq<Call>, results: seq<Message>)
    requires AllResults(results) && multiset(ResultIds(results)) == multiset(CallIds(asked))
    ensures AnswersTurn(NativeCalls(asked), Answers(asked, results))
  {
    var calls, answers := NativeCalls(asked), Answers(asked, results);
    assert AnswerIds(answers) == ResultIds(results);
    assert NativeIds(calls) == CallIds(asked);
    forall i | 0 <= i < |answers|
      ensures exists j :: 0 <= j < |calls| && calls[j].id == answers[i].id && calls[j].name == answers[i].name
    {
      assert ResultIds(results)[i] in multiset(CallIds(asked));
      NameIsOfCall(asked, answers[i].id);
      var j :| 0 <= j < |asked| && asked[j].id == answers[i].id && asked[j].name == NameOf(asked, answers[i].id);
      assert calls[j].id == answers[i].id;
    }
  }

  lemma {:induction false} GroupMatches(ms: seq<Message>, p: Phase)
    requires Remaining(ms, p)
    ensures AllMatched(Group(ms, Asked(p)), NativeCalls(Asked(p)))
    decreases |ms|
  {
    if ms != [] {
      NextPhase(ms, p);
      match ms[0] {
        case Instruction(_) =>
          GroupMatches(ms[1..], p);
        case User(text) =>
          GroupMatches(ms[1..], AssistantNext);
          MatchedMore(UserText(text), Group(ms[1..], []), []);
        case Assistant(content, calls) =>
          GroupMatches(ms[1..], AfterCalls(calls));
          MatchedMore(AssistantTurn(content, NativeCalls(calls)), Group(ms[1..], calls), []);
        case ToolResult(_, _) =>
          var n := LeadingResults(ms);
          AnswersMatch(p.calls, ms[..n]);
          GroupMatches(ms[n..], AssistantNext);
          MatchedMore(Results(Answers(p.calls, ms[..n])), Group(ms[n..], []), NativeCalls(p.calls));
      }
    }
  }

  /** The native form of a valid transcript: strictly alternating roles from user to user, the
      same messages in the same order, and every call answered by name in the very next turn. */
  lemma NativeFormIsFaithful(ms: seq<Message>)
    requires Conversation(ms)
    ensures var turns := Group(ms, []);
            && Alternates(turns, true)
            && Flatten(turns) == PlainMessages(ms)
            && AllMatched(turns, [])
  {
    GroupAlternates(ms, Opening);
    FlattenGroup(ms, []);
    GroupMatches(ms, Opening);
    assert NativeCalls([]) == [];
  }
}
