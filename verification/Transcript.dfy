/** The request transcript: what one message may look like, and the turn machine of
    `validate_messages` with its call-ID bookkeeping. */
module Transcript {
  import opened Wrappers
  import opened Json

  datatype Call = Call(id: string, name: string, arguments: string)

  datatype Message =
    | Instruction(text: string)
    | User(text: string)
    | Assistant(content: Option<string>, calls: seq<Call>)
    | ToolResult(id: string, result: string)

  // ---------------------------------------------------------------- shapes

  /** `closed`: no other member, and none of the required ones missing. */
  predicate Closed(fields: seq<Member>, allowed: set<string>, required: set<string>) {
    && (forall i :: 0 <= i < |fields| ==> fields[i].key in allowed)
    && (forall name :: name in required ==> Field(fields, name).Some?)
  }

  function StringField(fields: seq<Member>, name: string): Option<string> {
    match Field(fields, name)
    case Some(String(s)) => Some(s)
    case _ => None
  }

  function ReadCallFunction(id: string, fields: seq<Member>): Option<Call> {
    if !Closed(fields, {"name", "arguments"}, {"name", "arguments"}) then None
    else
      match (StringField(fields, "name"), StringField(fields, "arguments"))
      case (Some(name), Some(arguments)) => Some(Call(id, name, arguments))
      case _ => None
  }

  function ReadCall(v: JsonValue): Option<Call> {
    if !v.Object? || !Closed(v.fields, {"id", "type", "function"}, {"id", "type", "function"}) then None
    else if StringField(v.fields, "type") != Some("function") then None
    else
      match (StringField(v.fields, "id"), Field(v.fields, "function"))
      case (Some(id), Some(Object(function_))) => ReadCallFunction(id, function_)
      case _ => None
  }

  function ReadCalls(items: seq<JsonValue>): Option<seq<Call>> {
    Collect(ReadCall, items)
  }

  /** The calls of an assistant message: absent, or a nonempty array. */
  function ReadToolCalls(v: Option<JsonValue>): Option<seq<Call>> {
    match v
    case None => Some([])
    case Some(Array(items)) => if items == [] then None else ReadCalls(items)
    case _ => None
  }

  /** Absent, null, or a string. */
  function ReadContent(v: Option<JsonValue>): Option<Option<string>> {
    match v
    case None => Some(None)
    case Some(Null) => Some(None)
    case Some(String(s)) => Some(Some(s))
    case _ => None
  }

  function ReadText(fields: seq<Member>): Option<string> {
    if Closed(fields, {"role", "content"}, {"role", "content"}) then StringField(fields, "content") else None
  }

  /** Content or calls, or both. */
  function AssistantOf(content: Option<Option<string>>, calls: Option<seq<Call>>): Option<Message> {
    if content.None? || calls.None? || (content.value.None? && calls.value == []) then None
    else Some(Assistant(content.value, calls.value))
  }

  function ReadAssistant(fields: seq<Member>): Option<Message> {
    if !Closed(fields, {"role", "content", "tool_calls"}, {"role"}) then None
    else AssistantOf(ReadContent(Field(fields, "content")), ReadToolCalls(Field(fields, "tool_calls")))
  }

  function ReadToolResult(fields: seq<Member>): Option<Message> {
    if !Closed(fields, {"role", "tool_call_id", "content"}, {"role", "tool_call_id", "content"}) then None
    else
      match (StringField(fields, "tool_call_id"), StringField(fields, "content"))
      case (Some(id), Some(content)) => Some(ToolResult(id, content))
      case _ => None
  }

  function ReadFields(fields: seq<Member>): Option<Message> {
    match StringField(fields, "role")
    case None => None
    case Some(role) =>
      if role == "system" || role == "developer" then
        match ReadText(fields) case None => None case Some(text) => Some(Instruction(text))
      else if role == "user" then
        match ReadText(fields) case None => None case Some(text) => Some(User(text))
      else if role == "assistant" then ReadAssistant(fields)
      else if role == "tool" then ReadToolResult(fields)
      else None
  }

  /** One message of the request, or nothing if its shape is not allowed. */
  function ReadMessage(v: JsonValue): Option<Message> {
    if v.Object? then ReadFields(v.fields) else None
  }

  function ReadMessages(items: seq<JsonValue>): Option<seq<Message>> {
    Collect(ReadMessage, items)
  }

  // ----------------------------------------------------------- turn machine

  datatype TurnState = ExpectInstruction | AfterUser | AfterAssistant | ToolResults | AfterToolResult

  datatype Turns = Turns(state: TurnState, callIds: set<string>, unresolved: set<string>)

  const START := Turns(ExpectInstruction, {}, {})

  /** `validate_tool_calls`: the IDs in use once these calls are added. */
  function AddCalls(tools: seq<string>, callIds: set<string>, calls: seq<Call>): Option<set<string>>
    decreases |calls|
  {
    if calls == [] then Some(callIds)
    else if calls[0].id == "" || calls[0].id in callIds || calls[0].name !in tools then None
    else AddCalls(tools, callIds + {calls[0].id}, calls[1..])
  }

  function Ids(calls: seq<Call>): set<string> {
    set c <- calls :: c.id
  }

  function Turn(tools: seq<string>, s: Turns, m: Message): Option<Turns> {
    match m
    case Instruction(_) => if s.state == ExpectInstruction then Some(s) else None
    case User(_) =>
      if s.state == ExpectInstruction || s.state == AfterAssistant then Some(s.(state := AfterUser)) else None
    case Assistant(_, calls) =>
      (match AddCalls(tools, s.callIds, calls)
       case None => None
       case Some(callIds) =>
         if s.state != AfterUser && s.state != AfterToolResult then None
         else Some(Turns(if calls != [] then ToolResults else AfterAssistant, callIds, s.unresolved + Ids(calls))))
    case ToolResult(id, _) =>
      if (s.state != ToolResults && s.state != AfterToolResult) || id !in s.unresolved then None
      else
        var unresolved := s.unresolved - {id};
        Some(Turns(if unresolved == {} then AfterToolResult else ToolResults, s.callIds, unresolved))
  }

  function Run(tools: seq<string>, s: Turns, ms: seq<Message>): Option<Turns>
    decreases |ms|
  {
    if ms == [] then Some(s)
    else
      match Turn(tools, s, ms[0])
      case None => None
      case Some(next) => Run(tools, next, ms[1..])
  }

  predicate Ends(s: Turns) {
    s.state == AfterUser || s.state == AfterToolResult
  }

  predicate MachineAccepts(tools: seq<string>, s: Turns, ms: seq<Message>) {
    Run(tools, s, ms).Some? && Ends(Run(tools, s, ms).value)
  }

  /** What holds after every accepted message: calls are open exactly while results are awaited. */
  ghost predicate Steady(s: Turns) {
    && (s.unresolved != {} <==> s.state == ToolResults)
    && s.unresolved <= s.callIds
  }

  // -------------------------------------------------------------- grammar

  function ResultIds(ms: seq<Message>): seq<string>
    requires forall i :: 0 <= i < |ms| ==> ms[i].ToolResult?
  {
    seq(|ms|, i requires 0 <= i < |ms| => ms[i].id)
  }

  function CallIds(calls: seq<Call>): seq<string> {
    seq(|calls|, i requires 0 <= i < |calls| => calls[i].id)
  }

  predicate AllResults(ms: seq<Message>) {
    forall i :: 0 <= i < |ms| ==> ms[i].ToolResult?
  }

  /** As many results as calls come first, and they answer each call once, in any order. */
  predicate Answered(calls: seq<Call>, ms: seq<Message>) {
    |calls| <= |ms| && AllResults(ms[..|calls|])
    && multiset(ResultIds(ms[..|calls|])) == multiset(CallIds(calls))
  }

  /** Instructions, then the conversation. */
  predicate Conversation(ms: seq<Message>)
    decreases |ms|
  {
    ms != [] && if ms[0].Instruction? then Conversation(ms[1..]) else UserTurn(ms)
  }

  predicate UserTurn(ms: seq<Message>)
    decreases |ms|
  {
    ms != [] && ms[0].User? && MaybeAssistantTurn(ms[1..])
  }

  /** The conversation may end here, on the user's side. */
  predicate MaybeAssistantTurn(ms: seq<Message>)
    decreases |ms|
  {
    ms == [] ||
    (ms[0].Assistant? &&
     var calls := ms[0].calls;
     if calls == [] then UserTurn(ms[1..])
     else Answered(calls, ms[1..]) && MaybeAssistantTurn(ms[1 + |calls|..]))
  }

  /** All calls of a transcript, in order. */
  function AllCalls(ms: seq<Message>): seq<Call> {
    if ms == [] then []
    else (if ms[0].Assistant? then ms[0].calls else []) + AllCalls(ms[1..])
  }

  /** Each call has an ID of its own, not empty and not among `taken`, and names a declared tool. */
  predicate Fresh(tools: seq<string>, taken: set<string>, calls: seq<Call>) {
    && (forall i :: 0 <= i < |calls| ==> calls[i].id != "" && calls[i].id !in taken && calls[i].name in tools)
    && (forall i, j :: 0 <= i < j < |calls| ==> calls[i].id != calls[j].id)
  }

  // ------------------------------------------------------- call bookkeeping

  lemma {:induction false} AddCallsIsFresh(tools: seq<string>, taken: set<string>, calls: seq<Call>)
    ensures AddCalls(tools, taken, calls) == if Fresh(tools, taken, calls) then Some(taken + Ids(calls)) else None
    decreases |calls|
  {
    if calls == [] {
      assert taken + Ids(calls) == taken;
    } else {
      var call, rest := calls[0], calls[1..];
      assert calls == [call] + rest;
      FreshSplit(tools, taken, [call], rest);
      assert Ids([call]) == {call.id};
      assert Ids(calls) == {call.id} + Ids(rest);
      AddCallsIsFresh(tools, taken + {call.id}, rest);
      assert taken + {call.id} + Ids(rest) == taken + Ids(calls);
    }
  }

  lemma FreshSplit(tools: seq<string>, taken: set<string>, a: seq<Call>, b: seq<Call>)
    ensures Fresh(tools, taken, a + b) <==> Fresh(tools, taken, a) && Fresh(tools, taken + Ids(a), b)
  {
    var all := a + b;
    if Fresh(tools, taken, all) {
      forall i | 0 <= i < |a| ensures a[i].id != "" && a[i].id !in taken && a[i].name in tools {
        assert all[i] == a[i];
      }
      forall i, j | 0 <= i < j < |a| ensures a[i].id != a[j].id {
        assert all[i].id != all[j].id;
      }
      forall j | 0 <= j < |b| ensures b[j].id != "" && b[j].id !in taken + Ids(a) && b[j].name in tools {
        assert all[|a| + j] == b[j];
        forall i | 0 <= i < |a| ensures a[i].id != b[j].id {
          assert all[i].id != all[|a| + j].id;
        }
      }
      forall i, j | 0 <= i < j < |b| ensures b[i].id != b[j].id {
        assert all[|a| + i].id != all[|a| + j].id;
      }
    } else if Fresh(tools, taken, a) && Fresh(tools, taken + Ids(a), b) {
      forall i | 0 <= i < |all| ensures all[i].id != "" && all[i].id !in taken && all[i].name in tools {
        assert i >= |a| ==> all[i] == b[i - |a|];
      }
      forall i, j | 0 <= i < j < |all| ensures all[i].id != all[j].id {
        assert i < |a| ==> all[i] == a[i] && a[i].id in Ids(a);
        assert j >= |a| ==> all[j] == b[j - |a|];
        assert i >= |a| ==> all[i] == b[i - |a|];
      }
    }
  }

  // ------------------------------------------------------- result matching

  /** The machine's way of matching results: one at a time, against a set. */
  predicate Pending(unresolved: set<string>, ms: seq<Message>)
    decreases |ms|
  {
    if unresolved == {} then MaybeAssistantTurn(ms)
    else ms != [] && ms[0].ToolResult? && ms[0].id in unresolved && Pending(unresolved - {ms[0].id}, ms[1..])
  }

  /** Results that use up a set, then the next assistant turn. */
  ghost predicate Settles(unresolved: set<string>, ms: seq<Message>) {
    var n := |unresolved|;
    && n <= |ms| && AllResults(ms[..n])
    && multiset(ResultIds(ms[..n])) == multiset(unresolved)
    && MaybeAssistantTurn(ms[n..])
  }

  /** The first of several results. */
  lemma FirstResult(ms: seq<Message>, n: nat)
    requires 0 < n <= |ms| && ms[0].ToolResult?
    ensures AllResults(ms[..n]) <==> AllResults(ms[1..][..n - 1])
    ensures AllResults(ms[..n]) ==> ResultIds(ms[..n]) == [ms[0].id] + ResultIds(ms[1..][..n - 1])
  {
    assert ms[..n] == [ms[0]] + ms[1..][..n - 1];
  }

  lemma SettlesFirst(unresolved: set<string>, ms: seq<Message>)
    requires unresolved != {} && ms != []
    ensures Settles(unresolved, ms)
       <==> ms[0].ToolResult? && ms[0].id in unresolved && Settles(unresolved - {ms[0].id}, ms[1..])
  {
    var n := |unresolved|;
    if n <= |ms| && ms[0].ToolResult? {
      var id, rest := ms[0].id, unresolved - {ms[0].id};
      FirstResult(ms, n);
      if AllResults(ms[..n]) {
        MatchesFirst(unresolved, id, ResultIds(ms[1..][..n - 1]));
      }
      if id in unresolved {
        assert |rest| == n - 1 && ms[1..][n - 1..] == ms[n..];
      }
    } else if n <= |ms| {
      assert n > 0 && ms[..n][0] == ms[0];
    } else if ms[0].ToolResult? && ms[0].id in unresolved {
      assert |unresolved - {ms[0].id}| == n - 1;
    }
  }

  lemma MatchesFirst(unresolved: set<string>, id: string, ids: seq<string>)
    ensures multiset([id] + ids) == multiset(unresolved)
       <==> id in unresolved && multiset(ids) == multiset(unresolved - {id})
  {
    assert multiset([id] + ids) == multiset{id} + multiset(ids);
    if id in unresolved {
      assert multiset(unresolved) == multiset{id} + multiset(unresolved - {id});
      assert multiset([id] + ids) - multiset{id} == multiset(ids);
    } else {
      assert id in multiset([id] + ids) && id !in multiset(unresolved);
    }
  }

  lemma {:induction false} PendingSettles(unresolved: set<string>, ms: seq<Message>)
    ensures Pending(unresolved, ms) <==> Settles(unresolved, ms)
    decreases |ms|
  {
    if unresolved == {} {
      assert ms[..0] == [] && ms[0..] == ms && ResultIds([]) == [];
    } else if ms != [] {
      SettlesFirst(unresolved, ms);
      if ms[0].ToolResult? {
        PendingSettles(unresolved - {ms[0].id}, ms[1..]);
      }
    }
  }

  lemma {:induction false} DistinctIds(calls: seq<Call>)
    requires forall i, j :: 0 <= i < j < |calls| ==> calls[i].id != calls[j].id
    ensures multiset(CallIds(calls)) == multiset(Ids(calls)) && |Ids(calls)| == |calls|
  {
    if calls == [] {
      assert CallIds(calls) == [] && Ids(calls) == {};
    } else {
      var call, rest := calls[0], calls[1..];
      DistinctIds(rest);
      assert CallIds(calls) == [call.id] + CallIds(rest);
      assert calls == [call] + rest;
      assert Ids(calls) == {call.id} + Ids(rest);
      assert call.id !in Ids(rest);
      assert multiset({call.id} + Ids(rest)) == multiset{call.id} + multiset(Ids(rest));
    }
  }

  // -------------------------------------------------------- the equivalence

  /** What the machine still accepts from a state, ID bookkeeping aside. */
  predicate Language(s: Turns, ms: seq<Message>) {
    match s.state
    case ExpectInstruction => Conversation(ms)
    case AfterUser => MaybeAssistantTurn(ms)
    case AfterAssistant => UserTurn(ms)
    case ToolResults => Pending(s.unresolved, ms)
    case AfterToolResult => MaybeAssistantTurn(ms)
  }

  lemma TurnKeepsSteady(tools: seq<string>, s: Turns, m: Message)
    requires Steady(s) && Turn(tools, s, m).Some?
    ensures Steady(Turn(tools, s, m).value)
  {
    if m.Assistant? {
      AddCallsIsFresh(tools, s.callIds, m.calls);
      if m.calls != [] {
        assert m.calls[0].id in Ids(m.calls);
      }
    }
  }

  /** Calls are open exactly while results are awaited, after any accepted messages. */
  lemma {:induction false} RunStaysSteady(tools: seq<string>, s: Turns, ms: seq<Message>)
    requires Steady(s) && Run(tools, s, ms).Some?
    ensures Steady(Run(tools, s, ms).value)
    decreases |ms|
  {
    if ms != [] {
      TurnKeepsSteady(tools, s, ms[0]);
      RunStaysSteady(tools, Turn(tools, s, ms[0]).value, ms[1..]);
    }
  }

  /** Calls that are let in are settled by the results that answer them. */
  lemma AnsweredIsPending(calls: seq<Call>, rest: seq<Message>)
    requires calls != [] && forall i, j :: 0 <= i < j < |calls| ==> calls[i].id != calls[j].id
    ensures Answered(calls, rest) && MaybeAssistantTurn(rest[|calls|..]) <==> Pending(Ids(calls), rest)
  {
    DistinctIds(calls);
    PendingSettles(Ids(calls), rest);
  }

  lemma AssistantFollowsLanguage(tools: seq<string>, s: Turns, ms: seq<Message>)
    requires Steady(s) && ms != [] && ms[0].Assistant?
    ensures Language(s, ms) && Fresh(tools, s.callIds, ms[0].calls)
       <==> Turn(tools, s, ms[0]).Some? && Language(Turn(tools, s, ms[0]).value, ms[1..])
  {
    var calls, rest := ms[0].calls, ms[1..];
    AddCallsIsFresh(tools, s.callIds, calls);
    if Fresh(tools, s.callIds, calls) && (s.state == AfterUser || s.state == AfterToolResult) {
      assert s.unresolved + Ids(calls) == Ids(calls);
      if calls != [] {
        AnsweredIsPending(calls, rest);
        assert |calls| <= |rest| ==> rest[|calls|..] == ms[1 + |calls|..];
      }
    }
  }

  lemma TurnFollowsLanguage(tools: seq<string>, s: Turns, ms: seq<Message>)
    requires Steady(s) && ms != []
    ensures Language(s, ms) && (ms[0].Assistant? ==> Fresh(tools, s.callIds, ms[0].calls))
       <==> Turn(tools, s, ms[0]).Some? && Language(Turn(tools, s, ms[0]).value, ms[1..])
  {
    if ms[0].Assistant? {
      AssistantFollowsLanguage(tools, s, ms);
    }
  }

  lemma {:induction false} RunFollowsLanguage(tools: seq<string>, s: Turns, ms: seq<Message>)
    requires Steady(s)
    ensures MachineAccepts(tools, s, ms) <==> Language(s, ms) && Fresh(tools, s.callIds, AllCalls(ms))
    decreases |ms|
  {
    if ms == [] {
    } else {
      var calls, rest := if ms[0].Assistant? then ms[0].calls else [], ms[1..];
      TurnFollowsLanguage(tools, s, ms);
      FreshSplit(tools, s.callIds, calls, AllCalls(rest));
      if Turn(tools, s, ms[0]).Some? {
        var next := Turn(tools, s, ms[0]).value;
        TurnKeepsSteady(tools, s, ms[0]);
        RunFollowsLanguage(tools, next, rest);
        AddCallsIsFresh(tools, s.callIds, calls);
        assert next.callIds == s.callIds + Ids(calls);
      }
    }
  }

  /** The turn machine accepts exactly the conversations of the grammar whose calls all have
      IDs of their own and name declared tools. */
  lemma TurnMachineIsGrammar(tools: seq<string>, ms: seq<Message>)
    ensures MachineAccepts(tools, START, ms) <==> Conversation(ms) && Fresh(tools, {}, AllCalls(ms))
  {
    RunFollowsLanguage(tools, START, ms);
  }

  /** The `messages` value of a request, shapes and all. */
  predicate ValidMessages(tools: seq<string>, value: JsonValue) {
    && value.Array?
    && ReadMessages(value.items).Some?
    && var ms := ReadMessages(value.items).value;
       Conversation(ms) && Fresh(tools, {}, AllCalls(ms))
  }
}
