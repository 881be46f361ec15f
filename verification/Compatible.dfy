/** The compatible family's transcript: the leading instructions become one system message. */
module Compatible {
  import opened Wrappers
  import opened Json
  import opened Transcript
  import opened Native
  import opened Translators

  /** A system or developer message. */
  predicate IsInstruction(v: JsonValue) {
    v.Object? && (StringField(v.fields, "role") == Some("system") || StringField(v.fields, "role") == Some("developer"))
  }

  function Leading(items: seq<JsonValue>): (n: nat)
    ensures n <= |items|
  {
    if items != [] && IsInstruction(items[0]) then 1 + Leading(items[1..]) else 0
  }

  /** The contents of the leading instructions, joined by a blank line. */
  function Joined(instructions: seq<JsonValue>): string {
    if instructions == [] then ""
    else
      var content := if instructions[0].Object? then StringField(instructions[0].fields, "content") else None;
      (if content.Some? then content.value else "")
      + (if |instructions| == 1 then "" else "\n\n" + Joined(instructions[1..]))
  }

  /** `combined_instruction`. */
  function CombinedInstruction(items: seq<JsonValue>): Option<string> {
    if Leading(items) == 0 then None else Some(Joined(items[..Leading(items)]))
  }

  function SystemMessage(text: string): JsonValue {
    Object([Member("role", String("system")), Member("content", String(text))])
  }

  /** `compatible_messages`. */
  function CompatibleMessages(items: seq<JsonValue>): seq<JsonValue> {
    match CombinedInstruction(items)
    case None => items
    case Some(text) => [SystemMessage(text)] + items[Leading(items)..]
  }

  lemma ReadsAsInstruction(text: string)
    ensures ReadMessage(SystemMessage(text)) == Some(Instruction(text)) && IsInstruction(SystemMessage(text))
  {
    var fields := SystemMessage(text).fields;
    assert Field(fields, "role") == Some(String("system"));
    assert fields[1..] == [Member("content", String(text))];
    assert Field(fields, "content") == Some(String(text));
    assert Closed(fields, {"role", "content"}, {"role", "content"});
  }

  /** A message that reads as an instruction is one, and no other is. */
  lemma InstructionReads(v: JsonValue)
    requires ReadMessage(v).Some?
    ensures IsInstruction(v) <==> ReadMessage(v).value.Instruction?
  {
    ReadShows(v, ReadMessage(v).value);
  }

  lemma ReadTail(items: seq<JsonValue>, n: nat)
    requires ReadMessages(items).Some? && n <= |items|
    ensures ReadMessages(items[n..]) == Some(ReadMessages(items).value[n..])
  {
    var ms, tail := ReadMessages(items).value, items[n..];
    forall i | 0 <= i < |tail| ensures ReadMessage(tail[i]) == Some(ms[n..][i]) {
      assert tail[i] == items[n + i];
    }
    assert ReadMessages(tail).value == ms[n..];
  }

  lemma ReadCons(v: JsonValue, items: seq<JsonValue>)
    requires ReadMessage(v).Some? && ReadMessages(items).Some?
    ensures ReadMessages([v] + items) == Some([ReadMessage(v).value] + ReadMessages(items).value)
  {
    assert ([v] + items)[1..] == items;
  }

  lemma LessInstruction(ms: seq<Message>)
    requires ms != [] && ms[0].Instruction?
    ensures PlainMessages(ms) == PlainMessages(ms[1..]) && AllCalls(ms) == AllCalls(ms[1..])
  {
    assert [] + PlainMessages(ms[1..]) == PlainMessages(ms[1..]) && [] + AllCalls(ms[1..]) == AllCalls(ms[1..]);
  }

  /** What follows the leading instructions is the same conversation. */
  lemma {:induction false} AfterInstructions(items: seq<JsonValue>)
    requires ReadMessages(items).Some? && Conversation(ReadMessages(items).value)
    ensures var ms, k := ReadMessages(items).value, Leading(items);
            && k < |items|
            && UserTurn(ms[k..])
            && PlainMessages(ms) == PlainMessages(ms[k..]) && AllCalls(ms) == AllCalls(ms[k..])
    decreases |items|
  {
    var ms, k := ReadMessages(items).value, Leading(items);
    InstructionReads(items[0]);
    ReadTail(items, 1);
    if k == 0 {
      assert ms[0..] == ms;
    } else {
      AfterInstructions(items[1..]);
      assert ms[1..][k - 1..] == ms[k..];
      LessInstruction(ms);
    }
  }

  lemma OneInstruction(text: string, rest: seq<Message>)
    requires UserTurn(rest)
    ensures var ms := [Instruction(text)] + rest;
            Conversation(ms) && PlainMessages(ms) == PlainMessages(rest) && AllCalls(ms) == AllCalls(rest)
  {
    var ms := [Instruction(text)] + rest;
    assert ms[1..] == rest;
    assert [] + PlainMessages(rest) == PlainMessages(rest) && [] + AllCalls(rest) == AllCalls(rest);
  }

  lemma MergedOnce(text: string, rest: seq<JsonValue>)
    requires rest != [] && !IsInstruction(rest[0])
    ensures var sent := [SystemMessage(text)] + rest;
            Leading(sent) == 1 && CombinedInstruction(sent) == Some(text) && CompatibleMessages(sent) == sent
  {
    var sent := [SystemMessage(text)] + rest;
    ReadsAsInstruction(text);
    assert sent[1..] == rest && sent[..1] == [SystemMessage(text)] && text + "" == text;
  }

  /** What the compatible family is sent is itself a valid transcript with the same conversation and
      the same combined instruction, in a single message; sending it on changes nothing more. */
  lemma CompatibleKeepsTheConversation(tools: seq<string>, items: seq<JsonValue>)
    requires ValidMessages(tools, Array(items))
    ensures var sent := CompatibleMessages(items);
            && ValidMessages(tools, Array(sent))
            && PlainMessages(ReadMessages(sent).value) == PlainMessages(ReadMessages(items).value)
            && Leading(sent) <= 1 && CombinedInstruction(sent) == CombinedInstruction(items)
            && CompatibleMessages(sent) == sent
  {
    var ms, k := ReadMessages(items).value, Leading(items);
    AfterInstructions(items);
    if k > 0 {
      var text, rest := Joined(items[..k]), items[k..];
      ReadTail(items, k);
      ReadsAsInstruction(text);
      ReadCons(SystemMessage(text), rest);
      InstructionReads(rest[0]);
      OneInstruction(text, ms[k..]);
      MergedOnce(text, rest);
    }
  }
}
