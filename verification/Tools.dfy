/** Declared tools and the arguments of past calls: what validation leaves behind for the
    response side and for the translators. */
module Tools {
  import opened Wrappers
  import opened Json
  import opened JsonParser
  import opened JsonMachine
  import opened Transcript
  import opened Native
  import opened Translators
  import TranslatorMachine
  import Response

  predicate ToolNameChar(c: char) {
    'a' <= c <= 'z' || 'A' <= c <= 'Z' || '0' <= c <= '9' || c == '_' || c == '-'
  }

  predicate ValidToolName(name: string) {
    1 <= |name| <= 64 && forall i :: 0 <= i < |name| ==> ToolNameChar(name[i])
  }

  /** One entry of `tools`: the name it declares, if its shape is allowed. */
  function ReadTool(v: JsonValue): Option<string> {
    if !v.Object? || !Closed(v.fields, {"type", "function"}, {"type", "function"}) then None
    else if StringField(v.fields, "type") != Some("function") then None
    else
      match Field(v.fields, "function")
      case Some(Object(function_)) => ReadToolFunction(function_)
      case _ => None
  }

  function ReadToolFunction(fields: seq<Member>): Option<string> {
    var name := StringField(fields, "name");
    var description := Field(fields, "description");
    var parameters := Field(fields, "parameters");
    if !Closed(fields, {"name", "description", "parameters"}, {"name"}) then None
    else if name.None? || !ValidToolName(name.value) then None
    else if (description.Some? && !description.value.String?) || (parameters.Some? && !parameters.value.Object?) then None
    else name
  }

  predicate Distinct(names: seq<string>) {
    forall i, j :: 0 <= i < j < |names| ==> names[i] != names[j]
  }

  /** The names a `tools` value declares, if it is allowed. */
  function ReadTools(value: JsonValue): Option<seq<string>> {
    if !value.Array? || value.items == [] then None
    else
      match Collect(ReadTool, value.items)
      case None => None
      case Some(names) => if Distinct(names) then Some(names) else None
  }

  /** `validate_tools`. */
  method ValidateTools(value: JsonValue) returns (names: Option<seq<string>>)
    ensures names == ReadTools(value)
  {
    if !value.Array? || value.items == [] {
      return None;
    }
    names := CollectNames(value.items, ReadTool);
  }

  /** Its loop, whatever the entries look like. */
  method CollectNames(items: seq<JsonValue>, read: JsonValue -> Option<string>) returns (names: Option<seq<string>>)
    ensures names.Some? <==> Collect(read, items).Some? && Distinct(Collect(read, items).value)
    ensures names.Some? ==> names == Collect(read, items)
  {
    var seen: seq<string> := [];
    for index := 0 to |items|
      invariant |seen| == index && forall i :: 0 <= i < index ==> read(items[i]) == Some(seen[i])
      invariant Distinct(seen)
    {
      var name := read(items[index]);
      if name.None? {
        return None;
      }
      if name.value in seen {
        var i :| 0 <= i < |seen| && seen[i] == name.value;
        assert Collect(read, items).Some? ==> Collect(read, items).value[i] == Collect(read, items).value[index];
        return None;
      }
      seen := seen + [name.value];
    }
    assert Collect(read, items).value == seen;
    names := Some(seen);
  }

  // ----------------------------------------------- the tools a response sees

  lemma ToolIsNamed(v: JsonValue)
    requires ReadTool(v).Some?
    ensures Response.ToolName(v) == ReadTool(v) && ReadTool(v).value != ""
  {
  }

  lemma {:induction false} NamesDeclared(items: seq<JsonValue>)
    requires Collect(ReadTool, items).Some?
    ensures Response.ToolNames(items) == set name <- Collect(ReadTool, items).value
    ensures "" !in Response.ToolNames(items)
    decreases |items|
  {
    if items != [] {
      var names := Collect(ReadTool, items).value;
      ToolIsNamed(items[0]);
      NamesDeclared(items[1..]);
      assert names == [names[0]] + Collect(ReadTool, items[1..]).value;
    }
  }

  /** The names that validation accepts are exactly those that responses are checked against,
      and none of them is empty. */
  lemma ValidatedToolsAreDeclared(request: Response.CanonicalRequest, value: JsonValue)
    requires Field(request.fields, "tools") == Some(value) && ReadTools(value).Some?
    ensures Response.DeclaredTools(request) == set name <- ReadTools(value).value
    ensures "" !in Response.DeclaredTools(request)
  {
    NamesDeclared(value.items);
  }

  // --------------------------------------------- the arguments of past calls

  /** `validate_route_tool_arguments`. */
  method ValidateRouteToolArguments(source: seq<JsonValue>, ghost ms: seq<Message>) returns (ok: bool)
    requires ReadMessages(source) == Some(ms)
    ensures ok <==> RouteChecked(AllCalls(ms))
  {
    ReadShowsAll(source);
    ok := true;
    for index := 0 to |source|
      invariant RouteChecked(AllCalls(ms)) <==> RouteChecked(AllCalls(ms[index..]))
    {
      assert ms[index..][1..] == ms[index + 1..];
      ghost var calls := if ms[index].Assistant? then ms[index].calls else [];
      RouteCheckedParts(calls, AllCalls(ms[index + 1..]));
      var toolCalls := ToolCallsOf(source, index, ms);
      if toolCalls.Some? {
        var checked := CallArguments(toolCalls.value.items, calls);
        if !checked {
          return false;
        }
      }
    }
  }

  lemma RouteCheckedParts(a: seq<Call>, b: seq<Call>)
    ensures RouteChecked(a + b) <==> RouteChecked(a) && RouteChecked(b)
  {
    if RouteChecked(a + b) {
      forall i | 0 <= i < |a| ensures DecodeObject(a[i].arguments).Ok? {
        assert (a + b)[i] == a[i];
      }
      forall i | 0 <= i < |b| ensures DecodeObject(b[i].arguments).Ok? {
        assert (a + b)[|a| + i] == b[i];
      }
    }
  }

  /** The calls of the message at `index`; only an assistant's has any. */
  method ToolCallsOf(source: seq<JsonValue>, index: nat, ghost ms: seq<Message>) returns (v: Option<JsonValue>)
    requires ReadMessages(source) == Some(ms) && index < |source|
    ensures v.Some? ==> ms[index].Assistant?
    ensures ShowsCalls(v, if ms[index].Assistant? then ms[index].calls else [])
  {
    ReadShows(source[index], ms[index]);
    if !ms[index].Assistant? {
      NoToolCalls(source[index].fields);
    }
    v := Field(source[index].fields, "tool_calls");
  }

  lemma NoToolCalls(fields: seq<Member>)
    requires ReadFields(fields).Some? && !ReadFields(fields).value.Assistant?
    ensures Field(fields, "tool_calls").None?
  {
    if Field(fields, "tool_calls").Some? {
      FieldHasKey(fields, "tool_calls");
    }
  }

  lemma {:induction false} FieldHasKey(fields: seq<Member>, name: string)
    requires Field(fields, name).Some?
    ensures exists i :: 0 <= i < |fields| && fields[i].key == name
  {
    if fields[0].key != name {
      FieldHasKey(fields[1..], name);
      var i :| 0 <= i < |fields[1..]| && fields[1..][i].key == name;
      assert fields[i + 1].key == name;
    }
  }

  method CallArguments(items: seq<JsonValue>, ghost calls: seq<Call>) returns (ok: bool)
    requires ShowsCalls(Some(Array(items)), calls)
    ensures ok <==> RouteChecked(calls)
  {
    for i := 0 to |items|
      invariant forall k :: 0 <= k < i ==> DecodeObject(calls[k].arguments).Ok?
    {
      assert ShowsCall(items[i], calls[i]);
      var function_ := Field(items[i].fields, "function").value.fields;
      var parsed := DecodeJsonObject(StringField(function_, "arguments").value);
      if parsed.Err? {
        return false;
      }
    }
    ok := true;
  }

  /** What `validate_messages` and `validate_route_tool_arguments` accept, the translators can take. */
  lemma ValidatedIsTranslatable(tools: seq<string>, value: JsonValue)
    requires ValidMessages(tools, value) && RouteChecked(AllCalls(ReadMessages(value.items).value))
    ensures TranslatorMachine.Translatable(value.items, ReadMessages(value.items).value)
  {
  }
}
