/**
 * The provider-neutral chat message (`OctopusMessage`) and its tool calls:
 * conversion from and to dicts, and the in-place rewrite that makes a
 * conversation safe for providers that only understand text
 * ("XML fallback"): assistant tool calls become `<tool_code>` blocks and
 * tool results become user messages.
 */
module MessageTypes {
  import opened Wrappers
  import opened PyStr
  import opened Json
  import PyDict

  /** A tool call: `id` is optional, `kind` is the `type` field ("function"), `arguments` is a JSON string. */
  datatype ToolCall = ToolCall(id: Option<string>, kind: string, name: string, arguments: string)

  /** The five declared fields of a message. */
  datatype MessageData = MessageData(
    role: string,
    content: Option<string>,
    toolCalls: Option<seq<ToolCall>>,
    toolCallId: Option<string>,
    name: Option<string>)

  /** `x or default` for an optional string. */
  function OrElse(x: Option<string>, default: string): string {
    if x.Some? && x.value != "" then x.value else default
  }

  /** The text block one tool call becomes. */
  function ToolCodeBlock(tc: ToolCall): string {
    "<tool_code>\n{\n    \"name\": \"" + tc.name + "\",\n    \"arguments\": " + tc.arguments + "\n}\n</tool_code>"
  }

  /** One block per call, in order. */
  function XmlBlocks(calls: seq<ToolCall>): (r: seq<string>)
    ensures |r| == |calls|
    ensures forall i :: 0 <= i < |calls| ==> r[i] == ToolCodeBlock(calls[i])
  {
    if calls == [] then [] else XmlBlocks(calls[..|calls| - 1]) + [ToolCodeBlock(calls[|calls| - 1])]
  }

  /** The guard of the assistant rewrite: an assistant message with a non-empty list of tool calls. */
  predicate HasStructuredCalls(m: MessageData) {
    m.role == "assistant" && m.toolCalls.Some? && m.toolCalls.value != []
  }

  /** The state a message is left in by the in-place XML-fallback rewrite. */
  function Sanitized(m: MessageData): (r: MessageData)
    ensures !HasStructuredCalls(r) && r.role != "tool"
    ensures r.role == if m.role == "tool" then "user" else m.role
    ensures !HasStructuredCalls(m) && m.role != "tool" ==> r == m
    ensures HasStructuredCalls(m) || m.role == "tool" ==> r.content.Some?
  {
    var m1 :=
      if HasStructuredCalls(m) then
        var current := OrElse(m.content, "");
        var separator := if current != "" then "\n\n" else "";
        m.(content := Some(current + separator + Join("\n", XmlBlocks(m.toolCalls.value))), toolCalls := None)
      else m;
    if m1.role == "tool" then
      m1.(role := "user",
          content := Some("[Tool Result: " + OrElse(m1.name, "unknown") + "]\n" + OrElse(m1.content, "")),
          toolCallId := None,
          name := None)
    else m1
  }

  /** An assistant message with tool calls loses them; each call appears as a block, in order, after the old text. */
  lemma {:induction false} SanitizeAssistant(m: MessageData)
    requires HasStructuredCalls(m)
    ensures var r := Sanitized(m);
      r.role == "assistant" && r.toolCalls.None? && r.toolCallId == m.toolCallId && r.name == m.name
      && r.content.Some?
      && (OrElse(m.content, "") == "" ==> r.content.value == Join("\n", XmlBlocks(m.toolCalls.value)))
      && (OrElse(m.content, "") != "" ==>
            StartsWith(r.content.value, m.content.value + "\n\n")
            && r.content.value[|m.content.value| + 2..] == Join("\n", XmlBlocks(m.toolCalls.value)))
  {
    var current := OrElse(m.content, "");
    var blocks := Join("\n", XmlBlocks(m.toolCalls.value));
    var separator := if current != "" then "\n\n" else "";
    var m1 := m.(content := Some(current + separator + blocks), toolCalls := None);
    assert m1.role == "assistant";
    assert "assistant" != "tool" by { assert "assistant"[0] != "tool"[0]; }
    assert Sanitized(m) == m1;
    if current != "" {
      var prefix := m.content.value + "\n\n";
      assert m1.content.value == prefix + blocks;
      assert m1.content.value[..|prefix|] == prefix;
    } else {
      assert m1.content.value == blocks;
    }
  }

  /** A tool result becomes a user message naming the tool. */
  lemma {:induction false} SanitizeToolResult(m: MessageData)
    requires m.role == "tool"
    ensures var r := Sanitized(m);
      r.role == "user" && r.toolCallId.None? && r.name.None? && r.toolCalls == m.toolCalls
      && r.content == Some("[Tool Result: " + (if m.name.Some? && m.name.value != "" then m.name.value else "unknown")
                           + "]\n" + (if m.content.Some? then m.content.value else ""))
  {
  }

  /** Any other message is left exactly as it was. */
  lemma {:induction false} SanitizeOther(m: MessageData)
    requires m.role != "tool" && !HasStructuredCalls(m)
    ensures Sanitized(m) == m
  {
  }

  /** After the rewrite no message is a tool result and none carries structured tool calls. */
  lemma {:induction false} SanitizedIsTextOnly(m: MessageData)
    ensures Sanitized(m).role != "tool" && !HasStructuredCalls(Sanitized(m))
  {
  }

  /** Rewriting twice is the same as rewriting once. */
  lemma {:induction false} SanitizeIdempotent(m: MessageData)
    ensures Sanitized(Sanitized(m)) == Sanitized(m)
  {
    var r := Sanitized(m);
    assert r.role != "tool";
    assert !HasStructuredCalls(r);
  }

  /** A tool offered to a model: `{"type": "function", "function": {name, description, parameters}}`. */
  datatype ToolSpec = ToolSpec(name: string, description: string, parameters: Json)

  /** The `function` part of a tool definition. */
  function FunctionJson(t: ToolSpec): Json {
    JObj([("name", JStr(t.name)), ("description", JStr(t.description)), ("parameters", t.parameters)])
  }

  function ToolJson(t: ToolSpec): Json {
    JObj([("type", JStr("function")), ("function", FunctionJson(t))])
  }

  /** `model_dump(exclude_none=True)` of one tool call. */
  function ToolCallToJson(tc: ToolCall): Json {
    JObj((if tc.id.Some? then [("id", JStr(tc.id.value))] else [])
         + [("type", JStr(tc.kind)),
            ("function", JObj([("name", JStr(tc.name)), ("arguments", JStr(tc.arguments))]))])
  }

  function ToolCallsToJson(calls: seq<ToolCall>): (r: seq<Json>)
    ensures |r| == |calls|
  {
    if calls == [] then [] else [ToolCallToJson(calls[0])] + ToolCallsToJson(calls[1..])
  }

  /** The pair `(key, v)` in front of `rest` when `v` is set; nothing otherwise. */
  function WithOpt(key: string, v: Option<Json>, rest: seq<(string, Json)>): (r: seq<(string, Json)>)
    ensures |r| == |rest| + (if v.Some? then 1 else 0)
  {
    if v.Some? then [(key, v.value)] + rest else rest
  }

  function StrOpt(v: Option<string>): Option<Json> {
    if v.Some? then Some(JStr(v.value)) else None
  }

  /** `to_dict()`: the declared fields in order, each omitted when it is `None`. */
  function ToDict(m: MessageData): (r: Json)
    ensures r.JObj? && |r.fields| >= 1 && r.fields[0] == ("role", JStr(m.role))
    ensures |r.fields| == 1 + (if m.content.Some? then 1 else 0) + (if m.toolCalls.Some? then 1 else 0)
      + (if m.toolCallId.Some? then 1 else 0) + (if m.name.Some? then 1 else 0)
  {
    JObj([("role", JStr(m.role))]
         + WithOpt("content", StrOpt(m.content),
           WithOpt("tool_calls", if m.toolCalls.Some? then Some(JArr(ToolCallsToJson(m.toolCalls.value))) else None,
           WithOpt("tool_call_id", StrOpt(m.toolCallId),
           WithOpt("name", StrOpt(m.name), [])))))
  }

  lemma {:induction false} GetWithOpt(key: string, v: Option<Json>, rest: seq<(string, Json)>, k: string)
    ensures PyDict.Get(WithOpt(key, v, rest), k) == if v.Some? && key == k then v else PyDict.Get(rest, k)
  {
    if v.Some? {
      PyDict.GetCons((key, v.value), rest, k);
    }
  }

  /** A field that is absent or `null` is `None`; a string is kept; anything else fails validation. */
  function OptString(v: Json, key: string): Result<Option<string>> {
    match Member(v, key)
    case None => Ok(None)
    case Some(JNull) => Ok(None)
    case Some(JStr(s)) => Ok(Some(s))
    case Some(_) => Err("ValidationError: " + key + " must be a string")
  }

  /** The `type` field of a tool call: "function" when absent. */
  function KindField(v: Json): Result<string> {
    match Member(v, "type")
    case None => Ok("function")
    case Some(JStr(s)) => Ok(s)
    case Some(_) => Err("ValidationError: type must be a string")
  }

  /** Validation of one tool-call dict. */
  function ToolCallFromJson(v: Json): Result<ToolCall> {
    if !v.JObj? then Err("ValidationError: tool call must be an object")
    else match OptString(v, "id")
      case Err(e) => Err(e)
      case Ok(id) =>
        match KindField(v)
        case Err(e) => Err(e)
        case Ok(kind) =>
          match Member(v, "function")
          case None => Err("ValidationError: function is required")
          case Some(f) =>
            match StrMember(f, "name")
            case None => Err("ValidationError: function.name must be a string")
            case Some(n) =>
              match StrMember(f, "arguments")
              case None => Err("ValidationError: function.arguments must be a string")
              case Some(args) => Ok(ToolCall(id, kind, n, args))
  }

  function ToolCallsFromJson(items: seq<Json>): Result<seq<ToolCall>> {
    if items == [] then Ok([])
    else match (ToolCallFromJson(items[0]), ToolCallsFromJson(items[1..]))
      case (Ok(c), Ok(cs)) => Ok([c] + cs)
      case (Err(e), _) => Err(e)
      case (_, Err(e)) => Err(e)
  }

  /** The `tool_calls` field: absent or `null` is `None`, a list is validated item by item. */
  function CallsField(v: Json): Result<Option<seq<ToolCall>>> {
    match Member(v, "tool_calls")
    case None => Ok(None)
    case Some(JNull) => Ok(None)
    case Some(JArr(items)) =>
      (match ToolCallsFromJson(items)
       case Ok(cs) => Ok(Some(cs))
       case Err(e) => Err(e))
    case Some(_) => Err("ValidationError: tool_calls must be a list")
  }

  /** `OctopusMessage(**d)`: validation of a message dict. */
  function FromDict(v: Json): (r: Result<MessageData>)
    ensures r.Ok? ==> v.JObj? && Member(v, "role") == Some(JStr(r.value.role))
  {
    if !v.JObj? then Err("TypeError: message must be a mapping")
    else match Member(v, "role")
      case Some(JStr(role)) =>
        (match OptString(v, "content")
         case Err(e) => Err(e)
         case Ok(c) =>
           match CallsField(v)
           case Err(e) => Err(e)
           case Ok(tcs) =>
             match OptString(v, "tool_call_id")
             case Err(e) => Err(e)
             case Ok(tid) =>
               match OptString(v, "name")
               case Err(e) => Err(e)
               case Ok(n) => Ok(MessageData(role, c, tcs, tid, n)))
      case _ => Err("ValidationError: role must be a string")
  }

  function CallsJson(m: MessageData): Option<Json> {
    if m.toolCalls.Some? then Some(JArr(ToolCallsToJson(m.toolCalls.value))) else None
  }

  lemma {:induction false} LookupKey(m: MessageData, k: string)
    ensures Member(ToDict(m), k)
      == if k == "role" then Some(JStr(m.role))
         else if k == "content" && m.content.Some? then StrOpt(m.content)
         else if k == "tool_calls" && m.toolCalls.Some? then CallsJson(m)
         else if k == "tool_call_id" && m.toolCallId.Some? then StrOpt(m.toolCallId)
         else if k == "name" && m.name.Some? then StrOpt(m.name)
         else None
  {
    var e4 := WithOpt("name", StrOpt(m.name), []);
    var e3 := WithOpt("tool_call_id", StrOpt(m.toolCallId), e4);
    var e2 := WithOpt("tool_calls", CallsJson(m), e3);
    var e1 := WithOpt("content", StrOpt(m.content), e2);
    assert ToDict(m).fields == [("role", JStr(m.role))] + e1;
    PyDict.GetCons(("role", JStr(m.role)), e1, k);
    GetWithOpt("content", StrOpt(m.content), e2, k);
    GetWithOpt("tool_calls", CallsJson(m), e3, k);
    GetWithOpt("tool_call_id", StrOpt(m.toolCallId), e4, k);
    GetWithOpt("name", StrOpt(m.name), [], k);
  }

  /** Where each field of `to_dict()` comes from: the value when it is set, nothing when it is `None`. */
  lemma {:induction false} LookupInToDict(m: MessageData)
    ensures Member(ToDict(m), "role") == Some(JStr(m.role))
    ensures Member(ToDict(m), "content") == StrOpt(m.content)
    ensures Member(ToDict(m), "tool_calls") == CallsJson(m)
    ensures Member(ToDict(m), "tool_call_id") == StrOpt(m.toolCallId)
    ensures Member(ToDict(m), "name") == StrOpt(m.name)
  {
    LookupKey(m, "role");
    LookupKey(m, "content");
    LookupKey(m, "tool_calls");
    LookupKey(m, "tool_call_id");
    LookupKey(m, "name");
  }

  /** `to_dict()` keeps every field that is set, and only those; the structured tool calls survive it. */
  lemma {:induction false} ToDictKeys(m: MessageData)
    ensures var d := ToDict(m).fields;
      PyDict.HasKey(d, "role")
      && (PyDict.HasKey(d, "content") <==> m.content.Some?)
      && (PyDict.HasKey(d, "tool_calls") <==> m.toolCalls.Some?)
      && (PyDict.HasKey(d, "tool_call_id") <==> m.toolCallId.Some?)
      && (PyDict.HasKey(d, "name") <==> m.name.Some?)
    ensures m.toolCalls.Some? ==> Member(ToDict(m), "tool_calls") == Some(JArr(ToolCallsToJson(m.toolCalls.value)))
  {
    LookupInToDict(m);
    var d := ToDict(m).fields;
    PyDict.GetSome(d, "role");
    PyDict.GetSome(d, "content");
    PyDict.GetSome(d, "tool_calls");
    PyDict.GetSome(d, "tool_call_id");
    PyDict.GetSome(d, "name");
  }

  lemma {:induction false} ToolCallLookups(tc: ToolCall)
    ensures var v := ToolCallToJson(tc);
      Member(v, "id") == StrOpt(tc.id) && Member(v, "type") == Some(JStr(tc.kind))
      && Member(v, "function") == Some(JObj([("name", JStr(tc.name)), ("arguments", JStr(tc.arguments))]))
  {
    var v := ToolCallToJson(tc);
    var f := JObj([("name", JStr(tc.name)), ("arguments", JStr(tc.arguments))]);
    var tail := [("type", JStr(tc.kind)), ("function", f)];
    assert "type" != "function" by { assert "type"[0] != "function"[0]; }
    assert "id" != "type" by { assert "id"[0] != "type"[0]; }
    assert "id" != "function" by { assert "id"[0] != "function"[0]; }
    assert v.fields == WithOpt("id", StrOpt(tc.id), tail);
    forall k | k in ["id", "type", "function"]
      ensures PyDict.Get(v.fields, k)
        == if k == "id" then StrOpt(tc.id) else if k == "type" then Some(JStr(tc.kind)) else Some(f)
    {
      GetWithOpt("id", StrOpt(tc.id), tail, k);
      PyDict.GetCons(tail[0], tail[1..], k);
      PyDict.GetCons(tail[1], [], k);
    }
  }

  lemma {:induction false} FunctionLookups(name: string, arguments: string)
    ensures var f := JObj([("name", JStr(name)), ("arguments", JStr(arguments))]);
      StrMember(f, "name") == Some(name) && StrMember(f, "arguments") == Some(arguments)
  {
    var fn := [("name", JStr(name)), ("arguments", JStr(arguments))];
    assert "name" != "arguments" by { assert "name"[0] != "arguments"[0]; }
    PyDict.GetCons(fn[0], fn[1..], "name");
    PyDict.GetCons(fn[0], fn[1..], "arguments");
    PyDict.GetCons(fn[1], [], "arguments");
  }

  lemma {:induction false} ToolCallRoundTrip(tc: ToolCall)
    ensures ToolCallFromJson(ToolCallToJson(tc)) == Ok(tc)
  {
    var v := ToolCallToJson(tc);
    ToolCallLookups(tc);
    FunctionLookups(tc.name, tc.arguments);
    assert OptString(v, "id") == Ok(tc.id);
    assert KindField(v) == Ok(tc.kind);
  }

  lemma {:induction false} ToolCallsRoundTrip(calls: seq<ToolCall>)
    ensures ToolCallsFromJson(ToolCallsToJson(calls)) == Ok(calls)
  {
    if calls != [] {
      var js := ToolCallsToJson(calls);
      assert js[0] == ToolCallToJson(calls[0]);
      assert js[1..] == ToolCallsToJson(calls[1..]);
      ToolCallRoundTrip(calls[0]);
      ToolCallsRoundTrip(calls[1..]);
      assert [calls[0]] + calls[1..] == calls;
    }
  }

  lemma {:induction false} OptStringOf(v: Json, key: string, x: Option<string>)
    requires Member(v, key) == StrOpt(x)
    ensures OptString(v, key) == Ok(x)
  {
  }

  lemma {:induction false} CallsFieldOf(v: Json, calls: Option<seq<ToolCall>>)
    requires Member(v, "tool_calls") == if calls.Some? then Some(JArr(ToolCallsToJson(calls.value))) else None
    ensures CallsField(v) == Ok(calls)
  {
    if calls.Some? {
      ToolCallsRoundTrip(calls.value);
    }
  }

  /** Reading back `to_dict()` gives the same message. */
  lemma {:induction false} ToDictRoundTrip(m: MessageData)
    ensures FromDict(ToDict(m)) == Ok(m)
  {
    var v := ToDict(m);
    LookupInToDict(m);
    OptStringOf(v, "content", m.content);
    OptStringOf(v, "tool_call_id", m.toolCallId);
    OptStringOf(v, "name", m.name);
    CallsFieldOf(v, m.toolCalls);
    FromDictOfFields(v, m);
  }

  lemma {:induction false} FromDictOfFields(v: Json, m: MessageData)
    requires v.JObj? && Member(v, "role") == Some(JStr(m.role))
    requires OptString(v, "content") == Ok(m.content) && CallsField(v) == Ok(m.toolCalls)
    requires OptString(v, "tool_call_id") == Ok(m.toolCallId) && OptString(v, "name") == Ok(m.name)
    ensures FromDict(v) == Ok(m)
  {
  }

  /** A message object whose fields are updated in place. */
  class OctopusMessage {
    var role: string
    var content: Option<string>
    var toolCalls: Option<seq<ToolCall>>
    var toolCallId: Option<string>
    var name: Option<string>

    function Data(): MessageData
      reads this
    {
      MessageData(role, content, toolCalls, toolCallId, name)
    }

    /** `OctopusMessage(**d)` for already-validated fields. */
    constructor (d: MessageData)
      ensures Data() == d
    {
      role := d.role;
      content := d.content;
      toolCalls := d.toolCalls;
      toolCallId := d.toolCallId;
      name := d.name;
    }

    /** `from_any` on a message object: a deep copy, so rewriting the copy leaves this object alone. */
    method Copy() returns (c: OctopusMessage)
      ensures fresh(c) && c.Data() == Data() && c != this
    {
      c := new OctopusMessage(Data());
    }

    /** `sanitize_for_xml_fallback()` */
    method SanitizeForXmlFallback()
      modifies this
      ensures Data() == Sanitized(old(Data()))
    {
      if role == "assistant" && toolCalls.Some? && toolCalls.value != [] {
        var calls := toolCalls.value;
        var blocks: seq<string> := [];
        for i := 0 to |calls|
          invariant blocks == XmlBlocks(calls[..i])
        {
          assert calls[..i + 1][..i] == calls[..i];
          blocks := blocks + [ToolCodeBlock(calls[i])];
        }
        assert calls[..|calls|] == calls;
        var current := if content.Some? then content.value else "";
        var separator := if current != "" then "\n\n" else "";
        content := Some(current + separator + Join("\n", blocks));
        toolCalls := None;
      }
      if role == "tool" {
        role := "user";
        var toolName := if name.Some? && name.value != "" then name.value else "unknown";
        content := Some("[Tool Result: " + toolName + "]\n" + (if content.Some? then content.value else ""));
        toolCallId := None;
        name := None;
      }
    }
  }

  /** `from_any` on a dict: validate it into a fresh object. */
  method FromAny(v: Json) returns (r: Result<OctopusMessage>)
    ensures FromDict(v).Err? <==> r.Err?
    ensures r.Err? ==> r.error == FromDict(v).error
    ensures r.Ok? ==> fresh(r.value) && r.value.Data() == FromDict(v).value
  {
    match FromDict(v)
    case Err(e) => r := Err(e);
    case Ok(d) =>
      var m := new OctopusMessage(d);
      r := Ok(m);
  }
}
