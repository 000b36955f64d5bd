/**
 * The Model Context Protocol client (`JSONRPCClient`): JSON-RPC 2.0
 * requests with increasing ids written to a server process, and a reader
 * that consumes the server's output lines until the response with the
 * expected id arrives. Protocol revision "2024-11-05".
 *
 * The process is abstract: what is written is recorded in `sent`, and the
 * lines the server prints are given to `Start` and consumed from `pending`.
 * `json.loads` is the parameter `loads` (`None` for a decoding error).
 */
module McpProtocol {
  import opened Wrappers
  import opened Json
  import PyDict

  const ProtocolVersion := "2024-11-05"

  /** A request object: it carries an id and expects a response. */
  function RequestMessage(name: string, params: Json, id: int): Json {
    JObj([("jsonrpc", JStr("2.0")), ("method", JStr(name)), ("params", params), ("id", JInt(id))])
  }

  /** A notification object: no id, so no response (section 4.1 of the JSON-RPC 2.0 specification). */
  function NotificationMessage(name: string, params: Json): Json {
    JObj([("jsonrpc", JStr("2.0")), ("method", JStr(name)), ("params", params)])
  }

  function InitializeParams(): Json {
    JObj([("protocolVersion", JStr(ProtocolVersion)), ("capabilities", JObj([])),
          ("clientInfo", JObj([("name", JStr("octopus")), ("version", JStr("4.0"))]))])
  }

  function ToolsCallParams(name: string, args: Json): Json {
    JObj([("name", JStr(name)), ("arguments", args)])
  }

  /** Requests carry version "2.0", their method, their params and their id; notifications carry no id. */
  lemma {:induction false} MessageShapes(name: string, params: Json, id: int)
    ensures Member(RequestMessage(name, params, id), "jsonrpc") == Some(JStr("2.0"))
    ensures Member(RequestMessage(name, params, id), "method") == Some(JStr(name))
    ensures Member(RequestMessage(name, params, id), "params") == Some(params)
    ensures Member(RequestMessage(name, params, id), "id") == Some(JInt(id))
    ensures Member(NotificationMessage(name, params), "jsonrpc") == Some(JStr("2.0"))
    ensures Member(NotificationMessage(name, params), "id").None?
  {
    var req := RequestMessage(name, params, id).fields;
    var note := NotificationMessage(name, params).fields;
    assert "jsonrpc"[0] != "method"[0] && "jsonrpc"[0] != "params"[0] && "jsonrpc"[0] != "id"[0];
    assert "method"[0] != "params"[0] && "method"[0] != "id"[0] && "params"[0] != "id"[0];
    PyDict.GetFirstAt(req, 0);
    PyDict.GetFirstAt(req, 1);
    PyDict.GetFirstAt(req, 2);
    PyDict.GetFirstAt(req, 3);
    PyDict.GetFirstAt(note, 0);
    PyDict.GetSome(note, "id");
  }

  /** Python `msg.get("id") == expect_id`: `True` equals 1, `False` equals 0 and a float equals an integer of the same value. */
  predicate IdMatches(v: Json, expectId: int) {
    v == JInt(expectId) || v == JFloat(expectId as real)
    || (v == JBool(true) && expectId == 1) || (v == JBool(false) && expectId == 0)
  }

  /** A line the reader passes over: undecodable, or a dict answering another id. */
  predicate Skipped(line: string, expectId: int, loads: string -> Option<Json>) {
    match loads(line)
    case None => true
    case Some(msg) => msg.JObj? && !IdMatches(Member(msg, "id").GetOr(JNull), expectId)
  }

  /**
   * What `_read_response` does to the remaining output lines: the outcome
   * and the lines left unread. The end of the stream and an `error` member
   * raise; a decoded value that is not a dict has no `get` and raises too.
   */
  function ReadFrom(lines: seq<string>, expectId: int, loads: string -> Option<Json>): (r: (Result<Json>, seq<string>))
    ensures |r.1| <= |lines| && r.1 == lines[|lines| - |r.1|..]
    ensures lines != [] ==> |r.1| < |lines|
    decreases |lines|
  {
    if lines == [] then (Err("RuntimeError: Process exited unexpectedly"), [])
    else
      match loads(lines[0])
      case None => ReadFrom(lines[1..], expectId, loads)
      case Some(msg) =>
        if !msg.JObj? then (Err("AttributeError: object has no attribute 'get'"), lines[1..])
        else if IdMatches(Member(msg, "id").GetOr(JNull), expectId) then
          if PyDict.HasKey(msg.fields, "error") then (Err("RuntimeError: MCP Error"), lines[1..])
          else (Ok(Member(msg, "result").GetOr(JNull)), lines[1..])
        else ReadFrom(lines[1..], expectId, loads)
  }

  /** The reader returns the `result` of the first response with the expected id, consuming exactly up to it. */
  lemma {:induction false} FirstMatchWins(skipped: seq<string>, line: string, rest: seq<string>, expectId: int,
                                          loads: string -> Option<Json>)
    requires forall i :: 0 <= i < |skipped| ==> Skipped(skipped[i], expectId, loads)
    requires loads(line).Some? && loads(line).value.JObj?
    requires IdMatches(Member(loads(line).value, "id").GetOr(JNull), expectId)
    ensures ReadFrom(skipped + [line] + rest, expectId, loads)
      == (if PyDict.HasKey(loads(line).value.fields, "error") then Err("RuntimeError: MCP Error")
          else Ok(Member(loads(line).value, "result").GetOr(JNull)), rest)
  {
    var all := skipped + [line] + rest;
    if skipped == [] {
      assert all[0] == line && all[1..] == rest;
    } else {
      assert all[0] == skipped[0] && all[1..] == skipped[1..] + [line] + rest;
      FirstMatchWins(skipped[1..], line, rest, expectId, loads);
    }
  }

  /** A stream with no response to the expected id ends in an error, with everything consumed. */
  lemma {:induction false} NoMatchRaises(lines: seq<string>, expectId: int, loads: string -> Option<Json>)
    requires forall i :: 0 <= i < |lines| ==> Skipped(lines[i], expectId, loads)
    ensures ReadFrom(lines, expectId, loads) == (Err("RuntimeError: Process exited unexpectedly"), [])
  {
    if lines != [] {
      NoMatchRaises(lines[1..], expectId, loads);
    }
  }

  /** `for t in v`: the items of a list, the keys of a dict or the characters of a string. */
  function Iterated(v: Json): (r: Result<seq<Json>>)
    ensures r.Ok? <==> IsContainer(v)
    ensures v.JArr? ==> r == Ok(v.items)
  {
    match v
    case JArr(items) => Ok(items)
    case JObj(fields) => Ok(seq(|fields|, i requires 0 <= i < |fields| => JStr(fields[i].0)))
    case JStr(s) => Ok(seq(|s|, i requires 0 <= i < |s| => JStr([s[i]])))
    case _ => Err("TypeError: object is not iterable")
  }

  /** `ToolDefinition` */
  datatype ToolDefinition = ToolDefinition(name: Json, description: Json, inputSchema: Json)

  /** One definition per listed tool, in order; `name` is required, the other two have defaults. */
  function ToolDefs(items: seq<Json>): (r: Result<seq<ToolDefinition>>)
    ensures r.Ok? <==> forall i :: 0 <= i < |items| ==> Subscript(items[i], "name").Ok?
    ensures r.Ok? ==> |r.value| == |items|
    ensures r.Ok? ==> forall i :: 0 <= i < |items| ==>
      Subscript(items[i], "name") == Ok(r.value[i].name)
      && r.value[i].description == MemberOr(items[i], "description", JStr(""))
      && r.value[i].inputSchema == MemberOr(items[i], "inputSchema", JObj([]))
  {
    if items == [] then Ok([])
    else
      var init :- ToolDefs(items[..|items| - 1]);
      var t := items[|items| - 1];
      var name :- Subscript(t, "name");
      Ok(init + [ToolDefinition(name, MemberOr(t, "description", JStr("")), MemberOr(t, "inputSchema", JObj([])))])
  }

  /** The text of a `tools/call` result: the `text` of each `text` item, in order. */
  function TextOf(items: seq<Json>): (r: Result<string>)
    ensures items == [] ==> r == Ok("")
  {
    if items == [] then Ok("")
    else
      var init :- TextOf(items[..|items| - 1]);
      ItemText(init, items[|items| - 1])
  }

  /** One step of the accumulation: `text_output += item.get("text", "")` for text items. */
  function ItemText(acc: string, item: Json): Result<string> {
    if !item.JObj? then Err("AttributeError: object has no attribute 'get'")
    else if Member(item, "type") == Some(JStr("text")) then
      match MemberOr(item, "text", JStr(""))
      case JStr(s) => Ok(acc + s)
      case _ => Err("TypeError: can only concatenate str to str")
    else Ok(acc)
  }

  /** The text of a concatenation is the concatenation of the texts. */
  lemma {:induction false} TextOfAppend(a: seq<Json>, b: seq<Json>)
    requires TextOf(a).Ok? && TextOf(b).Ok?
    ensures TextOf(a + b) == Ok(TextOf(a).value + TextOf(b).value)
    decreases |b|
  {
    if b == [] {
      assert a + b == a;
      assert TextOf(a).value + "" == TextOf(a).value;
    } else {
      var b0 := b[..|b| - 1];
      var last := b[|b| - 1];
      assert (a + b)[..|a + b| - 1] == a + b0;
      assert TextOf(b0).Ok?;
      TextOfAppend(a, b0);
      assert TextOf(a + b) == ItemText(TextOf(a + b0).value, last);
      assert TextOf(b) == ItemText(TextOf(b0).value, last);
      if last.JObj? && Member(last, "type") == Some(JStr("text")) {
        var t := MemberOr(last, "text", JStr("")).s;
        assert (TextOf(a).value + TextOf(b0).value) + t == TextOf(a).value + (TextOf(b0).value + t);
      }
    }
  }

  /** A dict item that is not of type `text` contributes nothing. */
  lemma {:induction false} IgnoresOtherItems(a: seq<Json>, item: Json, b: seq<Json>)
    requires item.JObj? && Member(item, "type") != Some(JStr("text"))
    requires TextOf(a).Ok? && TextOf(b).Ok?
    ensures TextOf(a + [item] + b) == TextOf(a + b)
  {
    assert TextOf([item]) == Ok("") by {
      assert [item][..0] == [];
    }
    TextOfAppend(a, [item]);
    assert TextOf(a + [item]) == TextOf(a);
    TextOfAppend(a + [item], b);
    TextOfAppend(a, b);
  }

  /** The loop of `list_tools`: one definition per listed tool, or the error of the first tool without a name. */
  method Definitions(items: seq<Json>) returns (r: Result<seq<ToolDefinition>>)
    ensures r == ToolDefs(items)
  {
    var tools: seq<ToolDefinition> := [];
    for i := 0 to |items|
      invariant ToolDefs(items[..i]) == Ok(tools)
    {
      var t := items[i];
      var name := Subscript(t, "name");
      assert items[..i + 1][..i] == items[..i];
      if name.Err? {
        ToolDefsFailsLater(items, i + 1);
        return Err(name.error);
      }
      tools := tools + [ToolDefinition(name.value, MemberOr(t, "description", JStr("")), MemberOr(t, "inputSchema", JObj([])))];
    }
    assert items[..|items|] == items;
    return Ok(tools);
  }

  /** The loop of `call_tool`: the text items' texts joined in order, or the first failure. */
  method Text(content: seq<Json>) returns (r: Result<string>)
    ensures r == TextOf(content)
  {
    var textOutput := "";
    for i := 0 to |content|
      invariant TextOf(content[..i]) == Ok(textOutput)
    {
      assert content[..i + 1][..i] == content[..i];
      var step := ItemText(textOutput, content[i]);
      if step.Err? {
        TextOfFailsLater(content, i + 1);
        return Err(step.error);
      }
      textOutput := step.value;
    }
    assert content[..|content|] == content;
    return Ok(textOutput);
  }

  /**
   * What `list_tools` returns for the outcome of `_read_response`: the
   * raised error, an `AttributeError` for a result that is not an object,
   * the iteration error of `tools`, or one definition per listed tool.
   */
  function ListingOf(response: Result<Json>): (r: Result<seq<ToolDefinition>>)
    ensures response.Err? ==> r == Err(response.error)
    ensures response.Ok? && !response.value.JObj? ==> r.Err?
    ensures response.Ok? && response.value.JObj? ==>
      var listed := Iterated(MemberOr(response.value, "tools", JArr([])));
      && (listed.Err? ==> r == Err(listed.error))
      && (listed.Ok? ==> r == ToolDefs(listed.value))
    ensures response.Ok? && response.value == JObj([]) ==> r == Ok([])
  {
    match response
    case Err(e) => Err(e)
    case Ok(result) =>
      if !result.JObj? then Err("AttributeError: object has no attribute 'get'")
      else
        var listed :- Iterated(MemberOr(result, "tools", JArr([])));
        ToolDefs(listed)
  }

  /**
   * What `call_tool` returns for the outcome of `_read_response`: the
   * raised error, an `AttributeError` for a result that is not an object,
   * the iteration error of `content`, or the joined text of its items.
   */
  function CallTextOf(response: Result<Json>): (r: Result<string>)
    ensures response.Err? ==> r == Err(response.error)
    ensures response.Ok? && !response.value.JObj? ==> r.Err?
    ensures response.Ok? && response.value.JObj? ==>
      var listed := Iterated(MemberOr(response.value, "content", JArr([])));
      && (listed.Err? ==> r == Err(listed.error))
      && (listed.Ok? ==> r == TextOf(listed.value))
    ensures response.Ok? && response.value == JObj([]) ==> r == Ok("")
  {
    match response
    case Err(e) => Err(e)
    case Ok(result) =>
      if !result.JObj? then Err("AttributeError: object has no attribute 'get'")
      else
        var listed :- Iterated(MemberOr(result, "content", JArr([])));
        TextOf(listed)
  }

  class JsonRpcClient {
    /** The last id handed out; ids start at 1. */
    var requestId: int
    /** Whether `start` has launched the process. */
    var started: bool
    /** The messages written to the process, in order. */
    var sent: seq<Json>
    /** The output lines of the process not yet read. */
    var pending: seq<string>
    const loads: string -> Option<Json>

    constructor (loads: string -> Option<Json>)
      ensures requestId == 0 && !started && sent == [] && pending == []
      ensures this.loads == loads
    {
      requestId := 0;
      started := false;
      sent := [];
      pending := [];
      this.loads := loads;
    }

    /** `_next_id`: one more than the last id handed out. */
    method NextId() returns (id: int)
      modifies this
      ensures requestId == old(requestId) + 1 && id == requestId
      ensures started == old(started) && sent == old(sent) && pending == old(pending)
    {
      requestId := requestId + 1;
      id := requestId;
    }

    /** `_send`: refused before `start`, otherwise the message is written. */
    method Send(msg: Json) returns (r: Result<()>)
      modifies this
      ensures !started ==> r.Err? && sent == old(sent)
      ensures started ==> r.Ok? && sent == old(sent) + [msg]
      ensures requestId == old(requestId) && started == old(started) && pending == old(pending)
    {
      if !started {
        return Err("RuntimeError: Process not started");
      }
      sent := sent + [msg];
      return Ok(());
    }

    /** `_read_response`: read lines until the response to `expectId`. */
    method ReadResponse(expectId: int) returns (r: Result<Json>)
      modifies this
      ensures (r, pending) == ReadFrom(old(pending), expectId, loads)
      ensures requestId == old(requestId) && started == old(started) && sent == old(sent)
    {
      while pending != []
        invariant ReadFrom(pending, expectId, loads) == ReadFrom(old(pending), expectId, loads)
        invariant requestId == old(requestId) && started == old(started) && sent == old(sent)
        decreases |pending|
      {
        var line := pending[0];
        pending := pending[1..];
        var decoded := loads(line);
        if decoded.Some? {
          var msg := decoded.value;
          if !msg.JObj? {
            return Err("AttributeError: object has no attribute 'get'");
          }
          if IdMatches(Member(msg, "id").GetOr(JNull), expectId) {
            if PyDict.HasKey(msg.fields, "error") {
              return Err("RuntimeError: MCP Error");
            }
            return Ok(Member(msg, "result").GetOr(JNull));
          }
        }
      }
      return Err("RuntimeError: Process exited unexpectedly");
    }

    /** `start`: launch, send `initialize`, await its response, then send the `initialized` notification. */
    method Start(output: seq<string>) returns (r: Result<()>)
      modifies this
      ensures started && requestId == old(requestId) + 1
      ensures r.Ok? <==> ReadFrom(output, old(requestId) + 1, loads).0.Ok?
      ensures pending == ReadFrom(output, old(requestId) + 1, loads).1
      ensures r.Ok? ==> sent == old(sent) + [RequestMessage("initialize", InitializeParams(), old(requestId) + 1),
                                             NotificationMessage("notifications/initialized", JObj([]))]
      ensures r.Err? ==> sent == old(sent) + [RequestMessage("initialize", InitializeParams(), old(requestId) + 1)]
    {
      started := true;
      pending := output;
      var id := NextId();
      var _ := Send(RequestMessage("initialize", InitializeParams(), id));
      var response := ReadResponse(id);
      if response.Err? {
        return Err(response.error);
      }
      var _ := Send(NotificationMessage("notifications/initialized", JObj([])));
      return Ok(());
    }

    /** `list_tools`: one `tools/list` request, then one definition per listed tool. */
    method ListTools() returns (r: Result<seq<ToolDefinition>>)
      modifies this
      ensures requestId == old(requestId) + 1 && started == old(started)
      ensures !started ==> r.Err? && sent == old(sent) && pending == old(pending)
      ensures started ==> sent == old(sent) + [RequestMessage("tools/list", JObj([]), requestId)]
      ensures started ==> pending == ReadFrom(old(pending), requestId, loads).1
      ensures started ==> r == ListingOf(ReadFrom(old(pending), requestId, loads).0)
    {
      var id := NextId();
      var s := Send(RequestMessage("tools/list", JObj([]), id));
      if s.Err? {
        return Err(s.error);
      }
      var response := ReadResponse(id);
      if response.Err? {
        return Err(response.error);
      }
      var result := response.value;
      if !result.JObj? {
        return Err("AttributeError: object has no attribute 'get'");
      }
      var listed := Iterated(MemberOr(result, "tools", JArr([])));
      if listed.Err? {
        return Err(listed.error);
      }
      r := Definitions(listed.value);
    }

    /** `call_tool`: one `tools/call` request, then the text items of the result joined. */
    method CallTool(name: string, args: Json) returns (r: Result<string>)
      modifies this
      ensures requestId == old(requestId) + 1 && started == old(started)
      ensures !started ==> r.Err? && sent == old(sent) && pending == old(pending)
      ensures started ==> sent == old(sent) + [RequestMessage("tools/call", ToolsCallParams(name, args), requestId)]
      ensures started ==> pending == ReadFrom(old(pending), requestId, loads).1
      ensures started ==> r == CallTextOf(ReadFrom(old(pending), requestId, loads).0)
    {
      var id := NextId();
      var s := Send(RequestMessage("tools/call", ToolsCallParams(name, args), id));
      if s.Err? {
        return Err(s.error);
      }
      var response := ReadResponse(id);
      if response.Err? {
        return Err(response.error);
      }
      var result := response.value;
      if !result.JObj? {
        return Err("AttributeError: object has no attribute 'get'");
      }
      var listed := Iterated(MemberOr(result, "content", JArr([])));
      if listed.Err? {
        return Err(listed.error);
      }
      r := Text(listed.value);
    }
  }

  /** Once a prefix fails to give definitions, the whole list fails with the same error. */
  lemma {:induction false} ToolDefsFailsLater(items: seq<Json>, i: nat)
    requires i <= |items| && ToolDefs(items[..i]).Err?
    ensures ToolDefs(items) == ToolDefs(items[..i])
    decreases |items| - i
  {
    if i < |items| {
      assert items[..i + 1][..i] == items[..i];
      ToolDefsFailsLater(items, i + 1);
    } else {
      assert items[..i] == items;
    }
  }

  /** Once a prefix fails to give text, the whole list fails with the same error. */
  lemma {:induction false} TextOfFailsLater(items: seq<Json>, i: nat)
    requires i <= |items| && TextOf(items[..i]).Err?
    ensures TextOf(items) == TextOf(items[..i])
    decreases |items| - i
  {
    if i < |items| {
      assert items[..i + 1][..i] == items[..i];
      TextOfFailsLater(items, i + 1);
    } else {
      assert items[..i] == items;
    }
  }
}
