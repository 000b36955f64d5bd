/**
 * The provider manager: how a chat request is assembled for a provider
 * (tool strategy, model name, temperature, credentials, and how tools are
 * offered), and how `<tool_code>` blocks in a text-only reply are turned
 * back into tool calls. The model call itself is not part of this model.
 */
module ProviderManager {
  import opened Wrappers
  import opened PyStr
  import opened Json
  import PyDict
  import opened MessageTypes
  import Config

  // ---- strategy ----

  /** Provider types that are trusted with native tool calls under "auto". */
  const NativeKinds := ["openai", "anthropic", "deepseek"]

  /** The tool strategy: an explicit `tool_mode` wins; "auto" means text-only tools for ollama and native tools for every other provider. */
  function ResolveStrategy(toolMode: string, kind: string): (r: string)
    ensures toolMode != "auto" ==> r == toolMode
    ensures toolMode == "auto" ==> (r == "xml_fallback" <==> kind == "ollama")
    ensures toolMode == "auto" ==> (r == "native" <==> kind != "ollama")
  {
    if toolMode != "auto" then toolMode
    else if kind in NativeKinds then "native"
    else if kind == "ollama" then "xml_fallback"
    else "native"
  }

  // ---- the tool instruction for text-only providers ----

  const PromptHead := "\n### TOOL USE INSTRUCTION ###\nYou have access to the following tools:\n"
  const PromptTail :=
    "\n\nTo use a tool, you MUST output a valid XML block containing JSON, like this:\n"
    + "<tool_code>\n{\n    \"name\": \"tool_name\",\n    \"arguments\": {\n        \"param1\": \"value1\"\n    }\n}\n</tool_code>\n\n"
    + "RULES:\n1. Only use tools if strictly necessary.\n2. You can only call one tool at a time.\n"
    + "3. Output ONLY the XML block when calling a tool.\n4. If no tool is needed, just respond with text.\n"
    + "5. Do NOT use Markdown code blocks (like ```json) inside the XML tags.\n"

  /** One tool's line; `dumps` is `json.dumps(..., indent=2)`. */
  function ToolLine(t: ToolSpec, dumps: Json -> string): string {
    "- " + t.name + ": " + t.description + "\n  Parameters: " + dumps(t.parameters)
  }

  function ToolLines(tools: seq<ToolSpec>, dumps: Json -> string): (r: seq<string>)
    ensures |r| == |tools|
    ensures forall i :: 0 <= i < |tools| ==> r[i] == ToolLine(tools[i], dumps)
  {
    seq(|tools|, i requires 0 <= i < |tools| => ToolLine(tools[i], dumps))
  }

  /** `_create_tool_system_prompt(tools)` */
  function ToolSystemPrompt(tools: seq<ToolSpec>, dumps: Json -> string): (r: string)
    ensures r == "" <==> tools == []
    ensures tools != [] ==> StartsWith(r, PromptHead) && EndsWith(r, PromptTail)
  {
    if tools == [] then ""
    else
      var r := PromptHead + Join("\n", ToolLines(tools, dumps)) + PromptTail;
      assert r[..|PromptHead|] == PromptHead;
      assert r[|r| - |PromptTail|..] == PromptTail;
      r
  }

  /** Every tool offered is described in the instruction. */
  lemma {:induction false} PromptListsEveryTool(tools: seq<ToolSpec>, dumps: Json -> string, i: nat)
    requires i < |tools|
    ensures Contains(ToolSystemPrompt(tools, dumps), ToolLine(tools[i], dumps))
  {
    var lines := ToolLines(tools, dumps);
    JoinOccurs("\n", lines, i);
    var k :| OccursAt(Join("\n", lines), lines[i], k);
    OccursInMiddle(PromptHead, Join("\n", lines), PromptTail, lines[i], k);
  }

  // ---- reading tool calls back out of text ----

  const ToolOpen := "<tool_code>"
  const ToolClose := "</tool_code>"

  /**
   * A block with the model's formatting removed: strip, drop a leading
   * fence with its language tag and the whitespace after it, drop a
   * trailing fence with the whitespace before it, strip again.
   */
  function StripFences(block: string): (r: string)
    ensures Trimmed(r)
  {
    var unfenced := Unfenced(block);
    StripIsTrimmed(unfenced);
    Strip(unfenced)
  }

  /** The block with its fences dropped, before the final strip. */
  function Unfenced(block: string): string {
    UnfenceEnd(UnfenceStart(Strip(block)))
  }

  /** Drops a leading fence, the language tag after it and the whitespace that follows. */
  function UnfenceStart(s: string): (r: string)
    ensures |r| <= |s|
    ensures !StartsWith(s, "```") ==> r == s
  {
    if StartsWith(s, "```") then LStrip(DropLetters(s[3..])) else s
  }

  /** Drops a trailing fence and the whitespace before it. */
  function UnfenceEnd(s: string): (r: string)
    ensures |r| <= |s|
    ensures !EndsWith(s, "```") ==> r == s
  {
    if EndsWith(s, "```") then RStrip(s[..|s| - 3]) else s
  }

  /** A call found in a block; the random `call_...` id is not modelled. */
  datatype ExtractedCall = ExtractedCall(name: Json, arguments: string)

  /**
   * What one block contributes: nothing when it does not decode
   * (`loads` gives `None` for a `JSONDecodeError`, which is caught) or has
   * neither shape; a call for `name` + `arguments`, or for `tool` (with
   * `parameters` preferred to `arguments`). A `TypeError` from `in` or an
   * `AttributeError` from `.get` on a non-object is not caught.
   */
  function BlockCall(block: string, loads: string -> Option<Json>, dumps: Json -> string): (r: Result<Option<ExtractedCall>>)
    ensures loads(StripFences(block)).None? ==> r == Ok(None)
    ensures loads(StripFences(block)).Some? ==> r == DataCall(loads(StripFences(block)).value, dumps)
  {
    match loads(StripFences(block))
    case None => Ok(None)
    case Some(data) => DataCall(data, dumps)
  }

  /**
   * What a decoded block gives: a call for an object with both `name` and
   * `arguments`; otherwise the `tool` branch; an error only on a value
   * that is not an object.
   */
  function DataCall(data: Json, dumps: Json -> string): (r: Result<Option<ExtractedCall>>)
    ensures r.Ok? && r.value.Some? ==> data.JObj?
    ensures r.Err? ==> !data.JObj?
    ensures !IsContainer(data) ==> r.Err?
    ensures data.JObj? && Member(data, "name").Some? && Member(data, "arguments").Some? ==>
      r == Ok(Some(ExtractedCall(Member(data, "name").value, dumps(Member(data, "arguments").value))))
    ensures data.JObj? && !(Member(data, "name").Some? && Member(data, "arguments").Some?) ==>
      r == ToolKeyCall(data, dumps)
  {
    if !IsContainer(data) then Err("TypeError: argument of type is not iterable")
    else if In("name", data).value && In("arguments", data).value then
      if data.JObj? then
        PyDict.GetSome(data.fields, "name");
        PyDict.GetSome(data.fields, "arguments");
        Ok(Some(ExtractedCall(MemberOr(data, "name", JNull), dumps(MemberOr(data, "arguments", JObj([]))))))
      else Err("AttributeError: object has no attribute 'get'")
    else
      if data.JObj? then
        PyDict.GetSome(data.fields, "name");
        PyDict.GetSome(data.fields, "arguments");
        ToolKeyCall(data, dumps)
      else ToolKeyCall(data, dumps)
  }

  /** The `elif "tool" in data` branch. */
  function ToolKeyCall(data: Json, dumps: Json -> string): (r: Result<Option<ExtractedCall>>)
    requires IsContainer(data)
    ensures r.Ok? && r.value.Some? ==> data.JObj?
    ensures !In("tool", data).value ==> r == Ok(None)
    ensures In("tool", data).value && !data.JObj? ==> r.Err?
    ensures data.JObj? && Member(data, "tool").Some? ==>
      r == Ok(Some(ExtractedCall(Member(data, "tool").value,
                                 dumps(if Member(data, "parameters").Some? then Member(data, "parameters").value
                                       else MemberOr(data, "arguments", JObj([]))))))
    ensures data.JObj? && Member(data, "tool").None? ==> r == Ok(None)
  {
    if !In("tool", data).value then
      if data.JObj? then PyDict.GetSome(data.fields, "tool"); Ok(None) else Ok(None)
    else if !data.JObj? then Err("AttributeError: object has no attribute 'get'")
    else
      PyDict.GetSome(data.fields, "tool");
      PyDict.GetSome(data.fields, "parameters");
      var args := if PyDict.HasKey(data.fields, "parameters") then MemberOr(data, "parameters", JObj([]))
                  else MemberOr(data, "arguments", JObj([]));
      Ok(Some(ExtractedCall(MemberOr(data, "tool", JNull), dumps(args))))
  }

  /** What a block adds to the calls found before it. */
  function Then(prev: Result<seq<ExtractedCall>>, c: Result<Option<ExtractedCall>>): Result<seq<ExtractedCall>> {
    match prev
    case Err(e) => Err(e)
    case Ok(calls) =>
      match c
      case Err(e) => Err(e)
      case Ok(x) => Ok(calls + if x.Some? then [x.value] else [])
  }

  /** The calls of a list of blocks, block by block in order (`step` is what one block gives); the first uncaught error ends the parse. */
  function CallsOf(blocks: seq<string>, step: string -> Result<Option<ExtractedCall>>): (r: Result<seq<ExtractedCall>>)
    ensures r.Ok? ==> |r.value| <= |blocks|
  {
    if blocks == [] then Ok([])
    else Then(CallsOf(blocks[..|blocks| - 1], step), step(blocks[|blocks| - 1]))
  }

  /** `BlockCall` as a value, for a given decoder and encoder. */
  function BlockStep(loads: string -> Option<Json>, dumps: Json -> string): string -> Result<Option<ExtractedCall>> {
    b => BlockCall(b, loads, dumps)
  }

  /** `_parse_xml_tool_calls(content)`: at most one call per `<tool_code>` block, none without a block. */
  function XmlToolCalls(content: string, loads: string -> Option<Json>, dumps: Json -> string): (r: Result<seq<ExtractedCall>>)
    ensures r.Ok? ==> |r.value| <= |BlockInners(content, ToolOpen, ToolClose, 0)|
    ensures NextBlock(content, ToolOpen, ToolClose, 0).None? ==> r == Ok([])
  {
    CallsOf(BlockInners(content, ToolOpen, ToolClose, 0), BlockStep(loads, dumps))
  }

  /** The calls of consecutive runs of blocks are the calls of each run, in order. */
  lemma {:induction false} CallsOfAppend(a: seq<string>, b: seq<string>, step: string -> Result<Option<ExtractedCall>>)
    requires CallsOf(a, step).Ok? && CallsOf(b, step).Ok?
    ensures CallsOf(a + b, step) == Ok(CallsOf(a, step).value + CallsOf(b, step).value)
  {
    if b == [] {
      assert a + b == a;
      assert CallsOf(a, step).value + [] == CallsOf(a, step).value;
    } else {
      var b0 := b[..|b| - 1];
      var c := step(b[|b| - 1]);
      assert (a + b)[..|a + b| - 1] == a + b0;
      assert (a + b)[|a + b| - 1] == b[|b| - 1];
      CallsOfAppend(a, b0, step);
      var extra := if c.value.Some? then [c.value.value] else [];
      assert CallsOf(a, step).value + (CallsOf(b0, step).value + extra)
          == CallsOf(a, step).value + CallsOf(b0, step).value + extra;
    }
  }

  /** A block that does not decode is skipped: the others keep their calls and their order. */
  lemma {:induction false} SkipsUndecodable(a: seq<string>, bad: string, b: seq<string>, loads: string -> Option<Json>, dumps: Json -> string)
    requires loads(StripFences(bad)).None?
    requires CallsOf(a, BlockStep(loads, dumps)).Ok? && CallsOf(b, BlockStep(loads, dumps)).Ok?
    ensures CallsOf(a + [bad] + b, BlockStep(loads, dumps)) == CallsOf(a + b, BlockStep(loads, dumps))
  {
    var step := BlockStep(loads, dumps);
    assert step(bad) == Ok(None);
    SkipsNothing(a, bad, b, step);
  }

  lemma {:induction false} SkipsNothing(a: seq<string>, bad: string, b: seq<string>, step: string -> Result<Option<ExtractedCall>>)
    requires step(bad) == Ok(None)
    requires CallsOf(a, step).Ok? && CallsOf(b, step).Ok?
    ensures CallsOf(a + [bad] + b, step) == CallsOf(a + b, step)
  {
    assert CallsOf([bad], step) == Ok([]) by {
      assert [bad][..0] == [];
    }
    CallsOfAppend(a, [bad], step);
    var ca := CallsOf(a, step).value;
    assert ca + [] == ca;
    assert CallsOf(a + [bad], step) == CallsOf(a, step);
    CallsOfAppend(a + [bad], b, step);
    CallsOfAppend(a, b, step);
  }

  /** One more block. */
  lemma {:induction false} CallsOfStep(blocks: seq<string>, i: nat, step: string -> Result<Option<ExtractedCall>>)
    requires i < |blocks|
    ensures CallsOf(blocks[..i + 1], step) == Then(CallsOf(blocks[..i], step), step(blocks[i]))
  {
    assert blocks[..i + 1][..i] == blocks[..i];
    assert blocks[..i + 1][i] == blocks[i];
  }

  /** Once a prefix fails, the whole list fails with the same error. */
  lemma {:induction false} CallsOfFailsLater(blocks: seq<string>, n: nat, step: string -> Result<Option<ExtractedCall>>)
    requires n <= |blocks| && CallsOf(blocks[..n], step).Err?
    ensures CallsOf(blocks, step) == CallsOf(blocks[..n], step)
    decreases |blocks| - n
  {
    if n == |blocks| {
      assert blocks[..n] == blocks;
    } else {
      CallsOfStep(blocks, n, step);
      CallsOfFailsLater(blocks, n + 1, step);
    }
  }

  /** `_parse_xml_tool_calls` as written: one pass over the blocks, appending. */
  method ParseXmlToolCalls(content: string, loads: string -> Option<Json>, dumps: Json -> string) returns (r: Result<seq<ExtractedCall>>)
    ensures r == XmlToolCalls(content, loads, dumps)
  {
    var blocks := BlockInners(content, ToolOpen, ToolClose, 0);
    r := CollectCalls(blocks, BlockStep(loads, dumps));
  }

  /** The loop of `_parse_xml_tool_calls`, for any per-block step. */
  method CollectCalls(blocks: seq<string>, step: string -> Result<Option<ExtractedCall>>) returns (r: Result<seq<ExtractedCall>>)
    ensures r == CallsOf(blocks, step)
  {
    var calls: seq<ExtractedCall> := [];
    for i := 0 to |blocks|
      invariant CallsOf(blocks[..i], step) == Ok(calls)
    {
      CallsOfStep(blocks, i, step);
      var c := step(blocks[i]);
      if c.Err? {
        CallsOfFailsLater(blocks, i + 1, step);
        return Err(c.error);
      }
      assert CallsOf(blocks[..i + 1], step) == Then(Ok(calls), c);
      if c.value.Some? {
        calls := calls + [c.value.value];
      } else {
        assert calls + [] == calls;
      }
    }
    assert blocks[..|blocks|] == blocks;
    return Ok(calls);
  }

  // ---- post-processing a text reply ----

  /** The new `tool_calls` and `content` of a reply whose blocks were turned into calls. */
  datatype Rewrite = Rewrite(calls: seq<ExtractedCall>, content: Option<string>)

  /** `re.sub(r'<tool_code>.*?</tool_code>', '', content, flags=re.DOTALL)` */
  function WithoutBlocks(content: string): string {
    SubBlocks(content, ToolOpen, ToolClose, _ => "", 0)
  }

  /**
   * Step 5 of `chat_complete` (and of its streaming twin): only with tools,
   * under "xml_fallback", with non-empty content that mentions
   * `<tool_code>`, and only when a call was extracted, is the reply
   * rewritten (`None` = the reply is left alone).
   */
  function PostProcess(content: Option<string>, hasTools: bool, strategy: string,
                       loads: string -> Option<Json>, dumps: Json -> string): (r: Result<Option<Rewrite>>)
    ensures !(hasTools && strategy == "xml_fallback" && content.Some? && Contains(content.value, ToolOpen)) ==> r == Ok(None)
    ensures r.Ok? && r.value.Some? ==>
      content.Some? && XmlToolCalls(content.value, loads, dumps) == Ok(r.value.value.calls) && r.value.value.calls != []
    ensures r.Ok? && r.value.Some? ==> r.value.value.content == CleanedContent(content.value)
    ensures hasTools && strategy == "xml_fallback" && content.Some? && Contains(content.value, ToolOpen) ==>
      (XmlToolCalls(content.value, loads, dumps).Err? ==> r == Err(XmlToolCalls(content.value, loads, dumps).error))
    ensures hasTools && strategy == "xml_fallback" && content.Some? && Contains(content.value, ToolOpen) ==>
      (XmlToolCalls(content.value, loads, dumps) == Ok([]) ==> r == Ok(None))
    ensures hasTools && strategy == "xml_fallback" && content.Some? && Contains(content.value, ToolOpen) ==>
      (XmlToolCalls(content.value, loads, dumps).Ok? && XmlToolCalls(content.value, loads, dumps).value != [] ==>
         r == Ok(Some(Rewrite(XmlToolCalls(content.value, loads, dumps).value, CleanedContent(content.value)))))
  {
    if hasTools && strategy == "xml_fallback" && content.Some? && content.value != "" && Contains(content.value, ToolOpen) then
      var found := XmlToolCalls(content.value, loads, dumps);
      if found.Err? then Err(found.error)
      else if found.value == [] then Ok(None)
      else Ok(Some(Rewrite(found.value, CleanedContent(content.value))))
    else Ok(None)
  }

  /** The reply text with every block cut out and stripped; `None` when nothing is left. */
  function CleanedContent(content: string): (r: Option<string>)
    ensures r.None? <==> Strip(WithoutBlocks(content)) == ""
    ensures r.Some? ==> r.value == Strip(WithoutBlocks(content))
    ensures r.Some? ==> var c := r.value; c != "" && !IsSpace(c[0]) && !IsSpace(c[|c| - 1])
  {
    var clean := Strip(WithoutBlocks(content));
    if clean != "" then Some(clean) else None
  }

  /** Removing blocks never lengthens the text from `from` on. */
  lemma {:induction false} WithoutBlocksShorter(s: string, from: nat)
    requires from <= |s|
    ensures |SubBlocks(s, ToolOpen, ToolClose, _ => "", from)| <= |s| - from
    decreases |s| - from
  {
    match NextBlock(s, ToolOpen, ToolClose, from)
    case None =>
    case Some(sp) =>
      WithoutBlocksShorter(s, sp.end);
  }

  /** When the reply is rewritten, at least one whole block has been cut out of its text. */
  lemma {:induction false} RewriteRemovesBlocks(content: Option<string>, hasTools: bool, strategy: string,
                             loads: string -> Option<Json>, dumps: Json -> string)
    requires PostProcess(content, hasTools, strategy, loads, dumps).Ok?
    requires PostProcess(content, hasTools, strategy, loads, dumps).value.Some?
    ensures |WithoutBlocks(content.value)| <= |content.value| - |ToolOpen| - |ToolClose|
  {
    var s := content.value;
    var sp := NextBlock(s, ToolOpen, ToolClose, 0).value;
    WithoutBlocksShorter(s, sp.end);
  }

  // ---- assembling the request ----

  /** The keyword arguments handed to the model call; absent keys are `None`. */
  datatype Request = Request(
    model: string,
    messages: seq<MessageData>,
    temperature: real,
    apiKey: Option<string>,
    apiBase: Option<string>,
    tools: Option<seq<ToolSpec>>,
    toolChoice: Option<string>)

  /** `[OctopusMessage.from_any(m) for m in messages]` on dicts: the first invalid one raises. */
  function Decoded(messages: seq<Json>): (r: Result<seq<MessageData>>)
    ensures r.Ok? ==> |r.value| == |messages|
    ensures r.Ok? ==> forall i :: 0 <= i < |messages| ==> FromDict(messages[i]) == Ok(r.value[i])
  {
    if messages == [] then Ok([])
    else
      var prev :- Decoded(messages[..|messages| - 1]);
      var m :- FromDict(messages[|messages| - 1]);
      Ok(prev + [m])
  }

  function SanitizedAll(ms: seq<MessageData>): (r: seq<MessageData>)
    ensures |r| == |ms|
    ensures forall i :: 0 <= i < |ms| ==> r[i] == Sanitized(ms[i])
  {
    seq(|ms|, i requires 0 <= i < |ms| => Sanitized(ms[i]))
  }

  /** The index of the first system message, if any. */
  function FirstSystem(ms: seq<MessageData>): (r: Option<nat>)
    ensures r.Some? ==> r.value < |ms| && ms[r.value].role == "system"
    ensures r.Some? ==> forall j :: 0 <= j < r.value ==> ms[j].role != "system"
    ensures r.None? ==> forall j :: 0 <= j < |ms| ==> ms[j].role != "system"
  {
    if ms == [] then None
    else if ms[0].role == "system" then Some(0)
    else match FirstSystem(ms[1..])
      case None => None
      case Some(i) => Some(i + 1)
  }

  /** Append the instruction to the first system message (its `content` key must exist), or put a new system message first. */
  function Injected(ms: seq<MessageData>, instruction: string): Result<seq<MessageData>> {
    match FirstSystem(ms)
    case None => Ok([MessageData("system", Some(instruction), None, None, None)] + ms)
    case Some(i) =>
      if ms[i].content.None? then Err("KeyError: 'content'")
      else Ok(ms[i := ms[i].(content := Some(ms[i].content.value + "\n\n" + instruction))])
  }

  /** `os.getenv(name)` over the environment `env`. */
  function GetEnv(env: PyDict.Dict<string, string>, name: string): Option<string> {
    PyDict.Get(env, name)
  }

  function Truthy(s: Option<string>): bool {
    s.Some? && s.value != ""
  }

  /** The messages after conversion to objects, the in-place rewrite (under "xml_fallback") and `to_dict`. */
  function Prepared(messages: seq<Json>, xml: bool): (r: Result<seq<MessageData>>)
    ensures r.Ok? <==> Decoded(messages).Ok?
  {
    var d :- Decoded(messages);
    Ok(if xml then SanitizedAll(d) else d)
  }

  /** `api_key`: set only when the provider names a variable whose value is non-empty. */
  function ApiKey(p: Config.ProviderConfig, env: PyDict.Dict<string, string>): (r: Option<string>)
    ensures r.Some? <==> Truthy(p.apiKeyEnv) && Truthy(GetEnv(env, p.apiKeyEnv.value))
    ensures r.Some? ==> r.value != "" && r == GetEnv(env, p.apiKeyEnv.value)
  {
    var key := if Truthy(p.apiKeyEnv) then GetEnv(env, p.apiKeyEnv.value) else None;
    if Truthy(key) then key else None
  }

  /** `api_base`: set only when `base_url` is non-empty. */
  function ApiBase(p: Config.ProviderConfig): (r: Option<string>)
    ensures r.Some? <==> Truthy(p.baseUrl)
    ensures r.Some? ==> r.value != "" && r == p.baseUrl
  {
    if Truthy(p.baseUrl) then p.baseUrl else None
  }

  /** Steps 1-3 of `chat_complete`: the request that is sent. */
  function RequestOf(p: Config.ProviderConfig, modelId: string, messages: seq<Json>, tools: seq<ToolSpec>,
                     temperature: Option<real>, env: PyDict.Dict<string, string>, dumps: Json -> string): (r: Result<Request>)
    ensures Prepared(messages, ResolveStrategy(p.toolMode, p.kind) == "xml_fallback").Err? ==> r.Err?
    ensures r.Ok? ==> r.value.model == p.kind + "/" + modelId && r.value.apiKey == ApiKey(p, env) && r.value.apiBase == ApiBase(p)
  {
    var strategy := ResolveStrategy(p.toolMode, p.kind);
    var ms :- Prepared(messages, strategy == "xml_fallback");
    WithTools(Request(p.kind + "/" + modelId, ms, if temperature.Some? then temperature.value else 0.2,
                      ApiKey(p, env), ApiBase(p), None, None), strategy, tools, dumps)
  }

  /** How the tool list reaches the provider: as a native `tools` parameter, or as an instruction in the conversation. */
  function WithTools(base: Request, strategy: string, tools: seq<ToolSpec>, dumps: Json -> string): (r: Result<Request>)
    ensures r.Ok? ==> r.value.model == base.model && r.value.temperature == base.temperature
                      && r.value.apiKey == base.apiKey && r.value.apiBase == base.apiBase
  {
    if tools == [] then Ok(base)
    else if strategy == "native" then Ok(base.(tools := Some(tools), toolChoice := Some("auto")))
    else if strategy == "xml_fallback" then
      var injected :- Injected(base.messages, ToolSystemPrompt(tools, dumps));
      Ok(base.(messages := injected))
    else Ok(base)
  }

  /** Model name, temperature and credentials are set as `chat_complete` promises, whatever the strategy. */
  lemma {:induction false} RequestFields(p: Config.ProviderConfig, modelId: string, messages: seq<Json>, tools: seq<ToolSpec>,
                      temperature: Option<real>, env: PyDict.Dict<string, string>, dumps: Json -> string)
    requires RequestOf(p, modelId, messages, tools, temperature, env, dumps).Ok?
    ensures var r := RequestOf(p, modelId, messages, tools, temperature, env, dumps).value;
      r.model == p.kind + "/" + modelId
      && (temperature.None? ==> r.temperature == 0.2)
      && (temperature.Some? ==> r.temperature == temperature.value)
      && (r.apiKey.Some? <==> p.apiKeyEnv.Some? && p.apiKeyEnv.value != "" && Truthy(GetEnv(env, p.apiKeyEnv.value)))
      && (r.apiKey.Some? ==> r.apiKey == GetEnv(env, p.apiKeyEnv.value))
      && (r.apiBase.Some? <==> p.baseUrl.Some? && p.baseUrl.value != "")
      && (r.apiBase.Some? ==> r.apiBase == p.baseUrl)
      && (r.tools.Some? <==> tools != [] && ResolveStrategy(p.toolMode, p.kind) == "native")
      && (r.tools.Some? ==> r.tools.value == tools && r.toolChoice == Some("auto"))
  {
  }

  /** Under "native" (and any strategy other than "xml_fallback") the messages go out exactly as they came in. */
  lemma {:induction false} NativeKeepsMessages(p: Config.ProviderConfig, modelId: string, messages: seq<Json>, tools: seq<ToolSpec>,
                            temperature: Option<real>, env: PyDict.Dict<string, string>, dumps: Json -> string)
    requires ResolveStrategy(p.toolMode, p.kind) != "xml_fallback"
    ensures RequestOf(p, modelId, messages, tools, temperature, env, dumps).Ok? <==> Decoded(messages).Ok?
    ensures RequestOf(p, modelId, messages, tools, temperature, env, dumps).Ok? ==>
      RequestOf(p, modelId, messages, tools, temperature, env, dumps).value.messages == Decoded(messages).value
  {
  }

  /** Under "xml_fallback" no message that is sent is a tool result or carries structured tool calls. */
  lemma {:induction false} XmlRequestIsTextOnly(p: Config.ProviderConfig, modelId: string, messages: seq<Json>, tools: seq<ToolSpec>,
                             temperature: Option<real>, env: PyDict.Dict<string, string>, dumps: Json -> string)
    requires ResolveStrategy(p.toolMode, p.kind) == "xml_fallback"
    requires RequestOf(p, modelId, messages, tools, temperature, env, dumps).Ok?
    ensures var ms := RequestOf(p, modelId, messages, tools, temperature, env, dumps).value.messages;
      forall m :: m in ms ==> m.role != "tool" && !HasStructuredCalls(m)
  {
    var ms := SanitizedAll(Decoded(messages).value);
    assert Prepared(messages, true) == Ok(ms);
    forall m | m in ms ensures m.role != "tool" && !HasStructuredCalls(m) {
      var i :| 0 <= i < |ms| && ms[i] == m;
      SanitizedIsTextOnly(Decoded(messages).value[i]);
    }
    var sent := RequestOf(p, modelId, messages, tools, temperature, env, dumps).value.messages;
    if tools != [] {
      InjectedShape(ms, ToolSystemPrompt(tools, dumps));
      assert sent == Injected(ms, ToolSystemPrompt(tools, dumps)).value;
    } else {
      assert sent == ms;
    }
  }

  /** Injection touches one message: the first system message gains the instruction, or a new one is put first; the list grows by at most one. */
  lemma {:induction false} InjectedShape(ms: seq<MessageData>, instruction: string)
    ensures FirstSystem(ms).None? ==>
      Injected(ms, instruction) == Ok([MessageData("system", Some(instruction), None, None, None)] + ms)
    ensures FirstSystem(ms).Some? ==> (Injected(ms, instruction).Ok? <==> ms[FirstSystem(ms).value].content.Some?)
    ensures FirstSystem(ms).Some? && Injected(ms, instruction).Ok? ==>
      var r := Injected(ms, instruction).value; var i := FirstSystem(ms).value;
      |r| == |ms| && r[i].content == Some(ms[i].content.value + "\n\n" + instruction)
      && r[i].role == "system" && r[i].toolCalls == ms[i].toolCalls
      && forall j :: 0 <= j < |ms| && j != i ==> r[j] == ms[j]
    ensures Injected(ms, instruction).Ok? ==>
      forall m :: m in Injected(ms, instruction).value ==> m in ms || m.role == "system"
  {
  }

  /** Steps 1-3 of `chat_complete` as written: the messages are prepared, then credentials and tools are added to the arguments. */
  method BuildRequest(p: Config.ProviderConfig, modelId: string, messages: seq<Json>, tools: seq<ToolSpec>,
                      temperature: Option<real>, env: PyDict.Dict<string, string>, dumps: Json -> string)
    returns (r: Result<Request>)
    ensures r == RequestOf(p, modelId, messages, tools, temperature, env, dumps)
  {
    var strategy := ResolveStrategy(p.toolMode, p.kind);
    var model := p.kind + "/" + modelId;
    var temp := if temperature.Some? then temperature.value else 0.2;

    var prepared := PrepareMessages(messages, strategy == "xml_fallback");
    if prepared.Err? {
      return Err(prepared.error);
    }
    var apiKey: Option<string> := None;
    if p.apiKeyEnv.Some? && p.apiKeyEnv.value != "" {
      var key := GetEnv(env, p.apiKeyEnv.value);
      if key.Some? && key.value != "" {
        apiKey := key;
      }
    }
    var apiBase: Option<string> := None;
    if p.baseUrl.Some? && p.baseUrl.value != "" {
      apiBase := p.baseUrl;
    }
    assert apiKey == ApiKey(p, env) && apiBase == ApiBase(p);
    r := AttachTools(Request(model, prepared.value, temp, apiKey, apiBase, None, None), strategy, tools, dumps);
  }

  /** The tool step of `chat_complete`, on a request whose messages are already prepared. */
  method AttachTools(base: Request, strategy: string, tools: seq<ToolSpec>, dumps: Json -> string)
    returns (r: Result<Request>)
    ensures r == WithTools(base, strategy, tools, dumps)
  {
    if tools == [] {
      return Ok(base);
    }
    if strategy == "native" {
      return Ok(base.(tools := Some(tools), toolChoice := Some("auto")));
    } else if strategy == "xml_fallback" {
      var unified := base.messages;
      var instruction := ToolSystemPrompt(tools, dumps);
      var index := FirstSystemIndex(unified);
      if index.Some? {
        var i := index.value;
        if unified[i].content.None? {
          return Err("KeyError: 'content'");
        }
        var injected := unified[i := unified[i].(content := Some(unified[i].content.value + "\n\n" + instruction))];
        assert Injected(unified, instruction) == Ok(injected);
        return Ok(base.(messages := injected));
      } else {
        var injected := [MessageData("system", Some(instruction), None, None, None)] + unified;
        assert Injected(unified, instruction) == Ok(injected);
        return Ok(base.(messages := injected));
      }
    }
    return Ok(base);
  }

  /** Objects are built from the dicts one by one (the first invalid dict raises) and rewritten in place under "xml_fallback". */
  method PrepareMessages(messages: seq<Json>, xml: bool) returns (r: Result<seq<MessageData>>)
    ensures r == Prepared(messages, xml)
  {
    var unified: seq<MessageData> := [];
    for i := 0 to |messages|
      invariant Decoded(messages[..i]).Ok?
      invariant unified == if xml then SanitizedAll(Decoded(messages[..i]).value) else Decoded(messages[..i]).value
    {
      DecodedStep(messages, i);
      ghost var prev := Decoded(messages[..i]).value;
      var m := FromAny(messages[i]);
      if m.Err? {
        DecodedFailsLater(messages, i + 1);
        return Err(m.error);
      }
      var msg := m.value;
      ghost var d := msg.Data();
      assert Decoded(messages[..i + 1]) == Ok(prev + [d]);
      if xml {
        msg.SanitizeForXmlFallback();
        SanitizedAllSnoc(prev, d);
      }
      unified := unified + [msg.Data()];
    }
    assert messages[..|messages|] == messages;
    return Ok(unified);
  }

  lemma {:induction false} SanitizedAllSnoc(ms: seq<MessageData>, m: MessageData)
    ensures SanitizedAll(ms + [m]) == SanitizedAll(ms) + [Sanitized(m)]
  {
    assert forall i :: 0 <= i < |ms| ==> (ms + [m])[i] == ms[i];
  }

  /** One more message. */
  lemma {:induction false} DecodedStep(messages: seq<Json>, i: nat)
    requires i < |messages|
    ensures Decoded(messages[..i + 1]) ==
      match Decoded(messages[..i])
      case Err(e) => Err(e)
      case Ok(prev) => match FromDict(messages[i]) case Err(e) => Err(e) case Ok(m) => Ok(prev + [m])
  {
    assert messages[..i + 1][..i] == messages[..i];
    assert messages[..i + 1][i] == messages[i];
  }

  /** Once a prefix fails to validate, the whole list fails with the same error. */
  lemma {:induction false} DecodedFailsLater(messages: seq<Json>, n: nat)
    requires n <= |messages| && Decoded(messages[..n]).Err?
    ensures Decoded(messages) == Decoded(messages[..n])
    decreases |messages| - n
  {
    if n == |messages| {
      assert messages[..n] == messages;
    } else {
      DecodedStep(messages, n);
      DecodedFailsLater(messages, n + 1);
    }
  }

  /** The `enumerate` loop looking for the first system message. */
  method FirstSystemIndex(ms: seq<MessageData>) returns (r: Option<nat>)
    ensures r == FirstSystem(ms)
  {
    var i := 0;
    while i < |ms|
      invariant 0 <= i <= |ms|
      invariant forall j :: 0 <= j < i ==> ms[j].role != "system"
    {
      if ms[i].role == "system" {
        FirstSystemUnique(ms, i);
        return Some(i);
      }
      i := i + 1;
    }
    FirstSystemUnique(ms, -1);
    return None;
  }

  /** `FirstSystem` is determined by its contract. */
  lemma {:induction false} FirstSystemUnique(ms: seq<MessageData>, i: int)
    requires -1 <= i < |ms|
    requires i >= 0 ==> ms[i].role == "system" && forall j :: 0 <= j < i ==> ms[j].role != "system"
    requires i == -1 ==> forall j :: 0 <= j < |ms| ==> ms[j].role != "system"
    ensures FirstSystem(ms) == if i >= 0 then Some(i) else None
  {
    var f := FirstSystem(ms);
    if f.Some? {
      assert i >= 0;
      assert !(f.value < i) && !(i < f.value);
    }
  }
}
