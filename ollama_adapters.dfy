/**
 * The two adapters for local models that do not call tools natively:
 * `OllamaJSONAdapter` (asks for a bare JSON object) and `OllamaXMLAdapter`
 * (asks for a JSON object inside `<tool_code>` tags). Both inject a tool
 * protocol into the conversation and read tool calls back out of plain
 * text, falling back to four fixed patterns when the JSON does not decode.
 *
 * Message and tool dicts are JSON values, so the shallow copies the
 * adapters make are implicit: a result never shares state with its input.
 * `json.loads`, `json.dumps` and the regular-expression searches whose
 * patterns are not a literal block are parameters.
 */
module OllamaAdapters {
  import opened Wrappers
  import opened PyStr
  import opened Json
  import PyDict
  import MessageTypes

  /** Which of the two adapters. */
  datatype Flavour = JsonProtocol | XmlProtocol

  function AdapterName(f: Flavour): string {
    match f
    case JsonProtocol => "ollama_json"
    case XmlProtocol => "ollama_xml"
  }

  const JsonProtocolText :=
    "\n\n[TOOL USE PROTOCOL]\n"
    + "You have access to the following tools. To use a tool, you MUST output a VALID JSON object.\n"
    + "Do not use XML tags. Do not use Markdown code blocks for the JSON.\n"
    + "Format: { \"name\": \"tool_name\", \"arguments\": { \"arg1\": \"value1\" } }\n"

  const XmlProtocolText :=
    "\n\n[TOOL USE PROTOCOL]\n"
    + "You have access to tools. To use them, you MUST wrap the JSON tool call inside <tool_code> XML tags.\n"
    + "Example:\n<tool_code>\n{\n  \"name\": \"tool_name\",\n  \"arguments\": {\"arg\": \"val\"}\n}\n</tool_code>\n"

  function ProtocolText(f: Flavour): string {
    match f
    case JsonProtocol => JsonProtocolText
    case XmlProtocol => XmlProtocolText
  }

  // ---- prepare_messages ----

  /** `[t['function'] for t in tools]`: the first tool without a `function` entry raises. */
  function FunctionsOf(tools: seq<Json>): (r: Result<seq<Json>>)
    ensures r.Ok? <==> forall i :: 0 <= i < |tools| ==> Subscript(tools[i], "function").Ok?
    ensures r.Ok? ==> |r.value| == |tools|
    ensures r.Ok? ==> forall i :: 0 <= i < |tools| ==> Subscript(tools[i], "function") == Ok(r.value[i])
  {
    if tools == [] then Ok([])
    else
      var init :- FunctionsOf(tools[..|tools| - 1]);
      var last :- Subscript(tools[|tools| - 1], "function");
      Ok(init + [last])
  }

  /** The tool dicts a session builds always yield their function descriptions. */
  lemma {:induction false} FunctionsOfSessionTools(ts: seq<MessageTypes.ToolSpec>)
    ensures FunctionsOf(seq(|ts|, i requires 0 <= i < |ts| => MessageTypes.ToolJson(ts[i])))
         == Ok(seq(|ts|, i requires 0 <= i < |ts| => MessageTypes.FunctionJson(ts[i])))
  {
    var tools := seq(|ts|, i requires 0 <= i < |ts| => MessageTypes.ToolJson(ts[i]));
    var fs := seq(|ts|, i requires 0 <= i < |ts| => MessageTypes.FunctionJson(ts[i]));
    forall i | 0 <= i < |ts| ensures Subscript(tools[i], "function") == Ok(fs[i]) {
      assert tools[i].fields[1] == ("function", fs[i]);
      assert "type" != "function" by { assert "type"[0] != "function"[0]; }
      PyDict.GetFirstAt(tools[i].fields, 1);
    }
    var r := FunctionsOf(tools);
    assert r.Ok?;
    assert r.value == fs;
  }

  /** The text added to the system prompt; `dumps` is `json.dumps(..., indent=2)`. */
  function Instruction(f: Flavour, tools: seq<Json>, dumps: Json -> string): (r: Result<string>)
    ensures r.Ok? ==> StartsWith(r.value, ProtocolText(f))
    ensures r.Ok? <==> FunctionsOf(tools).Ok?
  {
    var fs :- FunctionsOf(tools);
    var text := ProtocolText(f) + "\nAvailable Tools:\n" + dumps(JArr(fs)) + "\n";
    assert text[..|ProtocolText(f)|] == ProtocolText(f);
    Ok(text)
  }

  /** `[m.copy() for m in messages]`: only dicts and lists have `copy`. */
  function Copies(messages: seq<Json>): (r: Result<seq<Json>>)
    ensures r.Ok? <==> forall i :: 0 <= i < |messages| ==> messages[i].JObj? || messages[i].JArr?
    ensures r.Ok? ==> r.value == messages
  {
    if forall i :: 0 <= i < |messages| ==> messages[i].JObj? || messages[i].JArr? then Ok(messages)
    else Err("AttributeError: object has no attribute 'copy'")
  }

  function SystemMessage(content: string): Json {
    JObj([("role", JStr("system")), ("content", JStr(content))])
  }

  predicate IsSystem(m: Json) {
    Member(m, "role") == Some(JStr("system"))
  }

  /** `content += text`: a string grows, a list is extended by the characters, anything else raises. */
  function Extended(content: Json, text: string): (r: Result<Json>)
    ensures content.JStr? ==> r == Ok(JStr(content.s + text))
    ensures r.Ok? <==> content.JStr? || content.JArr?
  {
    match content
    case JStr(s) => Ok(JStr(s + text))
    case JArr(items) => Ok(JArr(items + seq(|text|, i requires 0 <= i < |text| => JStr([text[i]]))))
    case _ => Err("TypeError: unsupported operand type(s) for +=")
  }

  /**
   * The scan over the copies from index `i` on: the first system message
   * gets the instruction appended to its content; without one, a new
   * system message goes first. Looking up `role` or `content` may raise.
   */
  function InjectFrom(ms: seq<Json>, text: string, i: nat): Result<seq<Json>>
    requires i <= |ms|
    decreases |ms| - i
  {
    if i == |ms| then Ok([SystemMessage(text)] + ms)
    else
      var role :- Subscript(ms[i], "role");
      if role == JStr("system") then
        var content :- Subscript(ms[i], "content");
        var updated :- Extended(content, text);
        Ok(ms[i := JObj(PyDict.Put(ms[i].fields, "content", updated))])
      else InjectFrom(ms, text, i + 1)
  }

  /** What `prepare_messages` returns. */
  function Prepared(f: Flavour, messages: seq<Json>, tools: Option<seq<Json>>, dumps: Json -> string): Result<seq<Json>> {
    if tools.None? || tools.value == [] then Ok(messages)
    else
      var copies :- Copies(messages);
      var text :- Instruction(f, tools.value, dumps);
      InjectFrom(copies, text, 0)
  }

  /** The index of the first system message at or after `i`. */
  function FirstSystemFrom(ms: seq<Json>, i: nat): (r: Option<nat>)
    requires i <= |ms|
    ensures r.Some? ==> i <= r.value < |ms| && IsSystem(ms[r.value])
    ensures r.Some? ==> forall j :: i <= j < r.value ==> !IsSystem(ms[j])
    ensures r.None? ==> forall j :: i <= j < |ms| ==> !IsSystem(ms[j])
    decreases |ms| - i
  {
    if i == |ms| then None else if IsSystem(ms[i]) then Some(i) else FirstSystemFrom(ms, i + 1)
  }

  /** `r` is `ms` with the instruction appended to the content of message `k` and nothing else changed. */
  predicate AppendedAt(ms: seq<Json>, r: seq<Json>, k: nat, text: string) {
    k < |ms| == |r| && (forall j :: 0 <= j < |ms| && j != k ==> r[j] == ms[j])
    && r[k].JObj? && ms[k].JObj? && PyDict.Keys(r[k].fields) == PyDict.Keys(ms[k].fields)
    && (var old_content := Member(ms[k], "content");
        old_content.Some? && old_content.value.JStr? ==> Member(r[k], "content") == Some(JStr(old_content.value.s + text)))
  }

  /**
   * When the injection succeeds, either the first system message (and only
   * it) has the instruction appended to its content, keeping its keys in
   * place, or there was no system message and one was put first.
   */
  lemma {:induction false} InjectShape(ms: seq<Json>, text: string, i: nat)
    requires i <= |ms| && InjectFrom(ms, text, i).Ok?
    ensures FirstSystemFrom(ms, i).None? ==> InjectFrom(ms, text, i).value == [SystemMessage(text)] + ms
    ensures FirstSystemFrom(ms, i).Some? ==> AppendedAt(ms, InjectFrom(ms, text, i).value, FirstSystemFrom(ms, i).value, text)
    decreases |ms| - i
  {
    if i < |ms| {
      var role := Subscript(ms[i], "role");
      if role.value == JStr("system") {
        InjectAtSystem(ms, text, i);
      } else {
        assert !IsSystem(ms[i]);
        InjectShape(ms, text, i + 1);
      }
    }
  }

  lemma {:induction false} InjectAtSystem(ms: seq<Json>, text: string, i: nat)
    requires i < |ms| && InjectFrom(ms, text, i).Ok? && Subscript(ms[i], "role") == Ok(JStr("system"))
    ensures FirstSystemFrom(ms, i) == Some(i)
    ensures AppendedAt(ms, InjectFrom(ms, text, i).value, i, text)
  {
    assert IsSystem(ms[i]);
    var content := Subscript(ms[i], "content").value;
    var updated := Extended(content, text).value;
    var fields := PyDict.Put(ms[i].fields, "content", updated);
    assert InjectFrom(ms, text, i).value == ms[i := JObj(fields)];
    PyDict.PutShape(ms[i].fields, "content", updated);
    PyDict.GetPut(ms[i].fields, "content", updated, "content");
  }

  /** Without tools the messages come back as they are; with tools the list grows by at most one. */
  lemma {:induction false} PreparedLength(f: Flavour, messages: seq<Json>, tools: Option<seq<Json>>, dumps: Json -> string)
    requires Prepared(f, messages, tools, dumps).Ok?
    ensures tools.None? || tools.value == [] ==> Prepared(f, messages, tools, dumps).value == messages
    ensures |messages| <= |Prepared(f, messages, tools, dumps).value| <= |messages| + 1
  {
    if tools.Some? && tools.value != [] {
      var text := Instruction(f, tools.value, dumps).value;
      InjectShape(messages, text, 0);
      assert Prepared(f, messages, tools, dumps) == InjectFrom(messages, text, 0);
    }
  }

  /** `prepare_messages`: copy, then walk the copies looking for the system message. */
  method PrepareMessages(f: Flavour, messages: seq<Json>, tools: Option<seq<Json>>, dumps: Json -> string)
    returns (r: Result<seq<Json>>)
    ensures r == Prepared(f, messages, tools, dumps)
  {
    if tools.None? || tools.value == [] {
      return Ok(messages);
    }
    var copies := Copies(messages);
    if copies.Err? {
      return Err(copies.error);
    }
    var instruction := Instruction(f, tools.value, dumps);
    if instruction.Err? {
      return Err(instruction.error);
    }
    var text := instruction.value;
    var newMessages := copies.value;
    for i := 0 to |newMessages|
      invariant InjectFrom(newMessages, text, i) == InjectFrom(newMessages, text, 0)
    {
      var role := Subscript(newMessages[i], "role");
      if role.Err? {
        return Err(role.error);
      }
      if role.value == JStr("system") {
        var content := Subscript(newMessages[i], "content");
        if content.Err? {
          return Err(content.error);
        }
        var updated := Extended(content.value, text);
        if updated.Err? {
          return Err(updated.error);
        }
        newMessages := newMessages[i := JObj(PyDict.Put(newMessages[i].fields, "content", updated.value))];
        return Ok(newMessages);
      }
    }
    return Ok([SystemMessage(text)] + newMessages);
  }

  // ---- the sanitiser ----

  const TripleQuote := "\"\"\""

  /** One character as it must appear inside a JSON string literal. */
  function EscapeChar(c: char): string {
    if c == '\\' then "\\\\" else if c == '\n' then "\\n" else if c == '"' then "\\\"" else [c]
  }

  /** Backslashes, newlines and double quotes escaped, in that order of replacement. */
  function Escaped(s: string): (r: string)
    ensures forall i :: 0 <= i < |r| ==> r[i] != '\n'
  {
    if s == [] then "" else EscapeChar(s[0]) + Escaped(s[1..])
  }

  /** How a JSON decoder reads back the three escapes (`\n`, and a backslash before any other character). */
  function Unescaped(t: string): string {
    if |t| >= 2 && t[0] == '\\' then (if t[1] == 'n' then "\n" else [t[1]]) + Unescaped(t[2..])
    else if t == [] then ""
    else [t[0]] + Unescaped(t[1..])
  }

  lemma {:induction false} UnescapeOne(c: char, rest: string)
    ensures Unescaped(EscapeChar(c) + rest) == [c] + Unescaped(rest)
  {
    var t := EscapeChar(c) + rest;
    if c == '\\' || c == '\n' || c == '"' {
      assert t[2..] == rest;
    } else {
      assert t[1..] == rest;
    }
  }

  /** The escaping loses nothing: decoding the escaped text gives the original back. */
  lemma {:induction false} EscapeRoundTrip(s: string)
    ensures Unescaped(Escaped(s)) == s
  {
    if s != [] {
      EscapeRoundTrip(s[1..]);
      UnescapeOne(s[0], Escaped(s[1..]));
    }
  }

  /** What a triple-quoted block becomes: an ordinary JSON string. */
  function Quoted(inner: string): string {
    "\"" + Escaped(inner) + "\""
  }

  /** `,\s*` followed by a closing bracket. */
  predicate ClosesAfterSpace(s: string) {
    var t := LStrip(s);
    t != [] && (t[0] == '}' || t[0] == ']')
  }

  /** `re.sub(r',\s*([}\]])', r'\1', s)`: one left-to-right pass, without rescanning a replacement. */
  function WithoutTrailingCommas(s: string): (r: string)
    ensures |r| <= |s|
    decreases |s|
  {
    if s == [] then ""
    else if s[0] == ',' && ClosesAfterSpace(s[1..]) then
      var t := LStrip(s[1..]);
      [t[0]] + WithoutTrailingCommas(t[1..])
    else [s[0]] + WithoutTrailingCommas(s[1..])
  }

  /** The characters that carry structure: everything except commas and whitespace. */
  function Essential(s: string): string {
    if s == [] then ""
    else (if s[0] == ',' || IsSpace(s[0]) then "" else [s[0]]) + Essential(s[1..])
  }

  lemma {:induction false} EssentialLStrip(s: string)
    ensures Essential(LStrip(s)) == Essential(s)
  {
    if s != [] && IsSpace(s[0]) {
      EssentialLStrip(s[1..]);
    }
  }

  /** Only commas and whitespace are removed; every other character survives, in order. */
  lemma {:induction false} TrailingCommasKeepEssential(s: string)
    ensures Essential(WithoutTrailingCommas(s)) == Essential(s)
    decreases |s|
  {
    if s != [] {
      if s[0] == ',' && ClosesAfterSpace(s[1..]) {
        var t := LStrip(s[1..]);
        TrailingCommasKeepEssential(t[1..]);
        EssentialLStrip(s[1..]);
        assert Essential(t) == [t[0]] + Essential(t[1..]);
      } else {
        TrailingCommasKeepEssential(s[1..]);
      }
    }
  }

  /** Text without commas passes through unchanged. */
  lemma {:induction false} NoCommaUnchanged(s: string)
    requires forall i :: 0 <= i < |s| ==> s[i] != ','
    ensures WithoutTrailingCommas(s) == s
  {
    if s != [] {
      NoCommaUnchanged(s[1..]);
      assert [s[0]] + s[1..] == s;
    }
  }

  /** A comma directly before a closing bracket is removed. */
  lemma {:induction false} CommaBeforeBracket(a: char, b: string)
    requires a == '}' || a == ']'
    ensures WithoutTrailingCommas([',', a] + b) == [a] + WithoutTrailingCommas(b)
  {
    var s := [',', a] + b;
    assert s[1..] == [a] + b;
    assert LStrip(s[1..]) == [a] + b;
    assert ([a] + b)[1..] == b;
  }

  /**
   * `_sanitize_json`: triple-quoted blocks become JSON strings, then trailing
   * commas go; without a triple quote only the trailing commas go.
   */
  function SanitizedJson(s: string): (r: string)
    ensures !Contains(s, TripleQuote) ==> r == WithoutTrailingCommas(s)
  {
    if Contains(s, TripleQuote) then WithoutTrailingCommas(SubBlocks(s, TripleQuote, TripleQuote, Quoted, 0))
    else
      SubBlocksNoMatch(s, TripleQuote, TripleQuote, Quoted);
      WithoutTrailingCommas(SubBlocks(s, TripleQuote, TripleQuote, Quoted, 0))
  }

  // ---- parse_response ----

  /** A standardised call; its `type` is always "function". */
  datatype StdCall = StdCall(id: string, name: Json, arguments: string)

  datatype Parsed = Parsed(content: string, toolCalls: seq<StdCall>)

  /**
   * The regular-expression searches, as partial functions from the text to
   * their groups: the generic object search and the four per-tool patterns.
   */
  datatype Patterns = Patterns(
    jsonObject: string -> Option<string>,
    writeFile: string -> Option<(string, string)>,
    readFile: string -> Option<string>,
    listDirectory: string -> Option<string>,
    runShellCommand: string -> Option<string>)

  /** The position of a fallback id in the fixed order. */
  function FallbackRank(id: string): int {
    if id == "fallback_write" then 0
    else if id == "fallback_read" then 1
    else if id == "fallback_list" then 2
    else if id == "fallback_shell" then 3
    else 4
  }

  predicate HasId(calls: seq<StdCall>, id: string) {
    exists i :: 0 <= i < |calls| && calls[i].id == id
  }

  /** The four fallback ids are told apart by their tenth character. */
  lemma {:induction false} FallbackRanks()
    ensures FallbackRank("fallback_write") == 0 && FallbackRank("fallback_read") == 1
    ensures FallbackRank("fallback_list") == 2 && FallbackRank("fallback_shell") == 3
  {
    assert "fallback_read"[9] != "fallback_write"[9];
    assert "fallback_list"[9] != "fallback_write"[9] && "fallback_list"[9] != "fallback_read"[9];
    assert "fallback_shell"[9] != "fallback_write"[9] && "fallback_shell"[9] != "fallback_read"[9];
    assert "fallback_shell"[9] != "fallback_list"[9];
  }

  /** The call one fallback pattern contributes, if it matched. */
  function FallbackCall(id: string, name: string, arguments: Option<Json>, dumps: Json -> string): (r: seq<StdCall>)
    ensures |r| <= 1 && (r != [] <==> arguments.Some?)
    ensures forall c :: c in r ==> c.id == id
  {
    if arguments.Some? then [StdCall(id, JStr(name), dumps(arguments.value))] else []
  }

  function PathArg(m: Option<string>): Option<Json> {
    if m.Some? then Some(JObj([("path", JStr(m.value))])) else None
  }

  /**
   * `_fallback_regex_extraction` / `_fallback_regex`: at most one call per
   * pattern, in the order write, read, list, shell, each with its fixed id.
   */
  function FallbackCalls(text: string, pats: Patterns, dumps: Json -> string): (r: seq<StdCall>)
    ensures |r| <= 4
  {
    var w := pats.writeFile(text);
    var sh := pats.runShellCommand(text);
    FallbackCall("fallback_write", "write_file",
                 if w.Some? then Some(JObj([("path", JStr(w.value.0)), ("content", JStr(w.value.1))])) else None, dumps)
    + FallbackCall("fallback_read", "read_file", PathArg(pats.readFile(text)), dumps)
    + FallbackCall("fallback_list", "list_directory", PathArg(pats.listDirectory(text)), dumps)
    + FallbackCall("fallback_shell", "run_shell_command",
                   if sh.Some? then Some(JObj([("command", JStr(sh.value))])) else None, dumps)
  }

  /** Which of the four parts position `i` of their concatenation falls in. */
  function PartOf(a: seq<StdCall>, b: seq<StdCall>, c: seq<StdCall>, i: int): int {
    if i < |a| then 0 else if i < |a| + |b| then 1 else if i < |a| + |b| + |c| then 2 else 3
  }

  predicate AllIds(xs: seq<StdCall>, id: string) {
    forall x :: x in xs ==> x.id == id
  }

  lemma {:induction false} RankAt(a: seq<StdCall>, b: seq<StdCall>, c: seq<StdCall>, d: seq<StdCall>, i: int)
    requires AllIds(a, "fallback_write") && AllIds(b, "fallback_read")
    requires AllIds(c, "fallback_list") && AllIds(d, "fallback_shell")
    requires 0 <= i < |a + b + c + d|
    ensures FallbackRank((a + b + c + d)[i].id) == PartOf(a, b, c, i)
  {
    FallbackRanks();
    var r := a + b + c + d;
    if i < |a| { assert r[i] == a[i]; assert a[i] in a; }
    else if i < |a| + |b| { assert r[i] == b[i - |a|]; assert b[i - |a|] in b; }
    else if i < |a| + |b| + |c| { assert r[i] == c[i - |a| - |b|]; assert c[i - |a| - |b|] in c; }
    else { assert r[i] == d[i - |a| - |b| - |c|]; assert d[i - |a| - |b| - |c|] in d; }
  }

  /** Concatenating the four contributions: ranks increase, and each id is there exactly when its part is. */
  lemma {:induction false} FourParts(a: seq<StdCall>, b: seq<StdCall>, c: seq<StdCall>, d: seq<StdCall>)
    requires |a| <= 1 && |b| <= 1 && |c| <= 1 && |d| <= 1
    requires AllIds(a, "fallback_write") && AllIds(b, "fallback_read")
    requires AllIds(c, "fallback_list") && AllIds(d, "fallback_shell")
    ensures var r := a + b + c + d;
      (forall i, j :: 0 <= i < j < |r| ==> FallbackRank(r[i].id) < FallbackRank(r[j].id) < 4)
      && (HasId(r, "fallback_write") <==> a != []) && (HasId(r, "fallback_read") <==> b != [])
      && (HasId(r, "fallback_list") <==> c != []) && (HasId(r, "fallback_shell") <==> d != [])
  {
    FallbackRanks();
    var r := a + b + c + d;
    forall i, j | 0 <= i < j < |r| ensures FallbackRank(r[i].id) < FallbackRank(r[j].id) < 4 {
      RankAt(a, b, c, d, i);
      RankAt(a, b, c, d, j);
    }
    HasIdPart(a, b, c, d, "fallback_write", 0);
    HasIdPart(a, b, c, d, "fallback_read", 1);
    HasIdPart(a, b, c, d, "fallback_list", 2);
    HasIdPart(a, b, c, d, "fallback_shell", 3);
  }

  lemma {:induction false} HasIdPart(a: seq<StdCall>, b: seq<StdCall>, c: seq<StdCall>, d: seq<StdCall>, id: string, k: nat)
    requires AllIds(a, "fallback_write") && AllIds(b, "fallback_read")
    requires AllIds(c, "fallback_list") && AllIds(d, "fallback_shell")
    requires k < 4 && FallbackRank(id) == k
    requires id == ["fallback_write", "fallback_read", "fallback_list", "fallback_shell"][k]
    ensures HasId(a + b + c + d, id) <==> [a, b, c, d][k] != []
  {
    var r := a + b + c + d;
    var part := [a, b, c, d][k];
    var offset := [0, |a|, |a| + |b|, |a| + |b| + |c|][k];
    if HasId(r, id) {
      var i :| 0 <= i < |r| && r[i].id == id;
      RankAt(a, b, c, d, i);
    }
    if part != [] {
      assert r[offset] == part[0];
      assert part[0] in part;
    }
  }

  /** The fallback calls come in the fixed order, one for each pattern that matched and no other. */
  lemma {:induction false} FallbackOrder(text: string, pats: Patterns, dumps: Json -> string)
    ensures var r := FallbackCalls(text, pats, dumps);
      (forall i, j :: 0 <= i < j < |r| ==> FallbackRank(r[i].id) < FallbackRank(r[j].id) < 4)
      && (forall i :: 0 <= i < |r| ==> FallbackRank(r[i].id) < 4)
      && (HasId(r, "fallback_write") <==> pats.writeFile(text).Some?)
      && (HasId(r, "fallback_read") <==> pats.readFile(text).Some?)
      && (HasId(r, "fallback_list") <==> pats.listDirectory(text).Some?)
      && (HasId(r, "fallback_shell") <==> pats.runShellCommand(text).Some?)
  {
    var w := pats.writeFile(text);
    var sh := pats.runShellCommand(text);
    var a := FallbackCall("fallback_write", "write_file",
                 if w.Some? then Some(JObj([("path", JStr(w.value.0)), ("content", JStr(w.value.1))])) else None, dumps);
    var b := FallbackCall("fallback_read", "read_file", PathArg(pats.readFile(text)), dumps);
    var c := FallbackCall("fallback_list", "list_directory", PathArg(pats.listDirectory(text)), dumps);
    var d := FallbackCall("fallback_shell", "run_shell_command",
                   if sh.Some? then Some(JObj([("command", JStr(sh.value))])) else None, dumps);
    assert FallbackCalls(text, pats, dumps) == a + b + c + d;
    FourParts(a, b, c, d);
    FallbackRanks();
    var r := a + b + c + d;
    forall i | 0 <= i < |r| ensures FallbackRank(r[i].id) < 4 {
      if |r| > 1 {
        if i == 0 { assert FallbackRank(r[0].id) < FallbackRank(r[1].id) < 4; }
        else { assert FallbackRank(r[0].id) < FallbackRank(r[i].id) < 4; }
      } else {
        assert r[i] in a || r[i] in b || r[i] in c || r[i] in d;
      }
    }
  }

  /**
   * One attempt at decoding a whole object: a decoding error or a
   * `TypeError` (from `in` on a scalar, or from indexing a list or a string)
   * is caught and sends `fallbackText` to the fallback patterns. A dict
   * with `name` (and, when `needArguments`, `arguments`) gives one call; a
   * dict without gives none.
   */
  function Attempt(raw: string, needArguments: bool, id: string, fallbackText: string,
                   pats: Patterns, loads: string -> Option<Json>, dumps: Json -> string): (r: seq<StdCall>)
    ensures |r| <= 4
    ensures loads(SanitizedJson(raw)).None? ==> r == FallbackCalls(fallbackText, pats, dumps)
    ensures loads(SanitizedJson(raw)).Some? && !IsContainer(loads(SanitizedJson(raw)).value) ==>
      r == FallbackCalls(fallbackText, pats, dumps)
    ensures loads(SanitizedJson(raw)).Some? ==>
      var data := loads(SanitizedJson(raw)).value;
      IsContainer(data) && !data.JObj? ==>
        r == if In("name", data).value && (!needArguments || In("arguments", data).value)
             then FallbackCalls(fallbackText, pats, dumps) else []
  {
    match loads(SanitizedJson(raw))
    case None => FallbackCalls(fallbackText, pats, dumps)
    case Some(data) =>
      if !IsContainer(data) then FallbackCalls(fallbackText, pats, dumps)
      else if In("name", data).value && (!needArguments || In("arguments", data).value) then
        if data.JObj? then [StdCall(id, MemberOr(data, "name", JNull), dumps(MemberOr(data, "arguments", JObj([]))))]
        else FallbackCalls(fallbackText, pats, dumps)
      else []
  }

  /** The block's text from its first `{` to its last `}`, when it has both. */
  function Narrowed(raw: string): (r: string)
    ensures Find(raw, "{", 0).None? || RFindChar(raw, '}').None? ==> r == raw
    ensures Find(raw, "{", 0).Some? && RFindChar(raw, '}').Some? && Find(raw, "{", 0).value <= RFindChar(raw, '}').value
            ==> r != [] && r[0] == '{' && r[|r| - 1] == '}' && r == raw[Find(raw, "{", 0).value..RFindChar(raw, '}').value + 1]
    ensures Find(raw, "{", 0).Some? && RFindChar(raw, '}').Some? && RFindChar(raw, '}').value < Find(raw, "{", 0).value
            ==> r == ""
  {
    match (Find(raw, "{", 0), RFindChar(raw, '}'))
    case (Some(st), Some(e)) =>
      assert OccursAt(raw, "{", st);
      if e + 1 <= st then "" else raw[st..e + 1]
    case _ => raw
  }

  /** `parse_response` of either adapter; the content is never changed. */
  function ParseResponse(f: Flavour, content: string, pats: Patterns,
                         loads: string -> Option<Json>, dumps: Json -> string): (r: Parsed)
    ensures r.content == content
    ensures |r.toolCalls| <= 4
  {
    match f
    case JsonProtocol =>
      Parsed(content, JsonCalls(content, pats, loads, dumps))
    case XmlProtocol =>
      Parsed(content, XmlCalls(content, pats, loads, dumps))
  }

  /** The calls `OllamaJSONAdapter.parse_response` finds. */
  function JsonCalls(content: string, pats: Patterns, loads: string -> Option<Json>, dumps: Json -> string): (r: seq<StdCall>)
    ensures |r| <= 4
  {
    match pats.jsonObject(content)
    case Some(raw) => Attempt(raw, true, "json_heuristic", raw, pats, loads, dumps)
    case None => FallbackCalls(content, pats, dumps)
  }

  /**
   * The calls `OllamaXMLAdapter.parse_response` finds: only the first
   * `<tool_code>` block counts; without one, the generic object search.
   */
  function XmlCalls(content: string, pats: Patterns, loads: string -> Option<Json>, dumps: Json -> string): (r: seq<StdCall>)
    ensures |r| <= 4
  {
    match NextBlock(content, "<tool_code>", "</tool_code>", 0)
    case Some(sp) =>
      var raw := Narrowed(Strip(content[sp.innerStart..sp.innerEnd]));
      Attempt(raw, false, "xml_heuristic", raw, pats, loads, dumps)
    case None =>
      match pats.jsonObject(content)
      case Some(raw) => Attempt(raw, false, "json_fallback_heuristic", content, pats, loads, dumps)
      case None => FallbackCalls(content, pats, dumps)
  }

  /**
   * Full-object acceptance: a decoded dict gives a call exactly when it has
   * the required keys; the JSON adapter needs both `name` and `arguments`,
   * the XML adapter only `name`, with `arguments` defaulting to `{}`.
   */
  lemma {:induction false} AttemptOnDict(raw: string, needArguments: bool, id: string, fallbackText: string, fields: PyDict.Dict<string, Json>,
                      pats: Patterns, loads: string -> Option<Json>, dumps: Json -> string)
    requires loads(SanitizedJson(raw)) == Some(JObj(fields))
    ensures Attempt(raw, needArguments, id, fallbackText, pats, loads, dumps)
      == if PyDict.HasKey(fields, "name") && (!needArguments || PyDict.HasKey(fields, "arguments"))
         then [StdCall(id, PyDict.GetOr(fields, "name", JNull), dumps(PyDict.GetOr(fields, "arguments", JObj([]))))]
         else []
  {
    PyDict.GetSome(fields, "name");
  }

  /** The JSON adapter's whole-object path, for a decoded dict. */
  lemma {:induction false} JsonAdapterNeedsBoth(content: string, raw: string, fields: PyDict.Dict<string, Json>, pats: Patterns,
                             loads: string -> Option<Json>, dumps: Json -> string)
    requires pats.jsonObject(content) == Some(raw) && loads(SanitizedJson(raw)) == Some(JObj(fields))
    ensures ParseResponse(JsonProtocol, content, pats, loads, dumps).toolCalls
      == if PyDict.HasKey(fields, "name") && PyDict.HasKey(fields, "arguments")
         then [StdCall("json_heuristic", PyDict.GetOr(fields, "name", JNull), dumps(PyDict.GetOr(fields, "arguments", JNull)))]
         else []
  {
    AttemptOnDict(raw, true, "json_heuristic", raw, fields, pats, loads, dumps);
    PyDict.GetSome(fields, "arguments");
  }

  /** The XML adapter's generic path (no `<tool_code>` block), for a decoded dict. */
  lemma {:induction false} XmlAdapterNeedsName(content: string, raw: string, fields: PyDict.Dict<string, Json>, pats: Patterns,
                            loads: string -> Option<Json>, dumps: Json -> string)
    requires NextBlock(content, "<tool_code>", "</tool_code>", 0).None?
    requires pats.jsonObject(content) == Some(raw) && loads(SanitizedJson(raw)) == Some(JObj(fields))
    ensures ParseResponse(XmlProtocol, content, pats, loads, dumps).toolCalls
      == if PyDict.HasKey(fields, "name")
         then [StdCall("json_fallback_heuristic", PyDict.GetOr(fields, "name", JNull),
                       dumps(PyDict.GetOr(fields, "arguments", JObj([]))))]
         else []
  {
    AttemptOnDict(raw, false, "json_fallback_heuristic", content, fields, pats, loads, dumps);
  }

  /** The text the XML adapter decodes from a `<tool_code>` block: its inside, stripped, then narrowed. */
  function BlockJson(content: string, sp: Span): string
    requires sp.innerStart <= sp.innerEnd <= |content|
  {
    Narrowed(Strip(content[sp.innerStart..sp.innerEnd]))
  }

  /**
   * The XML adapter's block path: only the first `<tool_code>` block
   * counts; its narrowed text, once decoded to a dict, gives a call with id
   * "xml_heuristic" exactly when it has `name` (`arguments` defaulting to
   * `{}`); when it does not decode, the fallback patterns run over that
   * narrowed text.
   */
  lemma {:induction false} XmlAdapterOnBlock(content: string, pats: Patterns, loads: string -> Option<Json>, dumps: Json -> string)
    requires NextBlock(content, "<tool_code>", "</tool_code>", 0).Some?
    ensures var sp := NextBlock(content, "<tool_code>", "</tool_code>", 0).value;
      sp.innerStart <= sp.innerEnd <= |content|
      && var raw := BlockJson(content, sp);
      var calls := ParseResponse(XmlProtocol, content, pats, loads, dumps).toolCalls;
      && (loads(SanitizedJson(raw)).None? ==> calls == FallbackCalls(raw, pats, dumps))
      && (loads(SanitizedJson(raw)).Some? && loads(SanitizedJson(raw)).value.JObj? ==>
            var fields := loads(SanitizedJson(raw)).value.fields;
            calls == if PyDict.HasKey(fields, "name")
                     then [StdCall("xml_heuristic", PyDict.GetOr(fields, "name", JNull),
                                   dumps(PyDict.GetOr(fields, "arguments", JObj([]))))]
                     else [])
  {
    var sp := NextBlock(content, "<tool_code>", "</tool_code>", 0).value;
    var raw := BlockJson(content, sp);
    assert XmlCalls(content, pats, loads, dumps) == Attempt(raw, false, "xml_heuristic", raw, pats, loads, dumps);
    var d := loads(SanitizedJson(raw));
    if d.Some? && d.value.JObj? {
      AttemptOnDict(raw, false, "xml_heuristic", raw, d.value.fields, pats, loads, dumps);
    }
  }
}
