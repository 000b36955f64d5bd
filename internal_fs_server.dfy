/**
 * The bundled MCP server `InternalFS`: a line-oriented JSON-RPC 2.0 loop
 * that answers `initialize`, `tools/list` and `tools/call` and keeps silent
 * on notifications and unknown methods.
 *
 * The file system, the shell and the process environment sit behind the
 * `Host` oracles; what the model keeps is the argument cleaning, the
 * interpreter rewriting, the choice of result text and error flag, the
 * framing of every result, and the dispatch loop.
 */
module InternalFsServer {
  import opened Wrappers
  import opened Json
  import PyStr
  import PyDict
  import McpProtocol

  /** What running a shell command gave: a detached process, a finished one, a timeout, or another failure. */
  datatype ShellRun =
    | Started(pid: int)
    | Finished(exitCode: int, stdout: string, stderr: string)
    | TimedOut
    | Failed(error: string)

  /**
   * The outside world. `pathExists`, `readFile`, `writeFile` (which gives the
   * diff note that follows "Successfully wrote to"), `listDir`, `similarDirs`
   * (the recovery search for a missing directory), `glob`, `search` (the
   * matching files) and `runShell` stand for the file system and the
   * subprocess module; `which` for `shutil.which`; `executable` for
   * `sys.executable`; `show` for `str` on a non-string value; `repr` for
   * `repr` on a string.
   */
  datatype Host = Host(
    pathExists: string -> bool,
    readFile: string -> Result<string>,
    writeFile: (string, string) -> Result<string>,
    listDir: string -> Result<seq<string>>,
    similarDirs: string -> seq<string>,
    glob: string -> Result<seq<string>>,
    search: (string, string) -> Result<seq<string>>,
    runShell: (string, bool) -> ShellRun,
    which: string -> bool,
    executable: string,
    show: Json -> string,
    repr: string -> string)

  /** The text and the error flag of one tool call. */
  datatype Outcome = Outcome(text: string, isError: bool)

  /** The name Python reports for the type of a decoded value. */
  function TypeName(v: Json): string {
    match v
    case JNull => "NoneType"
    case JBool(_) => "bool"
    case JInt(_) => "int"
    case JFloat(_) => "float"
    case JStr(_) => "str"
    case JArr(_) => "list"
    case JObj(_) => "dict"
  }

  predicate Quoted(s: string) {
    |s| >= 1 && ((s[0] == '"' && s[|s| - 1] == '"') || (s[0] == '\'' && s[|s| - 1] == '\''))
  }

  /** `s[1:-1]` when `s` starts and ends with the same quote character (a lone quote gives ""). */
  function Unquoted(s: string): (r: string)
    ensures Quoted(s) ==> |r| + 2 == |s| || (|s| == 1 && r == "")
    ensures Quoted(s) && |s| >= 2 ==> r == s[1..|s| - 1]
    ensures !Quoted(s) ==> r == s
  {
    if Quoted(s) then (if |s| >= 2 then s[1..|s| - 1] else "") else s
  }

  /**
   * `clean_arg` without its path normalisation: a falsy argument is "";
   * otherwise its text is stripped, loses one pair of matching surrounding
   * quotes, and is stripped again.
   */
  function CleanArg(arg: Json, show: Json -> string): (r: string)
    ensures !Truthy(arg) ==> r == ""
    ensures PyStr.Trimmed(r)
    ensures |r| <= |Str(arg, show)|
  {
    if !Truthy(arg) then ""
    else
      var s := PyStr.Strip(Str(arg, show));
      PyStr.Strip(Unquoted(s))
  }

  /** Stripping a trimmed string changes nothing. */
  lemma {:induction false} StripTrimmed(s: string)
    requires PyStr.Trimmed(s)
    ensures PyStr.Strip(s) == s
  {
    assert PyStr.LStrip(s) == s;
    assert PyStr.RStrip(s) == s;
  }

  /** A trimmed, unquoted argument comes back unchanged. */
  lemma {:induction false} CleanArgKeepsPlain(s: string, show: Json -> string)
    requires PyStr.Trimmed(s) && !Quoted(s)
    ensures CleanArg(JStr(s), show) == s
  {
    if s != "" {
      assert Str(JStr(s), show) == s;
      StripTrimmed(s);
      assert Unquoted(s) == s;
    }
  }

  /** A trimmed text in quotes comes back without the quotes. */
  lemma {:induction false} CleanArgUnquotes(w: string, q: char, show: Json -> string)
    requires PyStr.Trimmed(w) && (q == '"' || q == '\'')
    ensures CleanArg(JStr([q] + w + [q]), show) == w
  {
    var s := [q] + w + [q];
    assert !PyStr.IsSpace(q);
    assert s[0] == q && s[|s| - 1] == q;
    StripTrimmed(s);
    assert Quoted(s);
    assert Unquoted(s) == w by {
      assert s[1..|s| - 1] == w;
    }
    StripTrimmed(w);
  }

  /** The interpreter `resolve_python_command` substitutes: `py`, then `python3`, then the running interpreter. */
  function Interpreter(host: Host): string {
    if host.which("py") then "py" else if host.which("python3") then "python3" else host.executable
  }

  predicate IsPython(prog: string) {
    prog == "python" || prog == "python3"
  }

  /**
   * `resolve_python_command`: a command whose first word is `python` or
   * `python3` gets a working interpreter in its place, unless `python` is on
   * the path; every other command is left alone.
   */
  function ResolvePythonCommand(cmd: string, host: Host): (r: string)
    ensures PyStr.Split(cmd) == [] ==> r == cmd
    ensures PyStr.Split(cmd) != [] && !IsPython(PyStr.Split(cmd)[0]) ==> r == cmd
    ensures host.which("python") ==> r == cmd
    ensures PyStr.Split(cmd) != [] && IsPython(PyStr.Split(cmd)[0]) && !host.which("python") ==>
      r == PyStr.Join(" ", [Interpreter(host)] + PyStr.Split(cmd)[1..])
  {
    var parts := PyStr.Split(cmd);
    if parts == [] then cmd
    else if IsPython(parts[0]) then
      if host.which("python") then cmd
      else if host.which("py") then PyStr.Join(" ", ["py"] + parts[1..])
      else if host.which("python3") then PyStr.Join(" ", ["python3"] + parts[1..])
      else PyStr.Join(" ", [host.executable] + parts[1..])
    else cmd
  }

  /**
   * A rewritten command splits into the substituted interpreter followed by
   * the original arguments, word for word.
   */
  lemma {:induction false} RewriteKeepsArguments(cmd: string, host: Host)
    requires PyStr.Split(cmd) != [] && IsPython(PyStr.Split(cmd)[0]) && !host.which("python")
    requires host.executable != "" && PyStr.NoSpace(host.executable)
    ensures PyStr.Split(ResolvePythonCommand(cmd, host)) == [Interpreter(host)] + PyStr.Split(cmd)[1..]
  {
    var parts := PyStr.Split(cmd);
    var words := [Interpreter(host)] + parts[1..];
    InterpreterIsWord(host);
    forall i | 0 <= i < |words|
      ensures words[i] != "" && PyStr.NoSpace(words[i])
    {
      if i > 0 {
        assert words[i] == parts[i];
      }
    }
    PyStr.SplitJoin(words);
  }

  /** A word made of lower-case ASCII letters and digits has no whitespace. */
  lemma {:induction false} AlnumNoSpace(w: string)
    requires forall j :: 0 <= j < |w| ==> 'a' <= w[j] <= 'z' || '0' <= w[j] <= '9'
    ensures PyStr.NoSpace(w)
  {
  }

  /** The substituted interpreter is a single word. */
  lemma {:induction false} InterpreterIsWord(host: Host)
    requires host.executable != "" && PyStr.NoSpace(host.executable)
    ensures Interpreter(host) != "" && PyStr.NoSpace(Interpreter(host))
  {
    if host.which("py") {
      AlnumNoSpace("py");
    } else if host.which("python3") {
      AlnumNoSpace("python3");
    }
  }

  /** The listing for `glob`: the first 100 paths, one per line, and a count of the rest. */
  function GlobText(files: seq<string>): (r: string)
    ensures files == [] ==> r == "No files found matching pattern."
    ensures 0 < |files| <= 100 ==> r == PyStr.Join("\n", files)
    ensures |files| > 100 ==> PyStr.StartsWith(r, PyStr.Join("\n", files[..100]))
    ensures |files| > 100 ==> PyStr.EndsWith(r, " more)")
    ensures |files| > 100 ==>
      r == PyStr.Join("\n", files[..100]) + "\n... (" + PyStr.NatToString(|files| - 100) + " more)"
  {
    if files == [] then "No files found matching pattern."
    else if |files| <= 100 then PyStr.Join("\n", files)
    else
      var head := PyStr.Join("\n", files[..100]);
      var r := head + "\n... (" + PyStr.NatToString(|files| - 100) + " more)";
      assert r[..|head|] == head;
      r
  }

  /** Every one of the first 100 paths appears in the `glob` listing. */
  lemma {:induction false} GlobListsFirstHundred(files: seq<string>, i: nat)
    requires i < |files| && i < 100
    ensures exists k :: PyStr.OccursAt(GlobText(files), files[i], k)
  {
    if |files| <= 100 {
      assert GlobText(files) == PyStr.Join("\n", files);
      PyStr.JoinOccurs("\n", files, i);
    } else {
      var head := PyStr.Join("\n", files[..100]);
      PyStr.JoinOccurs("\n", files[..100], i);
      var k :| PyStr.OccursAt(head, files[i], k);
      var r := GlobText(files);
      assert r[..|head|] == head;
      assert r[k..k + |files[i]|] == head[k..k + |files[i]|];
      assert PyStr.OccursAt(r, files[i], k);
    }
  }

  const StdoutHeader := "\nSTDOUT:\n"
  const StderrHeader := "\nSTDERR:\n"
  const PathHint := "\n[System Hint]: Check PATH or command spelling."

  /** The text of a finished shell command, with the hint for an unknown command. */
  function ShellText(exitCode: int, stdout: string, stderr: string): (r: string)
    ensures PyStr.StartsWith(r, "Exit Code: " + PyStr.IntToString(exitCode) + StdoutHeader)
  {
    var prefix := "Exit Code: " + PyStr.IntToString(exitCode) + StdoutHeader;
    var streams := PyStr.Strip(stdout) + StderrHeader + PyStr.Strip(stderr);
    var tail := if exitCode != 0 && PyStr.Contains(stderr, "not recognized") then streams + PathHint else streams;
    assert (prefix + tail)[..|prefix|] == prefix;
    prefix + tail
  }

  /** `read_file` */
  function ReadFileOutcome(args: Json, host: Host): Outcome
    requires args.JObj?
  {
    var path := CleanArg(MemberOr(args, "path", JStr("")), host.show);
    if !host.pathExists(path) then
      Outcome("Error: File '" + path + "' not found (Raw: " + host.repr(path) + ")", true)
    else
      match host.readFile(path)
      case Ok(text) => Outcome(text, false)
      case Err(e) => Outcome("Error reading file '" + path + "': " + e + " (Raw: " + host.repr(path) + ")", true)
  }

  /** `write_file` */
  function WriteFileOutcome(args: Json, host: Host): Outcome
    requires args.JObj?
  {
    var path := CleanArg(MemberOr(args, "path", JStr("")), host.show);
    var content := Str(MemberOr(args, "content", JStr("")), host.show);
    match host.writeFile(path, content)
    case Ok(diff) => Outcome("Successfully wrote to " + path + diff, false)
    case Err(e) => Outcome("Error writing file '" + path + "': " + e + " (Raw: " + host.repr(path) + ")", true)
  }

  /** `list_directory`; an empty path means the current directory. */
  function ListDirectoryOutcome(args: Json, host: Host): Outcome
    requires args.JObj?
  {
    var cleaned := CleanArg(MemberOr(args, "path", JStr(".")), host.show);
    var path := if cleaned == "" then "." else cleaned;
    if host.pathExists(path) then
      match host.listDir(path)
      case Ok(items) => Outcome(PyStr.Join("\n", items), false)
      case Err(e) => Outcome("Error listing dir '" + path + "': " + e + " (Raw: " + host.repr(path) + ")", true)
    else
      var candidates := host.similarDirs(path);
      if candidates != [] then
        Outcome("Error: Directory '" + path + "' not found.\n\nHowever, I found similar directories that might match:\n"
          + PyStr.Join("\n", candidates) + ".", true)
      else Outcome("Error: Directory '" + path + "' not found (Raw: " + host.repr(path) + ")", true)
  }

  /** `glob`; the default pattern is `*`. */
  function GlobOutcome(args: Json, host: Host): Outcome
    requires args.JObj?
  {
    match host.glob(CleanArg(MemberOr(args, "pattern", JStr("*")), host.show))
    case Ok(files) => Outcome(GlobText(files), false)
    case Err(e) => Outcome("Glob Error: " + e, true)
  }

  /** `search_file_content`; an empty pattern is refused before any search. */
  function SearchOutcome(args: Json, host: Host): Outcome
    requires args.JObj?
  {
    var pattern := CleanArg(MemberOr(args, "pattern", JStr("")), host.show);
    var searchPath := CleanArg(MemberOr(args, "path", JStr(".")), host.show);
    if pattern == "" then Outcome("Error: Pattern is required", true)
    else
      match host.search(pattern, searchPath)
      case Ok(matches) =>
        if matches != [] then Outcome("Found matches in:\n" + PyStr.Join("\n", matches), false)
        else Outcome("No matches found.", false)
      case Err(e) => Outcome("Search Error: " + e, true)
  }

  /** `run_shell_command`, after the interpreter rewriting. */
  function ShellOutcome(args: Json, host: Host): Outcome
    requires args.JObj?
  {
    var rawCmd := CleanArg(MemberOr(args, "command", JStr("")), host.show);
    var background := Truthy(MemberOr(args, "background", JBool(false)));
    var cmd := ResolvePythonCommand(rawCmd, host);
    match host.runShell(cmd, background)
    case Started(pid) => Outcome("Started background process. PID: " + PyStr.IntToString(pid), false)
    case Finished(code, out, err) => Outcome(ShellText(code, out, err), false)
    case TimedOut => Outcome("Error: Command timed out (60s limit)", true)
    case Failed(e) => Outcome("Execution Error for '" + cmd + "': " + e + " (Raw: " + host.repr(rawCmd) + ")", true)
  }

  /** The six tools the server knows, in the order it lists them. */
  const HandledTools := ["read_file", "write_file", "list_directory", "glob", "search_file_content", "run_shell_command"]

  /**
   * The body of `handle_call_tool` for a `params` dict: the tool is chosen by
   * `name`; a known tool whose `arguments` is not a dict fails on `get`,
   * which the catch-all turns into a "System Error".
   */
  function CallOutcome(params: Json, host: Host): (r: Outcome)
    requires params.JObj?
    ensures (forall t :: t in HandledTools ==> MemberOr(params, "name", JNull) != JStr(t)) ==>
      r == Outcome("Unknown tool: " + Str(MemberOr(params, "name", JNull), host.show), true)
  {
    var name := MemberOr(params, "name", JNull);
    var args := MemberOr(params, "arguments", JObj([]));
    if !(exists t :: t in HandledTools && name == JStr(t)) then
      Outcome("Unknown tool: " + Str(name, host.show), true)
    else if !args.JObj? then
      Outcome("System Error: '" + TypeName(args) + "' object has no attribute 'get'", true)
    else if name == JStr("read_file") then ReadFileOutcome(args, host)
    else if name == JStr("write_file") then WriteFileOutcome(args, host)
    else if name == JStr("list_directory") then ListDirectoryOutcome(args, host)
    else if name == JStr("glob") then GlobOutcome(args, host)
    else if name == JStr("search_file_content") then SearchOutcome(args, host)
    else ShellOutcome(args, host)
  }

  /** The `tools/call` result: exactly one text item and the error flag. */
  function Framed(o: Outcome): Json {
    JObj([("content", JArr([JObj([("type", JStr("text")), ("text", JStr(o.text))])])), ("isError", JBool(o.isError))])
  }

  /** `handle_call_tool`: a `params` value that is not a dict fails outside the catch-all and stops the server. */
  function HandleCallTool(params: Json, host: Host): (r: Result<Json>)
    ensures r.Ok? <==> params.JObj?
    ensures r.Ok? ==> r.value == Framed(CallOutcome(params, host))
  {
    if !params.JObj? then Err("AttributeError: '" + TypeName(params) + "' object has no attribute 'get'")
    else Ok(Framed(CallOutcome(params, host)))
  }

  /** An empty search pattern is answered without looking at the file system. */
  lemma {:induction false} EmptyPatternRefused(params: Json, host: Host, other: (string, string) -> Result<seq<string>>)
    requires params.JObj? && MemberOr(params, "name", JNull) == JStr("search_file_content")
    requires MemberOr(params, "arguments", JObj([])).JObj?
    requires CleanArg(MemberOr(MemberOr(params, "arguments", JObj([])), "pattern", JStr("")), host.show) == ""
    ensures CallOutcome(params, host) == Outcome("Error: Pattern is required", true)
    ensures CallOutcome(params, host.(search := other)) == CallOutcome(params, host)
  {
    assert "search_file_content" in HandledTools;
    assert "search_file_content"[0] != "read_file"[0] && "search_file_content"[0] != "write_file"[0];
    assert "search_file_content"[0] != "list_directory"[0] && "search_file_content"[0] != "glob"[0];
  }

  /** What the client's `call_tool` reads back from this server's answer is the outcome's text. */
  lemma {:induction false} CallToolTextRoundTrip(name: string, args: Json, host: Host)
    ensures HandleCallTool(McpProtocol.ToolsCallParams(name, args), host).Ok?
    ensures
      var result := HandleCallTool(McpProtocol.ToolsCallParams(name, args), host).value;
      var o := CallOutcome(McpProtocol.ToolsCallParams(name, args), host);
      McpProtocol.Iterated(MemberOr(result, "content", JArr([]))).Ok?
      && McpProtocol.TextOf(McpProtocol.Iterated(MemberOr(result, "content", JArr([]))).value) == Ok(o.text)
  {
    var o := CallOutcome(McpProtocol.ToolsCallParams(name, args), host);
    var item := JObj([("type", JStr("text")), ("text", JStr(o.text))]);
    var fields := Framed(o).fields;
    PyDict.GetFirstAt(fields, 0);
    assert MemberOr(Framed(o), "content", JArr([])) == JArr([item]);
    PyDict.GetFirstAt(item.fields, 0);
    assert "type"[0] != "text"[1];
    PyDict.GetFirstAt(item.fields, 1);
    assert [item][..0] == [];
    assert McpProtocol.TextOf([item]) == McpProtocol.ItemText("", item);
    assert "" + o.text == o.text;
  }

  /** One entry of the `tools/list` answer. */
  function ToolEntry(name: string, description: string, properties: PyDict.Dict<string, Json>, required: seq<string>): Json {
    JObj([("name", JStr(name)), ("description", JStr(description)),
          ("inputSchema", JObj([("type", JStr("object")), ("properties", JObj(properties)),
                                ("required", JArr(seq(|required|, i requires 0 <= i < |required| => JStr(required[i]))))]))])
  }

  function StringProp(): Json {
    JObj([("type", JStr("string"))])
  }

  /** The description `handle_list_tools` gives the `i`-th tool. */
  function ToolDescription(i: nat): string {
    match i
    case 0 => "Read file content from the filesystem"
    case 1 => "Write content to a file"
    case 2 => "List files in directory. If path not found, attempts to find similar directories."
    case 3 => "Find files matching a glob pattern (e.g., '**/*.py')"
    case 4 => "Search for a string or regex pattern in files within the current directory."
    case _ =>
      "Execute a shell command. Use 'background=True' for long-running servers (e.g. npm start). output/errors will be lost/discarded for background tasks."
  }

  /** The `properties` of the `i`-th tool's input schema. */
  function ToolProperties(i: nat): PyDict.Dict<string, Json> {
    match i
    case 0 => [("path", StringProp())]
    case 1 => [("path", StringProp()), ("content", StringProp())]
    case 2 => [("path", StringProp())]
    case 3 => [("pattern", StringProp())]
    case 4 =>
      [("pattern", StringProp()),
       ("path", JObj([("type", JStr("string")), ("description", JStr("Optional path to search in (default: .)"))]))]
    case _ =>
      [("command", StringProp()),
       ("background", JObj([("type", JStr("boolean")), ("description", JStr("Set to true for long-running processes"))]))]
  }

  /** The `required` list of the `i`-th tool's input schema. */
  function ToolRequired(i: nat): seq<string> {
    match i
    case 0 => ["path"]
    case 1 => ["path", "content"]
    case 2 => ["path"]
    case 3 => ["pattern"]
    case 4 => ["pattern"]
    case _ => ["command"]
  }

  /** The six tools of `handle_list_tools`, in the order of `HandledTools`. */
  function ToolEntries(): (r: seq<Json>)
    ensures |r| == |HandledTools|
    ensures forall i :: 0 <= i < |r| ==> Member(r[i], "name") == Some(JStr(HandledTools[i]))
    ensures forall i :: 0 <= i < |r| ==>
      r[i] == ToolEntry(HandledTools[i], ToolDescription(i), ToolProperties(i), ToolRequired(i))
  {
    seq(|HandledTools|, i requires 0 <= i < |HandledTools| =>
      ToolEntry(HandledTools[i], ToolDescription(i), ToolProperties(i), ToolRequired(i)))
  }

  /** Every key a tool's schema requires is one of the properties it declares. */
  lemma {:induction false} RequiredAreDeclared(i: nat, k: string)
    requires i < |HandledTools| && k in ToolRequired(i)
    ensures PyDict.HasKey(ToolProperties(i), k)
  {
    if i == 1 && k == "content" {
      assert ToolProperties(i)[1].0 == k;
    } else if i == 4 || i == 3 {
      assert ToolProperties(i)[0].0 == k;
    } else {
      assert ToolProperties(i)[0].0 == k;
    }
  }

  function ListToolsResult(): Json {
    JObj([("tools", JArr(ToolEntries()))])
  }

  /** The `initialize` result: protocol revision, no capabilities, and the server's name and version. */
  function InitializeResult(): Json {
    JObj([("protocolVersion", JStr("2024-11-05")), ("capabilities", JObj([])),
          ("serverInfo", JObj([("name", JStr("InternalFS")), ("version", JStr("1.0"))]))])
  }

  /** The server answers `initialize` with the revision the client asks for. */
  lemma {:induction false} InitializeAgrees()
    ensures Member(InitializeResult(), "protocolVersion") == Some(JStr(McpProtocol.ProtocolVersion))
    ensures Member(InitializeResult(), "protocolVersion") == Member(McpProtocol.InitializeParams(), "protocolVersion")
  {
    PyDict.GetFirstAt(InitializeResult().fields, 0);
    PyDict.GetFirstAt(McpProtocol.InitializeParams().fields, 0);
  }

  /** An entry is found under its name. */
  lemma {:induction false} EntryName(name: string, description: string, properties: PyDict.Dict<string, Json>, required: seq<string>)
    ensures Subscript(ToolEntry(name, description, properties, required), "name") == Ok(JStr(name))
  {
    PyDict.GetFirstAt(ToolEntry(name, description, properties, required).fields, 0);
  }

  /**
   * A client reading this server's tool list gets one definition per handled
   * tool, in order, and every listed tool is one the server dispatches.
   */
  lemma {:induction false} ListedToolsAreHandled()
    ensures McpProtocol.ToolDefs(ToolEntries()).Ok?
    ensures |McpProtocol.ToolDefs(ToolEntries()).value| == |HandledTools|
    ensures forall i :: 0 <= i < |HandledTools| ==>
      McpProtocol.ToolDefs(ToolEntries()).value[i].name == JStr(HandledTools[i])
  {
    var entries := ToolEntries();
    forall i | 0 <= i < |entries|
      ensures Subscript(entries[i], "name") == Ok(JStr(HandledTools[i]))
    {
      EntryName(HandledTools[i], ToolDescription(i), ToolProperties(i), ToolRequired(i));
    }
  }

  /** The three methods the server answers. */
  predicate IsRequestMethod(name: Option<Json>) {
    name == Some(JStr("initialize")) || name == Some(JStr("tools/list")) || name == Some(JStr("tools/call"))
  }

  /** The `result` for a message's method, `None` for the methods passed over, or the failure of `handle_call_tool`. */
  function MethodResult(msg: Json, host: Host): (r: Result<Option<Json>>)
    requires msg.JObj?
    ensures r.Ok? && r.value.Some? ==> IsRequestMethod(Member(msg, "method"))
    ensures r.Err? ==> Member(msg, "method") == Some(JStr("tools/call"))
  {
    var name := Member(msg, "method");
    if name == Some(JStr("initialize")) then Ok(Some(InitializeResult()))
    else if name == Some(JStr("tools/list")) then Ok(Some(ListToolsResult()))
    else if name != Some(JStr("tools/call")) then Ok(None)
    else
      var called := HandleCallTool(MemberOr(msg, "params", JObj([])), host);
      if called.Err? then Err(called.error) else Ok(Some(called.value))
  }

  /** What the loop does with one dict message: a reply, no reply, or a failure that ends the server. */
  function Step(msg: Json, host: Host): (r: Result<Option<Json>>)
    requires msg.JObj?
    ensures r.Ok? && r.value.Some? ==>
      Member(msg, "id").Some? && Member(msg, "id") != Some(JNull) && IsRequestMethod(Member(msg, "method"))
    ensures r.Err? ==> Member(msg, "method") == Some(JStr("tools/call"))
  {
    match MethodResult(msg, host)
    case Err(e) => Err(e)
    case Ok(None) => Ok(None)
    case Ok(Some(result)) =>
      var id := MemberOr(msg, "id", JNull);
      if id == JNull then Ok(None)
      else Ok(Some(JObj([("jsonrpc", JStr("2.0")), ("id", id), ("result", result)])))
  }

  /** A reply carries version "2.0", the request's id and the result. */
  lemma {:induction false} ReplyShape(msg: Json, host: Host)
    requires msg.JObj? && Step(msg, host).Ok? && Step(msg, host).value.Some?
    ensures Member(Step(msg, host).value.value, "jsonrpc") == Some(JStr("2.0"))
    ensures Member(Step(msg, host).value.value, "id") == Member(msg, "id")
  {
    var fields := Step(msg, host).value.value.fields;
    PyDict.GetFirstAt(fields, 0);
    PyDict.GetFirstAt(fields, 1);
  }

  /** Notifications and other methods are never answered (section 4.1 of the JSON-RPC 2.0 specification). */
  lemma {:induction false} NoReplyWithoutRequest(msg: Json, host: Host)
    requires msg.JObj?
    requires Member(msg, "id").None? || Member(msg, "id") == Some(JNull)
      || !IsRequestMethod(Member(msg, "method"))
    ensures Step(msg, host).Err? || Step(msg, host) == Ok(None)
  {
  }

  /** Why the loop stopped. */
  datatype Stop = EndOfInput | Undecodable | FalsyMessage | Crashed(error: string)

  /** The replies the server writes for its input lines, and why it stops. */
  datatype Run = Run(replies: seq<Json>, stop: Stop)

  /** What one input line leads to: the loop goes on, with or without a reply, or it stops. */
  datatype Next = Continue(reply: Option<Json>) | Halt(stop: Stop)

  /**
   * One turn of `main`: a line that does not decode, or a falsy message (an
   * empty object among them), ends the loop; a truthy value that is not a
   * dict has no `get` and ends it with an error.
   */
  function Turn(line: string, loads: string -> Option<Json>, host: Host): (r: Next)
    ensures r.Continue? ==> loads(line).Some? && loads(line).value.JObj? && Step(loads(line).value, host) == Ok(r.reply)
    ensures loads(line).None? ==> r == Halt(Undecodable)
    ensures loads(line).Some? && !Truthy(loads(line).value) ==> r == Halt(FalsyMessage)
    ensures loads(line) == Some(JObj([])) ==> r == Halt(FalsyMessage)
    ensures loads(line).Some? && Truthy(loads(line).value) && !loads(line).value.JObj? ==> r.Halt? && r.stop.Crashed?
    ensures loads(line).Some? && loads(line).value.JObj? && Truthy(loads(line).value) ==>
      match Step(loads(line).value, host)
      case Ok(reply) => r == Continue(reply)
      case Err(e) => r == Halt(Crashed(e))
  {
    match loads(line)
    case None => Halt(Undecodable)
    case Some(msg) =>
      if !Truthy(msg) then Halt(FalsyMessage)
      else if !msg.JObj? then Halt(Crashed("AttributeError: '" + TypeName(msg) + "' object has no attribute 'get'"))
      else
        match Step(msg, host)
        case Err(e) => Halt(Crashed(e))
        case Ok(reply) => Continue(reply)
  }

  /** One turn of `main` for each input line, given the decoder and the host. */
  function TurnOf(loads: string -> Option<Json>, host: Host): string -> Next {
    line => Turn(line, loads, host)
  }

  /** `main` from line `i` on, each line taking the turn `turn` gives it: the replies written and why the loop stops. */
  function Served(lines: seq<string>, i: nat, turn: string -> Next): (r: Run)
    requires i <= |lines|
    ensures |r.replies| <= |lines| - i
    decreases |lines| - i
  {
    if i == |lines| then Run([], EndOfInput)
    else
      match turn(lines[i])
      case Halt(stop) => Run([], stop)
      case Continue(reply) =>
        var rest := Served(lines, i + 1, turn);
        Run((if reply.Some? then [reply.value] else []) + rest.replies, rest.stop)
  }

  /** The replies one turn adds. */
  function Written(next: Next): seq<Json> {
    if next.Continue? && next.reply.Some? then [next.reply.value] else []
  }

  /** One turn of the loop, as `Served` sees it. */
  lemma {:induction false} ServedNext(lines: seq<string>, i: nat, turn: string -> Next)
    requires i < |lines|
    ensures turn(lines[i]).Halt? ==> Served(lines, i, turn) == Run([], turn(lines[i]).stop)
    ensures turn(lines[i]).Continue? ==>
      Served(lines, i, turn) == Run(Written(turn(lines[i])) + Served(lines, i + 1, turn).replies, Served(lines, i + 1, turn).stop)
  {
  }

  /** The read-dispatch loop of `main` over the server's input lines. */
  method Serve(lines: seq<string>, loads: string -> Option<Json>, host: Host) returns (replies: seq<Json>, stop: Stop)
    ensures Run(replies, stop) == Served(lines, 0, TurnOf(loads, host))
  {
    var turn := TurnOf(loads, host);
    replies := [];
    var i := 0;
    while i < |lines|
      invariant i <= |lines|
      invariant replies + Served(lines, i, turn).replies == Served(lines, 0, turn).replies
      invariant Served(lines, i, turn).stop == Served(lines, 0, turn).stop
    {
      var next := turn(lines[i]);
      ServedNext(lines, i, turn);
      if next.Halt? {
        assert replies + [] == replies;
        return replies, next.stop;
      }
      ghost var rest := Served(lines, i + 1, turn).replies;
      assert replies + (Written(next) + rest) == (replies + Written(next)) + rest;
      replies := replies + Written(next);
      i := i + 1;
    }
    assert replies + [] == replies;
    stop := EndOfInput;
  }

  /** Every reply is what one turn wrote. */
  lemma {:induction false} RepliesFromTurns(lines: seq<string>, i: nat, turn: string -> Next, k: nat)
    requires i <= |lines| && k < |Served(lines, i, turn).replies|
    ensures exists j :: i <= j < |lines| && turn(lines[j]) == Continue(Some(Served(lines, i, turn).replies[k]))
    decreases |lines| - i
  {
    var next := turn(lines[i]);
    ServedNext(lines, i, turn);
    var replies := Served(lines, i, turn).replies;
    var rest := Served(lines, i + 1, turn).replies;
    assert next.Continue? && replies == Written(next) + rest;
    if next.reply.Some? && k == 0 {
      assert next == Continue(Some(replies[k]));
    } else {
      var k' := if next.reply.Some? then k - 1 else k;
      assert replies[k] == rest[k'];
      RepliesFromTurns(lines, i + 1, turn, k');
    }
  }

  /** `reply` is the step of a decoded dict message with a non-null id and one of the request methods. */
  predicate Answers(msg: Option<Json>, host: Host, reply: Json) {
    msg.Some? && msg.value.JObj?
    && Member(msg.value, "id").Some? && Member(msg.value, "id") != Some(JNull)
    && IsRequestMethod(Member(msg.value, "method"))
    && Step(msg.value, host) == Ok(Some(reply))
  }

  /**
   * The server answers only requests: every reply is the step of a decoded
   * dict message with a non-null id whose method is `initialize`,
   * `tools/list` or `tools/call`.
   */
  lemma {:induction false} RepliesAnswerRequests(lines: seq<string>, loads: string -> Option<Json>, host: Host, k: nat)
    requires k < |Served(lines, 0, TurnOf(loads, host)).replies|
    ensures exists j :: 0 <= j < |lines| && Answers(loads(lines[j]), host, Served(lines, 0, TurnOf(loads, host)).replies[k])
  {
    var turn := TurnOf(loads, host);
    RepliesFromTurns(lines, 0, turn, k);
    var j :| 0 <= j < |lines| && turn(lines[j]) == Continue(Some(Served(lines, 0, turn).replies[k]));
    assert Turn(lines[j], loads, host).Continue?;
  }
}
