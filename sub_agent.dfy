/**
 * The sub-agent loop of a delegated task (`_run_sub_agent_loop`): a bounded
 * number of LLM turns for the target role with a filtered tool set, tool
 * calls executed one by one, placeholder content flagged from `read_file`
 * results, shell output captured, and the final result chosen by priority.
 *
 * The LLM, the tools and the result file are oracles of `Env`.
 */
module SubAgent {
  import opened Wrappers
  import opened Json
  import PyStr
  import Config
  import Session

  type Tool = Session.Tool

  /** The file a sub-agent is told to write its final output to. */
  const ResultFile := "_task_result.txt"

  /** Tools a sub-agent never gets, by role. */
  function Excluded(role: string): set<string> {
    {"ask_user", "request_admin_privileges"} + (if role == "reviewer" || role == "developer" then {"delegate_task"} else {})
  }

  /** The tools offered to the sub-agent: allowed for the role and not excluded, in order. */
  function SubTools(tools: seq<Tool>, role: string, allowed: seq<string>): (r: seq<Tool>)
    ensures |r| <= |tools|
  {
    Session.Kept(Session.Kept(tools, Excluded(role), false), set x | x in allowed, true)
  }

  /** A tool is offered exactly when it is allowed for the role and not excluded. */
  lemma {:induction false} SubToolsMember(tools: seq<Tool>, role: string, allowed: seq<string>, t: Tool)
    ensures t in SubTools(tools, role, allowed) <==> t in tools && t.name !in Excluded(role) && t.name in allowed
    ensures t in SubTools(tools, role, allowed) ==> t.name != "ask_user"
    ensures t in SubTools(tools, role, allowed) && (role == "reviewer" || role == "developer") ==> t.name != "delegate_task"
  {
    Session.KeptMember(tools, Excluded(role), false, t);
    Session.KeptMember(Session.Kept(tools, Excluded(role), false), set x | x in allowed, true, t);
  }

  /** An empty allowed list leaves the sub-agent without tools. */
  lemma {:induction false} NoAllowedNoTools(tools: seq<Tool>, role: string)
    ensures SubTools(tools, role, []) == []
  {
    var r := SubTools(tools, role, []);
    if r != [] {
      SubToolsMember(tools, role, [], r[0]);
    }
  }

  /** A tool call as the provider hands it over; a missing name is `None`. */
  datatype SubCall = SubCall(name: Option<string>, arguments: Json, id: Json)

  /** One LLM answer: its text ("" for none), its tool calls, and the message itself. */
  datatype Reply = Reply(content: string, toolCalls: seq<SubCall>, message: Json)

  /**
   * The world the loop talks to: the LLM, which tool names have a server,
   * the tool servers (an exception is an `Err`), `json.loads`, `str`, and
   * the result file as read after the loop.
   */
  datatype Env = Env(
    llm: (seq<Json>, seq<Tool>) -> Result<Reply>,
    hasTool: string -> bool,
    callTool: (string, Json) -> Result<string>,
    loads: string -> Option<Json>,
    show: Json -> string,
    resultFile: Option<string>)

  /** The loop's variables: the sub-conversation, captured shell output, the placeholder flag, the text result. */
  datatype LoopState = LoopState(msgs: seq<Json>, captured: string, placeholder: bool, final: string)

  /** The two opening messages of the sub-conversation. */
  function InitialMessages(cfg: Config.RoleConfig, instruction: string, context: string): seq<Json> {
    var augmented := instruction + "\n\n[SYSTEM]: Write FINAL output to '" + ResultFile + "'.";
    [Session.SystemMessage(cfg.systemPrompt), Session.UserMessage(context + "\n\nTASK: " + augmented)]
  }

  /** The arguments of a call: decoded when they are a string that decodes, `{}` otherwise. */
  function CallArgs(arguments: Json, loads: string -> Option<Json>): Json {
    if arguments.JStr? && loads(arguments.s).Some? then loads(arguments.s).value else JObj([])
  }

  /** The result text of one call: "Error" without a server, "Error: ..." when the server raises. */
  function ToolResult(name: Option<string>, args: Json, env: Env): (r: string)
    ensures name.None? || !env.hasTool(name.value) ==> r == "Error"
  {
    if name.Some? && env.hasTool(name.value) then
      match env.callTool(name.value, args)
      case Ok(text) => text
      case Err(e) => "Error: " + e
    else "Error"
  }

  const PlaceholderPatterns := ["hello world", "todo:", "fixme:", "placeholder", "your content here"]

  predicate MentionsPlaceholder(text: string) {
    exists p :: p in PlaceholderPatterns && PyStr.Contains(PyStr.Lower(text), p)
  }

  function ToolMessage(id: Json, name: Option<string>, content: string): Json {
    JObj([("role", JStr("tool")), ("tool_call_id", id), ("name", if name.Some? then JStr(name.value) else JNull),
          ("content", JStr(content))])
  }

  /** What a call's tool returns: the tool's text, or "Error" when it cannot run. */
  function CallResult(call: SubCall, env: Env): string {
    ToolResult(call.name, CallArgs(call.arguments, env.loads), env)
  }

  /** A `read_file` call whose non-empty result mentions a placeholder. */
  predicate Flags(call: SubCall, env: Env) {
    var res := CallResult(call, env);
    call.name == Some("read_file") && res != "" && MentionsPlaceholder(res)
  }

  /** A `run_shell_command` call whose result carries "STDOUT". */
  predicate Captures(call: SubCall, env: Env) {
    call.name == Some("run_shell_command") && PyStr.Contains(CallResult(call, env), "STDOUT")
  }

  /**
   * One tool call of an LLM turn. Arguments that decode to something other
   * than an object make the argument preview raise, which ends the loop.
   * Otherwise the call's result is appended as one tool message, a flagged
   * read sets the placeholder mark, and a capturing shell call replaces the
   * captured output.
   */
  function CallStep(st: LoopState, call: SubCall, env: Env): (r: Result<LoopState>)
    ensures r.Ok? <==> CallArgs(call.arguments, env.loads).JObj?
    ensures r.Err? ==> r.error == "AttributeError: object has no attribute 'items'"
    ensures r.Ok? ==> r.value.msgs == st.msgs + [ToolMessage(call.id, call.name, CallResult(call, env))]
    ensures r.Ok? ==> (r.value.placeholder <==> st.placeholder || Flags(call, env))
    ensures r.Ok? ==> r.value.captured == if Captures(call, env) then CallResult(call, env) else st.captured
    ensures r.Ok? ==> r.value.final == st.final
  {
    if !CallArgs(call.arguments, env.loads).JObj? then Err("AttributeError: object has no attribute 'items'")
    else
      var res := CallResult(call, env);
      Ok(LoopState(st.msgs + [ToolMessage(call.id, call.name, res)],
                   if Captures(call, env) then res else st.captured,
                   st.placeholder || Flags(call, env),
                   st.final))
  }

  /** The tool calls of one turn, in order. */
  function CallsRun(st: LoopState, calls: seq<SubCall>, env: Env): (r: Result<LoopState>)
    decreases |calls|
  {
    if calls == [] then Ok(st)
    else
      match CallStep(st, calls[0], env)
      case Ok(next) => CallsRun(next, calls[1..], env)
      case Err(e) => Err(e)
  }

  /** The outcome of one LLM turn: go on, stop the loop, or fail. */
  datatype TurnOutcome = Go(st: LoopState) | Stop(st: LoopState) | Fail(error: string)

  /** One iteration of the loop. */
  function Turn(st: LoopState, iteration: nat, maxIterations: nat, tools: seq<Tool>, env: Env): TurnOutcome {
    match env.llm(st.msgs, tools)
    case Err(_) => Stop(st)
    case Ok(reply) =>
      var st1 := st.(msgs := st.msgs + [reply.message]);
      if reply.toolCalls == [] then
        Go(if iteration == maxIterations - 1 then st1.(final := reply.content) else st1)
      else
        match CallsRun(st1, reply.toolCalls, env)
        case Ok(st2) => Go(st2)
        case Err(e) => Fail(e)
  }

  /** The loop from iteration `i` on; `aborted` is the session's abort flag. */
  function Loop(st: LoopState, i: nat, maxIterations: nat, aborted: bool, tools: seq<Tool>, env: Env): Result<LoopState>
    decreases maxIterations - i
  {
    if i >= maxIterations || aborted then Ok(st)
    else
      match Turn(st, i, maxIterations, tools, env)
      case Go(next) => Loop(next, i + 1, maxIterations, aborted, tools, env)
      case Stop(last) => Ok(last)
      case Fail(e) => Err(e)
  }

  const BlockedText := "[BLOCKED] Placeholder content detected. Work REJECTED."
  const NoResultText := "No result produced."

  /** `sub_msgs[-1].get("content")` when there is a last message. */
  function LastContent(msgs: seq<Json>): Option<Json> {
    if msgs != [] then Member(msgs[|msgs| - 1], "content") else None
  }

  /**
   * The result after the loop: the file (or, when there is none, the
   * `final` text of the last turn), then captured stdout, then the last
   * message's truthy content, then "No result produced."; a placeholder
   * overrides them all.
   */
  function SelectResult(st: LoopState, resultFile: Option<string>, show: Json -> string): (r: string)
    ensures r != ""
    ensures st.placeholder ==> r == BlockedText
    ensures !st.placeholder && resultFile.Some? && resultFile.value != "" ==> r == resultFile.value
    ensures !st.placeholder && resultFile.None? && st.final != "" ==> r == st.final
    ensures !st.placeholder && st.captured != "" && (resultFile == Some("") || (resultFile.None? && st.final == ""))
      ==> r == st.captured
    ensures !st.placeholder && st.captured == "" && (resultFile == Some("") || (resultFile.None? && st.final == ""))
      && LastContent(st.msgs).Some? && Truthy(LastContent(st.msgs).value) && Str(LastContent(st.msgs).value, show) != ""
      ==> r == Str(LastContent(st.msgs).value, show)
    ensures !st.placeholder && st.captured == "" && (resultFile == Some("") || (resultFile.None? && st.final == ""))
      && (LastContent(st.msgs).None? || !Truthy(LastContent(st.msgs).value))
      ==> r == NoResultText
  {
    var fromFile := if resultFile.Some? then resultFile.value else st.final;
    var fromStdout := if fromFile == "" && st.captured != "" then st.captured else fromFile;
    var last := LastContent(st.msgs);
    var fromLast :=
      if fromStdout == "" && last.Some? && Truthy(last.value) then Str(last.value, show) else fromStdout;
    if st.placeholder then BlockedText
    else if fromLast != "" then fromLast
    else NoResultText
  }

  /**
   * The whole of `_run_sub_agent_loop`: a run that does not fail always
   * reports a non-empty result, and an aborted run never fails.
   */
  function SubAgentRun(cfg: Config.RoleConfig, role: string, instruction: string, context: string,
                       maxIterations: nat, aborted: bool, tools: seq<Tool>, env: Env): (r: Result<string>)
    ensures r.Ok? ==> r.value != ""
    ensures aborted || maxIterations == 0 ==> r.Ok?
  {
    var st0 := LoopState(InitialMessages(cfg, instruction, context), "", false, "");
    var st :- Loop(st0, 0, maxIterations, aborted, SubTools(tools, role, cfg.allowedTools), env);
    Ok(SelectResult(st, env.resultFile, env.show))
  }

  /** `_run_sub_agent_loop` */
  method RunSubAgentLoop(cfg: Config.RoleConfig, role: string, instruction: string, context: string,
                         maxIterations: nat, aborted: bool, tools: seq<Tool>, env: Env)
    returns (r: Result<string>)
    ensures r == SubAgentRun(cfg, role, instruction, context, maxIterations, aborted, tools, env)
  {
    var st0 := LoopState(InitialMessages(cfg, instruction, context), "", false, "");
    var subTools := SubTools(tools, role, cfg.allowedTools);
    var st := st0;
    var iteration := 0;
    while iteration < maxIterations
      invariant iteration <= maxIterations
      invariant Loop(st, iteration, maxIterations, aborted, subTools, env) == Loop(st0, 0, maxIterations, aborted, subTools, env)
      decreases maxIterations - iteration
    {
      if aborted {
        break;
      }
      var reply := env.llm(st.msgs, subTools);
      if reply.Err? {
        break;
      }
      var turnStart := st.(msgs := st.msgs + [reply.value.message]);
      st := turnStart;
      if reply.value.toolCalls == [] {
        if iteration == maxIterations - 1 {
          st := st.(final := reply.value.content);
        }
        iteration := iteration + 1;
        continue;
      }
      var calls := reply.value.toolCalls;
      for k := 0 to |calls|
        invariant CallsRun(st, calls[k..], env) == CallsRun(turnStart, calls, env)
      {
        var step := CallStep(st, calls[k], env);
        if step.Err? {
          assert calls[k..][1..] == calls[k + 1..];
          return Err(step.error);
        }
        assert calls[k..][1..] == calls[k + 1..];
        st := step.value;
      }
      iteration := iteration + 1;
    }
    r := Ok(SelectResult(st, env.resultFile, env.show));
  }

  /** The sub-conversation only grows: every turn keeps the earlier messages as a prefix. */
  lemma {:induction false} CallsRunExtends(st: LoopState, calls: seq<SubCall>, env: Env)
    requires CallsRun(st, calls, env).Ok?
    ensures |CallsRun(st, calls, env).value.msgs| == |st.msgs| + |calls|
    ensures CallsRun(st, calls, env).value.msgs[..|st.msgs|] == st.msgs
    ensures st.placeholder ==> CallsRun(st, calls, env).value.placeholder
    decreases |calls|
  {
    if calls != [] {
      var next := CallStep(st, calls[0], env).value;
      CallsRunExtends(next, calls[1..], env);
      var fin := CallsRun(next, calls[1..], env).value;
      assert fin.msgs[..|st.msgs|] == fin.msgs[..|next.msgs|][..|st.msgs|];
    }
  }

  /**
   * The calls of one turn run to the end exactly when every call's arguments
   * decode to an object.
   */
  lemma {:induction false} CallsRunOk(st: LoopState, calls: seq<SubCall>, env: Env)
    ensures CallsRun(st, calls, env).Ok? <==>
      forall k :: 0 <= k < |calls| ==> CallArgs(calls[k].arguments, env.loads).JObj?
    decreases |calls|
  {
    if calls != [] {
      var rest := calls[1..];
      if CallStep(st, calls[0], env).Ok? {
        CallsRunOk(CallStep(st, calls[0], env).value, rest, env);
        if !CallsRun(st, calls, env).Ok? {
          var j :| 0 <= j < |rest| && !CallArgs(rest[j].arguments, env.loads).JObj?;
          assert calls[j + 1] == rest[j];
        }
      }
    }
  }

  /**
   * After the calls of one turn the placeholder mark is set exactly when it
   * was set before or some call flags it.
   */
  lemma {:induction false} CallsRunPlaceholder(st: LoopState, calls: seq<SubCall>, env: Env)
    requires CallsRun(st, calls, env).Ok?
    ensures CallsRun(st, calls, env).value.placeholder <==>
      st.placeholder || exists k :: 0 <= k < |calls| && Flags(calls[k], env)
    decreases |calls|
  {
    if calls != [] {
      var rest := calls[1..];
      var next := CallStep(st, calls[0], env).value;
      CallsRunPlaceholder(next, rest, env);
      if exists k :: 0 <= k < |calls| && Flags(calls[k], env) {
        var k :| 0 <= k < |calls| && Flags(calls[k], env);
        if k > 0 {
          assert rest[k - 1] == calls[k];
        }
      }
      if exists k :: 0 <= k < |rest| && Flags(rest[k], env) {
        var k :| 0 <= k < |rest| && Flags(rest[k], env);
        assert calls[k + 1] == rest[k];
      }
    }
  }

  /**
   * After the calls of one turn the captured output is the result of the
   * last capturing call, or the earlier capture when no call captures.
   */
  lemma {:induction false} CallsRunCaptured(st: LoopState, calls: seq<SubCall>, env: Env)
    requires CallsRun(st, calls, env).Ok?
    ensures (forall k :: 0 <= k < |calls| ==> !Captures(calls[k], env)) ==>
      CallsRun(st, calls, env).value.captured == st.captured
    ensures forall k :: 0 <= k < |calls| && Captures(calls[k], env)
                        && (forall m :: k < m < |calls| ==> !Captures(calls[m], env)) ==>
      CallsRun(st, calls, env).value.captured == CallResult(calls[k], env)
    decreases |calls|
  {
    if calls != [] {
      var rest := calls[1..];
      var next := CallStep(st, calls[0], env).value;
      CallsRunCaptured(next, rest, env);
      var fin := CallsRun(st, calls, env).value;
      assert fin == CallsRun(next, rest, env).value;
      forall k | 0 <= k < |calls| && Captures(calls[k], env)
                 && (forall m :: k < m < |calls| ==> !Captures(calls[m], env))
        ensures fin.captured == CallResult(calls[k], env)
      {
        if k > 0 {
          assert rest[k - 1] == calls[k];
          assert forall m :: k - 1 < m < |rest| ==> rest[m] == calls[m + 1];
        } else {
          assert forall m :: 0 <= m < |rest| ==> rest[m] == calls[m + 1];
        }
      }
      if forall k :: 0 <= k < |calls| ==> !Captures(calls[k], env) {
        assert forall m :: 0 <= m < |rest| ==> rest[m] == calls[m + 1];
      }
    }
  }

  /**
   * Over the whole loop the earlier messages stay in place as a prefix, and
   * a placeholder once flagged stays flagged.
   */
  lemma {:induction false} LoopExtends(st: LoopState, i: nat, maxIterations: nat, aborted: bool, tools: seq<Tool>, env: Env)
    requires Loop(st, i, maxIterations, aborted, tools, env).Ok?
    ensures |st.msgs| <= |Loop(st, i, maxIterations, aborted, tools, env).value.msgs|
      && Loop(st, i, maxIterations, aborted, tools, env).value.msgs[..|st.msgs|] == st.msgs
    ensures st.placeholder ==> Loop(st, i, maxIterations, aborted, tools, env).value.placeholder
    decreases maxIterations - i
  {
    if !(i >= maxIterations || aborted) {
      match env.llm(st.msgs, tools)
      case Err(_) =>
      case Ok(reply) =>
        var st1 := st.(msgs := st.msgs + [reply.message]);
        var next := Turn(st, i, maxIterations, tools, env).st;
        if reply.toolCalls != [] {
          CallsRunExtends(st1, reply.toolCalls, env);
          assert next.msgs[..|st.msgs|] == next.msgs[..|st1.msgs|][..|st.msgs|];
        }
        LoopExtends(next, i + 1, maxIterations, aborted, tools, env);
        var fin := Loop(next, i + 1, maxIterations, aborted, tools, env).value;
        assert fin.msgs[..|st.msgs|] == fin.msgs[..|next.msgs|][..|st.msgs|];
    }
  }

  /**
   * A `read_file` result that mentions a placeholder rejects the whole
   * delegated task, whatever else happens afterwards.
   */
  lemma {:induction false} PlaceholderRejects(cfg: Config.RoleConfig, role: string, instruction: string, context: string,
                           maxIterations: nat, aborted: bool, tools: seq<Tool>, env: Env,
                           st: LoopState, i: nat)
    requires st.placeholder
    requires Loop(st, i, maxIterations, aborted, tools, env).Ok?
    ensures SelectResult(Loop(st, i, maxIterations, aborted, tools, env).value, env.resultFile, env.show) == BlockedText
  {
    LoopExtends(st, i, maxIterations, aborted, tools, env);
  }

  /**
   * When the LLM keeps answering with text only, every remaining iteration
   * adds its reply, and the text of the last one becomes the loop's result.
   */
  lemma {:induction false} QuietRunKeepsLastText(st: LoopState, i: nat, maxIterations: nat, tools: seq<Tool>, env: Env, reply: Reply)
    requires i < maxIterations
    requires forall msgs :: env.llm(msgs, tools) == Ok(reply)
    requires reply.toolCalls == []
    ensures Loop(st, i, maxIterations, false, tools, env).Ok?
    ensures Loop(st, i, maxIterations, false, tools, env).value.final == reply.content
    ensures |Loop(st, i, maxIterations, false, tools, env).value.msgs| == |st.msgs| + (maxIterations - i)
    decreases maxIterations - i
  {
    var next := Turn(st, i, maxIterations, tools, env).st;
    if i + 1 < maxIterations {
      QuietRunKeepsLastText(next, i + 1, maxIterations, tools, env, reply);
    }
  }
}
