/**
 * The session policy of `OctopusSession`: which tools a role and a mode
 * offer, how old tool output is pruned from the history, how token usage is
 * tallied, which provider takes over on failure, and the rules of the
 * `_process_impl` loop that change the session's state: the PLAN → EXECUTE
 * mode machine, the gate in front of `ask_user`, the detection of questions
 * asked in plain text, and the per-message delegation quota.
 *
 * The LLM turns themselves, the MCP connections and the sub-agent runs are
 * not part of this module; history entries are message dicts.
 */
module Session {
  import opened Wrappers
  import opened Json
  import PyStr
  import PyDict
  import MessageTypes
  import Config

  type Tool = MessageTypes.ToolSpec

  datatype Mode = Plan | Execute | Review

  const ReadOnlyTools: set<string> := {"list_directory", "read_file", "glob", "search_file_content"}

  // ---------------------------------------------------------------------------
  // Tool filtering

  /** The tools whose name is in `names` (when `inside`) or outside it (otherwise), in their order. */
  function Kept(tools: seq<Tool>, names: set<string>, inside: bool): (r: seq<Tool>)
    ensures |r| <= |tools|
  {
    if tools == [] then []
    else
      var init := Kept(tools[..|tools| - 1], names, inside);
      var t := tools[|tools| - 1];
      if (t.name in names) == inside then init + [t] else init
  }

  /** A tool is kept exactly when it is one of the input tools and its name passes the test. */
  lemma {:induction false} KeptMember(tools: seq<Tool>, names: set<string>, inside: bool, t: Tool)
    ensures t in Kept(tools, names, inside) <==> t in tools && (t.name in names) == inside
  {
    if tools != [] {
      var init := tools[..|tools| - 1];
      KeptMember(init, names, inside, t);
      assert tools == init + [tools[|tools| - 1]];
    }
  }

  /** Filtering distributes over concatenation, so the kept tools keep their relative order. */
  lemma {:induction false} KeptAppend(a: seq<Tool>, b: seq<Tool>, names: set<string>, inside: bool)
    ensures Kept(a + b, names, inside) == Kept(a, names, inside) + Kept(b, names, inside)
    decreases |b|
  {
    if b == [] {
      assert a + b == a;
    } else {
      var b0 := b[..|b| - 1];
      assert (a + b)[..|a + b| - 1] == a + b0;
      assert (a + b)[|a + b| - 1] == b[|b| - 1];
      KeptAppend(a, b0, names, inside);
    }
  }

  /** The tools `_filter_tools_by_role` keeps: those named in `allowed_tools`; none when that list is empty. */
  function RoleTools(allTools: seq<Tool>, allowed: seq<string>): (r: seq<Tool>)
    ensures allowed == [] ==> r == []
  {
    if allowed == [] then [] else Kept(allTools, set x | x in allowed, true)
  }

  /** A role is offered exactly the tools named in its allowed list. */
  lemma {:induction false} RoleToolsMember(allTools: seq<Tool>, allowed: seq<string>, t: Tool)
    ensures t in RoleTools(allTools, allowed) <==> t in allTools && t.name in allowed
  {
    if allowed != [] {
      KeptMember(allTools, set x | x in allowed, true, t);
    }
  }

  /** `_filter_tools_by_role` */
  method FilterToolsByRole(allTools: seq<Tool>, allowed: seq<string>) returns (filtered: seq<Tool>)
    ensures filtered == RoleTools(allTools, allowed)
  {
    if allowed == [] {
      return [];
    }
    filtered := [];
    for i := 0 to |allTools|
      invariant filtered == Kept(allTools[..i], set x | x in allowed, true)
    {
      assert allTools[..i + 1][..i] == allTools[..i];
      if allTools[i].name in allowed {
        filtered := filtered + [allTools[i]];
      }
    }
    assert allTools[..|allTools|] == allTools;
  }

  /** The mode table: which tool names a mode offers to a role. */
  predicate Offered(mode: Mode, roleName: string, name: string) {
    match mode
    case Plan => name in ReadOnlyTools || name == "ask_user"
    case Execute => if roleName == "architect" then name in ReadOnlyTools || name == "delegate_task" else name != "ask_user"
    case Review => name in ReadOnlyTools
  }

  /** `_get_tools_for_mode` over the session's tools. */
  function ToolsForMode(mode: Mode, roleName: string, tools: seq<Tool>): (r: seq<Tool>)
    ensures |r| <= |tools|
  {
    match mode
    case Plan => Kept(tools, ReadOnlyTools + {"ask_user"}, true)
    case Execute =>
      if roleName == "architect" then Kept(tools, ReadOnlyTools + {"delegate_task"}, true)
      else Kept(tools, {"ask_user"}, false)
    case Review => Kept(tools, ReadOnlyTools, true)
  }

  /** A tool is offered in a mode exactly when the mode table allows its name. */
  lemma {:induction false} ToolsForModeMember(mode: Mode, roleName: string, tools: seq<Tool>, t: Tool)
    ensures t in ToolsForMode(mode, roleName, tools) <==> t in tools && Offered(mode, roleName, t.name)
  {
    match mode
    case Plan => KeptMember(tools, ReadOnlyTools + {"ask_user"}, true, t);
    case Execute =>
      if roleName == "architect" {
        KeptMember(tools, ReadOnlyTools + {"delegate_task"}, true, t);
      } else {
        KeptMember(tools, {"ask_user"}, false, t);
      }
    case Review => KeptMember(tools, ReadOnlyTools, true, t);
  }

  /** The mode's tools keep the session's order: the selection distributes over concatenation. */
  lemma {:induction false} ToolsForModeAppend(mode: Mode, roleName: string, a: seq<Tool>, b: seq<Tool>)
    ensures ToolsForMode(mode, roleName, a + b) == ToolsForMode(mode, roleName, a) + ToolsForMode(mode, roleName, b)
  {
    match mode
    case Plan => KeptAppend(a, b, ReadOnlyTools + {"ask_user"}, true);
    case Execute =>
      if roleName == "architect" {
        KeptAppend(a, b, ReadOnlyTools + {"delegate_task"}, true);
      } else {
        KeptAppend(a, b, {"ask_user"}, false);
      }
    case Review => KeptAppend(a, b, ReadOnlyTools, true);
  }

  /** `ask_user` is offered only in PLAN; the architect never gets a writing tool outside delegation. */
  lemma {:induction false} ModeToolConsequences(mode: Mode, roleName: string, tools: seq<Tool>, t: Tool)
    requires t in ToolsForMode(mode, roleName, tools)
    ensures t.name == "ask_user" ==> mode == Plan
    ensures t.name in {"write_file", "run_shell_command"} ==> mode == Execute && roleName != "architect"
  {
    ToolsForModeMember(mode, roleName, tools, t);
  }

  // ---------------------------------------------------------------------------
  // History pruning

  const PruneThreshold := 500
  const KeptChars := 200

  /** The content that replaces a long old tool output: both ends and the original length. */
  function TruncatedContent(content: string): (r: string)
    ensures PyStr.StartsWith(r, PyStr.Take(content, KeptChars) + "... [TRUNCATED: " + PyStr.NatToString(|content|) + " chars] ...")
    ensures PyStr.EndsWith(r, PyStr.Last(content, KeptChars))
  {
    PyStr.Take(content, KeptChars) + "... [TRUNCATED: " + PyStr.NatToString(|content|) + " chars] ..."
    + PyStr.Last(content, KeptChars)
  }

  /** One message of `_prune_history`; `recent` says it is among the last `keep_last_n`. */
  function PrunedMessage(msg: Json, recent: bool): (r: Result<Json>)
    ensures r.Ok? ==> r.value.JObj?
  {
    if !msg.JObj? then Err("AttributeError: object has no attribute 'get'")
    else if Member(msg, "role") == Some(JStr("system")) || recent then Ok(msg)
    else if Member(msg, "role") != Some(JStr("tool")) then Ok(msg)
    else
      match MemberOr(msg, "content", JStr(""))
      case JStr(s) =>
        if |s| > PruneThreshold then Ok(JObj(PyDict.Put(msg.fields, "content", JStr(TruncatedContent(s))))) else Ok(msg)
      case JArr(items) => if |items| > PruneThreshold then Err("list content is not modelled") else Ok(msg)
      case JObj(fields) => if |fields| > PruneThreshold then Err("TypeError: unhashable type: 'slice'") else Ok(msg)
      case _ => Err("TypeError: object has no len()")
  }

  /** The first `n` messages of `_prune_history(history, keep)`. */
  function PrunedPrefix(history: seq<Json>, keep: int, n: nat): (r: Result<seq<Json>>)
    requires n <= |history|
    ensures r.Ok? ==> |r.value| == n
  {
    if n == 0 then Ok([])
    else
      var init :- PrunedPrefix(history, keep, n - 1);
      var m :- PrunedMessage(history[n - 1], n - 1 >= |history| - keep);
      Ok(init + [m])
  }

  /** `_prune_history` */
  method PruneHistory(history: seq<Json>, keep: int) returns (r: Result<seq<Json>>)
    ensures r == PrunedPrefix(history, keep, |history|)
  {
    var pruned: seq<Json> := [];
    for i := 0 to |history|
      invariant PrunedPrefix(history, keep, i) == Ok(pruned)
    {
      var m := PrunedMessage(history[i], i >= |history| - keep);
      if m.Err? {
        PrunedFailsLater(history, keep, i + 1);
        return Err(m.error);
      }
      pruned := pruned + [m.value];
    }
    return Ok(pruned);
  }

  /** Once a prefix fails, the whole pruning fails with the same error. */
  lemma {:induction false} PrunedFailsLater(history: seq<Json>, keep: int, n: nat)
    requires n <= |history| && PrunedPrefix(history, keep, n).Err?
    ensures PrunedPrefix(history, keep, |history|) == PrunedPrefix(history, keep, n)
    decreases |history| - n
  {
    if n < |history| {
      PrunedFailsLater(history, keep, n + 1);
    }
  }

  /** Every message of the pruned history is the pruning of the message at the same place. */
  lemma {:induction false} PrunedAt(history: seq<Json>, keep: int, n: nat, i: nat)
    requires i < n <= |history| && PrunedPrefix(history, keep, n).Ok?
    ensures PrunedMessage(history[i], i >= |history| - keep).Ok?
    ensures PrunedPrefix(history, keep, n).value[i] == PrunedMessage(history[i], i >= |history| - keep).value
  {
    if i < n - 1 {
      PrunedAt(history, keep, n - 1, i);
    }
  }

  /**
   * Pruning keeps the length, leaves system messages, the last `keep`
   * messages and every user or assistant message as they were, and
   * replaces the content of a long old tool message by its two ends,
   * keeping every other field; no other message changes.
   */
  lemma {:induction false} PruneSpec(history: seq<Json>, keep: int, i: nat)
    requires PrunedPrefix(history, keep, |history|).Ok? && i < |history|
    ensures |PrunedPrefix(history, keep, |history|).value| == |history|
    ensures Member(history[i], "role") == Some(JStr("system")) || i >= |history| - keep ==>
      PrunedPrefix(history, keep, |history|).value[i] == history[i]
    ensures Member(history[i], "role") == Some(JStr("tool")) && i < |history| - keep
      && MemberOr(history[i], "content", JStr("")).JStr? && |MemberOr(history[i], "content", JStr("")).s| > PruneThreshold
      ==> var p := PrunedPrefix(history, keep, |history|).value[i];
          Member(p, "content") == Some(JStr(TruncatedContent(MemberOr(history[i], "content", JStr("")).s)))
          && (forall k :: k != "content" ==> Member(p, k) == Member(history[i], k))
    ensures Member(history[i], "role") != Some(JStr("tool")) ==>
      PrunedPrefix(history, keep, |history|).value[i] == history[i]
    ensures PrunedPrefix(history, keep, |history|).value[i] != history[i] ==>
      && Member(history[i], "role") == Some(JStr("tool")) && i < |history| - keep
      && MemberOr(history[i], "content", JStr("")).JStr? && |MemberOr(history[i], "content", JStr("")).s| > PruneThreshold
  {
    PrunedAt(history, keep, |history|, i);
    var msg := history[i];
    if msg.JObj? && MemberOr(msg, "content", JStr("")).JStr? {
      var s := MemberOr(msg, "content", JStr("")).s;
      forall k | true
        ensures PyDict.Get(PyDict.Put(msg.fields, "content", JStr(TruncatedContent(s))), k)
          == if k == "content" then Some(JStr(TruncatedContent(s))) else PyDict.Get(msg.fields, k)
      {
        PyDict.GetPut(msg.fields, "content", JStr(TruncatedContent(s)), k);
      }
    }
  }

  /** A number of `d` decimal digits is at least `10^(d-1)`: here, its length is at most one more than a tenth of it. */
  lemma {:induction false} DigitsBound(n: nat)
    ensures |PyStr.NatToString(n)| <= 1 + n / 10
  {
    if n >= 10 {
      DigitsBound(n / 10);
    }
  }

  /** The replacement content is shorter than the content it replaces. */
  lemma {:induction false} TruncationShrinks(s: string)
    requires |s| > PruneThreshold
    ensures |TruncatedContent(s)| < |s|
  {
    DigitsBound(|s|);
  }

  // ---------------------------------------------------------------------------
  // Token tallies and failover

  /** `d[k] = d.get(k, 0) + c` */
  function Bump<K(==)>(d: PyDict.Dict<K, int>, k: K, c: int): PyDict.Dict<K, int> {
    PyDict.Put(d, k, PyDict.GetOr(d, k, 0) + c)
  }

  /** A dict after a series of bumps. */
  function Tally<K(==)>(d: PyDict.Dict<K, int>, bumps: seq<(K, int)>): PyDict.Dict<K, int> {
    if bumps == [] then d
    else
      var last := bumps[|bumps| - 1];
      Bump(Tally(d, bumps[..|bumps| - 1]), last.0, last.1)
  }

  /** The sum of the amounts bumped under `k`. */
  function SumFor<K(==)>(bumps: seq<(K, int)>, k: K): int {
    if bumps == [] then 0
    else
      var last := bumps[|bumps| - 1];
      SumFor(bumps[..|bumps| - 1], k) + (if last.0 == k then last.1 else 0)
  }

  /** Starting from an empty dict, every key holds exactly the sum of what was bumped under it. */
  lemma {:induction false} TallySum<K>(bumps: seq<(K, int)>, k: K)
    ensures PyDict.GetOr(Tally([], bumps), k, 0) == SumFor(bumps, k)
  {
    if bumps != [] {
      var init := bumps[..|bumps| - 1];
      var last := bumps[|bumps| - 1];
      TallySum(init, k);
      PyDict.GetPut(Tally([], init), last.0, PyDict.GetOr(Tally([], init), last.0, 0) + last.1, k);
    }
  }

  /** What the provider reports: `total_tokens` may be missing. */
  datatype Usage = Usage(totalTokens: Option<int>)

  /** The key of the per-role tally. */
  function RoleKey(role: string, modelId: string): string {
    role + ":" + modelId
  }

  /** `_get_fallback_provider`: the first configured provider with another name. */
  function FallbackProvider(providers: PyDict.Dict<string, Config.ProviderConfig>, current: string): (r: Option<Config.ProviderConfig>)
    ensures r.Some? ==> r.value.name != current
  {
    if providers == [] then None
    else if providers[0].1.name != current then Some(providers[0].1)
    else FallbackProvider(providers[1..], current)
  }

  /**
   * There is no fallback exactly when every provider carries the current
   * name; otherwise the fallback is the first provider that does not.
   */
  lemma {:induction false} FallbackIsFirst(providers: PyDict.Dict<string, Config.ProviderConfig>, current: string)
    ensures FallbackProvider(providers, current).None? <==> forall i :: 0 <= i < |providers| ==> providers[i].1.name == current
    ensures FallbackProvider(providers, current).Some? ==>
      exists i :: 0 <= i < |providers| && providers[i].1 == FallbackProvider(providers, current).value
        && forall j :: 0 <= j < i ==> providers[j].1.name == current
  {
    if providers != [] && providers[0].1.name == current {
      var tail := providers[1..];
      FallbackIsFirst(tail, current);
      var r := FallbackProvider(tail, current);
      if r.Some? {
        var i :| 0 <= i < |tail| && tail[i].1 == r.value && forall j :: 0 <= j < i ==> tail[j].1.name == current;
        assert providers[i + 1].1 == r.value;
        forall j | 0 < j < i + 1 ensures providers[j].1.name == current {
          assert providers[j] == tail[j - 1];
        }
      } else {
        forall i | 0 < i < |providers| ensures providers[i].1.name == current {
          assert providers[i] == tail[i - 1];
        }
      }
    } else if providers != [] {
      assert providers[0].1 == FallbackProvider(providers, current).value;
    }
  }

  // ---------------------------------------------------------------------------
  // Messages and word lists of the process loop

  function ToolMessage(callId: string, name: string, content: string): Json {
    JObj([("role", JStr("tool")), ("tool_call_id", JStr(callId)), ("name", JStr(name)), ("content", JStr(content))])
  }

  function UserMessage(text: string): Json {
    JObj([("role", JStr("user")), ("content", JStr(text))])
  }

  function SystemMessage(text: string): Json {
    JObj([("role", JStr("system")), ("content", JStr(text))])
  }

  /** Answers that approve a plan put forward with `ask_user`. */
  const ResumeApprovals := ["yes", "tak", "ok", "proceed", "go", "start", "approve", "approved", "y"]

  /** Answers that approve a plan put forward in plain text. */
  const TextApprovals := ResumeApprovals + ["sure", "please", "proszę"]

  /** `w in words` */
  predicate InWords(w: string, words: seq<string>) {
    words != [] && (words[0] == w || InWords(w, words[1..]))
  }

  lemma {:induction false} InWordsIff(w: string, words: seq<string>)
    ensures InWords(w, words) <==> w in words
  {
    if words != [] {
      InWordsIff(w, words[1..]);
      assert words == [words[0]] + words[1..];
    }
  }

  /** The trimmed, lower-cased answer is one of `words`. */
  function Approves(userInput: string, words: seq<string>): (r: bool)
    ensures r <==> PyStr.Lower(PyStr.Strip(userInput)) in words
  {
    InWordsIff(PyStr.Lower(PyStr.Strip(userInput)), words);
    InWords(PyStr.Lower(PyStr.Strip(userInput)), words)
  }

  /** Words that never open a task, whatever their length. */
  const CommandWords := ["start", "stop", "exit", "quit", "help", "yes", "no", "ok"]

  /** Inputs that do not open a task in the history: short ones and a few commands. */
  function ShortAnswer(userInput: string): (r: bool)
    ensures r <==> |PyStr.Lower(PyStr.Strip(userInput))| < 5 || PyStr.Lower(PyStr.Strip(userInput)) in CommandWords
  {
    var clean := PyStr.Lower(PyStr.Strip(userInput));
    InWordsIff(clean, CommandWords);
    |clean| < 5 || InWords(clean, CommandWords)
  }

  const ResumeApprovedText :=
    "[MODE: EXECUTE] Plan approved by user. You are NOW in EXECUTE mode. "
    + "The ask_user tool is DISABLED. Execute the plan step-by-step using delegate_task and other tools. "
    + "DO NOT ask any more questions. Proceed autonomously until completion."

  function PlanFeedbackText(userInput: string): string {
    "[MODE: PLAN] User response: '" + userInput + "'. Adjust your plan based on this feedback. "
    + "Use ask_user(reason='plan_approval') again when ready to propose an updated plan."
  }

  const TextApprovedText :=
    "[MODE: EXECUTE] User approved the plan. You are NOW in EXECUTE mode. "
    + "The ask_user tool is DISABLED. DO NOT ask any more questions - neither via tool NOR in text. "
    + "Execute the plan step-by-step using delegate_task and other tools. "
    + "Proceed autonomously until completion."

  /** Phrases that show the model asked for approval in its text instead of calling `ask_user`. */
  const QuestionPatterns := [
    "would you like to proceed", "shall i proceed", "do you want me to", "should i continue", "can i proceed",
    "proceed with this plan", "approve this plan", "is this ok", "is that ok",
    "czy mogę kontynuować", "czy kontynuować", "czy zatwierdzasz", "czy chcesz"]

  predicate AsksInText(content: string) {
    exists p :: p in QuestionPatterns && PyStr.Contains(PyStr.Lower(content), p)
  }

  const BlockedQuestionText :=
    "[SYSTEM] EXECUTE MODE - Questions are NOT allowed. You asked a question in text which is forbidden. "
    + "Execute the plan NOW using delegate_task. DO NOT ask anything else."

  const MaxAskUser := 2
  const MaxDelegationsPerRole := 3

  const PostApprovalCriticalText :=
    "[CRITICAL] EXECUTE MODE - ask_user is DISABLED. You have tried 3 times. Execute the plan NOW using delegate_task."
  const PostApprovalText :=
    "[SYSTEM] You are in EXECUTE MODE. The ask_user tool is disabled. Proceed with the plan using delegate_task or other tools."
  const ReviewRefusalText :=
    "[SYSTEM] You are in REVIEW MODE. No questions allowed. Use read-only tools to verify and report findings."
  const PlanReasonText :=
    "[SYSTEM] In PLAN MODE, only ask_user(reason='plan_approval') is allowed. Use tools to gather information instead of asking clarifying questions."
  const AutonomousText := "[SYSTEM] Autonomous mode - proceeding without user input. Making best judgment."
  const QuestionLimitText := "[SYSTEM] Question limit (2) reached - proceeding with best judgment."

  /** The answer `ask_user` gets when the question is not put to the user. */
  function AskRefusal(mode: Mode, reason: Json, autonomy: string, postCount: int): string {
    if mode == Execute then
      if postCount >= 3 then PostApprovalCriticalText else PostApprovalText
    else if mode == Review then ReviewRefusalText
    else if reason != JStr("plan_approval") then PlanReasonText
    else if autonomy == "autonomous" then AutonomousText
    else QuestionLimitText
  }

  function ExceededText(target: Json, show: Json -> string): string {
    "ERROR: Exceeded maximum delegations to " + Str(target, show) + " (3). Try a different approach or do the task yourself."
  }

  /** The mode only ever stays or moves from PLAN to EXECUTE. */
  predicate ModeStep(before: Mode, after: Mode) {
    after == before || (before == Plan && after == Execute)
  }

  /** Starting in PLAN, no run of mode steps ever reaches REVIEW. */
  lemma {:induction false} NeverReview(modes: seq<Mode>)
    requires modes != [] && modes[0] == Plan
    requires forall i :: 0 <= i < |modes| - 1 ==> ModeStep(modes[i], modes[i + 1])
    ensures forall i :: 0 <= i < |modes| ==> modes[i] != Review
  {
    if |modes| > 1 {
      var init := modes[..|modes| - 1];
      NeverReview(init);
      assert modes[|modes| - 2] == init[|init| - 1];
      forall i | 0 <= i < |modes| ensures modes[i] != Review {
        if i < |modes| - 1 {
          assert modes[i] == init[i];
        }
      }
    }
  }

  /** Outcome of an `ask_user` call: answered on the user's behalf, or put to the user. */
  datatype AskResult = Answered(resultText: string) | Asked(question: Json)

  /** The delegation targets of one user message, each bumped once. */
  function DelegationBumps(targets: seq<Json>): (r: seq<(Json, int)>)
    ensures |r| == |targets|
    ensures forall i :: 0 <= i < |targets| ==> r[i] == (targets[i], 1)
  {
    seq(|targets|, i requires 0 <= i < |targets| => (targets[i], 1))
  }

  /** How often `t` occurs in `ts`. */
  function Occurrences(ts: seq<Json>, t: Json): nat {
    if ts == [] then 0 else Occurrences(ts[..|ts| - 1], t) + (if ts[|ts| - 1] == t then 1 else 0)
  }

  lemma {:induction false} BumpsCount(targets: seq<Json>, t: Json)
    ensures SumFor(DelegationBumps(targets), t) == Occurrences(targets, t)
  {
    if targets != [] {
      assert DelegationBumps(targets)[..|targets| - 1] == DelegationBumps(targets[..|targets| - 1]);
      BumpsCount(targets[..|targets| - 1], t);
    }
  }

  /**
   * Within one user message (the counts start empty), the delegation at
   * position `k` is refused exactly when its role was already delegated to
   * three times before it.
   */
  lemma {:induction false} DelegationQuota(targets: seq<Json>, k: nat)
    requires k < |targets|
    ensures PyDict.GetOr(Bump(Tally([], DelegationBumps(targets[..k])), targets[k], 1), targets[k], 0) > MaxDelegationsPerRole
      <==> Occurrences(targets[..k], targets[k]) >= MaxDelegationsPerRole
  {
    var before := Tally([], DelegationBumps(targets[..k]));
    TallySum(DelegationBumps(targets[..k]), targets[k]);
    BumpsCount(targets[..k], targets[k]);
    PyDict.GetPut(before, targets[k], PyDict.GetOr(before, targets[k], 0) + 1, targets[k]);
  }

  /** Four delegations to one role in one message: the first three go ahead, the fourth is refused. */
  lemma {:induction false} FourthDelegationRefused(role: Json)
    ensures forall k :: 0 <= k < 4 ==>
      (Occurrences([role, role, role, role][..k], role) >= MaxDelegationsPerRole <==> k == 3)
  {
    var ts := [role, role, role, role];
    assert Occurrences(ts[..0], role) == 0;
    assert ts[..1][..0] == ts[..0];
    assert Occurrences(ts[..1], role) == 1;
    assert ts[..2][..1] == ts[..1];
    assert Occurrences(ts[..2], role) == 2;
    assert ts[..3][..2] == ts[..2];
    assert Occurrences(ts[..3], role) == 3;
  }

  // ---------------------------------------------------------------------------
  // The session object

  class OctopusSession {
    const roleName: string
    /** `autonomy_level` of the role's configuration. */
    const autonomy: string
    /** `str` on a non-string value, for texts that embed one. */
    const show: Json -> string

    var mode: Mode
    var planApproved: bool
    /** `question_context`: `JNull` for `None`. */
    var questionContext: Json
    var pendingTextQuestion: bool
    /** `waiting_tool_id`: "" stands for `None`. */
    var waitingToolId: string
    var currentTaskId: Option<string>
    var askUserCount: int
    var postApprovalAskCount: int
    var delegationCounts: PyDict.Dict<Json, int>
    var abortFlag: bool
    var history: seq<Json>
    /** `session_stats` per model id. */
    var modelTokens: PyDict.Dict<string, int>
    /** `session_stats["by_role"]`, absent until a role is first counted. */
    var roleTokens: Option<PyDict.Dict<string, int>>

    /**
     * A pending `ask_user` question exists only in PLAN mode and only for a
     * plan approval; the question context is never anything else.
     */
    ghost predicate Valid()
      reads this
    {
      (waitingToolId != "" ==> mode == Plan && questionContext == JStr("plan_approval"))
      && (questionContext == JNull || questionContext == JStr("plan_approval"))
    }

    constructor (roleName: string, systemPrompt: string, autonomy: string, show: Json -> string)
      ensures Valid()
      ensures this.roleName == roleName && this.autonomy == autonomy && this.show == show
      ensures mode == Plan && !planApproved && questionContext == JNull && !pendingTextQuestion
      ensures waitingToolId == "" && currentTaskId.None? && askUserCount == 0 && postApprovalAskCount == 0
      ensures delegationCounts == [] && !abortFlag && history == [SystemMessage(systemPrompt)]
      ensures modelTokens == [] && roleTokens.None?
    {
      this.roleName := roleName;
      this.autonomy := autonomy;
      this.show := show;
      mode := Plan;
      planApproved := false;
      questionContext := JNull;
      pendingTextQuestion := false;
      waitingToolId := "";
      currentTaskId := None;
      askUserCount := 0;
      postApprovalAskCount := 0;
      delegationCounts := [];
      abortFlag := false;
      history := [SystemMessage(systemPrompt)];
      modelTokens := [];
      roleTokens := None;
    }

    /** The start of `process_user_input`: the per-message counters are reset. */
    method StartInput()
      modifies this`abortFlag, this`delegationCounts, this`postApprovalAskCount
      ensures !abortFlag && delegationCounts == [] && postApprovalAskCount == 0
    {
      abortFlag := false;
      delegationCounts := [];
      postApprovalAskCount := 0;
    }

    /**
     * The beginning of `_process_impl`: an answer to a pending `ask_user`
     * question, or a new input. `newTaskId` is the id a new task entry
     * would get.
     */
    method BeginTurn(userInput: string, newTaskId: string)
      requires Valid()
      modifies this`mode, this`planApproved, this`questionContext, this`pendingTextQuestion, this`waitingToolId, this`currentTaskId, this`history
      ensures Valid()
      ensures ModeStep(old(mode), mode)
      ensures waitingToolId == ""
      ensures old(waitingToolId) != "" ==> AnsweredQuestion(old(waitingToolId), old(mode), old(planApproved), old(pendingTextQuestion), old(currentTaskId), old(history), userInput, Approves(userInput, ResumeApprovals))
      ensures old(waitingToolId) == "" ==>
        TookNewInput(old(questionContext), old(mode), old(planApproved), old(pendingTextQuestion), old(currentTaskId), old(history),
                     userInput, newTaskId, Approves(userInput, TextApprovals), ShortAnswer(userInput))
    {
      if waitingToolId != "" {
        AnswerQuestion(userInput, Approves(userInput, ResumeApprovals));
      } else {
        NewInput(userInput, newTaskId, Approves(userInput, TextApprovals), ShortAnswer(userInput));
      }
    }

    /**
     * The state after an answer to the pending question: the answer becomes
     * the tool's result; an approving answer switches to EXECUTE, any other
     * is passed on as feedback on the plan.
     */
    ghost predicate AnsweredQuestion(waiting: string, mode0: Mode, approved0: bool, pending0: bool, task0: Option<string>,
                                     history0: seq<Json>, userInput: string, approves: bool)
      reads this
    {
      questionContext == JNull && pendingTextQuestion == pending0 && currentTaskId == task0
      && (if approves then
            mode == Execute && planApproved
            && history == history0 + [ToolMessage(waiting, "ask_user", userInput), SystemMessage(ResumeApprovedText)]
          else
            mode == mode0 && planApproved == approved0
            && history == history0 + [ToolMessage(waiting, "ask_user", userInput), SystemMessage(PlanFeedbackText(userInput))])
    }

    /**
     * The state after a new input: a plan approved in text switches to
     * EXECUTE, a long input opens a task when none is open, and the input
     * joins the history.
     */
    ghost predicate TookNewInput(context0: Json, mode0: Mode, approved0: bool, pending0: bool, task0: Option<string>,
                                 history0: seq<Json>, userInput: string, newTaskId: string, approves: bool, short: bool)
      reads this
    {
      questionContext == context0 && !pendingTextQuestion
      && currentTaskId == (if (task0.None? || task0 == Some("")) && !short then Some(newTaskId) else task0)
      && (if pending0 && mode0 == Plan && approves then
            mode == Execute && planApproved
            && history == history0 + [UserMessage(userInput), SystemMessage(TextApprovedText), UserMessage(userInput)]
          else
            mode == mode0 && planApproved == approved0 && history == history0 + [UserMessage(userInput)])
    }

    /** The resume branch of `_process_impl`; `approves` says whether the answer is an approval word. */
    method AnswerQuestion(userInput: string, approves: bool)
      requires Valid() && waitingToolId != ""
      modifies this`mode, this`planApproved, this`questionContext, this`waitingToolId, this`history
      ensures Valid()
      ensures waitingToolId == ""
      ensures AnsweredQuestion(old(waitingToolId), old(mode), old(planApproved), old(pendingTextQuestion), old(currentTaskId), old(history), userInput, approves)
    {
      var answer := ToolMessage(waitingToolId, "ask_user", userInput);
      waitingToolId := "";
      if questionContext == JStr("plan_approval") && approves {
        mode := Execute;
        planApproved := true;
        questionContext := JNull;
        history := history + [answer, SystemMessage(ResumeApprovedText)];
      } else {
        questionContext := JNull;
        history := history + [answer, SystemMessage(PlanFeedbackText(userInput))];
      }
    }

    /**
     * The new-input branch of `_process_impl`; `approves` says whether the
     * input is a text approval word and `short` whether it is a short answer.
     */
    method NewInput(userInput: string, newTaskId: string, approves: bool, short: bool)
      requires Valid() && waitingToolId == ""
      modifies this`mode, this`planApproved, this`pendingTextQuestion, this`currentTaskId, this`history
      ensures Valid()
      ensures waitingToolId == ""
      ensures TookNewInput(old(questionContext), old(mode), old(planApproved), old(pendingTextQuestion), old(currentTaskId), old(history),
                           userInput, newTaskId, approves, short)
    {
      if (currentTaskId.None? || currentTaskId == Some("")) && !short {
        currentTaskId := Some(newTaskId);
      }
      if pendingTextQuestion && mode == Plan && approves {
        mode := Execute;
        planApproved := true;
        history := history + [UserMessage(userInput), SystemMessage(TextApprovedText), UserMessage(userInput)];
      } else {
        history := history + [UserMessage(userInput)];
      }
      pendingTextQuestion := false;
    }

    /**
     * A reply whose text asks for approval: remembered in PLAN mode; in
     * EXECUTE mode answered with a system message, and the reply's tool
     * calls are skipped (the result says so).
     */
    method NoteTextQuestion(content: string) returns (skipToolCalls: bool)
      requires Valid()
      modifies this`pendingTextQuestion, this`postApprovalAskCount, this`history
      ensures Valid()
      ensures skipToolCalls <==> AsksInText(content) && mode == Execute
      ensures pendingTextQuestion == (old(pendingTextQuestion) || (AsksInText(content) && mode == Plan))
      ensures AsksInText(content) && mode == Execute ==>
        postApprovalAskCount == old(postApprovalAskCount) + 1 && history == old(history) + [SystemMessage(BlockedQuestionText)]
      ensures !(AsksInText(content) && mode == Execute) ==>
        postApprovalAskCount == old(postApprovalAskCount) && history == old(history)
    {
      skipToolCalls := false;
      if AsksInText(content) {
        if mode == Plan {
          pendingTextQuestion := true;
        } else if mode == Execute {
          postApprovalAskCount := postApprovalAskCount + 1;
          history := history + [SystemMessage(BlockedQuestionText)];
          skipToolCalls := true;
        }
      }
    }

    /**
     * The gate in front of `ask_user`: refused in EXECUTE and REVIEW, refused
     * in PLAN for any reason but a plan approval, skipped under the
     * autonomous level and after two questions; only otherwise is the
     * question put to the user and the turn ended.
     */
    method AskUser(callId: string, question: Json, reason: Json) returns (r: AskResult)
      requires Valid()
      modifies this`postApprovalAskCount, this`askUserCount, this`waitingToolId, this`questionContext, this`history
      ensures Valid()
      ensures postApprovalAskCount == if old(mode) == Execute then old(postApprovalAskCount) + 1 else old(postApprovalAskCount)
      ensures askUserCount ==
        if old(mode) == Plan && reason == JStr("plan_approval") && autonomy != "autonomous" then old(askUserCount) + 1
        else old(askUserCount)
      ensures r.Asked? <==>
        old(mode) == Plan && reason == JStr("plan_approval") && autonomy != "autonomous" && old(askUserCount) + 1 <= MaxAskUser
      ensures r.Asked? ==>
        r.question == question && waitingToolId == callId && questionContext == reason && history == old(history)
      ensures r.Answered? ==>
        r.resultText == AskRefusal(old(mode), reason, autonomy, postApprovalAskCount)
        && waitingToolId == old(waitingToolId) && questionContext == old(questionContext)
        && history == old(history) + [ToolMessage(callId, "ask_user", r.resultText)]
    {
      if mode == Execute {
        postApprovalAskCount := postApprovalAskCount + 1;
      } else if mode == Plan && reason == JStr("plan_approval") && autonomy != "autonomous" {
        askUserCount := askUserCount + 1;
        if askUserCount <= MaxAskUser {
          waitingToolId := callId;
          questionContext := reason;
          return Asked(question);
        }
      }
      var text := AskRefusal(mode, reason, autonomy, postApprovalAskCount);
      history := history + [ToolMessage(callId, "ask_user", text)];
      return Answered(text);
    }

    /**
     * The quota check of a `delegate_task` call: the role's count goes up by
     * one, and beyond three the call is refused with an error result. The
     * result is the id of the to-do entry, or `None` when refused.
     */
    method Delegate(callId: string, target: Json) returns (taskId: Option<string>)
      requires Valid()
      modifies this`delegationCounts, this`history
      ensures Valid()
      ensures delegationCounts == Bump(old(delegationCounts), target, 1)
      ensures taskId.None? <==> PyDict.GetOr(delegationCounts, target, 0) > MaxDelegationsPerRole
      ensures taskId.None? ==>
        history == old(history) + [ToolMessage(callId, "delegate_task", ExceededText(target, show))]
      ensures taskId.Some? ==>
        history == old(history)
        && taskId.value == "task_" + Str(target, show) + "_" + PyStr.IntToString(PyDict.GetOr(delegationCounts, target, 0))
    {
      var n := PyDict.GetOr(delegationCounts, target, 0) + 1;
      delegationCounts := PyDict.Put(delegationCounts, target, n);
      PyDict.GetPut(old(delegationCounts), target, n, target);
      if n > MaxDelegationsPerRole {
        history := history + [ToolMessage(callId, "delegate_task", ExceededText(target, show))];
        return None;
      }
      return Some("task_" + Str(target, show) + "_" + PyStr.IntToString(n));
    }

    /** `_update_stats`: the usage's total is added for the model and, given a role, for the role and model. */
    method UpdateStats(modelId: string, usage: Option<Usage>, role: Option<string>)
      modifies this`modelTokens, this`roleTokens
      ensures usage.None? ==> modelTokens == old(modelTokens) && roleTokens == old(roleTokens)
      ensures usage.Some? ==> modelTokens == Bump(old(modelTokens), modelId, usage.value.totalTokens.GetOr(0))
      ensures usage.Some? && role.Some? && role.value != "" ==>
        roleTokens == Some(Bump(old(roleTokens).GetOr([]), RoleKey(role.value, modelId), usage.value.totalTokens.GetOr(0)))
      ensures usage.Some? && !(role.Some? && role.value != "") ==> roleTokens == old(roleTokens)
    {
      if usage.None? {
        return;
      }
      var count := usage.value.totalTokens.GetOr(0);
      modelTokens := Bump(modelTokens, modelId, count);
      if role.Some? && role.value != "" {
        var byRole := if roleTokens.None? then [] else roleTokens.value;
        roleTokens := Some(Bump(byRole, RoleKey(role.value, modelId), count));
      }
    }
  }
}
