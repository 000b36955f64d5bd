/**
 * The parts of the terminal UI that are plain state and text: the input
 * line's command history, the activity panel's step counter and streaming
 * buffer, the session timer, the model-list URL and the test that decides a
 * tool result is an error.
 */
module TuiApp {
  import opened Wrappers
  import PyStr
  import PyDict
  import opened Json

  /** The two glyphs the source writes before timer and step texts, character for character. */
  const TimerIcon := "\U{201A}\U{E8}\U{B1} "
  const StepIcon := "\U{201A}\U{FC}\U{2265} "

  /** No entry repeats the one before it. */
  predicate NoRepeats(h: seq<string>) {
    forall i :: 0 < i < |h| ==> h[i] != h[i - 1]
  }

  /** The input line with its command history. */
  class ShellInput {
    var history: seq<string>
    var historyIndex: int   // -1 when not browsing the history
    var currentInput: string // what was typed before browsing started
    var value: string
    var cursorPosition: int

    ghost predicate Valid()
      reads this
    {
      -1 <= historyIndex < |history| && NoRepeats(history) && (forall i :: 0 <= i < |history| ==> history[i] != "")
    }

    constructor ()
      ensures Valid() && history == [] && historyIndex == -1 && currentInput == "" && value == ""
    {
      history := [];
      historyIndex := -1;
      currentInput := "";
      value := "";
      cursorPosition := 0;
    }

    /** `action_history_up` */
    method HistoryUp()
      requires Valid()
      modifies this`historyIndex, this`currentInput, this`value, this`cursorPosition
      ensures Valid()
      ensures old(history) == [] ==>
        historyIndex == old(historyIndex) && currentInput == old(currentInput) && value == old(value) && cursorPosition == old(cursorPosition)
      ensures old(history) != [] && old(historyIndex) == -1 ==>
        currentInput == old(value) && historyIndex == |history| - 1
      ensures old(history) != [] && old(historyIndex) != -1 ==>
        currentInput == old(currentInput) && historyIndex == if old(historyIndex) > 0 then old(historyIndex) - 1 else 0
      ensures history != [] ==> value == history[historyIndex] && cursorPosition == |value|
    {
      if history == [] {
        return;
      }
      if historyIndex == -1 {
        currentInput := value;
        historyIndex := |history| - 1;
      } else {
        historyIndex := if historyIndex - 1 > 0 then historyIndex - 1 else 0;
      }
      value := history[historyIndex];
      cursorPosition := |value|;
    }

    /** `action_history_down` */
    method HistoryDown()
      requires Valid()
      modifies this`historyIndex, this`value, this`cursorPosition
      ensures Valid()
      ensures old(historyIndex) == -1 ==> historyIndex == -1 && value == old(value) && cursorPosition == old(cursorPosition)
      ensures old(historyIndex) != -1 && old(historyIndex) == |history| - 1 ==>
        historyIndex == -1 && value == currentInput && cursorPosition == |value|
      ensures old(historyIndex) != -1 && old(historyIndex) != |history| - 1 ==>
        historyIndex == old(historyIndex) + 1 && value == history[historyIndex] && cursorPosition == |value|
    {
      if historyIndex == -1 {
        return;
      }
      if historyIndex == |history| - 1 {
        historyIndex := -1;
        value := currentInput;
      } else {
        historyIndex := historyIndex + 1;
        value := history[historyIndex];
      }
      cursorPosition := |value|;
    }

    /** `add_to_history`: a non-empty command is kept unless it repeats the last one; browsing ends. */
    method AddToHistory(cmd: string)
      requires Valid()
      modifies this`history, this`historyIndex, this`currentInput
      ensures Valid()
      ensures history == if cmd != "" && (old(history) == [] || old(history)[|old(history)| - 1] != cmd) then old(history) + [cmd] else old(history)
      ensures historyIndex == -1 && currentInput == ""
    {
      if cmd != "" && (history == [] || history[|history| - 1] != cmd) {
        history := history + [cmd];
      }
      historyIndex := -1;
      currentInput := "";
    }
  }

  /** `divmod(elapsed, 60)` twice: hours, minutes and seconds. */
  function TimerParts(elapsed: int): (r: (int, nat, nat))
    ensures r.0 * 3600 + r.1 * 60 + r.2 == elapsed
    ensures r.1 < 60 && r.2 < 60
  {
    var mins := elapsed / 60;
    var secs := elapsed % 60;
    (mins / 60, mins % 60, secs)
  }

  /** `update_timer`'s text for the whole seconds elapsed. */
  function TimerText(elapsed: int): (r: string)
    ensures var (h, m, s) := TimerParts(elapsed);
      (h > 0 ==> r == TimerIcon + PyStr.Pad2(h) + ":" + PyStr.Pad2(m) + ":" + PyStr.Pad2(s)) &&
      (h <= 0 ==> r == TimerIcon + PyStr.Pad2(m) + ":" + PyStr.Pad2(s))
  {
    var (h, m, s) := TimerParts(elapsed);
    if h > 0 then TimerIcon + PyStr.Pad2(h) + ":" + PyStr.Pad2(m) + ":" + PyStr.Pad2(s)
    else TimerIcon + PyStr.Pad2(m) + ":" + PyStr.Pad2(s)
  }

  /** Under an hour the timer shows "MM:SS"; from one hour to a hundred it shows "HH:MM:SS". */
  lemma {:induction false} TimerWidth(elapsed: nat)
    ensures elapsed < 3600 ==> |TimerText(elapsed)| == |TimerIcon| + 5
    ensures 3600 <= elapsed < 360000 ==> |TimerText(elapsed)| == |TimerIcon| + 8
  {
    var (h, m, s) := TimerParts(elapsed);
    assert h == elapsed / 3600;
  }

  /** `str(n)` is one-to-one. */
  lemma {:induction false} NatToStringInjective(a: nat, b: nat)
    requires PyStr.NatToString(a) == PyStr.NatToString(b)
    ensures a == b
  {
    var sa := PyStr.NatToString(a);
    if a < 10 || b < 10 {
      assert a < 10 && b < 10;
      assert "0123456789"[a] == sa[0] == "0123456789"[b];
    } else {
      var last := |sa| - 1;
      assert sa[..last] == PyStr.NatToString(a / 10) && sa[..last] == PyStr.NatToString(b / 10);
      NatToStringInjective(a / 10, b / 10);
      assert "0123456789"[a % 10] == sa[last] == "0123456789"[b % 10];
    }
  }

  /** The id of the n-th step. */
  function StepId(n: nat): string {
    "step_" + PyStr.NatToString(n)
  }

  lemma {:induction false} StepIdInjective(a: nat, b: nat)
    requires StepId(a) == StepId(b)
    ensures a == b
  {
    assert StepId(a)[5..] == PyStr.NatToString(a) && StepId(b)[5..] == PyStr.NatToString(b);
    NatToStringInjective(a, b);
  }

  /** The one-line text of a step; a shell command is cut to 77 characters plus "..." when longer than 80. */
  function StepDisplay(text: string, toolName: Option<string>, arguments: PyDict.Dict<string, string>): (r: (string, bool))
    ensures r.1 <==> toolName == Some("run_shell_command") && PyDict.HasKey(arguments, "command")
    ensures r.1 ==> match PyDict.Get(arguments, "command")
      case Some(cmd) => r.0 == StepIcon + (if |cmd| > 80 then cmd[..77] + "..." else cmd) && |r.0| <= |StepIcon| + 80
      case None => false
    ensures !r.1 && toolName.Some? && toolName.value != "" ==> r.0 == StepIcon + toolName.value + "..."
    ensures (toolName.None? || toolName.value == "") ==> r.0 == StepIcon + text + "..."
  {
    if toolName == Some("run_shell_command") && arguments != [] && PyDict.HasKey(arguments, "command") then
      PyDict.GetSome(arguments, "command");
      var cmd := PyDict.Get(arguments, "command").value;
      (StepIcon + (if |cmd| > 80 then cmd[..77] + "..." else cmd), true)
    else if toolName.Some? && toolName.value != "" then (StepIcon + toolName.value + "...", false)
    else (StepIcon + text + "...", false)
  }

  /** A step shown in the panel: its id, its text, and whether it is a collapsible shell log. */
  datatype Mounted = Mounted(id: string, display: string, isShell: bool)

  const StreamingId := "streaming_output"
  const StreamTail := 500
  const ToolOpen := "<tool_code>"
  const ToolClose := "</tool_code>"

  /** `re.sub(r'</?tool_code>', '', s)`: every opening and closing tag removed, left to right. */
  function RemoveTags(s: string): (r: string)
    ensures |r| <= |s|
  {
    if s == [] then []
    else if PyStr.StartsWith(s, ToolOpen) then RemoveTags(s[|ToolOpen|..])
    else if PyStr.StartsWith(s, ToolClose) then RemoveTags(s[|ToolClose|..])
    else [s[0]] + RemoveTags(s[1..])
  }

  /** The streaming text cleaned as the code is written: tags removed first, then tool-call blocks replaced. */
  function CleanAsWritten(s: string): (r: string)
    ensures |r| <= |s|
  {
    var stripped := RemoveTags(s);
    HideBlocksShrinks(stripped, 0);
    PyStr.SubBlocks(stripped, ToolOpen, ToolClose, _ => "[tool call]", 0)
  }

  /** The streaming text cleaned as intended: tool-call blocks replaced first, then stray tags removed. */
  function CleanStream(s: string): (r: string)
    ensures |r| <= |s|
  {
    HideBlocksShrinks(s, 0);
    RemoveTags(PyStr.SubBlocks(s, ToolOpen, ToolClose, _ => "[tool call]", 0))
  }

  /** Replacing each tool-call block by "[tool call]" never lengthens the text: a block is longer than its replacement. */
  lemma {:induction false} HideBlocksShrinks(s: string, from: nat)
    requires from <= |s|
    ensures |PyStr.SubBlocks(s, ToolOpen, ToolClose, _ => "[tool call]", from)| <= |s| - from
    decreases |s| - from
  {
    match PyStr.NextBlock(s, ToolOpen, ToolClose, from)
    case None =>
    case Some(sp) => HideBlocksShrinks(s, sp.end);
  }

  /** What the streaming label shows: the cleaned buffer, or "..." and its last 500 characters. */
  function StreamDisplay(clean: string): (r: string)
    ensures |clean| <= StreamTail ==> r == clean
    ensures |clean| > StreamTail ==> |r| == StreamTail + 3 && PyStr.EndsWith(r, PyStr.Last(clean, StreamTail))
  {
    if |clean| > StreamTail then "..." + PyStr.Last(clean, StreamTail) else clean
  }

  /** The activity panel: numbered steps and one streaming label. */
  class ActivityWidget {
    var stepCounter: nat
    var currentStepId: Option<string>
    var stepTexts: PyDict.Dict<string, string>
    var mounted: seq<Mounted>
    var streamingBuffer: string
    var streamingActive: bool
    var streamingLabel: Option<string> // the text of the streaming label, when there is one

    /** The step texts are filed under "step_1" … "step_N", in order. */
    ghost predicate Valid()
      reads this
    {
      |stepTexts| == stepCounter && forall i :: 0 <= i < |stepTexts| ==> stepTexts[i].0 == StepId(i + 1)
    }

    constructor ()
      ensures Valid() && stepCounter == 0 && stepTexts == [] && streamingBuffer == "" && !streamingActive
    {
      stepCounter := 0;
      currentStepId := None;
      stepTexts := [];
      mounted := [];
      streamingBuffer := "";
      streamingActive := false;
      streamingLabel := None;
    }

    /** `add_step`: a fresh id "step_N", never used before, with the step's text filed under it. */
    method AddStep(text: string, toolName: Option<string>, arguments: PyDict.Dict<string, string>) returns (stepId: string)
      requires Valid()
      modifies this`stepCounter, this`currentStepId, this`stepTexts, this`mounted
      ensures Valid()
      ensures stepCounter == old(stepCounter) + 1 && stepId == StepId(stepCounter)
      ensures !PyDict.HasKey(old(stepTexts), stepId) && stepTexts == old(stepTexts) + [(stepId, text)]
      ensures currentStepId == Some(stepId)
      ensures mounted == old(mounted) + [Mounted(stepId, StepDisplay(text, toolName, arguments).0, StepDisplay(text, toolName, arguments).1)]
    {
      stepCounter := stepCounter + 1;
      stepId := StepId(stepCounter);
      if PyDict.HasKey(stepTexts, stepId) {
        var i :| 0 <= i < |stepTexts| && stepTexts[i].0 == stepId;
        StepIdInjective(i + 1, stepCounter);
        assert false;
      }
      PyDict.PutNew(stepTexts, stepId, text);
      stepTexts := PyDict.Put(stepTexts, stepId, text);
      currentStepId := Some(stepId);
      var (display, isShell) := StepDisplay(text, toolName, arguments);
      mounted := mounted + [Mounted(stepId, display, isShell)];
    }

    /** `start_streaming` */
    method StartStreaming(prefix: string) returns (id: string)
      modifies this`streamingBuffer, this`streamingActive, this`streamingLabel
      ensures id == StreamingId && streamingBuffer == prefix && streamingActive
      ensures streamingLabel == Some(if prefix != "" then prefix else "...")
    {
      streamingBuffer := prefix;
      streamingActive := true;
      streamingLabel := Some(if prefix != "" then prefix else "...");
      id := StreamingId;
    }

    /**
     * `append_streaming`: the buffer grows by the text; the label shows the
     * cleaned tail, with tool-call blocks replaced before stray tags go.
     */
    method AppendStreaming(text: string)
      modifies this`streamingBuffer, this`streamingActive, this`streamingLabel
      ensures streamingActive
      ensures streamingBuffer == (if old(streamingActive) then old(streamingBuffer) else "") + text
      ensures streamingLabel == Some(StreamDisplay(CleanStream(streamingBuffer)))
      ensures (forall i :: 0 <= i < |streamingBuffer| ==> streamingBuffer[i] != '<') ==>
        streamingLabel == Some(StreamDisplay(CleanAsWritten(streamingBuffer)))
    {
      if !streamingActive {
        var _ := StartStreaming("");
      }
      streamingBuffer := streamingBuffer + text;
      var clean := CleanStream(streamingBuffer);
      streamingLabel := Some(StreamDisplay(clean));
      if forall i :: 0 <= i < |streamingBuffer| ==> streamingBuffer[i] != '<' {
        CleanAgreeOnPlainText(streamingBuffer);
      }
    }

    /** `end_streaming`: the whole buffer is handed back and streaming stops. */
    method EndStreaming() returns (result: string)
      modifies this`streamingBuffer, this`streamingActive, this`streamingLabel
      ensures result == old(streamingBuffer)
      ensures streamingBuffer == "" && !streamingActive && streamingLabel.None?
    {
      result := streamingBuffer;
      streamingBuffer := "";
      streamingActive := false;
      streamingLabel := None;
    }
  }

  lemma {:induction false} RemoveTagsPlain(x: string, y: string)
    requires forall i :: 0 <= i < |x| ==> x[i] != '<'
    ensures RemoveTags(x + y) == x + RemoveTags(y)
  {
    if x != [] {
      var s := x + y;
      assert s[0] == x[0] != '<';
      assert !PyStr.StartsWith(s, ToolOpen) && !PyStr.StartsWith(s, ToolClose) by {
        assert ToolOpen[0] == '<' && ToolClose[0] == '<';
      }
      assert s[1..] == x[1..] + y;
      RemoveTagsPlain(x[1..], y);
    } else {
      assert x + y == y;
    }
  }

  lemma {:induction false} NoTagIn(c: string)
    requires forall i :: 0 <= i < |c| ==> c[i] != '<'
    ensures !PyStr.Contains(c, ToolOpen)
  {
    forall i ensures !PyStr.OccursAt(c, ToolOpen, i) {
      if 0 <= i && i + |ToolOpen| <= |c| {
        assert c[i..i + |ToolOpen|][0] == c[i] != ToolOpen[0];
      }
    }
    PyStr.ContainsIff(c, ToolOpen);
  }

  /** The block `<tool_code>c</tool_code>` around a code text without '<'. */
  function ToolBlock(c: string): string {
    ToolOpen + c + ToolClose
  }

  /** As written, a complete tool-call block is shown as its code, without the tags. */
  lemma {:induction false} CleanAsWrittenShowsCode(c: string)
    requires forall i :: 0 <= i < |c| ==> c[i] != '<'
    ensures CleanAsWritten(ToolBlock(c)) == c
  {
    var s := ToolBlock(c);
    assert PyStr.StartsWith(s, ToolOpen);
    assert s[|ToolOpen|..] == c + ToolClose;
    RemoveTagsPlain(c, ToolClose);
    assert !PyStr.StartsWith(ToolClose, ToolOpen) by {
      assert ToolClose[1] != ToolOpen[1];
    }
    assert ToolClose[|ToolClose|..] == "";
    assert RemoveTags(ToolClose) == "";
    assert c + "" == c;
    assert RemoveTags(s) == c;
    NoTagIn(c);
    PyStr.SubBlocksNoMatch(c, ToolOpen, ToolClose, _ => "[tool call]");
  }

  /** Cleaned as intended, a complete tool-call block is shown as "[tool call]". */
  lemma {:induction false} CleanStreamHidesCode(c: string)
    requires forall i :: 0 <= i < |c| ==> c[i] != '<'
    ensures CleanStream(ToolBlock(c)) == "[tool call]"
  {
    var s := ToolBlock(c);
    var f: string -> string := _ => "[tool call]";
    assert PyStr.OccursAt(s, ToolOpen, 0);
    assert PyStr.Find(s, ToolOpen, 0) == Some(0);
    var j := |ToolOpen| + |c|;
    assert PyStr.OccursAt(s, ToolClose, j);
    forall k | |ToolOpen| <= k < j ensures !PyStr.OccursAt(s, ToolClose, k) {
      assert s[k] == c[k - |ToolOpen|];
    }
    var found := PyStr.Find(s, ToolClose, |ToolOpen|);
    assert found == Some(j);
    assert PyStr.NextBlock(s, ToolOpen, ToolClose, 0) == Some(PyStr.Span(0, |ToolOpen|, j, |s|));
    assert PyStr.Find(s, ToolOpen, |s|).None?;
    assert PyStr.SubBlocks(s, ToolOpen, ToolClose, f, |s|) == "";
    assert PyStr.SubBlocks(s, ToolOpen, ToolClose, f, 0) == "[tool call]";
    RemoveTagsPlain("[tool call]", "");
    assert "[tool call]" + "" == "[tool call]";
  }

  /** The two agree on text that holds no '<' at all. */
  lemma {:induction false} CleanAgreeOnPlainText(s: string)
    requires forall i :: 0 <= i < |s| ==> s[i] != '<'
    ensures CleanAsWritten(s) == s && CleanStream(s) == s
  {
    RemoveTagsPlain(s, "");
    assert s + "" == s;
    NoTagIn(s);
    PyStr.SubBlocksNoMatch(s, ToolOpen, ToolClose, _ => "[tool call]");
  }

  /** `s.rstrip("/")` */
  function RStripSlash(s: string): (r: string)
    ensures r == [] || r[|r| - 1] != '/'
    ensures PyStr.StartsWith(s, r)
    ensures forall i :: |r| <= i < |s| ==> s[i] == '/'
  {
    if s != [] && s[|s| - 1] == '/' then RStripSlash(s[..|s| - 1]) else s
  }

  /** The model-list URL `fetch_remote_models` requests; `None` for a provider type it does not query. */
  function ModelsUrl(providerType: string, baseUrl: string): (r: Option<string>)
    ensures r.Some? <==> providerType in ["openai", "deepseek", "openrouter", "anthropic"]
    ensures r.Some? ==> PyStr.EndsWith(r.value, "/models")
    ensures providerType == "anthropic" ==> r == Some("https://api.anthropic.com/v1/models")
    ensures providerType in ["openai", "deepseek", "openrouter"] && baseUrl != "" ==> r == Some(ModelsEndpoint(providerType, baseUrl))
    ensures providerType == "openai" && baseUrl == "" ==> r == Some(ModelsEndpoint("openai", "https://api.openai.com/v1"))
    ensures providerType == "deepseek" && baseUrl == "" ==> r == Some(ModelsEndpoint("deepseek", "https://api.deepseek.com"))
    ensures providerType == "openrouter" && baseUrl == "" ==> r == Some("/models")
  {
    if providerType == "anthropic" then Some("https://api.anthropic.com/v1/models")
    else if providerType in ["openai", "deepseek", "openrouter"] then
      var base := if baseUrl != "" then baseUrl
                  else if providerType == "openai" then "https://api.openai.com/v1"
                  else if providerType == "deepseek" then "https://api.deepseek.com"
                  else "";
      Some(ModelsEndpoint(providerType, base))
    else None
  }

  /** The base URL's trailing slashes dropped, then "/v1" for OpenAI and "/models" unless already there. */
  function ModelsEndpoint(providerType: string, base: string): (r: string)
    ensures PyStr.EndsWith(r, "/models")
    ensures PyStr.EndsWith(RStripSlash(base), "/models") ==> r == RStripSlash(base)
    ensures !PyStr.EndsWith(RStripSlash(base), "/models") && providerType == "openai" && !PyStr.EndsWith(RStripSlash(base), "/v1")
      ==> r == RStripSlash(base) + "/v1/models"
    ensures !PyStr.EndsWith(RStripSlash(base), "/models") && (providerType != "openai" || PyStr.EndsWith(RStripSlash(base), "/v1"))
      ==> r == RStripSlash(base) + "/models"
  {
    var url := RStripSlash(base);
    if PyStr.EndsWith(url, "/models") then url
    else if !PyStr.EndsWith(url, "/v1") && providerType == "openai" then url + "/v1" + "/models"
    else url + "/models"
  }

  /** An OpenAI base without "/v1" gets it inserted before "/models". */
  lemma {:induction false} OpenAIInsertsV1(host: string)
    requires host != [] && host[|host| - 1] != '/' && host[|host| - 1] != 's' && host[|host| - 1] != '1'
    ensures ModelsEndpoint("openai", host + "/") == host + "/v1/models"
  {
    assert RStripSlash(host + "/") == RStripSlash(host) by { assert (host + "/")[..|host|] == host; }
    assert RStripSlash(host) == host;
  }

  /** Feeding the endpoint back in as the base URL gives the same endpoint. */
  lemma {:induction false} ModelsEndpointIdempotent(providerType: string, base: string)
    ensures ModelsEndpoint(providerType, ModelsEndpoint(providerType, base)) == ModelsEndpoint(providerType, base)
  {
    var r := ModelsEndpoint(providerType, base);
    assert r[|r| - 1] == 's';
    assert RStripSlash(r) == r;
  }

  /** The tool-result error test of the event loop. */
  predicate IsToolError(content: string, metadata: Json)
    ensures PyStr.Contains(content, "Error:") || PyStr.Contains(content, "Failed") || PyStr.Contains(content, "Exception") ==> IsToolError(content, metadata)
    ensures Truthy(MemberOr(metadata, "is_error", JBool(false))) ==> IsToolError(content, metadata)
    ensures !PyStr.Contains(PyStr.Lower(content), "exit code") && IsToolError(content, metadata) ==>
      PyStr.Contains(content, "Error:") || PyStr.Contains(content, "Failed") || PyStr.Contains(content, "Exception") || Truthy(MemberOr(metadata, "is_error", JBool(false)))
  {
    var lower := PyStr.Lower(content);
    PyStr.Contains(content, "Error:") || PyStr.Contains(content, "Failed") || PyStr.Contains(content, "Exception")
    || Truthy(MemberOr(metadata, "is_error", JBool(false)))
    || (PyStr.Contains(lower, "exit code") && !(PyStr.Contains(lower, "exit code: 0") || PyStr.Contains(lower, "exit code 0")))
  }

  /** A report of exit code 0 is not an error by itself; the markers and the metadata flag still are. */
  lemma {:induction false} ExitZeroIsNoError(content: string, metadata: Json)
    requires PyStr.Contains(PyStr.Lower(content), "exit code: 0")
    ensures IsToolError(content, metadata) <==>
      PyStr.Contains(content, "Error:") || PyStr.Contains(content, "Failed") || PyStr.Contains(content, "Exception")
      || Truthy(MemberOr(metadata, "is_error", JBool(false)))
  {
  }

  /** Any mention of an exit code that is not zero marks an error. */
  lemma {:induction false} OtherExitCodeIsError(content: string, metadata: Json)
    requires PyStr.Contains(PyStr.Lower(content), "exit code")
    requires !PyStr.Contains(PyStr.Lower(content), "exit code: 0") && !PyStr.Contains(PyStr.Lower(content), "exit code 0")
    ensures IsToolError(content, metadata)
  {
  }
}
