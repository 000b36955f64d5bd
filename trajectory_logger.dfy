/**
 * The trajectory logger: an append-only list of decision steps, and a
 * summary that counts them per kind of decision. Clock readings are
 * parameters; writing the trajectory file is not modelled.
 */
module TrajectoryLogger {
  import opened Wrappers
  import opened Json
  import PyDict
  import Session

  datatype Step = Step(timestamp: real, decisionPoint: string, options: seq<string>, chosen: string, reasoning: string,
                       metadata: PyDict.Dict<string, Json>)

  /** The names `log_decision` binds itself; metadata under one of them makes the call raise a TypeError. */
  const BoundNames := ["self", "decision_point", "options", "chosen", "reasoning"]

  const ErrorOptions := ["retry", "skip", "abort", "escalate"]

  /** The first metadata key that clashes with a bound name. */
  function Clash(metadata: PyDict.Dict<string, Json>): (r: Option<string>)
    ensures r.Some? ==> r.value in BoundNames && PyDict.HasKey(metadata, r.value)
    ensures r.None? ==> forall i :: 0 <= i < |metadata| ==> metadata[i].0 !in BoundNames
  {
    if metadata == [] then None
    else if metadata[0].0 in BoundNames then Some(metadata[0].0)
    else
      var r := Clash(metadata[1..]);
      if r.Some? then
        PyDict.HasKeyTail(metadata, r.value);
        r
      else
        assert forall i :: 1 <= i < |metadata| ==> metadata[i] == metadata[1..][i - 1];
        r
  }

  /** The summary of `get_summary`; `Empty` is `{"total_steps": 0}`. */
  datatype Summary =
    | Empty
    | Summary(totalSteps: int, duration: real, decisionTypes: PyDict.Dict<string, int>, firstStep: string, lastStep: string)

  /** One count per step, under its decision point. */
  function DecisionBumps(steps: seq<Step>): (r: seq<(string, int)>)
    ensures |r| == |steps|
    ensures forall i :: 0 <= i < |steps| ==> r[i] == (steps[i].decisionPoint, 1)
  {
    if steps == [] then [] else DecisionBumps(steps[..|steps| - 1]) + [(steps[|steps| - 1].decisionPoint, 1)]
  }

  /** The decision counts the summary loop builds. */
  function DecisionCounts(steps: seq<Step>): PyDict.Dict<string, int> {
    Session.Tally([], DecisionBumps(steps))
  }

  /** The number of steps with a given decision point. */
  function CountOf(steps: seq<Step>, point: string): (r: nat)
    ensures r <= |steps|
  {
    if steps == [] then 0
    else CountOf(steps[..|steps| - 1], point) + (if steps[|steps| - 1].decisionPoint == point then 1 else 0)
  }

  /** The sum of a dict's values. */
  function Total(d: PyDict.Dict<string, int>): int {
    if d == [] then 0 else d[0].1 + Total(d[1..])
  }

  lemma {:induction false} TotalPut(d: PyDict.Dict<string, int>, k: string, v: int)
    ensures Total(PyDict.Put(d, k, v)) == Total(d) - PyDict.GetOr(d, k, 0) + v
  {
    if d != [] && d[0].0 != k {
      TotalPut(d[1..], k, v);
      assert PyDict.Put(d, k, v)[1..] == PyDict.Put(d[1..], k, v);
    } else if d != [] {
      assert PyDict.Put(d, k, v)[1..] == d[1..];
    }
  }

  lemma {:induction false} SumForCounts(steps: seq<Step>, point: string)
    ensures Session.SumFor(DecisionBumps(steps), point) == CountOf(steps, point)
  {
    if steps != [] {
      var init := steps[..|steps| - 1];
      SumForCounts(init, point);
      assert DecisionBumps(steps)[..|steps| - 1] == DecisionBumps(init);
    }
  }

  /** Each decision point is counted once per step that has it, and the counts add up to the number of steps. */
  lemma {:induction false} CountsAreExact(steps: seq<Step>)
    ensures forall point :: PyDict.GetOr(DecisionCounts(steps), point, 0) == CountOf(steps, point)
    ensures Total(DecisionCounts(steps)) == |steps|
  {
    forall point ensures PyDict.GetOr(DecisionCounts(steps), point, 0) == CountOf(steps, point) {
      Session.TallySum(DecisionBumps(steps), point);
      SumForCounts(steps, point);
    }
    if steps != [] {
      var init := steps[..|steps| - 1];
      var p := steps[|steps| - 1].decisionPoint;
      CountsAreExact(init);
      assert DecisionBumps(steps)[..|steps| - 1] == DecisionBumps(init);
      TotalPut(DecisionCounts(init), p, PyDict.GetOr(DecisionCounts(init), p, 0) + 1);
    }
  }

  class TrajectoryLogger {
    const sessionId: string
    const sessionStart: real
    var trajectory: seq<Step>

    /** `now` is the clock reading at creation. */
    constructor (sessionId: string, now: real)
      ensures this.sessionId == sessionId && sessionStart == now && trajectory == []
    {
      this.sessionId := sessionId;
      sessionStart := now;
      trajectory := [];
    }

    /** `log_decision`: one step appended at the end. */
    method LogDecision(now: real, decisionPoint: string, options: seq<string>, chosen: string, reasoning: string,
                       metadata: PyDict.Dict<string, Json>)
      modifies this
      ensures trajectory == old(trajectory) + [Step(now, decisionPoint, options, chosen, reasoning, metadata)]
    {
      trajectory := trajectory + [Step(now, decisionPoint, options, chosen, reasoning, metadata)];
    }

    /**
     * `log_tool_call`: the arguments go into the metadata first, followed by
     * the extra metadata; an extra key that repeats a keyword raises.
     */
    method LogToolCall(now: real, toolName: string, arguments: Json, metadata: Option<PyDict.Dict<string, Json>>)
      returns (r: Result<()>)
      modifies this
      ensures r.Err? <==> Clash(metadata.GetOr([])).Some? || PyDict.HasKey(metadata.GetOr([]), "arguments")
      ensures r.Err? ==> trajectory == old(trajectory)
      ensures r.Ok? ==>
        trajectory == old(trajectory) + [Step(now, "tool_selection", [toolName], toolName, "", [("arguments", arguments)] + metadata.GetOr([]))]
    {
      var extra := metadata.GetOr([]);
      if PyDict.HasKey(extra, "arguments") {
        return Err("TypeError: got multiple values for keyword argument 'arguments'");
      }
      var clash := Clash(extra);
      if clash.Some? {
        return Err("TypeError: got multiple values for argument '" + clash.value + "'");
      }
      LogDecision(now, "tool_selection", [toolName], toolName, "", [("arguments", arguments)] + extra);
      return Ok(());
    }

    /** `log_error`: an error-handling step whose choice is the recovery action, or "unknown". */
    method LogError(now: real, errorType: string, errorMsg: string, recoveryAction: string)
      modifies this
      ensures trajectory == old(trajectory) +
        [Step(now, "error_handling", ErrorOptions, if recoveryAction != "" then recoveryAction else "unknown", errorMsg,
              [("error_type", JStr(errorType))])]
    {
      LogDecision(now, "error_handling", ErrorOptions, if recoveryAction != "" then recoveryAction else "unknown", errorMsg,
                  [("error_type", JStr(errorType))]);
    }

    /** `get_summary`, with `now` the clock reading for the duration. */
    method GetSummary(now: real) returns (s: Summary)
      ensures trajectory == [] ==> s == Empty
      ensures trajectory != [] ==>
        s == Summary(|trajectory|, now - sessionStart, DecisionCounts(trajectory),
                     trajectory[0].decisionPoint, trajectory[|trajectory| - 1].decisionPoint)
    {
      if trajectory == [] {
        return Empty;
      }
      var counts: PyDict.Dict<string, int> := [];
      for i := 0 to |trajectory|
        invariant counts == DecisionCounts(trajectory[..i])
      {
        assert trajectory[..i + 1][..i] == trajectory[..i];
        counts := Session.Bump(counts, trajectory[i].decisionPoint, 1);
      }
      assert trajectory[..|trajectory|] == trajectory;
      return Summary(|trajectory|, now - sessionStart, counts, trajectory[0].decisionPoint, trajectory[|trajectory| - 1].decisionPoint);
    }
  }
}
