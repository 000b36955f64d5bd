/**
 * Output styles: three fixed display configurations and a manager that holds
 * the current one and applies it to tool calls, reasoning text and long
 * results.
 */
module OutputStyles {
  import opened Wrappers
  import PyStr
  import PyDict
  import opened Json

  datatype OutputLevel = Minimal | Balanced | Detailed

  datatype OutputStyle = OutputStyle(
    level: OutputLevel,
    showToolArgs: bool,
    showToolResults: bool,
    showReasoning: bool,
    showTimestamps: bool,
    maxResultLength: int,
    collapseCodeBlocks: bool,
    showModelInfo: bool,
    truncateLongText: bool)

  const MinimalStyle := OutputStyle(Minimal, false, false, false, false, 100, true, false, true)
  const BalancedStyle := OutputStyle(Balanced, true, true, true, false, 300, true, true, true)
  const DetailedStyle := OutputStyle(Detailed, true, true, true, true, 1000, false, true, false)

  /** The keys of `STYLES`, in order. */
  const StyleNames := ["minimal", "balanced", "detailed"]

  /** `STYLES.get(name)` */
  function LookupStyle(name: string): (r: Option<OutputStyle>)
    ensures r.Some? <==> name in StyleNames
    ensures r.Some? ==> r.value.level == (if name == "minimal" then Minimal else if name == "balanced" then Balanced else Detailed)
  {
    if name == "minimal" then Some(MinimalStyle)
    else if name == "balanced" then Some(BalancedStyle)
    else if name == "detailed" then Some(DetailedStyle)
    else None
  }

  /** The elements a style has a `show_` flag for. */
  const ShownElements := ["tool_args", "tool_results", "reasoning", "timestamps", "model_info"]

  /** `getattr(style, "show_" + element, True)` */
  predicate ShowFlag(style: OutputStyle, element: string)
    ensures element !in ShownElements ==> ShowFlag(style, element)
    ensures style == DetailedStyle ==> ShowFlag(style, element)
    ensures style == MinimalStyle ==> (ShowFlag(style, element) <==> element !in ShownElements)
  {
    if element == "tool_args" then style.showToolArgs
    else if element == "tool_results" then style.showToolResults
    else if element == "reasoning" then style.showReasoning
    else if element == "timestamps" then style.showTimestamps
    else if element == "model_info" then style.showModelInfo
    else true
  }

  /** The truncation limit: the style's maximum, doubled for code. */
  function Limit(style: OutputStyle, context: string): int {
    if context == "code" then style.maxResultLength * 2 else style.maxResultLength
  }

  /** The marker that replaces the dropped tail. */
  function TruncationMarker(dropped: int): string {
    "\n... (" + PyStr.IntToString(dropped) + " chars truncated)"
  }

  /** Every argument as `name=repr(value)[:30]`, in order, comma separated. */
  function AllArgsText(args: PyDict.Dict<string, Json>, repr: Json -> string): string {
    PyStr.Join(", ", seq(|args|, i requires 0 <= i < |args| => args[i].0 + "=" + PyStr.Take(repr(args[i].1), 30)))
  }

  /** The argument text capped at 80 characters, with "..." marking a cut. */
  function ArgsText(args: PyDict.Dict<string, Json>, repr: Json -> string): (r: string)
    ensures |r| <= 83
    ensures |AllArgsText(args, repr)| <= 80 ==> r == AllArgsText(args, repr)
    ensures |AllArgsText(args, repr)| > 80 ==> r == AllArgsText(args, repr)[..80] + "..."
  {
    var full := AllArgsText(args, repr);
    if |full| > 80 then full[..80] + "..." else full
  }

  class OutputStyleManager {
    var currentStyleName: string
    var currentStyle: OutputStyle

    /** The configuration is always one of the predefined styles. */
    ghost predicate Valid()
      reads this
    {
      currentStyle == MinimalStyle || currentStyle == BalancedStyle || currentStyle == DetailedStyle
    }

    /** An unknown default name is kept as the name, with the balanced configuration. */
    constructor (defaultStyle: string)
      ensures Valid()
      ensures currentStyleName == defaultStyle
      ensures LookupStyle(defaultStyle).Some? ==> currentStyle == LookupStyle(defaultStyle).value
      ensures LookupStyle(defaultStyle).None? ==> currentStyle == BalancedStyle
    {
      currentStyleName := defaultStyle;
      currentStyle := LookupStyle(defaultStyle).GetOr(BalancedStyle);
    }

    /** `set_style`: switches exactly when the name is a known style. */
    method SetStyle(name: string) returns (ok: bool)
      requires Valid()
      modifies this
      ensures Valid()
      ensures ok <==> name in StyleNames
      ensures ok ==> currentStyleName == name && currentStyle == LookupStyle(name).value
      ensures !ok ==> currentStyleName == old(currentStyleName) && currentStyle == old(currentStyle)
    {
      var style := LookupStyle(name);
      if style.Some? {
        currentStyleName := name;
        currentStyle := style.value;
        return true;
      }
      return false;
    }

    /** `should_show`: the style's flag for the element; unknown elements are shown. */
    predicate ShouldShow(element: string)
      reads this
      ensures element !in ShownElements ==> ShouldShow(element)
      ensures currentStyle == DetailedStyle ==> ShouldShow(element)
      ensures currentStyle == MinimalStyle ==> (ShouldShow(element) <==> element !in ShownElements)
    {
      ShowFlag(currentStyle, element)
    }

    /** `truncate` */
    function Truncate(text: string, context: string): (r: string)
      requires Valid()
      reads this
      ensures !currentStyle.truncateLongText || |text| <= Limit(currentStyle, context) ==> r == text
      ensures currentStyle.truncateLongText && |text| > Limit(currentStyle, context) ==>
        r == text[..Limit(currentStyle, context)] + TruncationMarker(|text| - Limit(currentStyle, context))
    {
      var limit := Limit(currentStyle, context);
      if !currentStyle.truncateLongText || |text| <= limit then text
      else text[..limit] + TruncationMarker(|text| - limit)
    }

    /** `format_tool_call`; `repr` is Python's `repr` of an argument value. */
    function FormatToolCall(toolName: string, args: PyDict.Dict<string, Json>, result: string, repr: Json -> string): (r: string)
      requires Valid()
      reads this
      ensures PyStr.StartsWith(r, "[bold]" + toolName + "[/bold]")
      ensures (!currentStyle.showToolArgs || args == []) && (!currentStyle.showToolResults || result == "") ==>
        r == "[bold]" + toolName + "[/bold]"
      ensures |r| <= |toolName| + 13 + 85 + (if currentStyle.showToolResults && result != "" then 6 + |Truncate(result, "result")| else 0)
      ensures currentStyle.showToolArgs && args != [] ==>
        PyStr.StartsWith(r, "[bold]" + toolName + "[/bold]" + "(" + ArgsText(args, repr) + ")")
      ensures currentStyle.showToolResults && result != "" ==> PyStr.EndsWith(r, "\n  -> " + Truncate(result, "result"))
      ensures currentStyle.showToolArgs && args != [] && !(currentStyle.showToolResults && result != "") ==>
        r == "[bold]" + toolName + "[/bold]" + "(" + ArgsText(args, repr) + ")"
      ensures !(currentStyle.showToolArgs && args != []) && currentStyle.showToolResults && result != "" ==>
        r == "[bold]" + toolName + "[/bold]" + "\n  -> " + Truncate(result, "result")
    {
      "[bold]" + toolName + "[/bold]"
      + (if currentStyle.showToolArgs && args != [] then "(" + ArgsText(args, repr) + ")" else "")
      + (if currentStyle.showToolResults && result != "" then "\n  -> " + Truncate(result, "result") else "")
    }

    /** `format_reasoning`: hidden exactly when the style hides reasoning. */
    function FormatReasoning(text: string, modelId: Option<string>): (r: Option<string>)
      requires Valid()
      reads this
      ensures r.None? <==> !currentStyle.showReasoning
      ensures r.Some? && currentStyle.showModelInfo && modelId.Some? && modelId.value != "" ==>
        r.value == "[" + modelId.value + "] " + Truncate(text, "general")
      ensures r.Some? && !(currentStyle.showModelInfo && modelId.Some? && modelId.value != "") ==>
        r.value == Truncate(text, "general")
    {
      if !currentStyle.showReasoning then None
      else
        var prefix := if currentStyle.showModelInfo && modelId.Some? && modelId.value != "" then "[" + modelId.value + "] " else "";
        Some(prefix + Truncate(text, "general"))
    }
  }

  /** The kept text is a prefix of the original, at most the limit long. */
  lemma {:induction false} TruncateKeepsPrefix(m: OutputStyleManager, text: string, context: string)
    requires m.Valid()
    ensures PyStr.StartsWith(m.Truncate(text, context), PyStr.Take(text, Limit(m.currentStyle, context)))
  {
  }

  /**
   * Only the detailed style never truncates; the other two cut anything
   * beyond their limit and start the marker on a new line. Code gets twice
   * the room, so text that fits as a result also fits as code.
   */
  lemma {:induction false} TruncatesBeyondLimit(m: OutputStyleManager, text: string, context: string)
    requires m.Valid()
    ensures m.currentStyle == DetailedStyle || |text| <= Limit(m.currentStyle, context) ==> m.Truncate(text, context) == text
    ensures m.currentStyle != DetailedStyle && |text| > Limit(m.currentStyle, context) ==>
      |m.Truncate(text, context)| > Limit(m.currentStyle, context) &&
      m.Truncate(text, context)[Limit(m.currentStyle, context)] == '\n'
    ensures |text| <= Limit(m.currentStyle, "result") ==> m.Truncate(text, "code") == text
  {
    var limit := Limit(m.currentStyle, context);
    if m.currentStyle != DetailedStyle && |text| > limit {
      assert TruncationMarker(|text| - limit)[0] == '\n';
    }
  }
}
