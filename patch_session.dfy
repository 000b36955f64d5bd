/**
 * The line-rewriting pass of the one-off patch script for the session
 * module: insert a method before `process_user_input`, replace the
 * `delegate_task` branch, and drop the old branch's lines up to the next
 * branch. The texts inserted are parameters; reading and writing the file is
 * not modelled.
 */
module PatchSession {
  import PyStr

  const ProcessMarker := "def process_user_input"
  const DelegateMarker := "elif fn_name == \"delegate_task\":"
  const ToolsMarker := "elif fn_name in self.tools_map:"

  /** The loop's three flags. */
  datatype PatchState = PatchState(inserted: bool, replaced: bool, skipping: bool)

  const Start := PatchState(false, false, false)

  /**
   * One line through the loop body: the new flags and the lines emitted.
   * Flags once set stay set, at most two lines come out, and a line is
   * dropped only while skipping, without changing any flag.
   */
  function Step(st: PatchState, line: string, methodText: string, delegateText: string): (r: (PatchState, seq<string>))
    ensures st.inserted ==> r.0.inserted
    ensures st.replaced ==> r.0.replaced
    ensures |r.1| <= 2
    ensures r.1 == [] ==> st.skipping && r.0 == st
  {
    if PyStr.Contains(line, ProcessMarker) && !st.inserted then (st.(inserted := true), [methodText + "\n", line])
    else if PyStr.Contains(line, DelegateMarker) && !st.replaced then (st.(replaced := true, skipping := true), [delegateText])
    else if st.skipping then
      if PyStr.Contains(line, ToolsMarker) then (st.(skipping := false), [line]) else (st, [])
    else (st, [line])
  }

  /** The flags after a run of lines. */
  function After(st: PatchState, lines: seq<string>, methodText: string, delegateText: string): PatchState {
    if lines == [] then st
    else Step(After(st, lines[..|lines| - 1], methodText, delegateText), lines[|lines| - 1], methodText, delegateText).0
  }

  /** The lines emitted for a run of lines. */
  function Output(st: PatchState, lines: seq<string>, methodText: string, delegateText: string): seq<string> {
    if lines == [] then []
    else
      var init := lines[..|lines| - 1];
      Output(st, init, methodText, delegateText)
      + Step(After(st, init, methodText, delegateText), lines[|lines| - 1], methodText, delegateText).1
  }

  /** The patch loop over the lines of the session module. */
  method Rewrite(lines: seq<string>, methodText: string, delegateText: string) returns (newLines: seq<string>)
    ensures newLines == Output(Start, lines, methodText, delegateText)
  {
    newLines := [];
    var insertedMethod, replacedDelegate, skipMode := false, false, false;
    for i := 0 to |lines|
      invariant PatchState(insertedMethod, replacedDelegate, skipMode) == After(Start, lines[..i], methodText, delegateText)
      invariant newLines == Output(Start, lines[..i], methodText, delegateText)
    {
      assert lines[..i + 1][..i] == lines[..i];
      var line := lines[i];
      if PyStr.Contains(line, ProcessMarker) && !insertedMethod {
        newLines := newLines + [methodText + "\n"];
        insertedMethod := true;
        newLines := newLines + [line];
        continue;
      }
      if PyStr.Contains(line, DelegateMarker) && !replacedDelegate {
        newLines := newLines + [delegateText];
        replacedDelegate := true;
        skipMode := true;
        continue;
      }
      if skipMode {
        if PyStr.Contains(line, ToolsMarker) {
          skipMode := false;
          newLines := newLines + [line];
        }
        continue;
      }
      newLines := newLines + [line];
    }
    assert lines[..|lines|] == lines;
  }

  /** Running two stretches of lines one after the other. */
  lemma {:induction false} OutputAppend(st: PatchState, a: seq<string>, b: seq<string>, m: string, d: string)
    ensures After(st, a + b, m, d) == After(After(st, a, m, d), b, m, d)
    ensures Output(st, a + b, m, d) == Output(st, a, m, d) + Output(After(st, a, m, d), b, m, d)
    decreases |b|
  {
    if b == [] {
      assert a + b == a;
    } else {
      var binit := b[..|b| - 1];
      OutputAppend(st, a, binit, m, d);
      assert (a + b)[..|a + b| - 1] == a + binit;
      assert (a + b)[|a + b| - 1] == b[|b| - 1];
    }
  }

  /** No line holds `marker`. */
  predicate Without(lines: seq<string>, marker: string) {
    forall l :: l in lines ==> !PyStr.Contains(l, marker)
  }

  /** Outside the skipped region, lines that trigger nothing are copied. */
  lemma {:induction false} CopiedUnchanged(st: PatchState, lines: seq<string>, m: string, d: string)
    requires !st.skipping
    requires st.inserted || Without(lines, ProcessMarker)
    requires st.replaced || Without(lines, DelegateMarker)
    ensures Output(st, lines, m, d) == lines && After(st, lines, m, d) == st
  {
    if lines != [] {
      var init := lines[..|lines| - 1];
      assert forall l :: l in init ==> l in lines;
      CopiedUnchanged(st, init, m, d);
      assert lines == init + [lines[|lines| - 1]];
    }
  }

  /** Inside the skipped region, once the method is in, lines without the end marker are dropped. */
  lemma {:induction false} SkippedDropped(st: PatchState, lines: seq<string>, m: string, d: string)
    requires st.skipping && st.inserted && st.replaced
    requires Without(lines, ToolsMarker)
    ensures Output(st, lines, m, d) == [] && After(st, lines, m, d) == st
  {
    if lines != [] {
      var init := lines[..|lines| - 1];
      assert forall l :: l in init ==> l in lines;
      SkippedDropped(st, init, m, d);
      assert lines[|lines| - 1] in lines;
    }
  }

  /** One line is one step of the loop. */
  lemma {:induction false} OneLine(st: PatchState, line: string, m: string, d: string)
    ensures After(st, [line], m, d) == Step(st, line, m, d).0
    ensures Output(st, [line], m, d) == Step(st, line, m, d).1
  {
    assert [line][..0] == [];
  }

  /** Running a stretch and then one more line. */
  lemma {:induction false} Extend(st: PatchState, a: seq<string>, line: string, m: string, d: string)
    ensures After(st, a + [line], m, d) == Step(After(st, a, m, d), line, m, d).0
    ensures Output(st, a + [line], m, d) == Output(st, a, m, d) + Step(After(st, a, m, d), line, m, d).1
  {
    assert (a + [line])[..|a|] == a;
  }

  /** Up to the end of the skipped stretch: the method in, the branch replaced, the old branch dropped. */
  lemma {:induction false} ThroughSkipped(pre: seq<string>, procLine: string, mid: seq<string>, delLine: string, skipped: seq<string>, m: string, d: string)
    requires Without(pre, ProcessMarker) && PyStr.Contains(procLine, ProcessMarker)
    requires Without(pre, DelegateMarker) && !PyStr.Contains(procLine, DelegateMarker) && Without(mid, DelegateMarker)
    requires PyStr.Contains(delLine, DelegateMarker)
    requires Without(skipped, ToolsMarker)
    ensures After(Start, pre + [procLine] + mid + [delLine] + skipped, m, d) == PatchState(true, true, true)
    ensures Output(Start, pre + [procLine] + mid + [delLine] + skipped, m, d) == pre + [m + "\n", procLine] + mid + [d]
  {
    var s1 := PatchState(true, false, false);
    var s2 := PatchState(true, true, true);
    CopiedUnchanged(Start, pre, m, d);
    Extend(Start, pre, procLine, m, d);
    var a2 := pre + [procLine];
    CopiedUnchanged(s1, mid, m, d);
    OutputAppend(Start, a2, mid, m, d);
    var a3 := a2 + mid;
    Extend(Start, a3, delLine, m, d);
    var a4 := a3 + [delLine];
    SkippedDropped(s2, skipped, m, d);
    OutputAppend(Start, a4, skipped, m, d);
  }

  /**
   * The usual layout: the method goes in once, right before the first
   * `process_user_input` line; the first `delegate_task` branch becomes the
   * new text; the old branch is dropped up to, and not including, the first
   * `tools_map` branch after it; everything else is copied in order.
   */
  lemma {:induction false} Patched(pre: seq<string>, procLine: string, mid: seq<string>, delLine: string, skipped: seq<string>, rest: seq<string>,
                m: string, d: string)
    requires Without(pre, ProcessMarker) && PyStr.Contains(procLine, ProcessMarker)
    requires Without(pre, DelegateMarker) && !PyStr.Contains(procLine, DelegateMarker) && Without(mid, DelegateMarker)
    requires PyStr.Contains(delLine, DelegateMarker)
    requires Without(skipped, ToolsMarker)
    requires rest != [] ==> PyStr.Contains(rest[0], ToolsMarker)
    ensures Output(Start, pre + [procLine] + mid + [delLine] + skipped + rest, m, d)
         == pre + [m + "\n", procLine] + mid + [d] + rest
  {
    var a5 := pre + [procLine] + mid + [delLine] + skipped;
    ThroughSkipped(pre, procLine, mid, delLine, skipped, m, d);
    OutputAppend(Start, a5, rest, m, d);
    SkipEnds(rest, m, d);
  }

  /** Once the end marker comes, it and everything after it are copied. */
  lemma {:induction false} SkipEnds(rest: seq<string>, m: string, d: string)
    requires rest != [] ==> PyStr.Contains(rest[0], ToolsMarker)
    ensures Output(PatchState(true, true, true), rest, m, d) == rest
  {
    if rest != [] {
      var s2 := PatchState(true, true, true);
      OneLine(s2, rest[0], m, d);
      CopiedUnchanged(PatchState(true, true, false), rest[1..], m, d);
      OutputAppend(s2, [rest[0]], rest[1..], m, d);
      assert [rest[0]] + rest[1..] == rest;
    }
  }

  /**
   * The insertion test comes first: a `process_user_input` line inside the
   * skipped region is still emitted, together with the method.
   */
  lemma {:induction false} InsertedWhileSkipping(pre: seq<string>, delLine: string, skipped: seq<string>, procLine: string, m: string, d: string)
    requires Without(pre, ProcessMarker) && Without(pre, DelegateMarker)
    requires PyStr.Contains(delLine, DelegateMarker) && !PyStr.Contains(delLine, ProcessMarker)
    requires Without(skipped, ToolsMarker) && Without(skipped, ProcessMarker)
    requires PyStr.Contains(procLine, ProcessMarker)
    ensures Output(Start, pre + [delLine] + skipped + [procLine], m, d) == pre + [d, m + "\n", procLine]
  {
    var s2 := PatchState(false, true, true);
    CopiedUnchanged(Start, pre, m, d);
    Extend(Start, pre, delLine, m, d);
    var a2 := pre + [delLine];
    assert After(Start, a2, m, d) == s2 && Output(Start, a2, m, d) == pre + [d];
    SkippingWithoutMethod(s2, skipped, m, d);
    OutputAppend(Start, a2, skipped, m, d);
    Extend(Start, a2 + skipped, procLine, m, d);
  }

  /** While skipping and before the method is in, lines without either marker are dropped. */
  lemma {:induction false} SkippingWithoutMethod(st: PatchState, lines: seq<string>, m: string, d: string)
    requires st.skipping && st.replaced && !st.inserted
    requires Without(lines, ToolsMarker) && Without(lines, ProcessMarker)
    ensures Output(st, lines, m, d) == [] && After(st, lines, m, d) == st
  {
    if lines != [] {
      var init := lines[..|lines| - 1];
      assert forall l :: l in init ==> l in lines;
      SkippingWithoutMethod(st, init, m, d);
      assert lines[|lines| - 1] in lines;
    }
  }
}
