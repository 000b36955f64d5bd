/**
 * Python string semantics used throughout the model: the whitespace set of
 * `str.isspace`, `strip`/`split`, ASCII lower-casing, substring search,
 * slicing past the end, decimal rendering and the non-greedy block matching
 * that a pattern of the form `OPEN(.*?)CLOSE` (with DOTALL) performs.
 */
module PyStr {
  import opened Wrappers

  /** Python's `str.isspace()` for one character (also what `\s` matches in `re`). */
  predicate IsSpace(c: char) {
    ('\t' <= c <= '\r') || ('\U{1c}' <= c <= '\U{1f}') || c == ' '
    || c == '\U{85}' || c == '\U{a0}' || c == '\U{1680}'
    || ('\U{2000}' <= c <= '\U{200a}') || c == '\U{2028}' || c == '\U{2029}'
    || c == '\U{202f}' || c == '\U{205f}' || c == '\U{3000}'
  }

  /** `s.lstrip()` */
  function LStrip(s: string): (r: string)
    ensures |r| <= |s| && r == s[|s| - |r|..]
    ensures r == [] || !IsSpace(r[0])
    ensures forall i :: 0 <= i < |s| - |r| ==> IsSpace(s[i])
  {
    if s != [] && IsSpace(s[0]) then LStrip(s[1..]) else s
  }

  /** `s.rstrip()` */
  function RStrip(s: string): (r: string)
    ensures |r| <= |s| && r == s[..|r|]
    ensures r == [] || !IsSpace(r[|r| - 1])
    ensures forall i :: |r| <= i < |s| ==> IsSpace(s[i])
  {
    if s != [] && IsSpace(s[|s| - 1]) then RStrip(s[..|s| - 1]) else s
  }

  /** No whitespace at either end. */
  predicate Trimmed(s: string) {
    s == [] || (!IsSpace(s[0]) && !IsSpace(s[|s| - 1]))
  }

  /** `s.strip()` */
  function Strip(s: string): (r: string)
    ensures |r| <= |s|
    ensures r == [] || (!IsSpace(r[0]) && !IsSpace(r[|r| - 1]))
  {
    RStrip(LStrip(s))
  }

  /** The result of `Strip` is `Trimmed`. */
  lemma StripIsTrimmed(s: string)
    ensures Trimmed(Strip(s))
  {
  }

  /** `s.lstrip(c)` for a single character. */
  function LStripChar(s: string, c: char): (r: string)
    ensures |r| <= |s| && r == s[|s| - |r|..]
    ensures r == [] || r[0] != c
  {
    if s != [] && s[0] == c then LStripChar(s[1..], c) else s
  }

  function LowerChar(c: char): char {
    if 'A' <= c <= 'Z' then (c as int - 'A' as int + 'a' as int) as char else c
  }

  /** `s.lower()`, on the ASCII letters. */
  function Lower(s: string): (r: string)
    ensures |r| == |s|
  {
    seq(|s|, i requires 0 <= i < |s| => LowerChar(s[i]))
  }

  /** `s.startswith(p)` */
  predicate StartsWith(s: string, p: string) {
    |p| <= |s| && s[..|p|] == p
  }

  /** `s.endswith(p)` */
  predicate EndsWith(s: string, p: string) {
    |p| <= |s| && s[|s| - |p|..] == p
  }

  /** `sub` occurs in `s` starting at index `i`. */
  predicate OccursAt(s: string, sub: string, i: int) {
    0 <= i && i + |sub| <= |s| && s[i..i + |sub|] == sub
  }

  /** `s.find(sub, from)`: the first occurrence at or after `from`. */
  function Find(s: string, sub: string, from: nat): (r: Option<nat>)
    ensures r.Some? ==> from <= r.value && OccursAt(s, sub, r.value)
    ensures r.Some? ==> forall j :: from <= j < r.value ==> !OccursAt(s, sub, j)
    ensures r.None? ==> forall j :: from <= j ==> !OccursAt(s, sub, j)
    decreases |s| - from
  {
    if from + |sub| > |s| then None
    else if OccursAt(s, sub, from) then Some(from)
    else Find(s, sub, from + 1)
  }

  /** `sub in s` */
  predicate Contains(s: string, sub: string) {
    Find(s, sub, 0).Some?
  }

  lemma {:induction false} ContainsIff(s: string, sub: string)
    ensures Contains(s, sub) <==> exists i :: OccursAt(s, sub, i)
  {
    if Contains(s, sub) {
      assert OccursAt(s, sub, Find(s, sub, 0).value);
    }
  }

  /** `s[:n]` for `n >= 0` */
  function Take(s: string, n: nat): (r: string)
    ensures |r| == if n < |s| then n else |s|
    ensures r == s[..|r|]
  {
    if n < |s| then s[..n] else s
  }

  /** `s[-n:]` for `n > 0` */
  function Last(s: string, n: nat): (r: string)
    ensures |r| == if n < |s| then n else |s|
    ensures r == s[|s| - |r|..]
  {
    if n < |s| then s[|s| - n..] else s
  }

  /** `sep.join(parts)` */
  function Join(sep: string, parts: seq<string>): (r: string)
    ensures parts == [] ==> r == ""
    ensures |parts| == 1 ==> r == parts[0]
  {
    if parts == [] then ""
    else if |parts| == 1 then parts[0]
    else parts[0] + sep + Join(sep, parts[1..])
  }

  /** `parts[i]` appears in `sep.join(parts)`. */
  lemma {:induction false} JoinOccurs(sep: string, parts: seq<string>, i: nat)
    requires i < |parts|
    ensures exists k :: OccursAt(Join(sep, parts), parts[i], k)
  {
    var r := Join(sep, parts);
    if |parts| == 1 {
      assert OccursAt(r, parts[i], 0);
    } else if i == 0 {
      assert r[..|parts[0]|] == parts[0];
      assert OccursAt(r, parts[i], 0);
    } else {
      JoinOccurs(sep, parts[1..], i - 1);
      var rest := Join(sep, parts[1..]);
      var k :| OccursAt(rest, parts[i], k);
      var off := |parts[0] + sep|;
      assert r == parts[0] + sep + rest;
      assert r[off + k..off + k + |parts[i]|] == rest[k..k + |parts[i]|];
      assert OccursAt(r, parts[i], off + k);
    }
  }

  /** What occurs in the middle part occurs in the whole. */
  lemma {:induction false} OccursInMiddle(a: string, j: string, b: string, x: string, k: int)
    requires OccursAt(j, x, k)
    ensures Contains(a + j + b, x)
  {
    var r := a + j + b;
    assert r[|a| + k..|a| + k + |x|] == j[k..k + |x|];
    assert OccursAt(r, x, |a| + k);
    ContainsIff(r, x);
  }

  /** `s.rfind(c)` for one character. */
  function RFindChar(s: string, c: char): (r: Option<nat>)
    ensures r.Some? ==> r.value < |s| && s[r.value] == c
    ensures r.Some? ==> forall j :: r.value < j < |s| ==> s[j] != c
    ensures r.None? ==> forall j :: 0 <= j < |s| ==> s[j] != c
  {
    if s == [] then None
    else if s[|s| - 1] == c then Some(|s| - 1)
    else RFindChar(s[..|s| - 1], c)
  }

  predicate IsAsciiLetter(c: char) {
    'a' <= c <= 'z' || 'A' <= c <= 'Z'
  }

  /** `s` without its leading ASCII letters (what `[a-zA-Z]*` consumes at the front). */
  function DropLetters(s: string): (r: string)
    ensures |r| <= |s| && r == s[|s| - |r|..]
    ensures r == [] || !IsAsciiLetter(r[0])
    ensures forall i :: 0 <= i < |s| - |r| ==> IsAsciiLetter(s[i])
  {
    if s != [] && IsAsciiLetter(s[0]) then DropLetters(s[1..]) else s
  }

  /** The longest prefix of `s` without whitespace. */
  function Word(s: string): (r: string)
    ensures |r| <= |s| && r == s[..|r|]
    ensures forall i :: 0 <= i < |r| ==> !IsSpace(r[i])
    ensures |r| < |s| ==> IsSpace(s[|r|])
  {
    if s == [] || IsSpace(s[0]) then "" else [s[0]] + Word(s[1..])
  }

  /** No whitespace anywhere in `w`. */
  predicate NoSpace(w: string) {
    forall j :: 0 <= j < |w| ==> !IsSpace(w[j])
  }

  /** `s.split()`: the maximal runs of non-whitespace, in order. */
  function Split(s: string): (r: seq<string>)
    ensures forall i :: 0 <= i < |r| ==> r[i] != "" && NoSpace(r[i])
    decreases |s|
  {
    var t := LStrip(s);
    if t == [] then []
    else
      var w := Word(t);
      assert w != "" by { assert !IsSpace(t[0]); }
      [w] + Split(t[|w|..])
  }

  /** A word followed by whitespace or by nothing is read back whole. */
  lemma {:induction false} WordPrefix(w: string, x: string)
    requires NoSpace(w) && (x == [] || IsSpace(x[0]))
    ensures Word(w + x) == w
  {
    if w == [] {
      assert w + x == x;
    } else {
      assert (w + x)[1..] == w[1..] + x;
      WordPrefix(w[1..], x);
    }
  }

  /** A word at the front, followed by whitespace or nothing, is the first part of the split. */
  lemma {:induction false} SplitCons(w: string, x: string)
    requires w != "" && NoSpace(w) && (x == [] || IsSpace(x[0]))
    ensures Split(w + x) == [w] + Split(x)
  {
    var s := w + x;
    assert s[0] == w[0];
    assert LStrip(s) == s;
    WordPrefix(w, x);
    assert s[|w|..] == x;
  }

  /** Leading whitespace does not change the split. */
  lemma {:induction false} SplitLeadingSpace(x: string)
    requires x != [] && IsSpace(x[0])
    ensures Split(x) == Split(x[1..])
  {
    assert LStrip(x) == LStrip(x[1..]);
  }

  /** A single word splits into itself. */
  lemma {:induction false} SplitWord(w: string)
    requires w != "" && NoSpace(w)
    ensures Split(w) == [w]
  {
    SplitCons(w, []);
    assert w + [] == w;
    assert LStrip([]) == [];
  }

  /** Splitting words joined by single spaces gives the words back. */
  lemma {:induction false} SplitJoin(words: seq<string>)
    requires forall i :: 0 <= i < |words| ==> words[i] != "" && NoSpace(words[i])
    ensures Split(Join(" ", words)) == words
  {
    if words == [] {
      assert LStrip("") == "";
    } else if |words| == 1 {
      SplitWord(words[0]);
    } else {
      var w, rest := words[0], words[1..];
      assert words == [w] + rest;
      SplitJoin(rest);
      SplitJoinStep(w, rest);
    }
  }

  lemma {:induction false} SplitJoinStep(w: string, rest: seq<string>)
    requires w != "" && NoSpace(w) && rest != [] && Split(Join(" ", rest)) == rest
    ensures Split(Join(" ", [w] + rest)) == [w] + rest
  {
    var ws := [w] + rest;
    var j := Join(" ", rest);
    var x := " " + j;
    assert ws[0] == w && ws[1..] == rest;
    assert Join(" ", ws) == w + x by {
      assert Join(" ", ws) == w + " " + j;
    }
    SplitCons(w, x);
    SplitLeadingSpace(x);
    assert x[1..] == j;
  }

  /** `s.split(maxsplit=1)`: the first word and, if anything follows, the rest with its leading whitespace removed. */
  function SplitOnce(s: string): (r: seq<string>)
    ensures |r| <= 2
    ensures r == [] <==> LStrip(s) == ""
    ensures r != [] ==> r[0] != "" && r[0] == Word(LStrip(s))
    ensures |r| == 2 ==> r[1] != "" && !IsSpace(r[1][0])
  {
    var t := LStrip(s);
    if t == [] then []
    else
      var w := Word(t);
      assert w != "" by { assert !IsSpace(t[0]); }
      var rest := LStrip(t[|w|..]);
      if rest == [] then [w] else [w, rest]
  }

  function DigitChar(d: nat): char
    requires d < 10
  {
    "0123456789"[d]
  }

  /** `str(n)` for a natural number. */
  function NatToString(n: nat): (r: string)
    ensures |r| >= 1
    ensures forall i :: 0 <= i < |r| ==> '0' <= r[i] <= '9'
    ensures n < 10 <==> |r| == 1
  {
    if n < 10 then [DigitChar(n)] else NatToString(n / 10) + [DigitChar(n % 10)]
  }

  /** `str(i)` for an integer. */
  function IntToString(i: int): string {
    if i < 0 then "-" + NatToString(-i) else NatToString(i)
  }

  /** `f"{n:02d}"` for a natural number. */
  function Pad2(n: nat): (r: string)
    ensures |r| >= 2
    ensures n < 100 ==> |r| == 2
  {
    if n < 10 then "0" + NatToString(n) else NatToString(n)
  }

  /** Where one non-greedy `OPEN(.*?)CLOSE` match sits in a string. */
  datatype Span = Span(start: nat, innerStart: nat, innerEnd: nat, end: nat)

  /**
   * The next match of `open(.*?)close` (DOTALL) at or after `from`: the first
   * opener that has a closer after it, and the first closer after that opener.
   */
  function NextBlock(s: string, open: string, close: string, from: nat): (r: Option<Span>)
    ensures r.Some? ==>
      from <= r.value.start && r.value.innerStart == r.value.start + |open|
      && r.value.innerStart <= r.value.innerEnd && r.value.end == r.value.innerEnd + |close|
      && r.value.end <= |s|
      && OccursAt(s, open, r.value.start) && OccursAt(s, close, r.value.innerEnd)
      && (forall j :: r.value.innerStart <= j < r.value.innerEnd ==> !OccursAt(s, close, j))
  {
    match Find(s, open, from)
    case None => None
    case Some(i) =>
      match Find(s, close, i + |open|)
      case None => None
      case Some(j) => Some(Span(i, i + |open|, j, j + |close|))
  }

  /** `re.findall(open + "(.*?)" + close, s, re.DOTALL)` for literal `open` and `close`. */
  function BlockInners(s: string, open: string, close: string, from: nat): (r: seq<string>)
    requires |open| > 0 && from <= |s|
    ensures NextBlock(s, open, close, from).None? <==> r == []
    decreases |s| - from
  {
    match NextBlock(s, open, close, from)
    case None => []
    case Some(sp) => [s[sp.innerStart..sp.innerEnd]] + BlockInners(s, open, close, sp.end)
  }

  /** `re.sub(open + "(.*?)" + close, f, s, flags=re.DOTALL)`: each match replaced by `f` of its inner text. */
  function SubBlocks(s: string, open: string, close: string, f: string -> string, from: nat): (r: string)
    requires |open| > 0 && from <= |s|
    ensures NextBlock(s, open, close, from).None? ==> r == s[from..]
    decreases |s| - from
  {
    match NextBlock(s, open, close, from)
    case None => s[from..]
    case Some(sp) =>
      s[from..sp.start] + f(s[sp.innerStart..sp.innerEnd]) + SubBlocks(s, open, close, f, sp.end)
  }

  /** When no match is left, substituting changes nothing. */
  lemma {:induction false} SubBlocksNoMatch(s: string, open: string, close: string, f: string -> string)
    requires |open| > 0 && !Contains(s, open)
    ensures SubBlocks(s, open, close, f, 0) == s
  {
    assert Find(s, open, 0).None?;
  }
}
