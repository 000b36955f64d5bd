/**
 * The history clean-up script's filter: drop tasks whose prompt is too short,
 * a bare keyword, or an answer starting with "odp". Backing up, reading and
 * writing the history file, and the progress messages, are not modelled.
 */
module CleanupTasks {
  import opened Wrappers
  import PyStr
  import opened Json

  /** The answers that are not tasks. */
  const IgnoreKeywords := ["tak", "nie", "yes", "no", "y", "n", "ok", "okay", "confirm", "cancel", "continue",
                           "start", "stop", "exit", "quit", "help", "menu", "a", "b", "c", "1", "2", "3"]

  /** `task.get("prompt", "")`; a task that is not an object, or a prompt that is not a string, raises. */
  function PromptOf(task: Json): (r: Result<string>)
    ensures task.JObj? && Member(task, "prompt").None? ==> r == Ok("")
    ensures r.Ok? && Member(task, "prompt").Some? ==> Member(task, "prompt").value == JStr(r.value)
    ensures r.Err? <==> !task.JObj? || (Member(task, "prompt").Some? && !Member(task, "prompt").value.JStr?)
  {
    if !task.JObj? then Err("AttributeError: object has no attribute 'get'")
    else match Member(task, "prompt")
      case None => Ok("")
      case Some(JStr(s)) => Ok(s)
      case Some(_) => Err("AttributeError: object has no attribute 'strip'")
  }

  /** `is_trash` for a prompt: shorter than four characters once stripped, a keyword, or an answer "odp…". */
  predicate IsTrash(prompt: string) {
    var p := PyStr.Strip(prompt);
    var lower := PyStr.Lower(p);
    |p| < 4 || lower in IgnoreKeywords || PyStr.StartsWith(lower, "odp")
  }

  /** Whether the loop keeps a task, or the error reading its prompt raises. */
  function Verdict(task: Json): (r: Result<bool>)
    ensures r.Ok? <==> PromptOf(task).Ok?
    ensures r.Ok? ==> (r.value <==> !IsTrash(PromptOf(task).value))
    ensures r.Err? ==> r.error == PromptOf(task).error
  {
    var prompt :- PromptOf(task);
    Ok(!IsTrash(prompt))
  }

  /**
   * The tasks a verdict keeps, in order, or the error of the first task it
   * cannot judge. The loop runs this with `Verdict`; the lemmas below hold
   * for any verdict.
   */
  function Kept(tasks: seq<Json>, keep: Json -> Result<bool>): Result<seq<Json>> {
    if tasks == [] then Ok([])
    else
      var init :- Kept(tasks[..|tasks| - 1], keep);
      var last := tasks[|tasks| - 1];
      var k :- keep(last);
      Ok(if k then init + [last] else init)
  }

  /** The clean-up loop: the tasks kept and the number removed. */
  method Cleanup(tasks: seq<Json>) returns (r: Result<(seq<Json>, nat)>)
    ensures r.Ok? <==> Kept(tasks, Verdict).Ok?
    ensures r.Ok? ==> r.value.0 == Kept(tasks, Verdict).value && r.value.1 + |r.value.0| == |tasks|
    ensures r.Err? ==> r.error == Kept(tasks, Verdict).error
  {
    var cleaned: seq<Json> := [];
    var removed: nat := 0;
    for i := 0 to |tasks|
      invariant Kept(tasks[..i], Verdict) == Ok(cleaned) && removed + |cleaned| == i
    {
      assert tasks[..i + 1][..i] == tasks[..i];
      var verdict := Verdict(tasks[i]);
      if verdict.Err? {
        assert Kept(tasks[..i + 1], Verdict).Err?;
        KeptFailsLater(tasks, Verdict, i + 1);
        return Err(verdict.error);
      }
      if verdict.value {
        cleaned := cleaned + [tasks[i]];
      } else {
        removed := removed + 1;
      }
    }
    assert tasks[..|tasks|] == tasks;
    return Ok((cleaned, removed));
  }

  /** Once a prefix fails, the whole run fails with the same error. */
  lemma {:induction false} KeptFailsLater(tasks: seq<Json>, keep: Json -> Result<bool>, n: nat)
    requires n <= |tasks| && Kept(tasks[..n], keep).Err?
    ensures Kept(tasks, keep).Err? && Kept(tasks, keep).error == Kept(tasks[..n], keep).error
    decreases |tasks| - n
  {
    if n < |tasks| {
      assert tasks[..n + 1][..n] == tasks[..n];
      KeptFailsLater(tasks, keep, n + 1);
    } else {
      assert tasks[..n] == tasks;
    }
  }

  /** Exactly the tasks the verdict keeps are kept. */
  lemma {:induction false} KeptMembers(tasks: seq<Json>, keep: Json -> Result<bool>)
    requires Kept(tasks, keep).Ok?
    ensures forall t :: t in Kept(tasks, keep).value <==> t in tasks && keep(t) == Ok(true)
  {
    if tasks != [] {
      var init := tasks[..|tasks| - 1];
      KeptMembers(init, keep);
      assert tasks == init + [tasks[|tasks| - 1]];
      forall t | t in init ensures keep(t).Ok? {
        KeptReadable(init, keep, t);
      }
    }
  }

  /** The clean-up keeps exactly the tasks whose prompt it can read and is not trash. */
  lemma {:induction false} CleanupKeepsTasks(tasks: seq<Json>)
    requires Kept(tasks, Verdict).Ok?
    ensures forall t :: t in Kept(tasks, Verdict).value <==> t in tasks && PromptOf(t).Ok? && !IsTrash(PromptOf(t).value)
  {
    KeptMembers(tasks, Verdict);
  }

  /** A successful run could judge every task. */
  lemma {:induction false} KeptReadable(tasks: seq<Json>, keep: Json -> Result<bool>, t: Json)
    requires Kept(tasks, keep).Ok? && t in tasks
    ensures keep(t).Ok?
  {
    var init := tasks[..|tasks| - 1];
    if t != tasks[|tasks| - 1] {
      assert tasks == init + [tasks[|tasks| - 1]];
      KeptReadable(init, keep, t);
    }
  }

  /** `s` is `t` with some elements removed, the rest in their order. */
  predicate Subsequence(s: seq<Json>, t: seq<Json>) {
    if s == [] then true
    else if t == [] then false
    else if s[|s| - 1] == t[|t| - 1] then Subsequence(s[..|s| - 1], t[..|t| - 1])
    else Subsequence(s, t[..|t| - 1])
  }

  lemma {:induction false} SubsequenceExtend(s: seq<Json>, t: seq<Json>, x: Json)
    requires Subsequence(s, t)
    ensures Subsequence(s, t + [x])
    decreases |t|, 1
  {
    var tx := t + [x];
    assert tx[..|tx| - 1] == t;
    if s != [] && s[|s| - 1] == x {
      SubsequenceDrop(s, t);
    }
  }

  lemma {:induction false} SubsequenceDrop(s: seq<Json>, t: seq<Json>)
    requires s != [] && Subsequence(s, t)
    ensures Subsequence(s[..|s| - 1], t)
    decreases |t|, 0
  {
    if t != [] {
      if s[|s| - 1] == t[|t| - 1] {
        SubsequenceExtend(s[..|s| - 1], t[..|t| - 1], t[|t| - 1]);
        assert t[..|t| - 1] + [t[|t| - 1]] == t;
      } else {
        SubsequenceDrop(s, t[..|t| - 1]);
        SubsequenceExtend(s[..|s| - 1], t[..|t| - 1], t[|t| - 1]);
        assert t[..|t| - 1] + [t[|t| - 1]] == t;
      }
    }
  }

  lemma {:induction false} SubsequenceSnoc(s: seq<Json>, t: seq<Json>, x: Json)
    requires Subsequence(s, t)
    ensures Subsequence(s + [x], t + [x])
  {
    var sx, tx := s + [x], t + [x];
    assert sx[..|sx| - 1] == s && sx[|sx| - 1] == x;
    assert tx[..|tx| - 1] == t && tx[|tx| - 1] == x;
  }

  /** Kept tasks stay in their original order. */
  lemma {:induction false} KeptInOrder(tasks: seq<Json>, keep: Json -> Result<bool>)
    requires Kept(tasks, keep).Ok?
    ensures Subsequence(Kept(tasks, keep).value, tasks)
  {
    if tasks != [] {
      var init := tasks[..|tasks| - 1];
      var last := tasks[|tasks| - 1];
      KeptInOrder(init, keep);
      var k := Kept(init, keep).value;
      assert init + [last] == tasks;
      if keep(last).value {
        SubsequenceSnoc(k, init, last);
      } else {
        SubsequenceExtend(k, init, last);
      }
    }
  }

  /** A task without a prompt is dropped. */
  lemma {:induction false} NoPromptDropped(task: Json)
    requires task.JObj? && Member(task, "prompt").None?
    ensures Verdict(task) == Ok(false)
  {
    assert PyStr.Strip("") == "";
  }

  /** A non-object task, or a prompt that is not text, stops the clean-up with its error. */
  lemma {:induction false} UnreadableStops(tasks: seq<Json>, i: nat)
    requires i < |tasks| && Kept(tasks[..i], Verdict).Ok? && PromptOf(tasks[i]).Err?
    ensures Kept(tasks, Verdict) == Err(PromptOf(tasks[i]).error)
  {
    var v := Verdict(tasks[i]);
    assert v.Err? && v.error == PromptOf(tasks[i]).error;
    assert tasks[..i + 1][..i] == tasks[..i] && tasks[..i + 1][i] == tasks[i];
    assert Kept(tasks[..i + 1], Verdict) == Err(v.error);
    KeptFailsLater(tasks, Verdict, i + 1);
  }

  /** Cleaning a cleaned list changes nothing: the verdict depends on the task alone. */
  lemma {:induction false} CleanupIdempotent(tasks: seq<Json>, keep: Json -> Result<bool>)
    requires Kept(tasks, keep).Ok?
    ensures Kept(Kept(tasks, keep).value, keep) == Kept(tasks, keep)
  {
    if tasks != [] {
      var init := tasks[..|tasks| - 1];
      var last := tasks[|tasks| - 1];
      CleanupIdempotent(init, keep);
      var k := Kept(init, keep).value;
      if keep(last).value {
        var kl := k + [last];
        assert kl[..|kl| - 1] == k && kl[|kl| - 1] == last;
      }
    }
  }
}
