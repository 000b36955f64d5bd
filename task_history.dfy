/**
 * The task history: a list of at most fifty recent tasks with their status,
 * kept in memory (loading and saving the JSON file is not modelled).
 */
module TaskHistory {
  import opened Wrappers
  import PyStr

  /**
   * One history entry. `stamp` is `str(timestamp)`, the text a task can also
   * be deleted by.
   */
  datatype Task = Task(id: string, stamp: string, date: string, prompt: string, status: string, logPath: string, resultSummary: string)

  const MaxTasks := 50
  const SummaryLimit := 200

  /** `history[-50:]` when the list is longer than fifty. */
  function KeepLast(h: seq<Task>): (r: seq<Task>)
    ensures |r| <= MaxTasks || r == h
    ensures |h| <= MaxTasks ==> r == h
    ensures |h| > MaxTasks ==> |r| == MaxTasks && r == h[|h| - MaxTasks..]
  {
    if |h| > MaxTasks then h[|h| - MaxTasks..] else h
  }

  /** A summary as stored: at most 200 characters, then "..." if it was longer. */
  function CappedSummary(s: string): (r: string)
    ensures |r| <= SummaryLimit + 3
    ensures PyStr.StartsWith(r, PyStr.Take(s, SummaryLimit))
    ensures |s| <= SummaryLimit ==> r == s
  {
    if |s| > SummaryLimit then s[..SummaryLimit] + "..." else s
  }

  /** The index of the first task with the given id. */
  function FirstWithId(h: seq<Task>, id: string): (r: Option<nat>)
    ensures r.Some? ==> r.value < |h| && h[r.value].id == id && forall j :: 0 <= j < r.value ==> h[j].id != id
    ensures r.None? ==> forall j :: 0 <= j < |h| ==> h[j].id != id
  {
    if h == [] then None
    else if h[0].id == id then Some(0)
    else match FirstWithId(h[1..], id)
      case None => None
      case Some(i) => Some(i + 1)
  }

  /** An entry after `update_status`: the new status, and the capped summary when one was given. */
  function WithStatus(t: Task, status: string, summary: Option<string>): Task {
    t.(status := status, resultSummary := if summary.Some? && summary.value != "" then CappedSummary(summary.value) else t.resultSummary)
  }

  /** The history after `update_status`: the same tasks, by id and prompt, in the same order. */
  function StatusUpdated(h: seq<Task>, id: string, status: string, summary: Option<string>): (r: seq<Task>)
    ensures |r| == |h|
    ensures forall j :: 0 <= j < |h| ==> r[j].id == h[j].id && r[j].prompt == h[j].prompt
  {
    match FirstWithId(h, id)
    case None => h
    case Some(i) => h[i := WithStatus(h[i], status, summary)]
  }

  /**
   * `update_status` touches the first entry with the id and nothing else:
   * that entry gets the new status and, when a non-empty summary is given,
   * the capped summary, every other field kept; without such an entry the
   * history is unchanged.
   */
  lemma {:induction false} UpdateTouchesFirstMatch(h: seq<Task>, id: string, status: string, summary: Option<string>)
    ensures var r := StatusUpdated(h, id, status, summary);
      |r| == |h| &&
      (forall j :: 0 <= j < |h| && h[j].id != id ==> r[j] == h[j]) &&
      (forall j :: 0 <= j < |h| && h[j].id == id ==>
         (r[j].status == status && r[j].id == id && r[j].prompt == h[j].prompt) ||
         (r[j] == h[j] && exists k :: 0 <= k < j && h[k].id == id))
    ensures FirstWithId(h, id).None? ==> StatusUpdated(h, id, status, summary) == h
    ensures FirstWithId(h, id).Some? ==>
      var i, r := FirstWithId(h, id).value, StatusUpdated(h, id, status, summary);
      (forall j :: 0 <= j < |h| && j != i ==> r[j] == h[j])
      && r[i] == h[i].(status := status,
                       resultSummary := if summary.Some? && summary.value != "" then CappedSummary(summary.value) else h[i].resultSummary)
  {
    var r := StatusUpdated(h, id, status, summary);
    match FirstWithId(h, id)
    case None =>
    case Some(i) =>
      forall j | 0 <= j < |h| && h[j].id == id && j != i
        ensures r[j] == h[j] && exists k :: 0 <= k < j && h[k].id == id
      {
        assert 0 <= i < j;
      }
  }

  /** The in-progress tasks, newest first. */
  function Incomplete(h: seq<Task>): (r: seq<Task>)
    ensures forall t :: t in r <==> t in h && t.status == "in_progress"
  {
    if h == [] then []
    else
      var last := h[|h| - 1];
      (if last.status == "in_progress" then [last] else []) + Incomplete(h[..|h| - 1])
  }

  /** The in-progress tasks in history order. */
  function InProgress(h: seq<Task>): seq<Task> {
    if h == [] then [] else (if h[0].status == "in_progress" then [h[0]] else []) + InProgress(h[1..])
  }

  function Reversed<T>(s: seq<T>): seq<T> {
    if s == [] then [] else Reversed(s[1..]) + [s[0]]
  }

  lemma {:induction false} ReversedAppend<T>(a: seq<T>, b: seq<T>)
    ensures Reversed(a + b) == Reversed(b) + Reversed(a)
  {
    if a == [] {
      assert a + b == b;
    } else {
      assert (a + b)[1..] == a[1..] + b;
      ReversedAppend(a[1..], b);
    }
  }

  lemma {:induction false} InProgressAppend(a: seq<Task>, b: seq<Task>)
    ensures InProgress(a + b) == InProgress(a) + InProgress(b)
  {
    if a == [] {
      assert a + b == b;
    } else {
      assert (a + b)[1..] == a[1..] + b;
      InProgressAppend(a[1..], b);
    }
  }

  /** `get_incomplete_tasks` is the history filtered to in-progress tasks, then reversed. */
  lemma {:induction false} IncompleteIsReversedFilter(h: seq<Task>)
    ensures Incomplete(h) == Reversed(InProgress(h))
  {
    if h != [] {
      var init := h[..|h| - 1];
      var last := h[|h| - 1];
      var tail := if last.status == "in_progress" then [last] else [];
      IncompleteIsReversedFilter(init);
      assert h == init + [last];
      InProgressAppend(init, [last]);
      assert InProgress([last]) == tail;
      ReversedAppend(InProgress(init), tail);
      assert Reversed(tail) == tail;
      calc {
        Reversed(InProgress(h));
        Reversed(InProgress(init) + tail);
        tail + Reversed(InProgress(init));
        tail + Incomplete(init);
      }
    }
  }

  /** A task `delete_task` removes: matching by id or by the text of its timestamp. */
  predicate DeletedBy(t: Task, key: string) {
    t.id == key || t.stamp == key
  }

  /** The history after `delete_task`, every other task in its order. */
  function Deleted(h: seq<Task>, key: string): (r: seq<Task>)
    ensures |r| <= |h|
    ensures forall t :: t in r <==> t in h && !DeletedBy(t, key)
  {
    if h == [] then []
    else (if DeletedBy(h[0], key) then [] else [h[0]]) + Deleted(h[1..], key)
  }

  /** Deleting twice by the same key is deleting once. */
  lemma {:induction false} DeleteIdempotent(h: seq<Task>, key: string)
    ensures Deleted(Deleted(h, key), key) == Deleted(h, key)
  {
    if h != [] {
      DeleteIdempotent(h[1..], key);
      if !DeletedBy(h[0], key) {
        assert Deleted(h, key) == [h[0]] + Deleted(h[1..], key);
        assert Deleted(h, key)[1..] == Deleted(h[1..], key);
      } else {
        assert Deleted(h, key) == Deleted(h[1..], key);
      }
    }
  }

  /** A key no task matches deletes nothing. */
  lemma {:induction false} DeleteAbsent(h: seq<Task>, key: string)
    requires forall t :: t in h ==> !DeletedBy(t, key)
    ensures Deleted(h, key) == h
  {
    if h != [] {
      assert h[0] in h;
      assert forall t :: t in h[1..] ==> t in h;
      DeleteAbsent(h[1..], key);
      assert h == [h[0]] + h[1..];
    }
  }

  class TaskHistory {
    var history: seq<Task>

    /** A history read from the file (or empty). */
    constructor (loaded: seq<Task>)
      ensures history == loaded
    {
      history := loaded;
    }

    /**
     * `add_task`; `nowMillis`, `stamp` and `date` are the clock readings the
     * source takes.
     */
    method AddTask(prompt: string, logPath: string, status: string, nowMillis: nat, stamp: string, date: string) returns (taskId: string)
      modifies this
      ensures taskId == PyStr.NatToString(nowMillis)
      ensures history == KeepLast(old(history) + [Task(taskId, stamp, date, prompt, status, logPath, "")])
      ensures |history| <= MaxTasks && history != []
      ensures history[|history| - 1] == Task(taskId, stamp, date, prompt, status, logPath, "")
    {
      taskId := PyStr.NatToString(nowMillis);
      var entry := Task(taskId, stamp, date, prompt, status, logPath, "");
      history := history + [entry];
      if |history| > MaxTasks {
        history := history[|history| - MaxTasks..];
      }
    }

    /** `update_status`: a search for the first entry with the id. */
    method UpdateStatus(taskId: string, status: string, summary: Option<string>)
      modifies this
      ensures history == StatusUpdated(old(history), taskId, status, summary)
    {
      var i := 0;
      while i < |history|
        invariant 0 <= i <= |history| && history == old(history)
        invariant forall j :: 0 <= j < i ==> history[j].id != taskId
      {
        if history[i].id == taskId {
          assert FirstWithId(history, taskId) == Some(i);
          history := history[i := WithStatus(history[i], status, summary)];
          return;
        }
        i := i + 1;
      }
    }

    /** `get_incomplete_tasks` */
    function GetIncompleteTasks(): (r: seq<Task>)
      reads this
      ensures forall t :: t in r <==> t in history && t.status == "in_progress"
    {
      Incomplete(history)
    }

    /** `delete_task` */
    method DeleteTask(key: string)
      modifies this
      ensures history == Deleted(old(history), key)
    {
      history := Deleted(history, key);
    }

    /** `clear_history` */
    method ClearHistory()
      modifies this
      ensures history == []
    {
      history := [];
    }
  }
}
