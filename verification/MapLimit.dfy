/** The bounded parallel map (packages/workers/src/base-worker.ts, mapLimit): up to `limit`
    tasks share one counter, in any interleaving. */
module MapLimit {
  import opened Common

  /** What a task is doing between awaits: about to look at the counter, awaiting the call for
      an item, or returned. */
  datatype Task = Ready | Running(i: nat) | Finished

  datatype State<R> = State(next: nat, tasks: seq<Task>, results: seq<Option<R>>)

  function Initial<R>(items: nat, limit: int): State<R> {
    State(0, seq(if limit < 0 then 0 else Min(limit, items), _ => Ready), seq(items, _ => None))
  }

  /** Task t takes its next step: a running call returns its value, a ready task takes an item
      or finds none left. */
  function Next<T, R>(s: State<R>, items: seq<T>, f: (T, nat) -> R, t: nat): State<R>
    requires |s.results| == |items|
  {
    if t >= |s.tasks| then s
    else match s.tasks[t]
      case Running(i) =>
        if i >= |items| then s else s.(tasks := s.tasks[t := Ready], results := s.results[i := Some(f(items[i], i))])
      case Ready =>
        if s.next < |items| then s.(tasks := s.tasks[t := Running(s.next)], next := s.next + 1)
        else s.(tasks := s.tasks[t := Finished])
      case Finished => s
  }

  class Mapper<T, R> {
    const items: seq<T>
    const f: (T, nat) -> R
    var next: nat
    var tasks: seq<Task>
    const results: array<Option<R>>

    ghost predicate Valid()
      reads this
    {
      results.Length == |items|
    }

    function View(): State<R>
      reads this, results
    {
      State(next, tasks, results[..])
    }

    constructor (items: seq<T>, limit: int, f: (T, nat) -> R)
      ensures Valid() && fresh(results) && this.items == items && this.f == f
      ensures View() == Initial(|items|, limit)
    {
      this.items, this.f, next := items, f, 0;
      tasks := seq(if limit < 0 then 0 else Min(limit, |items|), _ => Ready);
      results := new Option<R>[|items|](_ => None);
      new;
      assert results[..] == seq(|items|, _ => None);
    }

    method Step(t: nat)
      requires Valid()
      modifies this, results
      ensures Valid() && View() == Next(old(View()), items, f, t)
    {
      if t >= |tasks| { return; }
      match tasks[t]
      case Running(i) =>
        if i < |items| {
          results[i] := Some(f(items[i], i));
          tasks := tasks[t := Ready];
        }
      case Ready =>
        if next < |items| {
          tasks := tasks[t := Running(next)];
          next := next + 1;
        } else {
          tasks := tasks[t := Finished];
        }
      case Finished =>
    }
  }

  // ---- Every interleaving ----

  /** The state after the tasks named in `order` took their steps. */
  function After<T, R>(items: seq<T>, limit: int, f: (T, nat) -> R, order: seq<nat>): (s: State<R>)
    ensures |s.results| == |items|
  {
    if order == [] then Initial(|items|, limit)
    else Next(After(items, limit, f, order[..|order| - 1]), items, f, order[|order| - 1])
  }

  /** The items whose calls were started, in order of starting. */
  function Started<T, R>(items: seq<T>, limit: int, f: (T, nat) -> R, order: seq<nat>): seq<nat> {
    if order == [] then []
    else
      var earlier, t := order[..|order| - 1], order[|order| - 1];
      var s := After(items, limit, f, earlier);
      Started(items, limit, f, earlier)
      + if t < |s.tasks| && s.tasks[t] == Ready && s.next < |items| then [s.next] else []
  }

  ghost predicate InFlight<R>(s: State<R>, i: nat) {
    exists t :: 0 <= t < |s.tasks| && s.tasks[t] == Running(i)
  }

  /** The counter has handed out 0..next-1; each such item is in flight in one task or has its result. */
  ghost predicate Sound<T, R>(s: State<R>, items: seq<T>, limit: int, f: (T, nat) -> R) {
    && s.next <= |items| && |s.results| == |items|
    && |s.tasks| == (if limit < 0 then 0 else Min(limit, |items|))
    && (forall t :: 0 <= t < |s.tasks| && s.tasks[t].Running? ==> s.tasks[t].i < s.next && s.results[s.tasks[t].i] == None)
    && (forall t, u :: 0 <= t < u < |s.tasks| && s.tasks[t].Running? ==> s.tasks[t] != s.tasks[u])
    && (forall t :: 0 <= t < |s.tasks| && s.tasks[t] == Finished ==> s.next == |items|)
    && (forall i :: 0 <= i < |items| ==>
          if i < s.next then s.results[i] == Some(f(items[i], i)) || (s.results[i] == None && InFlight(s, i))
          else s.results[i] == None)
  }

  lemma StepKeepsSound<T, R>(s: State<R>, items: seq<T>, limit: int, f: (T, nat) -> R, t: nat)
    requires Sound(s, items, limit, f)
    ensures Sound(Next(s, items, f, t), items, limit, f)
  {
    var s' := Next(s, items, f, t);
    if t < |s.tasks| && s.tasks[t] != Finished {
      forall i | 0 <= i < |items|
        ensures if i < s'.next then s'.results[i] == Some(f(items[i], i)) || (s'.results[i] == None && InFlight(s', i))
                else s'.results[i] == None
      {
        if i < s.next && s.results[i] == None {
          var u :| 0 <= u < |s.tasks| && s.tasks[u] == Running(i);
          if u != t { assert s'.tasks[u] == Running(i); }
        } else if i == s.next && s.tasks[t] == Ready {
          assert s.next < |items| ==> s'.tasks[t] == Running(i);
        }
      }
    }
  }

  /** In every interleaving the started items are exactly 0, 1, ..., next - 1, each once. */
  lemma {:induction false} StartsEachOnce<T, R>(items: seq<T>, limit: int, f: (T, nat) -> R, order: seq<nat>)
    ensures Sound(After(items, limit, f, order), items, limit, f)
    ensures Started(items, limit, f, order) == seq(After(items, limit, f, order).next, i => i)
  {
    hide Sound, Next;
    if order == [] {
      StartIsSound(items, limit, f);
    } else {
      var earlier, t := order[..|order| - 1], order[|order| - 1];
      var s := After(items, limit, f, earlier);
      StartsEachOnce(items, limit, f, earlier);
      StepKeepsSound(s, items, limit, f, t);
      StepCounts(s, items, f, t);
      assert seq(s.next + 1, i => i) == seq(s.next, i => i) + [s.next];
    }
  }

  lemma StartIsSound<T, R>(items: seq<T>, limit: int, f: (T, nat) -> R)
    ensures Sound(Initial(|items|, limit), items, limit, f)
  {
  }

  lemma StepCounts<T, R>(s: State<R>, items: seq<T>, f: (T, nat) -> R, t: nat)
    requires |s.results| == |items|
    ensures Next(s, items, f, t).next
            == s.next + if t < |s.tasks| && s.tasks[t] == Ready && s.next < |items| then 1 else 0
  {
  }

  /** How many calls are in flight. */
  function RunningCount(tasks: seq<Task>): nat {
    if tasks == [] then 0 else RunningCount(tasks[..|tasks| - 1]) + if tasks[|tasks| - 1].Running? then 1 else 0
  }

  function UnfinishedCount(tasks: seq<Task>): nat {
    if tasks == [] then 0 else UnfinishedCount(tasks[..|tasks| - 1]) + if tasks[|tasks| - 1] == Finished then 0 else 1
  }

  lemma {:induction false} CountsAfterUpdate(tasks: seq<Task>, t: nat, task: Task)
    requires t < |tasks|
    ensures RunningCount(tasks[t := task]) == RunningCount(tasks) + (if task.Running? then 1 else 0) - (if tasks[t].Running? then 1 else 0)
    ensures UnfinishedCount(tasks[t := task]) == UnfinishedCount(tasks) + (if task == Finished then 0 else 1) - (if tasks[t] == Finished then 0 else 1)
    ensures RunningCount(tasks) <= |tasks|
  {
    var n := |tasks| - 1;
    if t < n {
      assert tasks[t := task][..n] == tasks[..n][t := task];
      CountsAfterUpdate(tasks[..n], t, task);
    } else {
      assert tasks[t := task][..n] == tasks[..n];
      if n > 0 { CountsAfterUpdate(tasks[..n], 0, task); }
    }
  }

  /** What is left to do: two steps an item not yet started, one for each call in flight, and
      one for each task that has to find the list exhausted. */
  function Work<R>(s: State<R>): int {
    2 * (|s.results| - s.next) + RunningCount(s.tasks) + UnfinishedCount(s.tasks)
  }

  /** Every step of an unfinished task does exactly one unit of the work left: no schedule can
      run forever, and none can stop early. */
  lemma EveryStepDoesWork<T, R>(s: State<R>, items: seq<T>, limit: int, f: (T, nat) -> R, t: nat)
    requires Sound(s, items, limit, f) && t < |s.tasks| && s.tasks[t] != Finished
    ensures Work(Next(s, items, f, t)) == Work(s) - 1
  {
    CountsAfterUpdate(s.tasks, t, Next(s, items, f, t).tasks[t]);
  }

  lemma {:induction false} AtMostLimitInFlight<T, R>(items: seq<T>, limit: int, f: (T, nat) -> R, order: seq<nat>)
    ensures RunningCount(After(items, limit, f, order).tasks) <= Max(0, Min(limit, |items|))
  {
    StartsEachOnce(items, limit, f, order);
    var tasks := After(items, limit, f, order).tasks;
    if tasks != [] { CountsAfterUpdate(tasks, 0, tasks[0]); }
  }

  ghost predicate Complete<R>(s: State<R>) {
    forall t :: 0 <= t < |s.tasks| ==> s.tasks[t] == Finished
  }

  /** When all tasks have returned every result is that of its item, in item order, exactly when
      the limit allowed a task at all: a limit below one resolves at once to a list of holes. */
  lemma ResultsAtCompletion<T, R>(items: seq<T>, limit: int, f: (T, nat) -> R, order: seq<nat>)
    requires Complete(After(items, limit, f, order))
    ensures (limit >= 1 || items == [])
            <==> After(items, limit, f, order).results == seq(|items|, i requires 0 <= i < |items| => Some(f(items[i], i)))
  {
    StartsEachOnce(items, limit, f, order);
    var s := After(items, limit, f, order);
    if limit >= 1 && items != [] { assert s.tasks[0] == Finished; }
    if limit < 1 && items != [] {
      NoTasksNoResults(items, limit, f, order);
      assert s.results[0] == None;
    }
  }

  lemma {:induction false} NoTasksNoResults<T, R>(items: seq<T>, limit: int, f: (T, nat) -> R, order: seq<nat>)
    requires limit < 1
    ensures After(items, limit, f, order) == Initial(|items|, limit)
  {
    if order != [] { NoTasksNoResults(items, limit, f, order[..|order| - 1]); }
  }
}
