/** One run of a script's action tree (packages/workers/src/script-engine.ts). */
module ScriptRuns {
  import opened Common
  import opened ScriptConfigs

  /** What evaluating a step's condition does. */
  datatype Verdict = Holds | Fails | Throws

  /** What the surroundings decide at one loop turn: how much time passed since the last clock
      reading, the condition, how long the action takes and whether it works, and how long it takes
      to log its failure if not. */
  datatype Draw = Draw(tick: nat, verdict: Verdict, duration: nat, ok: bool, logging: nat) {
    function Spent(): nat {
      duration + if ok then 0 else logging
    }
  }

  type World = nat -> Draw

  datatype Result = Skipped | Threw | Entered | Ran(ok: bool)

  /** The step with this number, counted in document order, had its turn. */
  datatype Turn = Turn(step: nat, draw: nat, at: int, until: int, result: Result) {
    predicate Bad() {
      result == Threw || result == Ran(false)
    }
  }

  /** The turns of a run, the clock and the number of draws after it. */
  datatype Run = Run(turns: seq<Turn>, failed: bool, now: int, drawn: nat) {
    function Then(next: Run): Run {
      Run(turns + next.turns, failed || next.failed, next.now, next.drawn)
    }
  }

  predicate Reached(deadline: Option<int>, now: int) {
    deadline.Some? && now >= deadline.value
  }

  ghost function RunActions(steps: seq<Step>, first: nat, deadline: Option<int>, world: World, now: int, drawn: nat): Run
    decreases steps, 0
  {
    if steps == [] then Run([], false, now, drawn)
    else
      var d := world(drawn);
      if Reached(deadline, now + d.tick) then Run([], false, now + d.tick, drawn + 1)
      else
        var r := RunStep(steps[0], first, deadline, world, now + d.tick, drawn);
        r.Then(RunActions(steps[1..], first + CountStep(steps[0]), deadline, world, r.now, r.drawn))
  }

  ghost function RunStep(step: Step, number: nat, deadline: Option<int>, world: World, now: int, drawn: nat): Run
    decreases step, 1
  {
    var d := world(drawn);
    if step.guarded && d.verdict == Throws then
      Run([Turn(number, drawn, now, now + d.logging, Threw)], true, now + d.logging, drawn + 1)
    else if step.guarded && d.verdict == Fails then
      Run([Turn(number, drawn, now, now, Skipped)], false, now, drawn + 1)
    else if step.If? then
      Run([Turn(number, drawn, now, now, Entered)], false, now, drawn + 1)
      .Then(RunActions(step.body, number + 1, deadline, world, now, drawn + 1))
    else
      Run([Turn(number, drawn, now, now + d.Spent(), Ran(d.ok))], !d.ok, now + d.Spent(), drawn + 1)
  }

  // ---- Which steps have a turn, and when ----

  /** Turns in document order, each step at most once, one after the other in time, none at or
      after the deadline. */
  ghost predicate Orderly(turns: seq<Turn>, deadline: Option<int>) {
    && (forall i :: 0 <= i < |turns| ==> turns[i].at <= turns[i].until && !Reached(deadline, turns[i].at))
    && (forall i, j :: 0 <= i < j < |turns| ==>
          turns[i].step < turns[j].step && turns[i].draw < turns[j].draw && turns[i].until <= turns[j].at)
  }

  ghost predicate Within(r: Run, first: nat, last: nat, start: int, drawn: nat) {
    && start <= r.now && drawn <= r.drawn
    && (forall i :: 0 <= i < |r.turns| ==>
          first <= r.turns[i].step < last && drawn <= r.turns[i].draw < r.drawn && start <= r.turns[i].at && r.turns[i].until <= r.now)
  }

  lemma OrderlyThen(r: Run, next: Run, first: nat, middle: nat, last: nat, start: int, drawn: nat,
                    deadline: Option<int>)
    requires Orderly(r.turns, deadline) && Within(r, first, middle, start, drawn)
    requires Orderly(next.turns, deadline) && Within(next, middle, last, r.now, r.drawn)
    requires first <= middle <= last
    ensures Orderly(r.Then(next).turns, deadline) && Within(r.Then(next), first, last, start, drawn)
  {
  }

  lemma {:induction false} ActionsOrderly(steps: seq<Step>, first: nat, deadline: Option<int>, world: World, now: int, drawn: nat)
    ensures var r := RunActions(steps, first, deadline, world, now, drawn);
            Orderly(r.turns, deadline) && Within(r, first, first + Count(steps), now, drawn)
    decreases steps, 0
  {
    hide RunStep, CountStep, Orderly, Within;
    var start := now + world(drawn).tick;
    if steps == [] {
      NoTurns(first, 0, now, now, drawn, drawn, deadline);
    } else if Reached(deadline, start) {
      NoTurns(first, Count(steps), now, start, drawn, drawn + 1, deadline);
    } else {
      var n := CountStep(steps[0]);
      var r := RunStep(steps[0], first, deadline, world, start, drawn);
      StepOrderly(steps[0], first, deadline, world, start, drawn);
      ActionsOrderly(steps[1..], first + n, deadline, world, r.now, r.drawn);
      var next := RunActions(steps[1..], first + n, deadline, world, r.now, r.drawn);
      StartsEarlier(r, first, first + n, start, now, drawn);
      OrderlyThen(r, next, first, first + n, first + Count(steps), now, drawn, deadline);
    }
  }

  lemma NoTurns(first: nat, n: nat, start: int, now: int, drawn: nat, drawn': nat, deadline: Option<int>)
    requires start <= now && drawn <= drawn'
    ensures Orderly([], deadline) && Within(Run([], false, now, drawn'), first, first + n, start, drawn)
  {
  }

  lemma LastLater(r: Run, first: nat, last: nat, later: nat, start: int, drawn: nat)
    requires Within(r, first, last, start, drawn) && last <= later
    ensures Within(r, first, later, start, drawn)
  {
  }

  lemma StartsEarlier(r: Run, first: nat, last: nat, start: int, earlier: int, drawn: nat)
    requires Within(r, first, last, start, drawn) && earlier <= start
    ensures Within(r, first, last, earlier, drawn)
  {
  }

  lemma OneTurn(t: Turn, failed: bool, deadline: Option<int>)
    requires t.at <= t.until && !Reached(deadline, t.at)
    ensures Orderly([t], deadline) && Within(Run([t], failed, t.until, t.draw + 1), t.step, t.step + 1, t.at, t.draw)
  {
  }

  lemma {:induction false} StepOrderly(step: Step, number: nat, deadline: Option<int>, world: World, now: int, drawn: nat)
    requires !Reached(deadline, now)
    ensures var r := RunStep(step, number, deadline, world, now, drawn);
            Orderly(r.turns, deadline) && Within(r, number, number + CountStep(step), now, drawn)
    decreases step, 1
  {
    hide RunActions, Count, Orderly, Within;
    var d := world(drawn);
    if !step.If? || (step.guarded && d.verdict != Holds) {
      var r := RunStep(step, number, deadline, world, now, drawn);
      OneTurn(r.turns[0], r.failed, deadline);
      LastLater(r, number, number + 1, number + CountStep(step), now, drawn);
    } else {
      var entered := Run([Turn(number, drawn, now, now, Entered)], false, now, drawn + 1);
      OneTurn(entered.turns[0], false, deadline);
      ActionsOrderly(step.body, number + 1, deadline, world, now, drawn + 1);
      OrderlyThen(entered, RunActions(step.body, number + 1, deadline, world, now, drawn + 1),
                  number, number + 1, number + CountStep(step), now, drawn, deadline);
    }
  }

  // ---- Which step comes next ----

  /** The steps of a tree in document order. */
  function Flat(steps: seq<Step>): (all: seq<Step>)
    ensures |all| == Count(steps)
  {
    if steps == [] then [] else FlatStep(steps[0]) + Flat(steps[1..])
  }

  function FlatStep(step: Step): (all: seq<Step>)
    ensures |all| == CountStep(step)
  {
    [step] + if step.If? then Flat(step.body) else []
  }

  /** What a step does with a draw. */
  function Expected(step: Step, d: Draw): Result {
    if step.guarded && d.verdict == Throws then Threw
    else if step.guarded && d.verdict == Fails then Skipped
    else if step.If? then Entered
    else Ran(d.ok)
  }

  /** The number of the step that follows a turn in document order: an entered `if` leads to its
      own first action, any other turn to whatever follows the step and its nested actions. */
  function Next(t: Turn, tree: seq<Step>): nat
    requires t.step < |tree|
  {
    if t.result == Entered then t.step + 1 else t.step + CountStep(tree[t.step])
  }

  /** The turns lead from step `from` to step `to` without leaving one out, each with the result
      its draw demands. */
  ghost predicate Leads(turns: seq<Turn>, from: nat, to: nat, tree: seq<Step>, world: World) {
    if turns == [] then from == to
    else
      var t := turns[0];
      && t.step == from < |tree|
      && t.result == Expected(tree[from], world(t.draw))
      && Leads(turns[1..], Next(t, tree), to, tree, world)
  }

  lemma {:induction false} LeadsOn(a: seq<Turn>, b: seq<Turn>, from: nat, middle: nat, to: nat, tree: seq<Step>, world: World)
    requires Leads(a, from, middle, tree, world) && Leads(b, middle, to, tree, world)
    ensures Leads(a + b, from, to, tree, world)
  {
    if a == [] {
      assert a + b == b;
    } else {
      LeadsOn(a[1..], b, Next(a[0], tree), middle, to, tree, world);
      assert (a + b)[1..] == a[1..] + b;
    }
  }

  ghost predicate Holding(tree: seq<Step>, first: nat, part: seq<Step>) {
    first + |part| <= |tree| && tree[first..first + |part|] == part
  }

  /** The turns lead through the tree in document order, and they end early only at the deadline. */
  lemma {:induction false} ActionsLead(steps: seq<Step>, first: nat, tree: seq<Step>, deadline: Option<int>, world: World,
                                       now: int, drawn: nat)
      returns (to: nat)
    requires Holding(tree, first, Flat(steps))
    ensures var r := RunActions(steps, first, deadline, world, now, drawn);
            && Leads(r.turns, first, to, tree, world)
            && (to == first + Count(steps) || Reached(deadline, r.now))
    decreases steps, 0
  {
    hide RunStep, CountStep, FlatStep, Flat, Leads, Holding, RunActions, Count;
    to := first;
    LeadsNowhere(first, tree, world);
    if steps == [] {
      NoStepsLeft(first, deadline, world, now, drawn);
      NoActions();
    } else {
      NextStep(steps, 0, first, deadline, world, now, drawn);
      CountFirst(steps);
      assert steps[0..] == steps;
      var start, n := now + world(drawn).tick, CountStep(steps[0]);
      if !Reached(deadline, start) {
        var r := RunStep(steps[0], first, deadline, world, start, drawn);
        FlatParts(steps);
        Parts(tree, first, FlatStep(steps[0]), Flat(steps[1..]));
        var middle := StepLeads(steps[0], first, tree, deadline, world, start, drawn);
        var rest := ActionsLead(steps[1..], first + n, tree, deadline, world, r.now, r.drawn);
        var next := RunActions(steps[1..], first + n, deadline, world, r.now, r.drawn);
        if middle == first + n {
          LeadsOn(r.turns, next.turns, first, middle, rest, tree, world);
          to := rest;
        } else {
          StopsAtDeadline(steps[1..], first + n, deadline, world, r.now, r.drawn);
          assert r.turns + next.turns == r.turns;
          to := middle;
        }
      }
    }
  }

  lemma CountFirst(steps: seq<Step>)
    requires steps != []
    ensures Count(steps) == CountStep(steps[0]) + Count(steps[1..])
  {
  }

  lemma LeadsNowhere(from: nat, tree: seq<Step>, world: World)
    ensures Leads([], from, from, tree, world)
  {
  }

  lemma FlatParts(steps: seq<Step>)
    requires steps != []
    ensures Flat(steps) == FlatStep(steps[0]) + Flat(steps[1..])
  {
  }

  lemma Parts(tree: seq<Step>, first: nat, a: seq<Step>, b: seq<Step>)
    requires Holding(tree, first, a + b)
    ensures Holding(tree, first, a) && Holding(tree, first + |a|, b)
  {
    var whole := tree[first..first + |a + b|];
    assert whole[..|a|] == a && whole[|a|..] == b;
    assert whole[..|a|] == tree[first..first + |a|] && whole[|a|..] == tree[first + |a|..first + |a| + |b|];
  }

  lemma StopsAtDeadline(steps: seq<Step>, first: nat, deadline: Option<int>, world: World, now: int, drawn: nat)
    requires Reached(deadline, now)
    ensures var r := RunActions(steps, first, deadline, world, now, drawn);
            r.turns == [] && !r.failed && Reached(deadline, r.now)
  {
  }

  lemma StepAt(step: Step, number: nat, tree: seq<Step>)
    requires Holding(tree, number, FlatStep(step))
    ensures number < |tree| && tree[number] == step
  {
    assert tree[number..number + |FlatStep(step)|][0] == step;
  }

  lemma OneTurnLeads(t: Turn, tree: seq<Step>, world: World)
    requires t.step < |tree| && t.result == Expected(tree[t.step], world(t.draw))
    ensures Leads([t], t.step, Next(t, tree), tree, world)
  {
    assert [t][1..] == [];
  }

  lemma {:induction false} StepLeads(step: Step, number: nat, tree: seq<Step>, deadline: Option<int>, world: World,
                                     now: int, drawn: nat)
      returns (to: nat)
    requires Holding(tree, number, FlatStep(step))
    ensures var r := RunStep(step, number, deadline, world, now, drawn);
            && Leads(r.turns, number, to, tree, world)
            && (to == number + CountStep(step) || Reached(deadline, r.now))
    decreases step, 1
  {
    hide RunActions, Count, Flat, Leads, Holding;
    StepAt(step, number, tree);
    var d := world(drawn);
    to := number + CountStep(step);
    if Expected(step, d) != Entered {
      OneTurnLeads(RunStep(step, number, deadline, world, now, drawn).turns[0], tree, world);
    } else {
      var t := Turn(number, drawn, now, now, Entered);
      Parts(tree, number, [step], Flat(step.body));
      to := ActionsLead(step.body, number + 1, tree, deadline, world, now, drawn + 1);
      OneTurnLeads(t, tree, world);
      LeadsOn([t], RunActions(step.body, number + 1, deadline, world, now, drawn + 1).turns, number, number + 1, to, tree, world);
    }
  }

  /** Without a deadline and with every condition holding, every step of the tree has its turn. */
  lemma EveryStepRuns(steps: seq<Step>, world: World, now: int)
    requires forall k :: world(k).verdict == Holds
    ensures var turns := RunActions(steps, 0, None, world, now, 0).turns;
            |turns| == Count(steps) && forall i :: 0 <= i < |turns| ==> turns[i].step == i
  {
    assert Flat(steps)[0..0 + |Flat(steps)|] == Flat(steps);
    var to := ActionsLead(steps, 0, Flat(steps), None, world, now, 0);
    NothingSkipped(RunActions(steps, 0, None, world, now, 0).turns, 0, to, Flat(steps), world);
  }

  lemma {:induction false} NothingSkipped(turns: seq<Turn>, from: nat, to: nat, tree: seq<Step>, world: World)
    requires Leads(turns, from, to, tree, world)
    requires forall k :: world(k).verdict == Holds
    ensures to == from + |turns| && forall i :: 0 <= i < |turns| ==> turns[i].step == from + i
  {
    if turns != [] {
      assert Next(turns[0], tree) == from + 1;
      NothingSkipped(turns[1..], from + 1, to, tree, world);
    }
  }

  // ---- The clock of a run ----

  /** How long a turn takes: an action its own time, and every failure the time to log it. */
  function Cost(result: Result, d: Draw): nat {
    match result
    case Skipped => 0
    case Entered => 0
    case Threw => d.logging
    case Ran(ok) => if ok then d.duration else d.duration + d.logging
  }

  /** One turn a draw, each as soon as the last has ended and its clock was read; a run that was not
      stopped ends with its last turn. */
  ghost predicate Timed(r: Run, deadline: Option<int>, world: World, now: int, drawn: nat) {
    && (forall i :: 0 <= i < |r.turns| ==> OnTime(r.turns, i, world, now, drawn))
    && (Reached(deadline, r.now) || (r.drawn == drawn + |r.turns| && r.now == Until(r.turns, |r.turns|, now)))
  }

  ghost predicate OnTime(turns: seq<Turn>, i: nat, world: World, now: int, drawn: nat)
    requires i < |turns|
  {
    && turns[i].draw == drawn + i
    && turns[i].at == Until(turns, i, now) + world(drawn + i).tick
    && turns[i].until == turns[i].at + Cost(turns[i].result, world(drawn + i))
  }

  /** When the first n turns had ended. */
  ghost function Until(turns: seq<Turn>, n: nat, now: int): int
    requires n <= |turns|
  {
    if n == 0 then now else turns[n - 1].until
  }

  lemma TimedThen(r: Run, next: Run, deadline: Option<int>, world: World, now: int, drawn: nat)
    requires Timed(r, deadline, world, now, drawn)
    requires if Reached(deadline, r.now) then next.turns == [] && Reached(deadline, next.now)
             else Timed(next, deadline, world, r.now, r.drawn)
    ensures Timed(r.Then(next), deadline, world, now, drawn)
  {
    hide Reached, OnTime, Until;
    var all, n := r.turns + next.turns, |r.turns|;
    if Reached(deadline, r.now) {
      assert all == r.turns;
    } else {
      forall i | 0 <= i < |all| ensures OnTime(all, i, world, now, drawn) {
        if i < n { EarlierOnTime(r.turns, next.turns, i, world, now, drawn); }
        else { LaterOnTime(r.turns, next.turns, i - n, world, now, drawn); }
      }
      LaterUntil(r.turns, next.turns, |next.turns|, now);
    }
  }

  lemma EarlierOnTime(a: seq<Turn>, b: seq<Turn>, i: nat, world: World, now: int, drawn: nat)
    requires i < |a|
    ensures OnTime(a + b, i, world, now, drawn) == OnTime(a, i, world, now, drawn)
  {
    hide Cost;
    assert (a + b)[i] == a[i] && Until(a + b, i, now) == Until(a, i, now);
  }

  lemma LaterUntil(a: seq<Turn>, b: seq<Turn>, n: nat, now: int)
    requires n <= |b|
    ensures Until(a + b, |a| + n, now) == Until(b, n, Until(a, |a|, now))
  {
  }

  lemma LaterOnTime(a: seq<Turn>, b: seq<Turn>, i: nat, world: World, now: int, drawn: nat)
    requires i < |b|
    ensures OnTime(a + b, |a| + i, world, now, drawn) == OnTime(b, i, world, Until(a, |a|, now), drawn + |a|)
  {
    hide Cost;
    LaterUntil(a, b, i, now);
    assert drawn + (|a| + i) == drawn + |a| + i;
  }

  /** The whole timetable of a run, as its draws determine it: every turn costs what it takes and
      nothing else passes the time. */
  lemma {:induction false} ActionsTimed(steps: seq<Step>, first: nat, deadline: Option<int>, world: World, now: int, drawn: nat)
    ensures Timed(RunActions(steps, first, deadline, world, now, drawn), deadline, world, now, drawn)
    decreases steps, 0
  {
    hide RunStep, CountStep, Timed, RunActions, Reached;
    if steps == [] {
      NoStepsLeft(first, deadline, world, now, drawn);
      NothingTimed(deadline, world, now, drawn);
    } else {
      NextStep(steps, 0, first, deadline, world, now, drawn);
      assert steps[0..] == steps;
      var start, n := now + world(drawn).tick, CountStep(steps[0]);
      if Reached(deadline, start) {
        StoppedTimed(deadline, world, now, drawn);
      } else {
        var r := RunStep(steps[0], first, deadline, world, start, drawn);
        StepTimed(steps[0], first, deadline, world, now, drawn);
        if Reached(deadline, r.now) {
          StopsAtDeadline(steps[1..], first + n, deadline, world, r.now, r.drawn);
        } else {
          ActionsTimed(steps[1..], first + n, deadline, world, r.now, r.drawn);
        }
        TimedThen(r, RunActions(steps[1..], first + n, deadline, world, r.now, r.drawn), deadline, world, now, drawn);
      }
    }
  }

  lemma NothingTimed(deadline: Option<int>, world: World, now: int, drawn: nat)
    ensures Timed(Run([], false, now, drawn), deadline, world, now, drawn)
  {
  }

  lemma StoppedTimed(deadline: Option<int>, world: World, now: int, drawn: nat)
    requires Reached(deadline, now + world(drawn).tick)
    ensures Timed(Run([], false, now + world(drawn).tick, drawn + 1), deadline, world, now, drawn)
  {
  }

  lemma {:induction false} StepTimed(step: Step, number: nat, deadline: Option<int>, world: World, now: int, drawn: nat)
    ensures Timed(RunStep(step, number, deadline, world, now + world(drawn).tick, drawn), deadline, world, now, drawn)
    decreases step, 1
  {
    hide RunActions, Reached;
    var start := now + world(drawn).tick;
    if step.If? && Expected(step, world(drawn)) == Entered {
      var entered := Run([Turn(number, drawn, start, start, Entered)], false, start, drawn + 1);
      if Reached(deadline, start) {
        StopsAtDeadline(step.body, number + 1, deadline, world, start, drawn + 1);
      } else {
        ActionsTimed(step.body, number + 1, deadline, world, start, drawn + 1);
      }
      TimedThen(entered, RunActions(step.body, number + 1, deadline, world, start, drawn + 1), deadline, world, now, drawn);
    }
  }

  // ---- Failures ----

  /** A run is marked failed exactly when one of its steps failed or had a condition that threw. */
  lemma {:induction false} FailedIffBadTurn(steps: seq<Step>, first: nat, deadline: Option<int>, world: World, now: int, drawn: nat)
    ensures var r := RunActions(steps, first, deadline, world, now, drawn);
            r.failed <==> exists i :: 0 <= i < |r.turns| && r.turns[i].Bad()
    decreases steps, 0
  {
    hide RunStep;
    if steps != [] && !Reached(deadline, now + world(drawn).tick) {
      var r := RunStep(steps[0], first, deadline, world, now + world(drawn).tick, drawn);
      StepFailedIff(steps[0], first, deadline, world, now + world(drawn).tick, drawn);
      FailedIffBadTurn(steps[1..], first + CountStep(steps[0]), deadline, world, r.now, r.drawn);
      BadThen(r, RunActions(steps[1..], first + CountStep(steps[0]), deadline, world, r.now, r.drawn));
    }
  }

  ghost predicate Honest(r: Run) {
    r.failed <==> exists i :: 0 <= i < |r.turns| && r.turns[i].Bad()
  }

  lemma BadThen(r: Run, next: Run)
    requires Honest(r) && Honest(next)
    ensures Honest(r.Then(next))
  {
    var turns := r.turns + next.turns;
    if r.failed {
      var i :| 0 <= i < |r.turns| && r.turns[i].Bad();
      assert turns[i].Bad();
    }
    if next.failed {
      var i :| 0 <= i < |next.turns| && next.turns[i].Bad();
      assert turns[|r.turns| + i].Bad();
    }
  }

  lemma {:induction false} StepFailedIff(step: Step, number: nat, deadline: Option<int>, world: World, now: int, drawn: nat)
    ensures Honest(RunStep(step, number, deadline, world, now, drawn))
    decreases step, 1
  {
    hide RunActions;
    var r := RunStep(step, number, deadline, world, now, drawn);
    if Expected(step, world(drawn)) == Entered {
      FailedIffBadTurn(step.body, number + 1, deadline, world, now, drawn + 1);
      BadThen(Run([Turn(number, drawn, now, now, Entered)], false, now, drawn + 1),
              RunActions(step.body, number + 1, deadline, world, now, drawn + 1));
    } else {
      assert r.failed ==> r.turns[0].Bad();
    }
  }

  /** What a turn is apart from its times and from whether its action worked. */
  function Faded(t: Turn): Turn {
    Turn(t.step, t.draw, 0, 0, if t.result.Ran? then Ran(true) else t.result)
  }

  function AllFaded(turns: seq<Turn>): seq<Turn> {
    seq(|turns|, i requires 0 <= i < |turns| => Faded(turns[i]))
  }

  lemma FadedThen(a: seq<Turn>, b: seq<Turn>)
    ensures AllFaded(a + b) == AllFaded(a) + AllFaded(b)
  {
    hide Faded;
  }

  /** The same conditions hold, whatever works and however long it takes. */
  ghost predicate SameVerdicts(world: World, other: World) {
    forall k: nat :: world(k).verdict == other(k).verdict
  }

  /** Everything takes at least as long. */
  ghost predicate Slower(world: World, other: World) {
    forall k: nat ::
      world(k).tick >= other(k).tick && world(k).Spent() >= other(k).Spent() && world(k).logging >= other(k).logging
  }

  /** A run against the same script in other surroundings: either both have had the same turns so
      far, or the deadline has stopped it on the way there. */
  ghost predicate Lags(r: Run, other: Run, deadline: Option<int>) {
    if Reached(deadline, r.now) then AllFaded(r.turns) <= AllFaded(other.turns)
    else AllFaded(r.turns) == AllFaded(other.turns) && r.drawn == other.drawn && (deadline.Some? ==> r.now >= other.now)
  }

  lemma LagsThen(r: Run, next: Run, other: Run, nextOther: Run, deadline: Option<int>)
    requires Lags(r, other, deadline)
    requires if Reached(deadline, r.now) then next.turns == [] && Reached(deadline, next.now) else Lags(next, nextOther, deadline)
    ensures Lags(r.Then(next), other.Then(nextOther), deadline)
  {
    hide AllFaded;
    FadedThen(r.turns, next.turns);
    FadedThen(other.turns, nextOther.turns);
    if Reached(deadline, r.now) {
      assert r.turns + next.turns == r.turns;
      assert AllFaded(other.turns) <= AllFaded(other.turns) + AllFaded(nextOther.turns);
    }
  }

  /** Failures and delays never change what a script does, only how far it gets: without a deadline
      every run with the same verdicts has the same turns, and with one a slower run has the first
      of them. */
  lemma {:induction false} SlowerRunsLag(steps: seq<Step>, first: nat, deadline: Option<int>, world: World, other: World,
                                         now: int, now': int, drawn: nat)
    requires SameVerdicts(world, other) && (deadline.Some? ==> Slower(world, other) && now >= now')
    ensures Lags(RunActions(steps, first, deadline, world, now, drawn),
                 RunActions(steps, first, deadline, other, now', drawn), deadline)
    decreases steps, 0
  {
    hide RunStep, Lags, SameVerdicts, Slower;
    var start, start' := now + world(drawn).tick, now' + other(drawn).tick;
    TicksCompare(deadline, world, other, drawn);
    if steps == [] {
      NothingLags(now, now', drawn, deadline);
    } else if Reached(deadline, start) {
      StoppedLags(start, drawn + 1, RunActions(steps, first, deadline, other, now', drawn), deadline);
    } else {
      var n := CountStep(steps[0]);
      var r := RunStep(steps[0], first, deadline, world, start, drawn);
      var r' := RunStep(steps[0], first, deadline, other, start', drawn);
      SlowerStepLags(steps[0], first, deadline, world, other, start, start', drawn);
      var next := RunActions(steps[1..], first + n, deadline, world, r.now, r.drawn);
      var next' := RunActions(steps[1..], first + n, deadline, other, r'.now, r'.drawn);
      if Reached(deadline, r.now) {
        StopsAtDeadline(steps[1..], first + n, deadline, world, r.now, r.drawn);
      } else {
        LagsMeans(r, r', deadline);
        SlowerRunsLag(steps[1..], first + n, deadline, world, other, r.now, r'.now, r.drawn);
      }
      LagsThen(r, next, r', next', deadline);
    }
  }

  lemma TicksCompare(deadline: Option<int>, world: World, other: World, k: nat)
    requires deadline.Some? ==> Slower(world, other)
    ensures deadline.Some? ==> world(k).tick >= other(k).tick
  {
  }

  lemma LagsMeans(r: Run, other: Run, deadline: Option<int>)
    requires Lags(r, other, deadline) && !Reached(deadline, r.now)
    ensures r.drawn == other.drawn && (deadline.Some? ==> r.now >= other.now)
  {
  }

  lemma NothingLags(now: int, now': int, drawn: nat, deadline: Option<int>)
    requires deadline.Some? ==> now >= now'
    ensures Lags(Run([], false, now, drawn), Run([], false, now', drawn), deadline)
  {
  }

  lemma StoppedLags(now: int, drawn: nat, other: Run, deadline: Option<int>)
    requires Reached(deadline, now)
    ensures Lags(Run([], false, now, drawn), other, deadline)
  {
  }

  lemma {:induction false} SlowerStepLags(step: Step, number: nat, deadline: Option<int>, world: World, other: World,
                                          now: int, now': int, drawn: nat)
    requires SameVerdicts(world, other) && (deadline.Some? ==> Slower(world, other) && now >= now')
    ensures Lags(RunStep(step, number, deadline, world, now, drawn), RunStep(step, number, deadline, other, now', drawn), deadline)
    decreases step, 1
  {
    hide RunActions;
    assert world(drawn).verdict == other(drawn).verdict;
    if Expected(step, world(drawn)) == Entered {
      var entered, entered' := Run([Turn(number, drawn, now, now, Entered)], false, now, drawn + 1),
                               Run([Turn(number, drawn, now', now', Entered)], false, now', drawn + 1);
      if Reached(deadline, now) { StopsAtDeadline(step.body, number + 1, deadline, world, now, drawn + 1); }
      SlowerRunsLag(step.body, number + 1, deadline, world, other, now, now', drawn + 1);
      LagsThen(entered, RunActions(step.body, number + 1, deadline, world, now, drawn + 1),
               entered', RunActions(step.body, number + 1, deadline, other, now', drawn + 1), deadline);
    }
  }

  /** The same surroundings, only that every action works. */
  function Ideal(world: World): World {
    (k: nat) => world(k).(ok := true)
  }

  /** A failing action keeps no other step from its turn: the run has the turns of the run in which
      every action works, or, if the time lost on logging failures brings it to its deadline first,
      the first of them. */
  lemma FailuresAreIsolated(steps: seq<Step>, deadline: Option<int>, world: World, now: int)
    ensures var r, ideal := RunActions(steps, 0, deadline, world, now, 0), RunActions(steps, 0, deadline, Ideal(world), now, 0);
            if Reached(deadline, r.now) then AllFaded(r.turns) <= AllFaded(ideal.turns)
            else AllFaded(r.turns) == AllFaded(ideal.turns)
  {
    hide RunActions, AllFaded;
    SlowerRunsLag(steps, 0, deadline, world, Ideal(world), now, now, 0);
  }

  // ---- The whole run of a script ----

  lemma {:induction false} IncreasingIsShort(turns: seq<Turn>, first: nat, last: nat)
    requires first <= last
    requires forall i :: 0 <= i < |turns| ==> first <= turns[i].step < last
    requires forall i, j :: 0 <= i < j < |turns| ==> turns[i].step < turns[j].step
    ensures |turns| <= last - first
  {
    if turns != [] {
      var t := turns[|turns| - 1];
      IncreasingIsShort(turns[..|turns| - 1], first, t.step);
    }
  }

  /** An accepted configuration has no actions to run exactly when it does not mention them ... */
  lemma AcceptedWithoutActions(config: Json, rules: Rules)
    requires Acceptable(config, rules)
    ensures Decode(Field(config, "actions")) == None <==> Field(config, "actions") == Undefined
  {
    hide FiltersFine, StepsFine, Between, Field, Count, Nesting;
  }

  /** ... and there are such configurations: the empty object is one. */
  lemma EmptyConfigIsAccepted(rules: Rules)
    ensures Acceptable(Obj([]), rules) && Decode(Field(Obj([]), "actions")) == None
  {
  }

  /** An accepted configuration bounds its own runs: at most MAX_ACTIONS turns, each step at most
      once and in document order, none at or after the deadline, `if` nested at most MAX_NESTING. */
  lemma AcceptedScriptsAreBounded(config: Json, rules: Rules, deadline: Option<int>, world: World, now: int, drawn: nat)
    requires Acceptable(config, rules) && Decode(Field(config, "actions")).Some?
    ensures var steps := Decode(Field(config, "actions")).value;
            var turns := RunActions(steps, 0, deadline, world, now, drawn).turns;
            && |turns| <= Count(steps) <= MAX_ACTIONS && Nesting(steps) <= MAX_NESTING
            && Orderly(turns, deadline)
  {
    hide RunActions, Count, Nesting, FiltersFine, ActionsFine, Between;
    var steps := Decode(Field(config, "actions")).value;
    ActionsOrderly(steps, 0, deadline, world, now, drawn);
    IncreasingIsShort(RunActions(steps, 0, deadline, world, now, drawn).turns, 0, Count(steps));
  }

  function Deadline(maxExecutionMs: int, now: int): Option<int> {
    if maxExecutionMs > 0 then Some(now + maxExecutionMs) else None
  }

  /** A whole run in terms of its clock. */
  lemma WholeRun(steps: seq<Step>, maxExecutionMs: int, world: World, now: int, drawn: nat)
    ensures var r := RunActions(steps, 0, Deadline(maxExecutionMs, now), world, now, drawn);
            && r.now >= now
            && (r.failed <==> exists i :: 0 <= i < |r.turns| && r.turns[i].Bad())
            && (maxExecutionMs > 0 ==> forall i :: 0 <= i < |r.turns| ==> now <= r.turns[i].at < now + maxExecutionMs)
            && (maxExecutionMs <= 0 || r.now < now + maxExecutionMs ==> Leads(r.turns, 0, Count(steps), Flat(steps), world))
  {
    hide RunActions, Leads, Count, Flat;
    var deadline := Deadline(maxExecutionMs, now);
    FailedIffBadTurn(steps, 0, deadline, world, now, drawn);
    ActionsOrderly(steps, 0, deadline, world, now, drawn);
    assert Flat(steps)[0..0 + |Flat(steps)|] == Flat(steps);
    var to := ActionsLead(steps, 0, Flat(steps), deadline, world, now, drawn);
  }

  /** The context of a run, updated in place while it proceeds, with what the run does to the
      outside: its turns, in order, and the error notifications. */
  class Context {
    var turns: seq<Turn>
    var scriptFailed: bool
    var now: int
    var drawn: nat
    var notifications: nat

    constructor (now: int)
      ensures turns == [] && !scriptFailed && this.now == now && drawn == 0 && notifications == 0
    {
      turns, scriptFailed, this.now, drawn, notifications := [], false, now, 0, 0;
    }

    ghost function State(): Run
      reads this
    {
      Run(turns, scriptFailed, now, drawn)
    }

    /** The loop over the actions; a thrown error stays inside its own step. */
    method RunSteps(steps: seq<Step>, first: nat, deadline: Option<int>, world: World)
      modifies this
      ensures State() == old(State()).Then(RunActions(steps, first, deadline, world, old(now), old(drawn)))
      ensures notifications == old(notifications)
      decreases steps
    {
      hide CountStep, RunStep, RunActions;
      ghost var before, whole := State(), RunActions(steps, first, deadline, world, now, drawn);
      assert steps[0..] == steps;
      var number: nat := first;
      for i := 0 to |steps|
        invariant before.Then(whole) == State().Then(RunActions(steps[i..], number, deadline, world, now, drawn))
        invariant notifications == old(notifications)
      {
        var step, d := steps[i], world(drawn);
        NextStep(steps, i, number, deadline, world, now, drawn);
        ghost var here, start, index := State(), now + d.tick, drawn;
        now := now + d.tick;
        if Reached(deadline, now) {
          drawn := drawn + 1;
          return;
        }
        RunOne(step, number, deadline, world);
        ghost var r := RunStep(step, number, deadline, world, start, index);
        ghost var rest := RunActions(steps[i + 1..], number + CountStep(step), deadline, world, r.now, r.drawn);
        ThenAssociates(here, r, rest);
        number := number + CountStep(step);
      }
      NoStepsLeft(number, deadline, world, now, drawn);
      assert steps[|steps|..] == [] && State().Then(Run([], false, now, drawn)) == State();
    }

    method RunOne(step: Step, number: nat, deadline: Option<int>, world: World)
      modifies this
      ensures State() == old(State()).Then(RunStep(step, number, deadline, world, old(now), old(drawn)))
      ensures notifications == old(notifications)
      decreases step
    {
      hide RunActions;
      var d, start := world(drawn), now;
      drawn := drawn + 1;
      if step.guarded && d.verdict == Throws {
        scriptFailed := true;
        now := now + d.logging;
        turns := turns + [Turn(number, drawn - 1, start, now, Threw)];
      } else if step.guarded && d.verdict == Fails {
        turns := turns + [Turn(number, drawn - 1, start, now, Skipped)];
      } else if step.If? {
        ghost var before, entered := old(State()), Run([Turn(number, drawn - 1, start, now, Entered)], false, now, drawn);
        turns := turns + [Turn(number, drawn - 1, start, now, Entered)];
        ThenAssociates(before, entered, RunActions(step.body, number + 1, deadline, world, now, drawn));
        RunSteps(step.body, number + 1, deadline, world);
      } else {
        now := now + d.duration;
        if !d.ok {
          scriptFailed := true;
          now := now + d.logging;
        }
        turns := turns + [Turn(number, drawn - 1, start, now, Ran(d.ok))];
      }
    }

    /** One run of a script. Actions that are missing altogether make it reject without a
        notification; otherwise it notifies once, and exactly when one of its steps failed or
        maxExecutionMs had passed at its end. No step has its turn once they have passed, and
        nothing else keeps a step from it. */
    method RunScript(actions: Option<seq<Step>>, maxExecutionMs: int, matches: bool, world: World) returns (rejected: bool)
      requires turns == [] && !scriptFailed
      modifies this
      ensures rejected <==> matches && actions == None
      ensures rejected || !matches ==> turns == [] && notifications == old(notifications)
      ensures matches && actions.Some? ==>
                var deadline := Deadline(maxExecutionMs, old(now));
                && turns == RunActions(actions.value, 0, deadline, world, old(now), old(drawn)).turns
                && (notifications == old(notifications) || notifications == old(notifications) + 1)
                && (notifications > old(notifications) <==>
                      (exists i :: 0 <= i < |turns| && turns[i].Bad())
                      || (maxExecutionMs > 0 && now - old(now) >= maxExecutionMs))
      ensures maxExecutionMs > 0 ==> forall i :: 0 <= i < |turns| ==> old(now) <= turns[i].at < old(now) + maxExecutionMs
      ensures matches && actions.Some? && (maxExecutionMs <= 0 || now - old(now) < maxExecutionMs) ==>
                Leads(turns, 0, Count(actions.value), Flat(actions.value), world)
    {
      hide RunActions, Leads, Count, Flat, Turn.Bad;
      var deadline := Deadline(maxExecutionMs, now);
      if !matches { return false; }
      if actions == None { return true; }
      WholeRun(actions.value, maxExecutionMs, world, now, drawn);
      RunSteps(actions.value, 0, deadline, world);
      now := now + world(drawn).tick;
      if Reached(deadline, now) { scriptFailed := true; }
      if scriptFailed { notifications := notifications + 1; }
      rejected := false;
    }

    /** Of the accepted configurations exactly those that do not mention actions are rejected when
        they run, and then nobody is notified. */
    method RunAccepted(config: Json, maxExecutionMs: int, matches: bool, rules: Rules, world: World) returns (rejected: bool)
      requires turns == [] && !scriptFailed && Acceptable(config, rules)
      modifies this
      ensures rejected <==> matches && Field(config, "actions") == Undefined
      ensures rejected ==> turns == [] && notifications == old(notifications)
      ensures |turns| <= MAX_ACTIONS && Orderly(turns, Deadline(maxExecutionMs, old(now)))
      ensures maxExecutionMs > 0 ==> forall i :: 0 <= i < |turns| ==> old(now) <= turns[i].at < old(now) + maxExecutionMs
    {
      hide Leads, Acceptable, RunActions, Decode, Orderly;
      AcceptedWithoutActions(config, rules);
      var actions := Decode(Field(config, "actions"));
      ghost var deadline := Deadline(maxExecutionMs, now);
      NoTurns(0, 0, 0, 0, 0, 0, deadline);
      if actions.Some? { AcceptedScriptsAreBounded(config, rules, deadline, world, now, drawn); }
      rejected := RunScript(actions, maxExecutionMs, matches, world);
    }
  }

  /** What remains of the loop from step i on. */
  lemma NextStep(steps: seq<Step>, i: nat, number: nat, deadline: Option<int>, world: World, now: int, drawn: nat)
    requires i < |steps|
    ensures var start := now + world(drawn).tick;
            RunActions(steps[i..], number, deadline, world, now, drawn)
            == if Reached(deadline, start) then Run([], false, start, drawn + 1)
               else
                 var r := RunStep(steps[i], number, deadline, world, start, drawn);
                 r.Then(RunActions(steps[i + 1..], number + CountStep(steps[i]), deadline, world, r.now, r.drawn))
  {
    hide RunStep, CountStep;
    assert steps[i..][0] == steps[i] && steps[i..][1..] == steps[i + 1..];
  }

  lemma NoStepsLeft(number: nat, deadline: Option<int>, world: World, now: int, drawn: nat)
    ensures RunActions([], number, deadline, world, now, drawn) == Run([], false, now, drawn)
  {
  }

  lemma ThenAssociates(a: Run, b: Run, c: Run)
    ensures a.Then(b).Then(c) == a.Then(b.Then(c))
  {
    assert a.turns + b.turns + c.turns == a.turns + (b.turns + c.turns);
  }
}
