/** The per-bot connection circuit breaker (packages/core/src/resilience/circuit-breaker.ts).
    Clock readings are arguments; one synchronous call sees one reading. */
module CircuitBreakers {

  datatype Phase = Closed | Open | HalfOpen

  datatype Options = Options(failureThreshold: int, successThreshold: int, resetTimeoutMs: int)

  datatype State = State(phase: Phase, failures: nat, openedAt: int, halfOpenSuccesses: nat, probesRemaining: int)

  const FRESH := State(Closed, 0, 0, 0, 0)

  // ---- What each call does to the breaker ----

  function Opened(s: State, now: int): State {
    s.(phase := Open, openedAt := now, halfOpenSuccesses := 0, probesRemaining := 0)
  }

  function ClosedAgain(s: State): State {
    s.(phase := Closed, failures := 0, halfOpenSuccesses := 0, probesRemaining := 0)
  }

  function AfterCooldown(o: Options, s: State, now: int): State {
    if s.phase == Open && now - s.openedAt >= o.resetTimeoutMs
    then s.(phase := HalfOpen, halfOpenSuccesses := 0, probesRemaining := o.successThreshold)
    else s
  }

  predicate Permitted(o: Options, s: State, now: int) {
    var s1 := AfterCooldown(o, s, now);
    s1.phase == Closed || (s1.phase == HalfOpen && s1.probesRemaining > 0)
  }

  function AfterAttempt(o: Options, s: State, now: int): State {
    var s1 := AfterCooldown(o, s, now);
    if s1.phase != HalfOpen then s1
    else if s1.probesRemaining <= 0 then Opened(s1, now)
    else s1.(probesRemaining := s1.probesRemaining - 1)
  }

  function AfterSuccess(o: Options, s: State): State {
    match s.phase
    case Open => s
    case HalfOpen =>
      var s1 := s.(halfOpenSuccesses := s.halfOpenSuccesses + 1);
      if s1.halfOpenSuccesses >= o.successThreshold then ClosedAgain(s1) else s1
    case Closed => s.(failures := 0)
  }

  function AfterFailure(o: Options, s: State, now: int): State {
    match s.phase
    case HalfOpen => Opened(s, now)
    case Open => s
    case Closed =>
      var s1 := s.(failures := s.failures + 1);
      if s1.failures >= o.failureThreshold then Opened(s1, now) else s1
  }

  function Cooldown(o: Options, s: State, now: int): int {
    var s1 := AfterCooldown(o, s, now);
    if s1.phase != Open then 0
    else if o.resetTimeoutMs - (now - s1.openedAt) < 0 then 0
    else o.resetTimeoutMs - (now - s1.openedAt)
  }

  /** The breaker object: its fields change in place, as View() records. */
  class CircuitBreaker {
    const options: Options
    var phase: Phase
    var failures: nat
    var openedAt: int
    var halfOpenSuccesses: nat
    var probesRemaining: int

    constructor (options: Options)
      ensures this.options == options && View() == FRESH
    {
      this.options := options;
      phase, failures, openedAt, halfOpenSuccesses, probesRemaining := Closed, 0, 0, 0, 0;
    }

    function View(): State
      reads this
    {
      State(phase, failures, openedAt, halfOpenSuccesses, probesRemaining)
    }

    method TryHalfOpen(now: int)
      modifies this
      ensures View() == AfterCooldown(options, old(View()), now)
    {
      if phase != Open { return; }
      if now - openedAt < options.resetTimeoutMs { return; }
      phase := HalfOpen;
      halfOpenSuccesses := 0;
      probesRemaining := options.successThreshold;
    }

    method GetState(now: int) returns (p: Phase)
      modifies this
      ensures View() == AfterCooldown(options, old(View()), now) && p == View().phase
    {
      TryHalfOpen(now);
      p := phase;
    }

    method CanAttempt(now: int) returns (allowed: bool)
      modifies this
      ensures allowed == Permitted(options, old(View()), now)
      ensures View() == AfterAttempt(options, old(View()), now)
    {
      TryHalfOpen(now);
      if phase == Open { return false; }
      if phase == HalfOpen {
        if probesRemaining <= 0 {
          Trip(now);
          return false;
        }
        probesRemaining := probesRemaining - 1;
      }
      return true;
    }

    method RecordSuccess()
      modifies this
      ensures View() == AfterSuccess(options, old(View()))
    {
      if phase == Open { return; }
      if phase == HalfOpen {
        halfOpenSuccesses := halfOpenSuccesses + 1;
        if halfOpenSuccesses >= options.successThreshold { Reset(); }
        return;
      }
      failures := 0;
    }

    method RecordFailure(now: int)
      modifies this
      ensures View() == AfterFailure(options, old(View()), now)
    {
      if phase == HalfOpen { Trip(now); return; }
      if phase == Open { return; }
      failures := failures + 1;
      if failures >= options.failureThreshold { Trip(now); }
    }

    method Reset()
      modifies this
      ensures View() == ClosedAgain(old(View()))
    {
      phase, failures, halfOpenSuccesses, probesRemaining := Closed, 0, 0, 0;
    }

    method RemainingCooldownMs(now: int) returns (ms: int)
      modifies this
      ensures View() == AfterCooldown(options, old(View()), now)
      ensures ms == Cooldown(options, old(View()), now)
    {
      TryHalfOpen(now);
      if phase != Open { return 0; }
      ms := options.resetTimeoutMs - (now - openedAt);
      if ms < 0 { ms := 0; }
    }

    method Trip(now: int)
      modifies this
      ensures View() == Opened(old(View()), now)
    {
      phase, openedAt, halfOpenSuccesses, probesRemaining := Open, now, 0, 0;
    }
  }

  // ---- Runs: any calls, in any order, at non-decreasing times ----

  datatype Call = CanAttempt | GetState | RemainingCooldown | RecordSuccess | RecordFailure | Reset

  datatype Event = Event(at: int, call: Call)

  function Step(o: Options, s: State, e: Event): State {
    match e.call
    case CanAttempt => AfterAttempt(o, s, e.at)
    case GetState => AfterCooldown(o, s, e.at)
    case RemainingCooldown => AfterCooldown(o, s, e.at)
    case RecordSuccess => AfterSuccess(o, s)
    case RecordFailure => AfterFailure(o, s, e.at)
    case Reset => ClosedAgain(s)
  }

  /** The state after the first k events of a run that starts with a fresh breaker. */
  function At(o: Options, es: seq<Event>, k: nat): State
    requires k <= |es|
  {
    if k == 0 then FRESH else Step(o, At(o, es, k - 1), es[k - 1])
  }

  ghost predicate Chronological(es: seq<Event>) {
    forall i, j :: 0 <= i < j < |es| ==> es[i].at <= es[j].at
  }

  /** Event k trips the breaker. */
  predicate Opens(o: Options, es: seq<Event>, k: nat)
    requires k < |es|
  {
    At(o, es, k).phase != Open && At(o, es, k + 1).phase == Open
  }

  /** How many of the events i..k-1 are attempts that the breaker lets through. */
  function Attempts(o: Options, es: seq<Event>, i: nat, k: nat): nat
    requires i <= k <= |es|
    decreases k - i
  {
    if i == k then 0
    else Attempts(o, es, i, k - 1)
         + if es[k - 1].call == CanAttempt && Permitted(o, At(o, es, k - 1), es[k - 1].at) then 1 else 0
  }

  ghost predicate NeverClosed(o: Options, es: seq<Event>, i: nat, k: nat)
    requires i <= k <= |es|
  {
    forall m :: i <= m <= k ==> At(o, es, m).phase != Closed
  }

  ghost predicate Thresholds(o: Options) {
    o.failureThreshold >= 1 && o.successThreshold >= 1 && o.resetTimeoutMs >= 1
  }

  /** What holds in every state that a run reaches: probes stay within the budget, the failure
      streak stays below the threshold while closed, and the breaker never opened in the future. */
  ghost predicate Plausible(o: Options, s: State, now: int) {
    && (s.phase == Closed ==> s.failures < o.failureThreshold)
    && (s.phase == Open ==> s.openedAt <= now)
    && (s.phase == HalfOpen ==> 0 <= s.probesRemaining <= o.successThreshold
                                && s.halfOpenSuccesses < o.successThreshold)
  }

  lemma {:induction false} OpenedBefore(o: Options, es: seq<Event>, k: nat)
    requires Chronological(es) && 0 < k <= |es|
    ensures At(o, es, k).phase == Open ==> At(o, es, k).openedAt <= es[k - 1].at
  {
    if k == 1 {
      assert At(o, es, 0) == FRESH;
    } else {
      OpenedBefore(o, es, k - 1);
      assert es[k - 2].at <= es[k - 1].at;
    }
  }

  lemma {:induction false} EveryStateIsPlausible(o: Options, es: seq<Event>, k: nat)
    requires Thresholds(o) && Chronological(es) && 0 < k <= |es|
    ensures Plausible(o, At(o, es, k), es[k - 1].at)
  {
    if k == 1 {
      assert At(o, es, 0) == FRESH;
    } else {
      EveryStateIsPlausible(o, es, k - 1);
      assert es[k - 2].at <= es[k - 1].at;
    }
  }

  /** What is known k - i - 1 calls after event i tripped the breaker, when nothing
      has closed it since. */
  ghost predicate Budget(o: Options, es: seq<Event>, i: nat, k: nat, rounds: nat)
    requires i < k <= |es|
  {
    InBudget(o, At(o, es, k), Attempts(o, es, i + 1, k), es[i].at, es[k - 1].at, rounds)
  }

  /** `used` attempts were let through since the opening, and `rounds` whole cooldowns waited out. */
  predicate InBudget(o: Options, s: State, used: nat, since: int, now: int, rounds: nat) {
    match s.phase
    case Closed => false
    case Open =>
      && used <= Rounds(rounds, o.successThreshold)
      && since + Rounds(rounds, o.resetTimeoutMs) <= s.openedAt <= now
    case HalfOpen =>
      && 0 <= s.probesRemaining
      && used + s.probesRemaining <= Rounds(rounds, o.successThreshold) + o.successThreshold
      && since + Rounds(rounds, o.resetTimeoutMs) + o.resetTimeoutMs <= now
  }

  function Rounds(n: nat, each: int): int {
    n * each
  }

  lemma OneMoreRound(n: nat, each: int)
    ensures Rounds(n + 1, each) == Rounds(n, each) + each
  {
  }

  lemma BudgetStep(o: Options, s: State, e: Event, used: nat, since: int, before: int, rounds: nat)
    requires Thresholds(o) && InBudget(o, s, used, since, before, rounds) && before <= e.at
    requires Step(o, s, e).phase != Closed
    ensures var more := used + if e.call == CanAttempt && Permitted(o, s, e.at) then 1 else 0;
            InBudget(o, Step(o, s, e), more, since, e.at,
                     if s.phase == HalfOpen && Step(o, s, e).phase == Open then rounds + 1 else rounds)
  {
    hide Rounds;
    OneMoreRound(rounds, o.successThreshold);
    OneMoreRound(rounds, o.resetTimeoutMs);
  }

  lemma JustOpened(o: Options, s: State, e: Event)
    requires s.phase != Open && Step(o, s, e).phase == Open
    ensures InBudget(o, Step(o, s, e), 0, e.at, e.at, 0)
  {
  }

  lemma {:induction false} BudgetHolds(o: Options, es: seq<Event>, i: nat, k: nat) returns (rounds: nat)
    requires Thresholds(o) && Chronological(es) && i < k <= |es|
    requires Opens(o, es, i) && NeverClosed(o, es, i + 1, k)
    ensures Budget(o, es, i, k, rounds)
    decreases k
  {
    hide InBudget, Step;
    if k == i + 1 {
      rounds := 0;
      JustOpened(o, At(o, es, i), es[i]);
    } else {
      var n := BudgetHolds(o, es, i, k - 1);
      var s, e := At(o, es, k - 1), es[k - 1];
      assert es[k - 2].at <= e.at && At(o, es, k).phase != Closed;
      BudgetStep(o, s, e, Attempts(o, es, i + 1, k - 1), es[i].at, es[k - 2].at, n);
      rounds := if s.phase == HalfOpen && Step(o, s, e).phase == Open then n + 1 else n;
    }
  }

  /** A tripped breaker never lets the provider be hammered: until something closes it,
      it lets through at most successThreshold attempts per whole cooldown elapsed. */
  lemma AttemptsPerCooldown(o: Options, es: seq<Event>, i: nat, k: nat)
    requires Thresholds(o) && Chronological(es) && i < k <= |es|
    requires Opens(o, es, i) && NeverClosed(o, es, i + 1, k)
    ensures Attempts(o, es, i + 1, k) <= o.successThreshold * ((es[k - 1].at - es[i].at) / o.resetTimeoutMs)
  {
    var rounds := BudgetHolds(o, es, i, k);
    hide At, Attempts, InBudget, Rounds;
    var whole := if At(o, es, k).phase == HalfOpen then rounds + 1 else rounds;
    BudgetMeans(o, At(o, es, k), Attempts(o, es, i + 1, k), es[i].at, es[k - 1].at, rounds);
    WholeCooldowns(Attempts(o, es, i + 1, k), es[k - 1].at - es[i].at, o, whole);
  }

  lemma BudgetMeans(o: Options, s: State, used: nat, since: int, now: int, rounds: nat)
    requires InBudget(o, s, used, since, now, rounds)
    ensures var whole := if s.phase == HalfOpen then rounds + 1 else rounds;
            used <= Rounds(whole, o.successThreshold) && Rounds(whole, o.resetTimeoutMs) <= now - since
  {
    hide Rounds;
    OneMoreRound(rounds, o.successThreshold);
    OneMoreRound(rounds, o.resetTimeoutMs);
  }

  lemma WholeCooldowns(used: int, elapsed: int, o: Options, rounds: nat)
    requires Thresholds(o)
    requires Rounds(rounds, o.resetTimeoutMs) <= elapsed && used <= Rounds(rounds, o.successThreshold)
    ensures used <= o.successThreshold * (elapsed / o.resetTimeoutMs)
  {
    var whole := elapsed / o.resetTimeoutMs;
    assert elapsed < (whole + 1) * o.resetTimeoutMs;
    if whole < rounds {
      Scale(whole + 1, rounds, o.resetTimeoutMs);
      assert false;
    }
    Scale(rounds, whole, o.successThreshold);
  }

  lemma Scale(a: int, b: int, c: nat)
    requires a <= b
    ensures a * c <= b * c
  {
  }

  /** Between two consecutive openings with no close or reset between them: one whole
      cooldown at least, and at most successThreshold permitted attempts. */
  lemma {:induction false} OneRoundPerOpening(o: Options, es: seq<Event>, i: nat, k: nat)
    requires Thresholds(o) && Chronological(es) && i < k <= |es|
    requires Opens(o, es, i) && NeverClosed(o, es, i + 1, k)
    requires forall m :: i < m < k ==> !Opens(o, es, m)
    ensures At(o, es, k).phase == Open ==>
              At(o, es, k).openedAt == es[i].at && Attempts(o, es, i + 1, k) == 0
    ensures At(o, es, k).phase == HalfOpen ==>
              es[k - 1].at - es[i].at >= o.resetTimeoutMs
              && Attempts(o, es, i + 1, k) + At(o, es, k).probesRemaining == o.successThreshold
    decreases k
  {
    if k > i + 1 {
      OneRoundPerOpening(o, es, i, k - 1);
      assert es[k - 2].at <= es[k - 1].at;
      assert !Opens(o, es, k - 1);
    }
  }

  lemma ConsecutiveOpenings(o: Options, es: seq<Event>, i: nat, j: nat)
    requires Thresholds(o) && Chronological(es) && i < j < |es|
    requires Opens(o, es, i) && Opens(o, es, j) && NeverClosed(o, es, i + 1, j)
    requires forall m :: i < m < j ==> !Opens(o, es, m)
    ensures es[j].at - es[i].at >= o.resetTimeoutMs
    ensures Attempts(o, es, i + 1, j + 1) <= o.successThreshold
  {
    OneRoundPerOpening(o, es, i, j);
    EveryStateIsPlausible(o, es, j);
    assert es[j - 1].at <= es[j].at;
  }

  /** The opening that the breaker has not recovered from: the last one, with no close since. */
  ghost predicate SinceOpening(o: Options, es: seq<Event>, i: nat, k: nat)
    requires k <= |es|
  {
    && i < k && Opens(o, es, i) && NeverClosed(o, es, i + 1, k)
    && (forall m :: i < m < k ==> !Opens(o, es, m))
  }

  /** In every state of every run that is not closed, the breaker was opened before and has not
      closed since, and while half-open the attempts let through since then and the probes that
      remain make up the budget exactly. */
  lemma {:induction false} HalfOpenBudget(o: Options, es: seq<Event>, k: nat) returns (i: nat)
    requires Thresholds(o) && Chronological(es) && k <= |es| && At(o, es, k).phase != Closed
    ensures SinceOpening(o, es, i, k)
    ensures At(o, es, k).phase == HalfOpen ==>
              Attempts(o, es, i + 1, k) + At(o, es, k).probesRemaining == o.successThreshold
  {
    if Opens(o, es, k - 1) {
      i := k - 1;
    } else {
      i := HalfOpenBudget(o, es, k - 1);
    }
    OneRoundPerOpening(o, es, i, k);
  }

  /** If an attempt is refused after k events, one cooldown later the next one is not. */
  predicate RecoversBy(o: Options, es: seq<Event>, k: nat, later: int)
    requires 0 < k <= |es|
  {
    var s, now := At(o, es, k), es[k - 1].at;
    !Permitted(o, s, now) && later - now >= o.resetTimeoutMs ==> Permitted(o, AfterAttempt(o, s, now), later)
  }

  /** From every state of every run, a refused attempt and one cooldown suffice for a permitted one. */
  ghost predicate Recovers(o: Options) {
    forall es: seq<Event>, k: nat, later: int ::
      Chronological(es) && 0 < k <= |es| ==> RecoversBy(o, es, k, later)
  }

  /** ... which is so exactly when at least one probe is allowed. */
  lemma RecoversIffProbesAllowed(o: Options)
    requires o.resetTimeoutMs >= 1
    ensures Recovers(o) <==> o.successThreshold >= 1
  {
    if o.successThreshold >= 1 {
      forall es: seq<Event>, k: nat, later: int | Chronological(es) && 0 < k <= |es|
        ensures RecoversBy(o, es, k, later)
      {
        OpenedBefore(o, es, k);
      }
    } else {
      var es := seq(if o.failureThreshold >= 1 then o.failureThreshold else 1, _ => Event(0, RecordFailure));
      FailuresOpen(o, es, |es|);
      assert !RecoversBy(o, es, |es|, o.resetTimeoutMs);
    }
  }

  /** As many failures in a row as the threshold allows trip a fresh breaker. */
  lemma {:induction false} FailuresOpen(o: Options, es: seq<Event>, k: nat)
    requires 1 <= k <= |es| == (if o.failureThreshold >= 1 then o.failureThreshold else 1)
    requires forall i :: 0 <= i < |es| ==> es[i] == Event(0, RecordFailure)
    ensures At(o, es, k).failures == k && At(o, es, k).phase == (if k == |es| then Open else Closed)
    ensures k == |es| ==> At(o, es, k).openedAt == 0
  {
    if k > 1 { FailuresOpen(o, es, k - 1); } else { assert At(o, es, 0) == FRESH; }
  }

  // ---- Every transition, told by the calls alone ----

  /** How many failures have been recorded since the last success or reset. */
  function FailureRun(es: seq<Event>, k: nat): nat
    requires k <= |es|
  {
    if k == 0 then 0
    else match es[k - 1].call
    case RecordFailure => FailureRun(es, k - 1) + 1
    case RecordSuccess => 0
    case Reset => 0
    case _ => FailureRun(es, k - 1)
  }

  /** How many of the calls i..k-1 are of this kind. */
  function Calls(es: seq<Event>, i: nat, k: nat, call: Call): nat
    requires i <= k <= |es|
    decreases k - i
  {
    if i == k then 0 else Calls(es, i, k - 1, call) + if es[k - 1].call == call then 1 else 0
  }

  /** A call that looks at the state, and so notices that the cooldown is over. */
  predicate Looks(call: Call) {
    call == CanAttempt || call == GetState || call == RemainingCooldown
  }

  /** A closed breaker remembers exactly the failures since the last success or reset ... */
  lemma {:induction false} FailuresAreTheRun(o: Options, es: seq<Event>, k: nat)
    requires Thresholds(o) && k <= |es| && At(o, es, k).phase == Closed
    ensures At(o, es, k).failures == FailureRun(es, k)
  {
    if k > 0 && At(o, es, k - 1).phase == Closed { FailuresAreTheRun(o, es, k - 1); }
  }

  /** ... and opens exactly when there are failureThreshold of them in a row. */
  lemma ClosedOpensIff(o: Options, es: seq<Event>, k: nat)
    requires Thresholds(o) && k < |es| && At(o, es, k).phase == Closed
    ensures At(o, es, k + 1).phase == Open <==> es[k].call == RecordFailure && FailureRun(es, k + 1) >= o.failureThreshold
    ensures At(o, es, k + 1).phase != HalfOpen
  {
    FailuresAreTheRun(o, es, k);
  }

  /** An open breaker has been open since the call i, nobody has looked at it after its cooldown ... */
  ghost predicate OpenSince(o: Options, es: seq<Event>, i: nat, k: nat)
    requires k <= |es|
  {
    && i < k && Opens(o, es, i) && At(o, es, k).openedAt == es[i].at
    && (forall m :: i < m <= k ==> At(o, es, m).phase == Open)
    && (forall m :: i < m < k ==> es[m].call != Reset && !(Looks(es[m].call) && es[m].at >= es[i].at + o.resetTimeoutMs))
  }

  lemma OpenStep(o: Options, s: State, e: Event)
    requires Thresholds(o) && s.phase == Open
    ensures Step(o, s, e).phase == HalfOpen <==> Looks(e.call) && e.at >= s.openedAt + o.resetTimeoutMs
    ensures Step(o, s, e).phase == Closed <==> e.call == Reset
    ensures Step(o, s, e).phase == Open ==> Step(o, s, e).openedAt == s.openedAt
    ensures Step(o, s, e).phase == HalfOpen ==>
              Step(o, s, e).halfOpenSuccesses == 0
              && Step(o, s, e).probesRemaining == o.successThreshold - if e.call == CanAttempt then 1 else 0
  {
  }

  lemma OpeningStep(o: Options, s: State, e: Event)
    requires s.phase != Open && Step(o, s, e).phase == Open
    ensures Step(o, s, e).openedAt == e.at
  {
  }

  lemma {:induction false} OpenHistory(o: Options, es: seq<Event>, k: nat) returns (i: nat)
    requires Thresholds(o) && k <= |es| && At(o, es, k).phase == Open
    ensures OpenSince(o, es, i, k)
  {
    hide Step, Looks;
    if At(o, es, k - 1).phase != Open {
      i := k - 1;
      OpeningStep(o, At(o, es, i), es[i]);
    } else {
      i := OpenHistory(o, es, k - 1);
      OpenStep(o, At(o, es, k - 1), es[k - 1]);
    }
  }

  /** ... and what it does next: it becomes half-open exactly when somebody looks one cooldown or more
      after the opening, and closed exactly on a reset. */
  lemma OpenMovesIff(o: Options, es: seq<Event>, i: nat, k: nat)
    requires Thresholds(o) && k < |es| && OpenSince(o, es, i, k)
    ensures At(o, es, k + 1).phase == HalfOpen <==> Looks(es[k].call) && es[k].at >= es[i].at + o.resetTimeoutMs
    ensures At(o, es, k + 1).phase == Closed <==> es[k].call == Reset
    ensures forall now :: Cooldown(o, At(o, es, k), now)
                          == if now >= es[i].at + o.resetTimeoutMs then 0 else es[i].at + o.resetTimeoutMs - now
  {
    assert At(o, es, k).phase == Open;
  }

  /** A half-open breaker was opened up by the call h, one cooldown or more after its opening; since
      then there was no failure and no reset, its successes are those recorded, and each attempt has
      used up one probe. */
  ghost predicate HalfOpenSince(o: Options, es: seq<Event>, h: nat, k: nat)
    requires k <= |es|
  {
    && h < k && At(o, es, h).phase == Open && Looks(es[h].call) && es[h].at >= At(o, es, h).openedAt + o.resetTimeoutMs
    && (forall m :: h < m <= k ==> At(o, es, m).phase == HalfOpen)
    && Calls(es, h, k, RecordFailure) == 0 && Calls(es, h, k, Reset) == 0
    && At(o, es, k).halfOpenSuccesses == Calls(es, h, k, RecordSuccess)
    && At(o, es, k).probesRemaining == o.successThreshold - Calls(es, h, k, CanAttempt) >= 0
  }

  lemma HalfOpenStep(o: Options, s: State, e: Event)
    requires s.phase == HalfOpen && Step(o, s, e).phase == HalfOpen && s.probesRemaining >= 0
    ensures e.call != RecordFailure && e.call != Reset
    ensures Step(o, s, e).halfOpenSuccesses == s.halfOpenSuccesses + if e.call == RecordSuccess then 1 else 0
    ensures Step(o, s, e).probesRemaining == s.probesRemaining - (if e.call == CanAttempt then 1 else 0) >= 0
  {
  }

  /** A breaker only becomes half-open from being open. */
  lemma OnlyFromOpen(o: Options, s: State, e: Event)
    requires Step(o, s, e).phase == HalfOpen
    ensures s.phase != Closed
  {
  }

  lemma OneMoreCall(es: seq<Event>, i: nat, k: nat, call: Call)
    requires i < k <= |es|
    ensures Calls(es, i, k, call) == Calls(es, i, k - 1, call) + if es[k - 1].call == call then 1 else 0
    ensures Calls(es, i, i, call) == 0
  {
  }

  lemma {:induction false} HalfOpenHistory(o: Options, es: seq<Event>, k: nat) returns (h: nat)
    requires Thresholds(o) && k <= |es| && At(o, es, k).phase == HalfOpen
    ensures HalfOpenSince(o, es, h, k)
  {
    hide Step, Calls;
    h := k - 1;
    OnlyFromOpen(o, At(o, es, h), es[h]);
    if At(o, es, k - 1).phase == HalfOpen {
      h := HalfOpenHistory(o, es, k - 1);
      HalfOpenStep(o, At(o, es, k - 1), es[k - 1]);
    } else {
      OpenStep(o, At(o, es, h), es[h]);
    }
    OneMoreCall(es, h, k, RecordFailure);
    OneMoreCall(es, h, k, Reset);
    OneMoreCall(es, h, k, RecordSuccess);
    OneMoreCall(es, h, k, CanAttempt);
  }

  /** What a half-open breaker does next: it closes exactly on a reset or on the success that makes
      up successThreshold, and opens again exactly on a failure or on one attempt too many. */
  lemma HalfOpenMovesIff(o: Options, es: seq<Event>, h: nat, k: nat)
    requires Thresholds(o) && k < |es| && HalfOpenSince(o, es, h, k)
    ensures At(o, es, k + 1).phase == Closed <==>
              es[k].call == Reset
              || (es[k].call == RecordSuccess && Calls(es, h, k + 1, RecordSuccess) >= o.successThreshold)
    ensures At(o, es, k + 1).phase == Open <==>
              es[k].call == RecordFailure
              || (es[k].call == CanAttempt && Calls(es, h, k + 1, CanAttempt) > o.successThreshold)
    ensures At(o, es, k + 1).phase == Open ==> At(o, es, k + 1).openedAt == es[k].at
  {
    assert At(o, es, k).phase == HalfOpen;
  }

  /** Which attempts are let through, in the same terms. */
  lemma AttemptPermittedIff(o: Options, es: seq<Event>, k: nat, now: int) returns (i: nat)
    requires Thresholds(o) && k <= |es|
    ensures At(o, es, k).phase == Closed ==> Permitted(o, At(o, es, k), now)
    ensures At(o, es, k).phase == Open ==>
              OpenSince(o, es, i, k) && (Permitted(o, At(o, es, k), now) <==> now >= es[i].at + o.resetTimeoutMs)
    ensures At(o, es, k).phase == HalfOpen ==>
              HalfOpenSince(o, es, i, k)
              && (Permitted(o, At(o, es, k), now) <==> Calls(es, i, k, CanAttempt) < o.successThreshold)
  {
    i := 0;
    match At(o, es, k).phase
    case Closed =>
    case Open => i := OpenHistory(o, es, k);
    case HalfOpen => i := HalfOpenHistory(o, es, k);
  }
}
