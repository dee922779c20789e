/** The per-bot reconnect loop of BaseWorker (packages/workers/src/base-worker.ts). */
module Reconnect {
  import opened Common
  import B = CircuitBreakers
  import Backoff

  const MAX_RECONNECT_ATTEMPTS := 10
  const BREAKER := B.Options(5, 1, 60_000)
  const MIN_SLEEP_MS := 60_000

  datatype Status = Connecting | Running | Reconnecting | Failed

  /** `timer` holds the earliest time at which the pending timer may fire. */
  datatype Bot = Bot(attempts: nat, breaker: B.State, timer: Option<int>, status: Status)

  /** What scheduleReconnect takes from outside: its four clock readings (the failure is
      recorded, the state is read, the cooldown is read, the timer is armed), the sleep
      schedule, and the jittered backoff it drew. */
  datatype Env = Env(failedAt: int, stateAt: int, cooldownAt: int, armedAt: int,
                     untilWake: Option<int>, backoffMs: int)

  predicate ValidEnv(e: Env) {
    e.failedAt <= e.stateAt <= e.cooldownAt <= e.armedAt && e.backoffMs >= 0
  }

  datatype Outcome = GaveUp | Cooling(ms: int) | Sleeping(ms: int) | BackingOff(ms: int)

  function Round(x: real): int {
    (x + 0.5).Floor
  }

  function BackoffMs(attempt: nat, failureRate: Backoff.Num, jitter: real, spread: real): int {
    Round(Spread(Backoff.CalculateBackoff(Backoff.Finite(attempt as real), failureRate, Backoff.DEFAULTS, jitter), spread))
  }

  /** Up to a quarter either way. */
  function Spread(d: real, spread: real): real {
    d * (0.75 + spread * 0.5)
  }

  /** A failed connect: what the bot waits for next ... */
  function Decision(bot: Bot, e: Env): Outcome {
    if bot.attempts >= MAX_RECONNECT_ATTEMPTS then GaveUp
    else
      var s := B.AfterCooldown(BREAKER, B.AfterFailure(BREAKER, bot.breaker, e.failedAt), e.stateAt);
      if s.phase == B.Open then Cooling(B.Cooldown(BREAKER, s, e.cooldownAt))
      else if e.untilWake.Some? then Sleeping(Max(MIN_SLEEP_MS, e.untilWake.value))
      else BackingOff(e.backoffMs)
  }

  /** ... and what it leaves behind. */
  function AfterFailure(bot: Bot, e: Env): Bot {
    var s := B.AfterFailure(BREAKER, bot.breaker, e.failedAt);
    if bot.attempts >= MAX_RECONNECT_ATTEMPTS then
      bot.(attempts := 0, breaker := B.ClosedAgain(s), timer := None, status := Failed)
    else
      var s1 := B.AfterCooldown(BREAKER, s, e.stateAt);
      var s2 := if s1.phase == B.Open then B.AfterCooldown(BREAKER, s1, e.cooldownAt) else s1;
      bot.(attempts := bot.attempts + 1, breaker := s2, timer := Some(e.armedAt + Decision(bot, e).ms))
  }

  /** The timer fires: a retry happens exactly when the breaker lets the attempt through. */
  predicate Retries(bot: Bot, firedAt: int) {
    B.Permitted(BREAKER, bot.breaker, firedAt)
  }

  function AfterTimer(bot: Bot, firedAt: int): Bot {
    bot.(timer := None, breaker := B.AfterAttempt(BREAKER, bot.breaker, firedAt),
         status := if Retries(bot, firedAt) then Connecting else bot.status)
  }

  /** A bot's reconnect bookkeeping, changed in place. */
  class ReconnectLoop {
    const breaker: B.CircuitBreaker
    var attempts: nat
    var timer: Option<int>
    var status: Status

    ghost predicate Valid()
      reads this, breaker
    {
      breaker.options == BREAKER
    }

    function View(): Bot
      reads this, breaker
    {
      Bot(attempts, breaker.View(), timer, status)
    }

    constructor ()
      ensures Valid() && fresh(breaker)
      ensures View() == Bot(0, B.FRESH, None, Connecting)
    {
      breaker := new B.CircuitBreaker(BREAKER);
      attempts, timer, status := 0, None, Connecting;
    }

    method ScheduleReconnect(clock: Env, failureRate: Backoff.Num, jitter: real, spread: real)
      returns (outcome: Outcome)
      requires Valid()
      modifies this, breaker
      ensures Valid()
      ensures var e := clock.(backoffMs := BackoffMs(old(attempts), failureRate, jitter, spread));
              outcome == Decision(old(View()), e) && View() == AfterFailure(old(View()), e)
      ensures outcome.BackingOff? && 0.0 <= jitter < 1.0 && 0.0 <= spread < 1.0 ==>
                Round(0.75 * Backoff.Lesser(1000.0 * Backoff.Pow2(old(attempts)), Backoff.MAX_MS)) <= outcome.ms <= 375_000
    {
      breaker.RecordFailure(clock.failedAt);
      if attempts >= MAX_RECONNECT_ATTEMPTS {
        breaker.Reset();
        attempts, timer, status := 0, None, Failed;
        return GaveUp;
      }
      var attempt := attempts;
      attempts := attempts + 1;
      var phase := breaker.GetState(clock.stateAt);
      if phase == B.Open {
        var cooldown := breaker.RemainingCooldownMs(clock.cooldownAt);
        outcome := Cooling(cooldown);
      } else if clock.untilWake.Some? {
        outcome := Sleeping(Max(MIN_SLEEP_MS, clock.untilWake.value));
      } else {
        outcome := BackingOff(BackoffMs(attempt, failureRate, jitter, spread));
        if 0.0 <= jitter < 1.0 && 0.0 <= spread < 1.0 { BackoffMsBounds(attempt, failureRate, jitter, spread); }
      }
      timer := Some(clock.armedAt + outcome.ms);
    }

    method AttemptReconnect(firedAt: int) returns (connecting: bool)
      requires Valid()
      modifies this, breaker
      ensures Valid()
      ensures connecting == Retries(old(View()), firedAt) && View() == AfterTimer(old(View()), firedAt)
    {
      timer := None;
      connecting := breaker.CanAttempt(firedAt);
      if connecting { status := Connecting; }
    }
  }

  // ---- Delays ----

  /** Jittered by a quarter either way: never above 1.25 times the five-minute cap, and never
      below three quarters of the plain exponential. */
  lemma BackoffMsBounds(attempt: nat, failureRate: Backoff.Num, jitter: real, spread: real)
    requires 0.0 <= jitter < 1.0 && 0.0 <= spread < 1.0
    ensures var plain := Backoff.Lesser(1000.0 * Backoff.Pow2(attempt), Backoff.MAX_MS);
            Round(0.75 * plain) <= BackoffMs(attempt, failureRate, jitter, spread) <= 375_000
    ensures BackoffMs(attempt, failureRate, jitter, spread) > 0
  {
    hide Backoff.CalculateBackoff, Spread, Round;
    Backoff.DefaultBackoffBounds(attempt, failureRate, jitter);
    var d := Backoff.CalculateBackoff(Backoff.Finite(attempt as real), failureRate, Backoff.DEFAULTS, jitter);
    QuarterEitherWay(Backoff.Lesser(1000.0 * Backoff.Pow2(attempt), Backoff.MAX_MS), d, spread);
  }

  lemma QuarterEitherWay(low: real, d: real, spread: real)
    requires 1000.0 <= low <= d <= Backoff.MAX_MS && 0.0 <= spread < 1.0
    ensures 0 < Round(0.75 * low) <= Round(Spread(d, spread)) <= 375_000
  {
    hide Round, Spread;
    SpreadBounds(d, spread);
    RoundGrows(750.0, 0.75 * low);
    RoundGrows(0.75 * low, Spread(d, spread));
    RoundGrows(Spread(d, spread), 375_000.0);
    Rounded();
  }

  lemma SpreadBounds(d: real, spread: real)
    requires d >= 0.0 && 0.0 <= spread < 1.0
    ensures d * 0.75 <= Spread(d, spread) <= d * 1.25
  {
    Backoff.Scaled(d, 0.75, 0.75 + spread * 0.5);
    Backoff.Scaled(d, 0.75 + spread * 0.5, 1.25);
  }

  lemma RoundGrows(x: real, y: real)
    requires x <= y
    ensures Round(x) <= Round(y)
  {
  }

  lemma Rounded()
    ensures Round(750.0) == 750 && Round(375_000.0) == 375_000
  {
  }

  /** What follows a failed connect: after ten retries nothing; with the breaker tripped, by the
      fifth failure in a row or by a failed probe, a wait until a minute has passed since; a
      sleeping bot waits until it wakes, a minute at least; any other its backoff. */
  lemma NextWait(bot: Bot, e: Env)
    ensures var after := AfterFailure(bot, e);
            var tripped := bot.breaker.phase != B.Closed || bot.breaker.failures >= 4;
            var since := if bot.breaker.phase == B.Open then bot.breaker.openedAt else e.failedAt;
            if bot.attempts >= 10 then after.timer == None && after.status == Failed && after.attempts == 0
            else
              && after.attempts == bot.attempts + 1 && after.status == bot.status && after.timer.Some?
              && var wait := after.timer.value - e.armedAt;
                 wait == if tripped && e.stateAt - since < 60_000 then Max(0, since + 60_000 - e.cooldownAt)
                         else if e.untilWake.Some? then Max(60_000, e.untilWake.value)
                         else e.backoffMs
  {
  }

  // ---- Runs in which every connect throws ----

  /** One retry: when the timer fired, and what the failing connect then met. */
  datatype Retry = Retry(firedAt: int, env: Env)

  /** The bot after a first failed connect and n failed retries. */
  function Failing(start: Bot, first: Env, rs: seq<Retry>, n: nat): Bot
    requires n <= |rs|
  {
    if n == 0 then AfterFailure(start, first)
    else AfterFailure(AfterTimer(Failing(start, first, rs, n - 1), rs[n - 1].firedAt), rs[n - 1].env)
  }

  function EnvAt(first: Env, rs: seq<Retry>, n: nat): Env
    requires n <= |rs|
  {
    if n == 0 then first else rs[n - 1].env
  }

  /** Clocks move forward, and none of the first n timers fires before its time. */
  predicate Timely(start: Bot, first: Env, rs: seq<Retry>, n: nat)
    requires n <= |rs|
  {
    if n == 0 then ValidEnv(first)
    else
      var bot, r := Failing(start, first, rs, n - 1), rs[n - 1];
      && Timely(start, first, rs, n - 1)
      && bot.timer.Some? && bot.timer.value <= r.firedAt <= r.env.failedAt && ValidEnv(r.env)
  }

  /** Each of the first n timer firings leads to a connect attempt. */
  predicate AllRetry(start: Bot, first: Env, rs: seq<Retry>, n: nat)
    requires n <= |rs|
  {
    n == 0 || (AllRetry(start, first, rs, n - 1) && Retries(Failing(start, first, rs, n - 1), rs[n - 1].firedAt))
  }

  /** A pending timer whose firing will find the breaker willing. */
  ghost predicate WillRetry(bot: Bot) {
    && bot.timer.Some?
    && (bot.breaker.phase == B.HalfOpen ==> bot.breaker.probesRemaining == 1)
    && (bot.breaker.phase == B.Open ==> bot.breaker.openedAt + BREAKER.resetTimeoutMs <= bot.timer.value)
  }

  lemma FailureLeavesATimer(bot: Bot, e: Env)
    requires ValidEnv(e) && bot.attempts < MAX_RECONNECT_ATTEMPTS
    requires bot.breaker.phase == B.Open ==> bot.breaker.openedAt <= e.failedAt
    ensures WillRetry(AfterFailure(bot, e)) && AfterFailure(bot, e).attempts == bot.attempts + 1
    ensures var s := AfterFailure(bot, e).breaker; s.phase == B.Open ==> s.openedAt <= e.failedAt
  {
  }

  /** Whatever state the breaker was in, every timer firing is a retry and leaves a new timer. */
  lemma {:induction false} EveryTimerRetries(start: Bot, first: Env, rs: seq<Retry>, n: nat)
    requires n <= |rs| && Timely(start, first, rs, n)
    requires start.attempts + n < MAX_RECONNECT_ATTEMPTS
    requires start.breaker.phase == B.Open ==> start.breaker.openedAt <= first.failedAt
    ensures var bot := Failing(start, first, rs, n);
            && WillRetry(bot) && bot.attempts == start.attempts + n + 1
            && (bot.breaker.phase == B.Open ==> bot.breaker.openedAt <= EnvAt(first, rs, n).failedAt)
    ensures AllRetry(start, first, rs, n)
  {
    if n == 0 {
      FailureLeavesATimer(start, first);
    } else {
      EveryTimerRetries(start, first, rs, n - 1);
      var bot := Failing(start, first, rs, n - 1);
      FailureLeavesATimer(AfterTimer(bot, rs[n - 1].firedAt), rs[n - 1].env);
    }
  }

  /** The run ends by itself after exactly MAX_RECONNECT_ATTEMPTS retries (less the attempts
      already counted): every timer before fired into a retry, and afterwards no timer is left,
      the counter is 0, the breaker is closed with no failure on record, the status is an error. */
  lemma GivesUpAfterTheLastRetry(start: Bot, first: Env, rs: seq<Retry>)
    requires start.attempts < MAX_RECONNECT_ATTEMPTS && start.attempts + |rs| == MAX_RECONNECT_ATTEMPTS
    requires Timely(start, first, rs, |rs|)
    requires start.breaker.phase == B.Open ==> start.breaker.openedAt <= first.failedAt
    ensures AllRetry(start, first, rs, |rs|)
    ensures var bot := Failing(start, first, rs, |rs|);
            && bot.timer == None && bot.attempts == 0 && bot.status == Failed
            && bot.breaker.phase == B.Closed && bot.breaker.failures == 0
  {
    hide AfterFailure, AfterTimer;
    EveryTimerRetries(start, first, rs, |rs| - 1);
    LastFailure(Failing(start, first, rs, |rs| - 1), rs[|rs| - 1].firedAt, rs[|rs| - 1].env);
  }

  lemma LastFailure(bot: Bot, firedAt: int, e: Env)
    requires WillRetry(bot) && bot.timer.value <= firedAt && bot.attempts == MAX_RECONNECT_ATTEMPTS
    ensures Retries(bot, firedAt)
    ensures var after := AfterFailure(AfterTimer(bot, firedAt), e);
            && after.timer == None && after.attempts == 0 && after.status == Failed
            && after.breaker.phase == B.Closed && after.breaker.failures == 0
  {
  }

  /** ... and no run of failing retries is longer. */
  lemma NoLaterRetry(start: Bot, first: Env, rs: seq<Retry>, n: nat)
    requires start.attempts < MAX_RECONNECT_ATTEMPTS && n <= |rs| && Timely(start, first, rs, n)
    requires start.breaker.phase == B.Open ==> start.breaker.openedAt <= first.failedAt
    ensures start.attempts + n <= MAX_RECONNECT_ATTEMPTS
  {
    var last := MAX_RECONNECT_ATTEMPTS - start.attempts;
    if n > last {
      TimelyPrefix(start, first, rs, last + 1, n);
      EveryTimerRetries(start, first, rs, last - 1);
      assert false;
    }
  }

  lemma {:induction false} TimelyPrefix(start: Bot, first: Env, rs: seq<Retry>, m: nat, n: nat)
    requires m <= n <= |rs| && Timely(start, first, rs, n)
    ensures Timely(start, first, rs, m)
  {
    if m < n { TimelyPrefix(start, first, rs, m, n - 1); }
  }

  /** The breaker of a bot with a clean record after n + 1 failures, the last of them met in e. */
  predicate FreshAfter(bot: Bot, e: Env, n: nat) {
    && (n < 4 ==> bot.breaker == B.State(B.Closed, n + 1, 0, 0, 0))
    && (n >= 4 ==> bot.breaker.phase != B.Closed
                   && bot.timer.Some? && e.failedAt + BREAKER.resetTimeoutMs <= bot.timer.value)
    && (bot.breaker.phase == B.Open ==> bot.breaker.openedAt == e.failedAt)
  }

  lemma FreshFailure(bot: Bot, e: Env, n: nat)
    requires ValidEnv(e) && bot.attempts < MAX_RECONNECT_ATTEMPTS
    requires if n <= 4 then bot.breaker == B.State(B.Closed, n, 0, 0, 0) else bot.breaker.phase == B.HalfOpen
    ensures FreshAfter(AfterFailure(bot, e), e, n)
  {
  }

  lemma FreshTimer(bot: Bot, e: Env, n: nat, firedAt: int)
    requires FreshAfter(bot, e, n) && WillRetry(bot) && bot.timer.value <= firedAt
    ensures var s := AfterTimer(bot, firedAt);
            && s.attempts == bot.attempts
            && if n < 4 then s.breaker == bot.breaker else s.breaker.phase == B.HalfOpen
  {
  }

  /** A bot that starts with a clean record: the fifth failure trips the breaker, and from then
      on every retry comes at least one cooldown after the failure before it. */
  lemma {:induction false} FreshRunBreaker(start: Bot, first: Env, rs: seq<Retry>, n: nat)
    requires n <= |rs| && n < MAX_RECONNECT_ATTEMPTS && Timely(start, first, rs, n)
    requires start.attempts == 0 && start.breaker == B.FRESH
    ensures FreshAfter(Failing(start, first, rs, n), EnvAt(first, rs, n), n)
  {
    hide FreshAfter, AfterFailure, AfterTimer, WillRetry, ValidEnv;
    if n == 0 {
      FreshFailure(start, first, 0);
    } else {
      FreshRunBreaker(start, first, rs, n - 1);
      EveryTimerRetries(start, first, rs, n - 1);
      var bot, r := Failing(start, first, rs, n - 1), rs[n - 1];
      FreshTimer(bot, EnvAt(first, rs, n - 1), n - 1, r.firedAt);
      FreshIs(bot, EnvAt(first, rs, n - 1), n - 1);
      FreshFailure(AfterTimer(bot, r.firedAt), r.env, n);
    }
  }

  lemma FreshIs(bot: Bot, e: Env, n: nat)
    requires FreshAfter(bot, e, n)
    ensures n < 4 ==> bot.breaker == B.State(B.Closed, n + 1, 0, 0, 0)
  {
  }
}
