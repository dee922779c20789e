/** The in-memory sliding-window limiter (packages/core/src/utils/rate-limiter.ts). */
module RateLimiters {
  import opened Common

  const PRUNE_ABOVE := 1_000

  datatype Limits = Limits(maxRequests: int, windowMs: int)

  /** What is being limited: a bot, or a bot and an action. */
  datatype Key = Key(name: string)

  type Table = map<Key, seq<int>>

  // ---- What the calls answer and leave behind ----

  /** The timestamps later than `start`, in order. */
  function Alive(ts: seq<int>, start: int): (r: seq<int>)
    ensures |r| <= |ts|
  {
    if ts == [] then []
    else
      var rest := Alive(ts[..|ts| - 1], start);
      if ts[|ts| - 1] > start then rest + [ts[|ts| - 1]] else rest
  }

  function Get(m: Table, key: Key): seq<int> {
    if key in m then m[key] else []
  }

  function InWindow(l: Limits, m: Table, key: Key, now: int): seq<int> {
    Alive(Get(m, key), now - l.windowMs)
  }

  predicate Accepts(l: Limits, m: Table, key: Key, now: int) {
    |InWindow(l, m, key, now)| < l.maxRequests
  }

  function Pruned(l: Limits, m: Table, now: int): Table {
    map k | k in m && InWindow(l, m, k, now) != [] :: InWindow(l, m, k, now)
  }

  function Stored(m: Table, key: Key, ts: seq<int>): Table {
    if ts == [] then m - {key} else m[key := ts]
  }

  /** The table after check; `pruneAt` is the clock reading of the pruning pass, if one runs. */
  function AfterCheck(l: Limits, m: Table, key: Key, now: int, pruneAt: int): Table {
    var alive := InWindow(l, m, key, now);
    if !Accepts(l, m, key, now) then Stored(m, key, alive)
    else
      var m1 := Stored(m, key, alive)[key := alive + [now]];
      if |m1| > PRUNE_ABOVE then Pruned(l, m1, pruneAt) else m1
  }

  function WaitDelay(l: Limits, m: Table, key: Key, now: int): int {
    var alive := InWindow(l, m, key, now);
    if |alive| < l.maxRequests || alive == [] then 0
    else Max(1, alive[0] - (now - l.windowMs))
  }

  function Remaining(l: Limits, m: Table, key: Key, now: int): int {
    Max(0, l.maxRequests - |InWindow(l, m, key, now)|)
  }

  class RateLimiter {
    const limits: Limits
    var timestamps: Table

    constructor (limits: Limits)
      ensures this.limits == limits && timestamps == map[]
    {
      this.limits := limits;
      timestamps := map[];
    }

    static method Filter(ts: seq<int>, start: int) returns (alive: seq<int>)
      ensures alive == Alive(ts, start)
    {
      alive := [];
      for i := 0 to |ts|
        invariant alive == Alive(ts[..i], start)
      {
        assert ts[..i + 1][..i] == ts[..i];
        if ts[i] > start { alive := alive + [ts[i]]; }
      }
      assert ts[..|ts|] == ts;
    }

    method Check(key: Key, now: int, pruneAt: int) returns (accepted: bool)
      modifies this
      ensures accepted == Accepts(limits, old(timestamps), key, now)
      ensures timestamps == AfterCheck(limits, old(timestamps), key, now, pruneAt)
    {
      hide Alive, Pruned;
      var found := if key in timestamps then timestamps[key] else [];
      var alive := Filter(found, now - limits.windowMs);
      if alive == [] { timestamps := timestamps - {key}; } else { timestamps := timestamps[key := alive]; }
      assert timestamps == Stored(old(timestamps), key, alive) && alive == InWindow(limits, old(timestamps), key, now);
      hide Stored, InWindow, Get;
      if |alive| >= limits.maxRequests { return false; }
      timestamps := timestamps[key := alive + [now]];
      if |timestamps| > PRUNE_ABOVE { PruneExpired(pruneAt); }
      return true;
    }

    method PruneExpired(now: int)
      modifies this
      ensures timestamps == Pruned(limits, old(timestamps), now)
    {
      hide Alive, InWindow;
      ghost var before := timestamps;
      var todo := timestamps.Keys;
      while todo != {}
        invariant todo <= before.Keys
        invariant forall k :: k in todo ==> k in timestamps && timestamps[k] == before[k]
        invariant forall k :: k !in todo ==>
                    (k in timestamps <==> k in before && InWindow(limits, before, k, now) != [])
        invariant forall k :: k !in todo && k in timestamps ==> timestamps[k] == InWindow(limits, before, k, now)
        decreases todo
      {
        var key :| key in todo;
        todo := todo - {key};
        var alive := Filter(timestamps[key], now - limits.windowMs);
        InWindowIs(limits, before, key, now);
        if alive == [] { timestamps := timestamps - {key}; } else { timestamps := timestamps[key := alive]; }
      }
    }

    method GetWaitDelay(key: Key, now: int) returns (ms: int)
      ensures ms == WaitDelay(limits, timestamps, key, now)
    {
      var alive := Filter(if key in timestamps then timestamps[key] else [], now - limits.windowMs);
      if |alive| < limits.maxRequests || alive == [] { return 0; }
      ms := Max(1, alive[0] - (now - limits.windowMs));
    }

    method GetRemaining(key: Key, now: int) returns (n: int)
      ensures n == Remaining(limits, timestamps, key, now)
    {
      var alive := Filter(if key in timestamps then timestamps[key] else [], now - limits.windowMs);
      n := Max(0, limits.maxRequests - |alive|);
    }
  }

  // ---- Runs: any sequence of checks on any keys ----

  datatype Call = Call(key: Key, at: int, pruneAt: int)

  function At(l: Limits, cs: seq<Call>): Table {
    if cs == [] then map[]
    else
      var c := cs[|cs| - 1];
      AfterCheck(l, At(l, cs[..|cs| - 1]), c.key, c.at, c.pruneAt)
  }

  /** When the accepted calls on `key` happened. */
  function Accepted(l: Limits, cs: seq<Call>, key: Key): seq<int> {
    if cs == [] then []
    else
      var earlier, c := cs[..|cs| - 1], cs[|cs| - 1];
      var before := Accepted(l, earlier, key);
      if c.key == key && Accepts(l, At(l, earlier), key, c.at) then before + [c.at] else before
  }

  /** The calls happened in this order, the last one no later than `now`. */
  predicate Clock(cs: seq<Call>, now: int) {
    cs == [] || (cs[|cs| - 1].at <= cs[|cs| - 1].pruneAt <= now && Clock(cs[..|cs| - 1], cs[|cs| - 1].at))
  }

  /** How many of the timestamps lie in (lo, hi]. */
  function CountIn(ts: seq<int>, lo: int, hi: int): nat {
    if ts == [] then 0
    else CountIn(ts[..|ts| - 1], lo, hi) + if lo < ts[|ts| - 1] <= hi then 1 else 0
  }

  lemma {:induction false} AliveTwice(ts: seq<int>, a: int, b: int)
    requires a <= b
    ensures Alive(Alive(ts, a), b) == Alive(ts, b)
  {
    if ts != [] {
      AliveTwice(ts[..|ts| - 1], a, b);
      var r := Alive(ts[..|ts| - 1], a);
      assert (r + [ts[|ts| - 1]])[..|r|] == r;
    }
  }

  lemma AlivePush(ts: seq<int>, t: int, start: int)
    ensures Alive(ts + [t], start) == if t > start then Alive(ts, start) + [t] else Alive(ts, start)
  {
    assert (ts + [t])[..|ts|] == ts;
  }

  lemma CountPush(ts: seq<int>, t: int, lo: int, hi: int)
    ensures CountIn(ts + [t], lo, hi) == CountIn(ts, lo, hi) + if lo < t <= hi then 1 else 0
  {
    assert (ts + [t])[..|ts|] == ts;
  }

  lemma {:induction false} CountWithinAlive(ts: seq<int>, start: int, lo: int, hi: int)
    requires start <= lo
    ensures CountIn(ts, lo, hi) <= |Alive(ts, start)|
  {
    if ts != [] { CountWithinAlive(ts[..|ts| - 1], start, lo, hi); }
  }

  /** Two tables that hold the same timestamps for every window ending at `now` or later. */
  ghost predicate SameAnswers(l: Limits, m: Table, m': Table, now: int) {
    forall key: Key :: InWindow(l, m, key, now) == InWindow(l, m', key, now)
  }

  lemma LaterWindow(l: Limits, m: Table, key: Key, now: int, later: int)
    requires now <= later
    ensures InWindow(l, m, key, later) == Alive(InWindow(l, m, key, now), later - l.windowMs)
  {
    AliveTwice(Get(m, key), now - l.windowMs, later - l.windowMs);
  }

  lemma GetPruned(l: Limits, m: Table, now: int, k: Key)
    ensures Get(Pruned(l, m, now), k) == InWindow(l, m, k, now)
  {
  }

  /** The list a check keeps for a key, before any pruning. */
  function Kept(l: Limits, m: Table, key: Key, at: int, k: Key): seq<int> {
    if k != key then Get(m, k)
    else if Accepts(l, m, key, at) then InWindow(l, m, key, at) + [at]
    else InWindow(l, m, key, at)
  }

  lemma GetAfterCheck(l: Limits, m: Table, key: Key, at: int, pruneAt: int, k: Key)
    ensures var r, ts := Get(AfterCheck(l, m, key, at, pruneAt), k), Kept(l, m, key, at, k);
            r == ts || r == Alive(ts, pruneAt - l.windowMs)
  {
    hide Accepts, Pruned, Alive, Stored, Get, InWindow;
    var alive := InWindow(l, m, key, at);
    GetStored(m, key, alive, k);
    if Accepts(l, m, key, at) {
      var m1 := Stored(m, key, alive)[key := alive + [at]];
      GetUpdated(Stored(m, key, alive), key, alive + [at], k);
      GetPruned(l, m1, pruneAt, k);
      InWindowIs(l, m1, k, pruneAt);
    }
  }

  lemma GetStored(m: Table, key: Key, ts: seq<int>, k: Key)
    ensures Get(Stored(m, key, ts), k) == if k == key then ts else Get(m, k)
  {
  }

  lemma GetUpdated(m: Table, key: Key, ts: seq<int>, k: Key)
    ensures Get(m[key := ts], k) == if k == key then ts else Get(m, k)
  {
  }

  lemma InWindowIs(l: Limits, m: Table, key: Key, now: int)
    ensures InWindow(l, m, key, now) == Alive(Get(m, key), now - l.windowMs)
  {
  }

  lemma AliveOfEither(r: seq<int>, ts: seq<int>, a: int, b: int)
    requires a <= b && (r == ts || r == Alive(ts, a))
    ensures Alive(r, b) == Alive(ts, b)
  {
    AliveTwice(ts, a, b);
  }

  /** What a check leaves in a window: the old contents, and its own timestamp if accepted. */
  lemma WindowAfterCheck(l: Limits, m: Table, key: Key, at: int, pruneAt: int, k: Key, now: int)
    requires at <= pruneAt <= now
    ensures InWindow(l, AfterCheck(l, m, key, at, pruneAt), k, now)
            == if k == key && Accepts(l, m, key, at) && at > now - l.windowMs
               then InWindow(l, m, k, now) + [at] else InWindow(l, m, k, now)
  {
    hide AfterCheck, Alive;
    GetAfterCheck(l, m, key, at, pruneAt, k);
    var r, ts := Get(AfterCheck(l, m, key, at, pruneAt), k), Kept(l, m, key, at, k);
    AliveOfEither(r, ts, pruneAt - l.windowMs, now - l.windowMs);
    if k == key {
      LaterWindow(l, m, key, at, now);
      AlivePush(InWindow(l, m, key, at), at, now - l.windowMs);
    }
  }

  /** Pruning never changes an answer, now or later: whatever happens next ... */
  lemma PruningIsInvisible(l: Limits, m: Table, now: int)
    ensures SameAnswers(l, m, Pruned(l, m, now), now)
  {
    hide Pruned;
    forall key: Key ensures InWindow(l, m, key, now) == InWindow(l, Pruned(l, m, now), key, now) {
      GetPruned(l, m, now, key);
      LaterWindow(l, m, key, now, now);
    }
  }

  /** ... the two tables give the same answers and stay alike. */
  lemma AlikeForever(l: Limits, m: Table, m': Table, now: int, key: Key, at: int, pruneAt: int)
    requires SameAnswers(l, m, m', now) && now <= at <= pruneAt
    ensures Accepts(l, m, key, at) == Accepts(l, m', key, at)
    ensures WaitDelay(l, m, key, at) == WaitDelay(l, m', key, at)
    ensures Remaining(l, m, key, at) == Remaining(l, m', key, at)
    ensures SameAnswers(l, AfterCheck(l, m, key, at, pruneAt), AfterCheck(l, m', key, at, pruneAt), pruneAt)
  {
    LaterWindow(l, m, key, now, at);
    LaterWindow(l, m', key, now, at);
    forall k: Key
      ensures InWindow(l, AfterCheck(l, m, key, at, pruneAt), k, pruneAt)
              == InWindow(l, AfterCheck(l, m', key, at, pruneAt), k, pruneAt)
    {
      WindowAfterCheck(l, m, key, at, pruneAt, k, pruneAt);
      WindowAfterCheck(l, m', key, at, pruneAt, k, pruneAt);
      LaterWindow(l, m, k, now, pruneAt);
      LaterWindow(l, m', k, now, pruneAt);
    }
  }

  lemma CheckRemembers(l: Limits, m: Table, accepted: seq<int>, c: Call, key: Key, now: int)
    requires InWindow(l, m, key, c.at) == Alive(accepted, c.at - l.windowMs) && c.at <= c.pruneAt <= now
    ensures InWindow(l, AfterCheck(l, m, c.key, c.at, c.pruneAt), key, now)
            == Alive(if c.key == key && Accepts(l, m, key, c.at) then accepted + [c.at] else accepted, now - l.windowMs)
  {
    hide AfterCheck, InWindow, Alive;
    WindowAfterCheck(l, m, c.key, c.at, c.pruneAt, key, now);
    LaterWindow(l, m, key, c.at, now);
    AliveTwice(accepted, c.at - l.windowMs, now - l.windowMs);
    AlivePush(accepted, c.at, now - l.windowMs);
  }

  lemma NothingYet(l: Limits, key: Key, now: int)
    ensures InWindow(l, map[], key, now) == [] == Alive([], now - l.windowMs)
  {
  }

  /** The limiter remembers exactly the accepted calls of the current window. */
  lemma {:induction false} RemembersAccepted(l: Limits, cs: seq<Call>, key: Key, now: int)
    requires Clock(cs, now)
    ensures InWindow(l, At(l, cs), key, now) == Alive(Accepted(l, cs, key), now - l.windowMs)
  {
    hide AfterCheck, InWindow, Alive;
    if cs == [] {
      NothingYet(l, key, now);
    } else {
      var earlier, c := cs[..|cs| - 1], cs[|cs| - 1];
      RemembersAccepted(l, earlier, key, c.at);
      CheckRemembers(l, At(l, earlier), Accepted(l, earlier, key), c, key, now);
    }
  }

  /** Over any run and for every t, at most maxRequests accepted calls on a key lie in
      (t - windowMs, t]. */
  lemma {:induction false} SlidingWindow(l: Limits, cs: seq<Call>, key: Key, now: int, t: int)
    requires Clock(cs, now)
    ensures CountIn(Accepted(l, cs, key), t - l.windowMs, t) <= Max(0, l.maxRequests)
  {
    hide AfterCheck, InWindow, Alive;
    if cs != [] {
      var earlier, c := cs[..|cs| - 1], cs[|cs| - 1];
      var before := Accepted(l, earlier, key);
      SlidingWindow(l, earlier, key, c.at, t);
      CountPush(before, c.at, t - l.windowMs, t);
      if c.key == key && Accepts(l, At(l, earlier), key, c.at) && c.at <= t {
        RemembersAccepted(l, earlier, key, c.at);
        CountWithinAlive(before, c.at - l.windowMs, t - l.windowMs, t);
      }
    }
  }

  // ---- The three queries agree, and the wait is exact ----

  predicate Sorted(ts: seq<int>) {
    forall i, j :: 0 <= i < j < |ts| ==> ts[i] <= ts[j]
  }

  /** In order, in the past, and within the limit: what every run keeps of each list. */
  ghost predicate InOrder(l: Limits, ts: seq<int>, now: int) {
    Sorted(ts) && |ts| <= Max(0, l.maxRequests) && forall i :: 0 <= i < |ts| ==> ts[i] <= now
  }

  ghost predicate WellKept(l: Limits, m: Table, now: int) {
    forall key: Key :: InOrder(l, Get(m, key), now)
  }

  lemma {:induction false} AliveKeepsOrder(l: Limits, ts: seq<int>, start: int, now: int)
    requires InOrder(l, ts, now)
    ensures InOrder(l, Alive(ts, start), now)
    ensures forall i :: 0 <= i < |Alive(ts, start)| ==> start < Alive(ts, start)[i]
  {
    if ts != [] {
      AliveKeepsOrder(l, ts[..|ts| - 1], start, ts[|ts| - 1]);
    }
  }

  lemma CheckKeepsOrder(l: Limits, m: Table, before: int, c: Call)
    requires WellKept(l, m, before) && before <= c.at <= c.pruneAt
    ensures WellKept(l, AfterCheck(l, m, c.key, c.at, c.pruneAt), c.pruneAt)
  {
    hide AfterCheck;
    forall key: Key ensures InOrder(l, Get(AfterCheck(l, m, c.key, c.at, c.pruneAt), key), c.pruneAt) {
      assert InOrder(l, Get(m, key), before);
      GetAfterCheck(l, m, c.key, c.at, c.pruneAt, key);
      KeptInOrder(l, m, before, c, key);
      AliveKeepsOrder(l, Kept(l, m, c.key, c.at, key), c.pruneAt - l.windowMs, c.pruneAt);
    }
  }

  lemma KeptInOrder(l: Limits, m: Table, before: int, c: Call, key: Key)
    requires InOrder(l, Get(m, key), before) && before <= c.at <= c.pruneAt
    ensures InOrder(l, Kept(l, m, c.key, c.at, key), c.pruneAt)
  {
    AliveKeepsOrder(l, Get(m, key), c.at - l.windowMs, before);
  }

  lemma {:induction false} RunsAreWellKept(l: Limits, cs: seq<Call>, now: int)
    requires Clock(cs, now)
    ensures WellKept(l, At(l, cs), now)
  {
    hide AfterCheck;
    if cs != [] {
      var earlier, c := cs[..|cs| - 1], cs[|cs| - 1];
      RunsAreWellKept(l, earlier, c.at);
      CheckKeepsOrder(l, At(l, earlier), c.at, c);
    }
  }

  /** check accepts exactly when getRemaining is positive, exactly when there is no wait. */
  lemma QueriesAgree(l: Limits, m: Table, key: Key, now: int)
    requires l.maxRequests > 0
    ensures Accepts(l, m, key, now) <==> Remaining(l, m, key, now) > 0
    ensures Accepts(l, m, key, now) <==> WaitDelay(l, m, key, now) == 0
  {
  }

  lemma {:induction false} AliveDropsOldest(ts: seq<int>, start: int)
    requires Sorted(ts)
    ensures |Alive(ts, start)| == |ts| <==> ts == [] || ts[0] > start
  {
    if |ts| > 1 { AliveDropsOldest(ts[..|ts| - 1], start); }
  }

  /** With no other call in between, check accepts `delay` later exactly when the delay is at
      least what waitDelay says: the wait is the least one that works. */
  lemma WaitIsExact(l: Limits, m: Table, key: Key, now: int, delay: nat)
    requires l.maxRequests > 0 && WellKept(l, m, now)
    ensures Accepts(l, m, key, now + delay) <==> delay >= WaitDelay(l, m, key, now)
  {
    var alive := InWindow(l, m, key, now);
    assert InOrder(l, alive, now) && forall i :: 0 <= i < |alive| ==> now - l.windowMs < alive[i] by {
      assert InOrder(l, Get(m, key), now);
      AliveKeepsOrder(l, Get(m, key), now - l.windowMs, now);
    }
    hide InWindow, WellKept;
    LaterWindow(l, m, key, now, now + delay);
    AliveDropsOldest(alive, now + delay - l.windowMs);
  }

  // ---- What the table keeps ----

  /** The table does not grow with the number of keys ever seen: an accepted call leaves at most
      1000 keys or none without a timestamp in the window of the pruning pass, and no check leaves
      a key without timestamps. */
  lemma TableStaysTidy(l: Limits, m: Table, key: Key, now: int, pruneAt: int)
    ensures var after := AfterCheck(l, m, key, now, pruneAt);
            && (Accepts(l, m, key, now) && |after| > 1_000 ==>
                  forall k :: k in after ==> after[k] != [] && forall t :: t in after[k] ==> t > pruneAt - l.windowMs)
            && (key in after ==> after[key] != [])
  {
    var alive := InWindow(l, m, key, now);
    PrunedIsTidy(l, Stored(m, key, alive)[key := alive + [now]], pruneAt);
    hide InWindow, Pruned;
  }

  lemma PrunedIsTidy(l: Limits, m: Table, now: int)
    ensures var after := Pruned(l, m, now);
            forall k :: k in after ==> after[k] != [] && forall t :: t in after[k] ==> t > now - l.windowMs
  {
    hide Alive;
    forall k | k in Pruned(l, m, now) ensures forall t :: t in Pruned(l, m, now)[k] ==> t > now - l.windowMs {
      AliveAreAlive(Get(m, k), now - l.windowMs);
    }
  }

  lemma {:induction false} AliveAreAlive(ts: seq<int>, start: int)
    ensures forall t :: t in Alive(ts, start) ==> t > start
  {
    if ts != [] { AliveAreAlive(ts[..|ts| - 1], start); }
  }

  // ---- Which calls are accepted ----

  lemma {:induction false} AcceptedInPast(l: Limits, cs: seq<Call>, key: Key, now: int)
    requires Clock(cs, now)
    ensures forall i :: 0 <= i < |Accepted(l, cs, key)| ==> Accepted(l, cs, key)[i] <= now
  {
    hide Accepts, At;
    if cs != [] { AcceptedInPast(l, cs[..|cs| - 1], key, cs[|cs| - 1].at); }
  }

  lemma {:induction false} AliveCounts(ts: seq<int>, start: int, now: int)
    requires forall i :: 0 <= i < |ts| ==> ts[i] <= now
    ensures |Alive(ts, start)| == CountIn(ts, start, now)
  {
    if ts != [] { AliveCounts(ts[..|ts| - 1], start, now); }
  }

  /** In every run a call is accepted exactly when fewer than maxRequests calls on its key were
      accepted in (now - windowMs, now], and getRemaining answers how many more there may be. */
  lemma AcceptsIffRoom(l: Limits, cs: seq<Call>, key: Key, now: int)
    requires Clock(cs, now)
    ensures var used := CountIn(Accepted(l, cs, key), now - l.windowMs, now);
            && (Accepts(l, At(l, cs), key, now) <==> used < l.maxRequests)
            && Remaining(l, At(l, cs), key, now) == if used < l.maxRequests then l.maxRequests - used else 0
  {
    hide At, Accepted, Clock, CountIn, Alive;
    RemembersAccepted(l, cs, key, now);
    AcceptedInPast(l, cs, key, now);
    AliveCounts(Accepted(l, cs, key), now - l.windowMs, now);
  }
}
