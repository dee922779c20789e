/** The Redis-backed limiter with its in-memory fallback
    (packages/core/src/utils/redis-rate-limiter.ts): a fixed window shared by every replica. */
module RedisRateLimiters {
  import opened Common
  import R = RateLimiters

  /** A Redis counter that disappears at `expiresAt`. */
  datatype Counter = Counter(count: nat, expiresAt: int)

  type Redis = map<R.Key, Counter>

  /** What became of the call to Redis: it answered, or it failed, before or after it took effect. */
  datatype Reply = Answered | Failed(applied: bool)

  /** INCR, then PEXPIRE when the counter has just been created: one atomic script. */
  function Incremented(r: Redis, key: R.Key, now: int, windowMs: int): Counter {
    if key in r && now < r[key].expiresAt then Counter(r[key].count + 1, r[key].expiresAt)
    else Counter(1, now + windowMs)
  }

  class RedisServer {
    var counters: Redis

    constructor ()
      ensures counters == map[]
    {
      counters := map[];
    }

    method Eval(key: R.Key, now: int, windowMs: int) returns (count: nat)
      modifies this
      ensures counters == old(counters)[key := Incremented(old(counters), key, now, windowMs)]
      ensures count == Incremented(old(counters), key, now, windowMs).count
    {
      if key in counters && now < counters[key].expiresAt {
        count := counters[key].count + 1;
        counters := counters[key := Counter(count, counters[key].expiresAt)];
      } else {
        count := 1;
        counters := counters[key := Counter(1, now + windowMs)];
      }
    }
  }

  /** One replica's limiter. Without a client (or one that lacks INCR and PEXPIRE) every
      check goes to its own memory. */
  class RedisRateLimiter {
    const limits: R.Limits
    const client: RedisServer?
    const memory: R.RateLimiter

    ghost predicate Valid() {
      memory.limits == limits
    }

    constructor (client: RedisServer?, limits: R.Limits)
      ensures Valid() && this.client == client && this.limits == limits
      ensures fresh(memory) && memory.timestamps == map[]
    {
      this.client := client;
      this.limits := limits;
      memory := new R.RateLimiter(limits);
    }

    method Check(key: R.Key, now: int, pruneAt: int, reply: Reply) returns (accepted: bool)
      requires Valid()
      modifies memory, if client == null then {} else {client}
      ensures client != null ==>
                client.counters == if reply == Failed(false) then old(client.counters)
                                   else old(client.counters)[key := Incremented(old(client.counters), key, now, limits.windowMs)]
      ensures client != null && reply == Answered ==>
                memory.timestamps == old(memory.timestamps)
                && accepted == (Incremented(old(client.counters), key, now, limits.windowMs).count <= limits.maxRequests)
      ensures client == null || reply != Answered ==>
                memory.timestamps == R.AfterCheck(limits, old(memory.timestamps), key, now, pruneAt)
                && accepted == R.Accepts(limits, old(memory.timestamps), key, now)
    {
      if client != null {
        if reply == Answered {
          var count := client.Eval(key, now, limits.windowMs);
          return count <= limits.maxRequests;
        }
        if reply == Failed(true) {
          var _ := client.Eval(key, now, limits.windowMs);
        }
      }
      accepted := memory.Check(key, now, pruneAt);
    }
  }

  // ---- Runs: any number of replicas, any keys, Redis failing at any calls ----

  datatype Hit = Hit(replica: nat, call: R.Call, reply: Reply)

  datatype System = System(redis: Redis, memory: map<nat, R.Table>)

  function MemoryOf(s: System, replica: nat): R.Table {
    if replica in s.memory then s.memory[replica] else map[]
  }

  predicate Admits(l: R.Limits, s: System, h: Hit) {
    if h.reply == Answered
    then Incremented(s.redis, h.call.key, h.call.at, l.windowMs).count <= l.maxRequests
    else R.Accepts(l, MemoryOf(s, h.replica), h.call.key, h.call.at)
  }

  function Step(l: R.Limits, s: System, h: Hit): System {
    var c := h.call;
    System(if h.reply == Failed(false) then s.redis
           else s.redis[c.key := Incremented(s.redis, c.key, c.at, l.windowMs)],
           if h.reply == Answered then s.memory
           else s.memory[h.replica := R.AfterCheck(l, MemoryOf(s, h.replica), c.key, c.at, c.pruneAt)])
  }

  function At(l: R.Limits, hs: seq<Hit>): System {
    if hs == [] then System(map[], map[])
    else Step(l, At(l, hs[..|hs| - 1]), hs[|hs| - 1])
  }

  predicate Clock(hs: seq<Hit>, now: int) {
    hs == [] || (var c := hs[|hs| - 1].call; c.at <= c.pruneAt <= now && Clock(hs[..|hs| - 1], c.at))
  }

  /** The admitted hits on `key` in (lo, hi]: those that Redis answered ... */
  function ViaRedis(l: R.Limits, hs: seq<Hit>, key: R.Key, lo: int, hi: int): nat {
    if hs == [] then 0
    else
      var earlier, h := hs[..|hs| - 1], hs[|hs| - 1];
      ViaRedis(l, earlier, key, lo, hi)
      + if h.call.key == key && lo < h.call.at <= hi && h.reply == Answered && Admits(l, At(l, earlier), h) then 1 else 0
  }

  /** ... and all of them. */
  function Admitted(l: R.Limits, hs: seq<Hit>, key: R.Key, lo: int, hi: int): nat {
    if hs == [] then 0
    else
      var earlier, h := hs[..|hs| - 1], hs[|hs| - 1];
      Admitted(l, earlier, key, lo, hi)
      + if h.call.key == key && lo < h.call.at <= hi && Admits(l, At(l, earlier), h) then 1 else 0
  }

  /** The admitted hits of the Redis window that expires at `expiry`. */
  function ViaWindow(l: R.Limits, hs: seq<Hit>, key: R.Key, expiry: int): nat {
    if hs == [] then 0
    else
      var earlier, h := hs[..|hs| - 1], hs[|hs| - 1];
      ViaWindow(l, earlier, key, expiry)
      + if h.call.key == key && h.reply == Answered && Admits(l, At(l, earlier), h)
           && Incremented(At(l, earlier).redis, key, h.call.at, l.windowMs).expiresAt == expiry then 1 else 0
  }

  /** Each armed window admits at most maxRequests, however many replicas share it. */
  lemma {:induction false} PerArmedWindow(l: R.Limits, hs: seq<Hit>, key: R.Key, expiry: int, now: int)
    requires Clock(hs, now) && l.windowMs > 0
    ensures ViaWindow(l, hs, key, expiry) <= Max(0, l.maxRequests)
    ensures var r := At(l, hs).redis;
            && (key !in r || r[key].expiresAt < expiry ==> ViaWindow(l, hs, key, expiry) == 0)
            && (key in r ==> r[key].expiresAt - l.windowMs <= now)
            && (key in r && r[key].expiresAt == expiry ==> ViaWindow(l, hs, key, expiry) <= r[key].count)
  {
    hide R.AfterCheck, R.Accepts;
    if hs != [] {
      PerArmedWindow(l, hs[..|hs| - 1], key, expiry, hs[|hs| - 1].call.at);
    }
  }

  /** Where the current Redis window stands against the interval (lo, hi], and how much it and
      the windows before it can have contributed. */
  ghost predicate Contribution(l: R.Limits, r: Redis, key: R.Key, used: nat, lo: int, hi: int) {
    if key !in r then used == 0
    else
      var armedAt, n := r[key].expiresAt - l.windowMs, Min(r[key].count, l.maxRequests);
      && r[key].count >= 1
      && (armedAt <= lo ==> used <= n - 1)
      && (lo < armedAt <= hi ==> used <= l.maxRequests - 1 + n)
      && (hi < armedAt ==> used <= 2 * l.maxRequests - 1)
  }

  lemma {:induction false} ContributionHolds(l: R.Limits, hs: seq<Hit>, key: R.Key, now: int, t: int)
    requires Clock(hs, now) && l.maxRequests >= 1 && l.windowMs > 0
    ensures Contribution(l, At(l, hs).redis, key, ViaRedis(l, hs, key, t - l.windowMs, t), t - l.windowMs, t)
    ensures now <= t - l.windowMs ==> ViaRedis(l, hs, key, t - l.windowMs, t) == 0
    ensures var r := At(l, hs).redis; key in r ==> r[key].expiresAt - l.windowMs <= now
  {
    hide R.AfterCheck, R.Accepts;
    if hs != [] {
      ContributionHolds(l, hs[..|hs| - 1], key, hs[|hs| - 1].call.at, t);
    }
  }

  /** On the atomic path all replicas together admit at most 2 * maxRequests - 1 hits in any
      interval (t - windowMs, t]: the hit that armed the older window lies outside it. */
  lemma FixedWindow(l: R.Limits, hs: seq<Hit>, key: R.Key, now: int, t: int)
    requires Clock(hs, now)
    ensures ViaRedis(l, hs, key, t - l.windowMs, t) <= Max(0, 2 * l.maxRequests - 1)
  {
    if l.windowMs <= 0 || l.maxRequests <= 0 {
      NothingAdmitted(l, hs, key, t - l.windowMs, t);
    } else {
      ContributionHolds(l, hs, key, now, t);
    }
  }

  lemma {:induction false} NothingAdmitted(l: R.Limits, hs: seq<Hit>, key: R.Key, lo: int, hi: int)
    requires lo >= hi || l.maxRequests <= 0
    ensures ViaRedis(l, hs, key, lo, hi) == 0
  {
    hide R.AfterCheck, R.Accepts;
    if hs != [] { NothingAdmitted(l, hs[..|hs| - 1], key, lo, hi); }
  }

  // ---- The bound is reached ----

  function Repeated(n: nat, key: R.Key, at: int): seq<Hit> {
    if n == 0 then [] else Repeated(n - 1, key, at) + [Hit(0, R.Call(key, at, at), Answered)]
  }

  /** One more answered hit that its window has room for. */
  lemma OneMoreHit(l: R.Limits, hs: seq<Hit>, key: R.Key, at: int, lo: int, hi: int)
    requires Clock(hs, at) && Incremented(At(l, hs).redis, key, at, l.windowMs).count <= l.maxRequests
    ensures var more := hs + [Hit(0, R.Call(key, at, at), Answered)];
            && Clock(more, at)
            && At(l, more).redis == At(l, hs).redis[key := Incremented(At(l, hs).redis, key, at, l.windowMs)]
            && ViaRedis(l, more, key, lo, hi) == ViaRedis(l, hs, key, lo, hi) + if lo < at <= hi then 1 else 0
  {
    hide R.AfterCheck, R.Accepts;
    var more := hs + [Hit(0, R.Call(key, at, at), Answered)];
    assert more[..|more| - 1] == hs;
  }

  /** n hits at one instant, in a window that has room for them. */
  lemma {:induction false} RepeatedHits(l: R.Limits, hs: seq<Hit>, n: nat, key: R.Key, at: int, used: nat, expiry: int, lo: int, hi: int)
    requires Clock(hs, at) && lo < at <= hi && used + n <= l.maxRequests && at < expiry
    requires Incremented(At(l, hs).redis, key, at, l.windowMs) == Counter(used + 1, expiry)
    ensures Clock(hs + Repeated(n, key, at), at)
    ensures ViaRedis(l, hs + Repeated(n, key, at), key, lo, hi) == ViaRedis(l, hs, key, lo, hi) + n
    ensures Incremented(At(l, hs + Repeated(n, key, at)).redis, key, at, l.windowMs) == Counter(used + n + 1, expiry)
    ensures n > 0 ==> var r := At(l, hs + Repeated(n, key, at)).redis; key in r && r[key] == Counter(used + n, expiry)
  {
    hide At, Clock, ViaRedis;
    if n == 0 {
      assert hs + Repeated(0, key, at) == hs;
    } else {
      RepeatedHits(l, hs, n - 1, key, at, used, expiry, lo, hi);
      var earlier := hs + Repeated(n - 1, key, at);
      assert hs + Repeated(n, key, at) == earlier + [Hit(0, R.Call(key, at, at), Answered)];
      OneMoreHit(l, earlier, key, at, lo, hi);
    }
  }

  /** One hit arms a window; the rest of its budget comes at its very end and the whole budget
      of the next window at its very start. */
  function Burst(l: R.Limits, key: R.Key): seq<Hit>
    requires l.maxRequests >= 1
  {
    Repeated(1, key, 0) + Repeated(l.maxRequests - 1, key, l.windowMs - 1) + Repeated(l.maxRequests, key, l.windowMs)
  }

  lemma FirstHit(l: R.Limits, key: R.Key, later: int)
    requires l.maxRequests >= 1 && l.windowMs >= 2 && later >= 0
    ensures var first := Repeated(1, key, 0);
            && Clock(first, later) && At(l, first).redis == map[key := Counter(1, l.windowMs)]
            && ViaRedis(l, first, key, 0, l.windowMs) == 0
  {
    OneMoreHit(l, [], key, 0, 0, l.windowMs);
    assert Repeated(1, key, 0) == [] + [Hit(0, R.Call(key, 0, 0), Answered)];
    assert At(l, []).redis == map[] && ViaRedis(l, [], key, 0, l.windowMs) == 0;
    hide At, ViaRedis;
    ClockLater(Repeated(1, key, 0), 0, later);
  }

  lemma FixedWindowBoundIsReached(l: R.Limits, key: R.Key)
    requires l.maxRequests >= 1 && l.windowMs >= 2
    ensures Clock(Burst(l, key), l.windowMs)
    ensures ViaRedis(l, Burst(l, key), key, 0, l.windowMs) == 2 * l.maxRequests - 1
  {
    hide At, Clock, ViaRedis, Repeated;
    var w, max := l.windowMs, l.maxRequests;
    FirstHit(l, key, w - 1);
    RepeatedHits(l, Repeated(1, key, 0), max - 1, key, w - 1, 1, w, 0, w);
    var second := Repeated(1, key, 0) + Repeated(max - 1, key, w - 1);
    ClockLater(second, w - 1, w);
    RepeatedHits(l, second, max, key, w, 0, w + w, 0, w);
  }

  lemma ClockLater(hs: seq<Hit>, now: int, later: int)
    requires Clock(hs, now) && now <= later
    ensures Clock(hs, later)
  {
  }

  // ---- Outages: the failing calls fall back to each replica's own window ----

  /** The checks that replica r decided from its own memory. */
  function MemoryCalls(hs: seq<Hit>, r: nat): seq<R.Call> {
    if hs == [] then []
    else
      var before, h := MemoryCalls(hs[..|hs| - 1], r), hs[|hs| - 1];
      if h.replica == r && h.reply != Answered then before + [h.call] else before
  }

  lemma {:induction false} MemoryIsItsOwnRun(l: R.Limits, hs: seq<Hit>, r: nat, now: int)
    requires Clock(hs, now)
    ensures MemoryOf(At(l, hs), r) == R.At(l, MemoryCalls(hs, r)) && R.Clock(MemoryCalls(hs, r), now)
  {
    hide Step, MemoryOf, R.At, R.Clock;
    if hs == [] {
      NothingRemembered(l, r, now);
    } else {
      var earlier, h := hs[..|hs| - 1], hs[|hs| - 1];
      MemoryIsItsOwnRun(l, earlier, r, h.call.at);
      MemoryStep(l, At(l, earlier), h, r);
      CallRecorded(l, MemoryCalls(earlier, r), h.call, now);
    }
  }

  lemma NothingRemembered(l: R.Limits, r: nat, now: int)
    ensures MemoryOf(System(map[], map[]), r) == R.At(l, []) && R.Clock([], now)
  {
  }

  /** One hit changes the memory of its own replica only, and only if Redis did not answer. */
  lemma MemoryStep(l: R.Limits, s: System, h: Hit, r: nat)
    ensures MemoryOf(Step(l, s, h), r)
            == if h.replica == r && h.reply != Answered
               then R.AfterCheck(l, MemoryOf(s, r), h.call.key, h.call.at, h.call.pruneAt) else MemoryOf(s, r)
  {
    hide R.AfterCheck, Incremented;
  }

  lemma CallRecorded(l: R.Limits, cs: seq<R.Call>, c: R.Call, now: int)
    requires R.Clock(cs, c.at) && c.at <= c.pruneAt <= now
    ensures R.At(l, cs + [c]) == R.AfterCheck(l, R.At(l, cs), c.key, c.at, c.pruneAt)
    ensures R.Clock(cs + [c], now) && R.Clock(cs, now)
  {
    hide R.AfterCheck;
    assert (cs + [c])[..|cs|] == cs;
    CallClockLater(cs, c.at, now);
  }

  lemma CallClockLater(cs: seq<R.Call>, now: int, later: int)
    requires R.Clock(cs, now) && now <= later
    ensures R.Clock(cs, later)
  {
  }

  function ViaMemory(l: R.Limits, hs: seq<Hit>, r: nat, key: R.Key, lo: int, hi: int): nat {
    R.CountIn(R.Accepted(l, MemoryCalls(hs, r), key), lo, hi)
  }

  function ViaMemories(l: R.Limits, hs: seq<Hit>, replicas: nat, key: R.Key, lo: int, hi: int): nat {
    if replicas == 0 then 0
    else ViaMemories(l, hs, replicas - 1, key, lo, hi) + ViaMemory(l, hs, replicas - 1, key, lo, hi)
  }

  predicate Replicas(hs: seq<Hit>, replicas: nat) {
    hs == [] || (hs[|hs| - 1].replica < replicas && Replicas(hs[..|hs| - 1], replicas))
  }

  /** One more hit adds to the memory count of its own replica only, and only if admitted there. */
  predicate AdmittedFromMemory(l: R.Limits, earlier: seq<Hit>, h: Hit, key: R.Key, lo: int, hi: int) {
    h.reply != Answered && h.call.key == key && lo < h.call.at <= hi && Admits(l, At(l, earlier), h)
  }

  lemma MemoryAfterHit(l: R.Limits, earlier: seq<Hit>, h: Hit, r: nat, key: R.Key, lo: int, hi: int)
    requires Clock(earlier, h.call.at)
    ensures ViaMemory(l, earlier + [h], r, key, lo, hi)
            == ViaMemory(l, earlier, r, key, lo, hi)
               + if h.replica == r && AdmittedFromMemory(l, earlier, h, key, lo, hi) then 1 else 0
  {
    hide R.At, R.Accepts, At, R.Accepted, R.CountIn;
    assert (earlier + [h])[..|earlier|] == earlier;
    if h.replica == r && h.reply != Answered {
      MemoryIsItsOwnRun(l, earlier, r, h.call.at);
      var before := MemoryCalls(earlier, r);
      AcceptedMore(l, before, h.call, key);
      R.CountPush(R.Accepted(l, before, key), h.call.at, lo, hi);
    }
  }

  lemma AcceptedMore(l: R.Limits, cs: seq<R.Call>, c: R.Call, key: R.Key)
    ensures R.Accepted(l, cs + [c], key)
            == if c.key == key && R.Accepts(l, R.At(l, cs), key, c.at) then R.Accepted(l, cs, key) + [c.at] else R.Accepted(l, cs, key)
  {
    hide R.At, R.Accepts;
    assert (cs + [c])[..|cs|] == cs;
  }

  lemma {:induction false} MemoriesAfterHit(l: R.Limits, earlier: seq<Hit>, h: Hit, replicas: nat, key: R.Key, lo: int, hi: int)
    requires Clock(earlier, h.call.at)
    ensures ViaMemories(l, earlier + [h], replicas, key, lo, hi)
            == ViaMemories(l, earlier, replicas, key, lo, hi)
               + if h.replica < replicas && AdmittedFromMemory(l, earlier, h, key, lo, hi) then 1 else 0
  {
    hide ViaMemory, AdmittedFromMemory;
    if replicas > 0 {
      MemoriesAfterHit(l, earlier, h, replicas - 1, key, lo, hi);
      MemoryAfterHit(l, earlier, h, replicas - 1, key, lo, hi);
    }
  }

  lemma {:induction false} AdmittedSplits(l: R.Limits, hs: seq<Hit>, replicas: nat, key: R.Key, lo: int, hi: int, now: int)
    requires Clock(hs, now) && Replicas(hs, replicas)
    ensures Admitted(l, hs, key, lo, hi) == ViaRedis(l, hs, key, lo, hi) + ViaMemories(l, hs, replicas, key, lo, hi)
  {
    hide ViaMemories, Admits, At;
    if hs == [] {
      NoMemories(l, replicas, key, lo, hi);
    } else {
      AdmittedSplits(l, hs[..|hs| - 1], replicas, key, lo, hi, hs[|hs| - 1].call.at);
      assert hs == hs[..|hs| - 1] + [hs[|hs| - 1]];
      MemoriesAfterHit(l, hs[..|hs| - 1], hs[|hs| - 1], replicas, key, lo, hi);
    }
  }

  lemma {:induction false} NoMemories(l: R.Limits, replicas: nat, key: R.Key, lo: int, hi: int)
    ensures ViaMemories(l, [], replicas, key, lo, hi) == 0
  {
    if replicas > 0 { NoMemories(l, replicas - 1, key, lo, hi); }
  }

  lemma {:induction false} MemoriesBound(l: R.Limits, hs: seq<Hit>, replicas: nat, key: R.Key, now: int, t: int)
    requires Clock(hs, now)
    ensures ViaMemories(l, hs, replicas, key, t - l.windowMs, t) <= replicas * Max(0, l.maxRequests)
  {
    hide Max, R.At, R.Accepted, R.CountIn, R.Clock, Clock, MemoryCalls, At, MemoryOf;
    if replicas > 0 {
      MemoriesBound(l, hs, replicas - 1, key, now, t);
      OneMoreShare(replicas - 1, Max(0, l.maxRequests));
      MemoryIsItsOwnRun(l, hs, replicas - 1, now);
      R.SlidingWindow(l, MemoryCalls(hs, replicas - 1), key, now, t);
    }
  }

  lemma OneMoreShare(n: nat, share: int)
    ensures (n + 1) * share == n * share + share
  {
  }

  lemma TwoMoreShares(n: nat, limit: int)
    ensures n * Max(0, limit) + Max(0, 2 * limit - 1) == Max(0, (n + 2) * limit - 1)
  {
    OneMoreShare(n, limit);
    OneMoreShare(n + 1, limit);
    if limit > 0 { assert n * limit >= 0; } else { assert (n + 2) * limit <= 0; }
  }

  /** With Redis failing at arbitrary calls, N replicas admit at most (N + 2) * maxRequests - 1
      hits on a key in any interval (t - windowMs, t]. */
  lemma OutageBound(l: R.Limits, hs: seq<Hit>, replicas: nat, key: R.Key, now: int, t: int)
    requires Clock(hs, now) && Replicas(hs, replicas)
    ensures Admitted(l, hs, key, t - l.windowMs, t) <= Max(0, (replicas + 2) * l.maxRequests - 1)
  {
    hide Admitted, ViaRedis, ViaMemories, Clock, Replicas, Max;
    AdmittedSplits(l, hs, replicas, key, t - l.windowMs, t, now);
    FixedWindow(l, hs, key, now, t);
    MemoriesBound(l, hs, replicas, key, now, t);
    TwoMoreShares(replicas, l.maxRequests);
  }

  // ---- Which answered hits are refused ----

  /** A hit that Redis counted, whether or not its answer arrived. */
  predicate TookEffect(h: Hit, key: R.Key) {
    h.call.key == key && h.reply != Failed(false)
  }

  /** When the current window of a key was armed: by the last hit that took effect a whole window or
      more after the hit that armed the window before it. */
  function ArmedAt(hs: seq<Hit>, key: R.Key, windowMs: int): Option<int> {
    if hs == [] then None
    else
      var before, h := ArmedAt(hs[..|hs| - 1], key, windowMs), hs[|hs| - 1];
      if TookEffect(h, key) && (before == None || h.call.at >= before.value + windowMs) then Some(h.call.at) else before
  }

  /** How many hits on the key took effect in (lo, hi]. */
  function EffectsIn(hs: seq<Hit>, key: R.Key, lo: int, hi: int): nat {
    if hs == [] then 0
    else
      var h := hs[|hs| - 1];
      EffectsIn(hs[..|hs| - 1], key, lo, hi) + if TookEffect(h, key) && lo < h.call.at <= hi then 1 else 0
  }

  /** What a hit does to the counter of a key. */
  lemma CounterStep(l: R.Limits, s: System, h: Hit, key: R.Key)
    ensures var r, after := s.redis, Step(l, s, h).redis;
            if !TookEffect(h, key) then (key in after <==> key in r) && (key in r ==> after[key] == r[key])
            else key in after && after[key] == if key in r && h.call.at < r[key].expiresAt
                                               then Counter(r[key].count + 1, r[key].expiresAt)
                                               else Counter(1, h.call.at + l.windowMs)
  {
    hide R.AfterCheck;
  }

  /** The counter of a key belongs to its armed window. */
  ghost predicate IsArmed(l: R.Limits, s: System, hs: seq<Hit>, key: R.Key) {
    var armed := ArmedAt(hs, key, l.windowMs);
    && (key in s.redis <==> armed.Some?)
    && (armed.Some? ==> s.redis[key].expiresAt == armed.value + l.windowMs)
  }

  lemma {:induction false} CounterIsArmed(l: R.Limits, hs: seq<Hit>, key: R.Key)
    ensures IsArmed(l, At(l, hs), hs, key)
  {
    hide Step, TookEffect;
    if hs != [] {
      CounterIsArmed(l, hs[..|hs| - 1], key);
      CounterStep(l, At(l, hs[..|hs| - 1]), hs[|hs| - 1], key);
    }
  }

  lemma {:induction false} ArmedInPast(hs: seq<Hit>, key: R.Key, windowMs: int, now: int)
    requires Clock(hs, now) && ArmedAt(hs, key, windowMs).Some?
    ensures ArmedAt(hs, key, windowMs).value <= now
  {
    var earlier, h := hs[..|hs| - 1], hs[|hs| - 1];
    if ArmedAt(earlier, key, windowMs).Some? { ArmedInPast(earlier, key, windowMs, h.call.at); }
  }

  lemma {:induction false} CounterCountsEffects(l: R.Limits, hs: seq<Hit>, key: R.Key, now: int, hi: int)
    requires Clock(hs, now) && now <= hi && l.windowMs > 0 && ArmedAt(hs, key, l.windowMs).Some?
    ensures key in At(l, hs).redis
            && At(l, hs).redis[key].count == EffectsIn(hs, key, ArmedAt(hs, key, l.windowMs).value - 1, hi)
  {
    hide Step, TookEffect;
    CounterIsArmed(l, hs, key);
    var earlier, h := hs[..|hs| - 1], hs[|hs| - 1];
    CounterIsArmed(l, earlier, key);
    CounterStep(l, At(l, earlier), h, key);
    var before := ArmedAt(earlier, key, l.windowMs);
    if before.Some? {
      ArmedInPast(earlier, key, l.windowMs, h.call.at);
      CounterCountsEffects(l, earlier, key, h.call.at, hi);
    }
    if ArmedAt(hs, key, l.windowMs) != before || before == None {
      EffectsBeforeArming(hs, key, l.windowMs, hi);
    }
  }

  /** The hit that arms a window is the first that takes effect at or after its own time. */
  lemma EffectsBeforeArming(hs: seq<Hit>, key: R.Key, windowMs: int, hi: int)
    requires hs != [] && windowMs > 0 && Clock(hs[..|hs| - 1], hs[|hs| - 1].call.at)
    requires var before, h := ArmedAt(hs[..|hs| - 1], key, windowMs), hs[|hs| - 1];
             TookEffect(h, key) && (before == None || h.call.at >= before.value + windowMs)
    ensures EffectsIn(hs[..|hs| - 1], key, hs[|hs| - 1].call.at - 1, hi) == 0
  {
    NothingSince(hs[..|hs| - 1], key, windowMs, hs[|hs| - 1].call.at, hi);
  }

  /** Nothing took effect from one window length after the last arming on. */
  lemma {:induction false} NothingSince(hs: seq<Hit>, key: R.Key, windowMs: int, at: int, hi: int)
    requires windowMs > 0
    requires ArmedAt(hs, key, windowMs) == None || at >= ArmedAt(hs, key, windowMs).value + windowMs
    ensures EffectsIn(hs, key, at - 1, hi) == 0
  {
    if hs != [] {
      var before, h := ArmedAt(hs[..|hs| - 1], key, windowMs), hs[|hs| - 1];
      NothingSince(hs[..|hs| - 1], key, windowMs, at, hi);
    }
  }

  /** An answered hit is refused exactly when maxRequests hits or more took effect since the armed
      window that it falls into began. */
  lemma RefusedIff(l: R.Limits, hs: seq<Hit>, h: Hit)
    requires Clock(hs, h.call.at) && h.reply == Answered
    ensures var armed := ArmedAt(hs, h.call.key, l.windowMs);
            !Admits(l, At(l, hs), h) <==>
              || l.maxRequests <= 0
              || (&& armed.Some? && h.call.at < armed.value + l.windowMs
                  && EffectsIn(hs, h.call.key, armed.value - 1, h.call.at) >= l.maxRequests)
  {
    hide At, ArmedAt, EffectsIn, Clock;
    var key := h.call.key;
    CounterIsArmed(l, hs, key);
    var armed := ArmedAt(hs, key, l.windowMs);
    if armed.Some? && h.call.at < armed.value + l.windowMs {
      ArmedInPast(hs, key, l.windowMs, h.call.at);
      CounterCountsEffects(l, hs, key, h.call.at, h.call.at);
    }
  }

  /** So a key that is not overused is never blocked: a refused hit has at least maxRequests hits that
      took effect in the windowMs before it. */
  lemma RefusedOnlyWhenBusy(l: R.Limits, hs: seq<Hit>, h: Hit)
    requires Clock(hs, h.call.at) && h.reply == Answered && !Admits(l, At(l, hs), h) && l.maxRequests >= 1
    ensures EffectsIn(hs, h.call.key, h.call.at - l.windowMs, h.call.at) >= l.maxRequests
  {
    hide At, Admits, Clock, ArmedAt;
    RefusedIff(l, hs, h);
    EffectsGrow(hs, h.call.key, h.call.at - l.windowMs, ArmedAt(hs, h.call.key, l.windowMs).value - 1, h.call.at);
  }

  /** A hit that Redis did not answer is admitted exactly when its replica admitted fewer than
      maxRequests from memory in the windowMs before it. */
  lemma FallbackAdmitsIff(l: R.Limits, hs: seq<Hit>, h: Hit)
    requires Clock(hs, h.call.at) && h.reply != Answered
    ensures var mine := R.Accepted(l, MemoryCalls(hs, h.replica), h.call.key);
            Admits(l, At(l, hs), h) <==> R.CountIn(mine, h.call.at - l.windowMs, h.call.at) < l.maxRequests
  {
    hide At, R.At, R.Accepted, R.CountIn, R.Accepts, R.Remaining, Clock, R.Clock;
    MemoryIsItsOwnRun(l, hs, h.replica, h.call.at);
    R.AcceptsIffRoom(l, MemoryCalls(hs, h.replica), h.call.key, h.call.at);
  }

  lemma {:induction false} EffectsGrow(hs: seq<Hit>, key: R.Key, lo: int, lo': int, hi: int)
    requires lo <= lo'
    ensures EffectsIn(hs, key, lo, hi) >= EffectsIn(hs, key, lo', hi)
  {
    if hs != [] { EffectsGrow(hs[..|hs| - 1], key, lo, lo', hi); }
  }
}
