/** Event idempotency: the dedup stores (packages/core/src/utils/idempotency.ts) and the claim
    in BaseWorker.emit (packages/workers/src/base-worker.ts). */
module Idempotency {
  import opened Common
  import opened Texts

  const PRUNE_ABOVE := 100_000
  const SEPARATOR := '\0'

  // ---- Event ids ----

  /** A payload field: absent, null, or a value with its String() form. */
  datatype Field = Undefined | Null | Text(value: string)

  /** The places a natural id is looked up, in the order they are tried. */
  datatype Ids = Ids(id: Field, messageId: Field, updateId: Field, tweetId: Field, dataId: Field, rawId: Field)

  datatype Event = Event(platform: string, botId: string, kind: string, ids: Ids)

  function OrElse(a: Field, b: Field): Field {
    if a.Text? then a else b
  }

  function NaturalId(ids: Ids): Field {
    OrElse(ids.id, OrElse(ids.messageId, OrElse(ids.updateId, OrElse(ids.tweetId, OrElse(ids.dataId, ids.rawId)))))
  }

  predicate HasNaturalId(e: Event) {
    var n := NaturalId(e.ids);
    n.Text? && n.value != ""
  }

  function HashInput(e: Event, natural: string): string {
    e.platform + [SEPARATOR] + (e.botId + [SEPARATOR] + (e.kind + [SEPARATOR] + natural))
  }

  /** `digest` is the hash, `random` the id used when there is nothing to hash. */
  function DeriveEventId(e: Event, digest: string -> string, random: string): string {
    if HasNaturalId(e) then digest(HashInput(e, NaturalId(e.ids).value)) else random
  }

  ghost predicate Separable(e: Event) {
    Lacks(e.platform, SEPARATOR) && Lacks(e.botId, SEPARATOR) && Lacks(e.kind, SEPARATOR)
  }

  /** Two deliveries get the same id exactly when they are the same source event: with a
      collision-free digest no event is ever dropped in place of another. */
  lemma SameIdIffSameSource(e: Event, f: Event, digest: string -> string, u: string, v: string)
    requires HasNaturalId(e) && HasNaturalId(f) && Separable(e) && Separable(f)
    requires forall x, y :: digest(x) == digest(y) ==> x == y
    ensures DeriveEventId(e, digest, u) == DeriveEventId(f, digest, v)
            <==> e.platform == f.platform && e.botId == f.botId && e.kind == f.kind
                 && NaturalId(e.ids) == NaturalId(f.ids)
  {
    var n, m := NaturalId(e.ids).value, NaturalId(f.ids).value;
    if HashInput(e, n) == HashInput(f, m) {
      FieldsAreUnique(e.platform, e.botId + [SEPARATOR] + (e.kind + [SEPARATOR] + n),
                      f.platform, f.botId + [SEPARATOR] + (f.kind + [SEPARATOR] + m), SEPARATOR);
      FieldsAreUnique(e.botId, e.kind + [SEPARATOR] + n, f.botId, f.kind + [SEPARATOR] + m, SEPARATOR);
      FieldsAreUnique(e.kind, n, f.kind, m, SEPARATOR);
    }
  }

  predicate Absent(f: Field) {
    f == Undefined || f == Null
  }

  predicate Given(f: Field) {
    f.Text? && f.value != ""
  }

  predicate SameSource(e: Event, f: Event) {
    e.platform == f.platform && e.botId == f.botId && e.kind == f.kind
  }

  /** Which field decides: the first present one of id, messageId, update_id, tweetId, data.id and
      raw.id. Two deliveries that both give it share an event id exactly when it is the same one from
      the same source, whatever their other fields say. */
  lemma FirstFieldDecides(e: Event, f: Event, digest: string -> string, u: string, v: string)
    requires Separable(e) && Separable(f) && forall x, y :: digest(x) == digest(y) ==> x == y
    ensures var same, a, b := DeriveEventId(e, digest, u) == DeriveEventId(f, digest, v), e.ids, f.ids;
            && (Given(a.id) && Given(b.id) ==> (same <==> SameSource(e, f) && a.id == b.id))
            && (Absent(a.id) && Absent(b.id) ==>
                  && (Given(a.messageId) && Given(b.messageId) ==> (same <==> SameSource(e, f) && a.messageId == b.messageId))
                  && (Absent(a.messageId) && Absent(b.messageId) ==>
                        && (Given(a.updateId) && Given(b.updateId) ==> (same <==> SameSource(e, f) && a.updateId == b.updateId))
                        && (Absent(a.updateId) && Absent(b.updateId) ==>
                              && (Given(a.tweetId) && Given(b.tweetId) ==> (same <==> SameSource(e, f) && a.tweetId == b.tweetId))
                              && (Absent(a.tweetId) && Absent(b.tweetId) ==>
                                    && (Given(a.dataId) && Given(b.dataId) ==>
                                          (same <==> SameSource(e, f) && a.dataId == b.dataId))
                                    && (Absent(a.dataId) && Absent(b.dataId) && Given(a.rawId) && Given(b.rawId) ==>
                                          (same <==> SameSource(e, f) && a.rawId == b.rawId))))))
  {
    if HasNaturalId(e) && HasNaturalId(f) { SameIdIffSameSource(e, f, digest, u, v); }
    hide DeriveEventId, Separable;
  }

  /** An event has a natural id exactly when the first field that is present is not empty; an empty
      one is not passed over in favour of a later field. */
  lemma NaturalIdIff(e: Event)
    ensures var a := e.ids;
            HasNaturalId(e) <==>
              || Given(a.id)
              || (Absent(a.id) && Given(a.messageId))
              || (Absent(a.id) && Absent(a.messageId) && Given(a.updateId))
              || (Absent(a.id) && Absent(a.messageId) && Absent(a.updateId) && Given(a.tweetId))
              || (Absent(a.id) && Absent(a.messageId) && Absent(a.updateId) && Absent(a.tweetId) && Given(a.dataId))
              || (Absent(a.id) && Absent(a.messageId) && Absent(a.updateId) && Absent(a.tweetId) && Absent(a.dataId)
                  && Given(a.rawId))
  {
  }

  // ---- Claims ----

  datatype Key = Key(eventId: string)

  /** When each claimed key becomes free again. */
  type Seen = map<Key, int>

  predicate IsFree(s: Seen, key: Key, now: int) {
    key !in s || s[key] <= now
  }

  function Claimed(s: Seen, key: Key, now: int, ttlMs: int): Seen {
    if IsFree(s, key, now) then s[key := now + ttlMs] else s
  }

  function Pruned(s: Seen, now: int): Seen {
    map k | k in s && s[k] > now :: s[k]
  }

  function MemoryClaimed(s: Seen, key: Key, now: int, ttlMs: int): Seen {
    var s1 := Claimed(s, key, now, ttlMs);
    if IsFree(s, key, now) && |s1| > PRUNE_ABOVE then Pruned(s1, now) else s1
  }

  class MemoryDedupStore {
    var seen: Seen

    constructor ()
      ensures seen == map[]
    {
      seen := map[];
    }

    method Claim(key: Key, ttlSeconds: int, now: int) returns (granted: bool)
      modifies this
      ensures granted == IsFree(old(seen), key, now)
      ensures seen == MemoryClaimed(old(seen), key, now, ttlSeconds * 1000)
      ensures granted && |seen| > 100_000 ==> forall k :: k in seen ==> seen[k] > now
    {
      if key in seen && seen[key] > now { return false; }
      seen := seen[key := now + ttlSeconds * 1000];
      if |seen| > PRUNE_ABOVE { Prune(now); }
      return true;
    }

    method Prune(now: int)
      modifies this
      ensures seen == Pruned(old(seen), now)
    {
      ghost var before := seen;
      var todo := seen.Keys;
      while todo != {}
        invariant todo <= before.Keys
        invariant forall k :: k in seen ==> k in before && seen[k] == before[k]
        invariant forall k :: k in before ==> (k in seen <==> k in todo || before[k] > now)
        decreases todo
      {
        var key :| key in todo;
        todo := todo - {key};
        if seen[key] <= now { seen := seen - {key}; }
      }
    }
  }

  /** Pruning never changes an answer, now or later ... */
  lemma PruningIsInvisible(s: Seen, now: int, key: Key, later: int)
    requires now <= later
    ensures IsFree(Pruned(s, now), key, later) == IsFree(s, key, later)
  {
  }

  /** ... because the stores it relates keep answering alike whatever is claimed next. */
  lemma AlikeForever(s: Seen, s': Seen, now: int, key: Key, at: int, ttlMs: int)
    requires forall k: Key, later :: later >= now ==> IsFree(s, k, later) == IsFree(s', k, later)
    requires now <= at
    ensures IsFree(s, key, at) == IsFree(s', key, at)
    ensures forall k: Key, later :: later >= at ==>
              IsFree(MemoryClaimed(s, key, at, ttlMs), k, later) == IsFree(MemoryClaimed(s', key, at, ttlMs), k, later)
  {
    hide Pruned;
    forall k: Key, later | later >= at
      ensures IsFree(MemoryClaimed(s, key, at, ttlMs), k, later) == IsFree(MemoryClaimed(s', key, at, ttlMs), k, later)
    {
      assert IsFree(s, key, at) == IsFree(s', key, at) && IsFree(s, k, later) == IsFree(s', k, later);
      PruningIsInvisible(Claimed(s, key, at, ttlMs), at, k, later);
      PruningIsInvisible(Claimed(s', key, at, ttlMs), at, k, later);
    }
  }

  // ---- Runs: deliveries to any number of processes, Redis failing at any calls ----

  /** What became of SET NX EX: answered, or failed before or after it took effect. */
  datatype Reply = Answered | Failed(applied: bool)

  /** One call of emit: in which process, for which key, and when. */
  datatype Delivery = Delivery(process: nat, key: Key, at: int, natural: bool, replay: bool, reply: Reply)

  datatype System = System(redis: Seen, memory: map<nat, Seen>)

  function MemoryOf(s: System, process: nat): Seen {
    if process in s.memory then s.memory[process] else map[]
  }

  function OneProcess(redis: Seen, process: nat, memory: Seen): System {
    var none: map<nat, Seen> := map[];
    System(redis, none[process := memory])
  }

  predicate Claims(d: Delivery) {
    !d.replay && d.natural
  }

  /** The store that decides a claim. */
  function Decider(s: System, d: Delivery): Seen {
    if d.reply == Answered then s.redis else MemoryOf(s, d.process)
  }

  predicate FansOut(s: System, d: Delivery) {
    Claims(d) ==> IsFree(Decider(s, d), d.key, d.at)
  }

  function Step(s: System, d: Delivery, ttlMs: int): System {
    if !Claims(d) then s
    else System(if d.reply == Failed(false) then s.redis else Claimed(s.redis, d.key, d.at, ttlMs),
                if d.reply == Answered then s.memory
                else s.memory[d.process := MemoryClaimed(MemoryOf(s, d.process), d.key, d.at, ttlMs)])
  }

  /** RedisDedupStore.claim and the guard at the top of emit. */
  class EventDedup {
    var redis: Seen
    const memory: MemoryDedupStore

    constructor ()
      ensures redis == map[] && fresh(memory) && memory.seen == map[]
    {
      redis := map[];
      memory := new MemoryDedupStore();
    }

    method Emit(d: Delivery, ttlSeconds: int) returns (fansOut: bool)
      modifies this, memory
      ensures var s := OneProcess(old(redis), d.process, old(memory.seen));
              && fansOut == FansOut(s, d)
              && redis == Step(s, d, ttlSeconds * 1000).redis
              && memory.seen == MemoryOf(Step(s, d, ttlSeconds * 1000), d.process)
    {
      if d.replay || !d.natural { return true; }
      var taken := d.key in redis && redis[d.key] > d.at;
      if d.reply != Failed(false) && !taken { redis := redis[d.key := d.at + ttlSeconds * 1000]; }
      if d.reply == Answered { return !taken; }
      fansOut := memory.Claim(d.key, ttlSeconds, d.at);
    }
  }

  function At(ds: seq<Delivery>, ttlMs: int): System {
    if ds == [] then System(map[], map[])
    else Step(At(ds[..|ds| - 1], ttlMs), ds[|ds| - 1], ttlMs)
  }

  predicate Clock(ds: seq<Delivery>, now: int) {
    ds == [] || (ds[|ds| - 1].at <= now && Clock(ds[..|ds| - 1], ds[|ds| - 1].at))
  }

  /** Who grants a claim: Redis, or one process's memory. */
  datatype Granter = Redis | Memory(process: nat)

  function GranterOf(d: Delivery): Granter {
    if d.reply == Answered then Redis else Memory(d.process)
  }

  function StoreOf(s: System, g: Granter): Seen {
    match g
    case Redis => s.redis
    case Memory(p) => MemoryOf(s, p)
  }

  /** The claims on `key` granted by g in (lo, hi]. */
  function Grants(ds: seq<Delivery>, ttlMs: int, g: Granter, key: Key, lo: int, hi: int): nat {
    if ds == [] then 0
    else
      var earlier, d := ds[..|ds| - 1], ds[|ds| - 1];
      Grants(earlier, ttlMs, g, key, lo, hi)
      + if Claims(d) && GranterOf(d) == g && d.key == key && lo < d.at <= hi && FansOut(At(earlier, ttlMs), d) then 1 else 0
  }

  /** Claims that one store grants for one key are at least the TTL apart: no interval
      (t - ttl, t] holds two of them. */
  lemma {:induction false} OneGrantPerTtl(ds: seq<Delivery>, ttlMs: int, g: Granter, key: Key, now: int, t: int)
    requires Clock(ds, now)
    ensures Grants(ds, ttlMs, g, key, t - ttlMs, t) <= 1
    ensures Grants(ds, ttlMs, g, key, t - ttlMs, t) == 1 ==>
              var s := StoreOf(At(ds, ttlMs), g); (key in s && s[key] > t) || now > t
  {
    if ds != [] {
      OneGrantPerTtl(ds[..|ds| - 1], ttlMs, g, key, ds[|ds| - 1].at, t);
    }
  }

  /** The live deliveries of a natural-id event that reach scripts, webhooks and the event store. */
  function FanOuts(ds: seq<Delivery>, ttlMs: int, key: Key, lo: int, hi: int): nat {
    if ds == [] then 0
    else
      var earlier, d := ds[..|ds| - 1], ds[|ds| - 1];
      FanOuts(earlier, ttlMs, key, lo, hi)
      + if Claims(d) && d.key == key && lo < d.at <= hi && FansOut(At(earlier, ttlMs), d) then 1 else 0
  }

  function AllGrants(ds: seq<Delivery>, ttlMs: int, processes: nat, key: Key, lo: int, hi: int): nat {
    if processes == 0 then Grants(ds, ttlMs, Redis, key, lo, hi)
    else AllGrants(ds, ttlMs, processes - 1, key, lo, hi) + Grants(ds, ttlMs, Memory(processes - 1), key, lo, hi)
  }

  predicate Processes(ds: seq<Delivery>, n: nat) {
    ds == [] || (ds[|ds| - 1].process < n && Processes(ds[..|ds| - 1], n))
  }

  lemma {:induction false} GrantsAfter(ds: seq<Delivery>, ttlMs: int, processes: nat, key: Key, lo: int, hi: int)
    requires ds != []
    ensures var earlier, d := ds[..|ds| - 1], ds[|ds| - 1];
            AllGrants(ds, ttlMs, processes, key, lo, hi)
            == AllGrants(earlier, ttlMs, processes, key, lo, hi)
               + if (d.reply == Answered || d.process < processes) && Claims(d) && d.key == key && lo < d.at <= hi
                    && FansOut(At(earlier, ttlMs), d) then 1 else 0
  {
    hide FansOut, At;
    if processes > 0 { GrantsAfter(ds, ttlMs, processes - 1, key, lo, hi); }
  }

  lemma {:induction false} FanOutsAreGrants(ds: seq<Delivery>, ttlMs: int, processes: nat, key: Key, lo: int, hi: int)
    requires Processes(ds, processes)
    ensures FanOuts(ds, ttlMs, key, lo, hi) == AllGrants(ds, ttlMs, processes, key, lo, hi)
  {
    hide FansOut, At, Grants;
    if ds == [] {
      NoGrants(ttlMs, processes, key, lo, hi);
    } else {
      FanOutsAreGrants(ds[..|ds| - 1], ttlMs, processes, key, lo, hi);
      GrantsAfter(ds, ttlMs, processes, key, lo, hi);
    }
  }

  lemma {:induction false} NoGrants(ttlMs: int, processes: nat, key: Key, lo: int, hi: int)
    ensures AllGrants([], ttlMs, processes, key, lo, hi) == 0
  {
    if processes > 0 { NoGrants(ttlMs, processes - 1, key, lo, hi); }
  }

  lemma {:induction false} GrantsBound(ds: seq<Delivery>, ttlMs: int, processes: nat, key: Key, now: int, t: int)
    requires Clock(ds, now)
    ensures AllGrants(ds, ttlMs, processes, key, t - ttlMs, t) <= processes + 1
  {
    hide Grants;
    if processes == 0 {
      OneGrantPerTtl(ds, ttlMs, Redis, key, now, t);
    } else {
      GrantsBound(ds, ttlMs, processes - 1, key, now, t);
      OneGrantPerTtl(ds, ttlMs, Memory(processes - 1), key, now, t);
    }
  }

  /** With Redis failing at arbitrary calls, n processes fan a live natural-id event out at most
      n + 1 times in any interval (t - ttl, t]: at most twice for a single process. */
  lemma FanOutBound(ds: seq<Delivery>, ttlMs: int, processes: nat, key: Key, now: int, t: int)
    requires Clock(ds, now) && Processes(ds, processes)
    ensures FanOuts(ds, ttlMs, key, t - ttlMs, t) <= processes + 1
  {
    FanOutsAreGrants(ds, ttlMs, processes, key, t - ttlMs, t);
    GrantsBound(ds, ttlMs, processes, key, now, t);
  }

  /** Without an outage the fleet fans it out at most once. */
  predicate NoOutage(ds: seq<Delivery>) {
    ds == [] || (ds[|ds| - 1].reply == Answered && NoOutage(ds[..|ds| - 1]))
  }

  lemma {:induction false} OnceWithoutOutage(ds: seq<Delivery>, ttlMs: int, key: Key, now: int, t: int)
    requires Clock(ds, now) && NoOutage(ds)
    ensures FanOuts(ds, ttlMs, key, t - ttlMs, t) <= 1
  {
    AnsweredByRedis(ds, ttlMs, key, t - ttlMs, t);
    OneGrantPerTtl(ds, ttlMs, Redis, key, now, t);
  }

  lemma {:induction false} AnsweredByRedis(ds: seq<Delivery>, ttlMs: int, key: Key, lo: int, hi: int)
    requires NoOutage(ds)
    ensures FanOuts(ds, ttlMs, key, lo, hi) == Grants(ds, ttlMs, Redis, key, lo, hi)
  {
    if ds != [] { AnsweredByRedis(ds[..|ds| - 1], ttlMs, key, lo, hi); }
  }

  // ---- Nothing is dropped without cause ----

  /** One of these deliveries claimed the key after `since`. */
  ghost predicate ClaimedSince(ds: seq<Delivery>, key: Key, since: int) {
    exists i :: 0 <= i < |ds| && Claims(ds[i]) && ds[i].key == key && ds[i].at > since
  }

  lemma StoreStep(s: System, d: Delivery, ttlMs: int, g: Granter, key: Key, now: int)
    requires var after := StoreOf(Step(s, d, ttlMs), g); key in after && after[key] > now
    ensures (key in StoreOf(s, g) && StoreOf(s, g)[key] > now) || (Claims(d) && d.key == key && d.at + ttlMs > now)
  {
  }

  /** A key is only ever taken because some delivery claimed it less than the TTL ago. */
  lemma {:induction false} TakenIsClaimed(ds: seq<Delivery>, ttlMs: int, g: Granter, key: Key, now: int)
    requires var s := StoreOf(At(ds, ttlMs), g); key in s && s[key] > now
    ensures ClaimedSince(ds, key, now - ttlMs)
  {
    hide Step;
    if ds == [] {
      NothingTaken(g, key);
    } else {
      var earlier, d := ds[..|ds| - 1], ds[|ds| - 1];
      StoreStep(At(earlier, ttlMs), d, ttlMs, g, key, now);
      if Claims(d) && d.key == key && d.at + ttlMs > now {
        assert ds[|ds| - 1] == d;
      } else {
        TakenIsClaimed(earlier, ttlMs, g, key, now);
        var i :| 0 <= i < |earlier| && Claims(earlier[i]) && earlier[i].key == key && earlier[i].at > now - ttlMs;
        assert ds[i] == earlier[i];
      }
    }
  }

  lemma NothingTaken(g: Granter, key: Key)
    ensures key !in StoreOf(System(map[], map[]), g)
  {
  }

  /** A delivery is dropped only if it is live, carries a natural id, and the same event was claimed
      less than the TTL before it: replays, events without a natural id and first deliveries always
      reach scripts, webhooks and the event store. */
  lemma DroppedOnlyAsDuplicate(ds: seq<Delivery>, ttlMs: int, d: Delivery)
    requires !FansOut(At(ds, ttlMs), d)
    ensures !d.replay && d.natural && ClaimedSince(ds, d.key, d.at - ttlMs)
  {
    hide At, ClaimedSince;
    TakenIsClaimed(ds, ttlMs, GranterOf(d), d.key, d.at);
  }
}
