/** Sticky proxy sessions (packages/core/src/proxy/sticky-sessions.ts). */
module StickySessions {
  import opened Common

  datatype Id = Id(name: string)

  datatype Config = Config(stickyDurationMs: nat, maxBotsPerProxy: int)

  datatype Proxy = Proxy(id: Id, enabled: bool, healthScore: int, priority: int)

  datatype Binding = Binding(bot: Id, proxy: Id, boundAt: int, expiresAt: int)

  /** The bindings, one per bot in insertion order, and the recorded load of each proxy. */
  datatype Manager = Manager(bindings: seq<Binding>, load: map<Id, nat>)

  function Find(bs: seq<Binding>, bot: Id): Option<Binding> {
    if bs == [] then None else if bs[0].bot == bot then Some(bs[0]) else Find(bs[1..], bot)
  }

  function Removed(bs: seq<Binding>, bot: Id): seq<Binding> {
    if bs == [] then [] else if bs[0].bot == bot then bs[1..] else [bs[0]] + Removed(bs[1..], bot)
  }

  function Load(load: map<Id, nat>, p: Id): nat {
    if p in load then load[p] else 0
  }

  function Raised(load: map<Id, nat>, p: Id): map<Id, nat> {
    load[p := Load(load, p) + 1]
  }

  function Lowered(load: map<Id, nat>, p: Id): map<Id, nat> {
    load[p := if Load(load, p) > 0 then Load(load, p) - 1 else 0]
  }

  function Unbound(m: Manager, bot: Id, now: int): Manager {
    match Find(m.bindings, bot)
    case None => m
    case Some(b) => Manager(Removed(m.bindings, bot), if b.expiresAt > now then Lowered(m.load, b.proxy) else m.load)
  }

  function Bound(m: Manager, bot: Id, p: Id, now: int, config: Config): Manager {
    var free := Unbound(m, bot, now);
    Manager(free.bindings + [Binding(bot, p, now, now + config.stickyDurationMs)], Raised(free.load, p))
  }

  function Cleaned(bs: seq<Binding>, load: map<Id, nat>, now: int): Manager {
    if bs == [] then Manager([], load)
    else
      var rest, last := Cleaned(bs[..|bs| - 1], load, now), bs[|bs| - 1];
      if last.expiresAt <= now then rest.(load := Lowered(rest.load, last.proxy)) else rest.(bindings := rest.bindings + [last])
  }

  // ---- Choosing a proxy ----

  predicate Usable(p: Proxy) {
    p.enabled && p.healthScore > 0
  }

  function InPool(pool: seq<Proxy>, id: Id): (p: Option<Proxy>)
    ensures if p.Some? then p.value in pool && p.value.id == id else forall q :: q in pool ==> q.id != id
  {
    if pool == [] then None else if pool[0].id == id then Some(pool[0]) else InPool(pool[1..], id)
  }

  predicate Eligible(p: Proxy, load: map<Id, nat>, config: Config) {
    Usable(p) && Load(load, p.id) < config.maxBotsPerProxy
  }

  ghost predicate InTier(p: Proxy, pool: seq<Proxy>, load: map<Id, nat>, config: Config) {
    p in pool && Eligible(p, load, config) && forall q :: q in pool && Eligible(q, load, config) ==> q.priority <= p.priority
  }

  /** What a request for a bot's proxy finds: its own, a newly bound one, or the pool's fallback. */
  datatype Found = Own(proxy: Proxy) | Fresh(proxy: Proxy) | Fallback

  /** Whether the bot keeps the proxy it is bound to. */
  function Kept(m: Manager, bot: Id, now: int, pool: seq<Proxy>): Option<Proxy> {
    match Find(m.bindings, bot)
    case None => None
    case Some(b) =>
      var p := InPool(pool, b.proxy);
      if b.expiresAt > now && p.Some? && Usable(p.value) then p else None
  }

  predicate Broken(m: Manager, bot: Id, now: int, pool: seq<Proxy>) {
    Kept(m, bot, now, pool) == None && Find(m.bindings, bot).Some? && Find(m.bindings, bot).value.expiresAt > now
  }

  /** The state before a new proxy is looked for: a live binding to an unusable proxy is broken,
      at a clock reading of its own. */
  function Before(m: Manager, bot: Id, now: int, inner: int, pool: seq<Proxy>): Manager {
    if Broken(m, bot, now, pool) then Unbound(m, bot, inner) else m
  }

  // ---- Runs ----

  /** `found` is what a Get came to: any choice that the manager may make. */
  datatype Op =
    | Get(bot: Id, now: int, inner: int, pool: seq<Proxy>, found: Found)
    | Bind(bot: Id, proxy: Id, now: int)
    | Unbind(bot: Id, now: int)
    | Cleanup(now: int)

  /** The answers getProxyForBot may give: the bot's own proxy if it keeps it, else any proxy of
      the best tier with capacity, else the fallback. */
  ghost predicate MayFind(m: Manager, op: Op, config: Config)
    requires op.Get?
  {
    var kept, before := Kept(m, op.bot, op.now, op.pool), Before(m, op.bot, op.now, op.inner, op.pool);
    match op.found
    case Own(p) => kept == Some(p)
    case Fresh(p) => kept == None && InTier(p, op.pool, before.load, config)
    case Fallback => kept == None && forall p :: p in op.pool ==> !Eligible(p, before.load, config)
  }

  function Apply(m: Manager, op: Op, config: Config): Manager {
    match op
    case Get(bot, now, inner, pool, Own(_)) => m
    case Get(bot, now, inner, pool, Fresh(p)) => Bound(Before(m, bot, now, inner, pool), bot, p.id, now, config)
    case Get(bot, now, inner, pool, Fallback) => Before(m, bot, now, inner, pool)
    case Bind(bot, p, now) => Bound(m, bot, p, now, config)
    case Unbind(bot, now) => Unbound(m, bot, now)
    case Cleanup(now) => Cleaned(m.bindings, m.load, now)
  }

  function After(ops: seq<Op>, config: Config): Manager {
    if ops == [] then Manager([], map[]) else Apply(After(ops[..|ops| - 1], config), ops[|ops| - 1], config)
  }

  /** Every Get of the run gave an answer it may give. */
  ghost predicate Possible(ops: seq<Op>, config: Config) {
    ops == [] || (Possible(ops[..|ops| - 1], config)
                  && var op := ops[|ops| - 1];
                     (op.Get? ==> MayFind(After(ops[..|ops| - 1], config), op, config)))
  }

  // ---- Recorded load against actual bindings ----

  /** How many bots are bound to a proxy. */
  function Carried(bs: seq<Binding>, p: Id): nat {
    if bs == [] then 0 else Carried(bs[..|bs| - 1], p) + if bs[|bs| - 1].proxy == p then 1 else 0
  }

  /** Removing an expired binding without lowering the load. */
  function UnbindLeak(m: Manager, bot: Id, now: int, p: Id): nat {
    match Find(m.bindings, bot)
    case None => 0
    case Some(b) => if b.proxy == p && b.expiresAt <= now then 1 else 0
  }

  function Leak(m: Manager, op: Op, p: Id): nat {
    match op
    case Get(bot, now, inner, pool, Own(_)) => 0
    case Get(bot, now, inner, pool, Fresh(_)) => UnbindLeak(m, bot, if Broken(m, bot, now, pool) then inner else now, p)
    case Get(bot, now, inner, pool, Fallback) => if Broken(m, bot, now, pool) then UnbindLeak(m, bot, inner, p) else 0
    case Bind(bot, _, now) => UnbindLeak(m, bot, now, p)
    case Unbind(bot, now) => UnbindLeak(m, bot, now, p)
    case Cleanup(_) => 0
  }

  function Leaked(ops: seq<Op>, config: Config, p: Id): nat {
    if ops == [] then 0
    else Leaked(ops[..|ops| - 1], config, p) + Leak(After(ops[..|ops| - 1], config), ops[|ops| - 1], p)
  }

  ghost predicate OnePerBot(bs: seq<Binding>) {
    forall i, j :: 0 <= i < j < |bs| ==> bs[i].bot != bs[j].bot
  }

  lemma {:induction false} CarriedConcat(a: seq<Binding>, b: seq<Binding>, p: Id)
    ensures Carried(a + b, p) == Carried(a, p) + Carried(b, p)
  {
    if b == [] {
      assert a + b == a;
    } else {
      assert (a + b)[..|a + b| - 1] == a + b[..|b| - 1];
      CarriedConcat(a, b[..|b| - 1], p);
    }
  }

  lemma {:induction false} RemovedCarries(bs: seq<Binding>, bot: Id, p: Id)
    ensures Carried(bs, p) == Carried(Removed(bs, bot), p)
            + (if Find(bs, bot).Some? && Find(bs, bot).value.proxy == p then 1 else 0)
  {
    if bs != [] {
      assert bs == [bs[0]] + bs[1..];
      CarriedConcat([bs[0]], bs[1..], p);
      assert [bs[0]][..0] == [];
      if bs[0].bot != bot {
        RemovedCarries(bs[1..], bot, p);
        CarriedConcat([bs[0]], Removed(bs[1..], bot), p);
      }
    }
  }

  lemma OnePerBotCons(b: Binding, rest: seq<Binding>)
    ensures OnePerBot([b] + rest) <==> OnePerBot(rest) && forall x :: x in rest ==> x.bot != b.bot
  {
    if OnePerBot([b] + rest) {
      forall i, j | 0 <= i < j < |rest| ensures rest[i].bot != rest[j].bot {
        assert ([b] + rest)[i + 1] == rest[i] && ([b] + rest)[j + 1] == rest[j];
      }
      forall x | x in rest ensures x.bot != b.bot {
        var i :| 0 <= i < |rest| && rest[i] == x;
        assert ([b] + rest)[i + 1] == x && ([b] + rest)[0] == b;
      }
    }
  }

  lemma {:induction false} RemovedIsFree(bs: seq<Binding>, bot: Id)
    requires OnePerBot(bs)
    ensures OnePerBot(Removed(bs, bot)) && forall b :: b in Removed(bs, bot) <==> b in bs && b.bot != bot
  {
    hide OnePerBot;
    if bs != [] {
      assert bs == [bs[0]] + bs[1..];
      OnePerBotCons(bs[0], bs[1..]);
      if bs[0].bot != bot {
        RemovedIsFree(bs[1..], bot);
        OnePerBotCons(bs[0], Removed(bs[1..], bot));
      }
    }
  }

  /** The load exceeds the bindings of every proxy by what leaked so far. */
  ghost predicate Accounted(m: Manager, p: Id, leaked: nat) {
    Load(m.load, p) == Carried(m.bindings, p) + leaked
  }

  lemma UnboundAccounted(m: Manager, bot: Id, now: int, p: Id, leaked: nat)
    requires Accounted(m, p, leaked)
    ensures Accounted(Unbound(m, bot, now), p, leaked + UnbindLeak(m, bot, now, p))
  {
    hide Carried, Find, Removed;
    RemovedCarries(m.bindings, bot, p);
  }

  lemma BoundAccounted(m: Manager, bot: Id, q: Id, now: int, config: Config, p: Id, leaked: nat)
    requires Accounted(m, p, leaked)
    ensures Accounted(Bound(m, bot, q, now, config), p, leaked + UnbindLeak(m, bot, now, p))
  {
    hide Find, Removed, UnbindLeak, Unbound;
    UnboundAccounted(m, bot, now, p, leaked);
    var free := Unbound(m, bot, now).bindings;
    var more := free + [Binding(bot, q, now, now + config.stickyDurationMs)];
    assert more[..|more| - 1] == free;
  }

  lemma {:induction false} CleanedAccounted(bs: seq<Binding>, load: map<Id, nat>, now: int, p: Id)
    requires Load(load, p) >= Carried(bs, p)
    ensures var r := Cleaned(bs, load, now); Load(r.load, p) - Carried(r.bindings, p) == Load(load, p) - Carried(bs, p)
  {
    hide Carried, Lowered, Load;
    if bs != [] {
      var front, last := bs[..|bs| - 1], bs[|bs| - 1];
      assert bs == front + [last];
      CarriedMore(front, last, p);
      CleanedAccounted(front, load, now, p);
      var rest := Cleaned(front, load, now);
      CarriedMore(rest.bindings, last, p);
      LoweredBy(rest.load, last.proxy, p);
    }
  }

  lemma CarriedMore(bs: seq<Binding>, b: Binding, p: Id)
    ensures Carried(bs + [b], p) == Carried(bs, p) + if b.proxy == p then 1 else 0
  {
    assert (bs + [b])[..|bs|] == bs;
  }

  lemma LoweredBy(load: map<Id, nat>, q: Id, p: Id)
    ensures Load(Lowered(load, q), p) == Load(load, p) - if p == q && Load(load, p) > 0 then 1 else 0
  {
  }

  lemma {:induction false} FreeHasNone(bs: seq<Binding>, bot: Id)
    requires forall b :: b in bs ==> b.bot != bot
    ensures Find(bs, bot) == None
  {
    if bs != [] { FreeHasNone(bs[1..], bot); }
  }

  lemma UnboundIsFree(m: Manager, bot: Id, now: int)
    requires OnePerBot(m.bindings)
    ensures OnePerBot(Unbound(m, bot, now).bindings) && Find(Unbound(m, bot, now).bindings, bot) == None
  {
    RemovedIsFree(m.bindings, bot);
    if Find(m.bindings, bot).Some? { FreeHasNone(Removed(m.bindings, bot), bot); }
  }

  lemma {:induction false} NoneIsFree(bs: seq<Binding>, bot: Id)
    requires Find(bs, bot) == None
    ensures forall b :: b in bs ==> b.bot != bot
  {
    if bs != [] {
      NoneIsFree(bs[1..], bot);
      assert bs == [bs[0]] + bs[1..];
    }
  }

  lemma BoundIsOnePerBot(m: Manager, bot: Id, p: Id, now: int, config: Config)
    requires OnePerBot(m.bindings)
    ensures OnePerBot(Bound(m, bot, p, now, config).bindings)
  {
    hide Unbound, Find;
    UnboundIsFree(m, bot, now);
    NoneIsFree(Unbound(m, bot, now).bindings, bot);
  }

  lemma {:induction false} CleanedIsOnePerBot(bs: seq<Binding>, load: map<Id, nat>, now: int)
    requires OnePerBot(bs)
    ensures var kept := Cleaned(bs, load, now).bindings;
            OnePerBot(kept) && forall b :: b in kept <==> b in bs && b.expiresAt > now
  {
    hide Lowered;
    if bs != [] {
      var front := bs[..|bs| - 1];
      assert bs == front + [bs[|bs| - 1]];
      CleanedIsOnePerBot(front, load, now);
    }
  }

  lemma StepAccounted(m: Manager, op: Op, config: Config, p: Id, leaked: nat)
    requires OnePerBot(m.bindings) && Accounted(m, p, leaked)
    ensures OnePerBot(Apply(m, op, config).bindings) && Accounted(Apply(m, op, config), p, leaked + Leak(m, op, p))
  {
    hide Find, Carried, Unbound, Bound, Cleaned, OnePerBot, Broken;
    match op
    case Get(bot, now, inner, pool, found) =>
      var before, broken := Before(m, bot, now, inner, pool), Broken(m, bot, now, pool);
      var lost := if broken then UnbindLeak(m, bot, inner, p) else 0;
      if broken {
        UnboundAccounted(m, bot, inner, p, leaked);
        UnboundIsFree(m, bot, inner);
      }
      if found.Fresh? {
        BoundAccounted(before, bot, found.proxy.id, now, config, p, leaked + lost);
        BoundIsOnePerBot(before, bot, found.proxy.id, now, config);
      }
    case Bind(bot, q, now) =>
      BoundAccounted(m, bot, q, now, config, p, leaked);
      BoundIsOnePerBot(m, bot, q, now, config);
    case Unbind(bot, now) =>
      UnboundAccounted(m, bot, now, p, leaked);
      UnboundIsFree(m, bot, now);
    case Cleanup(now) =>
      CleanedAccounted(m.bindings, m.load, now, p);
      CleanedIsOnePerBot(m.bindings, m.load, now);
  }

  /** In every run the recorded load of a proxy is the number of bots bound to it plus the number
      of its bindings that were unbound after they had expired. */
  lemma {:induction false} LoadIsBindingsPlusLeaks(ops: seq<Op>, config: Config, p: Id)
    ensures OnePerBot(After(ops, config).bindings) && Accounted(After(ops, config), p, Leaked(ops, config, p))
  {
    hide Apply, Leak, OnePerBot;
    if ops == [] {
      assert OnePerBot([]) by { NoBindings(); }
    } else {
      var front := ops[..|ops| - 1];
      LoadIsBindingsPlusLeaks(front, config, p);
      StepAccounted(After(front, config), ops[|ops| - 1], config, p, Leaked(front, config, p));
    }
  }

  lemma NoBindings()
    ensures OnePerBot([])
  {
  }

  // ---- The cap ----

  /** No explicit bind puts a bot on a proxy whose load is already at the cap. */
  ghost predicate WithinCap(ops: seq<Op>, config: Config) {
    ops == [] || (WithinCap(ops[..|ops| - 1], config)
                  && var m, op := After(ops[..|ops| - 1], config), ops[|ops| - 1];
                     (op.Bind? ==> Load(Unbound(m, op.bot, op.now).load, op.proxy) < config.maxBotsPerProxy))
  }

  lemma UnboundNeverRaises(m: Manager, bot: Id, now: int, p: Id)
    ensures Load(Unbound(m, bot, now).load, p) <= Load(m.load, p)
  {
  }

  lemma {:induction false} CleanedNeverRaises(bs: seq<Binding>, load: map<Id, nat>, now: int, p: Id)
    ensures Load(Cleaned(bs, load, now).load, p) <= Load(load, p)
  {
    if bs != [] { CleanedNeverRaises(bs[..|bs| - 1], load, now, p); }
  }

  lemma BoundRaisesOne(m: Manager, bot: Id, q: Id, now: int, config: Config, p: Id)
    ensures Load(Bound(m, bot, q, now, config).load, p)
            == Load(Unbound(m, bot, now).load, p) + if p == q then 1 else 0
  {
    hide Unbound;
  }

  /** No proxy ever carries more bots than the cap. */
  lemma {:induction false} CapHolds(ops: seq<Op>, config: Config, p: Id)
    requires Possible(ops, config) && WithinCap(ops, config)
    ensures Carried(After(ops, config).bindings, p) <= Load(After(ops, config).load, p) <= Max(0, config.maxBotsPerProxy)
  {
    hide Bound, Unbound, Cleaned, Broken, Carried, Find;
    LoadIsBindingsPlusLeaks(ops, config, p);
    if ops != [] {
      var front, op := ops[..|ops| - 1], ops[|ops| - 1];
      CapHolds(front, config, p);
      var m := After(front, config);
      match op
      case Get(bot, now, inner, pool, found) =>
        UnboundNeverRaises(m, bot, inner, p);
        if found.Fresh? {
          var before := Before(m, bot, now, inner, pool);
          UnboundNeverRaises(before, bot, now, p);
          BoundRaisesOne(before, bot, found.proxy.id, now, config, p);
        }
      case Bind(bot, q, now) =>
        UnboundNeverRaises(m, bot, now, p);
        BoundRaisesOne(m, bot, q, now, config, p);
      case Unbind(bot, now) => UnboundNeverRaises(m, bot, now, p);
      case Cleanup(now) => CleanedNeverRaises(m.bindings, m.load, now, p);
    }
  }

  // ---- When the load is exact ----

  /** Every operation follows a cleanup at the same time and reads the clock only once. */
  ghost predicate Tidy(ops: seq<Op>) {
    ops == [] || (&& |ops| >= 2
                  && ops[|ops| - 2] == Cleanup(ops[|ops| - 1].now)
                  && (ops[|ops| - 1].Get? ==> ops[|ops| - 1].inner == ops[|ops| - 1].now)
                  && Tidy(ops[..|ops| - 2]))
  }

  lemma {:induction false} FoundIsListed(bs: seq<Binding>, bot: Id)
    ensures Find(bs, bot).Some? ==> Find(bs, bot).value in bs && Find(bs, bot).value.bot == bot
  {
    if bs != [] { FoundIsListed(bs[1..], bot); }
  }

  lemma NothingExpiredNothingLeaks(m: Manager, op: Op, p: Id)
    requires op.Cleanup? || forall b :: b in m.bindings ==> b.expiresAt > op.now
    requires op.Get? ==> op.inner == op.now
    ensures Leak(m, op, p) == 0
  {
    hide Find, Broken;
    if !op.Cleanup? { FoundIsListed(m.bindings, op.bot); }
  }

  /** Runs that clean up before each operation keep the load equal to the number of bindings. */
  lemma {:induction false} TidyRunsAreExact(ops: seq<Op>, config: Config, p: Id)
    requires Tidy(ops)
    ensures Leaked(ops, config, p) == 0 && Load(After(ops, config).load, p) == Carried(After(ops, config).bindings, p)
  {
    hide Leak, Cleaned, Carried, OnePerBot;
    LoadIsBindingsPlusLeaks(ops, config, p);
    if ops != [] {
      var early, front, op := ops[..|ops| - 2], ops[..|ops| - 1], ops[|ops| - 1];
      assert front[..|front| - 1] == early && front[|front| - 1] == Cleanup(op.now);
      TidyRunsAreExact(early, config, p);
      LoadIsBindingsPlusLeaks(early, config, p);
      var m := After(early, config);
      assert After(front, config) == Cleaned(m.bindings, m.load, op.now);
      CleanedIsOnePerBot(m.bindings, m.load, op.now);
      NothingExpiredNothingLeaks(m, Cleanup(op.now), p);
      NothingExpiredNothingLeaks(After(front, config), op, p);
    }
  }

  /** One clock reading is essential: breaking a binding reads the clock again, and a binding that
      expires between the two readings leaks in spite of the cleanup. */
  lemma SecondReadingLeaks(bot: Id, p: Id)
    ensures var config := Config(10, 3);
            var ops := [Cleanup(0)] + [Bind(bot, p, 0)] + [Cleanup(9)] + [Get(bot, 9, 10, [], Fallback)];
            Possible(ops, config) && Leaked(ops, config, p) == 1
  {
    hide Possible, After, Leaked, Carried, Unbound, Bound;
    var config, b := Config(10, 3), Binding(bot, p, 0, 10);
    var op1, op2, op3, op4 := Cleanup(0), Bind(bot, p, 0), Cleanup(9), Get(bot, 9, 10, [], Fallback);
    RunOn([], op1, config, p);
    assert [] + [op1] == [op1];
    RunOn([op1], op2, config, p);
    RunOn([op1] + [op2], op3, config, p);
    RunOn([op1] + [op2] + [op3], op4, config, p);
    EmptyRun(config, p);
    FirstBinding(bot, p, config);
    CleanedOne(b, map[p := 1], 9);
    BindLeaksNothing(bot, p);
    ExpiredGetLeaks(bot, p);
    hide Leak, Apply, MayFind;
  }

  lemma BindLeaksNothing(bot: Id, p: Id)
    ensures Leak(Manager([], map[]), Bind(bot, p, 0), p) == 0
  {
  }

  lemma ExpiredGetLeaks(bot: Id, p: Id)
    ensures var m, get := Manager([Binding(bot, p, 0, 10)], map[p := 1]), Get(bot, 9, 10, [], Fallback);
            Leak(m, get, p) == 1 && MayFind(m, get, Config(10, 3))
  {
  }

  lemma CleanedOne(b: Binding, load: map<Id, nat>, now: int)
    requires b.expiresAt > now
    ensures Cleaned([b], load, now) == Manager([b], load)
  {
    assert [b][..0] == [] && Cleaned([], load, now) == Manager([], load);
    assert [] + [b] == [b];
  }

  lemma EmptyRun(config: Config, p: Id)
    ensures Possible([], config) && After([], config) == Manager([], map[]) && Leaked([], config, p) == 0
  {
  }

  lemma FirstBinding(bot: Id, p: Id, config: Config)
    ensures Bound(Manager([], map[]), bot, p, 0, config)
            == Manager([Binding(bot, p, 0, config.stickyDurationMs)], map[p := 1])
  {
  }

  lemma RunOn(ops: seq<Op>, op: Op, config: Config, p: Id)
    ensures After(ops + [op], config) == Apply(After(ops, config), op, config)
    ensures Leaked(ops + [op], config, p) == Leaked(ops, config, p) + Leak(After(ops, config), op, p)
    ensures Possible(ops + [op], config) <==> Possible(ops, config) && (op.Get? ==> MayFind(After(ops, config), op, config))
  {
    hide Apply, Leak, MayFind;
    assert (ops + [op])[..|ops|] == ops;
  }

  // ---- Stickiness ----

  /** An operation that neither rebinds the bot nor finds its proxy unusable, before expiry. */
  ghost predicate LeavesAlone(op: Op, bot: Id, b: Binding) {
    && op.now < b.expiresAt
    && match op
       case Get(other, _, inner, pool, _) =>
         inner < b.expiresAt && (other == bot ==> InPool(pool, b.proxy).Some? && Usable(InPool(pool, b.proxy).value))
       case Bind(other, _, _) => other != bot
       case Unbind(other, _) => other != bot
       case Cleanup(_) => true
  }

  lemma {:induction false} FindAppended(bs: seq<Binding>, more: Binding, bot: Id)
    requires Find(bs, bot).Some? || more.bot != bot
    ensures Find(bs + [more], bot) == Find(bs, bot)
  {
    if bs != [] && bs[0].bot != bot {
      FindAppended(bs[1..], more, bot);
      assert (bs + [more])[1..] == bs[1..] + [more];
    }
  }

  lemma {:induction false} FindOther(bs: seq<Binding>, other: Id, bot: Id)
    requires other != bot
    ensures Find(Removed(bs, other), bot) == Find(bs, bot)
  {
    if bs != [] && bs[0].bot != other {
      FindOther(bs[1..], other, bot);
      assert ([bs[0]] + Removed(bs[1..], other))[1..] == Removed(bs[1..], other);
    }
  }

  lemma {:induction false} FindCleaned(bs: seq<Binding>, load: map<Id, nat>, now: int, bot: Id)
    requires OnePerBot(bs) && Find(bs, bot).Some? && Find(bs, bot).value.expiresAt > now
    ensures Find(Cleaned(bs, load, now).bindings, bot) == Find(bs, bot)
  {
    hide Lowered;
    var b, kept := Find(bs, bot).value, Cleaned(bs, load, now).bindings;
    FoundIsListed(bs, bot);
    CleanedIsOnePerBot(bs, load, now);
    FoundIsListed(kept, bot);
    if Find(kept, bot) == None { NoneIsFree(kept, bot); }
    OnlyOne(bs, b, Find(kept, bot).value);
  }

  lemma OnlyOne(bs: seq<Binding>, a: Binding, b: Binding)
    requires OnePerBot(bs) && a in bs && b in bs && a.bot == b.bot
    ensures a == b
  {
  }

  lemma StepKeepsBinding(m: Manager, op: Op, config: Config, bot: Id, b: Binding)
    requires OnePerBot(m.bindings) && Find(m.bindings, bot) == Some(b) && LeavesAlone(op, bot, b)
    requires op.Get? ==> MayFind(m, op, config)
    ensures Find(Apply(m, op, config).bindings, bot) == Some(b)
    ensures op.Get? && op.bot == bot ==> op.found.Own? && InPool(op.pool, b.proxy) == Some(op.found.proxy)
  {
    hide Find, Removed, Cleaned, OnePerBot;
    match op
    case Get(other, now, inner, pool, found) =>
      if other != bot {
        FindOther(m.bindings, other, bot);
        FindOther(Removed(m.bindings, other), other, bot);
        if found.Fresh? {
          var before := Unbound(Before(m, other, now, inner, pool), other, now).bindings;
          FindAppended(before, Binding(other, found.proxy.id, now, now + config.stickyDurationMs), bot);
        }
      }
    case Bind(other, q, now) =>
      FindOther(m.bindings, other, bot);
      FindAppended(Unbound(m, other, now).bindings, Binding(other, q, now, now + config.stickyDurationMs), bot);
    case Unbind(other, now) => FindOther(m.bindings, other, bot);
    case Cleanup(now) => FindCleaned(m.bindings, m.load, now, bot);
  }

  /** Until its binding expires, and while its proxy stays usable and nobody rebinds it, a bot
      gets the same proxy at every request, whatever happens to other bots in between. */
  lemma {:induction false} StaysSticky(ops: seq<Op>, more: seq<Op>, config: Config, bot: Id, b: Binding)
    requires Possible(ops + more, config) && Find(After(ops, config).bindings, bot) == Some(b)
    requires forall i :: 0 <= i < |more| ==> LeavesAlone(more[i], bot, b)
    ensures Find(After(ops + more, config).bindings, bot) == Some(b)
    ensures forall i :: 0 <= i < |more| && more[i].Get? && more[i].bot == bot ==>
              more[i].found.Own? && InPool(more[i].pool, b.proxy) == Some(more[i].found.proxy)
  {
    hide Apply, MayFind, Find, InPool, LeavesAlone, OnePerBot, After, Possible, Carried, Leaked, Leak;
    if more == [] {
      assert ops + more == ops;
    } else {
      var front, op := more[..|more| - 1], more[|more| - 1];
      assert ops + more == (ops + front) + [op];
      RunOn(ops + front, op, config, b.proxy);
      StaysSticky(ops, front, config, bot, b);
      LoadIsBindingsPlusLeaks(ops + front, config, b.proxy);
      assert LeavesAlone(op, bot, b);
      StepKeepsBinding(After(ops + front, config), op, config, bot, b);
    }
  }

  /** The operation gives the bot this proxy at time t. */
  ghost predicate Gives(op: Op, bot: Id, p: Id, t: int) {
    op == Op.Bind(bot, p, t) || (op.Get? && op.bot == bot && op.now == t && op.found.Fresh? && op.found.proxy.id == p)
  }

  /** A bot that is given a proxy at time t keeps it for the sticky duration and not a moment
      longer: requests before t + stickyDurationMs yield it, the first one from then on does not
      count as its own any more. */
  lemma StickyForItsDuration(ops: seq<Op>, op: Op, more: seq<Op>, last: Op, config: Config, bot: Id, p: Id, t: int)
    requires Possible(ops + [op] + more + [last], config) && Gives(op, bot, p, t)
    requires last.Get? && last.bot == bot
    requires forall i :: 0 <= i < |more| ==> LeavesAlone(more[i], bot, Binding(bot, p, t, t + config.stickyDurationMs))
    requires InPool(last.pool, p).Some? && Usable(InPool(last.pool, p).value)
    ensures if last.now < t + config.stickyDurationMs then last.found.Own? && last.found.proxy.id == p else !last.found.Own?
  {
    hide Apply, MayFind, LeavesAlone, OnePerBot, After, Possible, Carried, Leaked, Leak;
    var b, given := Binding(bot, p, t, t + config.stickyDurationMs), ops + [op];
    RunOn(given + more, last, config, p);
    PossibleBefore(given, more, config);
    RunOn(ops, op, config, p);
    LoadIsBindingsPlusLeaks(ops, config, p);
    GivenIsFound(After(ops, config), op, config, bot, p, t);
    StaysSticky(given, more, config, bot, b);
    OwnUntilExpiry(After(given + more, config), last, config, b);
  }

  lemma {:induction false} PossibleBefore(ops: seq<Op>, more: seq<Op>, config: Config)
    requires Possible(ops + more, config)
    ensures Possible(ops, config)
  {
    hide MayFind, After;
    if more == [] {
      assert ops + more == ops;
    } else {
      assert (ops + more)[..|ops + more| - 1] == ops + more[..|more| - 1];
      PossibleBefore(ops, more[..|more| - 1], config);
    }
  }

  lemma GivenIsFound(m: Manager, op: Op, config: Config, bot: Id, p: Id, t: int)
    requires OnePerBot(m.bindings) && Gives(op, bot, p, t)
    ensures Find(Apply(m, op, config).bindings, bot) == Some(Binding(bot, p, t, t + config.stickyDurationMs))
  {
    hide Unbound, OnePerBot, Broken, Find;
    var before := if op.Get? then Before(m, bot, t, op.inner, op.pool) else m;
    UnboundIsFree(m, bot, t);
    if op.Get? { UnboundIsFree(m, bot, op.inner); }
    UnboundIsFree(before, bot, t);
    FindNew(Unbound(before, bot, t).bindings, Binding(bot, p, t, t + config.stickyDurationMs));
  }

  lemma {:induction false} FindNew(bs: seq<Binding>, b: Binding)
    requires Find(bs, b.bot) == None
    ensures Find(bs + [b], b.bot) == Some(b)
  {
    if bs != [] {
      FindNew(bs[1..], b);
      assert (bs + [b])[1..] == bs[1..] + [b];
    }
  }

  lemma OwnUntilExpiry(m: Manager, op: Op, config: Config, b: Binding)
    requires op.Get? && op.bot == b.bot && MayFind(m, op, config) && Find(m.bindings, b.bot) == Some(b)
    requires InPool(op.pool, b.proxy).Some? && Usable(InPool(op.pool, b.proxy).value)
    ensures if op.now < b.expiresAt then op.found.Own? && op.found.proxy.id == b.proxy else !op.found.Own?
  {
    hide Find, InPool, Eligible;
  }

  /** What an answer says about the proxies afterwards. One that is named is in the pool, enabled
      and healthy, and live bound to the bot. A fresh one keeps to the cap, and every usable proxy
      of a higher priority is full; after a fallback every usable proxy is full, and the bot has no
      live binding. */
  lemma FoundMeans(m: Manager, op: Op, config: Config)
    requires op.Get? && MayFind(m, op, config) && OnePerBot(m.bindings)
    ensures var after, found := Apply(m, op, config), op.found;
      && (!found.Fallback? ==>
            && found.proxy in op.pool && found.proxy.enabled && found.proxy.healthScore > 0
            && exists b :: b in after.bindings && b.bot == op.bot && b.proxy == found.proxy.id
                           && (op.now < b.expiresAt || config.stickyDurationMs == 0))
      && (found.Fresh? ==> 1 <= Load(after.load, found.proxy.id) <= config.maxBotsPerProxy)
      && (!found.Own? ==>
            forall q :: q in op.pool && q.enabled && q.healthScore > 0
                        && (found.Fresh? ==> q.priority > found.proxy.priority && q.id != found.proxy.id) ==>
              Load(after.load, q.id) >= config.maxBotsPerProxy)
      && (found.Fallback? ==> forall b :: b in after.bindings && b.bot == op.bot ==> b.expiresAt <= op.now)
  {
    hide Find, Unbound, OnePerBot, Broken, Removed;
    var before := Before(m, op.bot, op.now, op.inner, op.pool);
    if Find(m.bindings, op.bot).Some? { FoundIsListed(m.bindings, op.bot); }
    if !op.found.Own? { NotOwnIsFree(m, op); }
    if op.found.Fresh? {
      var after := Apply(m, op, config);
      var b := Binding(op.bot, op.found.proxy.id, op.now, op.now + config.stickyDurationMs);
      assert after.bindings[|after.bindings| - 1] == b;
    }
  }

  lemma NotOwnIsFree(m: Manager, op: Op)
    requires op.Get? && OnePerBot(m.bindings) && Kept(m, op.bot, op.now, op.pool) == None
    ensures var before := Before(m, op.bot, op.now, op.inner, op.pool);
            && Unbound(before, op.bot, op.now).load == before.load
            && forall b :: b in before.bindings && b.bot == op.bot ==> b.expiresAt <= op.now
  {
    hide Removed, OnePerBot, Find;
    if Broken(m, op.bot, op.now, op.pool) {
      UnboundIsFree(m, op.bot, op.inner);
      NoneIsFree(Unbound(m, op.bot, op.inner).bindings, op.bot);
    } else if Find(m.bindings, op.bot) == None {
      NoneIsFree(m.bindings, op.bot);
    } else {
      var own := Find(m.bindings, op.bot).value;
      FoundIsListed(m.bindings, op.bot);
      forall b | b in m.bindings && b.bot == op.bot ensures b == own { OnlyOne(m.bindings, own, b); }
    }
  }

  // ---- Wearing out ----

  /** The bot takes the proxy, holds it for the sticky time and is unbound only then; k times. */
  function Wear(bot: Id, p: Proxy, k: nat, config: Config): seq<Op> {
    if k == 0 then []
    else
      var start := (k - 1) * config.stickyDurationMs;
      Wear(bot, p, k - 1, config) + [Get(bot, start, start, [p], Fresh(p))] + [Unbind(bot, start + config.stickyDurationMs)]
  }

  /** Nothing but such use wears a proxy out: after as many rounds as it has places, no bot is
      bound to it and yet its load stands at the cap. */
  lemma {:induction false} WearLeaks(bot: Id, p: Proxy, k: nat, config: Config)
    requires Usable(p) && k <= config.maxBotsPerProxy
    ensures Possible(Wear(bot, p, k, config), config)
    ensures After(Wear(bot, p, k, config), config).bindings == [] && Load(After(Wear(bot, p, k, config), config).load, p.id) == k
    ensures Leaked(Wear(bot, p, k, config), config, p.id) == k
  {
    hide Possible, After, Leaked;
    if k == 0 {
      EmptyRun(config, p.id);
    } else {
      WearLeaks(bot, p, k - 1, config);
      var before, start := Wear(bot, p, k - 1, config), (k - 1) * config.stickyDurationMs;
      var get, unbind := Get(bot, start, start, [p], Fresh(p)), Unbind(bot, start + config.stickyDurationMs);
      RunOn(before, get, config, p.id);
      RunOn(before + [get], unbind, config, p.id);
      OneRound(After(before, config), bot, p, start, config);
    }
  }

  lemma OneRound(m: Manager, bot: Id, p: Proxy, start: int, config: Config)
    requires m.bindings == [] && Usable(p) && Load(m.load, p.id) < config.maxBotsPerProxy
    ensures var get, unbind := Get(bot, start, start, [p], Fresh(p)), Unbind(bot, start + config.stickyDurationMs);
            var bound := Apply(m, get, config);
            && MayFind(m, get, config) && Leak(m, get, p.id) == 0 && Leak(bound, unbind, p.id) == 1
            && Apply(bound, unbind, config).bindings == []
            && Load(Apply(bound, unbind, config).load, p.id) == Load(m.load, p.id) + 1
  {
    var b := Binding(bot, p.id, start, start + config.stickyDurationMs);
    assert Apply(m, Get(bot, start, start, [p], Fresh(p)), config) == Manager([b], Raised(m.load, p.id));
    assert [b][1..] == [];
  }

  /** What has leaked is lost for good: from then on no request ever yields the proxy afresh. */
  lemma {:induction false} NeverChosenAgain(ops: seq<Op>, more: seq<Op>, op: Op, config: Config, p: Proxy)
    requires Leaked(ops, config, p.id) >= config.maxBotsPerProxy
    requires op.Get? && MayFind(After(ops + more, config), op, config)
    ensures op.found != Fresh(p)
  {
    hide After, Carried, Broken, Find;
    LeaksStay(ops, more, config, p.id);
    LoadIsBindingsPlusLeaks(ops + more, config, p.id);
    var m := After(ops + more, config);
    StepAccounted(m, op.(found := Fallback), config, p.id, Leaked(ops + more, config, p.id));
  }

  lemma {:induction false} LeaksStay(ops: seq<Op>, more: seq<Op>, config: Config, p: Id)
    ensures Leaked(ops + more, config, p) >= Leaked(ops, config, p)
  {
    hide Leak, After;
    if more == [] {
      assert ops + more == ops;
    } else {
      var front, op := more[..|more| - 1], more[|more| - 1];
      assert ops + more == (ops + front) + [op];
      RunOn(ops + front, op, config, p);
      LeaksStay(ops, front, config, p);
    }
  }

  // ---- The manager object ----

  class StickySessionManager {
    var bindings: seq<Binding>
    var proxyLoad: map<Id, nat>
    const config: Config

    constructor (config: Config)
      ensures State() == Manager([], map[]) && this.config == config
    {
      bindings, proxyLoad, this.config := [], map[], config;
    }

    ghost function State(): Manager
      reads this
    {
      Manager(bindings, proxyLoad)
    }

    method Bind(bot: Id, p: Id, now: int)
      modifies this
      ensures State() == Apply(old(State()), Op.Bind(bot, p, now), config)
    {
      Unbind(bot, now);
      bindings := bindings + [Binding(bot, p, now, now + config.stickyDurationMs)];
      proxyLoad := proxyLoad[p := (if p in proxyLoad then proxyLoad[p] else 0) + 1];
    }

    method Unbind(bot: Id, now: int)
      modifies this
      ensures State() == Apply(old(State()), Op.Unbind(bot, now), config)
    {
      var existing := Find(bindings, bot);
      if existing == None { return; }
      var p := existing.value.proxy;
      if existing.value.expiresAt > now {
        var load: int := if p in proxyLoad then proxyLoad[p] else 1;
        proxyLoad := proxyLoad[p := Max(0, load - 1)];
      }
      bindings := Removed(bindings, bot);
    }

    method Cleanup(now: int)
      modifies this
      ensures State() == Apply(old(State()), Op.Cleanup(now), config)
    {
      var kept: seq<Binding> := [];
      for i := 0 to |bindings|
        invariant bindings == old(bindings) && Manager(kept, proxyLoad) == Cleaned(bindings[..i], old(proxyLoad), now)
      {
        var b := bindings[i];
        assert bindings[..i + 1][..i] == bindings[..i];
        if b.expiresAt <= now {
          var load: int := if b.proxy in proxyLoad then proxyLoad[b.proxy] else 1;
          proxyLoad := proxyLoad[b.proxy := Max(0, load - 1)];
        } else {
          kept := kept + [b];
        }
      }
      assert bindings[..|bindings|] == bindings;
      bindings := kept;
    }

    /** `roll` is the random number that picks within the tier. */
    method GetProxyForBot(bot: Id, now: int, inner: int, pool: seq<Proxy>, roll: nat) returns (found: Found)
      modifies this
      ensures MayFind(old(State()), Get(bot, now, inner, pool, found), config)
      ensures State() == Apply(old(State()), Get(bot, now, inner, pool, found), config)
    {
      hide Removed, Find;
      var existing := Find(bindings, bot);
      if existing.Some? && existing.value.expiresAt > now {
        var p := InPool(pool, existing.value.proxy);
        if p.Some? && Usable(p.value) { return Own(p.value); }
        Unbind(bot, inner);
      }
      var tier := BestTier(pool, proxyLoad, config);
      if tier == [] { return Fallback; }
      var pick := tier[roll % |tier|];
      Bind(bot, pick.id, now);
      found := Fresh(pick);
    }
  }

  /** The eligible proxies of the highest priority. */
  method BestTier(pool: seq<Proxy>, load: map<Id, nat>, config: Config) returns (tier: seq<Proxy>)
    ensures forall p :: p in tier <==> InTier(p, pool, load, config)
    ensures tier == [] ==> forall p :: p in pool ==> !Eligible(p, load, config)
  {
    hide Eligible;
    var eligible: seq<Proxy> := [];
    for i := 0 to |pool|
      invariant forall p :: p in eligible <==> p in pool[..i] && Eligible(p, load, config)
    {
      assert pool[..i + 1] == pool[..i] + [pool[i]];
      if Eligible(pool[i], load, config) { eligible := eligible + [pool[i]]; }
    }
    assert pool[..|pool|] == pool;
    if eligible == [] { return []; }
    var top := eligible[0];
    for i := 0 to |eligible|
      invariant top in eligible && forall k :: 0 <= k < i ==> eligible[k].priority <= top.priority
    {
      if eligible[i].priority > top.priority { top := eligible[i]; }
    }
    tier := [];
    for i := 0 to |eligible|
      invariant forall p :: p in tier <==> p in eligible[..i] && p.priority == top.priority
    {
      assert eligible[..i + 1] == eligible[..i] + [eligible[i]];
      if eligible[i].priority == top.priority { tier := tier + [eligible[i]]; }
    }
    assert eligible[..|eligible|] == eligible;
    assert top in tier;
  }
}
