/** Leader election by a Redis lease (packages/workers/src/base-worker.ts). A tick is up to three
    Redis commands; other replicas may run between them. */
module Leadership {
  import opened Common

  const LEADER_TTL_MS := 30_000

  /** The lease key: its value and the time it expires. */
  datatype Lease = Lease(holder: nat, expiresAt: int)

  // ---- The commands on the lease key ----

  function Live(lease: Option<Lease>, now: int): Option<Lease> {
    if lease.Some? && now < lease.value.expiresAt then lease else None
  }

  function AfterSetNx(lease: Option<Lease>, id: nat, now: int): Option<Lease> {
    if Live(lease, now).Some? then lease else Some(Lease(id, now + LEADER_TTL_MS))
  }

  /** PEXPIRE does not look at the value: it extends whoever's lease it finds. */
  function AfterPexpire(lease: Option<Lease>, now: int): Option<Lease> {
    if Live(lease, now).Some? then Some(lease.value.(expiresAt := now + LEADER_TTL_MS)) else lease
  }

  predicate HeldBy(lease: Option<Lease>, id: nat, now: int) {
    Live(lease, now).Some? && lease.value.holder == id
  }

  /** tryAcquireLeadership run at these three times with nothing in between. */
  predicate Acquires(lease: Option<Lease>, id: nat, setAt: int, getAt: int) {
    Live(lease, setAt).None? || HeldBy(lease, id, getAt)
  }

  function AfterTick(lease: Option<Lease>, id: nat, setAt: int, getAt: int, expireAt: int): Option<Lease> {
    if Live(lease, setAt).None? then AfterSetNx(lease, id, setAt)
    else if HeldBy(lease, id, getAt) then AfterPexpire(lease, expireAt)
    else lease
  }

  class LeaseStore {
    var lease: Option<Lease>

    constructor ()
      ensures lease == None
    {
      lease := None;
    }

    method SetNx(id: nat, now: int) returns (ok: bool)
      modifies this
      ensures lease == AfterSetNx(old(lease), id, now) && ok == Live(old(lease), now).None?
    {
      if lease.Some? && now < lease.value.expiresAt { return false; }
      lease := Some(Lease(id, now + LEADER_TTL_MS));
      ok := true;
    }

    method Get(now: int) returns (holder: Option<nat>)
      ensures forall id: nat :: holder == Some(id) <==> HeldBy(lease, id, now)
    {
      if lease.Some? && now < lease.value.expiresAt { return Some(lease.value.holder); }
      holder := None;
    }

    method Delete()
      modifies this
      ensures lease == None
    {
      lease := None;
    }

    method Pexpire(now: int)
      modifies this
      ensures lease == AfterPexpire(old(lease), now)
    {
      if lease.Some? && now < lease.value.expiresAt { lease := Some(Lease(lease.value.holder, now + LEADER_TTL_MS)); }
    }
  }

  class Elector {
    const id: nat
    const store: LeaseStore
    var isLeader: bool

    constructor (id: nat, store: LeaseStore)
      ensures this.id == id && this.store == store && !isLeader
    {
      this.id, this.store, isLeader := id, store, false;
    }

    /** One undisturbed tick; `changed` tells the worker to resume or to let go of its bots. A free
        or expired lease is taken; somebody else's stays as it is and the replica does not lead; its
        own is extended. */
    method EnsureLeadershipState(setAt: int, getAt: int, expireAt: int) returns (changed: bool)
      modifies this, store
      ensures isLeader == Acquires(old(store.lease), id, setAt, getAt) && changed == (isLeader != old(isLeader))
      ensures store.lease == AfterTick(old(store.lease), id, setAt, getAt, expireAt)
      ensures old(store.lease) == None || old(store.lease).value.expiresAt <= setAt ==>
                isLeader && store.lease == Some(Lease(id, setAt + LEADER_TTL_MS))
      ensures old(store.lease).Some? && setAt < old(store.lease).value.expiresAt && old(store.lease).value.holder != id ==>
                !isLeader && store.lease == old(store.lease)
      ensures old(store.lease).Some? && setAt <= getAt <= expireAt < old(store.lease).value.expiresAt
              && old(store.lease).value.holder == id ==>
                isLeader && store.lease == Some(Lease(id, expireAt + LEADER_TTL_MS))
    {
      var nowLeader := store.SetNx(id, setAt);
      if !nowLeader {
        var holder := store.Get(getAt);
        if holder == Some(id) {
          store.Pexpire(expireAt);
          nowLeader := true;
        }
      }
      changed := nowLeader != isLeader;
      isLeader := nowLeader;
    }

    /** stopLeadership: the lease is given back if it is still its own, and left alone otherwise. */
    method StopLeadership(getAt: int)
      modifies store
      ensures store.lease == AfterStop(old(store.lease), id, getAt)
      ensures old(store.lease).Some? && old(store.lease).value.holder != id ==> store.lease == old(store.lease)
      ensures !HeldBy(store.lease, id, getAt)
    {
      var holder := store.Get(getAt);
      if holder == Some(id) { store.Delete(); }
    }
  }

  function AfterStop(lease: Option<Lease>, id: nat, getAt: int): Option<Lease> {
    if HeldBy(lease, id, getAt) then None else lease
  }

  /** Two replicas that tick one after the other, the second before the lease of the first has
      expired, never both lead. */
  lemma NeverBothLead(lease: Option<Lease>, i: nat, j: nat, setAt: int, getAt: int, expireAt: int, setAt': int, getAt': int)
    requires i != j && setAt <= getAt <= expireAt <= setAt' <= getAt'
    requires HeldBy(AfterTick(lease, i, setAt, getAt, expireAt), i, getAt')
    ensures Acquires(lease, i, setAt, getAt)
    ensures !Acquires(AfterTick(lease, i, setAt, getAt, expireAt), j, setAt', getAt')
  {
  }

  // ---- N replicas, every interleaving of their commands ----

  /** Where a replica stands inside its tick, or inside stopLeadership. */
  datatype Phase = Idle | Asking | Renewing | Releasing

  /** `backedUntil` is the expiry its own last lease write set; `up` ends with a crash or with
      the start of stopLeadership. */
  datatype Replica = Replica(phase: Phase, up: bool, isLeader: bool, backedUntil: int)

  datatype World = World(lease: Option<Lease>, replicas: seq<Replica>)

  datatype Command = SetNx | Get | Pexpire | Fail | Crash | Stop | Delete

  datatype Event = Event(at: int, id: nat, command: Command)

  function Next(w: World, e: Event): World {
    if e.id >= |w.replicas| then w
    else
      var r := w.replicas[e.id];
      match e.command
      case SetNx =>
        if !r.up || r.phase != Idle then w
        else if Live(w.lease, e.at).None? then
          World(AfterSetNx(w.lease, e.id, e.at),
                w.replicas[e.id := r.(isLeader := true, backedUntil := e.at + LEADER_TTL_MS)])
        else w.(replicas := w.replicas[e.id := r.(phase := Asking)])
      case Get =>
        if !r.up || r.phase != Asking then w
        else if HeldBy(w.lease, e.id, e.at) then w.(replicas := w.replicas[e.id := r.(phase := Renewing)])
        else w.(replicas := w.replicas[e.id := r.(phase := Idle, isLeader := false)])
      case Pexpire =>
        if !r.up || r.phase != Renewing then w
        else
          var until := if HeldBy(w.lease, e.id, e.at) then e.at + LEADER_TTL_MS else r.backedUntil;
          World(AfterPexpire(w.lease, e.at),
                w.replicas[e.id := r.(phase := Idle, isLeader := true, backedUntil := until)])
      case Fail => w.(replicas := w.replicas[e.id := r.(phase := Idle)])
      case Crash => w.(replicas := w.replicas[e.id := r.(up := false, phase := Idle)])
      case Stop =>
        if !r.up then w
        else w.(replicas := w.replicas[e.id := r.(up := false, phase := if HeldBy(w.lease, e.id, e.at) then Releasing else Idle)])
      case Delete =>
        if r.phase != Releasing then w
        else World(None, w.replicas[e.id := r.(phase := Idle, backedUntil := e.at)])
  }

  function Initial(n: nat): World {
    World(None, seq(n, _ => Replica(Idle, true, false, 0)))
  }

  function After(n: nat, es: seq<Event>): World {
    if es == [] then Initial(n) else Next(After(n, es[..|es| - 1]), es[|es| - 1])
  }

  predicate Clock(es: seq<Event>, now: int) {
    if es == [] then 0 <= now else es[|es| - 1].at <= now && Clock(es[..|es| - 1], es[|es| - 1].at)
  }

  /** The lease did not expire between looking at it and acting on it: whoever renews or deletes
      it still holds it. */
  predicate StillHeld(w: World, e: Event) {
    && (e.id < |w.replicas| && w.replicas[e.id].phase == Renewing && e.command == Pexpire ==> HeldBy(w.lease, e.id, e.at))
    && (e.id < |w.replicas| && w.replicas[e.id].phase == Releasing && e.command == Delete ==> HeldBy(w.lease, e.id, e.at))
  }

  predicate Undisturbed(n: nat, es: seq<Event>) {
    es == [] || (Undisturbed(n, es[..|es| - 1]) && StillHeld(After(n, es[..|es| - 1]), es[|es| - 1]))
  }

  /** A replica that is up, is not stopping, and thinks it leads: only it passes the job guard. */
  predicate Leads(w: World, id: nat) {
    id < |w.replicas| && w.replicas[id].up && w.replicas[id].isLeader
  }

  /** Without anything in between, the three commands of a tick leave what one tick of an elector
      leaves: the same lease, and the same belief in leading. */
  lemma TickIsThreeCommands(w: World, id: nat, setAt: int, getAt: int, expireAt: int)
    requires id < |w.replicas| && w.replicas[id].up && w.replicas[id].phase == Idle
    ensures var after := Next(Next(Next(w, Event(setAt, id, SetNx)), Event(getAt, id, Get)), Event(expireAt, id, Pexpire));
            && after.lease == AfterTick(w.lease, id, setAt, getAt, expireAt)
            && (Leads(after, id) <==> Acquires(w.lease, id, setAt, getAt))
            && after.replicas[id].phase == Idle
            && forall j :: 0 <= j < |w.replicas| && j != id ==> after.replicas[j] == w.replicas[j]
  {
    hide AfterSetNx, AfterPexpire, HeldBy, Live;
  }

  /** The commands of stopLeadership leave what an elector leaves, and end its leading at once. */
  lemma StopIsTwoCommands(w: World, id: nat, getAt: int)
    requires id < |w.replicas| && w.replicas[id].up
    ensures var after := Next(Next(w, Event(getAt, id, Stop)), Event(getAt, id, Delete));
            after.lease == AfterStop(w.lease, id, getAt) && !Leads(after, id) && after.replicas[id].phase == Idle
  {
  }

  /** A replica that finds somebody else's lease stops leading at once, one that finds its own does
      not, and a command that fails changes nobody's mind. */
  lemma GetDecides(w: World, id: nat, now: int)
    requires id < |w.replicas| && w.replicas[id].up && w.replicas[id].phase == Asking
    ensures var after := Next(w, Event(now, id, Get));
            && (w.lease == None || w.lease.value.holder != id || w.lease.value.expiresAt <= now ==> !Leads(after, id))
            && (w.lease.Some? && w.lease.value.holder == id && now < w.lease.value.expiresAt ==>
                  (Leads(after, id) <==> Leads(w, id)) && after.replicas[id].phase == Renewing)
    ensures forall j :: Leads(Next(w, Event(now, id, Fail)), j) <==> Leads(w, j)
  {
  }

  /** Every backing still running is the lease itself, and the lease is always somebody's backing. */
  ghost predicate Backed(w: World, now: int) {
    && (forall i :: 0 <= i < |w.replicas| ==> w.replicas[i].backedUntil <= now + LEADER_TTL_MS)
    && (forall i :: 0 <= i < |w.replicas| && now < w.replicas[i].backedUntil ==>
          w.lease == Some(Lease(i, w.replicas[i].backedUntil)))
    && (w.lease.Some? ==> w.lease.value.holder < |w.replicas|
                          && w.replicas[w.lease.value.holder].backedUntil == w.lease.value.expiresAt)
  }

  /** A step that touches neither the lease nor a backing. */
  lemma PhaseStep(w: World, id: nat, r: Replica, before: int, now: int)
    requires Backed(w, before) && before <= now && id < |w.replicas| && r.backedUntil == w.replicas[id].backedUntil
    ensures Backed(w.(replicas := w.replicas[id := r]), now)
  {
  }

  /** A replica writes a free lease or renews its own. */
  lemma WriteStep(w: World, id: nat, r: Replica, before: int, now: int)
    requires Backed(w, before) && before <= now && id < |w.replicas| && r.backedUntil == now + LEADER_TTL_MS
    requires Live(w.lease, now).None? || HeldBy(w.lease, id, now)
    ensures Backed(World(Some(Lease(id, now + LEADER_TTL_MS)), w.replicas[id := r]), now)
  {
  }

  /** A replica deletes its own lease. */
  lemma DeleteStep(w: World, id: nat, r: Replica, before: int, now: int)
    requires Backed(w, before) && before <= now && id < |w.replicas| && r.backedUntil == now && HeldBy(w.lease, id, now)
    ensures Backed(World(None, w.replicas[id := r]), now)
  {
  }

  lemma StepKeepsBacked(w: World, e: Event, before: int)
    requires Backed(w, before) && before <= e.at && StillHeld(w, e)
    ensures Backed(Next(w, e), e.at)
  {
    hide Backed;
    BackedLater(w, before, e.at);
    if e.id < |w.replicas| {
      var r := w.replicas[e.id];
      match e.command
      case SetNx =>
        WriteOrAsk(w, e, before);
      case Pexpire =>
        if r.up && r.phase == Renewing {
          WriteStep(w, e.id, r.(phase := Idle, isLeader := true, backedUntil := e.at + LEADER_TTL_MS), before, e.at);
        }
      case Delete =>
        if r.phase == Releasing { DeleteStep(w, e.id, r.(phase := Idle, backedUntil := e.at), before, e.at); }
      case _ =>
        if Next(w, e) != w { PhaseStep(w, e.id, Next(w, e).replicas[e.id], before, e.at); }
    }
  }

  lemma WriteOrAsk(w: World, e: Event, before: int)
    requires Backed(w, before) && before <= e.at && e.id < |w.replicas| && e.command == SetNx
    ensures Backed(Next(w, e), e.at)
  {
    hide Backed;
    var r := w.replicas[e.id];
    BackedLater(w, before, e.at);
    PhaseStep(w, e.id, r.(phase := Asking), before, e.at);
    if Live(w.lease, e.at).None? {
      WriteStep(w, e.id, r.(isLeader := true, backedUntil := e.at + LEADER_TTL_MS), before, e.at);
    }
  }

  lemma {:induction false} BackedHolds(n: nat, es: seq<Event>, now: int)
    requires Clock(es, now) && Undisturbed(n, es)
    ensures Backed(After(n, es), now) && |After(n, es).replicas| == n
  {
    hide Backed, StillHeld;
    if es == [] {
      NothingBackedYet(n, now);
    } else {
      var e := es[|es| - 1];
      BackedHolds(n, es[..|es| - 1], e.at);
      StepKeepsBacked(After(n, es[..|es| - 1]), e, e.at);
      BackedLater(After(n, es), e.at, now);
    }
  }

  lemma NothingBackedYet(n: nat, now: int)
    requires 0 <= now
    ensures Backed(Initial(n), now)
  {
  }

  lemma BackedLater(w: World, now: int, later: int)
    requires Backed(w, now) && now <= later
    ensures Backed(w, later)
  {
  }

  /** Whether a replica holds the lease depends only on its own last successful tick: it does
      exactly while that tick is less than LEADER_TTL_MS old. */
  lemma {:induction false} HoldsLeaseIffTicked(n: nat, es: seq<Event>, now: int, id: nat)
    requires Clock(es, now) && Undisturbed(n, es) && id < n
    ensures var w := After(n, es);
            |w.replicas| == n && (HeldBy(w.lease, id, now) <==> now < w.replicas[id].backedUntil)
  {
    BackedHolds(n, es, now);
  }

  /** While every replica that thinks it leads has ticked within the TTL, at most one of them
      does, and it owns the unexpired lease. */
  lemma AtMostOneLeader(n: nat, es: seq<Event>, now: int, i: nat, j: nat)
    requires Clock(es, now) && Undisturbed(n, es)
    requires var w := After(n, es);
             forall k :: 0 <= k < |w.replicas| && Leads(w, k) ==> now < w.replicas[k].backedUntil
    requires Leads(After(n, es), i)
    ensures HeldBy(After(n, es).lease, i, now)
    ensures Leads(After(n, es), j) ==> i == j
  {
    BackedHolds(n, es, now);
  }

  // ---- Takeover ----

  lemma {:induction false} DownStaysDown(n: nat, es: seq<Event>, k: nat, id: nat)
    requires k <= |es| && id < |After(n, es[..k]).replicas|
    requires !After(n, es[..k]).replicas[id].up && After(n, es[..k]).replicas[id].phase == Idle
    ensures var w, v := After(n, es), After(n, es[..k]);
            && |w.replicas| == |v.replicas| && !w.replicas[id].up && w.replicas[id].phase == Idle
            && w.replicas[id].backedUntil == v.replicas[id].backedUntil
    decreases |es|
  {
    hide Next;
    if k == |es| {
      assert es[..k] == es;
    } else {
      assert es[..|es| - 1][..k] == es[..k];
      DownStaysDown(n, es[..|es| - 1], k, id);
      DownStep(After(n, es[..|es| - 1]), es[|es| - 1], id);
    }
  }

  lemma DownStep(w: World, e: Event, id: nat)
    requires id < |w.replicas| && !w.replicas[id].up && w.replicas[id].phase == Idle
    ensures var v := Next(w, e);
            && |v.replicas| == |w.replicas| && !v.replicas[id].up && v.replicas[id].phase == Idle
            && v.replicas[id].backedUntil == w.replicas[id].backedUntil
  {
  }

  lemma CrashStep(w: World, at: int, id: nat)
    requires id < |w.replicas|
    ensures var v := Next(w, Event(at, id, Crash));
            && |v.replicas| == |w.replicas| && !v.replicas[id].up && v.replicas[id].phase == Idle
  {
  }

  /** The first tick of a live replica: the lease goes to it if it was free, and otherwise stays
      with whoever backs it. */
  lemma TickTakes(w: World, id: nat, dead: nat, now: int)
    requires Backed(w, now) && id < |w.replicas| && w.replicas[id].up && w.replicas[id].phase == Idle
    requires dead < |w.replicas| && !w.replicas[dead].up && w.replicas[dead].backedUntil <= now
    ensures var after := Next(w, Event(now, id, SetNx));
            && Live(after.lease, now).Some? && after.lease.value.holder != dead
            && after.lease.value.holder < |after.replicas| && now < after.replicas[after.lease.value.holder].backedUntil
            && (Live(w.lease, now).None? ==> Leads(after, id) && HeldBy(after.lease, id, now))
  {
  }

  /** Once a crash is LEADER_TTL_MS old, the lease of the crashed replica is gone, and the first
      tick of any live replica leaves the lease with a replica that wrote it less than LEADER_TTL_MS
      ago: itself, unless another was faster. */
  lemma Takeover(n: nat, es: seq<Event>, k: nat, dead: nat, id: nat, now: int)
    requires k < |es| && es[k].command == Crash && es[k].id == dead && dead < n && id < n
    requires Clock(es, now) && Undisturbed(n, es) && now >= es[k].at + LEADER_TTL_MS
    requires var r := After(n, es).replicas; |r| == n && r[id].up && r[id].phase == Idle
    ensures var after := Next(After(n, es), Event(now, id, SetNx));
            && Live(after.lease, now).Some? && after.lease.value.holder != dead
            && after.lease.value.holder < |after.replicas| && now < after.replicas[after.lease.value.holder].backedUntil
            && (Live(After(n, es).lease, now).None? ==> Leads(after, id) && HeldBy(after.lease, id, now))
  {
    hide Clock, Undisturbed, Next, Backed;
    BackedHolds(n, es, now);
    ClockPrefix(es, k + 1, now);
    PrefixUndisturbed(n, es, k + 1);
    BackedHolds(n, es[..k + 1], es[k].at);
    NothingBackedLonger(After(n, es[..k + 1]), dead, es[k].at);
    assert es[..k + 1][k] == es[k] && es[..k + 1][..k] == es[..k];
    PrefixUndisturbed(n, es, k);
    ClockPrefix(es, k, now);
    BackedHolds(n, es[..k], if k == 0 then Max(0, now) else es[k - 1].at);
    CrashStep(After(n, es[..k]), es[k].at, dead);
    DownStaysDown(n, es, k + 1, dead);
    TickTakes(After(n, es), id, dead, now);
  }

  lemma NothingBackedLonger(w: World, id: nat, now: int)
    requires Backed(w, now) && id < |w.replicas|
    ensures w.replicas[id].backedUntil <= now + LEADER_TTL_MS
  {
  }

  lemma {:induction false} ClockPrefix(es: seq<Event>, k: nat, now: int)
    requires k <= |es| && Clock(es, now)
    ensures Clock(es[..k], if k == 0 then Max(0, now) else es[k - 1].at)
    decreases |es|
  {
    if k == |es| {
      assert es[..k] == es;
    } else {
      assert es[..|es| - 1][..k] == es[..k];
      ClockPrefix(es[..|es| - 1], k, es[|es| - 1].at);
    }
  }

  lemma {:induction false} PrefixUndisturbed(n: nat, es: seq<Event>, k: nat)
    requires k <= |es| && Undisturbed(n, es)
    ensures Undisturbed(n, es[..k])
    decreases |es|
  {
    if k == |es| {
      assert es[..k] == es;
    } else {
      assert es[..|es| - 1][..k] == es[..k];
      PrefixUndisturbed(n, es[..|es| - 1], k);
    }
  }

  // ---- Why the renewal must not be disturbed ----

  lemma OneMore(n: nat, es: seq<Event>, e: Event, now: int)
    requires Clock(es, now) && now <= e.at
    ensures After(n, es + [e]) == Next(After(n, es), e) && Clock(es + [e], e.at)
    ensures Undisturbed(n, es + [e]) <==> Undisturbed(n, es) && StillHeld(After(n, es), e)
  {
    assert (es + [e])[..|es|] == es;
    assert Clock(es, e.at);
  }

  /** When a replica renews, in any run undisturbed so far, it comes out believing that it leads;
      another replica then leads and holds the lease exactly if it already did at that instant, and
      the renewing one holds it exactly if it had not lost it since its GET. */
  lemma {:induction false} RenewalSplitsIff(n: nat, es: seq<Event>, now: int, i: nat, j: nat)
    requires Clock(es, now) && Undisturbed(n, es) && i < n && j < n && i != j
    requires var w := After(n, es); |w.replicas| == n && w.replicas[i].up && w.replicas[i].phase == Renewing
    ensures var w, after := After(n, es), Next(After(n, es), Event(now, i, Pexpire));
            && Leads(after, i)
            && (Leads(after, j) && HeldBy(after.lease, j, now) <==> Leads(w, j) && HeldBy(w.lease, j, now))
            && (HeldBy(after.lease, i, now) <==> StillHeld(w, Event(now, i, Pexpire)))
  {
    BackedHolds(n, es, now);
  }

  /** Replica 0 leads and looks at its own lease just before it runs out; replica 1 takes it;
      replica 0 renews. */
  function Race(): seq<Event> {
    [] + [Event(0, 0, SetNx)] + [Event(29_999, 0, SetNx)] + [Event(29_999, 0, Get)]
    + [Event(30_000, 1, SetNx)] + [Event(30_000, 0, Pexpire)]
  }

  /** GET and PEXPIRE are two commands: when the lease expires between them two replicas lead,
      although each has just completed a successful tick. */
  lemma DisturbedRenewalSplitsLeadership()
    ensures Clock(Race(), 30_000) && Leads(After(2, Race()), 0) && Leads(After(2, Race()), 1)
    ensures !Undisturbed(2, Race())
  {
    hide After, Clock, Undisturbed;
    var none: seq<Event> := [];
    StartOfRun();
    OneMore(2, none, Event(0, 0, SetNx), 0);
    var one := none + [Event(0, 0, SetNx)];
    OneMore(2, one, Event(29_999, 0, SetNx), 0);
    var two := one + [Event(29_999, 0, SetNx)];
    OneMore(2, two, Event(29_999, 0, Get), 29_999);
    var three := two + [Event(29_999, 0, Get)];
    OneMore(2, three, Event(30_000, 1, SetNx), 29_999);
    var four := three + [Event(30_000, 1, SetNx)];
    OneMore(2, four, Event(30_000, 0, Pexpire), 30_000);
    assert Race() == four + [Event(30_000, 0, Pexpire)];
  }

  lemma StartOfRun()
    ensures Clock([], 0) && After(2, []) == Initial(2)
  {
  }
}
