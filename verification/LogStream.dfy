/** The live log stream: a ring of recent entries and the sockets they fan out to
    (packages/api/src/services/log-stream.ts). */
module LogStreams {
  import opened Common
  import opened Windows

  const MAX_BACKLOG := 200
  const MAX_SOCKETS := 200

  datatype Entry = Entry(line: nat)

  /** A connected client: the entries it may see and those it was sent. */
  datatype Socket = Socket(filter: Entry -> bool, sent: seq<Entry>)

  /** Which sockets take a message: neither overflowing nor failing to send. */
  type Fine = nat -> bool

  /** The entries that a socket may see, in order. */
  function Visible(entries: seq<Entry>, filter: Entry -> bool): seq<Entry> {
    if entries == [] then []
    else
      var last := entries[|entries| - 1];
      Visible(entries[..|entries| - 1], filter) + if filter(last) then [last] else []
  }

  function Both(filter: Entry -> bool, sends: Entry -> bool): Entry -> bool {
    e => filter(e) && sends(e)
  }

  /** Sending the backlog to a new socket; entries whose send fails are skipped. */
  function Replayed(entries: seq<Entry>, filter: Entry -> bool, sends: Entry -> bool): seq<Entry> {
    Visible(entries, Both(filter, sends))
  }

  function Status(sockets: map<nat, Socket>, fine: Fine): map<nat, Socket> {
    map id | id in sockets && fine(id) :: sockets[id]
  }

  predicate Stays(s: Socket, id: nat, e: Entry, fine: Fine) {
    !s.filter(e) || fine(id)
  }

  function Delivered(s: Socket, e: Entry): Socket {
    if s.filter(e) then s.(sent := s.sent + [e]) else s
  }

  /** A socket that may not see the entry is passed over; of the others the fine ones get it and
      the rest are evicted. */
  function Broadcast(sockets: map<nat, Socket>, e: Entry, fine: Fine): map<nat, Socket> {
    map id | id in sockets && Stays(sockets[id], id, e, fine) :: Delivered(sockets[id], e)
  }

  // ---- Runs ----

  datatype Op =
    | Push(e: Entry, fine: Fine)
    | Add(id: nat, filter: Entry -> bool, sends: Entry -> bool, fine: Fine)
    | Remove(id: nat, fine: Fine)

  datatype Hub = Hub(pushed: seq<Entry>, sockets: map<nat, Socket>)

  function Apply(h: Hub, op: Op): Hub {
    match op
    case Push(e, fine) => Hub(h.pushed + [e], Broadcast(h.sockets, e, fine))
    case Add(id, filter, sends, fine) =>
      if |h.sockets| >= MAX_SOCKETS then h
      else
        var replay := Replayed(LastN(h.pushed, MAX_BACKLOG), filter, sends);
        h.(sockets := Status(h.sockets[id := Socket(filter, replay)], fine))
    case Remove(id, fine) => h.(sockets := Status(h.sockets - {id}, fine))
  }

  ghost function After(ops: seq<Op>): Hub {
    if ops == [] then Hub([], map[]) else Apply(After(ops[..|ops| - 1]), ops[|ops| - 1])
  }

  lemma {:induction false} VisibleConcat(a: seq<Entry>, b: seq<Entry>, filter: Entry -> bool)
    ensures Visible(a + b, filter) == Visible(a, filter) + Visible(b, filter)
  {
    if b == [] {
      assert a + b == a;
    } else {
      VisibleConcat(a, b[..|b| - 1], filter);
      assert (a + b)[..|a + b| - 1] == a + b[..|b| - 1];
    }
  }

  lemma {:induction false} SameVisible(entries: seq<Entry>, filter: Entry -> bool, filter': Entry -> bool)
    requires forall e :: e in entries ==> filter(e) == filter'(e)
    ensures Visible(entries, filter) == Visible(entries, filter')
  {
    if entries != [] { SameVisible(entries[..|entries| - 1], filter, filter'); }
  }

  /** What one event does to a client that stays connected. */
  lemma StepSent(h: Hub, op: Op, id: nat)
    requires id in Apply(h, op).sockets && !(op.Add? && op.id == id)
    ensures id in h.sockets && Apply(h, op).sockets[id].filter == h.sockets[id].filter
    ensures Apply(h, op).pushed == h.pushed + if op.Push? then [op.e] else []
    ensures Apply(h, op).sockets[id].sent
            == h.sockets[id].sent + if op.Push? && h.sockets[id].filter(op.e) then [op.e] else []
  {
    hide LastN, Replayed;
  }

  /** A client that is still connected has received, in order, those of the last MAX_BACKLOG entries
      before it joined that it may see and whose replay did not fail, and then, without a gap, every
      later entry that it may see. */
  lemma {:induction false} ReplayThenLive(ops: seq<Op>, add: Op, more: seq<Op>)
    requires add.Add? && forall i :: 0 <= i < |more| ==> !(more[i].Add? && more[i].id == add.id)
    requires add.id !in After(ops).sockets && add.id in After(ops + [add] + more).sockets
    ensures var before, after := After(ops).pushed, After(ops + [add] + more);
            && before <= after.pushed
            && after.sockets[add.id].filter == add.filter
            && after.sockets[add.id].sent
               == Replayed(LastN(before, MAX_BACKLOG), add.filter, add.sends) + Visible(after.pushed[|before|..], add.filter)
  {
    hide LastN, Broadcast, Status, Replayed, Apply;
    var before := After(ops).pushed;
    var replay := Replayed(LastN(before, MAX_BACKLOG), add.filter, add.sends);
    AfterOne(ops, add);
    if more == [] {
      assert ops + [add] + more == ops + [add];
      FirstSent(After(ops), add);
      assert before[|before|..] == [] && replay + [] == replay;
    } else {
      var front, op := more[..|more| - 1], more[|more| - 1];
      var early := After(ops + [add] + front);
      assert ops + [add] + more == ops + [add] + front + [op];
      AfterOne(ops + [add] + front, op);
      StepSent(early, op, add.id);
      ReplayThenLive(ops, add, front);
      LaterEntry(early.pushed, |before|, op, add.filter, replay);
    }
  }

  /** An event that leaves a client connected: an entry that it may not see or whose sending works,
      or a status message whose sending works; none is sent when a newcomer is turned away. */
  ghost predicate Spares(op: Op, id: nat, filter: Entry -> bool, full: bool) {
    match op
    case Push(e, fine) => filter(e) ==> fine(id)
    case Add(_, _, _, fine) => !full ==> fine(id)
    case Remove(other, fine) => other != id && fine(id)
  }

  /** A client that was let in stays connected exactly as long as every event spares it. */
  lemma {:induction false} ConnectedIff(ops: seq<Op>, add: Op, more: seq<Op>)
    requires add.Add? && forall i :: 0 <= i < |more| ==> !(more[i].Add? && more[i].id == add.id)
    requires add.id !in After(ops).sockets
    ensures add.id in After(ops + [add] + more).sockets <==>
            && |After(ops).sockets| < 200 && add.fine(add.id)
            && forall i :: 0 <= i < |more| ==>
                 Spares(more[i], add.id, add.filter, |After(ops + [add] + more[..i]).sockets| >= 200)
  {
    hide LastN, Broadcast, Status, Replayed, Apply, After, Spares;
    AfterOne(ops, add);
    if more == [] {
      assert ops + [add] + more == ops + [add];
      LetInIff(After(ops), add);
    } else {
      var front, op, n := more[..|more| - 1], more[|more| - 1], |more| - 1;
      var early := After(ops + [add] + front);
      assert ops + [add] + more == ops + [add] + front + [op];
      AfterOne(ops + [add] + front, op);
      ConnectedIff(ops, add, front);
      assert forall i :: 0 <= i < n ==> front[..i] == more[..i];
      if add.id in early.sockets { ReplayThenLive(ops, add, front); }
      SparedIff(early, op, add.id);
    }
  }

  lemma LetInIff(h: Hub, add: Op)
    requires add.Add? && add.id !in h.sockets
    ensures add.id in Apply(h, add).sockets <==> |h.sockets| < 200 && add.fine(add.id)
  {
    hide LastN, Replayed;
  }

  lemma SparedIff(h: Hub, op: Op, id: nat)
    requires !(op.Add? && op.id == id)
    ensures id in Apply(h, op).sockets <==> id in h.sockets && Spares(op, id, h.sockets[id].filter, |h.sockets| >= 200)
  {
    hide LastN, Replayed;
  }

  lemma AfterOne(ops: seq<Op>, op: Op)
    ensures After(ops + [op]) == Apply(After(ops), op)
  {
    hide Apply;
    assert (ops + [op])[..|ops|] == ops;
  }

  /** What one event adds to the visible entries since position n. */
  lemma LaterEntry(pushed: seq<Entry>, n: nat, op: Op, filter: Entry -> bool, replay: seq<Entry>)
    requires n <= |pushed|
    ensures var more := if op.Push? then [op.e] else [];
            replay + Visible((pushed + more)[n..], filter)
            == replay + Visible(pushed[n..], filter) + if op.Push? && filter(op.e) then [op.e] else []
  {
    if op.Push? {
      var later := pushed[n..] + [op.e];
      assert (pushed + [op.e])[n..] == later && later[..|later| - 1] == pushed[n..];
    } else {
      assert pushed + [] == pushed;
    }
  }

  /** If no replay fails there is no gap at all: it has every entry it may see from the start of
      the backlog on. */
  lemma StreamHasNoGap(ops: seq<Op>, add: Op, more: seq<Op>)
    requires add.Add? && forall i :: 0 <= i < |more| ==> !(more[i].Add? && more[i].id == add.id)
    requires add.id !in After(ops).sockets && add.id in After(ops + [add] + more).sockets
    requires forall e :: e in LastN(After(ops).pushed, MAX_BACKLOG) ==> add.sends(e)
    ensures var before, after := After(ops).pushed, After(ops + [add] + more);
            && before <= after.pushed
            && after.sockets[add.id].sent
               == Visible(LastN(before, MAX_BACKLOG) + after.pushed[|before|..], add.filter)
  {
    hide LastN, After, Visible;
    var before, after := After(ops).pushed, After(ops + [add] + more);
    ReplayThenLive(ops, add, more);
    SameVisible(LastN(before, MAX_BACKLOG), add.filter, Both(add.filter, add.sends));
    VisibleConcat(LastN(before, MAX_BACKLOG), after.pushed[|before|..], add.filter);
  }

  lemma FirstSent(h: Hub, add: Op)
    requires add.Add? && add.id !in h.sockets && add.id in Apply(h, add).sockets
    ensures Apply(h, add).pushed == h.pushed
    ensures Apply(h, add).sockets[add.id] == Socket(add.filter, Replayed(LastN(h.pushed, MAX_BACKLOG), add.filter, add.sends))
  {
    hide LastN, Replayed;
  }

  /** No client ever gets an entry that its filter rejects. */
  lemma {:induction false} NothingForeign(ops: seq<Op>, id: nat, e: Entry)
    requires id in After(ops).sockets && e in After(ops).sockets[id].sent
    ensures After(ops).sockets[id].filter(e)
  {
    hide LastN;
    var front, op := ops[..|ops| - 1], ops[|ops| - 1];
    if op.Add? && |After(front).sockets| < MAX_SOCKETS && op.id == id {
      VisiblePasses(LastN(After(front).pushed, MAX_BACKLOG), Both(op.filter, op.sends), e);
    } else if e in After(front).sockets[id].sent {
      NothingForeign(front, id, e);
    }
  }

  lemma {:induction false} VisiblePasses(entries: seq<Entry>, filter: Entry -> bool, e: Entry)
    requires e in Visible(entries, filter)
    ensures filter(e)
  {
    var front := entries[..|entries| - 1];
    if e in Visible(front, filter) { VisiblePasses(front, filter, e); }
  }

  /** There are never more than MAX_SOCKETS clients. */
  lemma {:induction false} SocketsAreBounded(ops: seq<Op>)
    ensures |After(ops).sockets| <= MAX_SOCKETS
  {
    if ops != [] {
      var front, op := ops[..|ops| - 1], ops[|ops| - 1];
      SocketsAreBounded(front);
      var h := After(front);
      match op
      case Push(e, fine) => Fewer(Broadcast(h.sockets, e, fine).Keys, h.sockets.Keys);
      case Remove(id, fine) => Fewer(Status(h.sockets - {id}, fine).Keys, h.sockets.Keys);
      case Add(id, filter, sends, fine) =>
        if |h.sockets| < MAX_SOCKETS {
          assert (h.sockets.Keys + {id}) == h.sockets[id := Socket(filter, [])].Keys;
          Fewer(After(ops).sockets.Keys, h.sockets.Keys + {id});
        }
    }
  }

  lemma {:induction false} Fewer(a: set<nat>, b: set<nat>)
    requires a <= b
    ensures |a| <= |b|
  {
    if a != {} {
      var x :| x in a;
      Fewer(a - {x}, b - {x});
    }
  }

  // ---- The hub object ----

  class LogStreamHub {
    const backlog: array<Entry>
    var backlogHead: nat
    var backlogCount: nat
    var sockets: map<nat, Socket>
    /** Every entry pushed so far. */
    ghost var pushed: seq<Entry>

    ghost predicate Shaped()
      reads this
    {
      && backlog.Length == MAX_BACKLOG && backlogHead < MAX_BACKLOG && backlogCount <= MAX_BACKLOG
      && (backlogCount < MAX_BACKLOG ==> backlogHead == 0)
    }

    /** The ring read from its head. */
    ghost function Backlog(): seq<Entry>
      requires Shaped()
      reads this, backlog
    {
      Ring(backlog[..], if backlogCount < MAX_BACKLOG then backlogCount else backlogHead, backlogCount)
    }

    /** It holds the last MAX_BACKLOG entries, oldest first. */
    ghost predicate Valid()
      reads this, backlog
    {
      Shaped() && Backlog() == LastN(pushed, MAX_BACKLOG)
    }

    ghost function State(): Hub
      reads this
    {
      Hub(pushed, sockets)
    }

    constructor ()
      ensures Valid() && State() == Hub([], map[]) && fresh(backlog)
    {
      backlogHead, backlogCount, sockets := 0, 0, map[];
      pushed := [];
      backlog := new Entry[MAX_BACKLOG](_ => Entry(0));
    }

    method Push(e: Entry, fine: Fine)
      requires Valid()
      modifies this, backlog
      ensures Valid() && State() == Apply(old(State()), Op.Push(e, fine))
    {
      hide Ring, LastN, Broadcast, NextSlot;
      var slot := (backlogHead + backlogCount) % MAX_BACKLOG;
      ghost var next := if backlogCount < MAX_BACKLOG then backlogCount else backlogHead;
      assert slot == next;
      RingStep(pushed, backlog[..], next, backlogCount, e);
      SlotAfter(next, MAX_BACKLOG);
      backlog[slot] := e;
      if backlogCount < MAX_BACKLOG { backlogCount := backlogCount + 1; }
      else { backlogHead := NextSlot(backlogHead, MAX_BACKLOG); }
      pushed := pushed + [e];
      BroadcastLog(e, fine);
    }

    method BroadcastLog(e: Entry, fine: Fine)
      modifies `sockets
      ensures sockets == Broadcast(old(sockets), e, fine)
    {
      var todo := sockets.Keys;
      while todo != {}
        invariant todo <= sockets.Keys
        invariant forall id :: id in sockets <==> id in todo || id in Broadcast(old(sockets), e, fine)
        invariant forall id :: id in todo ==> id in old(sockets) && sockets[id] == old(sockets)[id]
        invariant forall id :: id in sockets && id !in todo ==> sockets[id] == Broadcast(old(sockets), e, fine)[id]
      {
        var id :| id in todo;
        var socket := sockets[id];
        todo := todo - {id};
        if !socket.filter(e) { continue; }
        if !fine(id) { sockets := sockets - {id}; }
        else { sockets := sockets[id := socket.(sent := socket.sent + [e])]; }
      }
    }

    method BroadcastStatus(fine: Fine)
      modifies `sockets
      ensures sockets == Status(old(sockets), fine)
    {
      var todo := sockets.Keys;
      while todo != {}
        invariant todo <= sockets.Keys
        invariant forall id :: id in sockets <==> id in todo || id in Status(old(sockets), fine)
        invariant forall id :: id in sockets ==> id in old(sockets) && sockets[id] == old(sockets)[id]
      {
        var id :| id in todo;
        todo := todo - {id};
        if !fine(id) { sockets := sockets - {id}; }
      }
    }

    method Replay(filter: Entry -> bool, sends: Entry -> bool) returns (sent: seq<Entry>)
      requires Valid()
      ensures sent == Replayed(LastN(pushed, MAX_BACKLOG), filter, sends)
    {
      hide Ring, LastN;
      sent := [];
      RingSize(backlog[..], if backlogCount < MAX_BACKLOG then backlogCount else backlogHead, backlogCount);
      for i := 0 to backlogCount
        invariant sent == Visible(Backlog()[..i], Both(filter, sends))
      {
        RingAt(backlog[..], backlogHead, backlogCount, i);
        var e := backlog[(backlogHead + i) % MAX_BACKLOG];
        assert Backlog()[..i + 1][..i] == Backlog()[..i];
        if filter(e) && sends(e) { sent := sent + [e]; }
      }
      assert Backlog()[..backlogCount] == Backlog();
    }

    method Add(id: nat, filter: Entry -> bool, sends: Entry -> bool, fine: Fine) returns (accepted: bool)
      requires Valid() && id !in sockets
      modifies this
      ensures Valid() && State() == Apply(old(State()), Op.Add(id, filter, sends, fine))
      ensures accepted <==> |old(sockets)| < MAX_SOCKETS
    {
      hide Ring, LastN, Replayed;
      if |sockets| >= MAX_SOCKETS { return false; }
      var sent := Replay(filter, sends);
      sockets := sockets[id := Socket(filter, sent)];
      BroadcastStatus(fine);
      accepted := true;
    }

    method Remove(id: nat, fine: Fine)
      requires Valid()
      modifies `sockets
      ensures Valid() && State() == Apply(old(State()), Op.Remove(id, fine))
    {
      sockets := sockets - {id};
      BroadcastStatus(fine);
    }
  }
}
