/** The write-behind batchers: packages/workers/src/event-batcher.ts and, without the unique
    key, packages/workers/src/log-batcher.ts. */
module Batchers {
  import opened Common

  const MAX_BUFFERED_ROWS := 2000

  // ---- One batcher ----

  /** The module variables: `flushTimer` and `flushing` as "is not null". */
  datatype State<Row> = State(buffer: seq<Row>, flushTimer: bool, flushing: bool)

  /** The newest rows that fit. */
  function Capped<Row>(rows: seq<Row>): seq<Row> {
    if |rows| > MAX_BUFFERED_ROWS then rows[|rows| - MAX_BUFFERED_ROWS..] else rows
  }

  function Scheduled<Row>(s: State<Row>): State<Row> {
    if s.flushTimer || s.flushing then s else s.(flushTimer := true)
  }

  function Enqueued<Row>(s: State<Row>, row: Row): State<Row> {
    Scheduled(s.(buffer := Capped(s.buffer + [row])))
  }

  /** A flush call takes the whole buffer, unless a flush is already in flight. */
  function Flushed<Row>(s: State<Row>): State<Row> {
    if s.flushing then s else s.(buffer := [], flushing := true)
  }

  function Settled<Row>(s: State<Row>): State<Row> {
    var s1 := s.(flushing := false);
    if s1.buffer != [] then Scheduled(s1) else s1
  }

  class Batcher<Row> {
    var buffer: seq<Row>
    var flushTimer: bool
    var flushing: bool

    constructor ()
      ensures View() == State([], false, false)
    {
      buffer, flushTimer, flushing := [], false, false;
    }

    function View(): State<Row>
      reads this
    {
      State(buffer, flushTimer, flushing)
    }

    /** Answers whether a timer was armed. */
    method ScheduleFlush() returns (armed: bool)
      modifies this
      ensures View() == Scheduled(old(View())) && armed == (flushTimer && !old(flushTimer))
    {
      if flushTimer || flushing { return false; }
      flushTimer := true;
      armed := true;
    }

    method Enqueue(row: Row) returns (armed: bool)
      modifies this
      ensures View() == Enqueued(old(View()), row) && armed == (flushTimer && !old(flushTimer))
    {
      buffer := buffer + [row];
      if |buffer| > MAX_BUFFERED_ROWS { buffer := buffer[|buffer| - MAX_BUFFERED_ROWS..]; }
      armed := ScheduleFlush();
    }

    /** Answers the batch a new flush hands to the database, None when it joins one in flight. */
    method Flush() returns (batch: Option<seq<Row>>)
      modifies this
      ensures View() == Flushed(old(View()))
      ensures batch == if old(flushing) then None else Some(old(buffer))
    {
      if flushing { return None; }
      batch := Some(buffer);
      buffer, flushing := [], true;
    }

    method TimerFires() returns (batch: Option<seq<Row>>)
      modifies this
      ensures View() == Flushed(old(View()).(flushTimer := false))
      ensures batch == if old(flushing) then None else Some(old(buffer))
    {
      flushTimer := false;
      batch := Flush();
    }

    /** The `finally` of a flush, however its write ended. */
    method Settle() returns (armed: bool)
      modifies this
      ensures View() == Settled(old(View())) && armed == (flushTimer && !old(flushTimer))
    {
      flushing := false;
      if buffer != [] { armed := ScheduleFlush(); } else { armed := false; }
    }
  }

  // ---- The batcher with its timers, its database and its history ----

  /** `timers` counts timers that will still fire, `pending` holds the batches of flushes not yet
      settled; the rest is history: all rows enqueued, in order, and what became of them. */
  datatype World<Row> = World(s: State<Row>, timers: nat, pending: seq<seq<Row>>,
                              enqueued: seq<Row>, written: seq<Row>, failed: seq<Row>, dropped: seq<Row>)

  datatype Step<Row> = Enqueue(row: Row) | TimerFires | FlushCall | WriteDone(ok: bool)

  function Initial<Row>(): World<Row> {
    World(State([], false, false), 0, [], [], [], [], [])
  }

  /** A timer fires only if armed, a write ends only if pending; everything else can happen any time. */
  predicate Enabled<Row>(w: World<Row>, step: Step<Row>) {
    match step
    case Enqueue(_) => true
    case TimerFires => w.timers > 0
    case FlushCall => true
    case WriteDone(_) => w.pending != []
  }

  function Armed<Row>(before: State<Row>, after: State<Row>): nat {
    if after.flushTimer && !before.flushTimer then 1 else 0
  }

  function Next<Row>(w: World<Row>, step: Step<Row>): World<Row> {
    if !Enabled(w, step) then w
    else match step
    case Enqueue(row) =>
      var s := Enqueued(w.s, row);
      var all := w.s.buffer + [row];
      w.(s := s, timers := w.timers + Armed(w.s, s), enqueued := w.enqueued + [row],
         dropped := w.dropped + all[..|all| - |Capped(all)|])
    case TimerFires =>
      var s := w.s.(flushTimer := false);
      w.(s := Flushed(s), timers := w.timers - 1, pending := if s.flushing then w.pending else w.pending + [s.buffer])
    case FlushCall =>
      w.(s := Flushed(w.s), pending := if w.s.flushing then w.pending else w.pending + [w.s.buffer])
    case WriteDone(ok) =>
      var s, batch := Settled(w.s), w.pending[0];
      w.(s := s, timers := w.timers + Armed(w.s.(flushing := false), s), pending := w.pending[1..],
         written := if ok then w.written + batch else w.written,
         failed := if ok then w.failed else w.failed + batch)
  }

  /** Any interleaving of steps; a step that is not enabled does nothing. */
  function After<Row>(steps: seq<Step<Row>>): World<Row> {
    if steps == [] then Initial() else Next(After(steps[..|steps| - 1]), steps[|steps| - 1])
  }

  // ---- Control: no row is ever forgotten ----

  /** At most one write is outstanding, one timer pending, the buffer is bounded, and a row in
      the buffer is always waiting for a timer or for the flush in flight. */
  ghost predicate Control<Row>(w: World<Row>) {
    && |w.pending| == (if w.s.flushing then 1 else 0)
    && w.timers == (if w.s.flushTimer then 1 else 0)
    && |w.s.buffer| <= MAX_BUFFERED_ROWS
    && (w.s.buffer != [] ==> w.timers > 0 || w.pending != [])
  }

  lemma StepKeepsControl<Row>(w: World<Row>, step: Step<Row>)
    requires Control(w)
    ensures Control(Next(w, step))
  {
    hide Capped;
    if step.Enqueue? { CappedBounds(w.s.buffer + [step.row]); }
  }

  lemma CappedBounds<Row>(rows: seq<Row>)
    ensures |Capped(rows)| <= MAX_BUFFERED_ROWS && |Capped(rows)| <= |rows|
    ensures |rows| <= MAX_BUFFERED_ROWS ==> Capped(rows) == rows
    ensures |rows| == MAX_BUFFERED_ROWS + 1 ==> Capped(rows) == rows[1..]
  {
  }

  lemma {:induction false} ControlHolds<Row>(steps: seq<Step<Row>>)
    ensures Control(After(steps))
  {
    if steps != [] {
      ControlHolds(steps[..|steps| - 1]);
      StepKeepsControl(After(steps[..|steps| - 1]), steps[|steps| - 1]);
      hide Control, Next;
    }
  }

  /** From any reachable state, letting the flush in flight settle and the timer fire hands every
      buffered row to the database. */
  lemma DrainsByItself<Row>(w: World<Row>, ok: bool) returns (idle: World<Row>)
    requires Control(w)
    ensures idle == (if w.pending != [] then Next(w, WriteDone(ok)) else w)
    ensures var sent := Next(idle, TimerFires);
            w.s.buffer != [] ==> (Enabled(idle, TimerFires) && sent.s.buffer == [] && sent.pending == [w.s.buffer])
  {
    idle := if w.pending != [] then Next(w, WriteDone(ok)) else w;
  }

  /** What a step moves: a row is dropped only to make room for another in a buffer of 2000, and
      then it is the oldest; an idle batcher hands its whole buffer to the database as one batch, a
      busy one hands nothing; a write that ends settles exactly its own batch. */
  lemma StepMoves<Row>(w: World<Row>, step: Step<Row>)
    requires Control(w) && Enabled(w, step)
    ensures var after, full := Next(w, step), step.Enqueue? && |w.s.buffer| == 2000;
      && after.enqueued == w.enqueued + (if step.Enqueue? then [step.row] else [])
      && after.dropped == w.dropped + (if full then [w.s.buffer[0]] else [])
      && after.s.buffer == (if full then w.s.buffer[1..] + [step.row]
                            else if step.Enqueue? then w.s.buffer + [step.row]
                            else if (step.FlushCall? || step.TimerFires?) && w.pending == [] then []
                            else w.s.buffer)
      && after.pending == (if (step.FlushCall? || step.TimerFires?) && w.pending == [] then [w.s.buffer]
                           else if step.WriteDone? then [] else w.pending)
      && after.written == w.written + (if step == WriteDone(true) then w.pending[0] else [])
      && after.failed == w.failed + (if step == WriteDone(false) then w.pending[0] else [])
  {
    if step.Enqueue? {
      var all := w.s.buffer + [step.row];
      CappedBounds(all);
      hide Capped;
      if |w.s.buffer| == 2000 {
        assert all[1..] == w.s.buffer[1..] + [step.row];
        assert all[..|all| - |Capped(all)|] == [w.s.buffer[0]];
      } else {
        assert all[..|all| - |Capped(all)|] == [];
      }
    }
  }

  // ---- Data: every enqueued row has exactly one fate ----

  datatype Fate = Dropped | Written | Failed | InFlight | Buffered

  /** The rows with a given fate, in enqueue order. */
  function Rows<Row>(enqueued: seq<Row>, fates: seq<Fate>, fate: Fate): seq<Row>
    requires |fates| == |enqueued|
  {
    if enqueued == [] then []
    else
      var n := |enqueued| - 1;
      var rest := Rows(enqueued[..n], fates[..n], fate);
      if fates[n] == fate then rest + [enqueued[n]] else rest
  }

  function Flattened<Row>(batches: seq<seq<Row>>): seq<Row> {
    if batches == [] then [] else batches[0] + Flattened(batches[1..])
  }

  /** Nothing stands behind a buffered row but buffered rows, nor behind a row in flight a row
      whose write has ended. */
  ghost predicate Ordered(fates: seq<Fate>) {
    && (forall i, j :: 0 <= i < j < |fates| && fates[i] == Buffered ==> fates[j] == Buffered)
    && (forall i, j :: 0 <= i < j < |fates| && fates[i] == InFlight ==> fates[j] != Written && fates[j] != Failed)
  }

  /** One fate per enqueued row; every list of the world is the enqueued rows of one fate. */
  ghost predicate Accounts<Row>(w: World<Row>, fates: seq<Fate>) {
    && |fates| == |w.enqueued| && Ordered(fates)
    && w.s.buffer == Rows(w.enqueued, fates, Buffered)
    && Flattened(w.pending) == Rows(w.enqueued, fates, InFlight)
    && w.written == Rows(w.enqueued, fates, Written)
    && w.failed == Rows(w.enqueued, fates, Failed)
    && w.dropped == Rows(w.enqueued, fates, Dropped)
  }

  /** All rows of one fate change it together. */
  function Recast(fates: seq<Fate>, a: Fate, b: Fate): seq<Fate> {
    seq(|fates|, i requires 0 <= i < |fates| => if fates[i] == a then b else fates[i])
  }

  lemma RecastAt(fates: seq<Fate>, a: Fate, b: Fate, i: nat)
    requires i < |fates|
    ensures |Recast(fates, a, b)| == |fates| && Recast(fates, a, b)[i] == if fates[i] == a then b else fates[i]
  {
  }

  lemma RecastPrefix(fates: seq<Fate>, a: Fate, b: Fate, n: nat)
    requires n <= |fates|
    ensures Recast(fates, a, b)[..n] == Recast(fates[..n], a, b)
  {
    forall i | 0 <= i < n ensures Recast(fates, a, b)[..n][i] == Recast(fates[..n], a, b)[i] {}
  }

  /** When every row that already has the new fate came earlier, the two lists join in order. */
  lemma {:induction false} RecastRows<Row>(enqueued: seq<Row>, fates: seq<Fate>, a: Fate, b: Fate, fate: Fate)
    requires |fates| == |enqueued| && a != b
    requires forall i, j :: 0 <= i < j < |fates| && fates[i] == a ==> fates[j] != b
    ensures Rows(enqueued, Recast(fates, a, b), fate)
            == if fate == b then Rows(enqueued, fates, b) + Rows(enqueued, fates, a)
               else if fate == a then [] else Rows(enqueued, fates, fate)
  {
    hide Recast;
    if enqueued != [] {
      var n := |enqueued| - 1;
      RecastRows(enqueued[..n], fates[..n], a, b, fate);
      RecastPrefix(fates, a, b, n);
      RecastAt(fates, a, b, n);
      if fates[n] == b { NoneOf(enqueued[..n], fates[..n], a); }
    }
  }

  lemma {:induction false} NoneOf<Row>(enqueued: seq<Row>, fates: seq<Fate>, a: Fate)
    requires |fates| == |enqueued| && forall i :: 0 <= i < |fates| ==> fates[i] != a
    ensures Rows(enqueued, fates, a) == []
  {
    if enqueued != [] { NoneOf(enqueued[..|enqueued| - 1], fates[..|fates| - 1], a); }
  }

  lemma {:induction false} NoRowsNoFate<Row>(enqueued: seq<Row>, fates: seq<Fate>, a: Fate)
    requires |fates| == |enqueued| && Rows(enqueued, fates, a) == []
    ensures forall i :: 0 <= i < |fates| ==> fates[i] != a
  {
    if enqueued != [] { NoRowsNoFate(enqueued[..|enqueued| - 1], fates[..|fates| - 1], a); }
  }

  lemma OrderedPrefix(fates: seq<Fate>, n: nat)
    requires Ordered(fates) && n <= |fates|
    ensures Ordered(fates[..n])
  {
  }

  lemma OrderedMore(fates: seq<Fate>)
    requires Ordered(fates)
    ensures Ordered(fates + [Buffered])
  {
  }

  lemma OrderedDrop(fates: seq<Fate>, b: nat)
    requires Ordered(fates) && b < |fates| && fates[b] == Buffered && forall i :: 0 <= i < b ==> fates[i] != Buffered
    ensures Ordered(fates[b := Dropped])
  {
  }

  /** The buffered rows are the newest ones: those from some position on. */
  lemma {:induction false} BufferedFrom<Row>(enqueued: seq<Row>, fates: seq<Fate>) returns (b: nat)
    requires |fates| == |enqueued| && Ordered(fates)
    ensures b <= |fates| && forall i :: 0 <= i < |fates| ==> (fates[i] == Buffered <==> i >= b)
    ensures Rows(enqueued, fates, Buffered) == enqueued[b..]
  {
    if enqueued == [] {
      b := 0;
    } else {
      var n := |enqueued| - 1;
      OrderedPrefix(fates, n);
      b := BufferedFrom(enqueued[..n], fates[..n]);
      if fates[n] == Buffered {
        assert enqueued[..n][b..] + [enqueued[n]] == enqueued[b..];
      } else {
        assert b == n;
        b := n + 1;
      }
    }
  }

  /** The oldest buffered row is dropped: it joins the dropped ones at their end. */
  lemma {:induction false} DropOldest<Row>(enqueued: seq<Row>, fates: seq<Fate>, b: nat, fate: Fate)
    requires |fates| == |enqueued| && b < |fates| && forall i :: 0 <= i < |fates| ==> (fates[i] == Buffered <==> i >= b)
    ensures Rows(enqueued, fates[b := Dropped], fate)
            == if fate == Dropped then Rows(enqueued, fates, Dropped) + [enqueued[b]]
               else if fate == Buffered then enqueued[b + 1..] else Rows(enqueued, fates, fate)
  {
    var n := |enqueued| - 1;
    if b == n {
      assert fates[b := Dropped][..n] == fates[..n];
      if fate == Buffered { NoneOf(enqueued[..n], fates[..n], Buffered); }
    } else {
      DropOldest(enqueued[..n], fates[..n], b, fate);
      assert fates[b := Dropped][..n] == fates[..n][b := Dropped];
      assert enqueued[..n][b + 1..] + [enqueued[n]] == enqueued[b + 1..];
    }
  }

  lemma OneMoreRow<Row>(enqueued: seq<Row>, fates: seq<Fate>, row: Row, fate: Fate)
    requires |fates| == |enqueued|
    ensures Rows(enqueued + [row], fates + [Buffered], fate)
            == if fate == Buffered then Rows(enqueued, fates, Buffered) + [row] else Rows(enqueued, fates, fate)
  {
    assert (enqueued + [row])[..|enqueued|] == enqueued && (fates + [Buffered])[..|fates|] == fates;
  }

  lemma EnqueueAccounts<Row>(w: World<Row>, row: Row, fates: seq<Fate>) returns (fates': seq<Fate>)
    requires Control(w) && Accounts(w, fates)
    ensures Accounts(Next(w, Enqueue(row)), fates')
  {
    hide Rows, Ordered, Flattened;
    fates' := fates + [Buffered];
    var all := w.enqueued + [row];
    OrderedMore(fates);
    forall fate ensures Rows(all, fates', fate)
                        == if fate == Buffered then w.s.buffer + [row] else Rows(w.enqueued, fates, fate)
    {
      OneMoreRow(w.enqueued, fates, row, fate);
    }
    var buffer := w.s.buffer + [row];
    CappedBounds(buffer);
    hide Capped;
    if |w.s.buffer| == MAX_BUFFERED_ROWS {
      var b := BufferedFrom(all, fates');
      assert all[b..] == buffer && all[b..][1..] == all[b + 1..] && all[b] == buffer[0];
      assert buffer[..|buffer| - |Capped(buffer)|] == [all[b]];
      forall fate ensures Rows(all, fates'[b := Dropped], fate)
                          == if fate == Dropped then Rows(all, fates', Dropped) + [all[b]]
                             else if fate == Buffered then all[b + 1..] else Rows(all, fates', fate)
      {
        DropOldest(all, fates', b, fate);
      }
      OrderedDrop(fates', b);
      fates' := fates'[b := Dropped];
    } else {
      assert buffer[..|buffer| - |Capped(buffer)|] == [] && w.dropped + [] == w.dropped;
    }
  }

  lemma FlushAccounts<Row>(w: World<Row>, step: Step<Row>, fates: seq<Fate>) returns (fates': seq<Fate>)
    requires Control(w) && Accounts(w, fates) && Enabled(w, step) && (step.FlushCall? || step.TimerFires?)
    ensures Accounts(Next(w, step), fates')
  {
    hide Rows;
    if w.s.flushing {
      fates' := fates;
    } else {
      NoRowsNoFate(w.enqueued, fates, InFlight);
      fates' := Recast(fates, Buffered, InFlight);
      forall fate ensures Rows(w.enqueued, fates', fate)
                          == if fate == InFlight then w.s.buffer
                             else if fate == Buffered then [] else Rows(w.enqueued, fates, fate)
      {
        RecastRows(w.enqueued, fates, Buffered, InFlight, fate);
      }
      assert Flattened([w.s.buffer]) == w.s.buffer + Flattened([w.s.buffer][1..]);
      assert Next(w, step).pending == [w.s.buffer];
    }
  }

  lemma SettleAccounts<Row>(w: World<Row>, ok: bool, fates: seq<Fate>) returns (fates': seq<Fate>)
    requires Control(w) && Accounts(w, fates) && w.pending != []
    ensures Accounts(Next(w, WriteDone(ok)), fates')
  {
    hide Rows;
    var end := if ok then Written else Failed;
    fates' := Recast(fates, InFlight, end);
    forall fate { RecastRows(w.enqueued, fates, InFlight, end, fate); }
    assert Flattened(w.pending) == w.pending[0] + Flattened(w.pending[1..]);
  }

  /** In every interleaving each enqueued row has exactly one fate: buffered, in flight, written,
      failed or dropped; and each of these lists holds its rows in enqueue order. */
  lemma {:induction false} EveryRowHasOneFate<Row>(steps: seq<Step<Row>>) returns (fates: seq<Fate>)
    ensures Accounts(After(steps), fates)
  {
    if steps == [] {
      fates := [];
    } else {
      var earlier, step := steps[..|steps| - 1], steps[|steps| - 1];
      fates := EveryRowHasOneFate(earlier);
      ControlHolds(earlier);
      var w := After(earlier);
      hide Accounts, Control;
      if Enabled(w, step) {
        match step
        case Enqueue(row) => fates := EnqueueAccounts(w, row, fates);
        case WriteDone(ok) => fates := SettleAccounts(w, ok, fates);
        case _ => fates := FlushAccounts(w, step, fates);
      }
    }
  }

  // ---- The event store ----

  datatype EventId = EventId(text: string)

  datatype Event = Event(eventId: EventId, payload: string)

  predicate Has(store: seq<Event>, id: EventId) {
    exists i :: 0 <= i < |store| && store[i].eventId == id
  }

  /** createMany with skipDuplicates: the unique key decides, also within the batch. */
  function CreateMany(store: seq<Event>, rows: seq<Event>): seq<Event> {
    if rows == [] then store
    else
      var s, e := CreateMany(store, rows[..|rows| - 1]), rows[|rows| - 1];
      if Has(s, e.eventId) then s else s + [e]
  }

  /** How the rows were batched does not matter. */
  lemma {:induction false} BatchesDoNotMatter(store: seq<Event>, a: seq<Event>, b: seq<Event>)
    ensures CreateMany(CreateMany(store, a), b) == CreateMany(store, a + b)
  {
    if b == [] {
      assert a + b == a;
    } else {
      BatchesDoNotMatter(store, a, b[..|b| - 1]);
      assert (a + b)[..|a + b| - 1] == a + b[..|b| - 1];
    }
  }

  /** The store holds an id exactly when a row with that id was written. */
  lemma {:induction false} StoredIffWritten(written: seq<Event>, id: EventId)
    ensures Has(CreateMany([], written), id) <==> Has(written, id)
  {
    if written != [] {
      var earlier, e := written[..|written| - 1], written[|written| - 1];
      var before := CreateMany([], earlier);
      StoredIffWritten(earlier, id);
      StoredIffWritten(earlier, e.eventId);
      assert written == earlier + [e];
      HasOneMore(earlier, e, id);
      HasOneMore(before, e, id);
    }
  }

  lemma HasOneMore(rows: seq<Event>, e: Event, id: EventId)
    ensures Has(rows + [e], id) <==> Has(rows, id) || e.eventId == id
  {
    if Has(rows, id) {
      var i :| 0 <= i < |rows| && rows[i].eventId == id;
      assert (rows + [e])[i].eventId == id;
    }
    assert (rows + [e])[|rows|] == e;
  }

  /** It keeps one row an id, the one that was written first. */
  lemma {:induction false} FirstRowPerEventId(written: seq<Event>, k: nat)
    requires k < |CreateMany([], written)|
    ensures var store := CreateMany([], written);
            && (forall j :: 0 <= j < |store| && j != k ==> store[j].eventId != store[k].eventId)
            && exists i :: 0 <= i < |written| && written[i] == store[k] && !Has(written[..i], store[k].eventId)
  {
    var earlier, e := written[..|written| - 1], written[|written| - 1];
    var before, store := CreateMany([], earlier), CreateMany([], written);
    StoredIffWritten(earlier, e.eventId);
    if k < |before| {
      FirstRowPerEventId(earlier, k);
      var i :| 0 <= i < |earlier| && earlier[i] == before[k] && !Has(earlier[..i], before[k].eventId);
      assert written[..i] == earlier[..i] && written[i] == store[k];
    } else {
      assert written[..|earlier|] == earlier && written[|earlier|] == store[k];
    }
  }
}
