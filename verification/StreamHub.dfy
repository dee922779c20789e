/** The hub that shares one price socket per symbol among its listeners
    (packages/workers/src/crypto/stream-hub.ts). */
module StreamHub {
  import opened Common

  const MAX_RECONNECT_MS := 30_000
  const STALE_SOCKET_MS := 90_000

  datatype Symbol = Symbol(name: string)

  function UpperChar(c: char): char {
    if 'a' <= c <= 'z' then c - 'a' + 'A' else c
  }

  /** Upper case, for the Latin letters that trading symbols consist of. */
  function Upper(s: string): string {
    if s == "" then "" else [UpperChar(s[0])] + Upper(s[1..])
  }

  function KeyOf(symbol: string): Symbol {
    Symbol(Upper(symbol))
  }

  predicate SameLetter(a: char, b: char) {
    a == b || ('a' <= a <= 'z' && b == a - 'a' + 'A') || ('a' <= b <= 'z' && a == b - 'a' + 'A')
  }

  lemma {:induction false} UpperAt(s: string)
    ensures |Upper(s)| == |s| && forall i :: 0 <= i < |s| ==> Upper(s)[i] == UpperChar(s[i])
  {
    hide UpperChar;
    if s != "" { UpperAt(s[1..]); }
  }

  lemma SameUpper(a: char, b: char)
    ensures UpperChar(a) == UpperChar(b) <==> SameLetter(a, b)
  {
  }

  /** Two symbols share an entry exactly when they differ in letter case only. */
  lemma KeysIgnoreCase(s: string, t: string)
    ensures KeyOf(s) == KeyOf(t) <==> |s| == |t| && forall i :: 0 <= i < |s| ==> SameLetter(s[i], t[i])
  {
    hide Upper, UpperChar, SameLetter;
    UpperAt(s);
    UpperAt(t);
    if |s| == |t| {
      forall i | 0 <= i < |s| ensures Upper(s)[i] == Upper(t)[i] <==> SameLetter(s[i], t[i]) { SameUpper(s[i], t[i]); }
      if Upper(s) != Upper(t) {
        var i :| 0 <= i < |s| && Upper(s)[i] != Upper(t)[i];
        assert !SameLetter(s[i], t[i]);
      }
    }
  }

  /** One entry: `ws` is its current socket, `timer` the delay of its pending reconnect. `dead`
      remembers that its very first socket could not be constructed. */
  datatype Entry = Entry(symbol: Symbol, ws: Option<nat>, refs: set<nat>, timer: Option<int>, heartbeat: bool,
                         attempts: nat, lastMessageAt: int, dead: bool)

  /** Entries and sockets are numbered in the order of their creation. `owners` gives the entry of
      each socket, `live` the sockets whose close event would still be handled. */
  datatype Hub = Hub(entries: seq<Entry>, sockets: map<Symbol, nat>, owners: seq<nat>, live: set<nat>)

  function Pow2(n: nat): nat {
    if n == 0 then 1 else 2 * Pow2(n - 1)
  }

  function DelayMs(attempts: nat): int {
    Min(MAX_RECONNECT_MS, 1000 * Pow2(if attempts <= 5 then attempts else 5))
  }

  function Scheduled(e: Entry): Entry {
    if e.refs == {} || e.timer.Some? then e else e.(timer := Some(DelayMs(e.attempts)), attempts := e.attempts + 1)
  }

  function Updated(h: Hub, id: nat, e: Entry): Hub
    requires id < |h.entries|
  {
    h.(entries := h.entries[id := e])
  }

  /** Opening a socket for an entry; `ok` says whether its constructor returns. */
  function Open(h: Hub, id: nat, ok: bool, now: int): Hub
    requires id < |h.entries|
  {
    var e := h.entries[id];
    if !ok then Updated(h, id, Scheduled(e))
    else Updated(h, id, e.(ws := Some(|h.owners|), lastMessageAt := now)).(owners := h.owners + [id], live := h.live + {|h.owners|})
  }

  /** Giving up the current socket of an entry: its close event is no longer handled. */
  function Dropped(h: Hub, id: nat, e: Entry): Hub
    requires id < |h.entries|
  {
    Updated(h, id, e.(ws := None)).(live := if h.entries[id].ws.Some? then h.live - {h.entries[id].ws.value} else h.live)
  }

  // ---- Events ----

  datatype Event =
    | Subscribe(symbol: string, listener: nat, ok: bool, now: int)
    | Unsubscribe(symbol: string, listener: nat)
    | Opened(ws: nat, now: int)
    | Message(ws: nat, now: int)
    | Closed(ws: nat)
    | Beat(entry: nat, now: int)
    | Fire(entry: nat, ok: bool, now: int)

  function Created(h: Hub, key: Symbol, ok: bool, now: int): Hub {
    var id, e := |h.entries|, Entry(key, None, {}, None, false, 0, 0, !ok);
    var started := Open(h.(entries := h.entries + [e]), id, ok, now);
    Updated(started, id, started.entries[id].(heartbeat := true)).(sockets := started.sockets[key := id])
  }

  function Joined(h: Hub, key: Symbol, listener: nat): Hub
    requires key in h.sockets && h.sockets[key] < |h.entries|
  {
    var id := h.sockets[key];
    Updated(h, id, h.entries[id].(refs := h.entries[id].refs + {listener}))
  }

  function Left(h: Hub, key: Symbol, listener: nat): Hub
    requires key in h.sockets && h.sockets[key] < |h.entries|
  {
    var id := h.sockets[key];
    var e := h.entries[id].(refs := h.entries[id].refs - {listener});
    if e.refs != {} then Updated(h, id, e)
    else Dropped(h, id, e.(timer := None, heartbeat := false)).(sockets := h.sockets - {key})
  }

  /** One event. An event that cannot occur in this state changes nothing. */
  function Apply(h: Hub, event: Event): Hub {
    match event
    case Subscribe(symbol, listener, ok, now) =>
      var key := KeyOf(symbol);
      var there := if key in h.sockets then h else Created(h, key, ok, now);
      if key in there.sockets && there.sockets[key] < |there.entries| then Joined(there, key, listener) else there
    case Unsubscribe(symbol, listener) =>
      var key := KeyOf(symbol);
      if key in h.sockets && h.sockets[key] < |h.entries| then Left(h, key, listener) else h
    case Opened(ws, now) =>
      if ws < |h.owners| && h.owners[ws] < |h.entries|
      then Updated(h, h.owners[ws], h.entries[h.owners[ws]].(attempts := 0, lastMessageAt := now)) else h
    case Message(ws, now) =>
      if ws < |h.owners| && h.owners[ws] < |h.entries|
      then Updated(h, h.owners[ws], h.entries[h.owners[ws]].(lastMessageAt := now)) else h
    case Closed(ws) =>
      if ws in h.live && ws < |h.owners| && h.owners[ws] < |h.entries| then
        var e := h.entries[h.owners[ws]];
        Updated(h, h.owners[ws], Scheduled(if e.ws == Some(ws) then e.(ws := None) else e)).(live := h.live - {ws})
      else h
    case Beat(id, now) =>
      if id < |h.entries| && h.entries[id].heartbeat && h.entries[id].ws.Some?
         && now - h.entries[id].lastMessageAt > STALE_SOCKET_MS
      then Dropped(h, id, Scheduled(h.entries[id].(ws := None))) else h
    case Fire(id, ok, now) =>
      if id < |h.entries| && h.entries[id].timer.Some?
      then Open(Updated(h, id, h.entries[id].(timer := None)), id, ok, now) else h
  }

  function After(events: seq<Event>): Hub {
    if events == [] then Hub([], map[], [], {}) else Apply(After(events[..|events| - 1]), events[|events| - 1])
  }

  // ---- Invariant ----

  predicate Mapped(h: Hub, id: nat)
    requires id < |h.entries|
  {
    h.entries[id].symbol in h.sockets && h.sockets[h.entries[id].symbol] == id
  }

  /** An entry in use has a listener and a heartbeat and, unless dead, exactly one of a current
      socket and a pending reconnect; any other entry has nothing left at all. */
  predicate EntrySound(e: Entry, mapped: bool) {
    if mapped then
      && e.refs != {} && e.heartbeat
      && !(e.ws.Some? && e.timer.Some?)
      && (e.ws.Some? || e.timer.Some? <==> !e.dead)
      && (e.timer.Some? ==> 1000 <= e.timer.value <= MAX_RECONNECT_MS)
    else
      e.refs == {} && !e.heartbeat && e.ws == None && e.timer == None
  }

  ghost predicate Sound(h: Hub) {
    && (forall k :: k in h.sockets ==> h.sockets[k] < |h.entries| && h.entries[h.sockets[k]].symbol == k)
    && (forall id :: 0 <= id < |h.entries| ==> EntrySound(h.entries[id], Mapped(h, id)))
    && SocketsSound(h)
  }

  /** A close event is handled for exactly the current sockets. */
  ghost predicate SocketsSound(h: Hub) {
    && (forall ws :: ws in h.live ==> ws < |h.owners| && h.owners[ws] < |h.entries| && h.entries[h.owners[ws]].ws == Some(ws))
    && (forall id :: 0 <= id < |h.entries| && h.entries[id].ws.Some? ==>
          h.entries[id].ws.value in h.live && h.owners[h.entries[id].ws.value] == id)
    && (forall ws :: 0 <= ws < |h.owners| ==> h.owners[ws] < |h.entries|)
  }

  lemma DelayInRange(attempts: nat)
    ensures 1000 <= DelayMs(attempts) <= MAX_RECONNECT_MS
  {
    assert Pow2(1) == 2 && Pow2(2) == 4 && Pow2(3) == 8 && Pow2(4) == 16 && Pow2(5) == 32;
  }

  /** One entry gets new contents, and its sockets change with it. */
  lemma EntryReplaced(h: Hub, after: Hub, id: nat, e: Entry)
    requires Sound(h) && id < |h.entries|
    requires after.entries == h.entries[id := e] && after.sockets == h.sockets && SocketsSound(after)
    requires e.symbol == h.entries[id].symbol && EntrySound(e, Mapped(h, id))
    ensures Sound(after)
  {
    hide EntrySound, SocketsSound;
    forall i | 0 <= i < |after.entries| ensures EntrySound(after.entries[i], Mapped(after, i)) {
      assert Mapped(after, i) == Mapped(h, i);
    }
  }

  lemma SoundAt(h: Hub, id: nat)
    requires Sound(h) && id < |h.entries|
    ensures EntrySound(h.entries[id], Mapped(h, id)) && SocketsSound(h)
  {
    hide EntrySound, SocketsSound;
  }

  /** Giving an entry new contents while its sockets stay what they are. */
  lemma UpdateSound(h: Hub, id: nat, e: Entry)
    requires Sound(h) && id < |h.entries|
    requires e.symbol == h.entries[id].symbol && e.ws == h.entries[id].ws && EntrySound(e, Mapped(h, id))
    ensures Sound(Updated(h, id, e))
  {
    hide Sound, EntrySound, SocketsSound;
    SoundAt(h, id);
    SocketsUntouched(h, id, e);
    EntryReplaced(h, Updated(h, id, e), id, e);
  }

  /** A socket opened for an entry that has none. */
  lemma OpenedSockets(h: Hub, id: nat, now: int)
    requires SocketsSound(h) && id < |h.entries| && h.entries[id].ws == None
    ensures SocketsSound(Open(h, id, true, now))
  {
  }

  /** A socket given up by an entry. */
  lemma DroppedSockets(h: Hub, id: nat, e: Entry)
    requires SocketsSound(h) && id < |h.entries|
    ensures SocketsSound(Dropped(h, id, e))
  {
  }

  lemma FireSound(h: Hub, id: nat, ok: bool, now: int)
    requires Sound(h) && id < |h.entries| && h.entries[id].timer.Some?
    ensures Sound(Apply(h, Fire(id, ok, now)))
  {
    hide DelayMs, SocketsSound, Sound;
    SoundAt(h, id);
    var h1, e := Updated(h, id, h.entries[id].(timer := None)), h.entries[id];
    SocketsUntouched(h, id, e.(timer := None));
    var after := Open(h1, id, ok, now);
    if ok {
      OpenedSockets(h1, id, now);
    } else {
      DelayInRange(e.attempts);
      SocketsUntouched(h1, id, Scheduled(h1.entries[id]));
    }
    EntryReplaced(h, after, id, after.entries[id]);
  }

  lemma SocketsUntouched(h: Hub, id: nat, e: Entry)
    requires SocketsSound(h) && id < |h.entries| && e.ws == h.entries[id].ws
    ensures SocketsSound(Updated(h, id, e))
  {
  }

  /** A current socket closes. */
  lemma ClosedSockets(h: Hub, ws: nat, e: Entry)
    requires SocketsSound(h) && ws in h.live && e.ws == None
    ensures var id := h.owners[ws]; SocketsSound(Updated(h, id, e).(live := h.live - {ws}))
  {
  }

  lemma LiveIsCurrent(h: Hub, ws: nat)
    requires SocketsSound(h) && ws in h.live
    ensures ws < |h.owners| && h.owners[ws] < |h.entries| && h.entries[h.owners[ws]].ws == Some(ws)
  {
  }

  lemma ClosedSound(h: Hub, ws: nat)
    requires Sound(h) && ws in h.live
    ensures Sound(Apply(h, Closed(ws)))
  {
    hide DelayMs, SocketsSound;
    LiveIsCurrent(h, ws);
    var id := h.owners[ws];
    var e := Scheduled(h.entries[id].(ws := None));
    SoundAt(h, id);
    hide Sound;
    DelayInRange(h.entries[id].attempts);
    ClosedSockets(h, ws, e);
    EntryReplaced(h, Apply(h, Closed(ws)), id, e);
  }

  lemma BeatSound(h: Hub, id: nat, now: int)
    requires Sound(h) && id < |h.entries|
    ensures Sound(Apply(h, Beat(id, now)))
  {
    hide DelayMs, SocketsSound, Sound;
    var after := Apply(h, Beat(id, now));
    if after != h {
      var e := Scheduled(h.entries[id].(ws := None));
      SoundAt(h, id);
      DelayInRange(h.entries[id].attempts);
      DroppedSockets(h, id, e);
      EntryReplaced(h, after, id, e.(ws := None));
    }
  }

  lemma LeftSound(h: Hub, key: Symbol, listener: nat)
    requires Sound(h) && key in h.sockets
    ensures Sound(Left(h, key, listener))
  {
    hide SocketsSound;
    var id := h.sockets[key];
    var e := h.entries[id].(refs := h.entries[id].refs - {listener});
    if e.refs != {} {
      UpdateSound(h, id, e);
    } else {
      var gone := e.(timer := None, heartbeat := false);
      DroppedSockets(h, id, gone);
      var after := Left(h, key, listener);
      SocketsUnmapped(Dropped(h, id, gone), h.sockets - {key});
      forall i | 0 <= i < |after.entries| ensures EntrySound(after.entries[i], Mapped(after, i)) {
        assert i != id ==> (Mapped(after, i) <==> Mapped(h, i));
      }
    }
  }

  lemma SocketsUnmapped(h: Hub, sockets: map<Symbol, nat>)
    requires SocketsSound(h)
    ensures SocketsSound(h.(sockets := sockets))
  {
  }

  /** The entry of a first subscription, once its listener has joined. */
  lemma NewEntrySound(h: Hub, key: Symbol, listener: nat, ok: bool, now: int)
    ensures var c := Created(h, key, ok, now);
            && key in c.sockets && c.sockets[key] == |h.entries| < |c.entries| == |h.entries| + 1
            && var after := Joined(c, key, listener);
               && after.sockets == h.sockets[key := |h.entries|] && after.entries[..|h.entries|] == h.entries
               && |after.entries| == |h.entries| + 1
               && after.entries[|h.entries|].symbol == key && EntrySound(after.entries[|h.entries|], true)
  {
    hide DelayMs;
  }

  lemma NewSocketsSound(h: Hub, key: Symbol, listener: nat, ok: bool, now: int)
    requires SocketsSound(h)
    ensures var c := Created(h, key, ok, now);
            && key in c.sockets && c.sockets[key] < |c.entries| && SocketsSound(Joined(c, key, listener))
  {
    hide SocketsSound, EntrySound;
    var id, e := |h.entries|, Entry(key, None, {}, None, false, 0, 0, !ok);
    var h1 := h.(entries := h.entries + [e]);
    EntryAdded(h, e);
    if ok { OpenedSockets(h1, id, now); } else { SocketsUntouched(h1, id, Scheduled(e)); }
    var started := Open(h1, id, ok, now);
    SocketsUntouched(started, id, started.entries[id].(heartbeat := true));
    var c := Created(h, key, ok, now);
    SocketsUnmapped(Updated(started, id, started.entries[id].(heartbeat := true)), c.sockets);
    SocketsUntouched(c, id, c.entries[id].(refs := c.entries[id].refs + {listener}));
  }

  lemma SubscribeSound(h: Hub, key: Symbol, listener: nat, ok: bool, now: int)
    requires Sound(h) && key !in h.sockets
    ensures var c := Created(h, key, ok, now);
            key in c.sockets && c.sockets[key] == |h.entries| < |c.entries| && Sound(Joined(c, key, listener))
  {
    hide SocketsSound, EntrySound, Created, Joined;
    NewEntrySound(h, key, listener, ok, now);
    NewSocketsSound(h, key, listener, ok, now);
    var id, after := |h.entries|, Joined(Created(h, key, ok, now), key, listener);
    forall i | 0 <= i < |after.entries| ensures EntrySound(after.entries[i], Mapped(after, i)) {
      if i != id {
        assert after.entries[i] == after.entries[..id][i] == h.entries[i];
        assert Mapped(after, i) == Mapped(h, i);
      }
    }
    forall k | k in after.sockets ensures after.sockets[k] < |after.entries| && after.entries[after.sockets[k]].symbol == k {
      if k != key { assert after.entries[h.sockets[k]] == after.entries[..id][h.sockets[k]]; }
    }
  }

  lemma EntryAdded(h: Hub, e: Entry)
    requires SocketsSound(h) && e.ws == None
    ensures SocketsSound(h.(entries := h.entries + [e]))
  {
  }

  lemma TouchedSound(h: Hub, id: nat, e: Entry)
    requires Sound(h) && id < |h.entries|
    requires e == h.entries[id].(attempts := e.attempts, lastMessageAt := e.lastMessageAt)
    ensures Sound(Updated(h, id, e))
  {
    hide SocketsSound;
    assert EntrySound(h.entries[id], Mapped(h, id));
    UpdateSound(h, id, e);
  }

  lemma JoinedSound(h: Hub, key: Symbol, listener: nat)
    requires Sound(h) && key in h.sockets
    ensures Sound(Joined(h, key, listener))
  {
    hide SocketsSound;
    var id := h.sockets[key];
    assert EntrySound(h.entries[id], Mapped(h, id));
    UpdateSound(h, id, h.entries[id].(refs := h.entries[id].refs + {listener}));
  }

  lemma MappedInRange(h: Hub)
    requires Sound(h)
    ensures forall k :: k in h.sockets ==> h.sockets[k] < |h.entries|
    ensures forall ws :: 0 <= ws < |h.owners| ==> h.owners[ws] < |h.entries|
    ensures forall ws :: ws in h.live ==> ws < |h.owners|
  {
  }

  lemma StepSound(h: Hub, event: Event)
    requires Sound(h)
    ensures Sound(Apply(h, event))
  {
    hide Open, EntrySound, SocketsSound, Sound, Created, Left, Joined, Dropped, Updated, Scheduled, Upper;
    MappedInRange(h);
    match event
    case Subscribe(symbol, listener, ok, now) =>
      var key := KeyOf(symbol);
      if key in h.sockets { JoinedSound(h, key, listener); } else { SubscribeSound(h, key, listener, ok, now); }
    case Unsubscribe(symbol, listener) =>
      if KeyOf(symbol) in h.sockets { LeftSound(h, KeyOf(symbol), listener); }
    case Opened(ws, now) =>
      if ws < |h.owners| {
        TouchedSound(h, h.owners[ws], h.entries[h.owners[ws]].(attempts := 0, lastMessageAt := now));
      }
    case Message(ws, now) =>
      if ws < |h.owners| { TouchedSound(h, h.owners[ws], h.entries[h.owners[ws]].(lastMessageAt := now)); }
    case Closed(ws) => if ws in h.live { ClosedSound(h, ws); }
    case Beat(id, now) => if id < |h.entries| { BeatSound(h, id, now); }
    case Fire(id, ok, now) => if id < |h.entries| && h.entries[id].timer.Some? { FireSound(h, id, ok, now); }
  }

  /** In every reachable state: each mapped entry has a listener and exactly one of a current
      socket and a pending reconnect timer unless its first socket could not be constructed, every
      other entry has nothing left, and only current sockets are listened to. */
  lemma {:induction false} HubIsSound(events: seq<Event>)
    ensures Sound(After(events))
  {
    hide Sound, Apply;
    if events == [] {
      EmptyIsSound();
    } else {
      HubIsSound(events[..|events| - 1]);
      StepSound(After(events[..|events| - 1]), events[|events| - 1]);
    }
  }

  lemma EmptyIsSound()
    ensures Sound(Hub([], map[], [], {}))
  {
  }

  // ---- The map against the listeners ----

  /** Who listens to a symbol after these events. */
  function Listening(events: seq<Event>, key: Symbol): set<nat> {
    if events == [] then {}
    else
      var before := Listening(events[..|events| - 1], key);
      match events[|events| - 1]
      case Subscribe(symbol, listener, _, _) => if KeyOf(symbol) == key then before + {listener} else before
      case Unsubscribe(symbol, listener) => if KeyOf(symbol) == key then before - {listener} else before
      case _ => before
  }

  function Refs(h: Hub, key: Symbol): set<nat> {
    if key in h.sockets && h.sockets[key] < |h.entries| then h.entries[h.sockets[key]].refs else {}
  }

  /** What one event does to the listeners of one symbol. */
  lemma StepRefs(h: Hub, event: Event, key: Symbol)
    requires Sound(h)
    ensures Refs(Apply(h, event), key)
            == match event
               case Subscribe(symbol, listener, _, _) =>
                 if KeyOf(symbol) == key then Refs(h, key) + {listener} else Refs(h, key)
               case Unsubscribe(symbol, listener) =>
                 if KeyOf(symbol) == key then Refs(h, key) - {listener} else Refs(h, key)
               case _ => Refs(h, key)
  {
    hide EntrySound, SocketsSound, DelayMs, Upper;
    MappedInRange(h);
    match event
    case Subscribe(symbol, listener, ok, now) =>
      if KeyOf(symbol) !in h.sockets { CreatedRefs(h, KeyOf(symbol), listener, ok, now, key); }
    case _ =>
  }

  lemma CreatedRefs(h: Hub, key: Symbol, listener: nat, ok: bool, now: int, other: Symbol)
    requires Sound(h) && key !in h.sockets
    ensures var c := Created(h, key, ok, now);
            && key in c.sockets && c.sockets[key] < |c.entries|
            && Refs(Joined(c, key, listener), other) == if other == key then {listener} else Refs(h, other)
  {
    hide EntrySound, SocketsSound, DelayMs;
    assert {} + {listener} == {listener};
  }

  /** The map holds exactly the upper-cased symbols that somebody listens to, with exactly those
      listeners. */
  lemma {:induction false} MapMatchesListeners(events: seq<Event>, key: Symbol)
    ensures key in After(events).sockets <==> Listening(events, key) != {}
    ensures Refs(After(events), key) == Listening(events, key)
  {
    hide Apply, Refs;
    if events == [] {
      assert Refs(Hub([], map[], [], {}), key) == {} by { NobodyListens(key); }
    } else {
      var front := events[..|events| - 1];
      MapMatchesListeners(front, key);
      HubIsSound(front);
      StepRefs(After(front), events[|events| - 1], key);
    }
    HubIsSound(events);
    MappedIffHeard(After(events), key);
  }

  lemma NobodyListens(key: Symbol)
    ensures Refs(Hub([], map[], [], {}), key) == {}
  {
  }

  lemma MappedIffHeard(h: Hub, key: Symbol)
    requires Sound(h)
    ensures key in h.sockets <==> Refs(h, key) != {}
  {
    hide SocketsSound;
    if key in h.sockets { assert EntrySound(h.entries[h.sockets[key]], Mapped(h, h.sockets[key])); }
  }

  /** Two sockets whose close is still handled never serve the same symbol. */
  lemma OneSocketPerSymbol(events: seq<Event>, ws: nat, ws': nat)
    requires var h := After(events);
             ws in h.live && ws' in h.live && ws < |h.owners| && ws' < |h.owners|
             && h.owners[ws] < |h.entries| && h.owners[ws'] < |h.entries|
             && h.entries[h.owners[ws]].symbol == h.entries[h.owners[ws']].symbol
    ensures ws == ws'
  {
    hide After;
    HubIsSound(events);
    var h := After(events);
    assert EntrySound(h.entries[h.owners[ws]], Mapped(h, h.owners[ws]));
    assert EntrySound(h.entries[h.owners[ws']], Mapped(h, h.owners[ws']));
  }

  // ---- Entries over time ----

  /** Entries are only added; no symbol changes, nor whether the first socket failed; and no entry
      comes back into the map. */
  ghost predicate Continues(h: Hub, after: Hub) {
    && |h.entries| <= |after.entries|
    && forall id :: 0 <= id < |h.entries| ==>
         && after.entries[id].symbol == h.entries[id].symbol && after.entries[id].dead == h.entries[id].dead
         && (Mapped(after, id) ==> Mapped(h, id))
  }

  lemma ReplacedContinues(h: Hub, after: Hub, id: nat, e: Entry)
    requires id < |h.entries| && after.entries == h.entries[id := e]
    requires e.symbol == h.entries[id].symbol && e.dead == h.entries[id].dead
    requires forall k :: k in after.sockets ==> k in h.sockets && after.sockets[k] == h.sockets[k]
    ensures Continues(h, after)
  {
  }

  lemma CreatedContinues(h: Hub, key: Symbol, listener: nat, ok: bool, now: int)
    requires Sound(h) && key !in h.sockets
    ensures var c := Created(h, key, ok, now);
            && key in c.sockets && c.sockets[key] == |h.entries| < |c.entries|
            && Continues(h, Joined(c, key, listener)) && |Joined(c, key, listener).entries| == |h.entries| + 1
            && Joined(c, key, listener).entries[|h.entries|].dead == !ok
  {
    hide Sound, SocketsSound, EntrySound, DelayMs;
  }

  /** What one event does to the entries: a new one appears exactly when somebody subscribes to a
      symbol that has none, and whether its first socket failed is settled there. */
  lemma StepHistory(h: Hub, event: Event)
    requires Sound(h)
    ensures var after := Apply(h, event);
            && Continues(h, after)
            && |after.entries| == |h.entries| + (if event.Subscribe? && KeyOf(event.symbol) !in h.sockets then 1 else 0)
            && (|after.entries| > |h.entries| ==> after.entries[|h.entries|].dead == !event.ok)
  {
    MappedInRange(h);
    hide Sound, DelayMs, Upper, Continues;
    var after := Apply(h, event);
    Unchanged(h);
    match event
    case Subscribe(symbol, listener, ok, now) =>
      var key := KeyOf(symbol);
      if key in h.sockets { ReplacedContinues(h, after, h.sockets[key], after.entries[h.sockets[key]]); }
      else { CreatedContinues(h, key, listener, ok, now); }
    case Unsubscribe(symbol, listener) =>
      var key := KeyOf(symbol);
      if key in h.sockets { ReplacedContinues(h, after, h.sockets[key], after.entries[h.sockets[key]]); }
    case Opened(ws, _) =>
      if ws < |h.owners| { ReplacedContinues(h, after, h.owners[ws], after.entries[h.owners[ws]]); }
    case Message(ws, _) =>
      if ws < |h.owners| { ReplacedContinues(h, after, h.owners[ws], after.entries[h.owners[ws]]); }
    case Closed(ws) =>
      if ws in h.live { ReplacedContinues(h, after, h.owners[ws], after.entries[h.owners[ws]]); }
    case Beat(id, _) => if id < |h.entries| { ReplacedContinues(h, after, id, after.entries[id]); }
    case Fire(id, _, _) => if id < |h.entries| { ReplacedContinues(h, after, id, after.entries[id]); }
  }

  lemma Unchanged(h: Hub)
    ensures Continues(h, h)
  {
  }

  /** A closed entry is never reopened: whatever happens later, it keeps no socket and no timer. */
  lemma {:induction false} ClosedStaysClosed(events: seq<Event>, more: seq<Event>, id: nat)
    requires id < |After(events).entries| && !Mapped(After(events), id)
    ensures var h := After(events + more);
            && id < |h.entries| && !Mapped(h, id)
            && h.entries[id].ws == None && h.entries[id].timer == None && !h.entries[id].heartbeat
  {
    hide Apply;
    if more == [] {
      assert events + more == events;
    } else {
      var front := more[..|more| - 1];
      assert (events + more)[..|events + more| - 1] == events + front;
      ClosedStaysClosed(events, front, id);
      HubIsSound(events + front);
      StepHistory(After(events + front), more[|more| - 1]);
    }
    HubIsSound(events + more);
    var h := After(events + more);
    assert EntrySound(h.entries[id], Mapped(h, id));
  }

  // ---- What ends a socket, a reconnect and a silence ----

  /** An entry keeps its socket through every event but three: the socket's own close, a heartbeat
      more than 90 seconds after the last message, and the last listener leaving. The first two
      leave a pending reconnect. */
  lemma SocketLostIff(h: Hub, event: Event, id: nat, ws: nat)
    requires Sound(h) && id < |h.entries| && h.entries[id].ws == Some(ws)
    ensures var after, e := Apply(h, event), h.entries[id];
            var gone := event == Closed(ws) || (event.Beat? && event.entry == id && event.now - e.lastMessageAt > 90_000);
            && id < |after.entries|
            && (after.entries[id].ws != Some(ws) <==> gone || !Mapped(after, id))
            && (gone ==> after.entries[id].ws == None && after.entries[id].timer.Some? && ws !in after.live)
  {
    MappedInRange(h);
    SoundAt(h, id);
    OwnerOf(h, id, ws);
    hide Sound, SocketsSound, DelayMs, Upper, Created;
    match event
    case Subscribe(symbol, listener, ok, now) => SubscribingKeepsSockets(h, event, id);
    case Unsubscribe(symbol, _) =>
      hide Dropped;
      if KeyOf(symbol) in h.sockets { LeavingKeepsSocket(h, KeyOf(symbol), event.listener, id); }
    case Closed(other) => if other in h.live { LiveIsCurrent(h, other); }
    case _ =>
  }

  lemma OwnerOf(h: Hub, id: nat, ws: nat)
    requires Sound(h) && id < |h.entries| && h.entries[id].ws == Some(ws)
    ensures ws in h.live && ws < |h.owners| && h.owners[ws] == id && Mapped(h, id)
  {
  }

  lemma SubscribingKeepsSockets(h: Hub, event: Event, id: nat)
    requires Sound(h) && id < |h.entries| && event.Subscribe? && Mapped(h, id)
    ensures var after := Apply(h, event);
            id < |after.entries| && after.entries[id].ws == h.entries[id].ws && Mapped(after, id)
  {
    MappedInRange(h);
    hide Sound, DelayMs, Upper;
  }

  lemma LeavingKeepsSocket(h: Hub, key: Symbol, listener: nat, id: nat)
    requires key in h.sockets && h.sockets[key] < |h.entries| && id < |h.entries| && Mapped(h, id)
    requires h.entries[h.sockets[key]].symbol == key
    ensures var after := Left(h, key, listener);
            && id < |after.entries|
            && (if Mapped(after, id) then after.entries[id].ws == h.entries[id].ws else after.entries[id].ws == None)
  {
  }

  /** A pending reconnect is ended by its timer and by the last listener leaving, by nothing else;
      the timer opens a new socket or, if that fails, starts another wait. */
  lemma ReconnectEndsIff(h: Hub, event: Event, id: nat)
    requires Sound(h) && id < |h.entries| && h.entries[id].timer.Some?
    ensures var after := Apply(h, event);
            && id < |after.entries|
            && (!(event.Fire? && event.entry == id) && Mapped(after, id) ==> after.entries[id].timer == h.entries[id].timer)
            && (event.Fire? && event.entry == id ==>
                  if event.ok then
                    && after.entries[id].timer == None && after.entries[id].ws == Some(|h.owners|)
                    && |h.owners| in after.live && |h.owners| !in h.live
                  else after.entries[id].ws == None && after.entries[id].timer.Some?)
  {
    MappedInRange(h);
    SoundAt(h, id);
    NewSocketIsNew(h);
    hide Sound, SocketsSound, DelayMs, Upper;
    match event
    case Subscribe(_, _, _, _) => hide Scheduled; SubscribingKeepsReconnects(h, event, id);
    case Unsubscribe(_, _) => hide Scheduled;
    case _ => hide Created, Joined, Left;
  }

  lemma SubscribingKeepsReconnects(h: Hub, event: Event, id: nat)
    requires Sound(h) && id < |h.entries| && event.Subscribe?
    ensures var after := Apply(h, event); id < |after.entries| && after.entries[id].timer == h.entries[id].timer
  {
    MappedInRange(h);
    hide Sound, DelayMs, Upper;
  }

  lemma NewSocketIsNew(h: Hub)
    requires Sound(h)
    ensures |h.owners| !in h.live
  {
  }

  /** The silence that a heartbeat measures starts at the last message or opening of any of the
      entry's sockets, or when its last socket was created. */
  lemma SilenceSince(h: Hub, event: Event, id: nat)
    requires Sound(h) && id < |h.entries|
    ensures var after := Apply(h, event);
            && id < |after.entries|
            && after.entries[id].lastMessageAt
               == if (event.Opened? || event.Message?) && event.ws < |h.owners| && h.owners[event.ws] == id then event.now
                  else if event.Fire? && event.entry == id && h.entries[id].timer.Some? && event.ok then event.now
                  else h.entries[id].lastMessageAt
  {
    MappedInRange(h);
    hide Sound, DelayMs, Upper;
  }

  /** A connection that opens starts the delays anew: if it is then lost, the next attempt follows
      after a second. */
  lemma OpeningResetsDelay(h: Hub, ws: nat, now: int)
    requires Sound(h) && ws in h.live
    ensures var after := Apply(Apply(h, Opened(ws, now)), Closed(ws));
            ws < |h.owners| && h.owners[ws] < |after.entries| && after.entries[h.owners[ws]].timer == Some(1000)
  {
    LiveIsCurrent(h, ws);
    SoundAt(h, h.owners[ws]);
    hide Sound;
    DelayValues(0);
  }

  // ---- Reconnect delays ----

  function Failing(h: Hub, id: nat, k: nat, now: int): Hub {
    if k == 0 then h else Apply(Failing(h, id, k - 1, now), Fire(id, false, now))
  }

  /** While every attempt fails at once, the delay doubles from one second up to half a minute. */
  lemma {:induction false} DelaysDouble(h: Hub, id: nat, k: nat, now: int)
    requires id < |h.entries| && h.entries[id].refs != {} && h.entries[id].timer.Some? && k >= 1
    ensures var after := Failing(h, id, k, now);
            && id < |after.entries| && after.entries[id].refs != {}
            && after.entries[id].timer == Some(DelayMs(h.entries[id].attempts + k - 1))
            && after.entries[id].attempts == h.entries[id].attempts + k
  {
    hide DelayMs;
    if k > 1 { DelaysDouble(h, id, k - 1, now); } else { assert Failing(h, id, 0, now) == h; }
  }

  lemma DelayValues(attempts: nat)
    ensures DelayMs(0) == 1000
    ensures attempts < 4 ==> DelayMs(attempts + 1) == 2 * DelayMs(attempts)
    ensures attempts >= 5 ==> DelayMs(attempts) == MAX_RECONNECT_MS
  {
    assert Pow2(1) == 2 && Pow2(2) == 4 && Pow2(3) == 8 && Pow2(4) == 16 && Pow2(5) == 32;
  }

  // ---- The hub object ----

  class SymbolStreamHub {
    var entries: seq<Entry>
    var sockets: map<Symbol, nat>
    var owners: seq<nat>
    var live: set<nat>

    constructor ()
      ensures State() == After([])
    {
      entries, sockets, owners, live := [], map[], [], {};
    }

    ghost function State(): Hub
      reads this
    {
      Hub(entries, sockets, owners, live)
    }

    method OpenSocket(id: nat, ok: bool, now: int)
      requires id < |entries|
      modifies this
      ensures State() == Open(old(State()), id, ok, now)
    {
      if !ok { ScheduleReconnect(id); return; }
      var ws := |owners|;
      owners, live := owners + [id], live + {ws};
      entries := entries[id := entries[id].(ws := Some(ws), lastMessageAt := now)];
    }

    method ScheduleReconnect(id: nat)
      requires id < |entries|
      modifies this
      ensures State() == Updated(old(State()), id, Scheduled(old(entries[id])))
    {
      var e := entries[id];
      if e.refs != {} && e.timer == None {
        e := e.(timer := Some(Min(MAX_RECONNECT_MS, 1000 * Pow2(if e.attempts <= 5 then e.attempts else 5))),
                attempts := e.attempts + 1);
      }
      entries := entries[id := e];
    }

    method Subscribe(symbol: string, listener: nat, ok: bool, now: int)
      requires Sound(State())
      modifies this
      ensures State() == Apply(old(State()), Event.Subscribe(symbol, listener, ok, now)) && Sound(State())
    {
      hide Sound, Scheduled, Upper;
      StepSound(State(), Event.Subscribe(symbol, listener, ok, now));
      MappedInRange(State());
      var key := KeyOf(symbol);
      if key !in sockets {
        CreatedRefs(State(), key, listener, ok, now, key);
        var id := |entries|;
        entries := entries + [Entry(key, None, {}, None, false, 0, 0, !ok)];
        OpenSocket(id, ok, now);
        entries := entries[id := entries[id].(heartbeat := true)];
        sockets := sockets[key := id];
        assert State() == Created(old(State()), key, ok, now);
      }
      var id := sockets[key];
      entries := entries[id := entries[id].(refs := entries[id].refs + {listener})];
    }

    method Unsubscribe(symbol: string, listener: nat)
      requires Sound(State())
      modifies this
      ensures State() == Apply(old(State()), Event.Unsubscribe(symbol, listener)) && Sound(State())
    {
      hide Sound, Scheduled, Upper;
      StepSound(State(), Event.Unsubscribe(symbol, listener));
      MappedInRange(State());
      var key := KeyOf(symbol);
      if key !in sockets { return; }
      var id := sockets[key];
      entries := entries[id := entries[id].(refs := entries[id].refs - {listener})];
      if entries[id].refs == {} { CloseSocket(key, id); }
    }

    method CloseSocket(key: Symbol, id: nat)
      requires id < |entries|
      modifies this
      ensures State() == Dropped(old(State()), id, old(entries[id]).(timer := None, heartbeat := false))
                         .(sockets := old(sockets) - {key})
    {
      sockets := sockets - {key};
      var ws := entries[id].ws;
      entries := entries[id := entries[id].(timer := None, heartbeat := false, ws := None)];
      if ws.Some? { live := live - {ws.value}; }
    }

    method OnClose(ws: nat)
      requires Sound(State())
      modifies this
      ensures State() == Apply(old(State()), Closed(ws)) && Sound(State())
    {
      hide Sound, Scheduled;
      StepSound(State(), Closed(ws));
      MappedInRange(State());
      if ws !in live { return; }
      live := live - {ws};
      var id := owners[ws];
      if entries[id].ws == Some(ws) { entries := entries[id := entries[id].(ws := None)]; }
      ScheduleReconnect(id);
    }

    method OnHeartbeat(id: nat, now: int)
      requires Sound(State()) && id < |entries| && entries[id].heartbeat
      modifies this
      ensures State() == Apply(old(State()), Beat(id, now)) && Sound(State())
    {
      hide Sound, Scheduled;
      StepSound(State(), Beat(id, now));
      var ws := entries[id].ws;
      if ws == None || now - entries[id].lastMessageAt <= STALE_SOCKET_MS { return; }
      SchedulingKeepsNone(entries[id].(ws := None));
      entries := entries[id := entries[id].(ws := None)];
      live := live - {ws.value};
      ScheduleReconnect(id);
    }

    method OnTimer(id: nat, ok: bool, now: int)
      requires Sound(State()) && id < |entries| && entries[id].timer.Some?
      modifies this
      ensures State() == Apply(old(State()), Fire(id, ok, now)) && Sound(State())
    {
      hide Sound, Scheduled;
      StepSound(State(), Fire(id, ok, now));
      entries := entries[id := entries[id].(timer := None)];
      OpenSocket(id, ok, now);
    }
  }

  lemma SchedulingKeepsNone(e: Entry)
    requires e.ws == None
    ensures Scheduled(e).(ws := None) == Scheduled(e)
  {
  }
}
