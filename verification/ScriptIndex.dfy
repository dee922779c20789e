/** The script engine's table of scripts and its index by trigger
    (packages/workers/src/script-engine.ts). */
module ScriptIndex {
  import opened Common
  import opened Texts

  /** A registered script; the parts that only matter while it runs are one opaque value. */
  datatype Config = Config(id: string, trigger: string, cooldown: int, body: nat)

  datatype Key = Key(name: string)

  datatype Entry = Entry(key: string, config: Config)

  /** What identifies a script: its bot, its trigger and, if it has one, its row id. */
  datatype Script = Script(bot: string, trigger: string, id: string)

  type Index = map<Key, seq<Config>>

  function TriggerKey(bot: string, trigger: string): string {
    bot + ":" + trigger
  }

  function KeyOf(s: Script): string {
    if s.id != "" then TriggerKey(s.bot, s.trigger) + ":" + s.id else TriggerKey(s.bot, s.trigger)
  }

  function ScriptKey(bot: string, config: Config): string {
    KeyOf(Script(bot, config.trigger, config.id))
  }

  // ---- The engine's state and operations ----

  datatype Fired = Fired(key: string, at: int, cooldown: int)

  /** The table keeps insertion order. `fired` are the script runs since the last clear. */
  datatype Engine = Engine(scripts: seq<Entry>, byTrigger: Index, cooldowns: map<Key, int>, fired: seq<Fired>)

  datatype Op = Register(bot: string, config: Config) | Unregister(bot: string) | Clear | Execute(bot: string, event: string, now: int)

  function Put(scripts: seq<Entry>, key: string, config: Config): seq<Entry> {
    if scripts == [] then [Entry(key, config)]
    else if scripts[0].key == key then [Entry(key, config)] + scripts[1..]
    else [scripts[0]] + Put(scripts[1..], key, config)
  }

  function Listed(index: Index, bot: string, trigger: string): seq<Config> {
    var key := Key(TriggerKey(bot, trigger));
    if key in index then index[key] else []
  }

  function Others(list: seq<Config>, bot: string, key: string): seq<Config> {
    if list == [] then []
    else
      var last := list[|list| - 1];
      Others(list[..|list| - 1], bot, key) + if ScriptKey(bot, last) != key then [last] else []
  }

  predicate Belongs(key: string, bot: string) {
    key == bot || bot + ":" <= key
  }

  function Dropped(scripts: seq<Entry>, bot: string): seq<Entry> {
    if scripts == [] then []
    else
      var last := scripts[|scripts| - 1];
      Dropped(scripts[..|scripts| - 1], bot) + if Belongs(last.key, bot) then [] else [last]
  }

  /** The script a table key stands for: bot and trigger are its first two fields. */
  function Owner(key: string): Script {
    var parts := Split(key, ':');
    Script(parts[0], if |parts| > 1 then parts[1] else "undefined", if |parts| > 2 then Join(parts[2..], ':') else "")
  }

  function Filed(index: Index, e: Entry): Index {
    var s := Owner(e.key);
    index[Key(TriggerKey(s.bot, s.trigger)) := Listed(index, s.bot, s.trigger) + [e.config]]
  }

  function Rebuilt(scripts: seq<Entry>): Index {
    if scripts == [] then map[] else Filed(Rebuilt(scripts[..|scripts| - 1]), scripts[|scripts| - 1])
  }

  predicate CoolingDown(config: Config, key: string, now: int, cooldowns: map<Key, int>) {
    config.cooldown > 0 && now - (if Key(key) in cooldowns then cooldowns[Key(key)] else 0) < config.cooldown * 1000
  }

  /** The start of one matching script: skipped while it cools down, else noted and run. */
  function Start(e: Engine, bot: string, config: Config, now: int): Engine {
    var key := ScriptKey(bot, config);
    if CoolingDown(config, key, now, e.cooldowns) then e
    else e.(cooldowns := if config.cooldown > 0 then e.cooldowns[Key(key) := now] else e.cooldowns,
            fired := e.fired + [Fired(key, now, config.cooldown)])
  }

  function StartAll(e: Engine, bot: string, list: seq<Config>, now: int): Engine {
    if list == [] then e else Start(StartAll(e, bot, list[..|list| - 1], now), bot, list[|list| - 1], now)
  }

  function Apply(e: Engine, op: Op): Engine {
    match op
    case Register(bot, config) =>
      var key := ScriptKey(bot, config);
      e.(scripts := Put(e.scripts, key, config),
         byTrigger := e.byTrigger[Key(TriggerKey(bot, config.trigger)) :=
                                    Others(Listed(e.byTrigger, bot, config.trigger), bot, key) + [config]])
    case Unregister(bot) =>
      var scripts := Dropped(e.scripts, bot);
      e.(scripts := scripts, byTrigger := Rebuilt(scripts), cooldowns := e.cooldowns - {Key(bot)})
    case Clear => Engine([], map[], map[], [])
    case Execute(bot, event, now) => StartAll(e, bot, Listed(e.byTrigger, bot, event), now)
  }

  function After(ops: seq<Op>): Engine {
    if ops == [] then Engine([], map[], map[], []) else Apply(After(ops[..|ops| - 1]), ops[|ops| - 1])
  }

  // ---- What the engine should hold ----

  type Table = map<Script, Config>

  function ApplyTo(table: Table, op: Op): Table {
    match op
    case Register(bot, config) => table[Script(bot, config.trigger, config.id) := config]
    case Unregister(bot) => map s | s in table && s.bot != bot :: table[s]
    case Clear => map[]
    case Execute(_, _, _) => table
  }

  /** The scripts that should be registered after a run of operations. */
  function TableAfter(ops: seq<Op>): Table {
    if ops == [] then map[] else ApplyTo(TableAfter(ops[..|ops| - 1]), ops[|ops| - 1])
  }

  ghost predicate Plain(s: string) {
    Lacks(s, ':')
  }

  ghost predicate PlainOp(op: Op) {
    match op
    case Register(bot, config) => Plain(bot) && Plain(config.trigger)
    case Unregister(bot) => Plain(bot)
    case _ => true
  }

  ghost predicate PlainOps(ops: seq<Op>) {
    forall i :: 0 <= i < |ops| ==> PlainOp(ops[i])
  }

  // ---- Keys of colon-free names ----

  /** A table key can be read back. */
  lemma OwnerOfKey(s: Script)
    requires Plain(s.bot) && Plain(s.trigger)
    ensures Owner(KeyOf(s)) == s
  {
    hide Split, Join;
    if s.id == "" {
      SplitAfterField(s.bot, s.trigger, ':');
      SplitOneField(s.trigger, ':');
    } else {
      SplitAfterField(s.bot, s.trigger + ":" + s.id, ':');
      SplitAfterField(s.trigger, s.id, ':');
      JoinOfSplit(s.id, ':');
      assert s.bot + ":" + (s.trigger + ":" + s.id) == KeyOf(s);
      assert ([s.bot] + ([s.trigger] + Split(s.id, ':')))[2..] == Split(s.id, ':');
    }
  }

  lemma TriggerKeysDiffer(bot: string, trigger: string, bot': string, trigger': string)
    requires Plain(bot) && Plain(bot') && TriggerKey(bot, trigger) == TriggerKey(bot', trigger')
    ensures bot == bot' && trigger == trigger'
  {
    FieldsAreUnique(bot, trigger, bot', trigger', ':');
  }

  /** The prefix test of unregister picks exactly the bot's own scripts. */
  lemma BelongsToItsBot(s: Script, bot: string)
    requires Plain(s.bot) && Plain(bot)
    ensures Belongs(KeyOf(s), bot) <==> s.bot == bot
  {
    var key := KeyOf(s);
    var rest := if s.id != "" then s.trigger + ":" + s.id else s.trigger;
    assert key == s.bot + ":" + rest;
    assert key[|s.bot|] == ':';
    if bot + ":" <= key {
      assert key == bot + ":" + key[|bot| + 1..];
      FieldsAreUnique(bot, key[|bot| + 1..], s.bot, rest, ':');
    }
  }

  // ---- Agreement of table and index ----

  /** The list holds exactly the registered scripts of this bot and trigger, each once. */
  ghost predicate Represents(list: seq<Config>, table: Table, bot: string, trigger: string) {
    && (forall c :: c in list <==> Script(bot, trigger, c.id) in table && table[Script(bot, trigger, c.id)] == c)
    && (forall i, j :: 0 <= i < j < |list| ==> list[i].id != list[j].id)
  }

  ghost predicate Proper(table: Table) {
    forall s :: s in table ==> Plain(s.bot) && Plain(s.trigger) && table[s].id == s.id && table[s].trigger == s.trigger
  }

  ghost predicate Tabled(e: Entry, table: Table) {
    var s := Owner(e.key);
    s in table && e == Entry(KeyOf(s), table[s])
  }

  ghost predicate DistinctKeys(scripts: seq<Entry>) {
    forall i, j :: 0 <= i < j < |scripts| ==> scripts[i].key != scripts[j].key
  }

  ghost predicate Stored(scripts: seq<Entry>, table: Table) {
    && DistinctKeys(scripts)
    && (forall e :: e in scripts ==> Tabled(e, table))
    && (forall s :: s in table ==> Entry(KeyOf(s), table[s]) in scripts)
  }

  ghost predicate Indexed(index: Index, table: Table) {
    forall bot, trigger :: Plain(bot) && Plain(trigger) ==> Represents(Listed(index, bot, trigger), table, bot, trigger)
  }

  lemma DistinctCons(e: Entry, rest: seq<Entry>)
    ensures DistinctKeys([e] + rest) <==> DistinctKeys(rest) && forall x :: x in rest ==> x.key != e.key
  {
    if DistinctKeys([e] + rest) {
      forall i, j | 0 <= i < j < |rest| ensures rest[i].key != rest[j].key {
        assert ([e] + rest)[i + 1] == rest[i] && ([e] + rest)[j + 1] == rest[j];
      }
      forall x | x in rest ensures x.key != e.key {
        var i :| 0 <= i < |rest| && rest[i] == x;
        assert ([e] + rest)[i + 1] == x && ([e] + rest)[0] == e;
      }
    }
  }

  lemma {:induction false} PutStores(scripts: seq<Entry>, key: string, config: Config)
    requires DistinctKeys(scripts)
    ensures var put := Put(scripts, key, config);
            && DistinctKeys(put)
            && forall e :: e in put <==> e == Entry(key, config) || (e in scripts && e.key != key)
  {
    hide DistinctKeys;
    if scripts == [] {
      DistinctCons(Entry(key, config), []);
      assert [Entry(key, config)] + [] == [Entry(key, config)];
    } else {
      var first, rest := scripts[0], scripts[1..];
      assert scripts == [first] + rest;
      DistinctCons(first, rest);
      if first.key == key {
        DistinctCons(Entry(key, config), rest);
      } else {
        PutStores(rest, key, config);
        DistinctCons(first, Put(rest, key, config));
      }
    }
  }

  lemma {:induction false} DroppedKeeps(scripts: seq<Entry>, bot: string)
    requires DistinctKeys(scripts)
    ensures var kept := Dropped(scripts, bot);
            && DistinctKeys(kept)
            && forall e :: e in kept <==> e in scripts && !Belongs(e.key, bot)
  {
    hide Belongs;
    if scripts != [] {
      var front, last := scripts[..|scripts| - 1], scripts[|scripts| - 1];
      assert scripts == front + [last];
      DroppedKeeps(front, bot);
    }
  }

  lemma {:induction false} OthersKeep(list: seq<Config>, bot: string, key: string)
    requires forall i, j :: 0 <= i < j < |list| ==> list[i].id != list[j].id
    ensures var kept := Others(list, bot, key);
            && (forall i, j :: 0 <= i < j < |kept| ==> kept[i].id != kept[j].id)
            && (forall c :: c in kept <==> c in list && ScriptKey(bot, c) != key)
  {
    hide ScriptKey;
    if list != [] {
      var front, last := list[..|list| - 1], list[|list| - 1];
      assert list == front + [last];
      assert forall c :: c in front ==> c.id != last.id;
      OthersKeep(front, bot, key);
    }
  }

  /** The table entries of one bot and trigger, in table order. */
  function Chosen(scripts: seq<Entry>, bot: string, trigger: string): seq<Config> {
    if scripts == [] then []
    else
      var last := scripts[|scripts| - 1];
      Chosen(scripts[..|scripts| - 1], bot, trigger)
      + if Owner(last.key).bot == bot && Owner(last.key).trigger == trigger then [last.config] else []
  }

  lemma {:induction false} RebuiltLists(scripts: seq<Entry>, table: Table, bot: string, trigger: string)
    requires Proper(table) && (forall e :: e in scripts ==> Tabled(e, table))
    requires Plain(bot) && Plain(trigger)
    ensures Listed(Rebuilt(scripts), bot, trigger) == Chosen(scripts, bot, trigger)
  {
    hide Owner, KeyOf, TriggerKey, Plain;
    if scripts != [] {
      var front, last := scripts[..|scripts| - 1], scripts[|scripts| - 1];
      RebuiltLists(front, table, bot, trigger);
      var s := Owner(last.key);
      assert Tabled(last, table);
      if TriggerKey(s.bot, s.trigger) == TriggerKey(bot, trigger) { TriggerKeysDiffer(s.bot, s.trigger, bot, trigger); }
    }
  }

  lemma {:induction false} ChosenRepresents(scripts: seq<Entry>, table: Table, bot: string, trigger: string)
    requires Proper(table) && DistinctKeys(scripts) && (forall e :: e in scripts ==> Tabled(e, table))
    ensures var chosen := Chosen(scripts, bot, trigger);
            && (forall c :: c in chosen <==> Entry(KeyOf(Script(bot, trigger, c.id)), c) in scripts
                                             && Owner(KeyOf(Script(bot, trigger, c.id))) == Script(bot, trigger, c.id))
            && (forall i, j :: 0 <= i < j < |chosen| ==> chosen[i].id != chosen[j].id)
  {
    hide Owner, KeyOf, Plain;
    if scripts != [] {
      var front, last := scripts[..|scripts| - 1], scripts[|scripts| - 1];
      assert scripts == front + [last];
      ChosenRepresents(front, table, bot, trigger);
      var s := Owner(last.key);
      assert Tabled(last, table);
      if s.bot == bot && s.trigger == trigger {
        assert s == Script(bot, trigger, last.config.id);
      }
    }
  }

  lemma KeysDiffer(s: Script, t: Script)
    requires Plain(s.bot) && Plain(s.trigger) && Plain(t.bot) && Plain(t.trigger)
    ensures KeyOf(s) == KeyOf(t) <==> s == t
  {
    OwnerOfKey(s);
    OwnerOfKey(t);
  }

  lemma RegisterStores(scripts: seq<Entry>, table: Table, s: Script, config: Config)
    requires Proper(table) && Stored(scripts, table)
    requires Plain(s.bot) && Plain(s.trigger) && s.id == config.id && s.trigger == config.trigger
    ensures Proper(table[s := config]) && Stored(Put(scripts, KeyOf(s), config), table[s := config])
  {
    hide KeyOf, Owner, Plain, Put;
    var put, after := Put(scripts, KeyOf(s), config), table[s := config];
    PutStores(scripts, KeyOf(s), config);
    OwnerOfKey(s);
    forall e | e in put ensures Tabled(e, after) {
      if e != Entry(KeyOf(s), config) { assert Tabled(e, table); }
    }
    forall t | t in after ensures Entry(KeyOf(t), after[t]) in put {
      if t != s { KeysDiffer(s, t); }
    }
  }

  lemma RegisterIndexes(index: Index, table: Table, s: Script, config: Config)
    requires Proper(table) && Indexed(index, table)
    requires Plain(s.bot) && Plain(s.trigger) && s.id == config.id && s.trigger == config.trigger
    ensures Indexed(index[Key(TriggerKey(s.bot, s.trigger)) :=
                            Others(Listed(index, s.bot, s.trigger), s.bot, KeyOf(s)) + [config]], table[s := config])
  {
    hide KeyOf, TriggerKey, Plain, Represents, Others;
    var list := Listed(index, s.bot, s.trigger);
    var after := index[Key(TriggerKey(s.bot, s.trigger)) := Others(list, s.bot, KeyOf(s)) + [config]];
    forall bot, trigger | Plain(bot) && Plain(trigger)
      ensures Represents(Listed(after, bot, trigger), table[s := config], bot, trigger)
    {
      if TriggerKey(bot, trigger) == TriggerKey(s.bot, s.trigger) { TriggerKeysDiffer(bot, trigger, s.bot, s.trigger); }
      assert Represents(Listed(index, bot, trigger), table, bot, trigger);
      if bot == s.bot && trigger == s.trigger {
        RegisterInList(list, table, s, config);
      } else {
        ElsewhereUnchanged(Listed(index, bot, trigger), table, s, config, bot, trigger);
      }
    }
  }

  lemma ElsewhereUnchanged(list: seq<Config>, table: Table, s: Script, config: Config, bot: string, trigger: string)
    requires Represents(list, table, bot, trigger) && (bot != s.bot || trigger != s.trigger)
    ensures Represents(list, table[s := config], bot, trigger)
  {
  }

  lemma RegisterInList(list: seq<Config>, table: Table, s: Script, config: Config)
    requires Proper(table) && Represents(list, table, s.bot, s.trigger)
    requires Plain(s.bot) && Plain(s.trigger) && s.id == config.id && s.trigger == config.trigger
    ensures Represents(Others(list, s.bot, KeyOf(s)) + [config], table[s := config], s.bot, s.trigger)
  {
    hide KeyOf, Plain, Others;
    OthersKeep(list, s.bot, KeyOf(s));
    forall c | c in list ensures ScriptKey(s.bot, c) == KeyOf(s) <==> c.id == s.id {
      assert Script(s.bot, s.trigger, c.id) in table;
      KeysDiffer(Script(s.bot, c.trigger, c.id), s);
    }
    var kept := Others(list, s.bot, KeyOf(s));
    assert forall i :: 0 <= i < |kept| ==> kept[i] in kept;
  }

  lemma UnregisterStores(scripts: seq<Entry>, table: Table, bot: string)
    requires Proper(table) && Stored(scripts, table) && Plain(bot)
    ensures var after := ApplyTo(table, Unregister(bot));
            Proper(after) && Stored(Dropped(scripts, bot), after)
  {
    hide KeyOf, Owner, Plain, Dropped, Belongs;
    var kept, after := Dropped(scripts, bot), ApplyTo(table, Unregister(bot));
    DroppedKeeps(scripts, bot);
    forall e | e in kept ensures Tabled(e, after) {
      assert Tabled(e, table);
      BelongsToItsBot(Owner(e.key), bot);
    }
    forall s | s in after ensures Entry(KeyOf(s), after[s]) in kept {
      BelongsToItsBot(s, bot);
    }
  }

  lemma RebuiltIndexes(scripts: seq<Entry>, table: Table)
    requires Proper(table) && Stored(scripts, table)
    ensures Indexed(Rebuilt(scripts), table)
  {
    hide KeyOf, Owner, Plain, Chosen, Rebuilt, Listed;
    forall bot, trigger | Plain(bot) && Plain(trigger)
      ensures Represents(Listed(Rebuilt(scripts), bot, trigger), table, bot, trigger)
    {
      RebuiltLists(scripts, table, bot, trigger);
      ChosenRepresents(scripts, table, bot, trigger);
      var list := Chosen(scripts, bot, trigger);
      forall c ensures c in list <==> Script(bot, trigger, c.id) in table && table[Script(bot, trigger, c.id)] == c {
        var s := Script(bot, trigger, c.id);
        OwnerOfKey(s);
        if c in list { assert Tabled(Entry(KeyOf(s), c), table); }
      }
    }
  }

  lemma StartAllKeeps(e: Engine, bot: string, list: seq<Config>, now: int)
    ensures StartAll(e, bot, list, now).scripts == e.scripts && StartAll(e, bot, list, now).byTrigger == e.byTrigger
  {
    if list != [] { StartAllKeeps(e, bot, list[..|list| - 1], now); }
  }

  lemma {:induction false} StaysInStep(ops: seq<Op>)
    requires PlainOps(ops)
    ensures var e, table := After(ops), TableAfter(ops);
            Proper(table) && Stored(e.scripts, table) && Indexed(e.byTrigger, table)
  {
    hide Proper, Stored, Indexed, Plain, KeyOf, TriggerKey, Put, Others, Dropped, Rebuilt, Listed, StartAll;
    if ops == [] {
      NothingRegistered();
    } else {
      var front, op := ops[..|ops| - 1], ops[|ops| - 1];
      StaysInStep(front);
      assert PlainOp(op);
      var e, table := After(front), TableAfter(front);
      match op
      case Register(bot, config) =>
        RegisterStores(e.scripts, table, Script(bot, config.trigger, config.id), config);
        RegisterIndexes(e.byTrigger, table, Script(bot, config.trigger, config.id), config);
      case Unregister(bot) =>
        UnregisterStores(e.scripts, table, bot);
        RebuiltIndexes(Dropped(e.scripts, bot), ApplyTo(table, op));
      case Clear => NothingRegistered();
      case Execute(bot, event, now) => StartAllKeeps(e, bot, Listed(e.byTrigger, bot, event), now);
    }
  }

  lemma NothingRegistered()
    ensures Proper(map[]) && Stored([], map[]) && Indexed(map[], map[])
  {
  }

  /** After any run over colon-free bot ids and triggers, the list under a trigger holds exactly
      the scripts that a scan of all registered ones would select, each once. */
  lemma IndexMatchesTable(ops: seq<Op>, bot: string, trigger: string)
    requires PlainOps(ops) && Plain(bot) && Plain(trigger)
    ensures Represents(Listed(After(ops).byTrigger, bot, trigger), TableAfter(ops), bot, trigger)
  {
    hide Represents;
    StaysInStep(ops);
  }

  /** The cheap guard answers truly: something is listed exactly when some script is registered
      for this bot and event. */
  lemma HasMatchIffRegistered(ops: seq<Op>, bot: string, event: string)
    requires PlainOps(ops) && Plain(bot) && Plain(event)
    ensures Listed(After(ops).byTrigger, bot, event) != []
            <==> exists s :: s in TableAfter(ops) && s.bot == bot && s.trigger == event
  {
    hide After, TableAfter, Listed, Stored, Indexed, Plain;
    StaysInStep(ops);
    IndexMatchesTable(ops, bot, event);
    var list, table := Listed(After(ops).byTrigger, bot, event), TableAfter(ops);
    if list != [] { assert list[0] in list; }
    forall s | s in table && s.bot == bot && s.trigger == event ensures table[s] in list {
      assert s == Script(bot, event, table[s].id);
    }
  }

  /** An event reaches each script registered for it exactly once and no other. */
  lemma OncePerEvent(ops: seq<Op>, bot: string, event: string, c: Config)
    requires PlainOps(ops) && Plain(bot) && Plain(event)
    ensures var s, table := Script(bot, event, c.id), TableAfter(ops);
            multiset(Listed(After(ops).byTrigger, bot, event))[c] == if s in table && table[s] == c then 1 else 0
  {
    IndexMatchesTable(ops, bot, event);
    CountDistinct(Listed(After(ops).byTrigger, bot, event), c);
  }

  lemma {:induction false} CountDistinct(list: seq<Config>, c: Config)
    requires forall i, j :: 0 <= i < j < |list| ==> list[i].id != list[j].id
    ensures multiset(list)[c] == if c in list then 1 else 0
  {
    if list != [] {
      var front, last := list[..|list| - 1], list[|list| - 1];
      assert list == front + [last];
      assert forall d :: d in front ==> d.id != last.id;
      CountDistinct(front, c);
    }
  }

  /** Unregistering a bot empties its own lists and leaves every other bot's as sets unchanged. */
  lemma UnregisterIsLocal(ops: seq<Op>, gone: string, bot: string, trigger: string, c: Config)
    requires PlainOps(ops) && Plain(gone) && Plain(bot) && Plain(trigger)
    ensures var before, after := After(ops).byTrigger, After(ops + [Unregister(gone)]).byTrigger;
            c in Listed(after, bot, trigger) <==> bot != gone && c in Listed(before, bot, trigger)
  {
    var more := ops + [Unregister(gone)];
    assert more[..|more| - 1] == ops;
    IndexMatchesTable(ops, bot, trigger);
    IndexMatchesTable(more, bot, trigger);
  }

  /** Whatever the table holds, the rebuilt index has nothing under a trigger with a colon. */
  lemma {:induction false} ColonTriggersUnfiled(scripts: seq<Entry>, bot: string, trigger: string)
    requires Plain(bot) && !Plain(trigger)
    ensures Listed(Rebuilt(scripts), bot, trigger) == []
  {
    hide Owner, TriggerKey, Plain;
    if scripts != [] {
      var front, s := scripts[..|scripts| - 1], Owner(scripts[|scripts| - 1].key);
      ColonTriggersUnfiled(front, bot, trigger);
      OwnerFieldsPlain(scripts[|scripts| - 1].key);
      if TriggerKey(s.bot, s.trigger) == TriggerKey(bot, trigger) { TriggerKeysDiffer(s.bot, s.trigger, bot, trigger); }
    }
  }

  lemma OwnerFieldsPlain(key: string)
    ensures Plain(Owner(key).bot) && Plain(Owner(key).trigger)
  {
    hide Split, Join;
    FieldsLackSeparator(key, ':');
  }

  /** In every run, over any names, no script with a colon in its trigger is found once some bot
      has been unregistered. */
  lemma ColonTriggersDropOut(ops: seq<Op>, gone: string, bot: string, trigger: string)
    requires Plain(bot) && !Plain(trigger)
    ensures Listed(After(ops + [Unregister(gone)]).byTrigger, bot, trigger) == []
  {
    hide Plain, Rebuilt, Dropped;
    var more := ops + [Unregister(gone)];
    assert more[..|more| - 1] == ops;
    ColonTriggersUnfiled(Dropped(After(ops).scripts, gone), bot, trigger);
  }

  /** After any run over colon-free names, a script registered next is still found when another bot
      has been unregistered exactly if its trigger is colon-free. */
  lemma SurvivesRebuildIffColonFree(ops: seq<Op>, bot: string, config: Config, gone: string)
    requires PlainOps(ops) && Plain(bot) && Plain(gone) && gone != bot
    ensures config in Listed(After(ops + [Register(bot, config)] + [Unregister(gone)]).byTrigger, bot, config.trigger)
            <==> Plain(config.trigger)
  {
    hide Plain, After, Listed, TriggerKey;
    var registered := ops + [Register(bot, config)];
    if Plain(config.trigger) {
      JustRegistered(ops, bot, config);
      UnregisterIsLocal(registered, gone, bot, config.trigger, config);
    } else {
      ColonTriggersDropOut(registered, gone, bot, config.trigger);
    }
  }

  lemma JustRegistered(ops: seq<Op>, bot: string, config: Config)
    requires PlainOps(ops) && PlainOp(Register(bot, config))
    ensures var registered := ops + [Register(bot, config)];
            PlainOps(registered) && config in Listed(After(registered).byTrigger, bot, config.trigger)
  {
    var registered := ops + [Register(bot, config)];
    assert registered[..|registered| - 1] == ops;
  }

  /** The smallest such loss: the script is still in the table, and nothing finds it. */
  lemma ColonTriggerIsLost(bot: string, config: Config, other: string)
    requires Plain(bot) && Plain(other) && other != bot
    ensures var after := After([Register(bot, config), Unregister(other)]);
            && after.scripts == [Entry(ScriptKey(bot, config), config)]
            && (Listed(after.byTrigger, bot, config.trigger) != [] <==> Plain(config.trigger))
  {
    hide Belongs, Split, KeyOf;
    var s := Script(bot, config.trigger, config.id);
    var ops := [Register(bot, config), Unregister(other)];
    assert ops[..1] == [Register(bot, config)] && ops[..1][..0] == [];
    BelongsToItsBot(s, other);
    var entry := Entry(KeyOf(s), config);
    assert After(ops[..1]).scripts == [entry];
    assert [entry][..0] == [];
    assert Dropped([entry], other) == [entry];
    assert Rebuilt([entry]) == Filed(map[], entry);
    FirstFields(s);
    var filed := Owner(KeyOf(s)).trigger;
    if TriggerKey(bot, filed) == TriggerKey(bot, config.trigger) { SameFirstField(bot, filed, config.trigger); }
  }

  lemma SameFirstField(bot: string, x: string, y: string)
    requires TriggerKey(bot, x) == TriggerKey(bot, y)
    ensures x == y
  {
    assert x == TriggerKey(bot, x)[|bot| + 1..] && y == TriggerKey(bot, y)[|bot| + 1..];
  }

  lemma FirstFields(s: Script)
    requires Plain(s.bot)
    ensures Owner(KeyOf(s)).bot == s.bot && (Owner(KeyOf(s)).trigger == s.trigger <==> Plain(s.trigger))
  {
    hide Split, Join;
    var rest := if s.id != "" then s.trigger + ":" + s.id else s.trigger;
    assert KeyOf(s) == s.bot + ":" + rest;
    SplitAfterField(s.bot, rest, ':');
    FieldsLackSeparator(rest, ':');
    if Plain(s.trigger) {
      if s.id != "" { SplitAfterField(s.trigger, s.id, ':'); } else { SplitOneField(s.trigger, ':'); }
    }
  }

  // ---- Cooldowns ----

  predicate Spaced(f: Fired, later: Fired) {
    f.key == later.key && f.cooldown > 0 && later.cooldown > 0 ==> later.at - f.at >= later.cooldown * 1000
  }

  /** The cooldown table knows the latest of the cooled runs of a script. */
  ghost predicate Remembered(e: Engine) {
    && (forall i :: 0 <= i < |e.fired| && e.fired[i].cooldown > 0 ==>
          Key(e.fired[i].key) in e.cooldowns && e.fired[i].at <= e.cooldowns[Key(e.fired[i].key)])
    && (forall i, j :: 0 <= i < j < |e.fired| ==> Spaced(e.fired[i], e.fired[j]))
  }

  lemma StartRemembered(e: Engine, bot: string, config: Config, now: int)
    requires Remembered(e)
    ensures Remembered(Start(e, bot, config, now))
  {
    hide ScriptKey;
  }

  lemma {:induction false} StartAllRemembered(e: Engine, bot: string, list: seq<Config>, now: int)
    requires Remembered(e)
    ensures Remembered(StartAll(e, bot, list, now))
  {
    hide Remembered, Start;
    if list != [] {
      StartAllRemembered(e, bot, list[..|list| - 1], now);
      StartRemembered(StartAll(e, bot, list[..|list| - 1], now), bot, list[|list| - 1], now);
    }
  }

  ghost predicate KeyedFields(fired: seq<Fired>) {
    forall i :: 0 <= i < |fired| ==> !Plain(fired[i].key)
  }

  lemma {:induction false} StartAllKeyed(e: Engine, bot: string, list: seq<Config>, now: int)
    requires KeyedFields(e.fired)
    ensures KeyedFields(StartAll(e, bot, list, now).fired)
  {
    hide CoolingDown, ScriptKey, Plain;
    if list != [] {
      StartAllKeyed(e, bot, list[..|list| - 1], now);
      KeysHaveColons(bot, list[|list| - 1]);
    }
  }

  lemma KeysHaveColons(bot: string, config: Config)
    ensures !Plain(ScriptKey(bot, config))
  {
    assert ScriptKey(bot, config)[|bot|] == ':';
  }

  /** Two cooled runs of one script on events are at least its cooldown apart, however its bot was
      unregistered and registered again in between: unregistering a bot lifts no cooldown. */
  lemma {:induction false} CooldownsHold(ops: seq<Op>)
    requires PlainOps(ops)
    ensures Remembered(After(ops)) && KeyedFields(After(ops).fired)
  {
    hide StartAll, Put, Others, Rebuilt, Dropped, Listed, ScriptKey, TriggerKey;
    if ops != [] {
      var front, op := ops[..|ops| - 1], ops[|ops| - 1];
      CooldownsHold(front);
      assert PlainOp(op);
      var e := After(front);
      match op
      case Execute(bot, event, now) =>
        StartAllRemembered(e, bot, Listed(e.byTrigger, bot, event), now);
        StartAllKeyed(e, bot, Listed(e.byTrigger, bot, event), now);
      case _ =>
    }
  }

  /** Every cooldown in force stems from a run. */
  ghost predicate Caused(e: Engine) {
    forall key :: key in e.cooldowns ==> e.cooldowns[key] >= 0 && Ran(e.fired, key.name, e.cooldowns[key])
  }

  ghost predicate Ran(fired: seq<Fired>, key: string, at: int) {
    exists i :: 0 <= i < |fired| && fired[i].key == key && fired[i].cooldown > 0 && fired[i].at == at
  }

  lemma RanStill(fired: seq<Fired>, more: Fired, key: string, at: int)
    requires Ran(fired, key, at)
    ensures Ran(fired + [more], key, at)
  {
    var i :| 0 <= i < |fired| && fired[i].key == key && fired[i].cooldown > 0 && fired[i].at == at;
    assert (fired + [more])[i] == fired[i];
  }

  lemma StartCaused(e: Engine, bot: string, config: Config, now: int)
    requires Caused(e)
    ensures Caused(Start(e, bot, config, now))
  {
    hide ScriptKey, Ran;
    var after, key := Start(e, bot, config, now), ScriptKey(bot, config);
    forall k | k in after.cooldowns ensures after.cooldowns[k] >= 0 && Ran(after.fired, k.name, after.cooldowns[k]) {
      if k in e.cooldowns && after.cooldowns[k] == e.cooldowns[k] {
        RanStill(e.fired, Fired(key, now, config.cooldown), k.name, e.cooldowns[k]);
      } else {
        JustRan(e.fired, Fired(key, now, config.cooldown));
      }
    }
  }

  lemma JustRan(fired: seq<Fired>, more: Fired)
    requires more.cooldown > 0
    ensures Ran(fired + [more], more.key, more.at)
  {
    assert (fired + [more])[|fired|] == more;
  }

  lemma {:induction false} CooldownsAreCaused(ops: seq<Op>)
    ensures Caused(After(ops))
  {
    hide StartAll, Put, Others, Rebuilt, Dropped, Listed, ScriptKey, TriggerKey, Ran;
    if ops != [] {
      var front, op := ops[..|ops| - 1], ops[|ops| - 1];
      CooldownsAreCaused(front);
      if op.Execute? {
        StartAllCaused(After(front), op.bot, Listed(After(front).byTrigger, op.bot, op.event), op.now);
      }
    }
  }

  lemma {:induction false} StartAllCaused(e: Engine, bot: string, list: seq<Config>, now: int)
    requires Caused(e)
    ensures Caused(StartAll(e, bot, list, now))
  {
    hide Caused, Start;
    if list != [] {
      StartAllCaused(e, bot, list[..|list| - 1], now);
      StartCaused(StartAll(e, bot, list[..|list| - 1], now), bot, list[|list| - 1], now);
    }
  }

  /** The runs that an event starts: one for each listed script that is not cooling down. */
  function Due(cooldowns: map<Key, int>, bot: string, list: seq<Config>, now: int): seq<Fired> {
    if list == [] then []
    else
      var last := list[|list| - 1];
      Due(cooldowns, bot, list[..|list| - 1], now)
      + if CoolingDown(last, ScriptKey(bot, last), now, cooldowns) then [] else [Fired(ScriptKey(bot, last), now, last.cooldown)]
  }

  ghost predicate DistinctScripts(bot: string, list: seq<Config>) {
    forall i, j :: 0 <= i < j < |list| ==> ScriptKey(bot, list[i]) != ScriptKey(bot, list[j])
  }

  lemma {:induction false} StartAllElsewhere(e: Engine, bot: string, list: seq<Config>, now: int, key: string)
    requires forall i :: 0 <= i < |list| ==> ScriptKey(bot, list[i]) != key
    ensures var after := StartAll(e, bot, list, now).cooldowns;
            (Key(key) in after <==> Key(key) in e.cooldowns) && (Key(key) in after ==> after[Key(key)] == e.cooldowns[Key(key)])
  {
    hide ScriptKey, CoolingDown;
    if list != [] { StartAllElsewhere(e, bot, list[..|list| - 1], now, key); }
  }

  /** Scripts listed together do not hold each other up. */
  lemma {:induction false} StartAllIsDue(e: Engine, bot: string, list: seq<Config>, now: int)
    requires DistinctScripts(bot, list)
    ensures StartAll(e, bot, list, now).fired == e.fired + Due(e.cooldowns, bot, list, now)
  {
    hide ScriptKey;
    if list != [] {
      var front, last := list[..|list| - 1], list[|list| - 1];
      StartAllIsDue(e, bot, front, now);
      StartAllElsewhere(e, bot, front, now, ScriptKey(bot, last));
    }
  }

  lemma {:induction false} DueIff(cooldowns: map<Key, int>, bot: string, list: seq<Config>, now: int, f: Fired)
    ensures f in Due(cooldowns, bot, list, now) <==>
            exists c :: c in list && f == Fired(ScriptKey(bot, c), now, c.cooldown) && !CoolingDown(c, ScriptKey(bot, c), now, cooldowns)
  {
    hide ScriptKey, CoolingDown;
    if list != [] {
      var front, last := list[..|list| - 1], list[|list| - 1];
      assert list == front + [last];
      DueIff(cooldowns, bot, front, now, f);
    }
  }

  lemma {:induction false} DueDistinct(cooldowns: map<Key, int>, bot: string, list: seq<Config>, now: int)
    requires DistinctScripts(bot, list)
    ensures var due := Due(cooldowns, bot, list, now); forall i, j :: 0 <= i < j < |due| ==> due[i].key != due[j].key
  {
    hide ScriptKey, CoolingDown;
    if list != [] {
      var front, last := list[..|list| - 1], list[|list| - 1];
      DueDistinct(cooldowns, bot, front, now);
      var earlier := Due(cooldowns, bot, front, now);
      forall i | 0 <= i < |earlier| ensures earlier[i].key != ScriptKey(bot, last) {
        DueIff(cooldowns, bot, front, now, earlier[i]);
        var c :| c in front && earlier[i].key == ScriptKey(bot, c);
      }
    }
  }

  lemma ListedAreDistinct(list: seq<Config>, table: Table, bot: string, event: string)
    requires Proper(table) && Represents(list, table, bot, event) && Plain(bot) && Plain(event)
    ensures DistinctScripts(bot, list)
  {
    hide KeyOf, Plain;
    forall i, j | 0 <= i < j < |list| ensures ScriptKey(bot, list[i]) != ScriptKey(bot, list[j]) {
      var c, d := list[i], list[j];
      assert c in list && d in list;
      KeysDiffer(Script(bot, c.trigger, c.id), Script(bot, d.trigger, d.id));
    }
  }

  /** An event starts exactly the scripts registered for it that have rested since their last run,
      each of them once and under its own key. */
  lemma EventStartsIff(ops: seq<Op>, bot: string, event: string, now: int, c: Config)
    requires PlainOps(ops) && Plain(bot) && Plain(event)
    ensures var e, after, s := After(ops), After(ops + [Execute(bot, event, now)]), Script(bot, event, c.id);
            && e.fired <= after.fired
            && (s in TableAfter(ops) && TableAfter(ops)[s] == c ==>
                  (Fired(KeyOf(s), now, c.cooldown) in after.fired[|e.fired|..] <==>
                   c.cooldown <= 0 || (&& now >= c.cooldown * 1000
                                       && forall at :: Ran(e.fired, KeyOf(s), at) ==> now - at >= c.cooldown * 1000)))
            && (forall f :: f in after.fired[|e.fired|..] ==>
                  f.at == now && exists id :: Script(bot, event, id) in TableAfter(ops) && f.key == KeyOf(Script(bot, event, id)))
            && (forall i, j :: |e.fired| <= i < j < |after.fired| ==> after.fired[i].key != after.fired[j].key)
  {
    hide After, TableAfter, Stored, Indexed, Plain, Listed, StartAll, Due, KeyOf, CoolingDown, Ran;
    var e, table, s := After(ops), TableAfter(ops), Script(bot, event, c.id);
    var list := Listed(e.byTrigger, bot, event);
    AfterMore(ops, Execute(bot, event, now));
    StaysInStep(ops);
    IndexMatchesTable(ops, bot, event);
    ListedAreDistinct(list, table, bot, event);
    StartAllIsDue(e, bot, list, now);
    DueDistinct(e.cooldowns, bot, list, now);
    forall f ensures f in Due(e.cooldowns, bot, list, now) <==>
      exists d :: d in list && f == Fired(ScriptKey(bot, d), now, d.cooldown) && !CoolingDown(d, ScriptKey(bot, d), now, e.cooldowns)
    {
      DueIff(e.cooldowns, bot, list, now, f);
    }
    forall d | d in list ensures d.trigger == event && ScriptKey(bot, d) == KeyOf(Script(bot, event, d.id)) {}
    if s in table && table[s] == c {
      StartsIffCooledDown(ops, bot, c, now);
      StartIff(e, bot, c, now);
      forall d | d in list && KeyOf(Script(bot, event, d.id)) == KeyOf(s) ensures d == c {
        KeysDiffer(Script(bot, event, d.id), s);
      }
    }
  }

  lemma AfterMore(ops: seq<Op>, op: Op)
    ensures After(ops + [op]) == Apply(After(ops), op)
  {
    hide Apply;
    assert (ops + [op])[..|ops|] == ops;
  }

  lemma StartIff(e: Engine, bot: string, config: Config, now: int)
    ensures |Start(e, bot, config, now).fired| > |e.fired| <==> !CoolingDown(config, ScriptKey(bot, config), now, e.cooldowns)
  {
  }

  /** A listed script starts exactly when none of its cooled runs is more recent than its cooldown
      (and the clock itself has passed one cooldown since its origin). */
  lemma StartsIffCooledDown(ops: seq<Op>, bot: string, config: Config, now: int)
    requires PlainOps(ops)
    ensures var e, key := After(ops), ScriptKey(bot, config);
            |Start(e, bot, config, now).fired| > |e.fired|
            <==> config.cooldown <= 0
                 || (&& now >= config.cooldown * 1000
                     && forall at :: Ran(e.fired, key, at) ==> now - at >= config.cooldown * 1000)
  {
    hide After, ScriptKey;
    CooldownsHold(ops);
    CooldownsAreCaused(ops);
    var e, key := After(ops), ScriptKey(bot, config);
    if Key(key) in e.cooldowns {
      assert Ran(e.fired, Key(key).name, e.cooldowns[Key(key)]);
    }
  }

  // ---- The engine ----

  /** The engine object: its maps are updated in place. */
  class ScriptEngine {
    var scripts: seq<Entry>
    var byTrigger: Index
    var cooldowns: map<Key, int>
    var fired: seq<Fired>

    constructor ()
      ensures State() == After([])
    {
      scripts, byTrigger, cooldowns, fired := [], map[], map[], [];
    }

    ghost function State(): Engine
      reads this
    {
      Engine(scripts, byTrigger, cooldowns, fired)
    }

    method RebuildIndex()
      modifies `byTrigger
      ensures byTrigger == Rebuilt(scripts)
    {
      byTrigger := map[];
      for i := 0 to |scripts|
        invariant byTrigger == Rebuilt(scripts[..i])
      {
        assert scripts[..i + 1][..i] == scripts[..i];
        var s := Owner(scripts[i].key);
        byTrigger := byTrigger[Key(TriggerKey(s.bot, s.trigger)) := Listed(byTrigger, s.bot, s.trigger) + [scripts[i].config]];
      }
      assert scripts[..|scripts|] == scripts;
    }

    method Register(bot: string, config: Config)
      modifies this
      ensures State() == Apply(old(State()), Op.Register(bot, config))
    {
      var key := ScriptKey(bot, config);
      scripts := Put(scripts, key, config);
      var list := Listed(byTrigger, bot, config.trigger);
      var deduped: seq<Config> := [];
      for i := 0 to |list|
        invariant deduped == Others(list[..i], bot, key)
      {
        assert list[..i + 1][..i] == list[..i];
        if ScriptKey(bot, list[i]) != key { deduped := deduped + [list[i]]; }
      }
      assert list[..|list|] == list;
      byTrigger := byTrigger[Key(TriggerKey(bot, config.trigger)) := deduped + [config]];
    }

    method Unregister(bot: string)
      modifies this
      ensures State() == Apply(old(State()), Op.Unregister(bot))
    {
      var kept: seq<Entry> := [];
      for i := 0 to |scripts|
        invariant kept == Dropped(scripts[..i], bot) && State() == old(State())
      {
        assert scripts[..i + 1][..i] == scripts[..i];
        if !Belongs(scripts[i].key, bot) { kept := kept + [scripts[i]]; }
      }
      assert scripts[..|scripts|] == scripts;
      scripts := kept;
      RebuildIndex();
      cooldowns := cooldowns - {Key(bot)};
    }

    method Clear()
      modifies this
      ensures State() == Apply(old(State()), Op.Clear)
    {
      scripts, byTrigger, cooldowns, fired := [], map[], map[], [];
    }

    method HasMatch(bot: string, event: string) returns (some: bool)
      ensures some <==> Listed(byTrigger, bot, event) != []
    {
      some := |Listed(byTrigger, bot, event)| > 0;
    }

    method Execute(bot: string, event: string, now: int)
      modifies this
      ensures State() == Apply(old(State()), Op.Execute(bot, event, now))
    {
      hide ScriptKey, TriggerKey;
      var matching := Listed(byTrigger, bot, event);
      ghost var before := State();
      for i := 0 to |matching|
        invariant State() == StartAll(before, bot, matching[..i], now)
      {
        var config := matching[i];
        var key := ScriptKey(bot, config);
        assert matching[..i + 1][..i] == matching[..i];
        if !CoolingDown(config, key, now, cooldowns) {
          if config.cooldown > 0 { cooldowns := cooldowns[Key(key) := now]; }
          fired := fired + [Fired(key, now, config.cooldown)];
        }
      }
      assert matching[..|matching|] == matching;
    }
  }
}
