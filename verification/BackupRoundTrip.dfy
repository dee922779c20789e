/** Exporting an owner's rows and importing them elsewhere (packages/api/src/routes/backup.ts). */
module BackupRoundTrip {
  import opened Common
  import T = Tables
  import opened Backup

  // ---- Export ----

  function AccountOf(owner: Name): Account -> bool {
    (r: Account) => r.key.ownerId == owner
  }

  function BotOf(owner: Name): Bot -> bool {
    (r: Bot) => r.key.ownerId == owner
  }

  function ScriptOf(bots: seq<Bot>): Script -> bool {
    (r: Script) => T.Position(bots, r.key.botId) < |bots|
  }

  function MyAccounts(rows: seq<Account>, owner: Name): seq<Account> {
    T.Select(rows, AccountOf(owner))
  }

  function MyBots(rows: seq<Bot>, owner: Name): seq<Bot> {
    T.Select(rows, BotOf(owner))
  }

  /** The scripts of these bots. */
  function ScriptsOf(rows: seq<Script>, bots: seq<Bot>): seq<Script> {
    T.Select(rows, ScriptOf(bots))
  }

  function Reference(position: nat, n: nat): Option<real> {
    if position < n then Some(position as real) else None
  }

  function TextOf(x: Value): Option<string> {
    if x.Text? then Some(x.text) else None
  }

  function FieldOf(fields: map<Field, Value>, f: Field): Value {
    if f in fields then fields[f] else Null
  }

  function ExportAccount(r: Account, includeCredentials: bool): ImportAccount {
    if includeCredentials then
      var pool := FieldOf(r.fields, ApiKeys);
      ImportAccount(r.key.name, r.key.platform, map f | f in TEXT_FIELDS :: TextOf(FieldOf(r.fields, f)),
                    if pool.Pool? then Pairs(pool.pairs) else NullPool)
    else ImportAccount(r.key.name, r.key.platform, map[], Absent)
  }

  function NameOf(x: Value): Name {
    if x.Called? then x.name else Name("")
  }

  function SettingsOf(x: Value): Config {
    if x.Json? then x.config else EMPTY
  }

  /** `mask` strips the wallet key from a config exported without credentials. */
  function ExportBot(r: Bot, accounts: seq<Account>, includeCredentials: bool, mask: Config -> Config): ImportBot {
    var config := SettingsOf(FieldOf(r.fields, Settings));
    ImportBot(r.key.name, NameOf(FieldOf(r.fields, Platform)), Reference(T.Position(accounts, r.key.accountId), |accounts|),
              Some(if includeCredentials then config else mask(config)))
  }

  function ExportScript(r: Script, bots: seq<Bot>): ImportScript {
    ImportScript(Reference(T.Position(bots, r.key.botId), |bots|), r.key.name, NameOf(FieldOf(r.fields, Trigger)),
                 Some(SettingsOf(FieldOf(r.fields, Settings))), Some(FieldOf(r.fields, Enabled) == Flag(true)))
  }

  function ExportAccounts(accounts: seq<Account>, includeCredentials: bool): seq<ImportAccount> {
    seq(|accounts|, i requires 0 <= i < |accounts| => ExportAccount(accounts[i], includeCredentials))
  }

  function ExportBots(bots: seq<Bot>, accounts: seq<Account>, includeCredentials: bool, mask: Config -> Config): seq<ImportBot> {
    seq(|bots|, i requires 0 <= i < |bots| => ExportBot(bots[i], accounts, includeCredentials, mask))
  }

  function ExportScripts(scripts: seq<Script>, bots: seq<Bot>): seq<ImportScript> {
    seq(|scripts|, i requires 0 <= i < |scripts| => ExportScript(scripts[i], bots))
  }

  function Export(db: Database, owner: Name, includeCredentials: bool, mask: Config -> Config): Payload {
    var accounts, bots := MyAccounts(db.accounts, owner), MyBots(db.bots, owner);
    Payload(Some(1), ExportAccounts(accounts, includeCredentials), ExportBots(bots, accounts, includeCredentials, mask),
            ExportScripts(ScriptsOf(db.scripts, bots), bots))
  }

  // ---- What an owner's data says, apart from ids and ciphertexts ----

  datatype LogicalAccount = LogicalAccount(name: Name, platform: Name, credentials: map<Field, Value>)
  datatype LogicalBot = LogicalBot(account: nat, name: Name, platform: Name, config: Config)
  datatype LogicalScript = LogicalScript(bot: nat, name: Name, trigger: Name, config: Config, enabled: bool)
  datatype Contents = Contents(accounts: seq<LogicalAccount>, bots: seq<LogicalBot>, scripts: seq<LogicalScript>)

  function AccountSays(r: Account, v: Vault): LogicalAccount {
    LogicalAccount(r.key.name, r.key.platform, map f | f in CREDENTIALS :: Read(v, FieldOf(r.fields, f)))
  }

  function BotSays(r: Bot, accounts: seq<Account>): LogicalBot {
    LogicalBot(T.Position(accounts, r.key.accountId), r.key.name, NameOf(FieldOf(r.fields, Platform)),
               SettingsOf(FieldOf(r.fields, Settings)))
  }

  function ScriptSays(r: Script, bots: seq<Bot>): LogicalScript {
    LogicalScript(T.Position(bots, r.key.botId), r.key.name, NameOf(FieldOf(r.fields, Trigger)),
                  SettingsOf(FieldOf(r.fields, Settings)), FieldOf(r.fields, Enabled) == Flag(true))
  }

  function AccountsSay(accounts: seq<Account>, v: Vault): seq<LogicalAccount> {
    seq(|accounts|, i requires 0 <= i < |accounts| => AccountSays(accounts[i], v))
  }

  function BotsSay(bots: seq<Bot>, accounts: seq<Account>): seq<LogicalBot> {
    seq(|bots|, i requires 0 <= i < |bots| => BotSays(bots[i], accounts))
  }

  function ScriptsSay(scripts: seq<Script>, bots: seq<Bot>): seq<LogicalScript> {
    seq(|scripts|, i requires 0 <= i < |scripts| => ScriptSays(scripts[i], bots))
  }

  function ContentsOf(db: Database, owner: Name, v: Vault): Contents {
    var accounts, bots := MyAccounts(db.accounts, owner), MyBots(db.bots, owner);
    Contents(AccountsSay(accounts, v), BotsSay(bots, accounts), ScriptsSay(ScriptsOf(db.scripts, bots), bots))
  }

  // ---- Owners, positions and fresh ids ----

  /** Rows added for an owner who had none are exactly that owner's rows. */
  lemma OnlyNewRows<A>(older: seq<A>, newer: seq<A>, p: A -> bool)
    requires forall i :: 0 <= i < |older| ==> !p(older[i])
    requires forall i :: 0 <= i < |newer| ==> p(newer[i])
    ensures T.Select(older + newer, p) == newer
  {
    T.SelectConcat(older, newer, p);
    T.SelectNone(older, p);
    T.SelectAll(newer, p);
  }

  lemma PositionIs<K, F, V>(rows: seq<T.Row<K, F, V>>, id: nat, i: nat)
    requires i < |rows| && rows[i].id == id && forall j :: 0 <= j < i ==> rows[j].id != id
    ensures T.Position(rows, id) == i
  {
  }

  // ---- The round trip ----

  ghost predicate DistinctKeys<K(!new), F(!new), V(!new)>(rows: seq<T.Row<K, F, V>>) {
    forall i, j :: 0 <= i < j < |rows| ==> rows[i].key != rows[j].key
  }

  predicate CredentialsTyped(r: Account) {
    && (forall f :: f in TEXT_FIELDS ==> var x := FieldOf(r.fields, f); x.Text? || x.Null?)
    && var x := FieldOf(r.fields, ApiKeys); x.Pool? || x.Null?
  }

  predicate BotRowFits(r: Bot, s: Schemas) {
    NameFits(r.key.name) && s.botConfig(SettingsOf(FieldOf(r.fields, Settings)))
  }

  predicate ScriptRowFits(r: Script, s: Schemas) {
    && NameFits(r.key.name) && s.trigger(NameOf(FieldOf(r.fields, Trigger)))
    && s.scriptConfig(SettingsOf(FieldOf(r.fields, Settings)))
  }

  /** No more rows than a payload may have, with names, triggers and configs that the schemas allow. */
  ghost predicate RowsFit(accounts: seq<Account>, bots: seq<Bot>, scripts: seq<Script>, s: Schemas) {
    && |accounts| <= MAX_ACCOUNTS && |bots| <= MAX_BOTS && |scripts| <= MAX_SCRIPTS
    && (forall i :: 0 <= i < |accounts| ==> NameFits(accounts[i].key.name))
    && (forall i :: 0 <= i < |bots| ==> BotRowFits(bots[i], s))
    && (forall i :: 0 <= i < |scripts| ==> ScriptRowFits(scripts[i], s))
  }

  /** An owner's rows as the application keeps them: names tell apart the accounts of a platform,
      the bots of an account and the scripts of a bot; every bot is linked to one of the owner's
      accounts; and each row is one the application itself would store. */
  ghost predicate Exportable(db: Database, owner: Name, s: Schemas) {
    var accounts, bots := MyAccounts(db.accounts, owner), MyBots(db.bots, owner);
    && DistinctKeys(accounts) && DistinctKeys(bots) && DistinctKeys(ScriptsOf(db.scripts, bots))
    && (forall i :: 0 <= i < |accounts| ==> CredentialsTyped(accounts[i]))
    && (forall i :: 0 <= i < |bots| ==> T.Position(accounts, bots[i].key.accountId) < |accounts|)
    && RowsFit(accounts, bots, ScriptsOf(db.scripts, bots), s)
  }

  /** A database in which the owner has nothing yet; ids are handed out in increasing order. */
  ghost predicate EmptyFor(db: Database, owner: Name) {
    && (forall i :: 0 <= i < |db.accounts| ==> db.accounts[i].key.ownerId != owner)
    && (forall i :: 0 <= i < |db.bots| ==> db.bots[i].key.ownerId != owner)
    && (forall i :: 0 <= i < |db.scripts| ==> db.scripts[i].key.botId < db.nextBot)
  }

  lemma AccountsAreMine(rows: seq<Account>, owner: Name)
    ensures forall i :: 0 <= i < |MyAccounts(rows, owner)| ==> MyAccounts(rows, owner)[i].key.ownerId == owner
  {
  }

  lemma BotsAreMine(rows: seq<Bot>, owner: Name)
    ensures forall i :: 0 <= i < |MyBots(rows, owner)| ==> MyBots(rows, owner)[i].key.ownerId == owner
  {
  }

  lemma ScriptsAreMine(rows: seq<Script>, bots: seq<Bot>)
    ensures forall i :: 0 <= i < |ScriptsOf(rows, bots)| ==> T.Position(bots, ScriptsOf(rows, bots)[i].key.botId) < |bots|
  {
  }

  lemma PositionsDiffer<K, F, V>(rows: seq<T.Row<K, F, V>>, a: nat, b: nat)
    requires a != b && T.Position(rows, a) < |rows|
    ensures T.Position(rows, a) != T.Position(rows, b)
  {
  }

  lemma NewRowPosition<K, F, V>(nextId: nat, es: seq<T.Entry<K, F, V>>, id: nat)
    ensures var p := T.Position(T.NewRows(nextId, es), id);
            if nextId <= id < nextId + |es| then p == id - nextId else p == |es|
  {
    hide T.Position;
    var rows := T.NewRows(nextId, es);
    if nextId <= id < nextId + |es| { PositionIs(rows, id, id - nextId); }
  }

  /** The rows carry the n consecutive ids from nextId on, in order, and no others. */
  ghost predicate Numbered<K, F, V>(rows: seq<T.Row<K, F, V>>, nextId: nat, n: nat) {
    |rows| == n && forall id: nat :: T.Position(rows, id) == if nextId <= id < nextId + n then id - nextId else n
  }

  lemma NewRowsAreNumbered<K, F, V>(nextId: nat, es: seq<T.Entry<K, F, V>>)
    ensures Numbered(T.NewRows(nextId, es), nextId, |es|)
  {
    hide T.Position;
    forall id: nat
      ensures T.Position(T.NewRows(nextId, es), id) == if nextId <= id < nextId + |es| then id - nextId else |es|
    {
      NewRowPosition(nextId, es, id);
    }
  }

  /** Export an account with its credentials, import it: it says the same. */
  lemma AccountIsRebuilt(r: Account, newOwner: Name, id: nat, v: Vault, iv: int)
    requires Keeps(v) && CredentialsTyped(r)
    ensures var e := AccountEntry(newOwner, v, ExportAccount(r, true), iv);
            AccountSays(T.Row(id, e.key, e.defaults + e.data), v) == AccountSays(r, v)
  {
    hide Keeps, Read, CredentialsData, CredentialsTyped, ExportAccount, Said;
    var a := ExportAccount(r, true);
    var e := AccountEntry(newOwner, v, a, iv);
    SealingKeepsReadings(v, a, iv);
    forall f | f in CREDENTIALS ensures Read(v, FieldOf(e.defaults + e.data, f)) == Read(v, FieldOf(r.fields, f)) {
      FieldIsRebuilt(r, v, f);
      assert T.ReadFields(e.data, x => Read(v, x))[f] == Said(v, a)[f];
    }
    ExportNames(r);
  }

  lemma ExportNames(r: Account)
    ensures ExportAccount(r, true).name == r.key.name && ExportAccount(r, true).platform == r.key.platform
  {
  }

  lemma FieldIsRebuilt(r: Account, v: Vault, f: Field)
    requires CredentialsTyped(r) && f in CREDENTIALS
    ensures f in Said(v, ExportAccount(r, true)) && Said(v, ExportAccount(r, true))[f] == Read(v, FieldOf(r.fields, f))
  {
    if f == ApiKeys { PoolIsRebuilt(r, v); } else { TextIsRebuilt(r, v, f); }
  }

  lemma PoolIsRebuilt(r: Account, v: Vault)
    requires CredentialsTyped(r)
    ensures ApiKeys in Said(v, ExportAccount(r, true))
            && Said(v, ExportAccount(r, true))[ApiKeys] == Read(v, FieldOf(r.fields, ApiKeys))
  {
    hide EachPair, SaidTexts, FieldOf;
    var x := FieldOf(r.fields, ApiKeys);
    assert x.Pool? || x.Null?;
  }

  lemma TextIsRebuilt(r: Account, v: Vault, f: Field)
    requires CredentialsTyped(r) && f in TEXT_FIELDS
    ensures f in Said(v, ExportAccount(r, true)) && Said(v, ExportAccount(r, true))[f] == Read(v, FieldOf(r.fields, f))
  {
    hide EachPair, FieldOf, ExportAccount;
    var x := FieldOf(r.fields, f);
    assert x.Text? || x.Null?;
    ExportedText(r, f);
  }

  lemma ExportedText(r: Account, f: Field)
    requires f in TEXT_FIELDS
    ensures var a := ExportAccount(r, true); f in a.texts && a.texts[f] == TextOf(FieldOf(r.fields, f))
  {
    hide FieldOf, TextOf;
  }

  lemma OnlyNewAccountsAreMine(rows: seq<Account>, owner: Name, nextId: nat, es: seq<T.Entry<AccountKey, Field, Value>>)
    requires forall i :: 0 <= i < |rows| ==> rows[i].key.ownerId != owner
    requires forall i :: 0 <= i < |es| ==> es[i].key.ownerId == owner
    ensures MyAccounts(rows + T.NewRows(nextId, es), owner) == T.NewRows(nextId, es)
  {
    hide T.Select;
    OnlyNewRows(rows, T.NewRows(nextId, es), AccountOf(owner));
  }

  lemma AccountsRoundTrip(mine: seq<Account>, owner: Name, to: Database, newOwner: Name, v: Vault, iv: int)
    requires Keeps(v) && DistinctKeys(mine) && EmptyFor(to, newOwner)
    requires forall i :: 0 <= i < |mine| ==> mine[i].key.ownerId == owner && CredentialsTyped(mine[i])
    ensures var es := AccountEntries(newOwner, v, ExportAccounts(mine, true), iv);
            var rows := T.NewRows(to.nextAccount, es);
            && |es| == |mine|
            && T.UpsertAll(to.accounts, to.nextAccount, es)
               == T.Pass(to.accounts + rows, to.nextAccount + |es|, seq(|es|, i => to.nextAccount + i), |es|)
            && MyAccounts(to.accounts + rows, newOwner) == rows
            && AccountsSay(rows, v) == AccountsSay(mine, v)
  {
    hide MyAccounts, Keeps, CredentialsTyped, AccountSays, T.UpsertAll, CredentialsData;
    var es := AccountEntries(newOwner, v, ExportAccounts(mine, true), iv);
    var rows := T.NewRows(to.nextAccount, es);
    T.AllNew(to.accounts, to.nextAccount, es);
    OnlyNewAccountsAreMine(to.accounts, newOwner, to.nextAccount, es);
    forall i | 0 <= i < |mine| ensures AccountSays(rows[i], v) == AccountSays(mine[i], v) {
      AccountIsRebuilt(mine[i], newOwner, to.nextAccount + i, v, iv);
    }
  }

  lemma ResolvesToPosition<K, F, V>(rows: seq<T.Row<K, F, V>>, id: nat, ids: seq<nat>, nextId: nat)
    requires T.Position(rows, id) < |rows| && ids == seq(|rows|, i => nextId + i)
    ensures Resolve(ids, Reference(T.Position(rows, id), |rows|)) == Some(nextId + T.Position(rows, id))
  {
    assert (T.Position(rows, id) as real).Floor == T.Position(rows, id);
  }

  lemma BotEntriesOfExport(mine: seq<Bot>, accounts: seq<Account>, newOwner: Name, ids: seq<nat>, nextAccount: nat)
    requires forall i :: 0 <= i < |mine| ==> T.Position(accounts, mine[i].key.accountId) < |accounts|
    requires ids == seq(|accounts|, i => nextAccount + i)
    ensures var es := BotEntries(newOwner, ExportBots(mine, accounts, true, c => c), ids);
            && es.Some? && |es.value| == |mine|
            && forall i :: 0 <= i < |mine| ==>
                 && es.value[i] == BotEntry(newOwner, nextAccount + T.Position(accounts, mine[i].key.accountId),
                                            ExportBot(mine[i], accounts, true, c => c))
                 && es.value[i].key == BotKey(newOwner, nextAccount + T.Position(accounts, mine[i].key.accountId), mine[i].key.name)
  {
    hide T.Position, BotEntries, Resolve;
    var bots := ExportBots(mine, accounts, true, c => c);
    BotEntriesAre(newOwner, bots, ids);
    forall i | 0 <= i < |mine|
      ensures Resolve(ids, bots[i].accountRef) == Some(nextAccount + T.Position(accounts, mine[i].key.accountId))
    {
      ResolvesToPosition(accounts, mine[i].key.accountId, ids, nextAccount);
    }
  }

  lemma BotIsRebuilt(r: Bot, accounts: seq<Account>, newOwner: Name, id: nat, nextAccount: nat, newAccounts: seq<Account>)
    requires T.Position(accounts, r.key.accountId) < |accounts| && Numbered(newAccounts, nextAccount, |accounts|)
    ensures var e := BotEntry(newOwner, nextAccount + T.Position(accounts, r.key.accountId), ExportBot(r, accounts, true, c => c));
            BotSays(T.Row(id, e.key, e.defaults + e.data), newAccounts) == BotSays(r, accounts)
  {
    hide T.Position;
  }

  lemma ScriptIsRebuilt(r: Script, bots: seq<Bot>, id: nat, nextBot: nat, newBots: seq<Bot>)
    requires T.Position(bots, r.key.botId) < |bots| && Numbered(newBots, nextBot, |bots|)
    ensures var e := ScriptEntry(nextBot + T.Position(bots, r.key.botId), ExportScript(r, bots));
            ScriptSays(T.Row(id, e.key, e.defaults + e.data), newBots) == ScriptSays(r, bots)
  {
    hide T.Position;
  }

  lemma BotKeysAreNew(mine: seq<Bot>, owner: Name, accounts: seq<Account>, to: Database, newOwner: Name,
                      es: seq<T.Entry<BotKey, Field, Value>>)
    requires DistinctKeys(mine) && |es| == |mine|
    requires forall i :: 0 <= i < |to.bots| ==> to.bots[i].key.ownerId != newOwner
    requires forall i :: 0 <= i < |mine| ==> mine[i].key.ownerId == owner && T.Position(accounts, mine[i].key.accountId) < |accounts|
    requires forall i :: 0 <= i < |mine| ==>
               es[i].key == BotKey(newOwner, to.nextAccount + T.Position(accounts, mine[i].key.accountId), mine[i].key.name)
    ensures forall m, n :: 0 <= m < n < |es| ==> es[m].key != es[n].key
    ensures forall i, n :: 0 <= i < |to.bots| && 0 <= n < |es| ==> to.bots[i].key != es[n].key
  {
    hide T.Position;
    forall m, n | 0 <= m < n < |es| ensures es[m].key != es[n].key {
      assert mine[m].key != mine[n].key;
      if mine[m].key.accountId != mine[n].key.accountId {
        PositionsDiffer(accounts, mine[m].key.accountId, mine[n].key.accountId);
      }
    }
  }

  lemma ScriptKeysAreNew(mine: seq<Script>, bots: seq<Bot>, to: Database, es: seq<T.Entry<ScriptKey, Field, Value>>)
    requires DistinctKeys(mine) && |es| == |mine|
    requires forall i :: 0 <= i < |to.scripts| ==> to.scripts[i].key.botId < to.nextBot
    requires forall i :: 0 <= i < |mine| ==> T.Position(bots, mine[i].key.botId) < |bots|
    requires forall i :: 0 <= i < |mine| ==>
               es[i].key == ScriptKey(to.nextBot + T.Position(bots, mine[i].key.botId), mine[i].key.name)
    ensures forall m, n :: 0 <= m < n < |es| ==> es[m].key != es[n].key
    ensures forall i, n :: 0 <= i < |to.scripts| && 0 <= n < |es| ==> to.scripts[i].key != es[n].key
  {
    hide T.Position;
    forall m, n | 0 <= m < n < |es| ensures es[m].key != es[n].key {
      assert mine[m].key != mine[n].key;
      if mine[m].key.botId != mine[n].key.botId {
        PositionsDiffer(bots, mine[m].key.botId, mine[n].key.botId);
      }
    }
  }

  lemma BotsRoundTrip(mine: seq<Bot>, owner: Name, accounts: seq<Account>, to: Database, newOwner: Name,
                      ids: seq<nat>, newAccounts: seq<Account>)
    requires DistinctKeys(mine) && EmptyFor(to, newOwner)
    requires forall i :: 0 <= i < |mine| ==> mine[i].key.ownerId == owner && T.Position(accounts, mine[i].key.accountId) < |accounts|
    requires ids == seq(|accounts|, i => to.nextAccount + i)
    requires Numbered(newAccounts, to.nextAccount, |accounts|)
    ensures var found := BotEntries(newOwner, ExportBots(mine, accounts, true, c => c), ids);
            && found.Some? && |found.value| == |mine|
            && var rows := T.NewRows(to.nextBot, found.value);
            && T.UpsertAll(to.bots, to.nextBot, found.value)
               == T.Pass(to.bots + rows, to.nextBot + |mine|, seq(|mine|, i => to.nextBot + i), |mine|)
            && MyBots(to.bots + rows, newOwner) == rows
            && BotsSay(rows, newAccounts) == BotsSay(mine, accounts)
  {
    hide MyBots, T.Position, BotEntries, T.UpsertAll, Resolve, BotsSay, BotSays, ExportBot, Numbered, T.NewRows;
    BotEntriesOfExport(mine, accounts, newOwner, ids, to.nextAccount);
    var es := BotEntries(newOwner, ExportBots(mine, accounts, true, c => c), ids).value;
    BotKeysAreNew(mine, owner, accounts, to, newOwner, es);
    T.AllNew(to.bots, to.nextBot, es);
    OnlyNewBotsAreMine(to.bots, newOwner, to.nextBot, es);
    BotsAreRebuilt(mine, accounts, newOwner, to.nextBot, to.nextAccount, newAccounts, es);
  }

  lemma OnlyNewBotsAreMine(rows: seq<Bot>, owner: Name, nextId: nat, es: seq<T.Entry<BotKey, Field, Value>>)
    requires forall i :: 0 <= i < |rows| ==> rows[i].key.ownerId != owner
    requires forall i :: 0 <= i < |es| ==> es[i].key.ownerId == owner
    ensures MyBots(rows + T.NewRows(nextId, es), owner) == T.NewRows(nextId, es)
  {
    hide T.Select;
    OnlyNewRows(rows, T.NewRows(nextId, es), BotOf(owner));
  }

  lemma BotsAreRebuilt(mine: seq<Bot>, accounts: seq<Account>, newOwner: Name, nextId: nat, nextAccount: nat,
                       newAccounts: seq<Account>, es: seq<T.Entry<BotKey, Field, Value>>)
    requires Numbered(newAccounts, nextAccount, |accounts|) && |es| == |mine|
    requires forall i :: 0 <= i < |mine| ==>
               && T.Position(accounts, mine[i].key.accountId) < |accounts|
               && es[i] == BotEntry(newOwner, nextAccount + T.Position(accounts, mine[i].key.accountId),
                                    ExportBot(mine[i], accounts, true, c => c))
    ensures BotsSay(T.NewRows(nextId, es), newAccounts) == BotsSay(mine, accounts)
  {
    hide T.Position, BotSays, ExportBot, Numbered, BotEntry;
    var rows := T.NewRows(nextId, es);
    forall i | 0 <= i < |mine| ensures BotSays(rows[i], newAccounts) == BotSays(mine[i], accounts) {
      BotIsRebuilt(mine[i], accounts, newOwner, nextId + i, nextAccount, newAccounts);
    }
  }

  lemma ScriptEntriesOfExport(mine: seq<Script>, bots: seq<Bot>, ids: seq<nat>, nextBot: nat)
    requires forall i :: 0 <= i < |mine| ==> T.Position(bots, mine[i].key.botId) < |bots|
    requires ids == seq(|bots|, i => nextBot + i)
    ensures var es := ScriptEntries(ExportScripts(mine, bots), ids);
            && es.Some? && |es.value| == |mine|
            && forall i :: 0 <= i < |mine| ==>
                 && es.value[i] == ScriptEntry(nextBot + T.Position(bots, mine[i].key.botId), ExportScript(mine[i], bots))
                 && es.value[i].key == ScriptKey(nextBot + T.Position(bots, mine[i].key.botId), mine[i].key.name)
  {
    hide T.Position, ScriptEntries, Resolve;
    var scripts := ExportScripts(mine, bots);
    ScriptEntriesAre(scripts, ids);
    forall i | 0 <= i < |mine|
      ensures Resolve(ids, scripts[i].botRef) == Some(nextBot + T.Position(bots, mine[i].key.botId))
    {
      ResolvesToPosition(bots, mine[i].key.botId, ids, nextBot);
    }
  }

  lemma ScriptsRoundTrip(mine: seq<Script>, bots: seq<Bot>, to: Database, newOwner: Name, ids: seq<nat>, newBots: seq<Bot>)
    requires DistinctKeys(mine) && EmptyFor(to, newOwner)
    requires forall i :: 0 <= i < |mine| ==> T.Position(bots, mine[i].key.botId) < |bots|
    requires ids == seq(|bots|, i => to.nextBot + i)
    requires Numbered(newBots, to.nextBot, |bots|)
    ensures var found := ScriptEntries(ExportScripts(mine, bots), ids);
            && found.Some? && |found.value| == |mine|
            && var rows := T.NewRows(to.nextScript, found.value);
            && T.UpsertAll(to.scripts, to.nextScript, found.value)
               == T.Pass(to.scripts + rows, to.nextScript + |mine|, seq(|mine|, i => to.nextScript + i), |mine|)
            && ScriptsOf(to.scripts + rows, newBots) == rows
            && ScriptsSay(rows, newBots) == ScriptsSay(mine, bots)
  {
    hide ScriptsOf, T.Position, ScriptEntries, T.UpsertAll, Resolve, ScriptsSay, ScriptSays, ExportScript, Numbered, T.NewRows;
    ScriptEntriesOfExport(mine, bots, ids, to.nextBot);
    var es := ScriptEntries(ExportScripts(mine, bots), ids).value;
    ScriptKeysAreNew(mine, bots, to, es);
    T.AllNew(to.scripts, to.nextScript, es);
    OnlyNewScriptsAreOf(to.scripts, newBots, to.nextBot, |bots|, to.nextScript, es);
    ScriptsAreRebuilt(mine, bots, to.nextScript, to.nextBot, newBots, es);
  }

  lemma OnlyNewScriptsAreOf(rows: seq<Script>, bots: seq<Bot>, nextBot: nat, n: nat, nextId: nat, es: seq<T.Entry<ScriptKey, Field, Value>>)
    requires Numbered(bots, nextBot, n)
    requires forall i :: 0 <= i < |rows| ==> rows[i].key.botId < nextBot
    requires forall i :: 0 <= i < |es| ==> nextBot <= es[i].key.botId < nextBot + n
    ensures ScriptsOf(rows + T.NewRows(nextId, es), bots) == T.NewRows(nextId, es)
  {
    hide T.Select, T.Position;
    OnlyNewRows(rows, T.NewRows(nextId, es), ScriptOf(bots));
  }

  lemma ScriptsAreRebuilt(mine: seq<Script>, bots: seq<Bot>, nextId: nat, nextBot: nat, newBots: seq<Bot>,
                          es: seq<T.Entry<ScriptKey, Field, Value>>)
    requires Numbered(newBots, nextBot, |bots|) && |es| == |mine|
    requires forall i :: 0 <= i < |mine| ==>
               && T.Position(bots, mine[i].key.botId) < |bots|
               && es[i] == ScriptEntry(nextBot + T.Position(bots, mine[i].key.botId), ExportScript(mine[i], bots))
    ensures ScriptsSay(T.NewRows(nextId, es), newBots) == ScriptsSay(mine, bots)
  {
    hide T.Position, ScriptSays, ExportScript, Numbered, ScriptEntry;
    var rows := T.NewRows(nextId, es);
    forall i | 0 <= i < |mine| ensures ScriptSays(rows[i], newBots) == ScriptSays(mine[i], bots) {
      ScriptIsRebuilt(mine[i], bots, nextId + i, nextBot, newBots);
    }
  }

  /** The three passes of an import, put together. */
  lemma ImportIs(to: Database, owner: Name, p: Payload, v: Vault, iv: int,
                 accounts: T.Pass<AccountKey, Field, Value>, bots: T.Pass<BotKey, Field, Value>, scripts: T.Pass<ScriptKey, Field, Value>)
    requires T.UpsertAll(to.accounts, to.nextAccount, AccountEntries(owner, v, p.accounts, iv)) == accounts
    requires BotEntries(owner, p.bots, accounts.ids).Some?
    requires T.UpsertAll(to.bots, to.nextBot, BotEntries(owner, p.bots, accounts.ids).value) == bots
    requires ScriptEntries(p.scripts, bots.ids).Some?
    requires T.UpsertAll(to.scripts, to.nextScript, ScriptEntries(p.scripts, bots.ids).value) == scripts
    ensures Import(to, owner, p, v, iv)
            == Committed(Database(accounts.rows, bots.rows, scripts.rows, accounts.nextId, bots.nextId, scripts.nextId),
                         Stats(accounts.created, bots.created, scripts.created), accounts.ids, bots.ids)
  {
  }

  lemma ContentsAre(db: Database, owner: Name, v: Vault, accounts: seq<Account>, bots: seq<Bot>, scripts: seq<Script>)
    requires MyAccounts(db.accounts, owner) == accounts && MyBots(db.bots, owner) == bots && ScriptsOf(db.scripts, bots) == scripts
    ensures ContentsOf(db, owner, v) == Contents(AccountsSay(accounts, v), BotsSay(bots, accounts), ScriptsSay(scripts, bots))
  {
  }

  /** The validation accepts an export exactly when the stored rows fit and every bot is linked to
      an account that was exported with it. */
  lemma ExportIsAcceptableIff(db: Database, owner: Name, s: Schemas)
    ensures var accounts, bots := MyAccounts(db.accounts, owner), MyBots(db.bots, owner);
            Acceptable(Export(db, owner, true, c => c), s)
            <==> RowsFit(accounts, bots, ScriptsOf(db.scripts, bots), s)
                 && forall i :: 0 <= i < |bots| ==> T.Position(accounts, bots[i].key.accountId) < |accounts|
  {
    hide MyAccounts, MyBots, ScriptsOf, T.Position, NameFits;
    var p := Export(db, owner, true, c => c);
    var accounts, bots := MyAccounts(db.accounts, owner), MyBots(db.bots, owner);
    var scripts := ScriptsOf(db.scripts, bots);
    ScriptsAreMine(db.scripts, bots);
    forall i | 0 <= i < |accounts| ensures AccountFits(p.accounts[i]) <==> NameFits(accounts[i].key.name) {}
    forall i | 0 <= i < |bots|
      ensures BotFits(p.bots[i], |accounts|, s) <==>
              BotRowFits(bots[i], s) && T.Position(accounts, bots[i].key.accountId) < |accounts| {}
    forall i | 0 <= i < |scripts| ensures ScriptFits(p.scripts[i], |bots|, s) <==> ScriptRowFits(scripts[i], s) {}
  }

  /** Exporting an owner's rows with credentials and importing them for an owner who has nothing
      is accepted, creates every row, and rebuilds the same accounts, bots and scripts with the
      same links, up to ids and re-encryption. */
  lemma ExportThenImport(db: Database, owner: Name, to: Database, newOwner: Name, s: Schemas, v: Vault, iv: int)
    requires Keeps(v) && Exportable(db, owner, s) && EmptyFor(to, newOwner)
    ensures var p := Export(db, owner, true, c => c);
            var out := Import(to, newOwner, p, v, iv);
            && Acceptable(p, s) && out.Committed?
            && out.created == Stats(|p.accounts|, |p.bots|, |p.scripts|)
            && ContentsOf(out.db, newOwner, v) == ContentsOf(db, owner, v)
  {
    hide MyAccounts, MyBots, ScriptsOf, T.Position, T.UpsertAll, BotEntries, ScriptEntries, AccountEntries, Acceptable, Import,
         ContentsOf, AccountsSay, BotsSay, ScriptsSay, Numbered, CredentialsTyped, EmptyFor, Keeps, T.NewRows, RowsFit;
    var p := Export(db, owner, true, c => c);
    var accounts, bots := MyAccounts(db.accounts, owner), MyBots(db.bots, owner);
    var scripts := ScriptsOf(db.scripts, bots);
    AccountsAreMine(db.accounts, owner);
    BotsAreMine(db.bots, owner);
    ScriptsAreMine(db.scripts, bots);
    ExportIsAcceptableIff(db, owner, s);

    AccountsRoundTrip(accounts, owner, to, newOwner, v, iv);
    var accountEntries := AccountEntries(newOwner, v, p.accounts, iv);
    var newAccounts := T.NewRows(to.nextAccount, accountEntries);
    var accountIds: seq<nat> := seq(|accounts|, i => to.nextAccount + i);
    NewRowsAreNumbered(to.nextAccount, accountEntries);

    BotsRoundTrip(bots, owner, accounts, to, newOwner, accountIds, newAccounts);
    var botEntries := BotEntries(newOwner, p.bots, accountIds).value;
    var newBots := T.NewRows(to.nextBot, botEntries);
    var botIds: seq<nat> := seq(|bots|, i => to.nextBot + i);
    NewRowsAreNumbered(to.nextBot, botEntries);

    ScriptsRoundTrip(scripts, bots, to, newOwner, botIds, newBots);
    var newScripts := T.NewRows(to.nextScript, ScriptEntries(p.scripts, botIds).value);
    ImportIs(to, newOwner, p, v, iv,
             T.Pass(to.accounts + newAccounts, to.nextAccount + |accounts|, accountIds, |accounts|),
             T.Pass(to.bots + newBots, to.nextBot + |bots|, botIds, |bots|),
             T.Pass(to.scripts + newScripts, to.nextScript + |scripts|, seq(|scripts|, i => to.nextScript + i), |scripts|));
    ContentsAre(Import(to, newOwner, p, v, iv).db, newOwner, v, newAccounts, newBots, newScripts);
    ContentsAre(db, owner, v, accounts, bots, scripts);
  }

  // ---- Backups without credentials ----

  lemma {:induction false} SelectAligned<A(!new)>(xs: seq<A>, ys: seq<A>, p: A -> bool, alike: (A, A) -> bool)
    requires |xs| == |ys| && forall i :: 0 <= i < |xs| ==> alike(xs[i], ys[i])
    requires forall x, y :: alike(x, y) ==> p(x) == p(y)
    ensures var a, b := T.Select(xs, p), T.Select(ys, p);
            |a| == |b| && forall i :: 0 <= i < |a| ==> alike(a[i], b[i])
  {
    if xs != [] { SelectAligned(xs[..|xs| - 1], ys[..|ys| - 1], p, alike); }
  }

  lemma PositionAligned<K, F, V>(xs: seq<T.Row<K, F, V>>, ys: seq<T.Row<K, F, V>>, id: nat)
    requires |xs| == |ys| && forall i :: 0 <= i < |xs| ==> xs[i].id == ys[i].id
    ensures T.Position(xs, id) == T.Position(ys, id)
  {
  }

  predicate SameAccount(r: Account, s: Account) {
    r.id == s.id && r.key == s.key
  }

  /** Bots whose configs the mask does not tell apart. */
  predicate SameMasked(r: Bot, s: Bot, mask: Config -> Config) {
    && r.id == s.id && r.key == s.key
    && NameOf(FieldOf(r.fields, Platform)) == NameOf(FieldOf(s.fields, Platform))
    && mask(SettingsOf(FieldOf(r.fields, Settings))) == mask(SettingsOf(FieldOf(s.fields, Settings)))
  }

  /** An export without credentials depends on no credential at all and on no part of a bot config
      that the mask removes: databases that differ in these alone have the same export. */
  lemma NothingRevealed(db: Database, other: Database, owner: Name, mask: Config -> Config)
    requires |db.accounts| == |other.accounts| && |db.bots| == |other.bots| && db.scripts == other.scripts
    requires forall i :: 0 <= i < |db.accounts| ==> SameAccount(db.accounts[i], other.accounts[i])
    requires forall i :: 0 <= i < |db.bots| ==> SameMasked(db.bots[i], other.bots[i], mask)
    ensures Export(db, owner, false, mask) == Export(other, owner, false, mask)
  {
    hide T.Position, T.Select;
    var masked := (r: Bot, s: Bot) => SameMasked(r, s, mask);
    SelectAligned(db.accounts, other.accounts, AccountOf(owner), SameAccount);
    SelectAligned(db.bots, other.bots, BotOf(owner), masked);
    var accounts, accounts' := MyAccounts(db.accounts, owner), MyAccounts(other.accounts, owner);
    var bots, bots' := MyBots(db.bots, owner), MyBots(other.bots, owner);
    SameExport(accounts, accounts', bots, bots', mask);
    forall i | 0 <= i < |bots| ensures bots[i].id == bots'[i].id { assert masked(bots[i], bots'[i]); }
    SelectSame(db.scripts, bots, bots');
    var scripts := ScriptsOf(db.scripts, bots);
    forall i | 0 <= i < |scripts| ensures ExportScript(scripts[i], bots) == ExportScript(scripts[i], bots') {
      PositionAligned(bots, bots', scripts[i].key.botId);
    }
  }

  lemma SameExport(accounts: seq<Account>, accounts': seq<Account>, bots: seq<Bot>, bots': seq<Bot>, mask: Config -> Config)
    requires |accounts| == |accounts'| && forall i :: 0 <= i < |accounts| ==> SameAccount(accounts[i], accounts'[i])
    requires |bots| == |bots'| && forall i :: 0 <= i < |bots| ==> SameMasked(bots[i], bots'[i], mask)
    ensures ExportAccounts(accounts, false) == ExportAccounts(accounts', false)
    ensures ExportBots(bots, accounts, false, mask) == ExportBots(bots', accounts', false, mask)
  {
    hide T.Position, FieldOf, NameOf, SettingsOf;
    forall i | 0 <= i < |bots|
      ensures ExportBot(bots[i], accounts, false, mask) == ExportBot(bots'[i], accounts', false, mask)
    {
      PositionAligned(accounts, accounts', bots[i].key.accountId);
    }
  }

  lemma {:induction false} SelectSame(scripts: seq<Script>, bots: seq<Bot>, bots': seq<Bot>)
    requires |bots| == |bots'| && forall i :: 0 <= i < |bots| ==> bots[i].id == bots'[i].id
    ensures ScriptsOf(scripts, bots) == ScriptsOf(scripts, bots')
  {
    hide T.Position;
    if scripts != [] {
      SelectSame(scripts[..|scripts| - 1], bots, bots');
      PositionAligned(bots, bots', scripts[|scripts| - 1].key.botId);
    }
  }

  /** A backup exported without credentials cannot wipe any: importing it where its accounts
      already exist changes no account, whatever the masking does to bot configs. */
  lemma StrippedImportKeepsCredentials(db: Database, owner: Name, to: Database, newOwner: Name, mask: Config -> Config, v: Vault, iv: int)
    requires forall r :: r in MyAccounts(db.accounts, owner) ==>
               T.Find(to.accounts, AccountKey(newOwner, r.key.platform, r.key.name)) < |to.accounts|
    ensures var out := Import(to, newOwner, Export(db, owner, false, mask), v, iv);
            out.Committed? ==> out.db.accounts == to.accounts
  {
    hide T.Find, MyAccounts, TextsData;
    var mine := MyAccounts(db.accounts, owner);
    var es := AccountEntries(newOwner, v, ExportAccounts(mine, false), iv);
    forall n | 0 <= n < |es| ensures T.Find(to.accounts, es[n].key) < |to.accounts| && es[n].data == map[] {
      StrippedEntry(mine[n], newOwner, v, iv);
      assert mine[n] in mine;
    }
    T.SecondPass(to.accounts, to.nextAccount, es);
    forall i | 0 <= i < |to.accounts| ensures T.PatchedRow(to.accounts, es, i) == to.accounts[i] {
      NothingMerged(es, to.accounts[i].key);
      assert to.accounts[i].fields + map[] == to.accounts[i].fields;
    }
    assert T.UpsertAll(to.accounts, to.nextAccount, es).rows == to.accounts;
  }

  lemma StrippedEntry(r: Account, newOwner: Name, v: Vault, iv: int)
    ensures var e := AccountEntry(newOwner, v, ExportAccount(r, false), iv);
            e.key == AccountKey(newOwner, r.key.platform, r.key.name) && e.data == map[]
  {
    assert TextsData(v, ExportAccount(r, false), iv) == map[];
  }

  lemma {:induction false} NothingMerged(es: seq<T.Entry<AccountKey, Field, Value>>, key: AccountKey)
    requires forall i :: 0 <= i < |es| ==> es[i].data == map[]
    ensures T.Merged(es, key) == map[]
  {
    if es != [] { NothingMerged(es[..|es| - 1], key); }
  }
}
