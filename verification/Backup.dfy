/** Backup export and import (packages/api/src/routes/backup.ts). Tables keep their rows in
    creation order; JSON configs are opaque, as are the schemas that check them. */
module Backup {
  import opened Common
  import T = Tables
  import C = CredentialCipher

  const MAX_ACCOUNTS := 1000
  const MAX_BOTS := 5000
  const MAX_SCRIPTS := 5000
  const MAX_NAME_LENGTH := 100

  datatype Name = Name(text: string)

  datatype Config = Config(json: string)

  const EMPTY := Config("{}")

  datatype Field =
    | Token | ClientId | Secret | RefreshToken | ApiKey | ApiSecret | ApiKeys
    | Platform | Settings | Trigger | Enabled

  const TEXT_FIELDS := {Token, ClientId, Secret, RefreshToken, ApiKey, ApiSecret}
  const CREDENTIALS := TEXT_FIELDS + {ApiKeys}

  datatype Pair = Pair(apiKey: string, apiSecret: string)

  datatype Value = Null | Text(text: string) | Pool(pairs: seq<Pair>) | Json(config: Config) | Called(name: Name) | Flag(on: bool)

  datatype AccountKey = AccountKey(ownerId: Name, platform: Name, name: Name)
  datatype BotKey = BotKey(ownerId: Name, accountId: nat, name: Name)
  datatype ScriptKey = ScriptKey(botId: nat, name: Name)

  type Account = T.Row<AccountKey, Field, Value>
  type Bot = T.Row<BotKey, Field, Value>
  type Script = T.Row<ScriptKey, Field, Value>

  datatype Database = Database(accounts: seq<Account>, bots: seq<Bot>, scripts: seq<Script>,
                               nextAccount: nat, nextBot: nat, nextScript: nat)

  // ---- The payload ----

  datatype PoolField = Absent | NullPool | Malformed | Pairs(pairs: seq<Pair>)

  /** `texts` holds the credential fields the payload mentions, None for an explicit null. */
  datatype ImportAccount = ImportAccount(name: Name, platform: Name, texts: map<Field, Option<string>>, pool: PoolField)

  /** References are any numbers; None when the field is missing or not a number. */
  datatype ImportBot = ImportBot(name: Name, platform: Name, accountRef: Option<real>, config: Option<Config>)

  datatype ImportScript = ImportScript(botRef: Option<real>, name: Name, trigger: Name, config: Option<Config>, enabled: Option<bool>)

  datatype Payload = Payload(version: Option<int>, accounts: seq<ImportAccount>, bots: seq<ImportBot>, scripts: seq<ImportScript>)

  datatype Schemas = Schemas(botConfig: Config -> bool, trigger: Name -> bool, scriptConfig: Config -> bool)

  predicate NameFits(n: Name) {
    0 < |n.text| <= MAX_NAME_LENGTH
  }

  predicate RefFits(ref: Option<real>, n: nat) {
    ref.Some? && 0.0 <= ref.value < n as real
  }

  predicate AccountFits(a: ImportAccount) {
    NameFits(a.name) && a.pool != Malformed
  }

  predicate BotFits(b: ImportBot, accounts: nat, s: Schemas) {
    NameFits(b.name) && RefFits(b.accountRef, accounts) && (b.config.Some? ==> s.botConfig(b.config.value))
  }

  function ConfigOf(c: Option<Config>): Config {
    if c.Some? then c.value else EMPTY
  }

  predicate ScriptFits(c: ImportScript, bots: nat, s: Schemas) {
    NameFits(c.name) && RefFits(c.botRef, bots) && s.trigger(c.trigger) && s.scriptConfig(ConfigOf(c.config))
  }

  predicate Acceptable(p: Payload, s: Schemas) {
    && (p.version.Some? ==> p.version.value == 1)
    && |p.accounts| <= MAX_ACCOUNTS && |p.bots| <= MAX_BOTS && |p.scripts| <= MAX_SCRIPTS
    && (forall i :: 0 <= i < |p.accounts| ==> AccountFits(p.accounts[i]))
    && (forall i :: 0 <= i < |p.bots| ==> BotFits(p.bots[i], |p.accounts|, s))
    && (forall i :: 0 <= i < |p.scripts| ==> ScriptFits(p.scripts[i], |p.bots|, s))
  }

  /** A payload is refused for exactly these reasons: another version than 1, too many entries, a
      name that is empty or too long, a malformed key pool, a reference that is missing or out of
      range, a config or trigger its schema refuses. */
  method ValidateImport(p: Payload, s: Schemas) returns (ok: bool)
    ensures ok == Acceptable(p, s)
    ensures !ok <==>
      || (p.version.Some? && p.version != Some(1))
      || |p.accounts| > 1000 || |p.bots| > 5000 || |p.scripts| > 5000
      || (exists a :: a in p.accounts && (a.name.text == "" || |a.name.text| > 100 || a.pool.Malformed?))
      || (exists b :: b in p.bots && (|| b.name.text == "" || |b.name.text| > 100
                                      || b.accountRef == None || b.accountRef.value < 0.0 || b.accountRef.value >= |p.accounts| as real
                                      || (b.config.Some? && !s.botConfig(b.config.value))))
      || (exists c :: c in p.scripts && (|| c.name.text == "" || |c.name.text| > 100
                                         || c.botRef == None || c.botRef.value < 0.0 || c.botRef.value >= |p.bots| as real
                                         || !s.trigger(c.trigger)
                                         || !s.scriptConfig(if c.config.Some? then c.config.value else Config("{}"))))
  {
    if p.version.Some? && p.version.value != 1 { return false; }
    if |p.accounts| > MAX_ACCOUNTS || |p.bots| > MAX_BOTS || |p.scripts| > MAX_SCRIPTS { return false; }
    for i := 0 to |p.accounts|
      invariant forall j :: 0 <= j < i ==> AccountFits(p.accounts[j])
    {
      if !AccountFits(p.accounts[i]) { return false; }
    }
    for i := 0 to |p.bots|
      invariant forall j :: 0 <= j < i ==> BotFits(p.bots[j], |p.accounts|, s)
    {
      if !BotFits(p.bots[i], |p.accounts|, s) { return false; }
    }
    for i := 0 to |p.scripts|
      invariant forall j :: 0 <= j < i ==> ScriptFits(p.scripts[j], |p.bots|, s)
    {
      if !ScriptFits(p.scripts[i], |p.bots|, s) { return false; }
    }
    return true;
  }

  // ---- Credentials ----

  /** ensureEncrypted on a non-empty value, and decryption. */
  datatype Vault = Vault(seal: (string, int) -> string, open: string -> Option<string>)

  ghost predicate Keeps(v: Vault) {
    && v.open("") == None
    && forall s, iv :: s != "" ==> v.seal(s, iv) != "" && v.open(v.seal(s, iv)) == v.open(s)
  }

  function VaultOf(r: C.Registry, aes: C.Aes): Vault {
    Vault((s, iv) => if C.ENC_PREFIX <= s then s else C.Sealed(r.version, aes.encrypt(s, r.key, iv)),
          s => C.DecryptCredential(r, aes, Some(s)))
  }

  /** The credential cipher is such a vault. */
  lemma TheCipherKeeps(r: C.Registry, production: bool, aes: C.Aes)
    requires C.Sound(aes) && C.Usable(r)
    ensures Keeps(VaultOf(r, aes))
    ensures forall s, iv :: s != "" ==> C.EnsureEncrypted(r, production, aes, Some(s), iv) == C.Ok(Some(VaultOf(r, aes).seal(s, iv)))
  {
    var v := VaultOf(r, aes);
    forall s, iv | s != ""
      ensures v.seal(s, iv) != "" && v.open(v.seal(s, iv)) == v.open(s)
              && C.EnsureEncrypted(r, production, aes, Some(s), iv) == C.Ok(Some(v.seal(s, iv)))
    {
      if !(C.ENC_PREFIX <= s) { C.EnsureEncryptedKeepsPlaintext(r, production, aes, s, iv); }
    }
  }

  function SealText(v: Vault, t: Option<string>, iv: int): Value {
    if t == None || t.value == "" then Null else Text(v.seal(t.value, iv))
  }

  /** The pairs with both parts present, each part put through f. */
  function EachPair(pairs: seq<Pair>, f: string -> string): seq<Pair> {
    if pairs == [] then []
    else
      var rest, p := EachPair(pairs[..|pairs| - 1], f), pairs[|pairs| - 1];
      if p.apiKey != "" && p.apiSecret != "" then rest + [Pair(f(p.apiKey), f(p.apiSecret))] else rest
  }

  function SealPool(v: Vault, p: PoolField, iv: int): map<Field, Value> {
    match p
    case Absent => map[]
    case Malformed => map[]
    case NullPool => map[ApiKeys := Null]
    case Pairs(pairs) => map[ApiKeys := Pool(EachPair(pairs, s => v.seal(s, iv)))]
  }

  function TextsData(v: Vault, a: ImportAccount, iv: int): map<Field, Value> {
    map f | f in a.texts && f in TEXT_FIELDS :: SealText(v, a.texts[f], iv)
  }

  function CredentialsData(v: Vault, a: ImportAccount, iv: int): map<Field, Value> {
    TextsData(v, a, iv) + SealPool(v, a.pool, iv)
  }

  /** What a stored value says once decrypted. */
  function Opened(v: Vault, s: string): string {
    if v.open(s).Some? then v.open(s).value else ""
  }

  function Read(v: Vault, x: Value): Value {
    match x
    case Text(s) => if v.open(s).Some? then Text(v.open(s).value) else Null
    case Pool(pairs) => Pool(EachPair(pairs, s => Opened(v, s)))
    case _ => x
  }

  // ---- Import ----

  function NullFields(fields: set<Field>): map<Field, Value> {
    map f | f in fields :: Null
  }

  function AccountEntry(owner: Name, v: Vault, a: ImportAccount, iv: int): T.Entry<AccountKey, Field, Value> {
    T.Entry(AccountKey(owner, a.platform, a.name), NullFields(CREDENTIALS), CredentialsData(v, a, iv))
  }

  function AccountEntries(owner: Name, v: Vault, accounts: seq<ImportAccount>, iv: int): seq<T.Entry<AccountKey, Field, Value>> {
    seq(|accounts|, i requires 0 <= i < |accounts| => AccountEntry(owner, v, accounts[i], iv))
  }

  /** The id behind a reference: JavaScript indexing finds it only for an integer in range. */
  function Resolve(ids: seq<nat>, ref: Option<real>): Option<nat> {
    if ref.Some? && ref.value == ref.value.Floor as real && 0 <= ref.value.Floor < |ids|
    then Some(ids[ref.value.Floor]) else None
  }

  function BotEntry(owner: Name, accountId: nat, b: ImportBot): T.Entry<BotKey, Field, Value> {
    T.Entry(BotKey(owner, accountId, b.name), map[Platform := Called(b.platform)], map[Settings := Json(ConfigOf(b.config))])
  }

  /** One entry a bot; None when some account reference does not resolve. */
  function BotEntries(owner: Name, bots: seq<ImportBot>, ids: seq<nat>): Option<seq<T.Entry<BotKey, Field, Value>>> {
    if bots == [] then Some([])
    else
      var b, rest := bots[|bots| - 1], BotEntries(owner, bots[..|bots| - 1], ids);
      var id := Resolve(ids, b.accountRef);
      if rest == None || id == None then None else Some(rest.value + [BotEntry(owner, id.value, b)])
  }

  function ScriptEntry(botId: nat, s: ImportScript): T.Entry<ScriptKey, Field, Value> {
    T.Entry(ScriptKey(botId, s.name), map[],
            map[Trigger := Called(s.trigger), Settings := Json(ConfigOf(s.config)),
                Enabled := Flag(if s.enabled.Some? then s.enabled.value else true)])
  }

  function ScriptEntries(scripts: seq<ImportScript>, ids: seq<nat>): Option<seq<T.Entry<ScriptKey, Field, Value>>> {
    if scripts == [] then Some([])
    else
      var s, rest := scripts[|scripts| - 1], ScriptEntries(scripts[..|scripts| - 1], ids);
      var id := Resolve(ids, s.botRef);
      if rest == None || id == None then None else Some(rest.value + [ScriptEntry(id.value, s)])
  }

  datatype Stats = Stats(accounts: nat, bots: nat, scripts: nat)

  /** Rows created by each table's pass, and the database the transaction commits. */
  datatype Outcome = Unresolved | Committed(db: Database, created: Stats, accountIds: seq<nat>, botIds: seq<nat>)

  function Import(db: Database, owner: Name, p: Payload, v: Vault, iv: int): Outcome {
    var accounts := T.UpsertAll(db.accounts, db.nextAccount, AccountEntries(owner, v, p.accounts, iv));
    var botEntries := BotEntries(owner, p.bots, accounts.ids);
    if botEntries == None then Unresolved
    else
      var bots := T.UpsertAll(db.bots, db.nextBot, botEntries.value);
      var scriptEntries := ScriptEntries(p.scripts, bots.ids);
      if scriptEntries == None then Unresolved
      else
        var scripts := T.UpsertAll(db.scripts, db.nextScript, scriptEntries.value);
        Committed(Database(accounts.rows, bots.rows, scripts.rows, accounts.nextId, bots.nextId, scripts.nextId),
                  Stats(accounts.created, bots.created, scripts.created), accounts.ids, bots.ids)
  }

  datatype Response = ValidationError | ReferenceError | Imported(created: Stats, updated: Stats)

  class Api {
    var db: Database

    constructor (db: Database)
      ensures this.db == db
    {
      this.db := db;
    }

    /** POST /import: one transaction, so the database changes only when everything resolved. */
    method PostImport(owner: Name, p: Payload, s: Schemas, v: Vault, iv: int) returns (r: Response)
      modifies this
      ensures r == ValidationError <==> !Acceptable(p, s)
      ensures r == ReferenceError <==> Acceptable(p, s) && Import(old(db), owner, p, v, iv) == Unresolved
      ensures r.Imported? ==>
                var out := Import(old(db), owner, p, v, iv);
                && db == out.db && r.created == out.created
                && r.updated.accounts == |p.accounts| - r.created.accounts
                && r.updated.bots == |p.bots| - r.created.bots
                && r.updated.scripts == |p.scripts| - r.created.scripts
      ensures !r.Imported? ==> db == old(db)
    {
      hide T.UpsertAll, BotEntries, ScriptEntries, Acceptable;
      var ok := ValidateImport(p, s);
      if !ok { return ValidationError; }
      var accounts := T.Upsert(db.accounts, db.nextAccount, AccountEntries(owner, v, p.accounts, iv));
      var botEntries := BotEntries(owner, p.bots, accounts.ids);
      if botEntries == None { return ReferenceError; }
      var bots := T.Upsert(db.bots, db.nextBot, botEntries.value);
      var scriptEntries := ScriptEntries(p.scripts, bots.ids);
      if scriptEntries == None { return ReferenceError; }
      var scripts := T.Upsert(db.scripts, db.nextScript, scriptEntries.value);
      T.PassShape(db.accounts, db.nextAccount, AccountEntries(owner, v, p.accounts, iv));
      T.PassShape(db.bots, db.nextBot, botEntries.value);
      T.PassShape(db.scripts, db.nextScript, scriptEntries.value);
      EntryCounts(owner, p, accounts.ids, bots.ids);
      r := Imported(Stats(accounts.created, bots.created, scripts.created),
                    Stats(|p.accounts| - accounts.created, |p.bots| - bots.created, |p.scripts| - scripts.created));
      db := Database(accounts.rows, bots.rows, scripts.rows, accounts.nextId, bots.nextId, scripts.nextId);
    }
  }

  lemma EntryCounts(owner: Name, p: Payload, accountIds: seq<nat>, botIds: seq<nat>)
    ensures BotEntries(owner, p.bots, accountIds).Some? ==> |BotEntries(owner, p.bots, accountIds).value| == |p.bots|
    ensures ScriptEntries(p.scripts, botIds).Some? ==> |ScriptEntries(p.scripts, botIds).value| == |p.scripts|
  {
    BotEntriesAre(owner, p.bots, accountIds);
    ScriptEntriesAre(p.scripts, botIds);
  }

  lemma {:induction false} BotEntriesAre(owner: Name, bots: seq<ImportBot>, ids: seq<nat>)
    ensures BotEntries(owner, bots, ids).Some? <==> forall i :: 0 <= i < |bots| ==> Resolve(ids, bots[i].accountRef).Some?
    ensures var es := BotEntries(owner, bots, ids);
            es.Some? ==> |es.value| == |bots|
                         && forall i :: 0 <= i < |bots| ==>
                              es.value[i] == BotEntry(owner, Resolve(ids, bots[i].accountRef).value, bots[i])
  {
    if bots != [] { BotEntriesAre(owner, bots[..|bots| - 1], ids); }
  }

  lemma {:induction false} ScriptEntriesAre(scripts: seq<ImportScript>, ids: seq<nat>)
    ensures ScriptEntries(scripts, ids).Some? <==> forall i :: 0 <= i < |scripts| ==> Resolve(ids, scripts[i].botRef).Some?
    ensures var es := ScriptEntries(scripts, ids);
            es.Some? ==> |es.value| == |scripts|
                         && forall i :: 0 <= i < |scripts| ==>
                              es.value[i] == ScriptEntry(Resolve(ids, scripts[i].botRef).value, scripts[i])
  {
    if scripts != [] { ScriptEntriesAre(scripts[..|scripts| - 1], ids); }
  }

  // ---- References ----

  ghost predicate IntegerRefs(p: Payload) {
    && (forall i :: 0 <= i < |p.bots| ==>
          p.bots[i].accountRef.Some? && p.bots[i].accountRef.value == p.bots[i].accountRef.value.Floor as real)
    && (forall i :: 0 <= i < |p.scripts| ==>
          p.scripts[i].botRef.Some? && p.scripts[i].botRef.value == p.scripts[i].botRef.value.Floor as real)
  }

  /** Validation lets fractional references through; an accepted payload is imported exactly
      when every reference is an integer. */
  lemma AcceptedImportsIffIntegerRefs(db: Database, owner: Name, p: Payload, s: Schemas, v: Vault, iv: int)
    requires Acceptable(p, s)
    ensures Import(db, owner, p, v, iv).Committed? <==> IntegerRefs(p)
  {
    hide T.UpsertAll, BotEntries, ScriptEntries;
    var accountEntries := AccountEntries(owner, v, p.accounts, iv);
    T.PassShape(db.accounts, db.nextAccount, accountEntries);
    var ids := T.UpsertAll(db.accounts, db.nextAccount, accountEntries).ids;
    BotEntriesAre(owner, p.bots, ids);
    forall i | 0 <= i < |p.bots|
      ensures Resolve(ids, p.bots[i].accountRef).Some?
              <==> p.bots[i].accountRef.value == p.bots[i].accountRef.value.Floor as real
    {
      assert BotFits(p.bots[i], |p.accounts|, s);
    }
    var botEntries := BotEntries(owner, p.bots, ids);
    if botEntries.Some? {
      T.PassShape(db.bots, db.nextBot, botEntries.value);
      var botIds := T.UpsertAll(db.bots, db.nextBot, botEntries.value).ids;
      ScriptEntriesAre(p.scripts, botIds);
      forall i | 0 <= i < |p.scripts|
        ensures Resolve(botIds, p.scripts[i].botRef).Some?
                <==> p.scripts[i].botRef.value == p.scripts[i].botRef.value.Floor as real
      {
        assert ScriptFits(p.scripts[i], |p.bots|, s);
      }
    }
  }

  // ---- What a row says after the import ----

  /** The account at this position of the payload is stored with what the payload says: a credential
      field that is null or empty is cleared, any other is sealed, the key pool keeps the pairs that
      have both parts; unless a later account of the payload shares platform and name. */
  lemma AccountIsStored(db: Database, owner: Name, p: Payload, v: Vault, iv: int, n: nat, f: Field)
    requires Import(db, owner, p, v, iv).Committed? && n < |p.accounts|
    requires forall m :: n < m < |p.accounts| ==> p.accounts[m].name != p.accounts[n].name || p.accounts[m].platform != p.accounts[n].platform
    ensures var out, a := Import(db, owner, p, v, iv), p.accounts[n];
            var i := T.Find(out.db.accounts, AccountKey(owner, a.platform, a.name));
            && i < |out.db.accounts|
            && var fields := out.db.accounts[i].fields;
               && (f in a.texts && f in TEXT_FIELDS ==>
                     && f in fields
                     && fields[f] == if a.texts[f] == None || a.texts[f] == Some("") then Null else Text(v.seal(a.texts[f].value, iv)))
               && (a.pool == NullPool ==> ApiKeys in fields && fields[ApiKeys] == Null)
               && (a.pool.Pairs? ==>
                     && ApiKeys in fields && fields[ApiKeys].Pool?
                     && forall q :: q in fields[ApiKeys].pairs <==>
                          exists r :: r in a.pool.pairs && r.apiKey != "" && r.apiSecret != ""
                                      && q == Pair(v.seal(r.apiKey, iv), v.seal(r.apiSecret, iv)))
  {
    hide T.UpsertAll, BotEntries, ScriptEntries, T.Find, EachPair;
    var es, a := AccountEntries(owner, v, p.accounts, iv), p.accounts[n];
    T.LastEntryIsHeld(db.accounts, db.nextAccount, es, n);
    assert es[n].data == CredentialsData(v, a, iv);
    DataSays(v, a, iv, f);
    if a.pool.Pairs? {
      var pool := EachPair(a.pool.pairs, s => v.seal(s, iv));
      forall q ensures q in pool <==> exists r :: r in a.pool.pairs && r.apiKey != "" && r.apiSecret != ""
                                                  && q == Pair(v.seal(r.apiKey, iv), v.seal(r.apiSecret, iv))
      {
        EachPairIff(a.pool.pairs, s => v.seal(s, iv), q);
      }
    }
  }

  lemma DataSays(v: Vault, a: ImportAccount, iv: int, f: Field)
    ensures var data := CredentialsData(v, a, iv);
            && (f in a.texts && f in TEXT_FIELDS ==>
                  f in data && data[f] == if a.texts[f] == None || a.texts[f] == Some("") then Null else Text(v.seal(a.texts[f].value, iv)))
            && (a.pool == NullPool ==> ApiKeys in data && data[ApiKeys] == Null)
            && (a.pool.Pairs? ==> ApiKeys in data && data[ApiKeys] == Pool(EachPair(a.pool.pairs, s => v.seal(s, iv))))
  {
  }

  lemma {:induction false} EachPairIff(pairs: seq<Pair>, f: string -> string, q: Pair)
    ensures q in EachPair(pairs, f) <==>
            exists r :: r in pairs && r.apiKey != "" && r.apiSecret != "" && q == Pair(f(r.apiKey), f(r.apiSecret))
  {
    if pairs != [] {
      var front, last := pairs[..|pairs| - 1], pairs[|pairs| - 1];
      assert pairs == front + [last];
      EachPairIff(front, f, q);
    }
  }

  /** The bot at this position of the payload is stored under the account it refers to, with its
      own config or an empty one, unless a later bot of the payload shares account and name. */
  lemma BotIsStored(db: Database, owner: Name, p: Payload, v: Vault, iv: int, n: nat)
    requires Import(db, owner, p, v, iv).Committed? && n < |p.bots|
    ensures var out, b := Import(db, owner, p, v, iv), p.bots[n];
            && |out.accountIds| == |p.accounts| && Resolve(out.accountIds, b.accountRef).Some?
            && var account := Resolve(out.accountIds, b.accountRef).value;
               var i := T.Find(out.db.bots, BotKey(owner, account, b.name));
               (forall m :: n < m < |p.bots| && p.bots[m].name == b.name ==>
                  Resolve(out.accountIds, p.bots[m].accountRef) != Some(account)) ==>
                 && i < |out.db.bots| && Settings in out.db.bots[i].fields
                 && out.db.bots[i].fields[Settings] == Json(if b.config.Some? then b.config.value else Config("{}"))
  {
    hide T.UpsertAll, BotEntries, ScriptEntries, T.Find;
    var out, b := Import(db, owner, p, v, iv), p.bots[n];
    T.PassShape(db.accounts, db.nextAccount, AccountEntries(owner, v, p.accounts, iv));
    BotEntriesAre(owner, p.bots, out.accountIds);
    var es, account := BotEntries(owner, p.bots, out.accountIds).value, Resolve(out.accountIds, b.accountRef).value;
    if forall m :: n < m < |p.bots| && p.bots[m].name == b.name ==> Resolve(out.accountIds, p.bots[m].accountRef) != Some(account) {
      T.LastEntryIsHeld(db.bots, db.nextBot, es, n);
      assert Settings in es[n].data;
    }
  }

  /** The same for a script, which is enabled unless the payload says otherwise. */
  lemma ScriptIsStored(db: Database, owner: Name, p: Payload, v: Vault, iv: int, n: nat)
    requires Import(db, owner, p, v, iv).Committed? && n < |p.scripts|
    ensures var out, c := Import(db, owner, p, v, iv), p.scripts[n];
            && |out.botIds| == |p.bots| && Resolve(out.botIds, c.botRef).Some?
            && var bot := Resolve(out.botIds, c.botRef).value;
               var i := T.Find(out.db.scripts, ScriptKey(bot, c.name));
               (forall m :: n < m < |p.scripts| && p.scripts[m].name == c.name ==>
                  Resolve(out.botIds, p.scripts[m].botRef) != Some(bot)) ==>
                 && i < |out.db.scripts|
                 && var fields := out.db.scripts[i].fields;
                    && {Trigger, Settings, Enabled} <= fields.Keys
                    && fields[Trigger] == Called(c.trigger) && fields[Enabled] == Flag(c.enabled != Some(false))
                    && fields[Settings] == Json(if c.config.Some? then c.config.value else Config("{}"))
  {
    hide T.UpsertAll, BotEntries, ScriptEntries, T.Find;
    var out, c := Import(db, owner, p, v, iv), p.scripts[n];
    EntryCounts(owner, p, out.accountIds, out.botIds);
    T.PassShape(db.bots, db.nextBot, BotEntries(owner, p.bots, out.accountIds).value);
    ScriptEntriesAre(p.scripts, out.botIds);
    var es, bot := ScriptEntries(p.scripts, out.botIds).value, Resolve(out.botIds, c.botRef).value;
    if forall m :: n < m < |p.scripts| && p.scripts[m].name == c.name ==> Resolve(out.botIds, p.scripts[m].botRef) != Some(bot) {
      T.LastEntryIsHeld(db.scripts, db.nextScript, es, n);
      assert {Trigger, Settings, Enabled} <= es[n].data.Keys;
    }
  }

  // ---- Importing twice ----

  /** Everything the database says, with the credentials decrypted. */
  function Readable(db: Database, v: Vault): Database {
    db.(accounts := T.ReadRows(db.accounts, x => Read(v, x)))
  }

  lemma {:induction false} EachPairTwice(pairs: seq<Pair>, f: string -> string, g: string -> string, h: string -> string)
    requires forall s :: s != "" ==> f(s) != "" && g(f(s)) == h(s)
    ensures EachPair(EachPair(pairs, f), g) == EachPair(pairs, h)
  {
    if pairs != [] {
      var rest := EachPair(pairs[..|pairs| - 1], f);
      EachPairTwice(pairs[..|pairs| - 1], f, g, h);
      forall p: Pair ensures (rest + [p])[..|rest|] == rest {}
    }
  }

  /** What the payload says about the credentials of an account, decrypted. */
  function Said(v: Vault, a: ImportAccount): map<Field, Value> {
    SaidTexts(v, a)
    + match a.pool
      case Absent => map[]
      case Malformed => map[]
      case NullPool => map[ApiKeys := Null]
      case Pairs(pairs) => map[ApiKeys := Read(v, Pool(pairs))]
  }

  lemma SealedTextReads(v: Vault, t: Option<string>, iv: int)
    requires Keeps(v)
    ensures Read(v, SealText(v, t, iv)) == if t.Some? then Read(v, Text(t.value)) else Null
  {
  }

  function SaidTexts(v: Vault, a: ImportAccount): map<Field, Value> {
    map f | f in a.texts && f in TEXT_FIELDS :: if a.texts[f].Some? then Read(v, Text(a.texts[f].value)) else Null
  }

  lemma SealedTextsRead(v: Vault, a: ImportAccount, iv: int)
    requires Keeps(v)
    ensures T.ReadFields(TextsData(v, a, iv), x => Read(v, x)) == SaidTexts(v, a)
  {
    hide Keeps, SealText, Read;
    forall f | f in a.texts ensures Read(v, SealText(v, a.texts[f], iv)) == if a.texts[f].Some? then Read(v, Text(a.texts[f].value)) else Null {
      SealedTextReads(v, a.texts[f], iv);
    }
  }

  /** Sealing keeps what the payload says, whatever the IV. */
  lemma SealingKeepsReadings(v: Vault, a: ImportAccount, iv: int)
    requires Keeps(v)
    ensures T.ReadFields(CredentialsData(v, a, iv), x => Read(v, x)) == Said(v, a)
  {
    hide Keeps, TextsData, SaidTexts, SealPool, Read, T.ReadFields;
    T.ReadUnion(TextsData(v, a, iv), SealPool(v, a.pool, iv), x => Read(v, x));
    SealedTextsRead(v, a, iv);
    SealedPoolReads(v, a.pool, iv);
  }

  lemma SealedPoolReads(v: Vault, p: PoolField, iv: int)
    requires Keeps(v)
    ensures T.ReadFields(SealPool(v, p, iv), x => Read(v, x))
            == match p
               case Absent => map[]
               case Malformed => map[]
               case NullPool => map[ApiKeys := Null]
               case Pairs(pairs) => map[ApiKeys := Read(v, Pool(pairs))]
  {
    if p.Pairs? {
      EachPairTwice(p.pairs, s => v.seal(s, iv), s => Opened(v, s), s => Opened(v, s));
    }
  }

  /** Importing an accepted payload a second time creates nothing, and leaves the same rows with
      the same ids, links, configs and decrypted credentials. */
  lemma ImportTwice(db: Database, owner: Name, p: Payload, v: Vault, iv: int, iv': int)
    requires Keeps(v) && Import(db, owner, p, v, iv).Committed?
    ensures var once := Import(db, owner, p, v, iv);
            var twice := Import(once.db, owner, p, v, iv');
            && twice.Committed? && twice.created == Stats(0, 0, 0)
            && twice.accountIds == once.accountIds && twice.botIds == once.botIds
            && Readable(twice.db, v) == Readable(once.db, v)
  {
    var once := Import(db, owner, p, v, iv);
    AccountsTwice(db.accounts, db.nextAccount, owner, p.accounts, v, iv, iv');
    T.ImportTwice(db.bots, db.nextBot, BotEntries(owner, p.bots, once.accountIds).value);
    T.ImportTwice(db.scripts, db.nextScript, ScriptEntries(p.scripts, once.botIds).value);
  }

  lemma AccountsTwice(rows: seq<Account>, nextId: nat, owner: Name, accounts: seq<ImportAccount>, v: Vault, iv: int, iv': int)
    requires Keeps(v)
    ensures var once := T.UpsertAll(rows, nextId, AccountEntries(owner, v, accounts, iv));
            var twice := T.UpsertAll(once.rows, once.nextId, AccountEntries(owner, v, accounts, iv'));
            && twice.created == 0 && twice.ids == once.ids && twice.nextId == once.nextId
            && T.ReadRows(twice.rows, x => Read(v, x)) == T.ReadRows(once.rows, x => Read(v, x))
  {
    var read := x => Read(v, x);
    var es, es' := AccountEntries(owner, v, accounts, iv), AccountEntries(owner, v, accounts, iv');
    var once := T.UpsertAll(rows, nextId, es);
    T.ReadingCommutes(rows, nextId, es, read);
    T.ReadingCommutes(once.rows, once.nextId, es', read);
    T.ImportTwice(T.ReadRows(rows, read), nextId, T.ReadEntries(es, read));
    assert T.ReadEntries(es, read) == T.ReadEntries(es', read) by {
      forall i | 0 <= i < |accounts| ensures T.ReadEntry(es[i], read) == T.ReadEntry(es'[i], read) {
        SealingKeepsReadings(v, accounts[i], iv);
        SealingKeepsReadings(v, accounts[i], iv');
      }
    }
  }
}
