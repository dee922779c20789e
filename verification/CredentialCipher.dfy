/** Versioned credential encryption and key rotation
    (packages/core/src/utils/credential-cipher.ts). AES-GCM and SHA-256 stay abstract. */
module CredentialCipher {
  import opened Common
  import opened Texts

  datatype Result<+T> = Ok(value: T) | Err(message: string)

  /** Authenticated encryption as a pair of functions; the number stands for the random IV. */
  datatype Aes = Aes(encrypt: (string, string, int) -> string, decrypt: (string, string) -> Option<string>)

  /** A ciphertext is three colon-free fields, and the key that made it opens it. */
  ghost predicate Sound(aes: Aes) {
    forall text, key, iv ::
      |Split(aes.encrypt(text, key, iv), ':')| == 3 && aes.decrypt(aes.encrypt(text, key, iv), key) == Some(text)
  }

  const ENC_PREFIX := "enc:"
  const DEFAULT_VERSION := "v1"

  // ---- The key registry ----

  datatype Registry = Registry(version: string, key: string, legacy: map<string, string>)

  predicate IsBlank(c: char) {
    c == ' ' || c == '\t' || c == '\n' || c == '\r'
  }

  function Trim(s: string): string {
    if s == "" then ""
    else if IsBlank(s[0]) then Trim(s[1..])
    else if IsBlank(s[|s| - 1]) then Trim(s[..|s| - 1])
    else s
  }

  /** The non-empty entries among the comma-separated parts, trimmed. */
  function Trimmed(parts: seq<string>): seq<string> {
    if parts == [] then []
    else
      var rest := Trimmed(parts[..|parts| - 1]);
      var e := Trim(parts[|parts| - 1]);
      if e == "" then rest else rest + [e]
  }

  function Entries(env: string): seq<string> {
    Trimmed(Split(env, ','))
  }

  function Version(entry: string): string {
    Split(entry, ':')[0]
  }

  function RawKey(entry: string): string {
    if |Split(entry, ':')| > 1 then Split(entry, ':')[1] else ""
  }

  /** The keys of all entries, later ones overriding; None when one of them has no key. */
  function Keys(entries: seq<string>, hash: string -> string): Option<map<string, string>> {
    if entries == [] then Some(map[])
    else
      var e, rest := entries[|entries| - 1], Keys(entries[..|entries| - 1], hash);
      if rest == None || RawKey(e) == "" then None else Some(rest.value[Version(e) := hash(RawKey(e))])
  }

  function RegistryOf(entries: seq<string>, hash: string -> string): Result<Registry>
    requires entries != []
  {
    var current, older := entries[|entries| - 1], Keys(entries[..|entries| - 1], hash);
    if RawKey(current) == "" || older == None then Err("entries must be version:key")
    else Ok(Registry(Version(current), hash(RawKey(current)), older.value))
  }

  function BuiltRegistry(keysEnv: string, keyEnv: string, hash: string -> string): Result<Registry> {
    if keysEnv != "" then
      if Entries(keysEnv) == [] then Err("ENCRYPTION_KEYS is set but empty") else RegistryOf(Entries(keysEnv), hash)
    else Ok(Registry(DEFAULT_VERSION, if keyEnv != "" then hash(keyEnv) else "", map[]))
  }

  method BuildKeyRegistry(keysEnv: string, keyEnv: string, hash: string -> string) returns (r: Result<Registry>)
    ensures r == BuiltRegistry(keysEnv, keyEnv, hash)
  {
    if keysEnv == "" {
      return Ok(Registry(DEFAULT_VERSION, if keyEnv != "" then hash(keyEnv) else "", map[]));
    }
    var entries := Entries(keysEnv);
    if entries == [] { return Err("ENCRYPTION_KEYS is set but empty"); }
    var last := |entries| - 1;
    if RawKey(entries[last]) == "" { return Err("entries must be version:key"); }
    var legacy: map<string, string> := map[];
    var missing := false;
    for i := 0 to last
      invariant Keys(entries[..i], hash) == if missing then None else Some(legacy)
    {
      assert entries[..i + 1][..i] == entries[..i];
      if RawKey(entries[i]) == "" { missing := true; }
      legacy := legacy[Version(entries[i]) := hash(RawKey(entries[i]))];
    }
    if missing { return Err("entries must be version:key"); }
    r := Ok(Registry(Version(entries[last]), hash(RawKey(entries[last])), legacy));
  }

  /** The registry is built on first use and kept until it is reset. */
  class KeyRing {
    var cached: Option<Registry>

    constructor ()
      ensures cached == None
    {
      cached := None;
    }

    method GetRegistry(keysEnv: string, keyEnv: string, hash: string -> string) returns (r: Result<Registry>)
      modifies this
      ensures old(cached).Some? ==> r == Ok(old(cached).value) && cached == old(cached)
      ensures old(cached).None? ==> r == BuiltRegistry(keysEnv, keyEnv, hash)
      ensures r.Ok? ==> cached == Some(r.value)
      ensures r.Err? ==> cached == None
    {
      if cached.Some? { return Ok(cached.value); }
      r := BuildKeyRegistry(keysEnv, keyEnv, hash);
      if r.Ok? { cached := Some(r.value); }
    }

    method ResetKeyRegistry()
      modifies this
      ensures cached == None
    {
      cached := None;
    }
  }

  // ---- Encrypt, decrypt, re-encrypt ----

  function Sealed(version: string, body: string): string {
    ENC_PREFIX + (version + [':'] + body)
  }

  function EncryptCredential(r: Registry, production: bool, aes: Aes, value: string, iv: int): Result<string> {
    if r.key == "" then
      if production then Err("ENCRYPTION_KEY is required in production") else Ok(value)
    else Ok(Sealed(r.version, aes.encrypt(value, r.key, iv)))
  }

  /** A stored value read back: plain, or the version and body of a ciphertext, or neither. */
  datatype Parsed = Plain | Cipher(version: string, body: string) | Malformed

  function Parse(value: string): Parsed {
    if !(ENC_PREFIX <= value) then Plain
    else
      var payload := value[|ENC_PREFIX|..];
      var parts := Split(payload, ':');
      if |parts| == 4 then Cipher(parts[0], Join(parts[1..], ':'))
      else if |parts| == 3 then Cipher(DEFAULT_VERSION, payload)
      else Malformed
  }

  function KeyFor(r: Registry, version: string): string {
    if version == r.version then r.key
    else if version in r.legacy then r.legacy[version]
    else ""
  }

  function DecryptCredential(r: Registry, aes: Aes, value: Option<string>): Option<string> {
    if value == None || value.value == "" then None
    else match Parse(value.value)
      case Plain => value
      case Malformed => None
      case Cipher(version, body) =>
        if KeyFor(r, version) == "" then None else aes.decrypt(body, KeyFor(r, version))
  }

  function Lifted(r: Result<string>): Result<Option<string>> {
    match r
    case Ok(v) => Ok(Some(v))
    case Err(e) => Err(e)
  }

  function EnsureEncrypted(r: Registry, production: bool, aes: Aes, value: Option<string>, iv: int): Result<Option<string>> {
    if value == None || value.value == "" then Ok(None)
    else if ENC_PREFIX <= value.value then Ok(value)
    else Lifted(EncryptCredential(r, production, aes, value.value, iv))
  }

  function ReencryptCredential(r: Registry, production: bool, aes: Aes, value: Option<string>, iv: int): Result<Option<string>> {
    if value == None || value.value == "" then Ok(None)
    else match Parse(value.value)
      case Plain => Lifted(EncryptCredential(r, production, aes, value.value, iv))
      case Malformed => Ok(None)
      case Cipher(version, body) =>
        if version == r.version then Ok(value)
        else
          var plain := DecryptCredential(r, aes, value);
          if plain == None || plain.value == "" then Ok(None)
          else Lifted(EncryptCredential(r, production, aes, plain.value, iv))
  }

  // ---- Round trips ----

  /** A registry that can encrypt: it has a key, and its version cannot be mistaken for more fields. */
  ghost predicate Usable(r: Registry) {
    r.key != "" && Lacks(r.version, ':')
  }

  /** A sealed body is read back with its version, whatever the version is called. */
  lemma ParseOfSealed(version: string, body: string)
    requires Lacks(version, ':') && |Split(body, ':')| == 3
    ensures Parse(Sealed(version, body)) == Cipher(version, body)
  {
    var value := Sealed(version, body);
    assert value[|ENC_PREFIX|..] == version + [':'] + body;
    SplitAfterField(version, body, ':');
    assert ([version] + Split(body, ':'))[1..] == Split(body, ':');
    JoinOfSplit(body, ':');
  }

  /** Decrypting undoes encrypting, for every plaintext. */
  lemma DecryptUndoesEncrypt(r: Registry, production: bool, aes: Aes, value: string, iv: int)
    requires Sound(aes) && Usable(r)
    ensures var sealed := EncryptCredential(r, production, aes, value, iv);
            && sealed.Ok? && Parse(sealed.value) == Cipher(r.version, aes.encrypt(value, r.key, iv))
            && DecryptCredential(r, aes, Some(sealed.value)) == Some(value)
  {
    ParseOfSealed(r.version, aes.encrypt(value, r.key, iv));
  }

  /** The three-part form written before versions existed still opens under the key called v1. */
  lemma LegacyFormOpens(r: Registry, aes: Aes, value: string, iv: int)
    requires Sound(aes) && KeyFor(r, DEFAULT_VERSION) != ""
    ensures DecryptCredential(r, aes, Some(ENC_PREFIX + aes.encrypt(value, KeyFor(r, DEFAULT_VERSION), iv))) == Some(value)
  {
    var body := aes.encrypt(value, KeyFor(r, DEFAULT_VERSION), iv);
    assert (ENC_PREFIX + body)[|ENC_PREFIX|..] == body;
  }

  /** Re-encrypting keeps the plaintext exactly when there is one to keep: an encrypted empty
      string under an older key is lost, every other readable secret survives ... */
  lemma RotationKeepsSecret(r: Registry, production: bool, aes: Aes, value: string, iv: int)
    requires Sound(aes) && Usable(r) && DecryptCredential(r, aes, Some(value)).Some?
    ensures var plain := DecryptCredential(r, aes, Some(value));
            var rotated := ReencryptCredential(r, production, aes, Some(value), iv);
            && rotated.Ok?
            && (DecryptCredential(r, aes, rotated.value) == plain
                <==> plain.value != "" || (Parse(value).Cipher? && Parse(value).version == r.version))
  {
    var plain := DecryptCredential(r, aes, Some(value));
    DecryptUndoesEncrypt(r, production, aes, plain.value, iv);
  }

  /** ... and whatever comes out is under the current version and is left alone the next time. */
  lemma RotationIsIdempotent(r: Registry, production: bool, aes: Aes, value: Option<string>, iv: int, iv': int)
    requires Sound(aes) && Usable(r)
    ensures var rotated := ReencryptCredential(r, production, aes, value, iv);
            && rotated.Ok?
            && (rotated.value.Some? ==> Parse(rotated.value.value).Cipher? && Parse(rotated.value.value).version == r.version)
            && ReencryptCredential(r, production, aes, rotated.value, iv') == rotated
  {
    if value.Some? {
      DecryptUndoesEncrypt(r, production, aes, value.value, iv);
      var plain := DecryptCredential(r, aes, value);
      if plain.Some? { DecryptUndoesEncrypt(r, production, aes, plain.value, iv); }
    }
  }

  /** ensureEncrypted never encrypts twice, with or without a key ... */
  lemma EnsureEncryptedIsIdempotent(r: Registry, production: bool, aes: Aes, value: Option<string>, iv: int, iv': int)
    requires EnsureEncrypted(r, production, aes, value, iv).Ok?
    ensures var once := EnsureEncrypted(r, production, aes, value, iv);
            EnsureEncrypted(r, production, aes, once.value, iv') == once
  {
    if value.Some? && r.key != "" {
      assert ENC_PREFIX <= Sealed(r.version, aes.encrypt(value.value, r.key, iv));
    }
  }

  /** Encrypting fails exactly when there is no key in production; without a key elsewhere a value
      is kept, and read back, as it is. */
  lemma WithoutKey(r: Registry, production: bool, aes: Aes, value: string, iv: int)
    ensures EncryptCredential(r, production, aes, value, iv).Err? <==> r.key == "" && production
    ensures value != "" && !(ENC_PREFIX <= value) ==>
              && (EnsureEncrypted(r, production, aes, Some(value), iv).Err? <==> r.key == "" && production)
              && (ReencryptCredential(r, production, aes, Some(value), iv).Err? <==> r.key == "" && production)
              && (r.key == "" && !production ==>
                    && EnsureEncrypted(r, production, aes, Some(value), iv) == Ok(Some(value))
                    && DecryptCredential(r, aes, Some(value)) == Some(value))
  {
  }

  /** ... and keeps every plaintext that does not itself look encrypted. */
  lemma EnsureEncryptedKeepsPlaintext(r: Registry, production: bool, aes: Aes, value: string, iv: int)
    requires Sound(aes) && Usable(r) && value != "" && !(ENC_PREFIX <= value)
    ensures var once := EnsureEncrypted(r, production, aes, Some(value), iv);
            once.Ok? && once.value.Some? && ENC_PREFIX <= once.value.value
            && DecryptCredential(r, aes, once.value) == Some(value)
  {
    DecryptUndoesEncrypt(r, production, aes, value, iv);
  }

  // ---- Appending keys ----

  ghost predicate DistinctVersions(entries: seq<string>) {
    forall i, j :: 0 <= i < j < |entries| ==> Version(entries[i]) != Version(entries[j])
  }

  /** Every entry's key is found under its version, in any registry that holds it. */
  lemma {:induction false} KeysFound(entries: seq<string>, hash: string -> string, i: nat)
    requires i < |entries| && DistinctVersions(entries) && Keys(entries, hash).Some?
    ensures Version(entries[i]) in Keys(entries, hash).value
            && Keys(entries, hash).value[Version(entries[i])] == hash(RawKey(entries[i]))
  {
    if i < |entries| - 1 { KeysFound(entries[..|entries| - 1], hash, i); }
  }

  lemma {:induction false} KeysOnlyFromEntries(entries: seq<string>, hash: string -> string, version: string) returns (i: nat)
    requires Keys(entries, hash).Some? && version in Keys(entries, hash).value
    ensures i < |entries| && Version(entries[i]) == version
  {
    i := |entries| - 1;
    if Version(entries[i]) != version { i := KeysOnlyFromEntries(entries[..i], hash, version); }
  }

  lemma RegistryFinds(entries: seq<string>, hash: string -> string, i: nat)
    requires i < |entries| && DistinctVersions(entries) && RegistryOf(entries, hash).Ok?
    ensures KeyFor(RegistryOf(entries, hash).value, Version(entries[i])) == hash(RawKey(entries[i]))
  {
    if i < |entries| - 1 { KeysFound(entries[..|entries| - 1], hash, i); }
  }

  /** Every value that could be read before keys were appended reads the same afterwards. */
  lemma DecryptionSurvivesAppending(older: seq<string>, newer: seq<string>, hash: string -> string, aes: Aes, value: Option<string>)
    requires older != [] && DistinctVersions(older + newer)
    requires RegistryOf(older, hash).Ok? && RegistryOf(older + newer, hash).Ok?
    ensures var before := DecryptCredential(RegistryOf(older, hash).value, aes, value);
            before.Some? ==> DecryptCredential(RegistryOf(older + newer, hash).value, aes, value) == before
  {
    var r, all := RegistryOf(older, hash).value, older + newer;
    if value.Some? && Parse(value.value).Cipher? && KeyFor(r, Parse(value.value).version) != "" {
      var version := Parse(value.value).version;
      var i := |older| - 1;
      if version != r.version { i := KeysOnlyFromEntries(older[..|older| - 1], hash, version); }
      assert all[i] == older[i] && Version(older[i]) == version;
      DistinctPrefix(older, newer);
      RegistryFinds(older, hash, i);
      RegistryFinds(all, hash, i);
    }
  }

  lemma DistinctPrefix(older: seq<string>, newer: seq<string>)
    requires DistinctVersions(older + newer)
    ensures DistinctVersions(older)
  {
    forall i, j | 0 <= i < j < |older| ensures Version(older[i]) != Version(older[j]) {
      assert Version((older + newer)[i]) != Version((older + newer)[j]);
    }
  }

  /** Appending to the environment variable appends to the list of keys. */
  lemma {:induction false} TrimmedConcat(a: seq<string>, b: seq<string>)
    ensures Trimmed(a + b) == Trimmed(a) + Trimmed(b)
  {
    if b == [] {
      assert a + b == a;
    } else {
      TrimmedConcat(a, b[..|b| - 1]);
      assert (a + b)[..|a + b| - 1] == a + b[..|b| - 1];
    }
  }

  lemma AppendingToTheVariable(env: string, more: string)
    ensures Entries(env + [','] + more) == Entries(env) + Entries(more)
  {
    SplitConcat(env, more, ',');
    TrimmedConcat(Split(env, ','), Split(more, ','));
  }

  /** A registry built from the variable is usable: its versions are colon-free by construction. */
  lemma BuiltRegistryIsUsable(keysEnv: string, keyEnv: string, hash: string -> string)
    requires forall s :: hash(s) != ""
    requires keysEnv != "" || keyEnv != ""
    ensures BuiltRegistry(keysEnv, keyEnv, hash).Ok? ==> Usable(BuiltRegistry(keysEnv, keyEnv, hash).value)
  {
    if keysEnv != "" && Entries(keysEnv) != [] {
      FieldsLackSeparator(Entries(keysEnv)[|Entries(keysEnv)| - 1], ':');
    }
  }

  /** Key rotation: append keys, restart, re-encrypt. Whatever non-empty secret the old registry
      could read is then stored under the new current version with its plaintext unchanged. */
  lemma KeyRotation(env: string, more: string, hash: string -> string, production: bool, aes: Aes, value: string, iv: int)
    requires Sound(aes) && forall s :: hash(s) != ""
    requires env != "" && Entries(env) != [] && Entries(more) != []
    requires DistinctVersions(Entries(env) + Entries(more))
    requires BuiltRegistry(env, "", hash).Ok? && BuiltRegistry(env + [','] + more, "", hash).Ok?
    requires var plain := DecryptCredential(BuiltRegistry(env, "", hash).value, aes, Some(value));
             plain.Some? && plain.value != ""
    ensures var r := BuiltRegistry(env + [','] + more, "", hash).value;
            var rotated := ReencryptCredential(r, production, aes, Some(value), iv);
            && rotated.Ok? && rotated.value.Some?
            && Parse(rotated.value.value).Cipher? && Parse(rotated.value.value).version == r.version
            && DecryptCredential(r, aes, rotated.value)
               == DecryptCredential(BuiltRegistry(env, "", hash).value, aes, Some(value))
  {
    AppendingToTheVariable(env, more);
    BuiltRegistryIsUsable(env + [','] + more, "", hash);
    DecryptionSurvivesAppending(Entries(env), Entries(more), hash, aes, Some(value));
    var r := BuiltRegistry(env + [','] + more, "", hash).value;
    RotationKeepsSecret(r, production, aes, value, iv);
    RotationIsIdempotent(r, production, aes, Some(value), iv, iv);
  }

  // ---- What a registry is built from ----

  ghost predicate Blank(s: string) {
    forall i :: 0 <= i < |s| ==> IsBlank(s[i])
  }

  /** A field of a key list: not empty, without separators, and without blanks at its ends. */
  ghost predicate Bare(s: string) {
    s != "" && Lacks(s, ':') && Lacks(s, ',') && !IsBlank(s[0]) && !IsBlank(s[|s| - 1])
  }

  /** Trimming removes the blanks around a text, and nothing else. */
  lemma {:induction false} TrimStrips(before: string, s: string, after: string)
    requires Blank(before) && Blank(after) && (s == "" || (!IsBlank(s[0]) && !IsBlank(s[|s| - 1])))
    ensures Trim(before + s + after) == s
    decreases |before| + |after|
  {
    var whole := before + s + after;
    if before != "" {
      assert whole[1..] == before[1..] + s + after;
      TrimStrips(before[1..], s, after);
    } else if after != "" {
      assert whole[|whole| - 1] == after[|after| - 1] && whole[..|whole| - 1] == before + s + after[..|after| - 1];
      TrimStrips(before, s, after[..|after| - 1]);
      if s == "" { TrimBlank(whole); }
    } else {
      assert whole == s;
    }
  }

  lemma {:induction false} TrimBlank(s: string)
    requires Blank(s)
    ensures Trim(s) == ""
  {
    if s != "" { TrimBlank(s[1..]); }
  }

  /** An entry version:key gives this version and this key; what follows a second colon is ignored. */
  lemma EntryParts(version: string, key: string, rest: string)
    requires Lacks(version, ':') && Lacks(key, ':')
    ensures var entry := version + [':'] + key; Version(entry) == version && RawKey(entry) == key
    ensures var entry := version + [':'] + (key + [':'] + rest); Version(entry) == version && RawKey(entry) == key
    ensures RawKey(version) == ""
  {
    hide Split;
    SplitAfterField(version, key, ':');
    SplitOneField(key, ':');
    SplitAfterField(version, key + [':'] + rest, ':');
    SplitAfterField(key, rest, ':');
    SplitOneField(version, ':');
  }

  /** A key list that ends in version:key makes this version the current one with the hash of this
      key, whatever blanks stand around it. */
  lemma LastEntryIsCurrent(env: string, before: string, version: string, key: string, after: string, keyEnv: string,
                           hash: string -> string)
    requires Bare(version) && Bare(key) && Blank(before) && Blank(after)
    ensures var r := BuiltRegistry(env + [','] + (before + (version + [':'] + key) + after), keyEnv, hash);
            r.Ok? ==> r.value.version == version && r.value.key == hash(key)
  {
    hide Trim, Keys;
    var entry := version + [':'] + key;
    AppendedEntry(env, before, entry, after);
    EntryParts(version, key, "");
  }

  lemma AppendedEntry(env: string, before: string, entry: string, after: string)
    requires Blank(before) && Blank(after) && Lacks(entry, ',') && entry != "" && !IsBlank(entry[0]) && !IsBlank(entry[|entry| - 1])
    ensures Entries(env + [','] + (before + entry + after)) == Entries(env) + [entry]
  {
    hide Split, Trim;
    var last := before + entry + after;
    AppendingToTheVariable(env, last);
    SplitOneField(last, ',');
    TrimStrips(before, entry, after);
    assert Trimmed([last]) == [entry] by { assert [last][..0] == [] && Trimmed([]) == []; }
  }

  /** A key list of one entry. */
  lemma OneKeyRegistry(version: string, key: string, keyEnv: string, hash: string -> string)
    requires Bare(version) && Bare(key)
    ensures BuiltRegistry(version + [':'] + key, keyEnv, hash) == Ok(Registry(version, hash(key), map[]))
  {
    hide Split, Trim;
    var entry := version + [':'] + key;
    SplitOneField(entry, ',');
    TrimStrips("", entry, "");
    assert "" + entry + "" == entry;
    assert Trimmed([entry]) == [entry] by { assert [entry][..0] == [] && Trimmed([]) == []; }
    EntryParts(version, key, "");
    assert [entry][..0] == [];
  }

  /** Without a key list the single key, if there is one, is the current one under the version v1. */
  lemma SingleKeyRegistry(keyEnv: string, hash: string -> string)
    ensures BuiltRegistry("", keyEnv, hash) == Ok(Registry("v1", if keyEnv == "" then "" else hash(keyEnv), map[]))
  {
  }

  /** A key list is refused exactly when it has no entries or one of them has no key. */
  lemma RefusedIffIncomplete(keysEnv: string, keyEnv: string, hash: string -> string)
    requires keysEnv != ""
    ensures BuiltRegistry(keysEnv, keyEnv, hash).Err? <==>
              Entries(keysEnv) == [] || exists i :: 0 <= i < |Entries(keysEnv)| && RawKey(Entries(keysEnv)[i]) == ""
  {
    hide Entries, RawKey;
    var entries := Entries(keysEnv);
    if entries != [] {
      KeysIffComplete(entries[..|entries| - 1], hash);
      assert forall i :: 0 <= i < |entries| - 1 ==> entries[..|entries| - 1][i] == entries[i];
      if RawKey(entries[|entries| - 1]) != "" && Keys(entries[..|entries| - 1], hash) == None {
        var i :| 0 <= i < |entries| - 1 && RawKey(entries[..|entries| - 1][i]) == "";
        assert RawKey(entries[i]) == "";
      }
    }
  }

  lemma {:induction false} KeysIffComplete(entries: seq<string>, hash: string -> string)
    ensures Keys(entries, hash) == None <==> exists i :: 0 <= i < |entries| && RawKey(entries[i]) == ""
  {
    hide RawKey, Version;
    if entries != [] {
      var front := entries[..|entries| - 1];
      KeysIffComplete(front, hash);
      if Keys(front, hash) == None {
        var i :| 0 <= i < |front| && RawKey(front[i]) == "";
        assert RawKey(entries[i]) == "";
      }
      assert forall i :: 0 <= i < |front| ==> front[i] == entries[i];
    }
  }

  /** What is stored: the prefix, the current version and the ciphertext; without a key the plain value,
      or in production nothing. */
  lemma StoredForm(r: Registry, production: bool, aes: Aes, value: string, iv: int)
    ensures EncryptCredential(r, production, aes, value, iv)
            == if r.key != "" then Ok("enc:" + r.version + ":" + aes.encrypt(value, r.key, iv))
               else if production then Err("ENCRYPTION_KEY is required in production") else Ok(value)
    ensures value != "" && !("enc:" <= value) ==> DecryptCredential(r, aes, Some(value)) == Some(value)
  {
    var body := aes.encrypt(value, r.key, iv);
    assert "enc:" + (r.version + [':'] + body) == "enc:" + r.version + ":" + body;
  }
}
