/**
 The API key validator's own operations (validators/api_key_validator.go): master keys, the contract
 answer, and the cache it fills. SHA-256 in hex is the function `hash`; what the file system, the
 environment and the contract say are parameters.
 */
module ApiKeyValidator {
  import opened Wrappers
  import opened Text
  import opened Json

  datatype Config = Config(apiKey: string, masterKeysFile: string, cacheTTL: int, hash: string -> string)

  datatype FileRead = Missing | OpenFails | Lines(lines: seq<string>, readFails: bool)

  /** The master key sources as a call finds them: the file, and `SECRETAI_MASTER_KEYS`. */
  datatype Masters = Masters(file: FileRead, env: string)

  datatype QueryResult = Failed | Answered(result: Object)

  /** `(bool, error)`: the error result says nothing about the key. */
  datatype Outcome = Valid(ok: bool) | Error

  predicate Lists(lines: seq<string>, key: string) {
    exists i :: 0 <= i < |lines| && TrimSpace(lines[i]) == key
  }

  /** A key listed before a read error still counts; the environment is not looked at after one. */
  function MasterCheck(cfg: Config, key: string, m: Masters): Outcome {
    var uses := cfg.masterKeysFile != "";
    if uses && m.file.OpenFails? then Error
    else if uses && m.file.Lines? && key != "" && Lists(m.file.lines, key) then Valid(true)
    else if uses && m.file.Lines? && m.file.readFails then Error
    else Valid(key != "" && Lists(Split(m.env, ','), key))
  }

  /** What a call decides before it looks at the cache; `Valid(false)` means it goes on. */
  function BeforeCache(cfg: Config, key: string, m: Masters): Outcome {
    if TrimSpace(key) == "" then Error
    else if cfg.apiKey != "" && key == cfg.apiKey then Valid(true)
    else MasterCheck(cfg, key, m)
  }

  /** The `hashed_key` of one entry of the contract's answer, when it is a non-empty string. */
  function EntryKey(entry: Value): Option<string> {
    var k := Field(ObjOf(Some(entry)), "hashed_key");
    if k.Some? && k.value.Str? && k.value.s != "" then Some(k.value.s) else None
  }

  function EntryKeys(entries: seq<Value>): set<string> {
    set i | 0 <= i < |entries| && EntryKey(entries[i]).Some? :: EntryKey(entries[i]).value
  }

  /** The hashes an answer lists; none at all when the answer is a failure or malformed. */
  function Listed(q: QueryResult): Option<set<string>> {
    if q.Answered? && "api_keys" in q.result && q.result["api_keys"].Arr?
    then Some(EntryKeys(q.result["api_keys"].items)) else None
  }

  predicate IsStale(cfg: Config, lastUpdate: Option<int>, now: int) {
    lastUpdate.None? || now - lastUpdate.value > cfg.cacheTTL
  }

  function AllTrue(keys: set<string>): map<string, bool> {
    map k | k in keys :: true
  }

  // ----- what the decisions mean ------------------------------------------------------------------

  /** `key` is a line of the configured file, but for the spaces around it. */
  predicate InFile(cfg: Config, key: string, m: Masters) {
    && cfg.masterKeysFile != "" && m.file.Lines?
    && exists i :: 0 <= i < |m.file.lines| && TrimSpace(m.file.lines[i]) == key
  }

  /** A part of the environment variable, between commas or its ends, is `key` but for the spaces around it. */
  ghost predicate InEnvironment(key: string, m: Masters) {
    exists a, part, b ::
      && m.env == a + part + b && ',' !in part && TrimSpace(part) == key
      && (a == "" || a[|a| - 1] == ',') && (b == "" || b[0] == ',')
  }

  /** The file stops the check: it is there but cannot be opened, or breaks off before the key is seen. */
  predicate FileFails(cfg: Config, key: string, m: Masters) {
    && cfg.masterKeysFile != ""
    && (m.file.OpenFails? || (m.file.Lines? && m.file.readFails && !(key != "" && InFile(cfg, key, m))))
  }

  lemma InEnvironmentIff(key: string, m: Masters)
    ensures Lists(Split(m.env, ','), key) <==> InEnvironment(key, m)
  {
    var parts := Split(m.env, ',');
    if Lists(parts, key) {
      var i :| 0 <= i < |parts| && TrimSpace(parts[i]) == key;
      var a, b := PartAround(m.env, ',', i);
      assert m.env == a + parts[i] + b;
    }
    forall a, part, b | m.env == a + part + b && ',' !in part && TrimSpace(part) == key
                        && (a == "" || a[|a| - 1] == ',') && (b == "" || b[0] == ',')
      ensures Lists(parts, key)
    {
      PartIsSplit(m.env, ',', a, part, b);
    }
  }

  /** True from the file or, unless the file stops the check first, from the environment; never for an empty key. */
  lemma MasterCheckMeans(cfg: Config, key: string, m: Masters)
    ensures MasterCheck(cfg, key, m) == Error <==> FileFails(cfg, key, m)
    ensures MasterCheck(cfg, key, m) == Valid(true) <==>
      key != "" && !FileFails(cfg, key, m) && (InFile(cfg, key, m) || InEnvironment(key, m))
  {
    InEnvironmentIff(key, m);
  }

  /** A blank key is an error, whatever is configured; the configured key is accepted without looking further. */
  lemma BeforeCacheMeans(cfg: Config, key: string, m: Masters)
    ensures AllSpaces(key) ==> BeforeCache(cfg, key, m) == Error
    ensures !AllSpaces(key) && cfg.apiKey == key ==> BeforeCache(cfg, key, m) == Valid(true)
    ensures !AllSpaces(key) && cfg.apiKey != key ==>
      && (BeforeCache(cfg, key, m) == Error <==> FileFails(cfg, key, m))
      && (BeforeCache(cfg, key, m) == Valid(true) <==>
            !FileFails(cfg, key, m) && (InFile(cfg, key, m) || InEnvironment(key, m)))
  {
    BlankIff(key);
    MasterCheckMeans(cfg, key, m);
  }

  lemma BlankIff(s: string)
    ensures TrimSpace(s) == "" <==> AllSpaces(s)
  {
    var before, after := TrimSpaceMeans(s);
    if AllSpaces(s) {
      TrimSpaceDrops(s, "", "");
      assert s + "" + "" == s;
    } else {
      assert TrimSpace(s) == "" ==> s == before + after;
    }
  }

  /** An answer as the contract gives it: one entry for each hash. */
  function AnswerOf(hashes: seq<string>): Object {
    map["api_keys" := Arr(seq(|hashes|, i requires 0 <= i < |hashes| => Obj(map["hashed_key" := Str(hashes[i])])))]
  }

  /** Exactly the non-empty hashes of an answer are listed; an answer without the list, or with none, lists nothing. */
  lemma AnswersAreListed(hashes: seq<string>, o: Object)
    ensures Listed(Answered(AnswerOf(hashes))).Some?
    ensures forall h: string :: h in Listed(Answered(AnswerOf(hashes))).value <==> h != "" && h in hashes
    ensures Listed(Failed) == None && ("api_keys" !in o ==> Listed(Answered(o)) == None)
  {
    var entries := AnswerOf(hashes)["api_keys"].items;
    forall h: string | h != "" && h in hashes ensures h in EntryKeys(entries) {
      var i :| 0 <= i < |hashes| && hashes[i] == h;
      assert EntryKey(entries[i]) == Some(h);
    }
    forall h: string | h in EntryKeys(entries) ensures h != "" && h in hashes {
      var i :| 0 <= i < |entries| && EntryKey(entries[i]) == Some(h);
      assert hashes[i] == h;
    }
  }

  class APIKeyValidator {
    const config: Config
    var cache: map<string, bool>
    var lastUpdate: Option<int>   // None is the zero time, older than any TTL

    constructor (config: Config)
      ensures this.config == config && cache == map[] && lastUpdate == None
    {
      this.config := config;
      cache, lastUpdate := map[], None;
    }

    method CheckMasterKeys(apiKey: string, m: Masters) returns (r: Outcome)
      ensures r == MasterCheck(config, apiKey, m)
      ensures r == Error <==> FileFails(config, apiKey, m)
      ensures r == Valid(true) <==>
        apiKey != "" && !FileFails(config, apiKey, m) && (InFile(config, apiKey, m) || InEnvironment(apiKey, m))
    {
      MasterCheckMeans(config, apiKey, m);
      if config.masterKeysFile != "" {
        match m.file {
          case OpenFails => return Error;
          case Missing =>
          case Lines(lines, readFails) =>
            var found := FindKey(lines, apiKey);
            if found {
              return Valid(true);
            }
            if readFails {
              return Error;
            }
        }
      }
      var isListed := false;
      if m.env != "" {
        isListed := FindKey(Split(m.env, ','), apiKey);
      } else {
        assert Split(m.env, ',') == [""] && TrimSpace("") == "";
      }
      r := Valid(isListed);
    }

    /** Both sources are scanned alike; an empty key is never found. */
    method FindKey(lines: seq<string>, apiKey: string) returns (found: bool)
      ensures found <==> apiKey != "" && Lists(lines, apiKey)
    {
      for i := 0 to |lines|
        invariant apiKey != "" ==> forall j :: 0 <= j < i ==> TrimSpace(lines[j]) != apiKey
      {
        var next := TrimSpace(lines[i]);
        if next != "" && next == apiKey {
          return true;
        }
      }
      found := false;
    }

    method IsMasterKey(apiKey: string, m: Masters) returns (r: bool)
      ensures r <==> BeforeCache(config, apiKey, m) == Valid(true)
    {
      if TrimSpace(apiKey) == "" {
        return false;
      }
      if config.apiKey != "" && apiKey == config.apiKey {
        return true;
      }
      var checked := CheckMasterKeys(apiKey, m);
      r := checked.Valid? && checked.ok;
    }

    /** A failed query or a malformed answer changes nothing; any other replaces the cache by exactly its keys. */
    method UpdateAPIKeyCache(q: QueryResult, now: int) returns (failed: bool)
      modifies this
      ensures failed <==> Listed(q).None?
      ensures failed ==> cache == old(cache) && lastUpdate == old(lastUpdate)
      ensures !failed ==> cache == AllTrue(Listed(q).value) && lastUpdate == Some(now)
    {
      if q.Failed? {
        return true;
      }
      if "api_keys" !in q.result || !q.result["api_keys"].Arr? {
        return true;
      }
      var apiKeys := q.result["api_keys"].items;
      var newCache: map<string, bool> := map[];
      for i := 0 to |apiKeys|
        invariant newCache == AllTrue(EntryKeys(apiKeys[..i]))
      {
        assert EntryKeys(apiKeys[..i + 1]) == EntryKeys(apiKeys[..i])
          + (if EntryKey(apiKeys[i]).Some? then {EntryKey(apiKeys[i]).value} else {}) by {
          LastEntry(apiKeys, i);
        }
        if !apiKeys[i].Obj? {
          continue;
        }
        var entry := apiKeys[i].fields;
        if "hashed_key" in entry && entry["hashed_key"].Str? && entry["hashed_key"].s != "" {
          newCache := newCache[entry["hashed_key"].s := true];
        }
      }
      assert apiKeys[..|apiKeys|] == apiKeys;
      cache, lastUpdate := newCache, Some(now);
      failed := false;
    }

    /** Leaves `lastUpdate`: an emptied cache answers nothing, however fresh. */
    method CleanupCache()
      modifies this`cache
      ensures cache == map[]
    {
      cache := map[];
    }

    /** One call with nobody else about: master keys, then a fresh cache entry, then the contract. */
    method ValidateAPIKey(apiKey: string, m: Masters, lookedUpAt: int, q: QueryResult, storedAt: int)
      returns (r: Outcome)
      modifies this
      ensures var before, h := BeforeCache(config, apiKey, m), config.hash(apiKey);
        if before != Valid(false) then r == before && cache == old(cache) && lastUpdate == old(lastUpdate)
        else if h in old(cache) && old(lastUpdate).Some? && lookedUpAt - old(lastUpdate).value <= config.cacheTTL then
          r == Valid(old(cache)[h]) && cache == old(cache) && lastUpdate == old(lastUpdate)
        else if Listed(q).None? then r == Error && cache == old(cache) && lastUpdate == old(lastUpdate)
        else r == Valid(h in Listed(q).value) && cache == AllTrue(Listed(q).value) && lastUpdate == Some(storedAt)
    {
      if TrimSpace(apiKey) == "" {
        return Error;
      }
      if config.apiKey != "" && apiKey == config.apiKey {
        return Valid(true);
      }
      var isMaster := CheckMasterKeys(apiKey, m);
      if isMaster.Error? {
        return Error;
      }
      if isMaster.ok {
        return Valid(true);
      }
      var apiKeyHash := config.hash(apiKey);
      var found := apiKeyHash in cache;
      var isStale := lastUpdate.None? || lookedUpAt - lastUpdate.value > config.cacheTTL;
      if found && !isStale {
        return Valid(cache[apiKeyHash]);
      }
      var failed := UpdateAPIKeyCache(q, storedAt);
      if failed {
        return Error;
      }
      r := Valid(apiKeyHash in cache && cache[apiKeyHash]);
    }
  }

  lemma LastEntry(entries: seq<Value>, i: nat)
    requires i < |entries|
    ensures EntryKeys(entries[..i + 1]) == EntryKeys(entries[..i])
          + if EntryKey(entries[i]).Some? then {EntryKey(entries[i]).value} else {}
  {
    forall k | k in EntryKeys(entries[..i])
      ensures k in EntryKeys(entries[..i + 1])
    {
      var j :| 0 <= j < i && EntryKey(entries[..i][j]) == Some(k);
      assert entries[..i + 1][j] == entries[..i][j];
    }
    forall k | k in EntryKeys(entries[..i + 1])
      ensures k in EntryKeys(entries[..i]) || EntryKey(entries[i]) == Some(k)
    {
      var j :| 0 <= j < i + 1 && EntryKey(entries[..i + 1][j]) == Some(k);
      if j < i {
        assert entries[..i][j] == entries[..i + 1][j];
      }
    }
    assert EntryKey(entries[i]).Some? ==> entries[..i + 1][i] == entries[i];
  }
}
