/**
  The auth backend's singleton configuration record and its administrative path:
  read, write, delete, the existence check and `saveConfig`. The record has one field,
  `ram_alias`, stored as a JSON object under the key "config".

  The functions `ConfigOf`, `ConfigWritten`, `ConfigDeleted` and `ConfigSaved` say
  what each operation yields on a store's entries; the methods perform the
  operations on a `Storage` object and are proved to agree with them; the lemmas
  state what the operations promise about each other.
 */
module PathConfig {
  import opened Wrappers
  import opened KeyValueStore

  const DefaultRamAlias: string := "principalId"
  const ConfigStoragePath: string := "config"
  /** The literal key used by the read, write and delete handlers. */
  const ConfigKey: string := "config"
  /** The JSON field name of `RamAlias`. */
  const RamAliasField: string := "ram_alias"

  datatype AlicloudConfig = AlicloudConfig(ramAlias: string)

  /** The record every read and write starts from. */
  function NewAlicloudConfig(): (c: AlicloudConfig)
    ensures c.ramAlias == "principalId"
  {
    AlicloudConfig(DefaultRamAlias)
  }

  /** The JSON document written for a record. */
  function Encode(c: AlicloudConfig): Entry {
    JsonObject(map[RamAliasField := JsonString(c.ramAlias)])
  }

  /**
    Decodes a stored entry over `base`: a string `ram_alias` replaces the field, an
    absent or null one keeps it, and any other value, or an entry that is not a JSON
    object, is a decoding error.
   */
  function DecodeOver(base: AlicloudConfig, key: string, e: Entry): (r: Result<AlicloudConfig, Error>)
    ensures r.Success? <==> Decodable(e)
    ensures r.Failure? ==> r.error == DecodeFailure(key)
    ensures r.Success? && RamAliasField in e.fields && e.fields[RamAliasField].JsonString? ==>
      r.value == AlicloudConfig(e.fields[RamAliasField].s)
    ensures r.Success? && (RamAliasField !in e.fields || e.fields[RamAliasField] == JsonNull) ==>
      r.value == base
  {
    match e
    case Undecodable => Failure(DecodeFailure(key))
    case JsonObject(fields) =>
      if RamAliasField !in fields then Success(base)
      else match fields[RamAliasField]
        case JsonString(v) => Success(base.(ramAlias := v))
        case JsonNull => Success(base)
        case JsonOther => Failure(DecodeFailure(key))
  }

  /** True when an entry decodes without error. */
  predicate Decodable(e: Entry) {
    e.JsonObject? && (RamAliasField in e.fields ==> !e.fields[RamAliasField].JsonOther?)
  }

  /** What `config` returns for a store. */
  function ConfigOf(entries: map<string, Entry>, faults: set<StorageOp>): Result<AlicloudConfig, Error> {
    match Lookup(entries, faults, ConfigKey)
    case Failure(e) => Failure(e)
    case Success(None) => Success(NewAlicloudConfig())
    case Success(Some(raw)) => DecodeOver(NewAlicloudConfig(), ConfigKey, raw)
  }

  /** The `ram_alias` a write stores: the caller's value if one was supplied, else the default. */
  function WrittenAlias(ramAlias: Option<string>): string {
    ramAlias.GetOr(DefaultRamAlias)
  }

  /** What `pathConfigWrite` does to a store. */
  function ConfigWritten(entries: map<string, Entry>, faults: set<StorageOp>, ramAlias: Option<string>): Step {
    match ConfigOf(entries, faults)
    case Failure(e) => Step(Some(e), entries)
    case Success(c) =>
      var reset := c.(ramAlias := DefaultRamAlias);
      var config := if ramAlias.Some? then reset.(ramAlias := ramAlias.value) else reset;
      Stored(entries, faults, ConfigKey, Encode(config))
  }

  /** What `pathConfigDelete` does to a store. */
  function ConfigDeleted(entries: map<string, Entry>, faults: set<StorageOp>): Step {
    Removed(entries, faults, ConfigKey)
  }

  /** What `saveConfig` does to a store. */
  function ConfigSaved(entries: map<string, Entry>, faults: set<StorageOp>, c: AlicloudConfig): Step {
    Stored(entries, faults, ConfigStoragePath, Encode(c))
  }

  // ---------------------------------------------------------------------------
  // The handlers, on a storage object

  method Config(s: Storage) returns (r: Result<AlicloudConfig, Error>)
    ensures r == ConfigOf(s.entries, s.faults)
  {
    var config := NewAlicloudConfig();
    var raw := s.Get(ConfigKey);
    if raw.Failure? {
      return Failure(raw.error);
    }
    if raw.value.Some? {
      var decoded := DecodeOver(config, ConfigKey, raw.value.value);
      if decoded.Failure? {
        return Failure(decoded.error);
      }
      config := decoded.value;
    }
    r := Success(config);
  }

  method PathConfigExistenceCheck(s: Storage) returns (present: bool, err: Option<Error>)
    ensures present <==> ConfigOf(s.entries, s.faults).Success?
    ensures err.Some? <==> !present
    ensures err.Some? ==> err.value == ConfigOf(s.entries, s.faults).error
  {
    var config := Config(s);
    if config.Failure? {
      return false, Some(config.error);
    }
    present, err := true, None;
  }

  method PathConfigWrite(s: Storage, ramAlias: Option<string>) returns (err: Option<Error>)
    modifies s
    ensures Step(err, s.entries) == ConfigWritten(old(s.entries), s.faults, ramAlias)
  {
    var read := Config(s);
    if read.Failure? {
      return Some(read.error);
    }
    var config := read.value;
    config := config.(ramAlias := DefaultRamAlias);
    if ramAlias.Some? {
      config := config.(ramAlias := ramAlias.value);
    }
    err := s.Put(ConfigKey, Encode(config));
  }

  /** The read handler; on success its response data holds `ram_alias` and nothing else. */
  method PathConfigRead(s: Storage) returns (r: Result<map<string, string>, Error>)
    ensures r.Success? <==> ConfigOf(s.entries, s.faults).Success?
    ensures r.Failure? ==> r.error == ConfigOf(s.entries, s.faults).error
    ensures r.Success? ==> r.value == map[RamAliasField := ConfigOf(s.entries, s.faults).value.ramAlias]
  {
    var config := Config(s);
    if config.Failure? {
      return Failure(config.error);
    }
    r := Success(map[RamAliasField := config.value.ramAlias]);
  }

  method PathConfigDelete(s: Storage) returns (err: Option<Error>)
    modifies s
    ensures Step(err, s.entries) == ConfigDeleted(old(s.entries), s.faults)
  {
    err := s.Delete(ConfigKey);
  }

  method SaveConfig(s: Storage, config: AlicloudConfig) returns (err: Option<Error>)
    modifies s
    ensures Step(err, s.entries) == ConfigSaved(old(s.entries), s.faults, config)
  {
    err := s.Put(ConfigStoragePath, Encode(config));
  }

  // ---------------------------------------------------------------------------
  // Properties

  /** With no entry under "config", reading yields the default record, `ram_alias` = "principalId". */
  lemma DefaultWhenAbsent(entries: map<string, Entry>, faults: set<StorageOp>)
    requires GetOp !in faults && ConfigKey !in entries
    ensures ConfigOf(entries, faults) == Success(AlicloudConfig("principalId"))
  {
  }

  /** Reading fails exactly when the storage read fails or the stored entry does not decode. */
  lemma ReadFailsIff(entries: map<string, Entry>, faults: set<StorageOp>)
    ensures ConfigOf(entries, faults).Failure? <==>
      GetOp in faults || (ConfigKey in entries && !Decodable(entries[ConfigKey]))
    ensures GetOp in faults ==> ConfigOf(entries, faults).error == StorageFailure(GetOp, ConfigKey)
    ensures GetOp !in faults && ConfigKey in entries && !Decodable(entries[ConfigKey]) ==>
      ConfigOf(entries, faults).error == DecodeFailure(ConfigKey)
  {
  }

  /** A stored object without a usable `ram_alias` value (absent or null) also reads as the default. */
  lemma DefaultWhenFieldMissing(entries: map<string, Entry>, faults: set<StorageOp>)
    requires GetOp !in faults && ConfigKey in entries && entries[ConfigKey].JsonObject?
    requires RamAliasField !in entries[ConfigKey].fields || entries[ConfigKey].fields[RamAliasField] == JsonNull
    ensures ConfigOf(entries, faults) == Success(AlicloudConfig(DefaultRamAlias))
  {
  }

  /** A stored string `ram_alias` is read back verbatim. */
  lemma StoredAliasIsRead(entries: map<string, Entry>, faults: set<StorageOp>, v: string)
    requires GetOp !in faults && ConfigKey in entries && entries[ConfigKey].JsonObject?
    requires RamAliasField in entries[ConfigKey].fields && entries[ConfigKey].fields[RamAliasField] == JsonString(v)
    ensures ConfigOf(entries, faults) == Success(AlicloudConfig(v))
  {
  }

  /** Decoding the document written for a record gives that record back, whatever it is decoded over. */
  lemma EncodeDecode(base: AlicloudConfig, key: string, c: AlicloudConfig)
    ensures Decodable(Encode(c))
    ensures DecodeOver(base, key, Encode(c)) == Success(c)
  {
  }

  /**
    A write succeeds exactly when the configuration can be read and the storage write
    succeeds; a failed write reports the first error and changes nothing.
   */
  lemma WriteSucceedsIff(entries: map<string, Entry>, faults: set<StorageOp>, ramAlias: Option<string>)
    ensures ConfigWritten(entries, faults, ramAlias).err.None? <==>
      ConfigOf(entries, faults).Success? && PutOp !in faults
    ensures ConfigOf(entries, faults).Failure? ==>
      ConfigWritten(entries, faults, ramAlias).err == Some(ConfigOf(entries, faults).error)
    ensures ConfigWritten(entries, faults, ramAlias).err.Some? ==>
      ConfigWritten(entries, faults, ramAlias).entries == entries
  {
  }

  /**
    A successful write stores exactly the caller's `ram_alias`, with no validation, or
    "principalId" when none was supplied -- whatever was stored before.
   */
  lemma WriteOverwrites(entries: map<string, Entry>, faults: set<StorageOp>, ramAlias: Option<string>)
    requires ConfigWritten(entries, faults, ramAlias).err.None?
    ensures ConfigKey in ConfigWritten(entries, faults, ramAlias).entries
    ensures ConfigWritten(entries, faults, ramAlias).entries[ConfigKey] ==
      JsonObject(map["ram_alias" := JsonString(if ramAlias.Some? then ramAlias.value else "principalId")])
  {
  }

  /** Reading after a successful write returns the alias the write stored. */
  lemma ReadAfterWrite(entries: map<string, Entry>, faults: set<StorageOp>, ramAlias: Option<string>)
    requires ConfigWritten(entries, faults, ramAlias).err.None?
    ensures ConfigOf(ConfigWritten(entries, faults, ramAlias).entries, faults) ==
      Success(AlicloudConfig(WrittenAlias(ramAlias)))
  {
    EncodeDecode(NewAlicloudConfig(), ConfigKey, AlicloudConfig(WrittenAlias(ramAlias)));
  }

  /** Deleting removes the entry, so a later read yields the default again. */
  lemma ReadAfterDelete(entries: map<string, Entry>, faults: set<StorageOp>)
    requires GetOp !in faults && DeleteOp !in faults
    ensures ConfigDeleted(entries, faults).err.None?
    ensures ConfigKey !in ConfigDeleted(entries, faults).entries
    ensures ConfigOf(ConfigDeleted(entries, faults).entries, faults) == Success(AlicloudConfig(DefaultRamAlias))
  {
  }

  /** `saveConfig` followed by `config` gives the saved record back. */
  lemma ReadAfterSave(entries: map<string, Entry>, faults: set<StorageOp>, c: AlicloudConfig)
    requires GetOp !in faults && PutOp !in faults
    ensures ConfigSaved(entries, faults, c).err.None?
    ensures ConfigOf(ConfigSaved(entries, faults, c).entries, faults) == Success(c)
  {
    EncodeDecode(NewAlicloudConfig(), ConfigKey, c);
  }

  /** Write, delete and save change no storage key other than "config". */
  lemma TouchesOnlyConfigKey(entries: map<string, Entry>, faults: set<StorageOp>, ramAlias: Option<string>, c: AlicloudConfig)
    ensures OnlyKeyChanged(entries, ConfigWritten(entries, faults, ramAlias).entries, "config")
    ensures OnlyKeyChanged(entries, ConfigDeleted(entries, faults).entries, "config")
    ensures OnlyKeyChanged(entries, ConfigSaved(entries, faults, c).entries, "config")
  {
  }
}
