/**
  Sequences of administrative requests on the configuration path. The record behaves
  as a single register: on a healthy store the last write, delete or save decides what
  is read afterwards, no other storage key is ever touched, and a stored entry that does
  not decode blocks every later write until it is deleted or overwritten by a save.
 */
module ConfigHistory {
  import opened Wrappers
  import opened KeyValueStore
  import opened PathConfig

  datatype Request = Write(ramAlias: Option<string>) | Delete | Save(config: AlicloudConfig)

  /** The entries after one request, whether it succeeded or not. */
  function Apply(entries: map<string, Entry>, faults: set<StorageOp>, req: Request): map<string, Entry> {
    match req
    case Write(v) => ConfigWritten(entries, faults, v).entries
    case Delete => ConfigDeleted(entries, faults).entries
    case Save(c) => ConfigSaved(entries, faults, c).entries
  }

  /** The entries after the requests, in order. */
  function Run(entries: map<string, Entry>, faults: set<StorageOp>, reqs: seq<Request>): map<string, Entry>
    decreases |reqs|
  {
    if reqs == [] then entries
    else Apply(Run(entries, faults, reqs[..|reqs| - 1]), faults, reqs[|reqs| - 1])
  }

  /** The record a register with last-request-wins semantics holds after the requests. */
  function LastWins(initial: AlicloudConfig, reqs: seq<Request>): AlicloudConfig {
    if reqs == [] then initial
    else match reqs[|reqs| - 1]
      case Write(v) => AlicloudConfig(WrittenAlias(v))
      case Delete => AlicloudConfig(DefaultRamAlias)
      case Save(c) => c
  }

  /** True when the "config" entry is absent or decodes. */
  predicate EntryDecodable(entries: map<string, Entry>) {
    ConfigKey in entries ==> Decodable(entries[ConfigKey])
  }

  /**
    Whatever operations fail, one request never leaves an undecodable "config" entry
    behind: a failed request changes nothing, and a successful one stores an encoded
    record or removes the entry.
   */
  lemma ApplyKeepsEntryDecodable(entries: map<string, Entry>, faults: set<StorageOp>, req: Request)
    requires EntryDecodable(entries)
    ensures EntryDecodable(Apply(entries, faults, req))
  {
    match req
    case Write(v) =>
      WriteSucceedsIff(entries, faults, v);
      if ConfigWritten(entries, faults, v).err.None? {
        EncodeDecode(NewAlicloudConfig(), ConfigKey, AlicloudConfig(WrittenAlias(v)));
        WriteOverwrites(entries, faults, v);
      }
    case Delete =>
    case Save(c) => EncodeDecode(NewAlicloudConfig(), ConfigKey, c);
  }

  /** No sequence of requests changes a storage key other than "config", even when requests fail. */
  lemma {:induction false} RunTouchesOnlyConfigKey(entries: map<string, Entry>, faults: set<StorageOp>, reqs: seq<Request>)
    ensures OnlyKeyChanged(entries, Run(entries, faults, reqs), ConfigKey)
    decreases |reqs|
  {
    if reqs != [] {
      var before := Run(entries, faults, reqs[..|reqs| - 1]);
      RunTouchesOnlyConfigKey(entries, faults, reqs[..|reqs| - 1]);
      match reqs[|reqs| - 1]
      case Write(v) => TouchesOnlyConfigKey(before, faults, v, NewAlicloudConfig());
      case Delete => TouchesOnlyConfigKey(before, faults, None, NewAlicloudConfig());
      case Save(c) => TouchesOnlyConfigKey(before, faults, None, c);
    }
  }

  /**
    Once the configuration can be read, it stays readable after any requests, also when
    puts or deletes fail: a failed request changes nothing, and a successful one leaves an
    entry that decodes or no entry at all.
   */
  lemma {:induction false} RunKeepsConfigReadable(entries: map<string, Entry>, faults: set<StorageOp>, reqs: seq<Request>)
    requires ConfigOf(entries, faults).Success?
    ensures ConfigOf(Run(entries, faults, reqs), faults).Success?
    decreases |reqs|
  {
    if reqs != [] {
      var before := Run(entries, faults, reqs[..|reqs| - 1]);
      RunKeepsConfigReadable(entries, faults, reqs[..|reqs| - 1]);
      match reqs[|reqs| - 1]
      case Write(v) =>
        WriteSucceedsIff(before, faults, v);
        if PutOp !in faults { ReadAfterWrite(before, faults, v); }
      case Delete =>
        if DeleteOp !in faults { ReadAfterDelete(before, faults); }
      case Save(c) =>
        if PutOp !in faults { ReadAfterSave(before, faults, c); }
    }
  }

  /** On a healthy store with a readable configuration, the last request decides what is read. */
  lemma {:induction false} LastRequestWins(entries: map<string, Entry>, faults: set<StorageOp>, reqs: seq<Request>)
    requires faults == {} && ConfigOf(entries, faults).Success?
    ensures ConfigOf(Run(entries, faults, reqs), faults) == Success(LastWins(ConfigOf(entries, faults).value, reqs))
  {
    if reqs != [] {
      var before := Run(entries, faults, reqs[..|reqs| - 1]);
      RunKeepsConfigReadable(entries, faults, reqs[..|reqs| - 1]);
      match reqs[|reqs| - 1]
      case Write(v) => WriteSucceedsIff(before, faults, v); ReadAfterWrite(before, faults, v);
      case Delete => ReadAfterDelete(before, faults);
      case Save(c) => ReadAfterSave(before, faults, c);
    }
  }

  /**
    Because a write reads the configuration first, a stored entry that does not decode
    makes every write fail: any number of writes leave the store as it was, and reading
    still reports the decoding error.
   */
  lemma {:induction false} UndecodableEntryBlocksWrites(entries: map<string, Entry>, faults: set<StorageOp>, reqs: seq<Request>)
    requires GetOp !in faults && ConfigKey in entries && !Decodable(entries[ConfigKey])
    requires forall i :: 0 <= i < |reqs| ==> reqs[i].Write?
    ensures Run(entries, faults, reqs) == entries
    ensures ConfigOf(Run(entries, faults, reqs), faults) == Failure(DecodeFailure(ConfigKey))
    decreases |reqs|
  {
    ReadFailsIff(entries, faults);
    if reqs != [] {
      UndecodableEntryBlocksWrites(entries, faults, reqs[..|reqs| - 1]);
      WriteSucceedsIff(entries, faults, reqs[|reqs| - 1].ramAlias);
    }
  }
}
