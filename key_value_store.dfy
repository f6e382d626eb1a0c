/**
  The host's key/value storage as the configuration code sees it: `Get`, `Put` and
  `Delete` of one key. Which of these operations currently fail is a fixed property of
  a store (`faults`), so storage failure is an ordinary, deterministic error outcome.
  Stored values are kept as abstract JSON documents rather than bytes.
 */
module KeyValueStore {
  import opened Wrappers

  /** A JSON value, as far as a decoder that looks for one string field can tell them apart. */
  datatype JsonValue = JsonString(s: string) | JsonNull | JsonOther

  /** A stored entry: a JSON object with its fields, or content the decoder rejects. */
  datatype Entry = JsonObject(fields: map<string, JsonValue>) | Undecodable

  datatype StorageOp = GetOp | PutOp | DeleteOp

  /** The errors the configuration path and the alias resolver can report. */
  datatype Error =
    | StorageFailure(op: StorageOp, key: string)
    | DecodeFailure(key: string)
    | ConfigUnavailable(cause: Error)

  /** The outcome of a storage-changing operation: the error it reported and the entries after it. */
  datatype Step = Step(err: Option<Error>, entries: map<string, Entry>)

  /** What `Get(key)` reports. */
  function Lookup(entries: map<string, Entry>, faults: set<StorageOp>, key: string): (r: Result<Option<Entry>, Error>)
    ensures r.Failure? <==> GetOp in faults
    ensures r.Failure? ==> r.error == StorageFailure(GetOp, key)
    ensures r.Success? ==> (r.value.Some? <==> key in entries)
    ensures r.Success? && key in entries ==> r.value.value == entries[key]
  {
    if GetOp in faults then Failure(StorageFailure(GetOp, key))
    else if key in entries then Success(Some(entries[key]))
    else Success(None)
  }

  /** True when `after` agrees with `before` on every key other than `key`. */
  ghost predicate OnlyKeyChanged(before: map<string, Entry>, after: map<string, Entry>, key: string) {
    forall k :: k != key ==> (k in after <==> k in before) && (k in before ==> after[k] == before[k])
  }

  /** What `Put(key, e)` does: store `e` under `key`, or fail and change nothing. */
  function Stored(entries: map<string, Entry>, faults: set<StorageOp>, key: string, e: Entry): (r: Step)
    ensures r.err.None? <==> PutOp !in faults
    ensures r.err.Some? ==> r.err.value == StorageFailure(PutOp, key) && r.entries == entries
    ensures r.err.None? ==> key in r.entries && r.entries[key] == e
    ensures OnlyKeyChanged(entries, r.entries, key)
  {
    if PutOp in faults then Step(Some(StorageFailure(PutOp, key)), entries)
    else Step(None, entries[key := e])
  }

  /** What `Delete(key)` does: remove `key` (absent or not), or fail and change nothing. */
  function Removed(entries: map<string, Entry>, faults: set<StorageOp>, key: string): (r: Step)
    ensures r.err.None? <==> DeleteOp !in faults
    ensures r.err.Some? ==> r.err.value == StorageFailure(DeleteOp, key) && r.entries == entries
    ensures r.err.None? ==> key !in r.entries
    ensures OnlyKeyChanged(entries, r.entries, key)
  {
    if DeleteOp in faults then Step(Some(StorageFailure(DeleteOp, key)), entries)
    else Step(None, entries - {key})
  }

  class Storage {
    var entries: map<string, Entry>
    const faults: set<StorageOp>

    constructor (initial: map<string, Entry>, failing: set<StorageOp>)
      ensures entries == initial && faults == failing
    {
      entries := initial;
      faults := failing;
    }

    method Get(key: string) returns (r: Result<Option<Entry>, Error>)
      ensures r == Lookup(entries, faults, key)
    {
      if GetOp in faults {
        return Failure(StorageFailure(GetOp, key));
      }
      if key in entries {
        r := Success(Some(entries[key]));
      } else {
        r := Success(None);
      }
    }

    method Put(key: string, e: Entry) returns (err: Option<Error>)
      modifies this
      ensures Step(err, entries) == Stored(old(entries), faults, key, e)
    {
      if PutOp in faults {
        return Some(StorageFailure(PutOp, key));
      }
      entries := entries[key := e];
      err := None;
    }

    method Delete(key: string) returns (err: Option<Error>)
      modifies this
      ensures Step(err, entries) == Removed(old(entries), faults, key)
    {
      if DeleteOp in faults {
        return Some(StorageFailure(DeleteOp, key));
      }
      entries := entries - {key};
      err := None;
    }
  }
}
