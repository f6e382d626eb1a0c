# Alibaba Cloud auth backend: configuration record and alias selection

This project models two pieces of the Alibaba Cloud (RAM) authentication backend for a
secrets-management host:

- **The configuration record of the backend** (`path_config.go`). It has one field,
  `ram_alias`, stored as a JSON object under the storage key `"config"`. The model covers
  the read handler, the write handler (create and update), the delete handler, the
  existence check, the internal `config` reader and `saveConfig`. The default is
  `"principalId"`: a read returns it when nothing is stored, and when the stored object's
  `ram_alias` is absent or null. A `ram_alias` that is not a string is a decoding error.
  A write first resets the field to the default. It then takes the caller's value
  verbatim if one was given.
- **Alias selection** (`backend.go`, `getAliasName`). The alias is the login's role ARN
  when the configured `ram_alias` is exactly `"roleArn"`. For every other value it is the
  caller's principal id.

Layout:

- `wrappers.dfy`: `Option` and `Result`.
- `key_value_store.dfy`: the host storage as a class `Storage`. It holds a
  `map<string, Entry>` and a fixed set of operations that fail (`faults`). Storage failure
  is a deterministic error outcome. A failed `Put` or `Delete` changes nothing.
- `path_config.dfy`: the record, its JSON encoding and decoding over a base record, and
  the functions saying what each handler does to a store. It also holds the handlers as
  methods on a `Storage`, each proved against its function, and the lemmas.
- `config_history.dfy`: arbitrary sequences of write, delete and save requests, with
  last-request-wins and frame lemmas proved by induction.
- `backend.dfy`: `SelectAlias` (the `switch`), `GetAliasName` (read, then select) and the
  lemmas that connect the alias to the stored configuration.

Three behaviours of the code are worth stating on their own:

- `ram_alias` is stored exactly as supplied, with no validation (path_config.go:107-110).
  Every value other than `"roleArn"` selects the principal id (backend.go:74-80).
- For `"roleArn"`, the alias is the `RoleArn` field of the parsed ARN as it is
  (backend.go:77).
- The write handler reads the configuration before it writes (path_config.go:101-104).
  So a stored entry that does not decode makes every write fail, and the entry stays in
  place. Only a delete or a save replaces it (`ConfigHistory.UndecodableEntryBlocksWrites`).

## Model

| member | source | states |
|---|---|---|
| `KeyValueStore.Storage.Get` | path_config.go:74 | reports the entry under a key, `None` when the key is absent, or a storage error when reads fail |
| `KeyValueStore.Storage.Put` | path_config.go:117 | stores the entry under its key, or fails and leaves every entry as it was; no other key changes |
| `KeyValueStore.Storage.Delete` | path_config.go:141 | removes the key, whether or not it was present, or fails and changes nothing; no other key changes |
| `PathConfig.NewAlicloudConfig` | path_config.go:64-68 | the record every read and write starts from has `ram_alias` = "principalId" |
| `PathConfig.DecodeOver` | path_config.go:72-83 | decoding a stored entry over a base record succeeds exactly when the entry is a JSON object whose `ram_alias`, if present, is a string or null; a string replaces the field, an absent or null one keeps the base, and a failure is a decoding error for the key |
| `PathConfig.Config` | path_config.go:70-90 | returns the configuration `ConfigOf` defines: the default record when nothing is stored, the stored entry decoded over the default otherwise, and the storage or decoding error when either fails |
| `PathConfig.PathConfigExistenceCheck` | path_config.go:92-98 | reports `true` exactly when reading the configuration succeeds; a read error is returned as `(false, err)` |
| `PathConfig.PathConfigWrite` | path_config.go:100-122 | changes the store exactly as `ConfigWritten` says: read, reset the field to the default, apply the supplied value, then put under "config" |
| `PathConfig.PathConfigRead` | path_config.go:124-138 | succeeds exactly when the configuration can be read; the response data is `{ram_alias: <read value>}`; otherwise returns the read error |
| `PathConfig.PathConfigDelete` | path_config.go:140-144 | removes "config" from the store, or returns the storage error and changes nothing |
| `PathConfig.SaveConfig` | path_config.go:146-158 | puts the encoded record under `configStoragePath`, or returns the storage error and changes nothing |
| `PathConfig.DefaultWhenAbsent` | path_config.go:64-83 | when storage reads work and there is no "config" entry, a read yields a record whose `ram_alias` is "principalId" |
| `PathConfig.ReadFailsIff` | path_config.go:74-82 | a read fails exactly when the storage read fails or the stored entry does not decode, and it reports which |
| `PathConfig.DefaultWhenFieldMissing` | path_config.go:72-83 | a stored object with no `ram_alias`, or a null one, still reads as the default, because decoding starts from the default record |
| `PathConfig.StoredAliasIsRead` | path_config.go:78-83 | a stored string `ram_alias` is read back verbatim |
| `PathConfig.EncodeDecode` | path_config.go:60-62 | the document written for any record decodes back to that record, whatever base it is decoded over |
| `PathConfig.WriteSucceedsIff` | path_config.go:100-122 | a write succeeds exactly when the configuration is readable and the storage put succeeds; a failed write reports the first error and changes nothing |
| `PathConfig.WriteOverwrites` | path_config.go:106-119 | after a successful write, "config" holds exactly the supplied value, for any string, or "principalId" when none was supplied, whatever was stored before |
| `PathConfig.ReadAfterWrite` | path_config.go:100-137 | a read after a successful write returns the alias the write stored |
| `PathConfig.ReadAfterDelete` | path_config.go:140-144 | on a working store, delete succeeds, removes "config", and a later read yields the default |
| `PathConfig.ReadAfterSave` | path_config.go:146-157 | when storage reads and puts work, `saveConfig` succeeds and a following `config` gives the saved record back |
| `PathConfig.TouchesOnlyConfigKey` | path_config.go:112-162 | write, delete and save leave every storage key other than "config" as it was |
| `ConfigHistory.ApplyKeepsEntryDecodable` | path_config.go:100-157 | under any set of failing operations, one write, delete or save leaves the "config" entry absent or decodable if it was so before |
| `ConfigHistory.RunTouchesOnlyConfigKey` | path_config.go:100-162 | for a store with any fixed set of failing operations, any sequence of writes, deletes and saves leaves every other storage key as it was |
| `ConfigHistory.RunKeepsConfigReadable` | path_config.go:100-157 | for any fixed set of failing operations, once the configuration can be read it stays readable after any sequence of requests, failed puts and deletes included |
| `ConfigHistory.LastRequestWins` | path_config.go:100-157 | on a working store whose configuration can be read at the start, the record read after a sequence of requests is the one set by the last request (written value or default, default after delete, saved record) |
| `ConfigHistory.UndecodableEntryBlocksWrites` | path_config.go:101-104 | once the stored entry does not decode, any number of writes leave the store unchanged, and reads keep reporting the decoding error |
| `Backend.SelectAlias` | backend.go:66-81 | a config error gives the empty alias with a wrapped error; "roleArn" gives the ARN's `RoleArn`; any other value gives the identity's `PrincipalId` |
| `Backend.GetAliasName` | backend.go:63-83 | reads the configuration from the store and returns the alias `SelectAlias` gives for it; it has no `modifies` frame, so storage is unchanged |
| `Backend.AliasWithoutConfig` | backend.go:66-80 | when storage reads work and no configuration is stored, the alias is the principal id |
| `Backend.AliasOnReadFailure` | backend.go:66-70 | when the storage read fails, the alias is "" and the error wraps the storage failure |
| `Backend.AliasAfterWrite` | backend.go:74-81 | after a successful write, the alias is the role ARN exactly when "roleArn" was written, and the principal id otherwise, also when no value was given |
| `Backend.AliasAfterDelete` | backend.go:74-81 | when storage reads and deletes work, after the configuration is deleted the alias is the principal id |

## Left out

- `Factory` and `newBackend`: HTTP client setup. This includes the redirect policy that stops at the first response. It is transport plumbing.
- Path registration and framework wiring: path patterns, display attributes, field schemas, callback tables, help texts, `PathsSpecial`. They have no behaviour of their own.
- The debug output written with `fmt.Println` and `fmt.Printf`. It is side-effect-only.
- JSON bytes. Stored values are abstract JSON documents. Three details are not modelled: the Go decoder's case-insensitive matching of field names (only the exact key `ram_alias` is recognised), duplicate keys, and a top-level `null` document. The model has no such entry; Go decodes it as a no-op, so a read returns the default (see "Nil pointers" below).
- `StorageEntryJSON` failing. Encoding a record with one string field cannot fail, so the model has no encoding error.
- The host's coercion of the request's `ram_alias` value to a string. The write handler receives the value as an `Option<string>`: `None` when the field was not supplied.
- `context.Context` and cancellation. Concurrent access to storage is also left out.
- Login, renewal, role management, ARN parsing and the caller-identity call. They are not part of this model. The ARN and the caller identity appear only as records holding `RoleArn` and `PrincipalId`.
- Go strings are byte strings; here they are sequences of characters. Go's JSON encoder replaces invalid UTF-8 with U+FFFD (path_config.go:112, 147). So storing a value verbatim, as `WriteOverwrites` and `EncodeDecode` state, is exact only for valid UTF-8.
- Nil pointers. `saveConfig` with a nil record stores JSON `null`, which a later read returns as the default. `getAliasName` dereferences `arn` or the identity only in the branch it takes. Records passed by value cannot express either case.
- Faults that change over a store's life. Each store has one fixed set of failing operations, so a sequence of requests never has a put fail and a later put succeed.
- Storage listing and storage-specific error values. A storage failure is represented by the operation and the key.
