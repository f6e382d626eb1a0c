/**
  The alias the backend gives an authenticated entity. The configured `ram_alias`
  chooses between the role ARN of the login and the caller's principal id; only the
  exact string "roleArn" selects the ARN, and every other value, "principalId" or not,
  selects the principal id.
 */
module Backend {
  import opened Wrappers
  import opened KeyValueStore
  import opened PathConfig

  /** The parsed ARN of the login, reduced to the field the alias uses. */
  datatype Arn = Arn(roleArn: string)

  /** The caller-identity response, reduced to the field the alias uses. */
  datatype CallerIdentity = CallerIdentity(principalId: string)

  /** Go's `(string, error)`: the alias, and the error when there is one. */
  datatype AliasResult = AliasResult(alias: string, err: Option<Error>)

  const RoleArnAlias: string := "roleArn"

  /** The choice `getAliasName` makes once it has tried to read the configuration. */
  function SelectAlias(config: Result<AlicloudConfig, Error>, arn: Arn, identity: CallerIdentity): (r: AliasResult)
    ensures r.err.Some? <==> config.Failure?
    ensures config.Failure? ==> r.alias == "" && r.err.value == ConfigUnavailable(config.error)
    ensures config.Success? && config.value.ramAlias == "roleArn" ==> r.alias == arn.roleArn
    ensures config.Success? && config.value.ramAlias != "roleArn" ==> r.alias == identity.principalId
  {
    match config
    case Failure(e) => AliasResult("", Some(ConfigUnavailable(e)))
    case Success(c) =>
      if c.ramAlias == RoleArnAlias then AliasResult(arn.roleArn, None)
      else AliasResult(identity.principalId, None)
  }

  /** Reads the configuration and selects the alias; it changes nothing in the store. */
  method GetAliasName(s: Storage, arn: Arn, identity: CallerIdentity) returns (alias: string, err: Option<Error>)
    ensures AliasResult(alias, err) == SelectAlias(ConfigOf(s.entries, s.faults), arn, identity)
  {
    var config := Config(s);
    var selected := SelectAlias(config, arn, identity);
    alias, err := selected.alias, selected.err;
  }

  /** With no configuration stored, the alias is the caller's principal id. */
  lemma AliasWithoutConfig(entries: map<string, Entry>, faults: set<StorageOp>, arn: Arn, identity: CallerIdentity)
    requires GetOp !in faults && ConfigKey !in entries
    ensures SelectAlias(ConfigOf(entries, faults), arn, identity) == AliasResult(identity.principalId, None)
  {
    DefaultWhenAbsent(entries, faults);
  }

  /** When the storage read fails, the alias is empty and the error names the unavailable configuration. */
  lemma AliasOnReadFailure(entries: map<string, Entry>, faults: set<StorageOp>, arn: Arn, identity: CallerIdentity)
    requires GetOp in faults
    ensures SelectAlias(ConfigOf(entries, faults), arn, identity) ==
      AliasResult("", Some(ConfigUnavailable(StorageFailure(GetOp, "config"))))
  {
  }

  /**
    After a successful configuration write, the alias is the role ARN exactly when
    "roleArn" was written, and the principal id otherwise -- also when no value was given.
   */
  lemma AliasAfterWrite(entries: map<string, Entry>, faults: set<StorageOp>, ramAlias: Option<string>, arn: Arn, identity: CallerIdentity)
    requires ConfigWritten(entries, faults, ramAlias).err.None?
    ensures SelectAlias(ConfigOf(ConfigWritten(entries, faults, ramAlias).entries, faults), arn, identity) ==
      AliasResult(if ramAlias == Some("roleArn") then arn.roleArn else identity.principalId, None)
  {
    ReadAfterWrite(entries, faults, ramAlias);
  }

  /** After the configuration is deleted, the alias falls back to the principal id. */
  lemma AliasAfterDelete(entries: map<string, Entry>, faults: set<StorageOp>, arn: Arn, identity: CallerIdentity)
    requires GetOp !in faults && DeleteOp !in faults
    ensures SelectAlias(ConfigOf(ConfigDeleted(entries, faults).entries, faults), arn, identity) ==
      AliasResult(identity.principalId, None)
  {
    ReadAfterDelete(entries, faults);
  }
}
