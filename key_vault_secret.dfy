/**
 * Secrets stored in a key vault (`azurestack/resource_arm_key_vault_secret.go`):
 * the create, update, read and delete handlers. The vault a secret lives in
 * is found from the secret's base URL; the results of that lookup
 * (`KeyVaultIDFromBaseUrl`) and of the existence check (`KeyVaultExists`)
 * are parameters here and are modelled in the `Config` module.
 */
module KeyVaultSecrets {
  import opened Common
  import opened KeyVaultIds
  import opened KeyVaultKeys
  import opened Terraform

  /**
   * The secret resource's configuration; dates stay in their configured
   * text, `None` when absent (an empty date reads as unset, `GetOk`).
   */
  datatype SecretConfig = SecretConfig(
    name: string,
    keyVaultId: string,
    value: string,
    contentType: string,
    notBefore: Option<string>,
    expires: Option<string>,
    tags: map<string, string>)

  datatype SecretAttributes = SecretAttributes(notBefore: Option<string>, expires: Option<string>)

  /** `keyvault.SecretSetParameters`: a new version, carrying the value. */
  datatype SetParameters = SetParameters(
    value: string, contentType: string, tags: map<string, string>, attributes: SecretAttributes)

  /** `keyvault.SecretUpdateParameters`: the metadata of the current version, without a value. */
  datatype UpdateParameters = UpdateParameters(
    contentType: string, tags: map<string, string>, attributes: SecretAttributes)

  /** The part of a secret bundle the handlers read. */
  datatype SecretBundle = SecretBundle(
    id: Option<string>,
    value: Option<string>,
    contentType: Option<string>,
    attributes: Option<SecretAttributes>,
    tags: map<string, string>)

  /** The remote calls of the secret handlers. */
  datatype SecretCall =
    | GetSecret
    | SetSecret(parameters: SetParameters)
    | UpdateSecret(update: UpdateParameters)
    | DeleteSecret
    | PurgeDeletedSecret
    | GetDeletedSecret

  /**
   * `deleteAndPurgeSecret`: the delete is `DeleteSecret`, its wait polls
   * `GetSecret`, the purge is `PurgeDeletedSecret` and its wait polls
   * `GetDeletedSecret`.
   */
  function SecretOperation(c: PurgeCall): SecretCall
  {
    match c
    case DeleteItem => DeleteSecret
    case PollDeleted => GetSecret
    case PurgeItem => PurgeDeletedSecret
    case PollPurged => GetDeletedSecret
  }

  function SecretOperations(calls: seq<PurgeCall>): (r: seq<SecretCall>)
    ensures |r| == |calls| && forall i :: 0 <= i < |calls| ==> r[i] == SecretOperation(calls[i])
  {
    seq(|calls|, i requires 0 <= i < |calls| => SecretOperation(calls[i]))
  }

  /** The attributes configured: each date only when it is set and not empty. */
  function AttributesOf(cfg: SecretConfig): SecretAttributes
  {
    SecretAttributes(GetOk(cfg.notBefore, ""), GetOk(cfg.expires, ""))
  }

  /** The attributes as the handlers fill them in, one date after the other. */
  method ExpandAttributes(cfg: SecretConfig) returns (attributes: SecretAttributes)
    ensures attributes == AttributesOf(cfg)
  {
    attributes := SecretAttributes(None, None);
    var notBefore := GetOk(cfg.notBefore, "");
    if notBefore.Some? {
      attributes := attributes.(notBefore := notBefore);
    }
    var expires := GetOk(cfg.expires, "");
    if expires.Some? {
      attributes := attributes.(expires := expires);
    }
  }

  /** The reply to `GetSecret` names a secret with a non-empty ID. */
  predicate NamesSecret(existing: Reply<SecretBundle>)
  {
    existing.Success? && existing.body.id.Some? && existing.body.id.value != ""
  }

  /**
   * The create handler up to the final read: an existing secret is refused,
   * the secret is set, and the ID stored is the versioned ID it is read back
   * with.
   */
  method Create(d: ResourceData, cfg: SecretConfig, baseUrl: Result<string>,
                existing: Reply<SecretBundle>, write: Reply<()>, read: Reply<SecretBundle>)
    returns (err: Option<Error>, calls: seq<SecretCall>)
    modifies d
    ensures VaultID(cfg.keyVaultId).Err? ==> err == Some(VaultID(cfg.keyVaultId).error) && calls == []
    ensures VaultID(cfg.keyVaultId).Ok? && baseUrl.Err? ==> err == Some(baseUrl.error) && calls == []
    ensures VaultID(cfg.keyVaultId).Ok? && baseUrl.Ok? ==>
      (existing.Failure? && !existing.WasNotFound() ==> err == Some(existing.AsError()) && calls == [GetSecret])
      && (NamesSecret(existing) ==> err == Some(AlreadyExists(existing.body.id.value)) && calls == [GetSecret])
      && (!NamesSecret(existing) && (existing.Success? || existing.WasNotFound()) ==>
            |calls| >= 2 && calls[..2] == [GetSecret, SetSecret(SetParameters(cfg.value, cfg.contentType, cfg.tags, AttributesOf(cfg)))])
    ensures d.id != old(d.id) ==> err.None?
    ensures err.None? <==>
      VaultID(cfg.keyVaultId).Ok? && baseUrl.Ok? && !NamesSecret(existing) && (existing.Success? || existing.WasNotFound())
      && write.Success? && read.Success? && read.body.id.Some?
    ensures err.None? ==> d.id == read.body.id.value && |calls| == 3 && calls[2] == GetSecret
  {
    calls := [];
    var vaultId := VaultID(cfg.keyVaultId);
    if vaultId.Err? {
      return Some(vaultId.error), calls;
    }
    if baseUrl.Err? {
      return Some(baseUrl.error), calls;
    }
    calls := calls + [GetSecret];
    if existing.Failure? && !existing.WasNotFound() {
      return Some(existing.AsError()), calls;
    }
    if existing.Success? && existing.body.id.Some? && existing.body.id.value != "" {
      return Some(AlreadyExists(existing.body.id.value)), calls;
    }
    var attributes := ExpandAttributes(cfg);
    calls := calls + [SetSecret(SetParameters(cfg.value, cfg.contentType, cfg.tags, attributes))];
    if write.Failure? {
      return Some(write.AsError()), calls;
    }
    calls := calls + [GetSecret];
    if read.Failure? {
      return Some(read.AsError()), calls;
    }
    if read.body.id.None? {
      return Some(Missing("secret ID")), calls;
    }
    d.id := read.body.id.value;
    err := None;
  }

  /** How the handlers find the secret's vault. */
  datatype VaultFound =
    | Found                   // the vault exists; the handler goes on
    | Gone                    // the vault no longer exists; the secret is removed from state
    | LookupFailed(e: Error)  // the lookup failed, or found no vault

  /**
   * The vault lookup the update, read and delete handlers share. A base URL
   * that matches no vault ends the read as a vault that is gone, but is an
   * error elsewhere.
   */
  function FindVault(vaultLookup: Result<Option<string>>, vaultExists: Result<bool>, onRead: bool): (r: VaultFound)
    ensures vaultLookup.Err? ==> r == LookupFailed(vaultLookup.error)
    ensures vaultLookup == Ok(None) ==> (r.Gone? <==> onRead) && (r.LookupFailed? <==> !onRead)
    ensures r == Found <==>
      vaultLookup.Ok? && vaultLookup.value.Some? && VaultID(vaultLookup.value.value).Ok? && vaultExists == Ok(true)
    ensures vaultLookup.Ok? && vaultLookup.value.Some? && VaultID(vaultLookup.value.value).Ok? ==>
      (vaultExists == Ok(false) ==> r == Gone) && (vaultExists.Err? ==> r == LookupFailed(vaultExists.error))
  {
    if vaultLookup.Err? then LookupFailed(vaultLookup.error)
    else if vaultLookup.value.None? then
      if onRead then Gone else LookupFailed(Missing("key vault resource ID"))
    else match VaultID(vaultLookup.value.value)
      case Err(e) => LookupFailed(e)
      case Ok(_) =>
        if vaultExists.Err? then LookupFailed(vaultExists.error)
        else if !vaultExists.value then Gone
        else Found
  }

  /** The write the update handler sends: a new version iff the value changed. */
  function UpdateWrite(cfg: SecretConfig, valueChanged: bool): SecretCall
  {
    if valueChanged then SetSecret(SetParameters(cfg.value, cfg.contentType, cfg.tags, AttributesOf(cfg)))
    else UpdateSecret(UpdateParameters(cfg.contentType, cfg.tags, AttributesOf(cfg)))
  }

  /** The update's write succeeds and is read back with an ID that carries a version. */
  predicate WrittenVersion(write: Reply<()>, read: Reply<SecretBundle>)
  {
    write.Success? && read.Success? && read.body.id.Some? && ParseVersionedNestedItemId(read.body.id.value).Ok?
  }

  /**
   * The update handler once its vault is found: the write, then the read of
   * the latest version, whose versioned ID is stored.
   */
  method WriteVersion(d: ResourceData, cfg: SecretConfig, valueChanged: bool, write: Reply<()>, read: Reply<SecretBundle>)
    returns (err: Option<Error>, calls: seq<SecretCall>)
    modifies d
    ensures |calls| >= 1 && calls[0] == UpdateWrite(cfg, valueChanged)
    ensures write.Failure? ==> err == Some(write.AsError()) && |calls| == 1
    ensures err.None? <==> WrittenVersion(write, read)
    ensures err.None? ==> d.id == read.body.id.value && calls == [calls[0], GetSecret]
    ensures err.Some? ==> d.id == old(d.id)
  {
    var attributes := ExpandAttributes(cfg);
    if valueChanged {
      // Changing the value needs a new version.
      calls := [SetSecret(SetParameters(cfg.value, cfg.contentType, cfg.tags, attributes))];
    } else {
      calls := [UpdateSecret(UpdateParameters(cfg.contentType, cfg.tags, attributes))];
    }
    if write.Failure? {
      return Some(write.AsError()), calls;
    }
    calls := calls + [GetSecret];
    if read.Failure? {
      return Some(read.AsError()), calls;
    }
    if read.body.id.None? {
      return Some(NilDereference("secret ID")), calls;
    }
    var parsed := ParseVersionedNestedItemId(read.body.id.value);
    if parsed.Err? {
      return Some(parsed.error), calls;
    }
    d.id := read.body.id.value;
    err := None;
  }

  /**
   * The update handler up to the final read: a changed value is written as a
   * new version with `SetSecret`; otherwise `UpdateSecret` changes only the
   * metadata and carries no value. The ID stored is the new versioned ID.
   */
  method Update(d: ResourceData, cfg: SecretConfig, valueChanged: bool,
                vaultLookup: Result<Option<string>>, vaultExists: Result<bool>,
                write: Reply<()>, read: Reply<SecretBundle>)
    returns (err: Option<Error>, calls: seq<SecretCall>)
    modifies d
    ensures ParseVersionedNestedItemId(old(d.id)).Err? ==> err.Some? && calls == [] && d.id == old(d.id)
    ensures ParseVersionedNestedItemId(old(d.id)).Ok? ==>
      var found := FindVault(vaultLookup, vaultExists, false);
      (found.LookupFailed? ==> err == Some(found.e) && calls == [] && d.id == old(d.id))
      && (found.Gone? ==> err.None? && calls == [] && d.id == "")
      && (found.Found? ==>
            |calls| >= 1 && calls[0] == UpdateWrite(cfg, valueChanged)
            && (write.Failure? ==> err == Some(write.AsError()) && |calls| == 1 && d.id == old(d.id))
            && (err.None? <==> WrittenVersion(write, read))
            && (err.None? ==> d.id == read.body.id.value && calls == [calls[0], GetSecret])
            && (err.Some? ==> d.id == old(d.id)))
  {
    calls := [];
    var id := ParseVersionedNestedItemId(d.id);
    if id.Err? {
      return Some(id.error), calls;
    }
    var found := FindVault(vaultLookup, vaultExists, false);
    if found.LookupFailed? {
      return Some(found.e), calls;
    }
    if found.Gone? {
      d.id := "";
      return None, calls;
    }
    err, calls := WriteVersion(d, cfg, valueChanged, write, read);
  }

  /** Only a changed value is sent, and then always as a new version. */
  lemma UpdateSendsValueIffChanged(cfg: SecretConfig, valueChanged: bool)
    ensures UpdateWrite(cfg, valueChanged).SetSecret? <==> valueChanged
    ensures UpdateWrite(cfg, valueChanged).SetSecret? ==> UpdateWrite(cfg, valueChanged).parameters.value == cfg.value
    ensures UpdateWrite(cfg, valueChanged).UpdateSecret? <==> !valueChanged
  {
  }

  /** What the read handler stores about a secret. */
  datatype SecretState = SecretState(
    name: string,
    value: Option<string>,
    version: string,
    contentType: Option<string>,
    notBefore: Option<string>,
    expires: Option<string>,
    tags: map<string, string>)

  /** The state stored for a secret whose versioned ID was parsed. */
  function StateOf(item: NestedItemId, bundle: SecretBundle): SecretState
  {
    var attributes := if bundle.attributes.Some? then bundle.attributes.value else SecretAttributes(None, None);
    SecretState(item.name, bundle.value, item.version, bundle.contentType,
      attributes.notBefore, attributes.expires, bundle.tags)
  }

  /**
   * The read handler. The secret is removed from state when its vault is
   * gone, when no vault matches its base URL, and when it is missing; the
   * version stored is the one of the ID the latest version is read with.
   */
  method Read(d: ResourceData, vaultLookup: Result<Option<string>>, vaultExists: Result<bool>,
              get: Reply<SecretBundle>)
    returns (err: Option<Error>, state: Option<SecretState>, calls: seq<SecretCall>)
    modifies d
    ensures ParseVersionedNestedItemId(old(d.id)).Err? ==> err.Some? && calls == [] && d.id == old(d.id)
    ensures ParseVersionedNestedItemId(old(d.id)).Ok? ==>
      var found := FindVault(vaultLookup, vaultExists, true);
      (found.LookupFailed? ==> err == Some(found.e) && calls == [] && d.id == old(d.id))
      && (found.Gone? ==> err.None? && state.None? && calls == [] && d.id == "")
      && (found.Found? ==>
            calls == [GetSecret]
            && (get.WasNotFound() ==> err.None? && state.None? && d.id == "")
            && (get.Failure? && !get.WasNotFound() ==> err == Some(get.AsError()) && d.id == old(d.id))
            && (get.Success? ==>
                  d.id == old(d.id)
                  && (get.body.id.None? ==> err.Some?)
                  && (get.body.id.Some? ==>
                        var parsed := ParseVersionedNestedItemId(get.body.id.value);
                        (parsed.Err? ==> err == Some(parsed.error) && state.None?)
                        && (parsed.Ok? ==> err.None? && state == Some(StateOf(parsed.value, get.body))))))
  {
    calls := [];
    state := None;
    var id := ParseVersionedNestedItemId(d.id);
    if id.Err? {
      return Some(id.error), None, calls;
    }
    var found := FindVault(vaultLookup, vaultExists, true);
    if found.LookupFailed? {
      return Some(found.e), None, calls;
    }
    if found.Gone? {
      d.id := "";
      return None, None, calls;
    }
    calls := calls + [GetSecret];
    if get.Failure? {
      if get.WasNotFound() {
        d.id := "";
        return None, None, calls;
      }
      return Some(get.AsError()), None, calls;
    }
    if get.body.id.None? {
      return Some(NilDereference("secret ID")), None, calls;
    }
    var respId := ParseVersionedNestedItemId(get.body.id.value);
    if respId.Err? {
      return Some(respId.error), None, calls;
    }
    var notBefore: Option<string> := None;
    var expires: Option<string> := None;
    if get.body.attributes.Some? {
      notBefore := get.body.attributes.value.notBefore;
      expires := get.body.attributes.value.expires;
    }
    state := Some(SecretState(respId.value.name, get.body.value, respId.value.version, get.body.contentType,
      notBefore, expires, get.body.tags));
    err := None;
  }

  /**
   * The version read back is the version the service names the secret
   * with: a secret read under `{vault}/secrets/{name}/{version}` is stored
   * with that name and that version.
   */
  lemma ReadStoresServiceVersion(scheme: string, host: string, name: string, version: string, bundle: SecretBundle)
    requires CanonicalScheme(scheme) && UrlSegment(host)
    requires name != "" && version != ""
    requires UrlSegment(name) && UrlSegment(version)
    ensures var item := NestedItemId(scheme + "://" + host + "/", "secrets", name, version);
      ParseVersionedNestedItemId(item.ID()) == Ok(item)
      && StateOf(item, bundle).version == version && StateOf(item, bundle).name == name
  {
    SecretsSegment();
    NestedItemIdRoundTrip(scheme, host, "secrets", name, version);
  }

  lemma SecretsSegment()
    ensures UrlSegment("secrets")
  {
  }

  /**
   * The delete handler: a vault that is gone removes the secret from state;
   * otherwise the secret is deleted and always purged, its deletion awaited
   * with `GetSecret` and its purge with `GetDeletedSecret`.
   */
  method Delete(d: ResourceData, vaultLookup: Result<Option<string>>, vaultExists: Result<bool>,
                hasDeadline: bool, replies: PurgeReplies)
    returns (err: Option<Error>, calls: seq<SecretCall>)
    modifies d
    ensures ParseVersionedNestedItemId(old(d.id)).Err? ==> err.Some? && calls == [] && d.id == old(d.id)
    ensures ParseVersionedNestedItemId(old(d.id)).Ok? ==>
      var found := FindVault(vaultLookup, vaultExists, false);
      (found.LookupFailed? ==> err == Some(found.e) && calls == [] && d.id == old(d.id))
      && (found.Gone? ==> err.None? && calls == [] && d.id == "")
      && (found.Found? ==>
            d.id == old(d.id)
            && (!hasDeadline ==> err.Some? && calls == [])
            && (hasDeadline ==> calls == SecretOperations(SequenceCalls(true, replies))
                                && (err.None? <==> SequenceSucceeds(true, replies))))
  {
    calls := [];
    var id := ParseVersionedNestedItemId(d.id);
    if id.Err? {
      return Some(id.error), calls;
    }
    var found := FindVault(vaultLookup, vaultExists, false);
    if found.LookupFailed? {
      return Some(found.e), calls;
    }
    if found.Gone? {
      d.id := "";
      return None, calls;
    }
    // The option to keep soft-deleted secrets is not implemented: secrets are always purged.
    var shouldPurge := true;
    var sequence;
    err, sequence := DeleteAndOptionallyPurge(hasDeadline, shouldPurge, replies);
    calls := SecretOperations(sequence);
  }

  /**
   * Deleting a secret waits for its deletion with `GetSecret` before it
   * purges it, and waits for the purge with `GetDeletedSecret`.
   */
  lemma DeleteChecksWithTheRightCalls(replies: PurgeReplies, k: nat)
    requires replies.delete.Success?
    requires k < |SecretOperations(SequenceCalls(true, replies))|
    ensures var calls := SecretOperations(SequenceCalls(true, replies));
      var n := PollsMade(WaitFor(replies.deletedPolls));
      (k == 0 ==> calls[k] == DeleteSecret)
      && (1 <= k <= n ==> calls[k] == GetSecret)
      && (k == n + 1 ==> calls[k] == PurgeDeletedSecret)
      && (k > n + 1 ==> calls[k] == GetDeletedSecret)
  {
    var deleted := WaitFor(replies.deletedPolls);
    var n := PollsMade(deleted);
    var head := [DeleteItem] + Repeat(PollDeleted, n);
    var tail := if deleted.Converged? then PurgeCalls(true, replies) else [];
    assert SequenceCalls(true, replies) == head + tail;
    if k > n && tail != [] {
      assert SequenceCalls(true, replies)[k] == tail[k - n - 1];
      if replies.purge.Success? {
        assert tail == [PurgeItem] + Repeat(PollPurged, PollsMade(WaitFor(replies.purgedPolls)));
      }
    }
  }
}
