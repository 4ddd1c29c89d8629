/**
 * The provider client's shared state in `azurestack/config.go`: the
 * vault-details cache keyed by lower-cased vault name, the storage-account
 * key cache keyed by `resourceGroup/account`, and the client's user agent.
 * The package-level maps are fields of the client object here; their
 * mutexes are left out, so each operation runs on its own.
 */
module Config {
  import opened Common
  import opened Strings
  import opened KeyVaultIds
  import opened KeyVaultModels

  /** `keyVaultDetails`. */
  datatype KeyVaultDetails = KeyVaultDetails(keyVaultId: string, dataPlaneBaseUri: string, resourceGroup: string)

  /** `cacheKeyForKeyVault`: names that differ only in case share a key. */
  function CacheKeyForKeyVault(name: string): (key: string)
    ensures |key| == |name|
    ensures EqualFold(key, name)
    ensures ToLower(key) == key
  {
    ToLowerIdempotent(name);
    ToLower(name)
  }

  /** `parseKeyVaultNameFromBaseUrl`: the host's first dot-separated label. */
  function ParseKeyVaultNameFromBaseUrl(input: string): (r: Result<string>)
    ensures r.Ok? <==> ParseUrl(input).Ok?
    ensures r.Err? ==> r.error == ParseUrl(input).error
    ensures r.Ok? ==> var host := ParseUrl(input).value.host;
      '.' !in r.value && (r.value == host || HasPrefix(host, r.value + "."))
  {
    var uri :- ParseUrl(input);
    var segments := Split(uri.host, ".");
    FirstPieceIsPrefix(uri.host, '.');
    Ok(segments[0])
  }

  /** The first piece of a split is the text before the first separator. */
  lemma FirstPieceIsPrefix(s: string, c: char)
    ensures c !in Split(s, [c])[0] && HasPrefix(s, Split(s, [c])[0])
    ensures Split(s, [c])[0] == s || HasPrefix(s, Split(s, [c])[0] + [c])
  {
    SplitPiecesFree(s, c);
    var parts := Split(s, [c]);
    JoinSplit(s, [c]);
    if |parts| > 1 {
      assert s == parts[0] + [c] + Join(parts[1..], [c]);
      assert s[..|parts[0]|] == parts[0];
      assert s[..|parts[0]| + 1] == parts[0] + [c];
    } else {
      assert s == parts[0];
    }
  }

  lemma BaseUrlLiterals(scheme: string, name: string, suffix: string)
    ensures scheme + "://" + name + "." + suffix + "/" == scheme + "://" + (name + "." + suffix) + "/" + ""
  {
  }

  /** A scheme has no '#'. */
  lemma SchemeHasNoHash(scheme: string)
    requires CanonicalScheme(scheme)
    ensures '#' !in scheme
  {
    forall i | 0 <= i < |scheme|
      ensures scheme[i] != '#'
    {
      assert IsSchemeChar(scheme[i]);
    }
  }

  /** Without a fragment, `url.Parse` is the URI parse of the whole text. */
  lemma ParseUrlWithoutFragment(s: string)
    requires '#' !in s
    ensures ParseUrl(s) == ParseUri(s, false)
  {
    assert Before(s, '#') == s;
  }

  /** A base URL without a fragment parses to its scheme and host. */
  lemma BaseUrlParses(scheme: string, host: string)
    requires CanonicalScheme(scheme) && UrlSegment(host) && '#' !in host
    ensures ParseUrl(scheme + "://" + host + "/") == Ok(Url(scheme, host, "/"))
  {
    var url := scheme + "://" + host + "/";
    SchemeHasNoHash(scheme);
    UrlHasNoHash(scheme, host);
    ParseUrlWithoutFragment(url);
    ParseRootUri(scheme, host, false);
  }

  lemma UrlHasNoHash(scheme: string, host: string)
    requires '#' !in scheme && '#' !in host
    ensures '#' !in scheme + "://" + host + "/"
  {
    assert '#' !in "://" && '#' !in "/";
  }

  /** The data-plane URI of a vault, `{scheme}://{name}.{suffix}/`, names that vault. */
  lemma VaultNameFromBaseUrl(scheme: string, name: string, suffix: string)
    requires CanonicalScheme(scheme)
    requires UrlSegment(name) && UrlSegment(suffix) && '.' !in name && '#' !in name && '#' !in suffix
    ensures ParseKeyVaultNameFromBaseUrl(scheme + "://" + name + "." + suffix + "/") == Ok(name)
  {
    var host := name + "." + suffix;
    var url := scheme + "://" + name + "." + suffix + "/";
    assert url == scheme + "://" + host + "/";
    BaseUrlParses(scheme, host);
    SplitHead(name, '.', suffix);
    assert Split(host, ".")[0] == name;
  }

  /** Splitting `p + [c] + r`, with `c` not in `p`, starts with `p`. */
  lemma SplitHead(p: string, c: char, r: string)
    requires c !in p
    ensures Split(p + [c] + r, [c])[0] == p
  {
    var s := p + [c] + r;
    FindBefore(p, c, r);
    assert s[..|p|] == p;
  }

  /** One page of a resource listing: the IDs on it and the reply to the request for the next page. */
  datatype Page = Page(ids: seq<Option<string>>, next: Reply<()>)

  /** How a scan of a listing for a vault name ends. */
  datatype Scan = Found(id: VaultId) | Broken(error: Error) | Exhausted

  /**
   * The first decisive entry of one page: an ID that does not parse as a
   * vault, or a vault whose name matches up to case. Absent IDs are skipped.
   */
  function ScanIds(ids: seq<Option<string>>, name: string): (r: Option<Scan>)
    ensures r.Some? ==> !r.value.Exhausted?
    ensures r.Some? && r.value.Found? ==> EqualFold(r.value.id.name, name)
  {
    if |ids| == 0 then None
    else if ids[0].None? then ScanIds(ids[1..], name)
    else
      match VaultID(ids[0].value)
      case Err(e) => Some(Broken(e))
      case Ok(id) => if EqualFold(id.name, name) then Some(Found(id)) else ScanIds(ids[1..], name)
  }

  /** The pages in order; a failed request for the next page ends the scan. */
  function ScanPages(pages: seq<Page>, name: string): (r: Scan)
    ensures r.Found? ==> EqualFold(r.id.name, name)
  {
    if |pages| == 0 then Exhausted
    else
      match ScanIds(pages[0].ids, name)
      case Some(outcome) => outcome
      case None =>
        if pages[0].next.Failure? then Broken(pages[0].next.AsError()) else ScanPages(pages[1..], name)
  }

  /** The remote calls of the vault lookup. */
  datatype LookupCall = ListVaults(name: string) | GetVault(resourceGroup: string, name: string)

  /** The reply to a storage account's key listing: the keys, each possibly without a value. */
  type KeyList = Option<seq<Option<string>>>

  /** `httpclient.TerraformUserAgent` and the Cloud Shell agent combined with an existing agent. */
  function UserAgentWith(current: string, terraformAgent: string, azureAgent: string): string
  {
    (if current != "" then current + " " + terraformAgent else terraformAgent)
      + (if azureAgent != "" then " " + azureAgent else "")
  }

  /** With space-free, non-empty parts, the agent is those parts in order, separated by single spaces. */
  lemma UserAgentParts(current: string, terraformAgent: string, azureAgent: string)
    requires current != "" && terraformAgent != "" && azureAgent != ""
    requires ' ' !in current && ' ' !in terraformAgent && ' ' !in azureAgent
    ensures Split(UserAgentWith(current, terraformAgent, azureAgent), " ") == [current, terraformAgent, azureAgent]
  {
    assert Join([current, terraformAgent, azureAgent], " ") == current + " " + terraformAgent + " " + azureAgent by {
      assert [current, terraformAgent, azureAgent][1..] == [terraformAgent, azureAgent];
      assert [terraformAgent, azureAgent][1..] == [azureAgent];
      assert Join([terraformAgent, azureAgent], " ") == terraformAgent + " " + azureAgent;
    }
    assert UserAgentWith(current, terraformAgent, azureAgent) == current + " " + terraformAgent + " " + azureAgent;
    SplitJoin([current, terraformAgent, azureAgent], ' ');
  }

  /** An empty agent is replaced, so the Terraform agent comes first. */
  lemma UserAgentFresh(terraformAgent: string, azureAgent: string)
    ensures HasPrefix(UserAgentWith("", terraformAgent, azureAgent), terraformAgent)
  {
    var r := UserAgentWith("", terraformAgent, azureAgent);
    assert r[..|terraformAgent|] == terraformAgent;
  }

  /** The provider client, with the caches it shares between resources. */
  class ArmClient {
    var keyVaultsCache: map<string, KeyVaultDetails>
    var storageKeyCache: map<string, string>
    var userAgent: string

    constructor ()
      ensures keyVaultsCache == map[] && storageKeyCache == map[] && userAgent == ""
    {
      keyVaultsCache := map[];
      storageKeyCache := map[];
      userAgent := "";
    }

    /** `setUserAgent`: the Terraform agent after any existing one, then the Cloud Shell agent if set. */
    method SetUserAgent(terraformAgent: string, azureAgent: string)
      modifies this
      ensures userAgent == UserAgentWith(old(userAgent), terraformAgent, azureAgent)
      ensures keyVaultsCache == old(keyVaultsCache) && storageKeyCache == old(storageKeyCache)
    {
      if userAgent != "" {
        userAgent := userAgent + " " + terraformAgent;
      } else {
        userAgent := terraformAgent;
      }
      if azureAgent != "" {
        userAgent := userAgent + " " + azureAgent;
      }
    }

    /** `AddKeyVaultToCache`: inserts or overwrites one entry; no other key changes. */
    method AddKeyVaultToCache(id: VaultId, dataPlaneUri: string)
      modifies this
      ensures keyVaultsCache == old(keyVaultsCache)[CacheKeyForKeyVault(id.name) := KeyVaultDetails(id.ID(), dataPlaneUri, id.resourceGroup)]
      ensures storageKeyCache == old(storageKeyCache) && userAgent == old(userAgent)
    {
      var key := CacheKeyForKeyVault(id.name);
      keyVaultsCache := keyVaultsCache[key := KeyVaultDetails(id.ID(), dataPlaneUri, id.resourceGroup)];
    }

    /** `PurgeKeyVaultCache`: removes exactly that vault's entry. */
    method PurgeKeyVaultCache(id: VaultId)
      modifies this
      ensures keyVaultsCache == old(keyVaultsCache) - {CacheKeyForKeyVault(id.name)}
      ensures storageKeyCache == old(storageKeyCache) && userAgent == old(userAgent)
    {
      var key := CacheKeyForKeyVault(id.name);
      keyVaultsCache := keyVaultsCache - {key};
    }

    /**
     * `KeyVaultExists`: a cached vault exists without a remote call;
     * otherwise the vault is read, and cached when it has a URI.
     */
    method KeyVaultExists(id: VaultId, get: Reply<Vault>) returns (found: bool, err: Option<Error>, called: bool)
      modifies this
      ensures CacheKeyForKeyVault(id.name) in old(keyVaultsCache) ==>
        found && err.None? && !called && keyVaultsCache == old(keyVaultsCache)
      ensures CacheKeyForKeyVault(id.name) !in old(keyVaultsCache) ==> called
      ensures called && get.WasNotFound() ==> !found && err.None? && keyVaultsCache == old(keyVaultsCache)
      ensures called && get.Failure? && !get.WasNotFound() ==>
        !found && err == Some(get.AsError()) && keyVaultsCache == old(keyVaultsCache)
      ensures called && get.Success? && (get.body.properties.None? || get.body.properties.value.vaultUri.None?) ==>
        !found && err.Some? && keyVaultsCache == old(keyVaultsCache)
      ensures called && get.Success? && get.body.properties.Some? && get.body.properties.value.vaultUri.Some? ==>
        found && err.None?
        && keyVaultsCache == old(keyVaultsCache)[CacheKeyForKeyVault(id.name) :=
             KeyVaultDetails(id.ID(), get.body.properties.value.vaultUri.value, id.resourceGroup)]
      ensures storageKeyCache == old(storageKeyCache) && userAgent == old(userAgent)
    {
      var key := CacheKeyForKeyVault(id.name);
      if key in keyVaultsCache {
        return true, None, false;
      }
      called := true;
      if get.Failure? {
        if get.WasNotFound() {
          return false, None, called;
        }
        return false, Some(get.AsError()), called;
      }
      if get.body.properties.None? || get.body.properties.value.vaultUri.None? {
        return false, Some(Missing("properties")), called;
      }
      AddKeyVaultToCache(id, get.body.properties.value.vaultUri.value);
      found, err := true, None;
    }

    /**
     * `KeyVaultIDFromBaseUrl`: the vault's resource ID for its data-plane
     * URL. A cached name answers at once; otherwise the listing is scanned
     * page by page for a vault whose name matches up to case, which is then
     * read and cached. A listing without a match gives no ID and no error.
     */
    method KeyVaultIDFromBaseUrl(baseUrl: string, list: Reply<()>, pages: seq<Page>, get: Reply<Vault>)
      returns (id: Option<string>, err: Option<Error>, calls: seq<LookupCall>)
      modifies this
      ensures ParseKeyVaultNameFromBaseUrl(baseUrl).Err? ==>
        id.None? && err.Some? && calls == [] && keyVaultsCache == old(keyVaultsCache)
      ensures ParseKeyVaultNameFromBaseUrl(baseUrl).Ok? ==>
        var name := ParseKeyVaultNameFromBaseUrl(baseUrl).value;
        var key := CacheKeyForKeyVault(name);
        (key in old(keyVaultsCache) ==>
           id == Some(old(keyVaultsCache)[key].keyVaultId) && err.None? && calls == [] && keyVaultsCache == old(keyVaultsCache))
        && (key !in old(keyVaultsCache) && list.Failure? ==>
              id.None? && err == Some(list.AsError()) && calls == [ListVaults(name)] && keyVaultsCache == old(keyVaultsCache))
        && (key !in old(keyVaultsCache) && list.Success? ==> LookedUp(name, pages, get, id, err, calls, old(keyVaultsCache), keyVaultsCache))
      ensures storageKeyCache == old(storageKeyCache) && userAgent == old(userAgent)
    {
      var parsed := ParseKeyVaultNameFromBaseUrl(baseUrl);
      if parsed.Err? {
        return None, Some(parsed.error), [];
      }
      var name := parsed.value;
      var key := CacheKeyForKeyVault(name);
      if key in keyVaultsCache {
        return Some(keyVaultsCache[key].keyVaultId), None, [];
      }
      calls := [ListVaults(name)];
      if list.Failure? {
        return None, Some(list.AsError()), calls;
      }
      var scan := ScanListing(pages, name);
      match scan {
        case Exhausted =>
          id, err := None, None;
        case Broken(e) =>
          id, err := None, Some(e);
        case Found(vault) =>
          calls := calls + [GetVault(vault.resourceGroup, vault.name)];
          if get.Failure? {
            return None, Some(get.AsError()), calls;
          }
          if get.body.properties.None? || get.body.properties.value.vaultUri.None? {
            return None, Some(Missing("properties.VaultUri")), calls;
          }
          AddKeyVaultToCache(vault, get.body.properties.value.vaultUri.value);
          id, err := Some(vault.ID()), None;
      }
    }

    /**
     * `getKeyForStorageAccount`: a cached key answers at once; otherwise the
     * keys are listed, and the first one is cached when it has a value. A
     * missing account is not an error; any other failure keeps the account
     * as existing.
     */
    method GetKeyForStorageAccount(resourceGroup: string, account: string, listKeys: Reply<KeyList>)
      returns (key: string, found: bool, err: Option<Error>, called: bool)
      modifies this
      ensures var index := resourceGroup + "/" + account;
        (index in old(storageKeyCache) ==>
           key == old(storageKeyCache)[index] && found && err.None? && !called && storageKeyCache == old(storageKeyCache))
        && (index !in old(storageKeyCache) ==> called)
        && (called && listKeys.WasNotFound() ==> key == "" && !found && err.None? && storageKeyCache == old(storageKeyCache))
        && (called && listKeys.Failure? && !listKeys.WasNotFound() ==>
              key == "" && found && err == Some(listKeys.AsError()) && storageKeyCache == old(storageKeyCache))
        && (called && listKeys.Success? && !HasFirstKey(listKeys.body) ==>
              key == "" && !found && err.Some? && storageKeyCache == old(storageKeyCache))
        && (called && listKeys.Success? && HasFirstKey(listKeys.body) ==>
              key == listKeys.body.value[0].value && found && err.None?
              && storageKeyCache == old(storageKeyCache)[index := key])
      ensures keyVaultsCache == old(keyVaultsCache) && userAgent == old(userAgent)
    {
      var index := resourceGroup + "/" + account;
      if index in storageKeyCache {
        return storageKeyCache[index], true, None, false;
      }
      called := true;
      if listKeys.WasNotFound() {
        return "", false, None, called;
      }
      if listKeys.Failure? {
        return "", true, Some(listKeys.AsError()), called;
      }
      var keys := listKeys.body;
      if keys.None? {
        return "", false, Some(Missing("keys")), called;
      }
      if |keys.value| <= 0 {
        return "", false, Some(Missing("keys")), called;
      }
      if keys.value[0].None? {
        return "", false, Some(Missing("first key")), called;
      }
      key := keys.value[0].value;
      storageKeyCache := storageKeyCache[index := key];
      found, err := true, None;
    }
  }

  /** The key listing holds a first key with a value. */
  predicate HasFirstKey(keys: KeyList)
  {
    keys.Some? && |keys.value| > 0 && keys.value[0].Some?
  }

  /** The outcome of a vault lookup that listed the vaults, per the scan of the pages. */
  predicate LookedUp(name: string, pages: seq<Page>, get: Reply<Vault>,
                     id: Option<string>, err: Option<Error>, calls: seq<LookupCall>,
                     before: map<string, KeyVaultDetails>, after: map<string, KeyVaultDetails>)
  {
    match ScanPages(pages, name)
    case Exhausted => id.None? && err.None? && calls == [ListVaults(name)] && after == before
    case Broken(e) => id.None? && err == Some(e) && calls == [ListVaults(name)] && after == before
    case Found(vault) =>
      calls == [ListVaults(name), GetVault(vault.resourceGroup, vault.name)]
      && (get.Failure? ==> id.None? && err == Some(get.AsError()) && after == before)
      && (get.Success? && (get.body.properties.None? || get.body.properties.value.vaultUri.None?) ==>
            id.None? && err.Some? && after == before)
      && (get.Success? && get.body.properties.Some? && get.body.properties.value.vaultUri.Some? ==>
            id == Some(vault.ID()) && err.None?
            && after == before[CacheKeyForKeyVault(vault.name) :=
                 KeyVaultDetails(vault.ID(), get.body.properties.value.vaultUri.value, vault.resourceGroup)])
  }

  /** The paging loop of the lookup: pages in order, and the IDs of each page in order. */
  method ScanListing(pages: seq<Page>, name: string) returns (scan: Scan)
    ensures scan == ScanPages(pages, name)
  {
    var p := 0;
    while p < |pages|
      invariant 0 <= p <= |pages|
      invariant ScanPages(pages, name) == ScanPages(pages[p..], name)
    {
      var ids := pages[p].ids;
      var i := 0;
      while i < |ids|
        invariant 0 <= i <= |ids|
        invariant ScanIds(ids, name) == ScanIds(ids[i..], name)
      {
        assert ids[i..][1..] == ids[i + 1..];
        if ids[i].Some? {
          var parsed := VaultID(ids[i].value);
          if parsed.Err? {
            return Broken(parsed.error);
          }
          if EqualFold(parsed.value.name, name) {
            return Found(parsed.value);
          }
        }
        i := i + 1;
      }
      assert ScanIds(ids, name).None?;
      assert pages[p..][1..] == pages[p + 1..];
      if pages[p].next.Failure? {
        return Broken(pages[p].next.AsError());
      }
      p := p + 1;
    }
    scan := Exhausted;
  }

  /** After a successful lookup, the vault's entry is under the key of the name that was looked up. */
  lemma LookupCachesUnderName(name: string, pages: seq<Page>, get: Reply<Vault>,
                              id: Option<string>, err: Option<Error>, calls: seq<LookupCall>,
                              before: map<string, KeyVaultDetails>, after: map<string, KeyVaultDetails>)
    requires LookedUp(name, pages, get, id, err, calls, before, after)
    requires id.Some?
    ensures CacheKeyForKeyVault(name) in after && after[CacheKeyForKeyVault(name)].keyVaultId == id.value
  {
    var vault := ScanPages(pages, name).id;
    assert ToLower(vault.name) == ToLower(name);
  }
}
