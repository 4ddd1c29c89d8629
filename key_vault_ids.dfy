/**
 * The identifiers of `azurestack/resource_arm_key_vault.go`: the vault's
 * management-plane resource ID, the data-plane ID of a nested item (key,
 * secret or certificate), their validators, and the key under which an IP
 * rule is hashed into its set.
 *
 * The nested-item parser starts from Go's `url.ParseRequestURI`; the model
 * of that parser below keeps its scheme, query and authority rules and
 * leaves out percent-decoding, user information and host validation.
 */
module KeyVaultIds {
  import opened Common
  import opened Strings
  import opened ResourceIds
  import opened TypedIds

  // ---------------------------------------------------------------------
  // The vault's resource ID
  // ---------------------------------------------------------------------

  datatype VaultId = VaultId(subscriptionId: string, resourceGroup: string, name: string)
  {
    /** `/subscriptions/{s}/resourceGroups/{rg}/providers/Microsoft.KeyVault/vaults/{name}`. */
    function ID(): string
    {
      "/subscriptions/" + subscriptionId + "/resourceGroups/" + resourceGroup
        + "/providers/Microsoft.KeyVault/vaults/" + name
    }

    predicate Valid()
    {
      IsSegmentText(subscriptionId) && IsSegmentText(resourceGroup) && IsSegmentText(name)
    }
  }

  /** `VaultID`: a scoped ID whose only further pair is `vaults`. */
  function VaultID(input: string): (r: Result<VaultId>)
    ensures r.Ok? ==> r.value.Valid()
  {
    var id :- ParseScoped(input);
    var name :- PopOne(id.path, "vaults");
    Ok(VaultId(id.subscriptionId, id.resourceGroup, name))
  }

  /**
   * An ID is accepted exactly when it parses, names a subscription and a
   * resource group, and holds one `vaults` pair and nothing else.
   */
  lemma VaultIDAccepted(input: string)
    ensures var p := ResourceIds.Parse(input);
      VaultID(input).Ok? <==>
        (p.Ok? && p.value.resourceGroup != "" && |p.value.path| == 1 && p.value.path[0].key == "vaults")
    ensures VaultID(input).Ok? ==>
      var p := ResourceIds.Parse(input).value;
      VaultID(input).value == VaultId(p.subscriptionId, p.resourceGroup, p.path[0].value)
  {
    var p := ResourceIds.Parse(input);
    if p.Ok? {
      PopOneAccepted(p.value.path, "vaults");
    }
  }

  lemma VaultLiterals()
    ensures "/providers/" + "Microsoft.KeyVault" + ("/" + "vaults" + "/")
      == "/providers/Microsoft.KeyVault/vaults/"
  {
  }

  lemma VaultIdIsFormat(id: VaultId)
    ensures id.ID() == Format(Head(id.subscriptionId, id.resourceGroup, "Microsoft.KeyVault") + [Segment("vaults", id.name)])
  {
    FormatConventional1(id.subscriptionId, id.resourceGroup, "Microsoft.KeyVault", "vaults", id.name);
    VaultLiterals();
  }

  /** `VaultID(id.ID())` gives back the three fields. */
  lemma VaultIDRoundTrip(id: VaultId)
    requires id.Valid()
    ensures VaultID(id.ID()) == Ok(id)
  {
    VaultIdIsFormat(id);
    RoundTripOne(id.subscriptionId, id.resourceGroup, "Microsoft.KeyVault", "vaults", id.name);
  }

  /** The warnings and errors a schema validator returns. */
  datatype Checked = Checked(warnings: seq<string>, errors: seq<Error>)

  /** `validateVaultID`: the value is refused with the parser's own error. */
  function ValidateVaultID(v: string): (r: Checked)
    ensures r.warnings == []
    ensures r.errors == [] <==> VaultID(v).Ok?
    ensures r.errors != [] ==> r.errors == [VaultID(v).error]
  {
    match VaultID(v)
    case Ok(_) => Checked([], [])
    case Err(e) => Checked([], [e])
  }

  /** Every ID the provider itself writes for a vault passes the validator. */
  lemma ValidateVaultIDAcceptsOwnIds(id: VaultId)
    requires id.Valid()
    ensures ValidateVaultID(id.ID()).errors == []
  {
    VaultIDRoundTrip(id);
  }

  // ---------------------------------------------------------------------
  // URLs, as far as `url.ParseRequestURI` goes for nested-item IDs
  // ---------------------------------------------------------------------

  predicate IsLetter(c: char)
  {
    'a' <= c <= 'z' || 'A' <= c <= 'Z'
  }

  predicate IsSchemeChar(c: char)
  {
    IsLetter(c) || '0' <= c <= '9' || c == '+' || c == '-' || c == '.'
  }

  /** The end of the run of scheme characters that starts at `i`. */
  function SchemeEnd(s: string, i: nat): (j: nat)
    requires i <= |s|
    ensures i <= j <= |s|
    ensures forall k :: i <= k < j ==> IsSchemeChar(s[k])
    ensures j < |s| ==> !IsSchemeChar(s[j])
    decreases |s| - i
  {
    if i == |s| || !IsSchemeChar(s[i]) then i else SchemeEnd(s, i + 1)
  }

  /**
   * Go's `getScheme`: a letter followed by scheme characters up to the
   * first ":"; a leading ":" is an error; anything else has no scheme.
   */
  function GetScheme(s: string): (r: Result<(string, string)>)
    ensures r.Ok? && r.value.0 == "" ==> r.value.1 == s
    ensures r.Ok? && r.value.0 != "" ==> s == r.value.0 + ":" + r.value.1
    ensures r.Err? <==> |s| > 0 && s[0] == ':'
  {
    if |s| == 0 then Ok(("", s))
    else if s[0] == ':' then Err(MalformedId("missing protocol scheme"))
    else if !IsLetter(s[0]) then Ok(("", s))
    else
      var j := SchemeEnd(s, 1);
      if j < |s| && s[j] == ':' then
        assert s == s[..j] + ":" + s[j + 1..];
        Ok((s[..j], s[j + 1..]))
      else Ok(("", s))
  }

  /** The parts of a request URI the nested-item parser reads. */
  datatype Url = Url(scheme: string, host: string, path: string)

  /** Everything before the first occurrence of `c`. */
  function Before(s: string, c: char): (r: string)
    ensures c !in r
    ensures c !in s ==> r == s
    ensures HasPrefix(s, r)
  {
    var i := Find(s, [c]);
    FindPrefixFree(s, c);
    FindWhenAbsent(s, c);
    assert s[..i] == s[..|s[..i]|];
    s[..i]
  }

  /**
   * Go's `url` parser, as far as the parts used here go: "*" is the path
   * "*", the scheme is lower-cased, the query is cut off, an authority after
   * "//" runs to the next "/", and the rest is the path. A request URI
   * (`viaRequest`) must be non-empty and, without a scheme, an absolute
   * path; any other reference must not have a ":" in its first segment
   * when it has neither.
   */
  function ParseUri(s: string, viaRequest: bool): (r: Result<Url>)
    ensures r.Ok? ==> '?' !in r.value.path && '/' !in r.value.host
  {
    if s == "" && viaRequest then Err(MalformedId("empty url"))
    else if s == "*" then Ok(Url("", "", "*"))
    else
      var (scheme, afterScheme) :- GetScheme(s);
      var rest := Before(afterScheme, '?');
      if !HasPrefix(rest, "/") && scheme != "" then Ok(Url(ToLower(scheme), "", ""))
      else if !HasPrefix(rest, "/") && viaRequest then Err(MalformedId("invalid URI for request"))
      else if !HasPrefix(rest, "/") && ':' in Before(rest, '/') then Err(MalformedId("first path segment in URL cannot contain colon"))
      else if (scheme != "" || (!viaRequest && !HasPrefix(rest, "///"))) && HasPrefix(rest, "//") then
        var authority := rest[2..];
        var i := Find(authority, "/");
        FindPrefixFree(authority, '/');
        Ok(Url(ToLower(scheme), authority[..i], authority[i..]))
      else Ok(Url(ToLower(scheme), "", rest))
  }

  /** `url.ParseRequestURI`. */
  function ParseRequestUri(s: string): (r: Result<Url>)
    ensures r.Ok? ==> '?' !in r.value.path && '/' !in r.value.host
    ensures r.Ok? && r.value.scheme == "" ==> r.value.host == ""
    ensures s == "" ==> r.Err?
  {
    ParseUri(s, true)
  }

  /** `url.Parse`: the fragment after "#" is cut off first. */
  function ParseUrl(s: string): (r: Result<Url>)
    ensures r.Ok? ==> '/' !in r.value.host
  {
    ParseUri(Before(s, '#'), false)
  }

  lemma FindWhenAbsent(s: string, c: char)
    ensures c !in s ==> Find(s, [c]) == |s|
  {
    if c !in s {
      FindAbsent(s, c);
    }
  }

  /** No separator occurs before the first one. */
  lemma FindPrefixFree(s: string, c: char)
    ensures c !in s[..Find(s, [c])]
  {
    var i := Find(s, [c]);
    forall k | 0 <= k < i
      ensures s[k] != c
    {
      assert !OccursAt(s, [c], k);
      assert s[k..k + 1] == [s[k]];
    }
  }

  // ---------------------------------------------------------------------
  // Nested items
  // ---------------------------------------------------------------------

  /** A key, secret or certificate of a vault, by its data-plane URL. */
  datatype NestedItemId = NestedItemId(keyVaultBaseUrl: string, nestedItemType: string, name: string, version: string)
  {
    /** `{base without trailing "/"}/{type}/{name}[/{version}]`, without a trailing "/". */
    function ID(): string
    {
      var segments := [TrimSuffix(keyVaultBaseUrl, "/"), nestedItemType, name]
        + (if version != "" then [version] else []);
      TrimSuffix(Join(segments, "/"), "/")
    }
  }

  /**
   * `parseNestedItemId`: the URL's path, without its leading and trailing
   * "/", must have two or three "/"-separated components; the base URL is
   * rebuilt from the scheme and the host.
   */
  function ParseNestedItemId(id: string): (r: Result<NestedItemId>)
    ensures r.Ok? ==> ParseRequestUri(id).Ok?
    ensures r.Ok? ==>
      var url := ParseRequestUri(id).value;
      r.value.keyVaultBaseUrl == url.scheme + "://" + url.host + "/"
    ensures r.Ok? ==> '/' !in r.value.nestedItemType && '/' !in r.value.name && '/' !in r.value.version
  {
    var url :- ParseRequestUri(id);
    var path := TrimSuffix(TrimPrefix(url.path, "/"), "/");
    var components := Split(path, "/");
    SplitPiecesFree(path, '/');
    if |components| != 2 && |components| != 3 then Err(MalformedId(path))
    else
      var version := if |components| == 3 then components[2] else "";
      Ok(NestedItemId(url.scheme + "://" + url.host + "/", components[0], components[1], version))
  }

  /** The accepted shapes: exactly two or three components. */
  lemma ParseNestedItemIdComponents(id: string)
    requires ParseRequestUri(id).Ok?
    ensures var path := TrimSuffix(TrimPrefix(ParseRequestUri(id).value.path, "/"), "/");
      ParseNestedItemId(id).Ok? <==> |Split(path, "/")| == 2 || |Split(path, "/")| == 3
    ensures var path := TrimSuffix(TrimPrefix(ParseRequestUri(id).value.path, "/"), "/");
      ParseNestedItemId(id).Ok? ==>
        (ParseNestedItemId(id).value.version == "" <==> |Split(path, "/")| == 2 || Split(path, "/")[2] == "")
  {
  }

  /** `ParseNestedItemID`: as `parseNestedItemId`, but the ID must carry a version. */
  function ParseVersionedNestedItemId(id: string): (r: Result<NestedItemId>)
    ensures r.Ok? <==> ParseNestedItemId(id).Ok? && ParseNestedItemId(id).value.version != ""
    ensures r.Ok? ==> r == ParseNestedItemId(id)
  {
    var item :- ParseNestedItemId(id);
    if item.version == "" then Err(MalformedId(id)) else Ok(item)
  }

  /** A lower-case scheme name that `getScheme` recognises. */
  predicate CanonicalScheme(scheme: string)
  {
    |scheme| > 0 && IsLetter(scheme[0])
    && (forall i :: 0 <= i < |scheme| ==> IsSchemeChar(scheme[i]))
    && ToLower(scheme) == scheme
  }

  /** Text that may stand between two "/" of a nested-item URL. */
  predicate UrlSegment(t: string)
  {
    '/' !in t && '?' !in t
  }

  lemma JoinThree(a: string, b: string, c: string)
    ensures Join([a, b, c], "/") == a + "/" + b + "/" + c
  {
    assert [a, b, c][1..] == [b, c];
    assert [b, c][1..] == [c];
    assert Join([b, c], "/") == b + "/" + c;
  }

  lemma JoinFour(a: string, b: string, c: string, d: string)
    ensures Join([a, b, c, d], "/") == a + "/" + b + "/" + c + "/" + d
  {
    assert [a, b, c, d][1..] == [b, c, d];
    JoinThree(b, c, d);
  }

  /** A string that ends in a character other than "/" has no "/" to trim. */
  lemma NoTrailingSlash(prefix: string, last: string)
    requires last != "" && '/' !in last
    ensures TrimSuffix(prefix + last, "/") == prefix + last
  {
    var s := prefix + last;
    var c := last[|last| - 1];
    assert c in last;
    assert s[|s| - 1..] == [c];
  }

  /** The path of a nested item below its vault: `{type}/{name}[/{version}]`. */
  function ItemPath(nestedItemType: string, name: string, version: string): string
  {
    nestedItemType + "/" + name + (if version != "" then "/" + version else "")
  }

  /** The ID is the base URL without its trailing "/", then "/", then the item's path. */
  lemma NestedItemIdText(origin: string, nestedItemType: string, name: string, version: string)
    requires name != "" && '/' !in name && '/' !in version
    ensures NestedItemId(origin + "/", nestedItemType, name, version).ID()
      == origin + "/" + ItemPath(nestedItemType, name, version)
  {
    var base := origin + "/";
    assert HasSuffix(base, "/") by {
      assert base[|base| - 1..] == "/";
    }
    assert TrimSuffix(base, "/") == origin;
    if version != "" {
      JoinFour(origin, nestedItemType, name, version);
      assert [origin, nestedItemType, name] + [version] == [origin, nestedItemType, name, version];
      NoTrailingSlash(origin + "/" + nestedItemType + "/" + name + "/", version);
    } else {
      JoinThree(origin, nestedItemType, name);
      assert [origin, nestedItemType, name] + [] == [origin, nestedItemType, name];
      NoTrailingSlash(origin + "/" + nestedItemType + "/", name);
    }
  }

  /** `getScheme` stops at the ":" after a recognised scheme. */
  lemma SchemeSplits(scheme: string, rest: string)
    requires CanonicalScheme(scheme)
    ensures GetScheme(scheme + ":" + rest) == Ok((scheme, rest))
  {
    var s := scheme + ":" + rest;
    assert s[0] == scheme[0];
    var j := SchemeEnd(s, 1);
    forall k | 1 <= k < |scheme|
      ensures IsSchemeChar(s[k])
    {
      assert s[k] == scheme[k];
    }
    assert s[|scheme|] == ':';
    assert j == |scheme|;
    assert s[..j] == scheme;
    assert s[j + 1..] == rest;
  }

  /** The text after the scheme of `{scheme}://{host}/{path}`: an authority, then the path. */
  lemma AuthorityText(host: string, p: string)
    requires UrlSegment(host) && '?' !in p
    ensures var after := "//" + host + "/" + p;
      && '?' !in after && HasPrefix(after, "/") && HasPrefix(after, "//")
      && after[2..] == host + "/" + p
  {
    var after := "//" + host + "/" + p;
    assert after[..1] == "/";
    assert after[..2] == "//";
    assert after[2..] == host + "/" + p;
  }

  /** The authority `{host}/{path}` ends at its first slash. */
  lemma AuthorityEnds(host: string, p: string)
    requires UrlSegment(host)
    ensures var authority := host + "/" + p;
      && Find(authority, "/") == |host|
      && authority[..|host|] == host && authority[|host|..] == "/" + p
  {
    var authority := host + "/" + p;
    FindBefore(host, '/', p);
    assert authority[..|host|] == host;
    assert authority[|host|..] == "/" + p;
  }

  /** The request URI parser reads `{scheme}://{host}/{path}` as that scheme, host and path. */
  lemma ParseUriAuthority(scheme: string, host: string, p: string, viaRequest: bool)
    requires CanonicalScheme(scheme) && UrlSegment(host) && '?' !in p
    ensures ParseUri(scheme + "://" + host + "/" + p, viaRequest) == Ok(Url(scheme, host, "/" + p))
  {
    var after := "//" + host + "/" + p;
    var s := scheme + "://" + host + "/" + p;
    assert s == scheme + ":" + after;
    SchemeSplits(scheme, after);
    AuthorityText(host, p);
    assert Before(after, '?') == after;
    AuthorityEnds(host, p);
  }

  /** The same, for the URI of a host's root, `{scheme}://{host}/`. */
  lemma ParseRootUri(scheme: string, host: string, viaRequest: bool)
    requires CanonicalScheme(scheme) && UrlSegment(host)
    ensures ParseUri(scheme + "://" + host + "/", viaRequest) == Ok(Url(scheme, host, "/"))
  {
    ParseUriAuthority(scheme, host, "", viaRequest);
    RootUriText(scheme, host);
  }

  lemma RootUriText(scheme: string, host: string)
    ensures scheme + "://" + host + "/" + "" == scheme + "://" + host + "/" && "/" + "" == "/"
  {
  }

  /** The path `{type}/{name}[/{version}]` splits back into its components. */
  lemma ItemPathSplits(nestedItemType: string, name: string, version: string)
    requires '/' !in nestedItemType && '/' !in name && '/' !in version
    ensures Split(ItemPath(nestedItemType, name, version), "/")
      == [nestedItemType, name] + (if version != "" then [version] else [])
  {
    if version != "" {
      assert ItemPath(nestedItemType, name, version) == nestedItemType + "/" + name + "/" + version;
      JoinThree(nestedItemType, name, version);
      SplitJoin([nestedItemType, name, version], '/');
      assert [nestedItemType, name] + [version] == [nestedItemType, name, version];
    } else {
      assert ItemPath(nestedItemType, name, version) == nestedItemType + "/" + name;
      assert Join([nestedItemType, name], "/") == nestedItemType + "/" + name by {
        assert [nestedItemType, name][1..] == [name];
      }
      SplitJoin([nestedItemType, name], '/');
    }
  }

  /** The leading and trailing "/" trims leave exactly the item's path. */
  lemma ItemPathTrimmed(nestedItemType: string, name: string, version: string)
    requires name != "" && '/' !in name && '/' !in version
    ensures TrimSuffix(TrimPrefix("/" + ItemPath(nestedItemType, name, version), "/"), "/")
      == ItemPath(nestedItemType, name, version)
  {
    var p := ItemPath(nestedItemType, name, version);
    var path := "/" + p;
    assert HasPrefix(path, "/") by {
      assert path[..1] == "/";
    }
    assert TrimPrefix(path, "/") == p;
    if version != "" {
      assert p == nestedItemType + "/" + name + "/" + version;
      NoTrailingSlash(nestedItemType + "/" + name + "/", version);
    } else {
      assert p == nestedItemType + "/" + name;
      NoTrailingSlash(nestedItemType + "/", name);
    }
  }

  /** What the nested-item parser makes of a URL whose trimmed path has the given components. */
  lemma ParseNestedItemIdOf(id: string, url: Url, components: seq<string>)
    requires ParseRequestUri(id) == Ok(url)
    requires Split(TrimSuffix(TrimPrefix(url.path, "/"), "/"), "/") == components
    requires |components| == 2 || |components| == 3
    ensures ParseNestedItemId(id) == Ok(NestedItemId(url.scheme + "://" + url.host + "/",
      components[0], components[1], if |components| == 3 then components[2] else ""))
  {
  }

  /**
   * Parsing the ID of a nested item gives back the item, with its base URL
   * in the canonical `{scheme}://{host}/` form.
   */
  lemma NestedItemIdRoundTrip(scheme: string, host: string, nestedItemType: string, name: string, version: string)
    requires CanonicalScheme(scheme) && UrlSegment(host)
    requires nestedItemType != "" && name != ""
    requires UrlSegment(nestedItemType) && UrlSegment(name) && UrlSegment(version)
    ensures var item := NestedItemId(scheme + "://" + host + "/", nestedItemType, name, version);
      ParseNestedItemId(item.ID()) == Ok(item)
  {
    var origin := scheme + "://" + host;
    var p := ItemPath(nestedItemType, name, version);
    NestedItemIdText(origin, nestedItemType, name, version);
    assert '?' !in p;
    ParseUriAuthority(scheme, host, p, true);
    assert origin + "/" + p == scheme + "://" + host + "/" + p;
    ItemPathTrimmed(nestedItemType, name, version);
    ItemPathSplits(nestedItemType, name, version);
    ParseNestedItemIdOf(origin + "/" + p, Url(scheme, host, "/" + p),
      [nestedItemType, name] + (if version != "" then [version] else []));
  }

  /** A base URL with or without its trailing "/" gives the same ID. */
  lemma NestedItemIdTrimsBase(origin: string, nestedItemType: string, name: string, version: string)
    requires !HasSuffix(origin, "/")
    ensures NestedItemId(origin + "/", nestedItemType, name, version).ID()
      == NestedItemId(origin, nestedItemType, name, version).ID()
  {
    var base := origin + "/";
    assert HasSuffix(base, "/") by {
      assert base[|base| - 1..] == "/";
    }
    assert TrimSuffix(base, "/") == origin;
  }

  /** A versionless ID is refused by the versioned parser, and a versioned one is accepted. */
  lemma VersionedRoundTrip(scheme: string, host: string, nestedItemType: string, name: string, version: string)
    requires CanonicalScheme(scheme) && UrlSegment(host)
    requires nestedItemType != "" && name != ""
    requires UrlSegment(nestedItemType) && UrlSegment(name) && UrlSegment(version)
    ensures var item := NestedItemId(scheme + "://" + host + "/", nestedItemType, name, version);
      ParseVersionedNestedItemId(item.ID()).Ok? <==> version != ""
  {
    NestedItemIdRoundTrip(scheme, host, nestedItemType, name, version);
  }

  // ---------------------------------------------------------------------
  // Validators and hashing
  // ---------------------------------------------------------------------

  predicate IsNameChar(c: char)
  {
    'a' <= c <= 'z' || 'A' <= c <= 'Z' || '0' <= c <= '9' || c == '-'
  }

  /** `validateNestedItemName`: `^[0-9a-zA-Z-]+$`. */
  function ValidateNestedItemName(value: string, k: string): (r: Checked)
    ensures r.warnings == []
    ensures r.errors == [] <==> value != "" && forall i :: 0 <= i < |value| ==> IsNameChar(value[i])
    ensures r.errors == [] ==> UrlSegment(value)
  {
    if value != "" && forall i :: 0 <= i < |value| ==> IsNameChar(value[i]) then Checked([], [])
    else Checked([], [Invalid(k + " may only contain alphanumeric characters and dashes")])
  }

  /** One to three decimal digits, without a leading zero, at most 255. */
  predicate IsOctet(t: string)
  {
    1 <= |t| <= 3
    && (forall i :: 0 <= i < |t| ==> '0' <= t[i] <= '9')
    && (|t| > 1 ==> t[0] != '0')
    && DecimalValue(t) <= 255
  }

  function DecimalValue(t: string): nat
  {
    if |t| == 0 then 0
    else
      var d := t[|t| - 1] as int - '0' as int;
      DecimalValue(t[..|t| - 1]) * 10 + (if 0 <= d <= 9 then d else 0)
  }

  /**
   * A dotted-quad IPv4 address without leading zeros.  This is the plain
   * IPv4 form only: the IPv6 spellings that `net.ParseIP(v).To4()` also maps
   * to IPv4 (such as `::ffff:10.0.0.1`) are not included.
   */
  predicate IsIPv4Address(s: string)
  {
    var parts := Split(s, ".");
    |parts| == 4 && forall i :: 0 <= i < 4 ==> IsOctet(parts[i])
  }

  /**
   * `HashIPv4AddressOrCIDR`: the string that is hashed. A bare IPv4
   * address is hashed as its `/32` network; anything else as written.
   */
  function IPv4HashKey(v: string): (r: string)
    ensures IsIPv4Address(v) ==> r == v + "/32"
    ensures !IsIPv4Address(v) ==> r == v
  {
    if IsIPv4Address(v) then v + "/32" else v
  }

  /** Joining pieces that avoid a character other than the separator avoids it too. */
  lemma {:induction false} JoinAvoids(parts: seq<string>, c: char)
    requires c != '.'
    requires forall k :: 0 <= k < |parts| ==> c !in parts[k]
    ensures c !in Join(parts, ".")
    decreases |parts|
  {
    if |parts| > 1 {
      JoinAvoids(parts[1..], c);
      assert forall k :: 0 <= k < |parts| - 1 ==> parts[1..][k] == parts[k + 1];
    }
  }

  /** An address is digits and dots only, so it has no "/". */
  lemma AddressHasNoSlash(s: string)
    ensures IsIPv4Address(s) ==> '/' !in s
  {
    if IsIPv4Address(s) {
      var parts := Split(s, ".");
      forall k | 0 <= k < |parts|
        ensures '/' !in parts[k]
      {
        assert IsOctet(parts[k]);
      }
      JoinAvoids(parts, '/');
      JoinSplit(s, ".");
    }
  }

  /** An address and its `/32` network fall into the same set slot. */
  lemma AddressAndHostNetworkHashAlike(v: string)
    requires IsIPv4Address(v)
    ensures IPv4HashKey(v) == IPv4HashKey(v + "/32")
  {
    var w := v + "/32";
    assert w[|v|] == '/';
    AddressHasNoSlash(w);
  }
}
