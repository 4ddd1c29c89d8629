/**
 * The `network_acls` block of the key vault resource
 * (`azurestack/resource_arm_key_vault.go`): its expansion into the API's
 * `NetworkRuleSet`, the flattening of a rule set back into state, and the
 * list of virtual network names the handlers lock before they touch a vault
 * whose rules name subnets.
 */
module KeyVaultAcls {
  import opened Common
  import opened KeyVaultModels
  import opened Subnets

  // ---------------------------------------------------------------------
  // Expansion
  // ---------------------------------------------------------------------

  /** One rule per configured address, in order, each carrying that address. */
  predicate IpRulesFor(values: seq<string>, rules: seq<IpRule>)
  {
    |rules| == |values| && forall i :: 0 <= i < |values| ==> rules[i] == IpRule(Some(values[i]))
  }

  /** One rule per configured subnet ID, in order, each carrying that ID as given. */
  predicate VirtualNetworkRulesFor(ids: seq<string>, rules: seq<VirtualNetworkRule>)
  {
    |rules| == |ids| && forall i :: 0 <= i < |ids| ==> rules[i] == VirtualNetworkRule(Some(ids[i]))
  }

  /** The subnet IDs a configuration names: those of its first block, or none. */
  function ConfiguredSubnetIds(input: seq<AclBlock>): seq<string>
  {
    if |input| == 0 then [] else input[0].subnetIds
  }

  /**
   * The rule set sent for the configured blocks: none when there is no
   * block, otherwise the first block's bypass and default action with one
   * rule per address and one per subnet ID.
   */
  predicate ExpandsTo(input: seq<AclBlock>, ruleSet: Option<NetworkRuleSet>)
  {
    if |input| == 0 then ruleSet.None?
    else
      ruleSet.Some?
      && ruleSet.value.bypass == input[0].bypass
      && ruleSet.value.defaultAction == input[0].defaultAction
      && ruleSet.value.ipRules.Some? && IpRulesFor(input[0].ipRules, ruleSet.value.ipRules.value)
      && ruleSet.value.virtualNetworkRules.Some?
      && VirtualNetworkRulesFor(input[0].subnetIds, ruleSet.value.virtualNetworkRules.value)
  }

  /** `expandKeyVaultNetworkAcls`: the rule set, and the subnet IDs it names. */
  method ExpandKeyVaultNetworkAcls(input: seq<AclBlock>) returns (ruleSet: Option<NetworkRuleSet>, subnetIds: seq<string>)
    ensures ExpandsTo(input, ruleSet)
    ensures subnetIds == ConfiguredSubnetIds(input)
  {
    subnetIds := [];
    if |input| == 0 {
      return None, subnetIds;
    }
    var block := input[0];

    var ipRules: seq<IpRule> := [];
    var i := 0;
    while i < |block.ipRules|
      invariant 0 <= i <= |block.ipRules|
      invariant IpRulesFor(block.ipRules[..i], ipRules)
    {
      ipRules := ipRules + [IpRule(Some(block.ipRules[i]))];
      i := i + 1;
    }
    assert block.ipRules[..i] == block.ipRules;

    var networkRules: seq<VirtualNetworkRule> := [];
    var j := 0;
    while j < |block.subnetIds|
      invariant 0 <= j <= |block.subnetIds|
      invariant subnetIds == block.subnetIds[..j]
      invariant VirtualNetworkRulesFor(block.subnetIds[..j], networkRules)
    {
      var rawId := block.subnetIds[j];
      subnetIds := subnetIds + [rawId];
      networkRules := networkRules + [VirtualNetworkRule(Some(rawId))];
      j := j + 1;
    }
    assert block.subnetIds[..j] == block.subnetIds;

    ruleSet := Some(NetworkRuleSet(block.bypass, block.defaultAction, Some(ipRules), Some(networkRules)));
  }

  // ---------------------------------------------------------------------
  // Flattening
  // ---------------------------------------------------------------------

  /**
   * The ID written back for a rule's subnet ID: rewritten into the canonical
   * key casing when it parses as a subnet ID whatever the casing of its
   * keys, kept as it is otherwise.
   */
  function CanonicalSubnetId(id: string): string
  {
    match SubnetIDInsensitively(id)
    case Ok(s) => s.ID()
    case Err(_) => id
  }

  /** The canonical form is accepted by the strict parser and means the same subnet. */
  lemma CanonicalSubnetIdParses(id: string)
    ensures SubnetIDInsensitively(id).Ok? ==> ParseSubnetID(CanonicalSubnetId(id)) == SubnetIDInsensitively(id)
    ensures SubnetIDInsensitively(id).Err? ==> CanonicalSubnetId(id) == id
  {
    if SubnetIDInsensitively(id).Ok? {
      InsensitiveCanonical(id);
    }
  }

  /** The addresses of the rules that carry one, in order. */
  function IpRuleValues(rules: seq<IpRule>): seq<string>
  {
    if |rules| == 0 then []
    else
      var last := rules[|rules| - 1];
      IpRuleValues(rules[..|rules| - 1]) + (if last.value.Some? then [last.value.value] else [])
  }

  /** The subnet IDs of the rules that carry one, in order. */
  function PresentIds(rules: seq<VirtualNetworkRule>): seq<string>
  {
    if |rules| == 0 then []
    else
      var last := rules[|rules| - 1];
      PresentIds(rules[..|rules| - 1]) + (if last.id.Some? then [last.id.value] else [])
  }

  /** Each ID in its canonical form. */
  function CanonicalIds(ids: seq<string>): seq<string>
  {
    seq(|ids|, i requires 0 <= i < |ids| => CanonicalSubnetId(ids[i]))
  }

  /** The elements of an optional list, or none. */
  function Listed<T>(list: Option<seq<T>>): seq<T>
  {
    if list.Some? then list.value else []
  }

  /** The block stored when the vault has no rule set. */
  const DefaultAcls: AclBlock := AclBlock("AzureServices", "Allow", [], [])

  /** The block stored for a rule set read from the API. */
  function FlattenedAcls(input: Option<NetworkRuleSet>): AclBlock
  {
    if input.None? then DefaultAcls
    else
      AclBlock(input.value.bypass, input.value.defaultAction,
        IpRuleValues(Listed(input.value.ipRules)),
        CanonicalIds(PresentIds(Listed(input.value.virtualNetworkRules))))
  }

  /**
   * `flattenKeyVaultNetworkAcls`: rules without an address or an ID are
   * skipped, and subnet IDs are written back in canonical form.
   */
  method FlattenKeyVaultNetworkAcls(input: Option<NetworkRuleSet>) returns (block: AclBlock)
    ensures block == FlattenedAcls(input)
  {
    if input.None? {
      return DefaultAcls;
    }
    var ruleSet := input.value;

    var ipRules: seq<string> := [];
    var rules := Listed(ruleSet.ipRules);
    var i := 0;
    while i < |rules|
      invariant 0 <= i <= |rules|
      invariant ipRules == IpRuleValues(rules[..i])
    {
      assert rules[..i + 1][..i] == rules[..i];
      if rules[i].value.Some? {
        ipRules := ipRules + [rules[i].value.value];
      }
      i := i + 1;
    }
    assert rules[..i] == rules;

    var subnetIds: seq<string> := [];
    var networkRules := Listed(ruleSet.virtualNetworkRules);
    var j := 0;
    while j < |networkRules|
      invariant 0 <= j <= |networkRules|
      invariant subnetIds == CanonicalIds(PresentIds(networkRules[..j]))
    {
      PresentIdsStep(networkRules, j);
      if networkRules[j].id.Some? {
        var id := networkRules[j].id.value;
        var parsed := SubnetIDInsensitively(id);
        if parsed.Ok? {
          id := parsed.value.ID();
        }
        CanonicalIdsSnoc(PresentIds(networkRules[..j]), networkRules[j].id.value);
        subnetIds := subnetIds + [id];
      }
      j := j + 1;
    }
    assert networkRules[..j] == networkRules;

    block := AclBlock(ruleSet.bypass, ruleSet.defaultAction, ipRules, subnetIds);
  }

  /** One more rule adds its ID, if it carries one. */
  lemma PresentIdsStep(rules: seq<VirtualNetworkRule>, i: nat)
    requires i < |rules|
    ensures PresentIds(rules[..i + 1]) ==
      PresentIds(rules[..i]) + (if rules[i].id.Some? then [rules[i].id.value] else [])
  {
    assert rules[..i + 1][..i] == rules[..i];
  }

  lemma CanonicalIdsSnoc(ids: seq<string>, x: string)
    ensures CanonicalIds(ids + [x]) == CanonicalIds(ids) + [CanonicalSubnetId(x)]
  {
  }

  /** An address is written back exactly when some rule carries it. */
  lemma {:induction false} IpRuleValuesMembers(rules: seq<IpRule>, x: string)
    ensures x in IpRuleValues(rules) <==> IpRule(Some(x)) in rules
    decreases |rules|
  {
    if |rules| > 0 {
      var init := rules[..|rules| - 1];
      IpRuleValuesMembers(init, x);
      assert rules == init + [rules[|rules| - 1]];
    }
  }

  /** A subnet ID is kept exactly when some rule carries it. */
  lemma {:induction false} PresentIdsMembers(rules: seq<VirtualNetworkRule>, x: string)
    ensures x in PresentIds(rules) <==> VirtualNetworkRule(Some(x)) in rules
    decreases |rules|
  {
    if |rules| > 0 {
      var init := rules[..|rules| - 1];
      PresentIdsMembers(init, x);
      assert rules == init + [rules[|rules| - 1]];
    }
  }

  /** The addresses of expanded rules are the configured addresses. */
  lemma {:induction false} IpRuleValuesOfExpanded(values: seq<string>, rules: seq<IpRule>)
    requires IpRulesFor(values, rules)
    ensures IpRuleValues(rules) == values
    decreases |rules|
  {
    if |rules| > 0 {
      var n := |rules| - 1;
      IpRuleValuesOfExpanded(values[..n], rules[..n]);
      assert values == values[..n] + [values[n]];
    }
  }

  /** The subnet IDs of expanded rules are the configured IDs. */
  lemma {:induction false} PresentIdsOfExpanded(ids: seq<string>, rules: seq<VirtualNetworkRule>)
    requires VirtualNetworkRulesFor(ids, rules)
    ensures PresentIds(rules) == ids
    decreases |rules|
  {
    if |rules| > 0 {
      var n := |rules| - 1;
      PresentIdsOfExpanded(ids[..n], rules[..n]);
      assert ids == ids[..n] + [ids[n]];
    }
  }

  /** Filtering distributes over concatenation. */
  lemma {:induction false} PresentIdsAppend(a: seq<VirtualNetworkRule>, b: seq<VirtualNetworkRule>)
    ensures PresentIds(a + b) == PresentIds(a) + PresentIds(b)
    decreases |b|
  {
    if |b| > 0 {
      var n := |b| - 1;
      assert (a + b)[..|a + b| - 1] == a + b[..n];
      PresentIdsAppend(a, b[..n]);
    } else {
      assert a + b == a;
    }
  }

  /** The canonical form of the canonical form is itself. */
  lemma CanonicalSubnetIdIdempotent(id: string)
    ensures CanonicalSubnetId(CanonicalSubnetId(id)) == CanonicalSubnetId(id)
  {
    CanonicalParsesAlike(id);
    var parsed := SubnetIDInsensitively(id);
    if parsed.Ok? {
      assert CanonicalSubnetId(id) == parsed.value.ID();
    }
  }

  /** The ID a subnet is written with is already canonical. */
  lemma CanonicalSubnetIdOfValid(s: SubnetId)
    requires s.Valid()
    ensures CanonicalSubnetId(s.ID()) == s.ID()
  {
    ParseSubnetIDRoundTrip(s);
    InsensitiveAgreesWithStrict(s.ID());
  }

  /** Rewriting an ID into canonical form does not change what it parses to. */
  lemma CanonicalParsesAlike(id: string)
    ensures SubnetIDInsensitively(CanonicalSubnetId(id)) == SubnetIDInsensitively(id)
  {
    if SubnetIDInsensitively(id).Ok? {
      CanonicalSubnetIdParses(id);
      InsensitiveAgreesWithStrict(CanonicalSubnetId(id));
    }
  }

  /**
   * Flattening what was expanded from a block gives the block back, with
   * its subnet IDs in canonical form; with no block, the default block.
   */
  lemma FlattenAfterExpand(input: seq<AclBlock>, ruleSet: Option<NetworkRuleSet>)
    requires ExpandsTo(input, ruleSet)
    ensures |input| == 0 ==> FlattenedAcls(ruleSet) == DefaultAcls
    ensures |input| > 0 ==> FlattenedAcls(ruleSet) == input[0].(subnetIds := CanonicalIds(input[0].subnetIds))
  {
    if |input| > 0 {
      IpRuleValuesOfExpanded(input[0].ipRules, ruleSet.value.ipRules.value);
      PresentIdsOfExpanded(input[0].subnetIds, ruleSet.value.virtualNetworkRules.value);
    }
  }

  /** A block whose subnet IDs are canonical survives expansion and flattening unchanged. */
  lemma FlattenAfterExpandCanonical(input: seq<AclBlock>, ruleSet: Option<NetworkRuleSet>)
    requires ExpandsTo(input, ruleSet) && |input| > 0
    requires forall i :: 0 <= i < |input[0].subnetIds| ==> CanonicalSubnetId(input[0].subnetIds[i]) == input[0].subnetIds[i]
    ensures FlattenedAcls(ruleSet) == input[0]
  {
    FlattenAfterExpand(input, ruleSet);
    assert CanonicalIds(input[0].subnetIds) == input[0].subnetIds;
  }

  /** Every subnet ID written back is canonical. */
  lemma FlattenedIdsCanonical(input: Option<NetworkRuleSet>)
    ensures var ids := FlattenedAcls(input).subnetIds;
      forall i :: 0 <= i < |ids| ==> CanonicalSubnetId(ids[i]) == ids[i]
  {
    var ids := FlattenedAcls(input).subnetIds;
    forall i | 0 <= i < |ids|
      ensures CanonicalSubnetId(ids[i]) == ids[i]
    {
      var raw := PresentIds(Listed(input.value.virtualNetworkRules));
      CanonicalSubnetIdIdempotent(raw[i]);
    }
  }

  /**
   * A block read back into state, sent again unchanged and read back once
   * more, gives the same block: the stored value is stable.
   */
  lemma ReadBackStable(ruleSet: Option<NetworkRuleSet>, resent: Option<NetworkRuleSet>)
    requires ExpandsTo([FlattenedAcls(ruleSet)], resent)
    ensures FlattenedAcls(resent) == FlattenedAcls(ruleSet)
  {
    FlattenedIdsCanonical(ruleSet);
    FlattenAfterExpandCanonical([FlattenedAcls(ruleSet)], resent);
  }

  // ---------------------------------------------------------------------
  // Virtual network names to lock
  // ---------------------------------------------------------------------

  /** Each ID parsed as a subnet ID whatever the casing of its keys. */
  function ParseAll(ids: seq<string>): (r: seq<Result<SubnetId>>)
    ensures |r| == |ids|
  {
    MapSeq(SubnetIDInsensitively, ids)
  }

  /** `f` applied to each element. */
  function MapSeq<A, B>(f: A -> B, s: seq<A>): (r: seq<B>)
    ensures |r| == |s|
    ensures forall i :: 0 <= i < |s| ==> r[i] == f(s[i])
  {
    seq(|s|, i requires 0 <= i < |s| => f(s[i]))
  }

  lemma MapSeqAppend<A, B>(f: A -> B, a: seq<A>, b: seq<A>)
    ensures MapSeq(f, a + b) == MapSeq(f, a) + MapSeq(f, b)
  {
    var whole, parts := MapSeq(f, a + b), MapSeq(f, a) + MapSeq(f, b);
    forall k | 0 <= k < |whole|
      ensures whole[k] == parts[k]
    {
      if k < |a| {
        assert (a + b)[k] == a[k];
      } else {
        assert (a + b)[k] == b[k - |a|];
      }
    }
  }

  /** The virtual network of each parsed ID, in order; the first failure gives the error. */
  function NetworksOf(parsed: seq<Result<SubnetId>>): Result<seq<string>>
  {
    if |parsed| == 0 then Ok([])
    else
      var names :- NetworksOf(parsed[..|parsed| - 1]);
      var id :- parsed[|parsed| - 1];
      Ok(names + [id.virtualNetworkName])
  }

  /** `utils.SliceContainsValue` followed by `append`: a name is added once. */
  function AddName(names: seq<string>, n: string): seq<string>
  {
    if n in names then names else names + [n]
  }

  /** The names in order with every repetition after the first dropped. */
  function Distinct(xs: seq<string>): seq<string>
  {
    if |xs| == 0 then [] else AddName(Distinct(xs[..|xs| - 1]), xs[|xs| - 1])
  }

  /** The names locked for a list of subnet IDs. */
  function NetworkNames(ids: seq<string>): Result<seq<string>>
  {
    var names :- NetworksOf(ParseAll(ids));
    Ok(Distinct(names))
  }

  /** Once a prefix holds a failure, the whole list fails with that failure's error. */
  lemma {:induction false} NetworksOfErrExtends(a: seq<Result<SubnetId>>, b: seq<Result<SubnetId>>)
    requires NetworksOf(a).Err?
    ensures NetworksOf(a + b) == NetworksOf(a)
    decreases |b|
  {
    if |b| == 0 {
      assert a + b == a;
    } else {
      var n := |b| - 1;
      assert (a + b)[..|a + b| - 1] == a + b[..n];
      NetworksOfErrExtends(a, b[..n]);
    }
  }

  /**
   * The loop over the configured subnet IDs in the create and update
   * handlers: an unparsable ID stops it with that error.
   */
  method VirtualNetworkNames(subnetIds: seq<string>) returns (r: Result<seq<string>>)
    ensures r == NetworkNames(subnetIds)
  {
    ghost var found: seq<string> := [];
    var names: seq<string> := [];
    var i := 0;
    while i < |subnetIds|
      invariant 0 <= i <= |subnetIds|
      invariant NetworksOf(ParseAll(subnetIds[..i])) == Ok(found)
      invariant names == Distinct(found)
    {
      ParsedIdsStep(subnetIds, i);
      var id := SubnetIDInsensitively(subnetIds[i]);
      NetworksOfSnoc(ParseAll(subnetIds[..i]), id);
      if id.Err? {
        ParsedIdsErr(subnetIds, i + 1);
        return Err(id.error);
      }
      var name := id.value.virtualNetworkName;
      if name !in names {
        names := names + [name];
      }
      found := found + [name];
      i := i + 1;
    }
    assert subnetIds[..i] == subnetIds;
    r := Ok(names);
  }

  /** One more ID adds its parse. */
  lemma ParsedIdsStep(ids: seq<string>, i: nat)
    requires i < |ids|
    ensures ParseAll(ids[..i + 1]) == ParseAll(ids[..i]) + [SubnetIDInsensitively(ids[i])]
  {
    assert ids[..i + 1] == ids[..i] + [ids[i]];
    ParseAllAppend(ids[..i], [ids[i]]);
  }

  /** A failure among the first IDs is the failure of all of them. */
  lemma ParsedIdsErr(ids: seq<string>, i: nat)
    requires i <= |ids|
    requires NetworksOf(ParseAll(ids[..i])).Err?
    ensures NetworksOf(ParseAll(ids)) == NetworksOf(ParseAll(ids[..i]))
  {
    assert ids[..i] + ids[i..] == ids;
    ParseAllAppend(ids[..i], ids[i..]);
    NetworksOfErrExtends(ParseAll(ids[..i]), ParseAll(ids[i..]));
  }

  /** Parsing distributes over concatenation. */
  lemma ParseAllAppend(a: seq<string>, b: seq<string>)
    ensures ParseAll(a + b) == ParseAll(a) + ParseAll(b)
  {
    MapSeqAppend(SubnetIDInsensitively, a, b);
  }

  /** One more rule adds the parse of its ID, if it carries one. */
  lemma ParsedRulesStep(rules: seq<VirtualNetworkRule>, i: nat)
    requires i < |rules|
    ensures rules[i].id.None? ==> ParseAll(PresentIds(rules[..i + 1])) == ParseAll(PresentIds(rules[..i]))
    ensures rules[i].id.Some? ==>
      ParseAll(PresentIds(rules[..i + 1])) == ParseAll(PresentIds(rules[..i])) + [SubnetIDInsensitively(rules[i].id.value)]
  {
    PresentIdsStep(rules, i);
    if rules[i].id.Some? {
      ParseAllAppend(PresentIds(rules[..i]), [rules[i].id.value]);
    } else {
      assert PresentIds(rules[..i]) + [] == PresentIds(rules[..i]);
    }
  }

  /** One more parsed ID adds its virtual network, or fails. */
  lemma NetworksOfSnoc(a: seq<Result<SubnetId>>, y: Result<SubnetId>)
    requires NetworksOf(a).Ok?
    ensures y.Ok? ==> NetworksOf(a + [y]) == Ok(NetworksOf(a).value + [y.value.virtualNetworkName])
    ensures y.Err? ==> NetworksOf(a + [y]) == Err(y.error)
  {
    assert (a + [y])[..|a|] == a;
  }

  /** A failure among the first rules is the failure of all of them. */
  lemma ParsedRulesErr(rules: seq<VirtualNetworkRule>, i: nat)
    requires i <= |rules|
    requires NetworksOf(ParseAll(PresentIds(rules[..i]))).Err?
    ensures NetworksOf(ParseAll(PresentIds(rules))) == NetworksOf(ParseAll(PresentIds(rules[..i])))
  {
    PresentIdsAppend(rules[..i], rules[i..]);
    assert rules[..i] + rules[i..] == rules;
    ParseAllAppend(PresentIds(rules[..i]), PresentIds(rules[i..]));
    NetworksOfErrExtends(ParseAll(PresentIds(rules[..i])), ParseAll(PresentIds(rules[i..])));
  }

  /**
   * The same loop in the delete handler, over the vault's rules: rules
   * without an ID are skipped.
   */
  method VirtualNetworkNamesOfRules(rules: seq<VirtualNetworkRule>) returns (r: Result<seq<string>>)
    ensures r == NetworkNames(PresentIds(rules))
  {
    ghost var found: seq<string> := [];
    var names: seq<string> := [];
    var i := 0;
    while i < |rules|
      invariant 0 <= i <= |rules|
      invariant NetworksOf(ParseAll(PresentIds(rules[..i]))) == Ok(found)
      invariant names == Distinct(found)
    {
      ParsedRulesStep(rules, i);
      if rules[i].id.Some? {
        var id := SubnetIDInsensitively(rules[i].id.value);
        NetworksOfSnoc(ParseAll(PresentIds(rules[..i])), id);
        if id.Err? {
          ParsedRulesErr(rules, i + 1);
          return Err(id.error);
        }
        var name := id.value.virtualNetworkName;
        if name !in names {
          names := names + [name];
        }
        found := found + [name];
      }
      i := i + 1;
    }
    assert rules[..i] == rules;
    r := Ok(names);
  }

  /** The list succeeds exactly when every ID parses, and then names each ID's virtual network in order. */
  lemma {:induction false} NetworksOfOk(parsed: seq<Result<SubnetId>>)
    ensures NetworksOf(parsed).Ok? <==> forall i :: 0 <= i < |parsed| ==> parsed[i].Ok?
    ensures NetworksOf(parsed).Ok? ==>
      |NetworksOf(parsed).value| == |parsed|
      && forall i :: 0 <= i < |parsed| ==> NetworksOf(parsed).value[i] == parsed[i].value.virtualNetworkName
    decreases |parsed|
  {
    if |parsed| > 0 {
      var n := |parsed| - 1;
      NetworksOfOk(parsed[..n]);
      assert forall i :: 0 <= i < n ==> parsed[..n][i] == parsed[i];
    }
  }

  /** A failing list reports the error of its first unparsable ID. */
  lemma {:induction false} NetworksOfFirstError(parsed: seq<Result<SubnetId>>)
    requires NetworksOf(parsed).Err?
    ensures exists k :: 0 <= k < |parsed| && parsed[k].Err? && NetworksOf(parsed).error == parsed[k].error
               && forall j :: 0 <= j < k ==> parsed[j].Ok?
    decreases |parsed|
  {
    var n := |parsed| - 1;
    var init := parsed[..n];
    if NetworksOf(init).Err? {
      NetworksOfFirstError(init);
      var k :| 0 <= k < |init| && init[k].Err? && NetworksOf(init).error == init[k].error
        && forall j :: 0 <= j < k ==> init[j].Ok?;
      assert parsed[k] == init[k];
    } else {
      NetworksOfOk(init);
      assert forall j :: 0 <= j < n ==> parsed[j] == init[j];
    }
  }

  /** A name is kept exactly when it occurs. */
  lemma {:induction false} DistinctMembers(xs: seq<string>)
    ensures forall x :: x in Distinct(xs) <==> x in xs
    decreases |xs|
  {
    if |xs| > 0 {
      var init := xs[..|xs| - 1];
      DistinctMembers(init);
      assert xs == init + [xs[|xs| - 1]];
    }
  }

  /** No name is kept twice. */
  lemma {:induction false} DistinctNoDuplicates(xs: seq<string>)
    ensures forall i, j :: 0 <= i < j < |Distinct(xs)| ==> Distinct(xs)[i] != Distinct(xs)[j]
    decreases |xs|
  {
    if |xs| > 0 {
      var init := xs[..|xs| - 1];
      DistinctNoDuplicates(init);
      var d := Distinct(init);
      var x := xs[|xs| - 1];
      if x !in d {
        var e := d + [x];
        assert Distinct(xs) == e;
        forall i, j | 0 <= i < j < |e|
          ensures e[i] != e[j]
        {
          assert e[i] == d[i];
          if j == |d| {
            assert e[j] == x;
          } else {
            assert e[j] == d[j];
          }
        }
      } else {
        assert Distinct(xs) == d;
        forall i, j | 0 <= i < j < |d|
          ensures d[i] != d[j]
        {
        }
      }
    }
  }

  /** The position of the first occurrence of `x`. */
  function FirstIndex(xs: seq<string>, x: string): (r: nat)
    requires x in xs
    ensures r < |xs| && xs[r] == x && x !in xs[..r]
  {
    var n := |xs| - 1;
    if x in xs[..n] then
      var k := FirstIndex(xs[..n], x);
      assert xs[..n][..k] == xs[..k];
      k
    else
      assert xs[..n] == xs[..|xs| - 1];
      n
  }

  /** Appending a name leaves the first occurrences of earlier names where they were. */
  lemma FirstIndexSnoc(xs: seq<string>, y: string, x: string)
    requires x in xs
    ensures x in xs + [y] && FirstIndex(xs + [y], x) == FirstIndex(xs, x)
  {
    assert (xs + [y])[..|xs|] == xs;
  }

  /** A name not seen before first occurs at the end. */
  lemma FirstIndexNew(xs: seq<string>, y: string)
    requires y !in xs
    ensures FirstIndex(xs + [y], y) == |xs|
  {
    assert (xs + [y])[..|xs|] == xs;
  }

  /** Kept names appear in the order of their first occurrences. */
  lemma {:induction false} DistinctFirstOccurrenceOrder(xs: seq<string>)
    ensures forall i, j :: 0 <= i < j < |Distinct(xs)| ==>
      Distinct(xs)[i] in xs && Distinct(xs)[j] in xs
      && FirstIndex(xs, Distinct(xs)[i]) < FirstIndex(xs, Distinct(xs)[j])
    decreases |xs|
  {
    if |xs| > 0 {
      var n := |xs| - 1;
      var init := xs[..n];
      var x := xs[n];
      DistinctFirstOccurrenceOrder(init);
      DistinctMembers(init);
      var d := Distinct(init);
      assert xs == init + [x];
      forall i | 0 <= i < |d|
        ensures d[i] in xs && FirstIndex(xs, d[i]) == FirstIndex(init, d[i])
      {
        FirstIndexSnoc(init, x, d[i]);
      }
      if x in d {
        assert Distinct(xs) == d;
        forall i, j | 0 <= i < j < |d|
          ensures d[i] in xs && d[j] in xs && FirstIndex(xs, d[i]) < FirstIndex(xs, d[j])
        {
          assert FirstIndex(init, d[i]) < FirstIndex(init, d[j]);
        }
      } else {
        var e := d + [x];
        assert Distinct(xs) == e;
        FirstIndexNew(init, x);
        forall i, j | 0 <= i < j < |e|
          ensures e[i] in xs && e[j] in xs && FirstIndex(xs, e[i]) < FirstIndex(xs, e[j])
        {
          assert e[i] == d[i];
          if j < |d| {
            assert e[j] == d[j];
          } else {
            assert e[j] == x;
          }
        }
      }
    } else {
      assert Distinct(xs) == [];
    }
  }

  /**
   * The names locked on delete, from the rules the vault holds, are those
   * locked when the same configuration was sent.
   */
  lemma DeleteLocksSentNetworks(input: seq<AclBlock>, ruleSet: Option<NetworkRuleSet>)
    requires ExpandsTo(input, ruleSet)
    ensures ruleSet.Some? ==>
      NetworkNames(PresentIds(Listed(ruleSet.value.virtualNetworkRules))) == NetworkNames(ConfiguredSubnetIds(input))
  {
    if ruleSet.Some? {
      PresentIdsOfExpanded(input[0].subnetIds, ruleSet.value.virtualNetworkRules.value);
    }
  }

  /** Canonicalising the IDs on read does not change the names they lock. */
  lemma CanonicalIdsLockAlike(ids: seq<string>)
    ensures NetworkNames(CanonicalIds(ids)) == NetworkNames(ids)
  {
    forall i | 0 <= i < |ids|
      ensures ParseAll(CanonicalIds(ids))[i] == ParseAll(ids)[i]
    {
      CanonicalParsesAlike(ids[i]);
    }
    assert ParseAll(CanonicalIds(ids)) == ParseAll(ids);
  }
}
