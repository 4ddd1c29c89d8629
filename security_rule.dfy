/**
 * The network security rule ID of `internal/services/network/parse`, whose
 * formatter and parser are fixed by the package's test vectors.  The parser
 * follows the generated pattern shared by every typed ID: generic parse,
 * subscription and resource group required, then the `networkSecurityGroups`
 * and `securityRules` pairs popped, and nothing may remain.
 */
module SecurityRule {
  import opened Common
  import opened ResourceIds
  import opened TypedIds
  import Strings

  datatype SecurityRuleId = SecurityRuleId(
    subscriptionId: string,
    resourceGroup: string,
    networkSecurityGroupName: string,
    name: string)
  {
    function ID(): string
    {
      "/subscriptions/" + subscriptionId + "/resourceGroups/" + resourceGroup
        + "/providers/Microsoft.Network/networkSecurityGroups/" + networkSecurityGroupName
        + "/securityRules/" + name
    }

    predicate Valid()
    {
      IsSegmentText(subscriptionId) && IsSegmentText(resourceGroup)
      && IsSegmentText(networkSecurityGroupName) && IsSegmentText(name)
    }
  }

  /** `SecurityRuleID`. */
  function SecurityRuleID(input: string): (r: Result<SecurityRuleId>)
    ensures r.Ok? ==> r.value.Valid()
  {
    var id :- ParseScoped(input);
    var (nsg, name) :- PopTwo(id.path, "networkSecurityGroups", "securityRules");
    Ok(SecurityRuleId(id.subscriptionId, id.resourceGroup, nsg, name))
  }

  /**
   * An ID is accepted exactly when it parses, names a resource group, and
   * holds nothing else besides one `networkSecurityGroups` and one
   * `securityRules` pair (any provider).
   */
  lemma Accepted(input: string)
    ensures var p := ResourceIds.Parse(input);
      SecurityRuleID(input).Ok? <==>
        (p.Ok? && p.value.resourceGroup != "" && |p.value.path| == 2
         && Lookup(p.value.path, "networkSecurityGroups").Some? && Lookup(p.value.path, "securityRules").Some?)
  {
    var p := ResourceIds.Parse(input);
    if p.Ok? {
      PopTwoAccepted(p.value.path, "networkSecurityGroups", "securityRules");
    }
  }

  function Pairs(id: SecurityRuleId): seq<Segment>
  {
    Head(id.subscriptionId, id.resourceGroup, "Microsoft.Network")
      + [Segment("networkSecurityGroups", id.networkSecurityGroupName), Segment("securityRules", id.name)]
  }

  lemma IdIsFormat(id: SecurityRuleId)
    ensures id.ID() == Format(Pairs(id))
  {
    FormatConventional2(id.subscriptionId, id.resourceGroup, "Microsoft.Network",
      "networkSecurityGroups", id.networkSecurityGroupName, "securityRules", id.name);
    Literals();
  }

  lemma Literals()
    ensures "/providers/" + "Microsoft.Network" + ("/" + "networkSecurityGroups" + "/")
      == "/providers/Microsoft.Network/networkSecurityGroups/"
    ensures "/" + "securityRules" + "/" == "/securityRules/"
  {
    GroupsLiteral();
    RulesLiteral();
  }

  lemma GroupsLiteral()
    ensures "/providers/" + "Microsoft.Network" + ("/" + "networkSecurityGroups" + "/")
      == "/providers/Microsoft.Network/networkSecurityGroups/"
  {
  }

  lemma RulesLiteral()
    ensures "/" + "securityRules" + "/" == "/securityRules/"
  {
  }

  lemma NetworkKeys()
    ensures IsSegmentText("Microsoft.Network")
    ensures IsSegmentText("networkSecurityGroups") && !ReservedKey("networkSecurityGroups")
    ensures IsSegmentText("securityRules") && !ReservedKey("securityRules")
    ensures "networkSecurityGroups" != "securityRules"
  {
  }

  /** Parsing the formatter's output gives back the four fields. */
  lemma RoundTrip(id: SecurityRuleId)
    requires id.Valid()
    ensures SecurityRuleID(id.ID()) == Ok(id)
  {
    IdIsFormat(id);
    NetworkKeys();
    RoundTripTwo(id.subscriptionId, id.resourceGroup, "Microsoft.Network",
      "networkSecurityGroups", id.networkSecurityGroupName, "securityRules", id.name);
  }

  /*
   * The parser's test vectors.  The rejected vectors are stated for every
   * subscription, resource group and security group name, and so cover the
   * concrete values the vectors use.
   */

  const VectorSubscription := "12345678-1234-9876-4563-123456789012"
  const VectorId := SecurityRuleId(VectorSubscription, "resGroup1", "acceptanceTestSecurityGroup1", "securityRules1")
  /** The formatter's expected output, written piece by piece. */
  const VectorText := "/subscriptions/" + "12345678-1234-9876-4563-123456789012" + "/resourceGroups/" + "resGroup1"
    + "/providers/Microsoft.Network/networkSecurityGroups/" + "acceptanceTestSecurityGroup1"
    + "/securityRules/" + "securityRules1"

  /** The formatter vector. */
  lemma FormatterVector()
    ensures VectorId.ID() == VectorText
  {
  }

  lemma VectorValid()
    ensures VectorId.Valid()
  {
    VectorSubscriptionText();
    VectorNamesText();
  }

  lemma VectorSubscriptionText()
    ensures IsSegmentText(VectorSubscription)
  {
  }

  lemma VectorNamesText()
    ensures IsSegmentText("resGroup1")
    ensures IsSegmentText("acceptanceTestSecurityGroup1")
    ensures IsSegmentText("securityRules1")
  {
  }

  /** The valid parser vector. */
  lemma ValidVector()
    ensures SecurityRuleID(VectorText) == Ok(VectorId)
  {
    FormatterVector();
    VectorValid();
    RoundTrip(VectorId);
  }

  lemma RejectsEmptyAndRoot()
    ensures SecurityRuleID("").Err?
    ensures SecurityRuleID("/").Err?
  {
    assert Components("/") == Strings.Split("", "/");
  }

  /** A key with no value, as in `/subscriptions/`, is refused. */
  lemma RejectsLoneKey(k: string)
    requires IsSegmentText(k)
    ensures SecurityRuleID("/" + k + "/").Err?
  {
    DanglingKey([], k);
    assert Format([]) == "";
    assert "" + "/" + k + "/" == "/" + k + "/";
    assert ResourceIds.Parse("/" + k + "/").Err?;
  }

  lemma RejectsMissingResourceGroup(subscription: string)
    requires IsSegmentText(subscription)
    ensures SecurityRuleID("/subscriptions/" + subscription + "/").Err?
  {
    ParseSubscriptionSlash(subscription);
  }

  lemma RejectsEmptyResourceGroup(subscription: string)
    requires IsSegmentText(subscription)
    ensures SecurityRuleID("/subscriptions/" + subscription + "/resourceGroups/").Err?
  {
    var x := "/subscriptions/" + subscription;
    FormatSubscription(subscription);
    DanglingKey([Segment("subscriptions", subscription)], "resourceGroups");
    Glue(x, "/", "resourceGroups", "/");
    KeyLiterals();
    assert ResourceIds.Parse(x + "/resourceGroups/").Err?;
  }

  lemma KeyLiterals()
    ensures "/" + "resourceGroups" + "/" == "/resourceGroups/"
  {
  }

  lemma ProviderLiterals()
    ensures "/providers/" + "Microsoft.Network" + "/" == "/providers/Microsoft.Network/"
    ensures "/providers/Microsoft.Network/" + "networkSecurityGroups" + "/" == "/providers/Microsoft.Network/networkSecurityGroups/"
    ensures "/" + "securityRules" + "/" == "/securityRules/"
  {
    ProviderLiteral();
    ProviderGroupsLiteral();
    RulesLiteral();
  }

  lemma ProviderLiteral()
    ensures "/providers/" + "Microsoft.Network" + "/" == "/providers/Microsoft.Network/"
  {
  }

  lemma ProviderGroupsLiteral()
    ensures "/providers/Microsoft.Network/" + "networkSecurityGroups" + "/" == "/providers/Microsoft.Network/networkSecurityGroups/"
  {
  }

  /** How `/subscriptions/{s}/resourceGroups/{rg}/providers/Microsoft.Network` is rendered. */
  lemma FormatNetworkHead(subscription: string, resourceGroup: string)
    ensures Format(Head(subscription, resourceGroup, "Microsoft.Network"))
      == "/subscriptions/" + subscription + "/resourceGroups/" + resourceGroup + "/providers/" + "Microsoft.Network"
  {
    var head := Head(subscription, resourceGroup, "Microsoft.Network");
    FormatHead(subscription, resourceGroup, "Microsoft.Network", []);
    assert head + [] == head;
    assert Format([]) == "";
  }

  lemma ParseNetworkHeadSlash(subscription: string, resourceGroup: string)
    requires IsSegmentText(subscription) && IsSegmentText(resourceGroup)
    ensures ResourceIds.Parse("/subscriptions/" + subscription + "/resourceGroups/" + resourceGroup
      + "/providers/Microsoft.Network/") == Ok(ResourceId(subscription, resourceGroup, "Microsoft.Network", []))
  {
    var x := "/subscriptions/" + subscription + "/resourceGroups/" + resourceGroup;
    var head := Head(subscription, resourceGroup, "Microsoft.Network");
    FormatNetworkHead(subscription, resourceGroup);
    ConventionalTexts(subscription, resourceGroup, "Microsoft.Network", []);
    assert head + [] == head;
    TrailingSlash(head);
    FromConventional(subscription, resourceGroup, "Microsoft.Network", []);
    Glue(x, "/providers/", "Microsoft.Network", "/");
    ProviderLiterals();
  }

  lemma RejectsMissingSecurityGroup(subscription: string, resourceGroup: string)
    requires IsSegmentText(subscription) && IsSegmentText(resourceGroup)
    ensures SecurityRuleID("/subscriptions/" + subscription + "/resourceGroups/" + resourceGroup
      + "/providers/Microsoft.Network/").Err?
  {
    ParseNetworkHeadSlash(subscription, resourceGroup);
  }

  lemma ParseEmptySecurityGroup(subscription: string, resourceGroup: string)
    requires IsSegmentText(subscription) && IsSegmentText(resourceGroup)
    ensures ResourceIds.Parse("/subscriptions/" + subscription + "/resourceGroups/" + resourceGroup
      + "/providers/Microsoft.Network/networkSecurityGroups/").Err?
  {
    var x := "/subscriptions/" + subscription + "/resourceGroups/" + resourceGroup;
    var head := Head(subscription, resourceGroup, "Microsoft.Network");
    FormatNetworkHead(subscription, resourceGroup);
    ConventionalTexts(subscription, resourceGroup, "Microsoft.Network", []);
    assert head + [] == head;
    NetworkKeys();
    DanglingKey(head, "networkSecurityGroups");
    Glue(x, "/providers/", "Microsoft.Network", "/");
    ProviderLiterals();
    Glue(x, "/providers/Microsoft.Network/", "networkSecurityGroups", "/");
  }

  lemma RejectsEmptySecurityGroup(subscription: string, resourceGroup: string)
    requires IsSegmentText(subscription) && IsSegmentText(resourceGroup)
    ensures SecurityRuleID("/subscriptions/" + subscription + "/resourceGroups/" + resourceGroup
      + "/providers/Microsoft.Network/networkSecurityGroups/").Err?
  {
    ParseEmptySecurityGroup(subscription, resourceGroup);
  }

  /** How the pairs up to the security group are rendered. */
  lemma FormatGroupPairs(subscription: string, resourceGroup: string, networkSecurityGroupName: string)
    ensures Format(Head(subscription, resourceGroup, "Microsoft.Network") + [Segment("networkSecurityGroups", networkSecurityGroupName)])
      == "/subscriptions/" + subscription + "/resourceGroups/" + resourceGroup
         + "/providers/Microsoft.Network/networkSecurityGroups/" + networkSecurityGroupName
  {
    FormatConventional1(subscription, resourceGroup, "Microsoft.Network", "networkSecurityGroups", networkSecurityGroupName);
    Literals();
  }

  lemma ParseGroupPairsSlash(subscription: string, resourceGroup: string, networkSecurityGroupName: string)
    requires IsSegmentText(subscription) && IsSegmentText(resourceGroup) && IsSegmentText(networkSecurityGroupName)
    ensures var seg := Segment("networkSecurityGroups", networkSecurityGroupName);
      ResourceIds.Parse(Format(Head(subscription, resourceGroup, "Microsoft.Network") + [seg]) + "/")
      == Ok(ResourceId(subscription, resourceGroup, "Microsoft.Network", [seg]))
  {
    var seg := Segment("networkSecurityGroups", networkSecurityGroupName);
    NetworkKeys();
    ParseConventionalSlash(subscription, resourceGroup, "Microsoft.Network", [seg]);
  }

  lemma ParseGroupSlash(subscription: string, resourceGroup: string, networkSecurityGroupName: string)
    requires IsSegmentText(subscription) && IsSegmentText(resourceGroup) && IsSegmentText(networkSecurityGroupName)
    ensures ResourceIds.Parse("/subscriptions/" + subscription + "/resourceGroups/" + resourceGroup
      + "/providers/Microsoft.Network/networkSecurityGroups/" + networkSecurityGroupName + "/")
      == Ok(ResourceId(subscription, resourceGroup, "Microsoft.Network", [Segment("networkSecurityGroups", networkSecurityGroupName)]))
  {
    FormatGroupPairs(subscription, resourceGroup, networkSecurityGroupName);
    ParseGroupPairsSlash(subscription, resourceGroup, networkSecurityGroupName);
  }

  lemma RejectsMissingName(subscription: string, resourceGroup: string, networkSecurityGroupName: string)
    requires IsSegmentText(subscription) && IsSegmentText(resourceGroup) && IsSegmentText(networkSecurityGroupName)
    ensures SecurityRuleID("/subscriptions/" + subscription + "/resourceGroups/" + resourceGroup
      + "/providers/Microsoft.Network/networkSecurityGroups/" + networkSecurityGroupName + "/").Err?
  {
    var seg := Segment("networkSecurityGroups", networkSecurityGroupName);
    ParseGroupSlash(subscription, resourceGroup, networkSecurityGroupName);
    PopFirst("networkSecurityGroups", networkSecurityGroupName, []);
    assert [seg] + [] == [seg];
  }

  lemma ParseEmptyName(subscription: string, resourceGroup: string, networkSecurityGroupName: string)
    requires IsSegmentText(subscription) && IsSegmentText(resourceGroup) && IsSegmentText(networkSecurityGroupName)
    ensures ResourceIds.Parse("/subscriptions/" + subscription + "/resourceGroups/" + resourceGroup
      + "/providers/Microsoft.Network/networkSecurityGroups/" + networkSecurityGroupName + "/securityRules/").Err?
  {
    var seg := Segment("networkSecurityGroups", networkSecurityGroupName);
    FormatGroupPairs(subscription, resourceGroup, networkSecurityGroupName);
    NetworkKeys();
    DanglingConventional(subscription, resourceGroup, "Microsoft.Network", [seg], "securityRules");
    var x := "/subscriptions/" + subscription + "/resourceGroups/" + resourceGroup
      + "/providers/Microsoft.Network/networkSecurityGroups/" + networkSecurityGroupName;
    Glue(x, "/", "securityRules", "/");
    RulesLiteral();
  }

  lemma RejectsEmptyName(subscription: string, resourceGroup: string, networkSecurityGroupName: string)
    requires IsSegmentText(subscription) && IsSegmentText(resourceGroup) && IsSegmentText(networkSecurityGroupName)
    ensures SecurityRuleID("/subscriptions/" + subscription + "/resourceGroups/" + resourceGroup
      + "/providers/Microsoft.Network/networkSecurityGroups/" + networkSecurityGroupName + "/securityRules/").Err?
  {
    ParseEmptyName(subscription, resourceGroup, networkSecurityGroupName);
  }

  /** The upper-cased vector, written piece by piece. */
  const UpperCasedText := "/SUBSCRIPTIONS/" + "12345678-1234-9876-4563-123456789012" + "/RESOURCEGROUPS/" + "RESGROUP1"
    + "/PROVIDERS/" + "MICROSOFT.NETWORK" + "/NETWORKSECURITYGROUPS/" + "ACCEPTANCETESTSECURITYGROUP1"
    + "/SECURITYRULES/" + "SECURITYRULES1"

  lemma UpperCasedHasNoLowerS()
    ensures 's' !in UpperCasedText
  {
    NoLowerSSubscriptions();
    NoLowerSSubscription();
    NoLowerSResourceGroups();
    NoLowerSResourceGroup();
    NoLowerSProviders();
    NoLowerSProvider();
    NoLowerSGroups();
    NoLowerSGroup();
    NoLowerSRules();
    NoLowerSRule();
  }

  lemma NoLowerSSubscriptions()
    ensures 's' !in "/SUBSCRIPTIONS/"
  {
  }

  lemma NoLowerSSubscription()
    ensures 's' !in "12345678-1234-9876-4563-123456789012"
  {
  }

  lemma NoLowerSResourceGroups()
    ensures 's' !in "/RESOURCEGROUPS/"
  {
  }

  lemma NoLowerSResourceGroup()
    ensures 's' !in "RESGROUP1"
  {
  }

  lemma NoLowerSProviders()
    ensures 's' !in "/PROVIDERS/"
  {
  }

  lemma NoLowerSProvider()
    ensures 's' !in "MICROSOFT.NETWORK"
  {
  }

  lemma NoLowerSGroups()
    ensures 's' !in "/NETWORKSECURITYGROUPS/"
  {
  }

  lemma NoLowerSGroup()
    ensures 's' !in "ACCEPTANCETESTSECURITYGROUP1"
  {
  }

  lemma NoLowerSRules()
    ensures 's' !in "/SECURITYRULES/"
  {
  }

  lemma NoLowerSRule()
    ensures 's' !in "SECURITYRULES1"
  {
  }

  /** The upper-cased vector: segment keys are matched case-sensitively. */
  lemma RejectsUpperCased()
    ensures SecurityRuleID(UpperCasedText).Err?
  {
    UpperCasedHasNoLowerS();
    ParseNeedsSubscriptionKey(UpperCasedText);
  }
}
