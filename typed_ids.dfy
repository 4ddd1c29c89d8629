/**
 * The pattern shared by the provider's typed ID parsers (`VaultID`,
 * `ParseSubnetID`, `ParseRouteTableID`, `SecurityRuleID`, ...): parse the
 * generic ID, require the subscription and the resource group, pop the
 * type's own keys in order, and refuse anything left over.
 */
module TypedIds {
  import opened Common
  import opened ResourceIds

  /** Parsing followed by the subscription and resource group checks. */
  function ParseScoped(input: string): (r: Result<ResourceId>)
    ensures r.Ok? <==> Parse(input).Ok? && Parse(input).value.resourceGroup != ""
    ensures r.Ok? ==> r.value == Parse(input).value
    ensures Parse(input).Ok? && Parse(input).value.resourceGroup == "" ==> r == Err(MissingSegment("resourceGroups"))
  {
    var id :- Parse(input);
    if id.subscriptionId == "" then Err(MissingSegment("subscriptions"))
    else if id.resourceGroup == "" then Err(MissingSegment("resourceGroups"))
    else Ok(id)
  }

  /** `PopSegment(k)` then `ValidateNoEmptySegments`. */
  function PopOne(path: seq<Segment>, k: string): (r: Result<string>)
    ensures r.Ok? ==> Lookup(path, k) == Some(r.value)
    ensures r.Ok? && WellFormedPath(path) ==> IsSegmentText(r.value)
  {
    var (v, rest) :- PopSegment(path, k);
    var _ :- ValidateNoEmptySegments(rest);
    LookupWellFormed(path, k);
    Ok(v)
  }

  /** `PopSegment(k1)`, `PopSegment(k2)` then `ValidateNoEmptySegments`. */
  function PopTwo(path: seq<Segment>, k1: string, k2: string): (r: Result<(string, string)>)
    ensures r.Ok? ==> Lookup(path, k1) == Some(r.value.0) && Lookup(Remove(path, k1), k2) == Some(r.value.1)
    ensures r.Ok? && WellFormedPath(path) ==> IsSegmentText(r.value.0) && IsSegmentText(r.value.1)
  {
    var (v1, rest1) :- PopSegment(path, k1);
    var (v2, rest2) :- PopSegment(rest1, k2);
    var _ :- ValidateNoEmptySegments(rest2);
    LookupWellFormed(path, k1);
    LookupWellFormed(rest1, k2);
    Ok((v1, v2))
  }

  /** One key is accepted exactly when it is the only pair left in the path. */
  lemma PopOneAccepted(path: seq<Segment>, k: string)
    requires WellFormedPath(path)
    ensures PopOne(path, k).Ok? <==> |path| == 1 && path[0].key == k
    ensures PopOne(path, k).Ok? ==> PopOne(path, k).value == path[0].value
  {
    PopOnly(path, k);
  }

  /** Two distinct keys are accepted exactly when they are the only two pairs left. */
  lemma PopTwoAccepted(path: seq<Segment>, k1: string, k2: string)
    requires WellFormedPath(path) && k1 != k2
    ensures PopTwo(path, k1, k2).Ok? <==> |path| == 2 && Lookup(path, k1).Some? && Lookup(path, k2).Some?
  {
    PopPair(path, k1, k2);
  }

  /** A conventional ID with one typed pair parses back into its parts. */
  lemma RoundTripOne(subscription: string, resourceGroup: string, provider: string, k: string, v: string)
    requires IsSegmentText(subscription) && IsSegmentText(resourceGroup) && IsSegmentText(provider)
    requires IsSegmentText(k) && IsSegmentText(v) && !ReservedKey(k)
    ensures ParseScoped(Format(Head(subscription, resourceGroup, provider) + [Segment(k, v)]))
      == Ok(ResourceId(subscription, resourceGroup, provider, [Segment(k, v)]))
    ensures PopOne([Segment(k, v)], k) == Ok(v)
  {
    ParseConventional(subscription, resourceGroup, provider, [Segment(k, v)]);
    PopOneAccepted([Segment(k, v)], k);
  }

  /** A conventional ID with two typed pairs parses back into its parts. */
  lemma RoundTripTwo(subscription: string, resourceGroup: string, provider: string,
                     k1: string, v1: string, k2: string, v2: string)
    requires IsSegmentText(subscription) && IsSegmentText(resourceGroup) && IsSegmentText(provider)
    requires IsSegmentText(k1) && IsSegmentText(v1) && !ReservedKey(k1)
    requires IsSegmentText(k2) && IsSegmentText(v2) && !ReservedKey(k2)
    requires k1 != k2
    ensures ParseScoped(Format(Head(subscription, resourceGroup, provider) + [Segment(k1, v1), Segment(k2, v2)]))
      == Ok(ResourceId(subscription, resourceGroup, provider, [Segment(k1, v1), Segment(k2, v2)]))
    ensures PopTwo([Segment(k1, v1), Segment(k2, v2)], k1, k2) == Ok((v1, v2))
  {
    var rest := [Segment(k1, v1), Segment(k2, v2)];
    ParseConventional(subscription, resourceGroup, provider, rest);
    assert rest == [Segment(k1, v1)] + [Segment(k2, v2)];
    PopFirst(k1, v1, [Segment(k2, v2)]);
    PopFirst(k2, v2, []);
    assert [Segment(k2, v2)] == [Segment(k2, v2)] + [];
  }
}
