/**
 * The schema validators of `azurestack/helpers/azure/validate.go`.  Each one
 * takes the configured value (which may not be a string) and the attribute
 * name, and returns a list of warnings and a list of errors.
 */
module AzureValidate {
  import opened Common
  import opened Strings
  import ResourceIds
  import AzureParse

  /** A configuration value: a string or a value of some other type. */
  datatype Value = Str(text: string) | NonString

  datatype Problem =
    | NotAString(attribute: string)
    | UnparsableResourceId(attribute: string)
    | BadVaultName(attribute: string)
    | NotASubscriptionId(attribute: string, value: string)
    | BadUuid(value: string, subscription: string)
    | OtherIdType(attribute: string, value: string)
    | BadManagementGroupId(attribute: string)

  datatype Outcome = Outcome(warnings: seq<string>, errors: seq<Problem>)

  /** `ValidateResourceID`: the value must be a string the resource ID parser accepts. */
  function ValidateResourceID(v: Value, k: string): (r: Outcome)
    ensures r.warnings == []
    ensures |r.errors| <= 1
    ensures r.errors == [] <==> v.Str? && ResourceIds.Parse(v.text).Ok?
    ensures v.NonString? ==> r.errors == [NotAString(k)]
  {
    match v
    case NonString => Outcome([], [NotAString(k)])
    case Str(s) =>
      if ResourceIds.Parse(s).Err? then Outcome([], [UnparsableResourceId(k)]) else Outcome([], [])
  }

  /** `ValidateResourceIDOrEmpty`: as `ValidateResourceID`, but the empty string is accepted too. */
  function ValidateResourceIDOrEmpty(v: Value, k: string): (r: Outcome)
    ensures v == Str("") ==> r == Outcome([], [])
    ensures v != Str("") ==> r == ValidateResourceID(v, k)
  {
    match v
    case NonString => Outcome([], [NotAString(k)])
    case Str(s) => if s == "" then Outcome([], []) else ValidateResourceID(v, k)
  }

  predicate IsAlphaNumeric(c: char)
  {
    'a' <= c <= 'z' || 'A' <= c <= 'Z' || '0' <= c <= '9'
  }

  /** `^[a-zA-Z0-9-]{3,24}$`. */
  predicate MatchesVaultNamePattern(s: string)
  {
    3 <= |s| <= 24 && forall i :: 0 <= i < |s| ==> IsAlphaNumeric(s[i]) || s[i] == '-'
  }

  /** `VaultName`: only a string value is modelled (any other value makes the source panic). */
  function VaultName(value: string, k: string): (r: Outcome)
    ensures r.warnings == []
    ensures r.errors == [] <==> MatchesVaultNamePattern(value)
    ensures r.errors != [] ==> r.errors == [BadVaultName(k)]
  {
    if !MatchesVaultNamePattern(value) then Outcome([], [BadVaultName(k)]) else Outcome([], [])
  }

  predicate IsHexDigit(c: char)
  {
    '0' <= c <= '9' || 'a' <= c <= 'f' || 'A' <= c <= 'F'
  }

  /** The textual UUID form of section 3 of RFC 4122: 8-4-4-4-12 hexadecimal digits. */
  predicate IsUuid(s: string)
  {
    |s| == 36 &&
    forall i :: 0 <= i < 36 ==>
      if i == 8 || i == 13 || i == 18 || i == 23 then s[i] == '-' else IsHexDigit(s[i])
  }

  /**
   * `SubscriptionID`: the value must parse as a resource ID whose
   * subscription is a UUID and which names nothing below the subscription.
   */
  function SubscriptionID(v: Value, k: string): (r: Outcome)
    ensures r.warnings == []
    ensures |r.errors| <= 2
    ensures r.errors == [] <==>
      v.Str? && ResourceIds.Parse(v.text).Ok?
      && IsUuid(ResourceIds.Parse(v.text).value.subscriptionId)
      && ResourceIds.Parse(v.text).value.resourceGroup == ""
      && ResourceIds.Parse(v.text).value.path == []
    ensures v.Str? && ResourceIds.Parse(v.text).Err? ==> r.errors == [NotASubscriptionId(k, v.text)]
  {
    match v
    case NonString => Outcome([], [NotAString(k)])
    case Str(s) =>
      match ResourceIds.Parse(s)
      case Err(_) => Outcome([], [NotASubscriptionId(k, s)])
      case Ok(id) =>
        var errors := if !IsUuid(id.subscriptionId) then [BadUuid(s, id.subscriptionId)] else [];
        if id.resourceGroup != "" || |id.path| > 0 then Outcome([], errors + [OtherIdType(k, s)])
        else Outcome([], errors)
  }

  /** `ManagementGroupID`: the value must be a management group ID. */
  function ManagementGroupID(v: Value, k: string): (r: Outcome)
    ensures r.warnings == []
    ensures r.errors == [] <==> v.Str? && AzureParse.ParseManagementGroupID(v.text).Ok?
    ensures |r.errors| <= 1
  {
    match v
    case NonString => Outcome([], [NotAString(k)])
    case Str(s) =>
      if AzureParse.ParseManagementGroupID(s).Err? then Outcome([], [BadManagementGroupId(k)]) else Outcome([], [])
  }

  /** `/subscriptions/{uuid}` is a valid subscription ID. */
  lemma SubscriptionIdAccepted(u: string, k: string)
    requires IsUuid(u)
    ensures SubscriptionID(Str("/subscriptions/" + u), k).errors == []
  {
    UuidIsSegmentText(u);
    ResourceIds.ParseSubscriptionOnly(u);
  }

  /** A UUID holds no slash, so it can stand as one segment of an ID. */
  lemma UuidIsSegmentText(u: string)
    requires IsUuid(u)
    ensures ResourceIds.IsSegmentText(u)
  {
    assert '/' !in u by {
      forall i | 0 <= i < |u| ensures u[i] != '/' {
      }
    }
  }

  /**
   * A resource group ID under a valid subscription is refused with exactly
   * one error: it is another type of ID.
   */
  lemma ResourceGroupIdRefused(id: AzureParse.ResourceGroupId, k: string)
    requires IsUuid(id.subscriptionId) && ResourceIds.IsSegmentText(id.resourceGroup)
    ensures SubscriptionID(Str(id.ID()), k).errors == [OtherIdType(k, id.ID())]
  {
    assert '/' !in id.subscriptionId by {
      forall i | 0 <= i < |id.subscriptionId| ensures id.subscriptionId[i] != '/' {
      }
    }
    AzureParse.ResourceGroupIdIsFormat(id);
    assert AzureParse.ResourceGroupPairs(id) == ResourceIds.Head(id.subscriptionId, id.resourceGroup, "") + [];
    ResourceIds.ParseConventional(id.subscriptionId, id.resourceGroup, "", []);
  }
}
