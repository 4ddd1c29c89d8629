/**
 * The parsers of `azurestack/helpers/azure/parse.go`: management group IDs,
 * matched by a case-flexible prefix, and resource group IDs, read with the
 * generic resource ID parser.
 */
module AzureParse {
  import opened Common
  import opened Strings
  import opened ResourceIds

  datatype ManagementGroupId = ManagementGroupId(name: string)

  datatype ResourceGroupId = ResourceGroupId(subscriptionId: string, resourceGroup: string)
  {
    /** `/subscriptions/{subscriptionId}/resourceGroups/{resourceGroup}`. */
    function ID(): string
    {
      "/subscriptions/" + subscriptionId + "/resourceGroups/" + resourceGroup
    }

    /** The description used in messages: `Resource Group: (Resource Group "{name}")`. */
    function String(): (r: string)
      ensures PlainText(resourceGroup) ==> r == "Resource Group: (Resource Group \"" + resourceGroup + "\")"
    {
      "Resource Group" + ": (" + Join(["Resource Group " + Quote(resourceGroup)], " / ") + ")"
    }
  }

  /** The canonical spelling of the management group prefix. */
  const ManagementGroupPrefix: string := "/providers/Microsoft.Management/managementGroups/"

  /** The positions of the prefix where the pattern accepts either case (`[Mm]`, `[Gg]`). */
  predicate EitherCase(i: int)
  {
    i == 11 || i == 21 || i == 32 || i == 42
  }

  function SwapCase(c: char): char
  {
    if 'A' <= c <= 'Z' then (c as int + 32) as char
    else if 'a' <= c <= 'z' then (c as int - 32) as char
    else c
  }

  /** `^/providers/[Mm]icrosoft\.[Mm]anagement/[Mm]anagement[Gg]roups/` matches the start of `s`. */
  predicate MatchesManagementGroupPrefix(s: string)
  {
    |ManagementGroupPrefix| <= |s| &&
    forall i :: 0 <= i < |ManagementGroupPrefix| ==>
      s[i] == ManagementGroupPrefix[i] || (EitherCase(i) && s[i] == SwapCase(ManagementGroupPrefix[i]))
  }

  /**
   * The pattern is anchored at the start, so splitting by it yields the empty
   * text before the match and the text after it: always two pieces.
   */
  function SplitByPrefix(s: string): (pieces: seq<string>)
    requires MatchesManagementGroupPrefix(s)
    ensures |pieces| == 2
  {
    ["", s[|ManagementGroupPrefix|..]]
  }

  /** `ParseManagementGroupID`. */
  function ParseManagementGroupID(input: string): (r: Result<ManagementGroupId>)
    ensures r.Ok? <==> MatchesManagementGroupPrefix(input) && IsSegmentText(input[|ManagementGroupPrefix|..])
    ensures r.Ok? ==> input == input[..|ManagementGroupPrefix|] + r.value.name
  {
    if !MatchesManagementGroupPrefix(input) then Err(MalformedId("not a management group ID"))
    else
      var segments := SplitByPrefix(input);
      if |segments| != 2 then Err(MalformedId("expected two segments"))
      else
        var groupId := segments[1];
        if groupId == "" then Err(MalformedId("management group name is empty"))
        else
          SplitSingle(groupId, '/');
          if |Split(groupId, "/")| != 1 then Err(ExtraSegments)
          else Ok(ManagementGroupId(groupId))
  }

  /** A management group ID written with any accepted casing of the prefix parses to its name. */
  lemma ManagementGroupRoundTrip(prefix: string, name: string)
    requires |prefix| == |ManagementGroupPrefix| && MatchesManagementGroupPrefix(prefix + name)
    requires IsSegmentText(name)
    ensures ParseManagementGroupID(prefix + name) == Ok(ManagementGroupId(name))
  {
    assert (prefix + name)[|ManagementGroupPrefix|..] == name;
  }

  /** The canonical prefix is one of the accepted spellings. */
  lemma CanonicalPrefixMatches(name: string)
    ensures MatchesManagementGroupPrefix(ManagementGroupPrefix + name)
  {
    var s := ManagementGroupPrefix + name;
    assert forall i :: 0 <= i < |ManagementGroupPrefix| ==> s[i] == ManagementGroupPrefix[i];
  }

  /** `ParseResourceGroupID`. */
  function ParseResourceGroupID(input: string): (r: Result<ResourceGroupId>)
    ensures var p := ResourceIds.Parse(input);
      r.Ok? <==> p.Ok? && p.value.resourceGroup != "" && p.value.path == []
    ensures r.Ok? ==> r.value == ResourceGroupId(ResourceIds.Parse(input).value.subscriptionId, ResourceIds.Parse(input).value.resourceGroup)
    ensures r.Ok? ==> IsSegmentText(r.value.subscriptionId) && IsSegmentText(r.value.resourceGroup)
  {
    var id :- ResourceIds.Parse(input);
    if id.subscriptionId == "" then Err(MissingSegment("subscriptions"))
    else if id.resourceGroup == "" then Err(MissingSegment("resourceGroups"))
    else
      var _ :- ValidateNoEmptySegments(id.path);
      Ok(ResourceGroupId(id.subscriptionId, id.resourceGroup))
  }

  /** The pairs a resource group ID is made of. */
  function ResourceGroupPairs(id: ResourceGroupId): seq<Segment>
  {
    [Segment("subscriptions", id.subscriptionId), Segment("resourceGroups", id.resourceGroup)]
  }

  lemma ResourceGroupIdIsFormat(id: ResourceGroupId)
    ensures id.ID() == Format(ResourceGroupPairs(id))
  {
    var ps := ResourceGroupPairs(id);
    FormatLeading("resourceGroups", id.resourceGroup, [], "/resourceGroups/");
    FormatLeading("subscriptions", id.subscriptionId, [ps[1]], "/subscriptions/");
    assert ps == [ps[0]] + [ps[1]] && [ps[1]] == [ps[1]] + [];
  }

  /** Rendering a resource group ID and parsing it back gives the same ID. */
  lemma ResourceGroupRoundTrip(id: ResourceGroupId)
    requires IsSegmentText(id.subscriptionId) && IsSegmentText(id.resourceGroup)
    ensures ParseResourceGroupID(id.ID()) == Ok(id)
  {
    ResourceGroupIdIsFormat(id);
    assert ResourceGroupPairs(id) == Head(id.subscriptionId, id.resourceGroup, "") + [];
    ParseConventional(id.subscriptionId, id.resourceGroup, "", []);
  }

  /** Printable ASCII other than `"` and `\`: the text `%q` copies unchanged. */
  predicate PlainText(s: string)
  {
    forall i :: 0 <= i < |s| ==> ' ' <= s[i] <= '~' && s[i] != '"' && s[i] != '\\'
  }

  /** An ASCII control character: below the space, or DEL. */
  predicate IsAsciiControl(c: char)
  {
    c < ' ' || c == 127 as char
  }

  /** Go's `%q`, that is `strconv.Quote`: the escaped text between double quotes. */
  function Quote(s: string): (r: string)
    ensures PlainText(s) ==> r == "\"" + s + "\""
  {
    "\"" + Escape(s) + "\""
  }

  function HexDigit(n: int): char
    requires 0 <= n < 16
  {
    "0123456789abcdef"[n]
  }

  /**
   * How `strconv.Quote` writes one character: a backslash before `"` and `\`,
   * the short escapes `\a \b \f \n \r \t \v`, `\xHH` with lower-case hex
   * digits for the other ASCII control characters, and the character itself
   * otherwise.
   */
  function EscapeChar(c: char): (r: string)
    ensures |r| >= 1
    ensures forall i :: 0 <= i < |r| ==> !IsAsciiControl(r[i])
    ensures r == [c] <==> !(c == '"' || c == '\\' || IsAsciiControl(c))
  {
    if c == '"' || c == '\\' then ['\\', c]
    else if c == 7 as char then "\\a"
    else if c == 8 as char then "\\b"
    else if c == 12 as char then "\\f"
    else if c == '\n' then "\\n"
    else if c == '\r' then "\\r"
    else if c == '\t' then "\\t"
    else if c == 11 as char then "\\v"
    else if IsAsciiControl(c) then ['\\', 'x', HexDigit(c as int / 16), HexDigit(c as int % 16)]
    else [c]
  }

  /** The escaped text: plain text is unchanged, and no ASCII control character is left raw. */
  function Escape(s: string): (r: string)
    ensures PlainText(s) ==> r == s
    ensures forall i :: 0 <= i < |r| ==> !IsAsciiControl(r[i])
  {
    if |s| == 0 then ""
    else
      var head, tail := EscapeChar(s[0]), Escape(s[1..]);
      assert forall i :: 0 <= i < |head + tail| ==> (head + tail)[i] == if i < |head| then head[i] else tail[i - |head|];
      head + tail
  }

  /** A newline is written as a backslash and an `n`, never raw. */
  lemma QuoteEscapesNewline()
    ensures Quote("a\nb") == "\"a\\nb\""
  {
    assert "a\nb"[1..] == "\nb" && "\nb"[1..] == "b" && "b"[1..] == "";
  }
}
