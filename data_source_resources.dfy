/**
 * The resources data source (`azurestack/data_source_resources.go`): the
 * OData filter built from the resource group, name and type; the manual
 * required-tag match; and the listing loop that keeps, in order, the
 * resources whose tags match, with absent fields read as "".
 */
module ResourcesDataSource {
  import opened Common
  import opened Strings
  import opened Terraform

  // ---------------------------------------------------------------------
  // The filter
  // ---------------------------------------------------------------------

  const ClauseSeparator: string := " and "

  function ResourceGroupClause(v: string): string { "resourceGroup eq '" + v + "'" }
  function NameClause(v: string): string { "name eq '" + v + "'" }
  function TypeClause(v: string): string { "resourceType eq '" + v + "'" }

  /** The clauses of the filter: one per non-empty attribute, in the order group, name, type. */
  function Clauses(resourceGroup: string, name: string, resourceType: string): (cs: seq<string>)
    ensures |cs| == (if resourceGroup != "" then 1 else 0) + (if name != "" then 1 else 0)
                    + (if resourceType != "" then 1 else 0)
  {
    (if resourceGroup != "" then [ResourceGroupClause(resourceGroup)] else [])
    + (if name != "" then [NameClause(name)] else [])
    + (if resourceType != "" then [TypeClause(resourceType)] else [])
  }

  /** "eq" occurs in `s` at index `i`. */
  lemma EqAt(s: string, i: nat)
    requires i + 2 <= |s| && s[i] == 'e' && s[i + 1] == 'q'
    ensures Contains(s, "eq")
  {
    assert s[i..i + 2] == "eq";
    assert OccursAt(s, "eq", i);
  }

  /** Text that ends with a clause contains "eq". */
  lemma EndsWithClauseHasEq(prefix: string, clause: string, v: string)
    requires clause == ResourceGroupClause(v) || clause == NameClause(v) || clause == TypeClause(v)
    ensures Contains(prefix + clause, "eq")
  {
    var s := prefix + clause;
    if clause == ResourceGroupClause(v) {
      assert s[|prefix| + 14] == 'e' && s[|prefix| + 15] == 'q';
      EqAt(s, |prefix| + 14);
    } else if clause == NameClause(v) {
      assert s[|prefix| + 5] == 'e' && s[|prefix| + 6] == 'q';
      EqAt(s, |prefix| + 5);
    } else {
      assert s[|prefix| + 13] == 'e' && s[|prefix| + 14] == 'q';
      EqAt(s, |prefix| + 13);
    }
  }

  /** The empty filter does not contain "eq". */
  lemma EmptyHasNoEq()
    ensures !Contains("", "eq")
  {
  }

  /** Adding one clause, with the separator unless the filter is still empty. */
  function AddClause(filter: string, clause: string): string
  {
    if filter == "" then clause else filter + ClauseSeparator + clause
  }

  /** Adding a clause to the join of the earlier ones joins them all. */
  lemma AddClauseJoins(cs: seq<string>, clause: string)
    requires forall k :: 0 <= k < |cs| ==> cs[k] != ""
    ensures Join(cs, ClauseSeparator) == "" <==> |cs| == 0
    ensures AddClause(Join(cs, ClauseSeparator), clause) == Join(cs + [clause], ClauseSeparator)
  {
    if |cs| == 0 {
      assert cs + [clause] == [clause];
    } else {
      assert |Join(cs, ClauseSeparator)| >= |cs[0]|;
      JoinAppend(cs, clause, ClauseSeparator);
    }
  }

  /**
   * The filter built from the clauses `cs` so far: their join, which
   * contains "eq" exactly when some clause is present.
   */
  ghost predicate Tracks(filter: string, cs: seq<string>)
  {
    (forall k :: 0 <= k < |cs| ==> cs[k] != "")
    && filter == Join(cs, ClauseSeparator)
    && (Contains(filter, "eq") <==> |cs| > 0)
  }

  /**
   * One block of the filter loop after the first: " and " when the filter
   * already contains "eq", then the clause.
   */
  method AddFilterClause(filter: string, clause: string, v: string, ghost cs: seq<string>) returns (r: string)
    requires clause == ResourceGroupClause(v) || clause == NameClause(v) || clause == TypeClause(v)
    requires Tracks(filter, cs)
    ensures Tracks(r, cs + [clause])
  {
    AddClauseJoins(cs, clause);
    r := filter;
    if Contains(r, "eq") {
      r := r + ClauseSeparator;
    }
    r := r + clause;
    EndsWithClauseHasEq(r[..|r| - |clause|], clause, v);
    assert r == r[..|r| - |clause|] + clause;
  }

  /**
   * The filter loop: each non-empty attribute adds its clause, preceded by
   * " and " when the filter already contains "eq", that is, when an earlier
   * clause is present.  The result is the clauses joined by " and ".
   */
  method BuildFilter(resourceGroup: string, name: string, resourceType: string) returns (filter: string)
    ensures filter == Join(Clauses(resourceGroup, name, resourceType), ClauseSeparator)
    ensures filter == "" <==> resourceGroup == "" && name == "" && resourceType == ""
  {
    ghost var cs: seq<string> := [];
    filter := "";
    EmptyHasNoEq();
    if resourceGroup != "" {
      filter := filter + ResourceGroupClause(resourceGroup);
      cs := cs + [ResourceGroupClause(resourceGroup)];
      EndsWithClauseHasEq("", ResourceGroupClause(resourceGroup), resourceGroup);
      assert filter == ResourceGroupClause(resourceGroup);
    }
    if name != "" {
      filter := AddFilterClause(filter, NameClause(name), name, cs);
      cs := cs + [NameClause(name)];
    }
    if resourceType != "" {
      filter := AddFilterClause(filter, TypeClause(resourceType), resourceType, cs);
      cs := cs + [TypeClause(resourceType)];
    }
    assert cs == Clauses(resourceGroup, name, resourceType);
    AddClauseJoins(cs, "x");
  }

  // ---------------------------------------------------------------------
  // Required tags
  // ---------------------------------------------------------------------

  /** A tag: its name and value. */
  type Tag = (string, string)

  /** Tag names are distinct, as the keys of a map are. */
  predicate DistinctNames(tags: seq<Tag>)
  {
    forall i, j :: 0 <= i < j < |tags| ==> tags[i].0 != tags[j].0
  }

  /** How many of `tags` have the name and the value of `required`. */
  function Hits(required: Tag, tags: seq<Tag>): nat
  {
    if |tags| == 0 then 0
    else Hits(required, tags[..|tags| - 1]) + (if tags[|tags| - 1] == required then 1 else 0)
  }

  /** The count of the nested loops: pairs of a required tag and an equal resource tag. */
  function Matches(required: seq<Tag>, tags: seq<Tag>): nat
  {
    if |required| == 0 then 0
    else Matches(required[..|required| - 1], tags) + Hits(required[|required| - 1], tags)
  }

  /** A required tag hits a resource's tags at most once, and once exactly when it is among them. */
  lemma {:induction false} HitsAtMostOnce(required: Tag, tags: seq<Tag>)
    requires DistinctNames(tags)
    ensures Hits(required, tags) <= 1
    ensures Hits(required, tags) == 1 <==> required in tags
    decreases |tags|
  {
    if |tags| > 0 {
      var init, last := tags[..|tags| - 1], tags[|tags| - 1];
      assert DistinctNames(init);
      HitsAtMostOnce(required, init);
      assert tags == init + [last];
      assert required in tags <==> required in init || required == last;
      forall i | 0 <= i < |init|
        ensures init[i].0 != last.0
      {
        assert init[i] == tags[i];
      }
    }
  }

  /**
   * The match count reaches the number of required tags exactly when every
   * required tag is present on the resource with an equal value.
   */
  lemma {:induction false} MatchesAllRequired(required: seq<Tag>, tags: seq<Tag>)
    requires DistinctNames(tags)
    ensures Matches(required, tags) <= |required|
    ensures Matches(required, tags) == |required| <==> forall i :: 0 <= i < |required| ==> required[i] in tags
    decreases |required|
  {
    if |required| > 0 {
      var init := required[..|required| - 1];
      MatchesAllRequired(init, tags);
      HitsAtMostOnce(required[|required| - 1], tags);
      assert forall i :: 0 <= i < |init| ==> init[i] == required[i];
    }
  }

  /**
   * The nested tag loops: for every required tag, every resource tag with
   * the same name and value counts once.  A resource without tags counts 0.
   */
  method CountTagMatches(required: seq<Tag>, tags: Option<seq<Tag>>) returns (count: nat)
    ensures tags.None? ==> count == 0
    ensures tags.Some? ==> count == Matches(required, tags.value)
  {
    count := 0;
    if tags.None? {
      return;
    }
    var present := tags.value;
    for i := 0 to |required|
      invariant count == Matches(required[..i], present)
    {
      assert required[..i + 1][..i] == required[..i];
      for j := 0 to |present|
        invariant count == Matches(required[..i], present) + Hits(required[i], present[..j])
      {
        assert present[..j + 1][..j] == present[..j];
        if required[i].0 == present[j].0 && required[i].1 == present[j].1 {
          count := count + 1;
        }
      }
      assert present[..|present|] == present;
    }
    assert required[..|required|] == required;
  }

  /** The resource is kept: every required tag is present with an equal value. */
  predicate Kept(required: seq<Tag>, tags: Option<seq<Tag>>)
  {
    if tags.None? then |required| == 0
    else forall i :: 0 <= i < |required| ==> required[i] in tags.value
  }

  /** The kept test `tagMatches == len(requiredTags)` means exactly `Kept`. */
  lemma KeptIffAllMatch(required: seq<Tag>, tags: Option<seq<Tag>>)
    requires tags.Some? ==> DistinctNames(tags.value)
    ensures (if tags.None? then 0 else Matches(required, tags.value)) == |required| <==> Kept(required, tags)
  {
    if tags.Some? {
      MatchesAllRequired(required, tags.value);
    }
  }

  // ---------------------------------------------------------------------
  // The listing loop
  // ---------------------------------------------------------------------

  /** A resource of the listing; every field may be absent. */
  datatype RemoteResource = RemoteResource(
    id: Option<string>,
    name: Option<string>,
    resourceType: Option<string>,
    location: Option<string>,
    tags: Option<seq<Tag>>)

  /** One step of the listing: a resource, and the outcome of moving past it. */
  datatype Step = Step(resource: RemoteResource, next: Option<Error>)

  /** A resource as the data source reports it. */
  datatype FoundResource = FoundResource(name: string, id: string, resourceType: string, location: string, tags: seq<Tag>)

  function OrEmpty(s: Option<string>): string
  {
    if s.Some? then s.value else ""
  }

  /** The reported form of a kept resource: absent fields become "" and absent tags none. */
  function Reported(r: RemoteResource): (f: FoundResource)
    ensures f.name == OrEmpty(r.name) && f.id == OrEmpty(r.id)
    ensures f.resourceType == OrEmpty(r.resourceType) && f.location == OrEmpty(r.location)
    ensures r.tags.None? ==> f.tags == []
  {
    FoundResource(OrEmpty(r.name), OrEmpty(r.id), OrEmpty(r.resourceType), OrEmpty(r.location),
                  if r.tags.Some? then r.tags.value else [])
  }

  /** The resources of the first `n` steps that have an ID and are kept, in listing order. */
  function KeptResources(steps: seq<Step>, required: seq<Tag>): seq<FoundResource>
  {
    if |steps| == 0 then []
    else
      var r := steps[|steps| - 1].resource;
      KeptResources(steps[..|steps| - 1], required)
      + (if r.id.Some? && Kept(required, r.tags) then [Reported(r)] else [])
  }

  /** The step at which the listing stops with an error, if any: a failed move, or a skipped nameless resource. */
  predicate Stops(s: Step, required: seq<Tag>)
  {
    s.next.Some? || (s.resource.id.Some? && !Kept(required, s.resource.tags) && s.resource.name.None?)
  }

  /** The listing runs through every step without stopping. */
  predicate Completes(steps: seq<Step>, required: seq<Tag>)
  {
    forall k :: 0 <= k < |steps| ==> !Stops(steps[k], required)
  }

  /** The tags as read from the configuration, a map: distinct names. */
  predicate WellFormedTags(required: seq<Tag>, steps: seq<Step>)
  {
    DistinctNames(required)
    && forall k :: 0 <= k < |steps| && steps[k].resource.tags.Some? ==> DistinctNames(steps[k].resource.tags.value)
  }

  /**
   * The listing loop: walks the resources in order, keeping each one with
   * an ID whose tags match.  It stops with an error when moving past a
   * resource fails, or when a skipped resource has no name (its log line
   * dereferences the name).
   */
  method Walk(steps: seq<Step>, required: seq<Tag>) returns (err: Option<Error>, resources: seq<FoundResource>)
    requires WellFormedTags(required, steps)
    ensures err.None? <==> Completes(steps, required)
    ensures err.None? ==> resources == KeptResources(steps, required)
  {
    resources := [];
    var i := 0;
    while i < |steps|
      invariant 0 <= i <= |steps|
      invariant Completes(steps[..i], required)
      invariant resources == KeptResources(steps[..i], required)
    {
      assert steps[..i + 1][..i] == steps[..i];
      var res := steps[i].resource;
      if res.id.Some? {
        var matches := CountTagMatches(required, res.tags);
        KeptIffAllMatch(required, res.tags);
        if matches == |required| {
          var found := FoundResource(OrEmpty(res.name), OrEmpty(res.id), OrEmpty(res.resourceType),
                                     OrEmpty(res.location), if res.tags.Some? then res.tags.value else []);
          resources := resources + [found];
        } else if res.name.None? {
          return Some(NilDereference("name of a skipped resource")), resources;
        }
      }
      if steps[i].next.Some? {
        return Some(steps[i].next.value), resources;
      }
      i := i + 1;
    }
    assert steps[..|steps|] == steps;
    err := None;
  }

  /** Where the listing loop is after some iterations: at a position, or stopped with an error. */
  datatype LoopState = At(pos: nat) | Stopped(error: Error)

  /**
   * The listing loop as the source writes it, for `n` iterations from
   * `pos`: a resource without an ID is met by `continue`, which skips the
   * move to the next resource, so the next iteration reads the same one.
   */
  function IterateAsWritten(steps: seq<Step>, required: seq<Tag>, pos: nat, n: nat): LoopState
    decreases n
  {
    if n == 0 || pos >= |steps| then At(pos)
    else
      var s := steps[pos];
      if s.resource.id.None? then IterateAsWritten(steps, required, pos, n - 1)
      else if !Kept(required, s.resource.tags) && s.resource.name.None? then
        Stopped(NilDereference("name of a skipped resource"))
      else if s.next.Some? then Stopped(s.next.value)
      else IterateAsWritten(steps, required, pos + 1, n - 1)
  }

  /**
   * As written, the loop never gets past a resource without an ID: once the
   * loop reaches it, no number of iterations stops the loop or moves it on,
   * so the listing never ends.
   */
  lemma {:induction false} HangsOnNilId(steps: seq<Step>, required: seq<Tag>, k: nat, pos: nat, n: nat)
    requires k < |steps| && steps[k].resource.id.None?
    requires pos <= k
    requires forall j :: pos <= j < k ==> !Stops(steps[j], required)
    ensures IterateAsWritten(steps, required, pos, n).At? && IterateAsWritten(steps, required, pos, n).pos <= k
    decreases n
  {
    if n > 0 {
      if pos == k {
        HangsOnNilId(steps, required, k, pos, n - 1);
      } else if steps[pos].resource.id.None? {
        HangsOnNilId(steps, required, k, pos, n - 1);
      } else {
        assert !Stops(steps[pos], required);
        HangsOnNilId(steps, required, k, pos + 1, n - 1);
      }
    }
  }

  /**
   * A listing of one resource without an ID: the model of the intended loop
   * runs through it, while the loop as written stays on it forever.
   */
  lemma NilIdListingHangs(n: nat)
    ensures var steps := [Step(RemoteResource(None, None, None, None, None), None)];
      Completes(steps, []) && IterateAsWritten(steps, [], 0, n) == At(0)
  {
    var steps := [Step(RemoteResource(None, None, None, None, None), None)];
    HangsOnNilId(steps, [], 0, 0, n);
  }

  /**
   * `dataSourceArmResourcesRead`: at least one of group, name and type is
   * needed; the listing is walked in order and each resource with an ID is
   * kept when its tags match.  The ID stored is the current time, given.
   */
  method Read(d: ResourceData, resourceGroup: string, name: string, resourceType: string,
              required: seq<Tag>, listing: Reply<seq<Step>>, now: string)
    returns (err: Option<Error>, filter: string, resources: seq<FoundResource>)
    requires WellFormedTags(required, if listing.Success? then listing.body else [])
    modifies d
    ensures resourceGroup == "" && name == "" && resourceType == "" ==>
      err == Some(Invalid("name, resource_group_name or type")) && d.id == old(d.id)
    ensures resourceGroup != "" || name != "" || resourceType != "" ==>
      filter == Join(Clauses(resourceGroup, name, resourceType), ClauseSeparator)
    ensures err.None? <==>
      (resourceGroup != "" || name != "" || resourceType != "") && listing.Success? && Completes(listing.body, required)
    ensures err.None? ==> resources == KeptResources(listing.body, required) && d.id == now
    ensures err.Some? ==> d.id == old(d.id)
  {
    resources := [];
    filter := "";
    if resourceGroup == "" && name == "" && resourceType == "" {
      return Some(Invalid("name, resource_group_name or type")), filter, resources;
    }
    filter := BuildFilter(resourceGroup, name, resourceType);
    if listing.Failure? {
      return Some(listing.AsError()), filter, resources;
    }
    err, resources := Walk(listing.body, required);
    if err.None? {
      d.id := now;
    }
  }

  /** With no required tag every resource with an ID is kept. */
  lemma {:induction false} NoRequiredTagsKeepsAll(steps: seq<Step>)
    ensures |KeptResources(steps, [])| == |set k | 0 <= k < |steps| && steps[k].resource.id.Some?|
    decreases |steps|
  {
    if |steps| > 0 {
      var last := |steps| - 1;
      var init := steps[..last];
      NoRequiredTagsKeepsAll(init);
      assert Kept([], steps[last].resource.tags);
      var before := set k | 0 <= k < |init| && init[k].resource.id.Some?;
      var all := set k | 0 <= k < |steps| && steps[k].resource.id.Some?;
      IdIndicesSnoc(init, steps, before, all);
      if steps[last].resource.id.Some? {
        assert last !in before;
      }
    }
  }

  /** The indices with an ID grow by the last index exactly when the last step has an ID. */
  lemma IdIndicesSnoc(init: seq<Step>, steps: seq<Step>, before: set<int>, all: set<int>)
    requires |steps| > 0 && init == steps[..|steps| - 1]
    requires before == set k | 0 <= k < |init| && init[k].resource.id.Some?
    requires all == set k | 0 <= k < |steps| && steps[k].resource.id.Some?
    ensures all == if steps[|steps| - 1].resource.id.Some? then before + {|steps| - 1} else before
  {
    forall k | 0 <= k < |init|
      ensures init[k] == steps[k]
    {
    }
  }

  /** Every resource reported was listed with that ID. */
  lemma {:induction false} ReportedWereListed(steps: seq<Step>, required: seq<Tag>, f: FoundResource)
    requires f in KeptResources(steps, required)
    ensures exists k :: 0 <= k < |steps| && steps[k].resource.id == Some(f.id) && Kept(required, steps[k].resource.tags)
    decreases |steps|
  {
    var init := steps[..|steps| - 1];
    if f in KeptResources(init, required) {
      ReportedWereListed(init, required, f);
      var k :| 0 <= k < |init| && init[k].resource.id == Some(f.id) && Kept(required, init[k].resource.tags);
      assert steps[k] == init[k];
    } else {
      assert steps[|steps| - 1].resource.id == Some(f.id);
    }
  }
}
