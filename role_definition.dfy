/**
 * Custom role definitions (`azurestack/resource_arm_role_definition.go`):
 * the `|`-joined pseudo-ID that keeps the scope next to the role's resource
 * ID, the expansion and flattening of permissions and assignable scopes,
 * the two refresh functions of the replication waits, and the create/update,
 * read and delete handlers.
 */
module RoleDefinitions {
  import opened Common
  import opened Strings
  import opened Terraform
  import KeyVaultKeys

  // ---------------------------------------------------------------------
  // The pseudo-ID "<resource ID>|<scope>"
  // ---------------------------------------------------------------------

  /** A parsed pseudo-ID: the role's resource ID, the scope it was created at, and its GUID. */
  datatype RoleDefinitionId = RoleDefinitionId(resourceId: string, scope: string, roleId: string)

  const RoleDefinitionsMarker: string := "roleDefinitions/"
  const SubscriptionScope: string := "/subscriptions/"
  const ManagementGroupScope: string := "/providers/Microsoft.Management/managementGroups/"

  /** A scope the parser accepts: a subscription or a management group. */
  predicate IsScope(s: string)
  {
    HasPrefix(s, SubscriptionScope) || HasPrefix(s, ManagementGroupScope)
  }

  /** The ID the create/update handler stores. */
  function StoredId(resourceId: string, scope: string): string
  {
    resourceId + "|" + scope
  }

  /**
   * The text after the first "roleDefinitions/" of a resource ID, up to the
   * next occurrence or the end.
   */
  function TextAfterMarker(resourceId: string): (t: string)
    requires Contains(resourceId, RoleDefinitionsMarker)
    ensures var rest := resourceId[Find(resourceId, RoleDefinitionsMarker) + |RoleDefinitionsMarker|..];
      HasPrefix(rest, t) && (!Contains(rest, RoleDefinitionsMarker) ==> t == rest)
  {
    var rest := resourceId[Find(resourceId, RoleDefinitionsMarker) + |RoleDefinitionsMarker|..];
    rest[..Find(rest, RoleDefinitionsMarker)]
  }

  /** The second piece of a split on the marker is the text after the first marker. */
  lemma SecondPieceAfterMarker(resourceId: string)
    requires Contains(resourceId, RoleDefinitionsMarker)
    ensures |Split(resourceId, RoleDefinitionsMarker)| >= 2
    ensures Split(resourceId, RoleDefinitionsMarker)[1] == TextAfterMarker(resourceId)
  {
    var i := Find(resourceId, RoleDefinitionsMarker);
    var rest := resourceId[i + |RoleDefinitionsMarker|..];
    assert Split(resourceId, RoleDefinitionsMarker) == [resourceId[..i]] + Split(rest, RoleDefinitionsMarker);
    var j := Find(rest, RoleDefinitionsMarker);
    if j == |rest| {
      assert Split(rest, RoleDefinitionsMarker) == [rest];
    } else {
      assert Split(rest, RoleDefinitionsMarker)[0] == rest[..j];
    }
  }

  /** A split on "|" into exactly two pieces gives back its input as "a|b". */
  lemma PairRejoins(input: string)
    requires |Split(input, "|")| == 2
    ensures input == StoredId(Split(input, "|")[0], Split(input, "|")[1])
    ensures '|' !in Split(input, "|")[0] && '|' !in Split(input, "|")[1]
  {
    var parts := Split(input, "|");
    JoinSplit(input, "|");
    SplitPiecesFree(input, '|');
    assert parts[1..] == [parts[1]];
    assert Join(parts, "|") == parts[0] + "|" + parts[1];
  }

  /**
   * `parseRoleDefinitionId`: exactly two "|"-separated parts, the second a
   * subscription or management-group scope; the GUID is the piece after the
   * first "roleDefinitions/" of the first part.  Its guard `len(idParts) < 1`
   * never holds, so a resource ID without that marker reaches the index
   * `idParts[1]` past the end: that panic is the `OutOfRange` error here.
   */
  function ParseRoleDefinitionId(input: string): (r: Result<RoleDefinitionId>)
    ensures r.Ok? ==> input == StoredId(r.value.resourceId, r.value.scope)
    ensures r.Ok? ==> '|' !in r.value.resourceId && '|' !in r.value.scope
    ensures r.Ok? ==> IsScope(r.value.scope) && Contains(r.value.resourceId, RoleDefinitionsMarker)
    ensures r.Ok? ==> r.value.roleId == TextAfterMarker(r.value.resourceId)
    ensures r.Err? && r.error.OutOfRange? ==>
      |Split(input, "|")| == 2 && !Contains(Split(input, "|")[0], RoleDefinitionsMarker)
  {
    var parts := Split(input, "|");
    if |parts| != 2 then Err(MalformedId(input))
    else
      var idParts := Split(parts[0], RoleDefinitionsMarker);
      if !IsScope(parts[1]) then Err(MalformedId(input))
      else if |idParts| < 1 then Err(MalformedId(input))
      else if |idParts| < 2 then
        SplitSeveral(parts[0], RoleDefinitionsMarker);
        Err(OutOfRange(input))
      else
        PairRejoins(input);
        SplitSeveral(parts[0], RoleDefinitionsMarker);
        SecondPieceAfterMarker(parts[0]);
        Ok(RoleDefinitionId(parts[0], parts[1], idParts[1]))
  }

  /** Splitting a stored ID on "|" gives back its two halves. */
  lemma StoredIdSplits(resourceId: string, scope: string)
    requires '|' !in resourceId && '|' !in scope
    ensures Split(StoredId(resourceId, scope), "|") == [resourceId, scope]
  {
    assert Join([resourceId, scope], "|") == StoredId(resourceId, scope) by {
      assert [resourceId, scope][1..] == [scope];
    }
    SplitJoin([resourceId, scope], '|');
  }

  /**
   * The ID the create/update handler stores parses back to the resource ID
   * and scope it was made from.
   */
  lemma StoredIdParses(resourceId: string, scope: string)
    requires '|' !in resourceId && '|' !in scope
    requires IsScope(scope) && Contains(resourceId, RoleDefinitionsMarker)
    ensures ParseRoleDefinitionId(StoredId(resourceId, scope))
      == Ok(RoleDefinitionId(resourceId, scope, TextAfterMarker(resourceId)))
  {
    StoredIdSplits(resourceId, scope);
    SplitSeveral(resourceId, RoleDefinitionsMarker);
    SecondPieceAfterMarker(resourceId);
  }

  /** A resource ID without "roleDefinitions/" reaches the out-of-range index. */
  lemma MissingMarkerIsOutOfRange(resourceId: string, scope: string)
    requires '|' !in resourceId && '|' !in scope
    requires IsScope(scope) && !Contains(resourceId, RoleDefinitionsMarker)
    ensures ParseRoleDefinitionId(StoredId(resourceId, scope)) == Err(OutOfRange(StoredId(resourceId, scope)))
  {
    StoredIdSplits(resourceId, scope);
    SplitSeveral(resourceId, RoleDefinitionsMarker);
  }

  /** A scope that is neither a subscription nor a management group is refused. */
  lemma ForeignScopeRejected(resourceId: string, scope: string)
    requires '|' !in resourceId && '|' !in scope && !IsScope(scope)
    ensures ParseRoleDefinitionId(StoredId(resourceId, scope)) == Err(MalformedId(StoredId(resourceId, scope)))
  {
    StoredIdSplits(resourceId, scope);
  }

  /** Text without a "|", or with more than one, is refused. */
  lemma PipeCountRejected(input: string)
    requires |Split(input, "|")| != 2
    ensures ParseRoleDefinitionId(input) == Err(MalformedId(input))
  {
  }

  // ---------------------------------------------------------------------
  // Permissions and assignable scopes
  // ---------------------------------------------------------------------

  /** One `permissions` block of the configuration. */
  datatype PermissionConfig = PermissionConfig(actions: seq<string>, notActions: seq<string>)

  /** The API's permission, whose lists may be absent. */
  datatype Permission = Permission(actions: Option<seq<string>>, notActions: Option<seq<string>>)

  /** The elements of a list, one by one, in order. */
  method CopyStrings(input: seq<string>) returns (output: seq<string>)
    ensures output == input
  {
    output := [];
    for k := 0 to |input|
      invariant output == input[..k]
    {
      output := output + [input[k]];
    }
  }

  /** `expandRoleDefinitionPermissions`: every block, with both lists always present. */
  method ExpandPermissions(config: seq<PermissionConfig>) returns (output: seq<Permission>)
    ensures |output| == |config|
    ensures forall k :: 0 <= k < |config| ==>
      output[k] == Permission(Some(config[k].actions), Some(config[k].notActions))
  {
    output := [];
    for k := 0 to |config|
      invariant |output| == k
      invariant forall m :: 0 <= m < k ==>
        output[m] == Permission(Some(config[m].actions), Some(config[m].notActions))
    {
      var actions := CopyStrings(config[k].actions);
      var notActions := CopyStrings(config[k].notActions);
      output := output + [Permission(Some(actions), Some(notActions))];
    }
  }

  /** An absent list reads as the empty list. */
  function OrEmpty(s: Option<seq<string>>): seq<string>
  {
    if s.Some? then s.value else []
  }

  /**
   * `flattenRoleDefinitionPermissions`: nothing for an absent list; each
   * permission's absent lists become empty ones.
   */
  method FlattenPermissions(input: Option<seq<Permission>>) returns (output: seq<PermissionConfig>)
    ensures input.None? ==> output == []
    ensures input.Some? ==> |output| == |input.value|
    ensures input.Some? ==> forall k :: 0 <= k < |input.value| ==>
      output[k] == PermissionConfig(OrEmpty(input.value[k].actions), OrEmpty(input.value[k].notActions))
  {
    output := [];
    if input.None? {
      return;
    }
    var permissions := input.value;
    for k := 0 to |permissions|
      invariant |output| == k
      invariant forall m :: 0 <= m < k ==>
        output[m] == PermissionConfig(OrEmpty(permissions[m].actions), OrEmpty(permissions[m].notActions))
    {
      var actions: seq<string> := [];
      if permissions[k].actions.Some? {
        actions := permissions[k].actions.value;
      }
      var notActions: seq<string> := [];
      if permissions[k].notActions.Some? {
        notActions := permissions[k].notActions.value;
      }
      output := output + [PermissionConfig(actions, notActions)];
    }
  }

  /**
   * `expandRoleDefinitionAssignableScopes`: the role's own scope when no
   * assignable scope is configured, otherwise the configured ones in order.
   */
  method ExpandAssignableScopes(configured: seq<string>, scope: string) returns (scopes: seq<string>)
    ensures |configured| == 0 ==> scopes == [scope]
    ensures |configured| > 0 ==> scopes == configured
    ensures |scopes| > 0
  {
    scopes := [];
    if |configured| == 0 {
      scopes := scopes + [scope];
    } else {
      for k := 0 to |configured|
        invariant scopes == configured[..k]
      {
        scopes := scopes + [configured[k]];
      }
    }
  }

  /** `flattenRoleDefinitionAssignableScopes`: nothing for an absent list, else the list in order. */
  method FlattenAssignableScopes(input: Option<seq<string>>) returns (scopes: seq<string>)
    ensures scopes == OrEmpty(input)
  {
    scopes := [];
    if input.None? {
      return;
    }
    for k := 0 to |input.value|
      invariant scopes == input.value[..k]
    {
      scopes := scopes + [input.value[k]];
    }
  }

  /** What the read handler stores for a permission the API returns. */
  function FlatPermission(p: Permission): PermissionConfig
  {
    PermissionConfig(OrEmpty(p.actions), OrEmpty(p.notActions))
  }

  /** The permissions the create/update handler sends for a configuration. */
  function SentPermission(c: PermissionConfig): Permission
  {
    Permission(Some(c.actions), Some(c.notActions))
  }

  /** Reading back what was sent gives the configured permission again. */
  lemma FlattenAfterExpand(c: PermissionConfig)
    ensures FlatPermission(SentPermission(c)) == c
  {
  }

  /** A permission whose lists are both absent reads back as two empty lists. */
  lemma AbsentListsReadEmpty(p: Permission)
    requires p.actions.None? && p.notActions.None?
    ensures FlatPermission(p) == PermissionConfig([], [])
  {
  }

  // ---------------------------------------------------------------------
  // The replication waits
  // ---------------------------------------------------------------------

  /** What a refresh function reports: a state name, and an error that ends the wait. */
  datatype Refresh = Refresh(state: string, err: Option<Error>)

  /**
   * `roleDefinitionUpdateStateRefreshFunc`: a successful read is "OK"; a
   * failed one is "NotFound" or "Error" and carries its error either way.
   */
  function UpdateRefresh(reply: Reply<()>): (r: Refresh)
    ensures reply.Success? <==> r.err.None?
    ensures reply.Success? ==> r.state == "OK"
    ensures reply.WasNotFound() ==> r == Refresh("NotFound", Some(reply.AsError()))
    ensures reply.Failure? && !reply.WasNotFound() ==> r == Refresh("Error", Some(reply.AsError()))
  {
    if reply.Failure? then
      if reply.WasNotFound() then Refresh("NotFound", Some(reply.AsError()))
      else Refresh("Error", Some(reply.AsError()))
    else Refresh("OK", None)
  }

  /**
   * `roleDefinitionDeleteStateRefreshFunc`: a missing role is "NotFound"
   * with no error, any other failure is "Error" with its error, and a role
   * still present is "Pending".
   */
  function DeleteRefresh(reply: Reply<()>): (r: Refresh)
    ensures reply.WasNotFound() ==> r == Refresh("NotFound", None)
    ensures reply.Failure? && !reply.WasNotFound() ==> r == Refresh("Error", Some(reply.AsError()))
    ensures reply.Success? ==> r == Refresh("Pending", None)
  {
    if reply.Failure? then
      if reply.WasNotFound() then Refresh("NotFound", None)
      else Refresh("Error", Some(reply.AsError()))
    else Refresh("Pending", None)
  }

  /** Both waits ask for this many target observations in a row. */
  const ContinuousTargetOccurrence: nat := 6

  const UpdateTargets: seq<string> := ["OK"]
  const DeleteTargets: seq<string> := ["Deleted", "NotFound"]

  /**
   * A state-change wait with "Pending" as its only pending state, over the
   * refreshes that fit before the timeout, from refresh `i` with `run`
   * target observations in a row behind it: an error ends it, a pending
   * state resets the run, any other state is unexpected.
   */
  function Settle(refreshes: seq<Refresh>, targets: seq<string>, i: nat, run: nat): KeyVaultKeys.WaitOutcome
    requires i <= |refreshes|
    decreases |refreshes| - i
  {
    if i == |refreshes| then KeyVaultKeys.TimedOut(i)
    else
      var r := refreshes[i];
      if r.err.Some? then KeyVaultKeys.Failed(i + 1, r.err.value)
      else if r.state in targets then
        if run + 1 >= ContinuousTargetOccurrence then KeyVaultKeys.Converged(i + 1)
        else Settle(refreshes, targets, i + 1, run + 1)
      else if r.state == "Pending" then Settle(refreshes, targets, i + 1, 0)
      else KeyVaultKeys.Failed(i + 1, Invalid("unexpected state " + r.state))
  }

  /** The wait's loop. */
  method Wait(refreshes: seq<Refresh>, targets: seq<string>) returns (outcome: KeyVaultKeys.WaitOutcome)
    ensures outcome == Settle(refreshes, targets, 0, 0)
  {
    var i := 0;
    var run := 0;
    while i < |refreshes|
      invariant 0 <= i <= |refreshes|
      invariant Settle(refreshes, targets, 0, 0) == Settle(refreshes, targets, i, run)
      decreases |refreshes| - i
    {
      var r := refreshes[i];
      if r.err.Some? {
        return KeyVaultKeys.Failed(i + 1, r.err.value);
      }
      if r.state in targets {
        run := run + 1;
        if run >= ContinuousTargetOccurrence {
          return KeyVaultKeys.Converged(i + 1);
        }
      } else if r.state == "Pending" {
        run := 0;
      } else {
        return KeyVaultKeys.Failed(i + 1, Invalid("unexpected state " + r.state));
      }
      i := i + 1;
    }
    outcome := KeyVaultKeys.TimedOut(i);
  }

  function UpdateRefreshes(replies: seq<Reply<()>>): (r: seq<Refresh>)
    ensures |r| == |replies| && forall k :: 0 <= k < |replies| ==> r[k] == UpdateRefresh(replies[k])
  {
    seq(|replies|, k requires 0 <= k < |replies| => UpdateRefresh(replies[k]))
  }

  function DeleteRefreshes(replies: seq<Reply<()>>): (r: seq<Refresh>)
    ensures |r| == |replies| && forall k :: 0 <= k < |replies| ==> r[k] == DeleteRefresh(replies[k])
  {
    seq(|replies|, k requires 0 <= k < |replies| => DeleteRefresh(replies[k]))
  }

  /** The wait for an update to replicate, over the reads made before the timeout. */
  function UpdateWait(replies: seq<Reply<()>>): KeyVaultKeys.WaitOutcome
  {
    Settle(UpdateRefreshes(replies), UpdateTargets, 0, 0)
  }

  /** The wait for a delete to replicate, over the reads made before the timeout. */
  function DeleteWait(replies: seq<Reply<()>>): KeyVaultKeys.WaitOutcome
  {
    Settle(DeleteRefreshes(replies), DeleteTargets, 0, 0)
  }

  /**
   * A wait that converges ended on a run of the required length of target
   * observations, made no more refreshes than it was given, and saw no error.
   */
  lemma {:induction false} SettleConverged(refreshes: seq<Refresh>, targets: seq<string>, i: nat, run: nat)
    requires i <= |refreshes| && run <= i && run < ContinuousTargetOccurrence
    requires forall k :: i - run <= k < i ==> refreshes[k].state in targets
    requires Settle(refreshes, targets, i, run).Converged?
    ensures var n := Settle(refreshes, targets, i, run).polls;
      ContinuousTargetOccurrence <= n <= |refreshes|
      && (forall k :: n - ContinuousTargetOccurrence <= k < n ==> refreshes[k].state in targets)
      && (forall k :: i <= k < n ==> refreshes[k].err.None?)
    decreases |refreshes| - i
  {
    var r := refreshes[i];
    if r.state in targets && run + 1 < ContinuousTargetOccurrence {
      SettleConverged(refreshes, targets, i + 1, run + 1);
    } else if r.state !in targets {
      SettleConverged(refreshes, targets, i + 1, 0);
    }
  }

  /** An update has replicated only after six successful reads in a row. */
  lemma UpdateConvergedOnSixReads(replies: seq<Reply<()>>)
    requires UpdateWait(replies).Converged?
    ensures var n := UpdateWait(replies).polls;
      ContinuousTargetOccurrence <= n <= |replies|
      && forall k :: n - ContinuousTargetOccurrence <= k < n ==> replies[k].Success?
  {
    SettleConverged(UpdateRefreshes(replies), UpdateTargets, 0, 0);
  }

  /**
   * A read that finds no role during the update wait ends it with that
   * error, because the update refresh reports "NotFound" with its error.
   */
  lemma UpdateWaitFailsOnNotFound(replies: seq<Reply<()>>)
    requires |replies| > 0 && replies[0].WasNotFound()
    ensures UpdateWait(replies) == KeyVaultKeys.Failed(1, replies[0].AsError())
  {
  }

  /** A delete has replicated after six reads in a row that found no role. */
  lemma DeleteConvergesOnSixMissing(replies: seq<Reply<()>>)
    requires |replies| >= ContinuousTargetOccurrence
    requires forall k :: 0 <= k < ContinuousTargetOccurrence ==> replies[k].WasNotFound()
    ensures DeleteWait(replies) == KeyVaultKeys.Converged(ContinuousTargetOccurrence)
  {
    var rs := DeleteRefreshes(replies);
    assert forall k :: 0 <= k < ContinuousTargetOccurrence ==> rs[k] == Refresh("NotFound", None);
    assert Settle(rs, DeleteTargets, 5, 5) == KeyVaultKeys.Converged(6);
    assert Settle(rs, DeleteTargets, 4, 4) == KeyVaultKeys.Converged(6);
    assert Settle(rs, DeleteTargets, 3, 3) == KeyVaultKeys.Converged(6);
    assert Settle(rs, DeleteTargets, 2, 2) == KeyVaultKeys.Converged(6);
    assert Settle(rs, DeleteTargets, 1, 1) == KeyVaultKeys.Converged(6);
  }

  /** A delete has replicated only after six reads in a row that found no role. */
  lemma DeleteConvergedOnSixMissing(replies: seq<Reply<()>>)
    requires DeleteWait(replies).Converged?
    ensures var n := DeleteWait(replies).polls;
      ContinuousTargetOccurrence <= n <= |replies|
      && forall k :: n - ContinuousTargetOccurrence <= k < n ==> replies[k].WasNotFound()
  {
    SettleConverged(DeleteRefreshes(replies), DeleteTargets, 0, 0);
  }

  // ---------------------------------------------------------------------
  // Handlers
  // ---------------------------------------------------------------------

  /** The configuration of a role definition. */
  datatype RoleConfig = RoleConfig(
    roleDefinitionId: string,   // the GUID; "" lets the handler generate one
    name: string,
    scope: string,
    description: string,
    permissions: seq<PermissionConfig>,
    assignableScopes: seq<string>)

  /** The role definition the create/update handler sends. */
  datatype RoleProperties = RoleProperties(
    roleName: string,
    description: string,
    roleType: string,
    permissions: seq<Permission>,
    assignableScopes: seq<string>)

  const CustomRole: string := "CustomRole"

  /** The remote calls the handlers make, in order. */
  datatype RoleCall =
    | GetRole(scope: string, name: string)
    | PutRole(scope: string, name: string, properties: RoleProperties)
    | GetRoleById(resourceId: string)
    | DeleteRole(scope: string, name: string)

  /** The definition sent for a configuration: its permissions, and its own scope when none is assignable. */
  predicate SendsDefinition(cfg: RoleConfig, p: RoleProperties)
  {
    p.roleName == cfg.name && p.description == cfg.description && p.roleType == CustomRole
    && |p.permissions| == |cfg.permissions|
    && (forall k :: 0 <= k < |cfg.permissions| ==> p.permissions[k] == SentPermission(cfg.permissions[k]))
    && p.assignableScopes == (if |cfg.assignableScopes| == 0 then [cfg.scope] else cfg.assignableScopes)
  }

  /** The role's GUID: the configured one, or else a generated one. */
  function RoleName(cfg: RoleConfig, generated: Result<string>): (r: Result<string>)
    ensures cfg.roleDefinitionId != "" ==> r == Ok(cfg.roleDefinitionId)
    ensures cfg.roleDefinitionId == "" ==> r == generated
  {
    if cfg.roleDefinitionId == "" then generated else Ok(cfg.roleDefinitionId)
  }

  /** The new-resource check: an existing role with a non-empty ID is refused with the ID it would import as. */
  function ExistingError(existing: Reply<Option<string>>, scope: string): (e: Option<Error>)
    ensures existing.Failure? && !existing.WasNotFound() ==> e == Some(existing.AsError())
    ensures existing.Success? && existing.body.Some? && existing.body.value != ""
      ==> e == Some(AlreadyExists(StoredId(existing.body.value, scope)))
    ensures existing.WasNotFound() || (existing.Success? && (existing.body.None? || existing.body.value == "")) ==> e.None?
  {
    if existing.Failure? then
      if existing.WasNotFound() then None else Some(existing.AsError())
    else if existing.body.Some? && existing.body.value != "" then
      Some(AlreadyExists(StoredId(existing.body.value, scope)))
    else None
  }

  /** The ID stored after a write: the role's read-back resource ID joined to the scope. */
  predicate Stores(read: Reply<Option<string>>, scope: string, id: string)
  {
    read.Success? && read.body.Some? && read.body.value != "" && id == StoredId(read.body.value, scope)
  }

  /**
   * After the write: on an update, the wait for six consistent reads of the
   * role (the stored ID is parsed for its resource ID); then the read whose
   * non-empty ID is stored next to the scope.
   */
  method Replicate(d: ResourceData, isNew: bool, scope: string, name: string,
                   updateReplies: seq<Reply<()>>, read: Reply<Option<string>>)
    returns (err: Option<Error>, calls: seq<RoleCall>)
    modifies d
    ensures !isNew && ParseRoleDefinitionId(old(d.id)).Err? ==> err == Some(ParseRoleDefinitionId(old(d.id)).error)
    ensures !isNew && ParseRoleDefinitionId(old(d.id)).Ok? && !UpdateWait(updateReplies).Converged? ==> err.Some?
    ensures err.None? <==> (isNew || (ParseRoleDefinitionId(old(d.id)).Ok? && UpdateWait(updateReplies).Converged?))
                           && Stores(read, scope, d.id)
    ensures err.Some? ==> d.id == old(d.id)
    ensures err.None? ==> |calls| > 0 && calls[|calls| - 1] == GetRole(scope, name)
  {
    calls := [];
    if !isNew {
      var id := ParseRoleDefinitionId(d.id);
      if id.Err? {
        return Some(id.error), calls;
      }
      var outcome := Wait(UpdateRefreshes(updateReplies), UpdateTargets);
      calls := calls + seq(outcome.polls, _ => GetRoleById(id.value.resourceId));
      if !outcome.Converged? {
        return Some(WaitFailed("update replication")), calls;
      }
    }
    calls := calls + [GetRole(scope, name)];
    if read.Failure? {
      return Some(read.AsError()), calls;
    }
    if read.body.None? || read.body.value == "" {
      return Some(Missing("role definition ID")), calls;
    }
    d.id := StoredId(read.body.value, scope);
    err := None;
  }

  /**
   * `resourceArmRoleDefinitionCreateUpdate` up to its final read: pick the
   * GUID, refuse an existing role on create, send the definition, and store
   * the ID.
   */
  method CreateUpdate(d: ResourceData, isNew: bool, cfg: RoleConfig, generated: Result<string>,
                      existing: Reply<Option<string>>, put: Reply<()>,
                      updateReplies: seq<Reply<()>>, read: Reply<Option<string>>)
    returns (err: Option<Error>, calls: seq<RoleCall>)
    modifies d
    ensures RoleName(cfg, generated).Err? ==> err.Some? && calls == [] && d.id == old(d.id)
    ensures RoleName(cfg, generated).Ok? && isNew && ExistingError(existing, cfg.scope).Some? ==>
      err == ExistingError(existing, cfg.scope) && calls == [GetRole(cfg.scope, RoleName(cfg, generated).value)]
      && d.id == old(d.id)
    ensures RoleName(cfg, generated).Ok? && (!isNew || ExistingError(existing, cfg.scope).None?) ==>
      var name := RoleName(cfg, generated).value;
      var at := if isNew then 1 else 0;
      |calls| > at && calls[at].PutRole? && calls[at].scope == cfg.scope && calls[at].name == name
      && SendsDefinition(cfg, calls[at].properties)
      && (put.Failure? ==> err == Some(put.AsError()) && |calls| == at + 1)
    ensures err.None? ==> put.Success? && read.Success? && read.body.Some? && Stores(read, cfg.scope, d.id)
    ensures err.Some? ==> d.id == old(d.id)
  {
    calls := [];
    var nameOf := RoleName(cfg, generated);
    if nameOf.Err? {
      return Some(nameOf.error), calls;
    }
    var name := nameOf.value;
    var permissions := ExpandPermissions(cfg.permissions);
    var assignableScopes := ExpandAssignableScopes(cfg.assignableScopes, cfg.scope);
    if isNew {
      calls := calls + [GetRole(cfg.scope, name)];
      var refused := ExistingError(existing, cfg.scope);
      if refused.Some? {
        return refused, calls;
      }
    }
    var properties := RoleProperties(cfg.name, cfg.description, CustomRole, permissions, assignableScopes);
    calls := calls + [PutRole(cfg.scope, name, properties)];
    if put.Failure? {
      return Some(put.AsError()), calls;
    }
    var more;
    err, more := Replicate(d, isNew, cfg.scope, name, updateReplies, read);
    calls := calls + more;
  }

  /** What the read handler stores about a role. */
  datatype RoleDetails = RoleDetails(
    name: Option<string>,
    description: Option<string>,
    permissions: seq<PermissionConfig>,
    assignableScopes: seq<string>)

  /** The role definition's properties as the API returns them. */
  datatype RemoteProperties = RemoteProperties(
    roleName: Option<string>,
    description: Option<string>,
    permissions: Option<seq<Permission>>,
    assignableScopes: Option<seq<string>>)

  /**
   * `resourceArmRoleDefinitionRead`: parse the stored ID, which gives the
   * scope and both IDs stored; a missing role clears the ID with no error;
   * present properties are flattened into the stored details.
   */
  method Read(d: ResourceData, get: Reply<Option<RemoteProperties>>)
    returns (err: Option<Error>, ids: Option<RoleDefinitionId>, details: Option<RoleDetails>, calls: seq<RoleCall>)
    modifies d
    ensures ParseRoleDefinitionId(old(d.id)).Err? ==>
      err == Some(ParseRoleDefinitionId(old(d.id)).error) && calls == [] && d.id == old(d.id)
    ensures ParseRoleDefinitionId(old(d.id)).Ok? ==>
      var id := ParseRoleDefinitionId(old(d.id)).value;
      ids == Some(id) && calls == [GetRole(id.scope, id.roleId)]
      && (get.WasNotFound() ==> err.None? && d.id == "" && details.None?)
      && (get.Failure? && !get.WasNotFound() ==> err == Some(get.AsError()) && d.id == old(d.id))
      && (get.Success? ==> err.None? && d.id == old(d.id) && (details.Some? <==> get.body.Some?))
    ensures details.Some? ==> (
      get.Success? && get.body.Some?
      && details.value.name == get.body.value.roleName
      && details.value.description == get.body.value.description
      && details.value.assignableScopes == OrEmpty(get.body.value.assignableScopes)
      && (get.body.value.permissions.None? ==> details.value.permissions == [])
      && (get.body.value.permissions.Some? ==>
            |details.value.permissions| == |get.body.value.permissions.value|
            && forall k :: 0 <= k < |details.value.permissions| ==>
                 details.value.permissions[k] == FlatPermission(get.body.value.permissions.value[k])))
  {
    calls := [];
    details := None;
    ids := None;
    var id := ParseRoleDefinitionId(d.id);
    if id.Err? {
      return Some(id.error), ids, details, calls;
    }
    ids := Some(id.value);
    calls := calls + [GetRole(id.value.scope, id.value.roleId)];
    if get.Failure? {
      if get.WasNotFound() {
        d.id := "";
        return None, ids, details, calls;
      }
      return Some(get.AsError()), ids, details, calls;
    }
    err := None;
    if get.body.Some? {
      var props := get.body.value;
      var permissions := FlattenPermissions(props.permissions);
      var assignableScopes := FlattenAssignableScopes(props.assignableScopes);
      details := Some(RoleDetails(props.roleName, props.description, permissions, assignableScopes));
    }
  }

  /**
   * `resourceArmRoleDefinitionDelete`: the parse error of the stored ID is
   * discarded and the nil ID dereferenced, unless the parser itself panics
   * on its index first; a missing role is already deleted; then the wait
   * for six reads that find no role.
   */
  method Delete(d: ResourceData, del: Reply<()>, replies: seq<Reply<()>>)
    returns (err: Option<Error>, calls: seq<RoleCall>)
    ensures ParseRoleDefinitionId(d.id).Err? && ParseRoleDefinitionId(d.id).error.OutOfRange? ==>
      err == Some(ParseRoleDefinitionId(d.id).error) && calls == []
    ensures ParseRoleDefinitionId(d.id).Err? && !ParseRoleDefinitionId(d.id).error.OutOfRange? ==>
      err.Some? && err.value.NilDereference? && calls == []
    ensures ParseRoleDefinitionId(d.id).Ok? ==>
      var id := ParseRoleDefinitionId(d.id).value;
      |calls| >= 1 && calls[0] == DeleteRole(id.scope, id.roleId)
      && (del.Failure? && !del.WasNotFound() ==> err == Some(del.AsError()) && calls == [calls[0]])
      && (del.Success? || del.WasNotFound() ==>
            (err.None? <==> DeleteWait(replies).Converged?)
            && calls == [calls[0]] + seq(DeleteWait(replies).polls, _ => GetRoleById(id.resourceId)))
  {
    calls := [];
    var id := ParseRoleDefinitionId(d.id);
    if id.Err? {
      if id.error.OutOfRange? {
        return Some(id.error), calls;
      }
      return Some(NilDereference("role definition ID")), calls;
    }
    calls := [DeleteRole(id.value.scope, id.value.roleId)];
    if del.Failure? && !del.WasNotFound() {
      return Some(del.AsError()), calls;
    }
    var outcome := Wait(DeleteRefreshes(replies), DeleteTargets);
    calls := calls + seq(outcome.polls, _ => GetRoleById(id.value.resourceId));
    if !outcome.Converged? {
      return Some(WaitFailed("delete replication")), calls;
    }
    err := None;
  }
}
