/**
 * Keys stored in a key vault (`azurestack/resource_arm_key_vault_key.go`):
 * the delete-then-purge sequence shared by keys and secrets, the
 * classification of its polls, the create parameters and the key
 * resource's create and delete handlers.
 */
module KeyVaultKeys {
  import opened Common
  import opened KeyVaultIds
  import opened Terraform

  // ---------------------------------------------------------------------
  // Waiting for a nested item to disappear
  // ---------------------------------------------------------------------

  /** The state a poll of a nested item reports. */
  datatype PollState = NotFoundState | InProgressState | ErrorState(error: Error)

  /**
   * The refresh function of both waits: a missing item is "NotFound", any
   * other failure is "Error", and an item still present is "InProgress".
   */
  function ClassifyPoll(reply: Reply<()>): (s: PollState)
    ensures s.NotFoundState? <==> reply.WasNotFound()
    ensures s.InProgressState? <==> reply.Success?
    ensures s.ErrorState? <==> reply.Failure? && !reply.WasNotFound()
    ensures s.ErrorState? ==> s.error == reply.AsError()
  {
    if reply.Failure? then
      if reply.WasNotFound() then NotFoundState else ErrorState(reply.AsError())
    else InProgressState
  }

  /** The number of "NotFound" polls in a row both waits require. */
  const ContinuousTargetOccurrence: nat := 3

  /** How a wait ends, and after how many polls. */
  datatype WaitOutcome = Converged(polls: nat) | Failed(polls: nat, error: Error) | TimedOut(polls: nat)

  /**
   * The wait over the polls that fit before the deadline, from poll `i`
   * with `run` "NotFound" polls in a row behind it: an error ends it, an
   * item still present resets the run, and the wait succeeds once the run
   * reaches the required length.
   */
  function Settle(polls: seq<Reply<()>>, i: nat, run: nat): WaitOutcome
    requires i <= |polls|
    decreases |polls| - i
  {
    if i == |polls| then TimedOut(i)
    else match ClassifyPoll(polls[i])
      case ErrorState(e) => Failed(i + 1, e)
      case InProgressState => Settle(polls, i + 1, 0)
      case NotFoundState =>
        if run + 1 >= ContinuousTargetOccurrence then Converged(i + 1) else Settle(polls, i + 1, run + 1)
  }

  /** The outcome of a wait that starts with no run behind it. */
  function WaitFor(polls: seq<Reply<()>>): WaitOutcome
  {
    Settle(polls, 0, 0)
  }

  /** The number of polls a wait makes. */
  function PollsMade(w: WaitOutcome): nat
  {
    match w
    case Converged(n) => n
    case Failed(n, _) => n
    case TimedOut(n) => n
  }

  /** The wait's loop: polls until the run is long enough, an error, or the deadline. */
  method WaitUntilNotFound(polls: seq<Reply<()>>) returns (outcome: WaitOutcome)
    ensures outcome == WaitFor(polls)
  {
    var i := 0;
    var run := 0;
    while i < |polls|
      invariant 0 <= i <= |polls|
      invariant WaitFor(polls) == Settle(polls, i, run)
      decreases |polls| - i
    {
      var state := ClassifyPoll(polls[i]);
      if state.ErrorState? {
        return Failed(i + 1, state.error);
      }
      if state.InProgressState? {
        run := 0;
      } else {
        run := run + 1;
        if run >= ContinuousTargetOccurrence {
          return Converged(i + 1);
        }
      }
      i := i + 1;
    }
    outcome := TimedOut(i);
  }

  /** The outcome of a wait from poll `i` never claims more polls than there are. */
  lemma {:induction false} SettleBounds(polls: seq<Reply<()>>, i: nat, run: nat)
    requires i <= |polls|
    ensures i <= PollsMade(Settle(polls, i, run)) <= |polls|
    ensures Settle(polls, i, run).Converged? || Settle(polls, i, run).Failed? ==> i < PollsMade(Settle(polls, i, run))
    decreases |polls| - i
  {
    if i < |polls| {
      SettleBounds(polls, i + 1, 0);
      SettleBounds(polls, i + 1, run + 1);
    }
  }

  /**
   * A wait that converges ended on a run of the required length of
   * "NotFound" polls, and saw no error before.
   */
  lemma {:induction false} SettleConverged(polls: seq<Reply<()>>, i: nat, run: nat)
    requires i <= |polls| && run < ContinuousTargetOccurrence
    requires forall k :: i - run <= k < i && 0 <= k ==> polls[k].WasNotFound()
    requires run <= i
    requires Settle(polls, i, run).Converged?
    ensures PollsMade(Settle(polls, i, run)) <= |polls|
    ensures var n := PollsMade(Settle(polls, i, run));
      n >= ContinuousTargetOccurrence
      && forall k :: n - ContinuousTargetOccurrence <= k < n ==> polls[k].WasNotFound()
    ensures forall k :: i <= k < PollsMade(Settle(polls, i, run)) ==> !ClassifyPoll(polls[k]).ErrorState?
    decreases |polls| - i
  {
    SettleBounds(polls, i, run);
    var s := ClassifyPoll(polls[i]);
    if s.InProgressState? {
      SettleConverged(polls, i + 1, 0);
    } else if s.NotFoundState? && run + 1 < ContinuousTargetOccurrence {
      SettleConverged(polls, i + 1, run + 1);
    }
  }

  /** A wait that fails does so on its last poll, the first error it saw. */
  lemma {:induction false} SettleFailed(polls: seq<Reply<()>>, i: nat, run: nat)
    requires i <= |polls|
    requires Settle(polls, i, run).Failed?
    ensures var w := Settle(polls, i, run);
      i < w.polls <= |polls| && polls[w.polls - 1].Failure? && !polls[w.polls - 1].WasNotFound()
      && w.error == polls[w.polls - 1].AsError()
      && forall k :: i <= k < w.polls - 1 ==> !ClassifyPoll(polls[k]).ErrorState?
    decreases |polls| - i
  {
    var s := ClassifyPoll(polls[i]);
    if s.InProgressState? {
      SettleFailed(polls, i + 1, 0);
    } else if s.NotFoundState? && run + 1 < ContinuousTargetOccurrence {
      SettleFailed(polls, i + 1, run + 1);
    }
  }

  /** Three "NotFound" polls in a row at the start are enough. */
  lemma ThreeNotFoundConverge(polls: seq<Reply<()>>)
    requires |polls| >= 3 && polls[0].WasNotFound() && polls[1].WasNotFound() && polls[2].WasNotFound()
    ensures WaitFor(polls) == Converged(3)
  {
    assert Settle(polls, 2, 2) == Converged(3);
    assert Settle(polls, 1, 1) == Converged(3);
  }

  /** An item that never goes away makes the wait time out after every poll. */
  lemma {:induction false} PresentItemTimesOut(polls: seq<Reply<()>>, i: nat, run: nat)
    requires i <= |polls|
    requires forall k :: i <= k < |polls| ==> polls[k].Success?
    ensures Settle(polls, i, run) == TimedOut(|polls|)
    decreases |polls| - i
  {
    if i < |polls| {
      PresentItemTimesOut(polls, i + 1, 0);
    }
  }

  // ---------------------------------------------------------------------
  // deleteAndOptionallyPurge
  // ---------------------------------------------------------------------

  /** The remote calls of the delete-then-purge sequence. */
  datatype PurgeCall = DeleteItem | PollDeleted | PurgeItem | PollPurged

  /** `n` copies of a call. */
  function Repeat(c: PurgeCall, n: nat): (r: seq<PurgeCall>)
    ensures |r| == n && forall k :: 0 <= k < n ==> r[k] == c
  {
    if n == 0 then [] else Repeat(c, n - 1) + [c]
  }

  /** What the remote answers at each step of the sequence. */
  datatype PurgeReplies = PurgeReplies(
    delete: Reply<()>,
    deletedPolls: seq<Reply<()>>,
    purge: Reply<()>,
    purgedPolls: seq<Reply<()>>)

  /** The calls made once the delete call succeeded and its wait converged. */
  function PurgeCalls(shouldPurge: bool, replies: PurgeReplies): seq<PurgeCall>
  {
    if !shouldPurge then []
    else if replies.purge.Failure? then [PurgeItem]
    else [PurgeItem] + Repeat(PollPurged, PollsMade(WaitFor(replies.purgedPolls)))
  }

  /** The calls of the whole sequence, for a context that has a deadline. */
  function SequenceCalls(shouldPurge: bool, replies: PurgeReplies): seq<PurgeCall>
  {
    if replies.delete.Failure? then [DeleteItem]
    else
      var deleted := WaitFor(replies.deletedPolls);
      [DeleteItem] + Repeat(PollDeleted, PollsMade(deleted))
      + (if deleted.Converged? then PurgeCalls(shouldPurge, replies) else [])
  }

  /** The sequence succeeds. */
  predicate SequenceSucceeds(shouldPurge: bool, replies: PurgeReplies)
  {
    replies.delete.WasNotFound()
    || (replies.delete.Success? && WaitFor(replies.deletedPolls).Converged?
        && (shouldPurge ==> replies.purge.Success? && WaitFor(replies.purgedPolls).Converged?))
  }

  /**
   * `deleteAndOptionallyPurge`: without a deadline nothing is called; an
   * item already gone is not an error; otherwise the delete is awaited, and
   * the purge is sent and awaited only when asked for.
   */
  method DeleteAndOptionallyPurge(hasDeadline: bool, shouldPurge: bool, replies: PurgeReplies)
    returns (err: Option<Error>, calls: seq<PurgeCall>)
    ensures !hasDeadline ==> err.Some? && calls == []
    ensures hasDeadline ==> calls == SequenceCalls(shouldPurge, replies)
    ensures hasDeadline ==> (err.None? <==> SequenceSucceeds(shouldPurge, replies))
    ensures hasDeadline && replies.delete.Failure? && !replies.delete.WasNotFound() ==>
      err == Some(replies.delete.AsError())
    ensures hasDeadline && replies.delete.Success? && WaitFor(replies.deletedPolls).Converged? ==>
      (shouldPurge && replies.purge.Failure? ==> err == Some(replies.purge.AsError()))
      && (!shouldPurge ==> err.None?)
  {
    calls := [];
    if !hasDeadline {
      return Some(Invalid("context is missing a timeout")), calls;
    }
    calls := calls + [DeleteItem];
    if replies.delete.Failure? {
      if replies.delete.WasNotFound() {
        return None, calls;
      }
      return Some(replies.delete.AsError()), calls;
    }
    var deleted := WaitUntilNotFound(replies.deletedPolls);
    calls := calls + Repeat(PollDeleted, PollsMade(deleted));
    if !deleted.Converged? {
      return Some(WaitFailed("deleted")), calls;
    }
    if !shouldPurge {
      return None, calls;
    }
    calls := calls + [PurgeItem];
    if replies.purge.Failure? {
      return Some(replies.purge.AsError()), calls;
    }
    var purged := WaitUntilNotFound(replies.purgedPolls);
    calls := calls + Repeat(PollPurged, PollsMade(purged));
    if !purged.Converged? {
      return Some(WaitFailed("purged")), calls;
    }
    err := None;
  }

  /** The number of times a call occurs. */
  function Count(calls: seq<PurgeCall>, c: PurgeCall): nat
  {
    if |calls| == 0 then 0 else Count(calls[..|calls| - 1], c) + (if calls[|calls| - 1] == c then 1 else 0)
  }

  lemma {:induction false} CountAppend(a: seq<PurgeCall>, b: seq<PurgeCall>, c: PurgeCall)
    ensures Count(a + b, c) == Count(a, c) + Count(b, c)
    decreases |b|
  {
    if |b| == 0 {
      assert a + b == a;
    } else {
      assert (a + b)[..|a + b| - 1] == a + b[..|b| - 1];
      CountAppend(a, b[..|b| - 1], c);
    }
  }

  lemma {:induction false} CountRepeat(d: PurgeCall, n: nat, c: PurgeCall)
    ensures Count(Repeat(d, n), c) == (if c == d then n else 0)
  {
    if n > 0 {
      assert Repeat(d, n)[..n - 1] == Repeat(d, n - 1);
      CountRepeat(d, n - 1, c);
    }
  }

  /** The calls after the delete wait hold the purge once when asked for, and never the delete. */
  lemma PurgeCallsCount(shouldPurge: bool, replies: PurgeReplies)
    ensures Count(PurgeCalls(shouldPurge, replies), PurgeItem) == (if shouldPurge then 1 else 0)
    ensures Count(PurgeCalls(shouldPurge, replies), DeleteItem) == 0
  {
    if shouldPurge {
      assert Count([PurgeItem], PurgeItem) == Count([], PurgeItem) + 1;
      assert Count([PurgeItem], DeleteItem) == Count([], DeleteItem);
      if replies.purge.Success? {
        var n := PollsMade(WaitFor(replies.purgedPolls));
        CountAppend([PurgeItem], Repeat(PollPurged, n), PurgeItem);
        CountAppend([PurgeItem], Repeat(PollPurged, n), DeleteItem);
        CountRepeat(PollPurged, n, PurgeItem);
        CountRepeat(PollPurged, n, DeleteItem);
      }
    }
  }

  /** The delete call and the polls of its wait hold the delete once and no purge. */
  lemma DeletePhaseCount(n: nat)
    ensures Count([DeleteItem] + Repeat(PollDeleted, n), PurgeItem) == 0
    ensures Count([DeleteItem] + Repeat(PollDeleted, n), DeleteItem) == 1
  {
    assert Count([DeleteItem], PurgeItem) == Count([], PurgeItem);
    assert Count([DeleteItem], DeleteItem) == Count([], DeleteItem) + 1;
    CountAppend([DeleteItem], Repeat(PollDeleted, n), PurgeItem);
    CountAppend([DeleteItem], Repeat(PollDeleted, n), DeleteItem);
    CountRepeat(PollDeleted, n, PurgeItem);
    CountRepeat(PollDeleted, n, DeleteItem);
  }

  /**
   * The item is deleted exactly once, first; the purge is called at most
   * once, and exactly when asked for after the delete call succeeded and its
   * wait converged, so never when the item was already gone.
   */
  lemma PurgeCalledOnceAfterDelete(shouldPurge: bool, replies: PurgeReplies)
    ensures var calls := SequenceCalls(shouldPurge, replies);
      Count(calls, PurgeItem) <= 1
      && (Count(calls, PurgeItem) == 1 <==>
            shouldPurge && replies.delete.Success? && WaitFor(replies.deletedPolls).Converged?)
      && Count(calls, DeleteItem) == 1 && calls[0] == DeleteItem
  {
    if replies.delete.Failure? {
      DeletePhaseCount(0);
      assert [DeleteItem] + Repeat(PollDeleted, 0) == [DeleteItem];
    } else {
      var deleted := WaitFor(replies.deletedPolls);
      var head := [DeleteItem] + Repeat(PollDeleted, PollsMade(deleted));
      var tail := if deleted.Converged? then PurgeCalls(shouldPurge, replies) else [];
      assert SequenceCalls(shouldPurge, replies) == head + tail;
      DeletePhaseCount(PollsMade(deleted));
      CountAppend(head, tail, PurgeItem);
      CountAppend(head, tail, DeleteItem);
      PurgeCallsCount(shouldPurge, replies);
    }
  }

  /** With purging switched off the sequence never polls for the purge either. */
  lemma NoPurgeWithoutOptIn(replies: PurgeReplies)
    ensures PurgeItem !in SequenceCalls(false, replies) && PollPurged !in SequenceCalls(false, replies)
  {
    if replies.delete.Success? {
      var n := PollsMade(WaitFor(replies.deletedPolls));
      assert SequenceCalls(false, replies) == [DeleteItem] + Repeat(PollDeleted, n);
    }
  }

  // ---------------------------------------------------------------------
  // The key resource
  // ---------------------------------------------------------------------

  /** `keyvault.JSONWebKeyType` values the resource accepts. */
  const KeyTypeEC: string := "EC"
  const KeyTypeECHSM: string := "EC-HSM"
  const KeyTypeRSA: string := "RSA"
  const KeyTypeRSAHSM: string := "RSA-HSM"

  predicate IsEllipticCurve(keyType: string) { keyType == KeyTypeEC || keyType == KeyTypeECHSM }

  predicate IsRsa(keyType: string) { keyType == KeyTypeRSA || keyType == KeyTypeRSAHSM }

  /**
   * `d.GetOk`: an attribute holding its type's zero value (0, "") reads as
   * unset, like one that is absent.
   */
  function GetOk<T(==)>(v: Option<T>, zero: T): (r: Option<T>)
    ensures r.Some? <==> v.Some? && v.value != zero
    ensures r.Some? ==> r == v
  {
    if v.Some? && v.value != zero then v else None
  }

  /**
   * The key resource's configuration.  `keySize`, `notBefore` and `expires`
   * hold the attribute as configured, `None` when it is absent; the zero
   * value counts as unset where the handler reads them (`GetOk`).
   */
  datatype KeyConfig = KeyConfig(
    name: string,
    keyVaultId: string,
    keyType: string,
    keyOptions: seq<string>,
    curve: string,
    keySize: Option<int>,
    notBefore: Option<string>,
    expires: Option<string>,
    tags: map<string, string>)

  /** `keyvault.KeyCreateParameters`; dates stay in their configured text. */
  datatype KeyCreateParameters = KeyCreateParameters(
    keyType: string,
    keyOptions: seq<string>,
    enabled: bool,
    curve: Option<string>,
    keySize: Option<int>,
    notBefore: Option<string>,
    expires: Option<string>,
    tags: map<string, string>)

  /** The part of a key bundle the handlers read. */
  datatype KeyBundle = KeyBundle(kid: Option<string>)

  /** The reply to `GetKey` names a key with a non-empty ID. */
  predicate NamesKey(existing: Reply<Option<KeyBundle>>)
  {
    existing.Success? && existing.body.Some? && existing.body.value.kid.Some? && existing.body.value.kid.value != ""
  }

  /** `expandKeyVaultKeyOptions`: the configured operations, in order. */
  method ExpandKeyOptions(options: seq<string>) returns (results: seq<string>)
    ensures results == options
  {
    results := [];
    for i := 0 to |options|
      invariant results == options[..i]
    {
      results := results + [options[i]];
    }
  }

  /** An RSA key whose size is unset (absent or 0) cannot be created. */
  predicate LacksKeySize(cfg: KeyConfig)
  {
    IsRsa(cfg.keyType) && GetOk(cfg.keySize, 0).None?
  }

  /**
   * The create parameters for a configuration: the key is enabled, an
   * elliptic-curve key names its curve, an RSA key its size, and the dates
   * are carried when set.
   */
  predicate ParametersFor(cfg: KeyConfig, p: KeyCreateParameters)
  {
    p.keyType == cfg.keyType && p.keyOptions == cfg.keyOptions && p.enabled && p.tags == cfg.tags
    && p.notBefore == GetOk(cfg.notBefore, "") && p.expires == GetOk(cfg.expires, "")
    && p.curve == (if IsEllipticCurve(cfg.keyType) then Some(cfg.curve) else None)
    && p.keySize == (if IsRsa(cfg.keyType) then GetOk(cfg.keySize, 0) else None)
  }

  /** The parameters are fixed by the configuration. */
  lemma ParametersForUnique(cfg: KeyConfig, p: KeyCreateParameters, q: KeyCreateParameters)
    requires ParametersFor(cfg, p) && ParametersFor(cfg, q)
    ensures p == q
  {
  }

  /** The create parameters; an RSA key needs its size. */
  method BuildKeyParameters(cfg: KeyConfig) returns (r: Result<KeyCreateParameters>)
    ensures r.Err? <==> LacksKeySize(cfg)
    ensures r.Ok? ==> ParametersFor(cfg, r.value)
    ensures IsRsa(cfg.keyType) ==> r.Ok? ==> r.value.keySize.Some? && r.value.keySize.value != 0
  {
    var options := ExpandKeyOptions(cfg.keyOptions);
    var parameters := KeyCreateParameters(cfg.keyType, options, true, None, None, None, None, cfg.tags);
    if IsEllipticCurve(cfg.keyType) {
      parameters := parameters.(curve := Some(cfg.curve));
    } else if IsRsa(cfg.keyType) {
      var keySize := GetOk(cfg.keySize, 0);
      if keySize.None? {
        return Err(Missing("key_size"));
      }
      parameters := parameters.(keySize := keySize);
    }
    var notBefore := GetOk(cfg.notBefore, "");
    if notBefore.Some? {
      parameters := parameters.(notBefore := notBefore);
    }
    var expires := GetOk(cfg.expires, "");
    if expires.Some? {
      parameters := parameters.(expires := expires);
    }
    r := Ok(parameters);
  }

  /** The remote calls of the key handlers. */
  datatype KeyCall = GetKey | CreateKey(parameters: KeyCreateParameters) | DeleteKey | PurgeDeletedKey | GetDeletedKey

  /**
   * `deleteAndPurgeKey`: the delete is `DeleteKey`, its wait polls `GetKey`,
   * the purge is `PurgeDeletedKey` and its wait polls `GetDeletedKey`.
   */
  function KeyOperation(c: PurgeCall): KeyCall
  {
    match c
    case DeleteItem => DeleteKey
    case PollDeleted => GetKey
    case PurgeItem => PurgeDeletedKey
    case PollPurged => GetDeletedKey
  }

  function KeyOperations(calls: seq<PurgeCall>): (r: seq<KeyCall>)
    ensures |r| == |calls| && forall i :: 0 <= i < |calls| ==> r[i] == KeyOperation(calls[i])
  {
    seq(|calls|, i requires 0 <= i < |calls| => KeyOperation(calls[i]))
  }

  /**
   * The create handler up to the final read: an existing key is refused, the
   * key is created, and the ID stored is the one the key is read back with.
   */
  method Create(d: ResourceData, cfg: KeyConfig, baseUri: Result<string>,
                   existing: Reply<Option<KeyBundle>>, create: Reply<()>, read: Reply<Option<KeyBundle>>)
    returns (err: Option<Error>, calls: seq<KeyCall>)
    modifies d
    ensures VaultID(cfg.keyVaultId).Err? ==> err == Some(VaultID(cfg.keyVaultId).error) && calls == []
    ensures VaultID(cfg.keyVaultId).Ok? && baseUri.Err? ==> err == Some(baseUri.error) && calls == []
    ensures VaultID(cfg.keyVaultId).Ok? && baseUri.Ok? ==>
      |calls| >= 1 && calls[0] == GetKey
      && (existing.Failure? && !existing.WasNotFound() ==> err == Some(existing.AsError()) && calls == [GetKey])
      && (NamesKey(existing) ==> err == Some(AlreadyExists(existing.body.value.kid.value)) && calls == [GetKey])
      && (!NamesKey(existing) && (existing.Success? || existing.WasNotFound()) ==>
            (LacksKeySize(cfg) ==> err.Some? && calls == [GetKey])
            && (!LacksKeySize(cfg) ==> |calls| >= 2 && calls[1].CreateKey? && ParametersFor(cfg, calls[1].parameters)))
    ensures d.id != old(d.id) ==>
      err.None? && read.Success? && read.body.Some? && read.body.value.kid.Some? && d.id == read.body.value.kid.value
    ensures err.None? ==>
      create.Success? && read.Success? && read.body.Some? && read.body.value.kid.Some?
      && d.id == read.body.value.kid.value && |calls| == 3 && calls[2] == GetKey
  {
    calls := [];
    var vaultId := VaultID(cfg.keyVaultId);
    if vaultId.Err? {
      return Some(vaultId.error), calls;
    }
    if baseUri.Err? {
      return Some(baseUri.error), calls;
    }
    calls := calls + [GetKey];
    if existing.Failure? && !existing.WasNotFound() {
      return Some(existing.AsError()), calls;
    }
    if existing.Success? && existing.body.Some? && existing.body.value.kid.Some? && existing.body.value.kid.value != "" {
      return Some(AlreadyExists(existing.body.value.kid.value)), calls;
    }
    var parameters := BuildKeyParameters(cfg);
    if parameters.Err? {
      return Some(parameters.error), calls;
    }
    calls := calls + [CreateKey(parameters.value)];
    if create.Failure? {
      return Some(create.AsError()), calls;
    }
    calls := calls + [GetKey];
    if read.Failure? {
      return Some(read.AsError()), calls;
    }
    if read.body.None? || read.body.value.kid.None? {
      return Some(NilDereference("key.Kid")), calls;
    }
    d.id := read.body.value.kid.value;
    err := None;
  }

  /**
   * The delete handler: the vault is looked up from the key's base URL; a
   * vault that is gone removes the key from state, otherwise the key is
   * deleted and always purged.
   */
  method Delete(d: ResourceData, vaultLookup: Result<Option<string>>, vaultExists: Result<bool>,
                   hasDeadline: bool, replies: PurgeReplies)
    returns (err: Option<Error>, calls: seq<KeyCall>)
    modifies d
    ensures ParseVersionedNestedItemId(old(d.id)).Err? ==> err.Some? && calls == [] && d.id == old(d.id)
    ensures ParseVersionedNestedItemId(old(d.id)).Ok? && (vaultLookup.Err? || vaultLookup == Ok(None)) ==>
      err.Some? && calls == [] && d.id == old(d.id)
    ensures ParseVersionedNestedItemId(old(d.id)).Ok? && vaultLookup.Ok? && vaultLookup.value.Some?
            && VaultID(vaultLookup.value.value).Ok? ==>
      (vaultExists.Err? ==> err == Some(vaultExists.error) && calls == [] && d.id == old(d.id))
      && (vaultExists == Ok(false) ==> err.None? && calls == [] && d.id == "")
      && (vaultExists == Ok(true) ==>
            d.id == old(d.id)
            && (hasDeadline ==> calls == KeyOperations(SequenceCalls(true, replies))
                                && (err.None? <==> SequenceSucceeds(true, replies))))
    ensures calls != [] ==> d.id == old(d.id)
  {
    calls := [];
    var id := ParseVersionedNestedItemId(d.id);
    if id.Err? {
      return Some(id.error), calls;
    }
    if vaultLookup.Err? {
      return Some(vaultLookup.error), calls;
    }
    if vaultLookup.value.None? {
      return Some(Missing("key vault resource ID")), calls;
    }
    var vaultId := VaultID(vaultLookup.value.value);
    if vaultId.Err? {
      return Some(vaultId.error), calls;
    }
    if vaultExists.Err? {
      return Some(vaultExists.error), calls;
    }
    if !vaultExists.value {
      d.id := "";
      return None, calls;
    }
    // The option to keep soft-deleted keys is not implemented: keys are always purged.
    var shouldPurge := true;
    var sequence;
    err, sequence := DeleteAndOptionallyPurge(hasDeadline, shouldPurge, replies);
    calls := KeyOperations(sequence);
  }
}
