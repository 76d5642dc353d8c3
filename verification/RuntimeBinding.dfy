/** How a pooled CPA account is pinned to one runtime credential before a request may leave the gateway. */
module RuntimeBinding {
  import opened Basics
  import opened Routability

  datatype Result<+T, +E> = Ok(value: T) | Err(error: E)

  datatype Service = Service(enabled: bool, baseUrl: string, apiKey: string, managementKey: string)

  /** The credential file on disk; `planType` is what its tokens carry, "" when they carry none. */
  datatype AuthFile = AuthFile(kind: string, email: string, accountId: string, planType: string, disabled: bool)
  datatype FileRead = FileFound(file: AuthFile) | FileMissing | FileCorrupt

  /** One entry of the runtime's credential list. */
  datatype Metadata = Metadata(
    id: string, authIndex: string, provider: string, email: string, openaiId: string, planType: string)

  datatype LookupError = NotReady | Unreachable | Cancelled | MetadataMismatch

  /** One poll of the runtime: the listing by account key (None when the call failed), and whether the wait
      before the next poll was cut short. */
  datatype Poll = Poll(listing: Option<map<string, Metadata>>, interrupted: bool)

  datatype BindError =
    | NotCpa | ServiceMissing | ServiceUnreachable | AuthDirMissing | FileGone | FileBroken | CredentialDisabled
    | ManagementKeyMissing | RuntimeUnreachable | AuthIndexPending | BinderMissing | PinningUnsupported

  /** Writes to the account row that a lookup may issue. */
  datatype RowWrite = MarkHealth(error: BindError) | MarkCredential(error: BindError) | CredentialIsOk
                    | RefreshMetadata | RefreshSubscription

  datatype LookupOptions = LookupOptions(needAuthIndex: bool, waitAuthIndex: bool, readOnly: bool)

  /** Everything outside the program that one lookup consults. */
  datatype World = World(
    service: Option<Service>, authDirConfigured: bool, file: FileRead, sharedManagementKey: string,
    fileIsOlder: bool, fileCarriesSubscription: bool,
    attempts: int, polls: nat -> Poll, reloadConfigured: bool, reloadHealthy: bool, laterPolls: nat -> Poll)

  /** Every identity field that both sides carry must agree. */
  predicate Matches(meta: Metadata, file: AuthFile) {
    && (meta.provider != "" && file.kind != "" ==> EqualFold(meta.provider, file.kind))
    && (meta.email != "" && file.email != "" ==> EqualFold(meta.email, file.email))
    && (meta.openaiId != "" && file.accountId != "" ==> meta.openaiId == file.accountId)
    && (meta.planType != "" && file.planType != "" ==> meta.planType == file.planType)
  }

  /** `meta` is what poll `i` listed for the account's own key. */
  predicate ListedAt(p: Poll, key: string, meta: Metadata) {
    p.listing.Some? && key in p.listing.value && p.listing.value[key] == meta && meta.authIndex != ""
  }

  /** The poll lists the key with an auth index. */
  predicate Lists(p: Poll, key: string) {
    p.listing.Some? && key in p.listing.value && p.listing.value[key].authIndex != ""
  }

  /** Poll i is made: none before it listed the key, and no wait was cut short. */
  ghost predicate Reached(polls: nat -> Poll, key: string, i: nat) {
    forall k: nat :: k < i ==> !Lists(polls(k), key) && !polls(k).interrupted
  }

  /** Poll i of n is the one that ends the wait with a listing. */
  ghost predicate FoundAt(polls: nat -> Poll, key: string, n: nat, i: nat) {
    i < n && Reached(polls, key, i) && Lists(polls(i), key)
  }

  /** The wait is cut short after poll i of n. */
  ghost predicate CutAt(polls: nat -> Poll, key: string, n: nat, i: nat) {
    i + 1 < n && Reached(polls, key, i) && !Lists(polls(i), key) && polls(i).interrupted
  }

  method WaitForAuthMetadata(polls: nat -> Poll, key: string, attempts: nat)
    returns (r: Result<Metadata, LookupError>)
    ensures r.Ok? <==> exists i: nat :: FoundAt(polls, key, attempts, i)
    ensures forall i: nat :: FoundAt(polls, key, attempts, i) ==> r == Ok(polls(i).listing.value[key])
    ensures r == Err(Cancelled) <==> exists i: nat :: CutAt(polls, key, attempts, i)
    // Otherwise the last poll decides.
    ensures attempts == 0 ==> r == Err(NotReady)
    ensures attempts > 0 && r.Err? && r.error != Cancelled ==>
      && Reached(polls, key, attempts - 1) && !Lists(polls(attempts - 1), key)
      && r.error == if polls(attempts - 1).listing.None? then Unreachable else NotReady
  {
    var last := NotReady;
    for i := 0 to attempts
      invariant Reached(polls, key, i) || i == attempts
      invariant i > 0 ==> Reached(polls, key, i - 1) && !Lists(polls(i - 1), key)
      invariant last in {NotReady, Unreachable} && (i == 0 ==> last == NotReady)
      invariant i > 0 ==> last == if polls(i - 1).listing.None? then Unreachable else NotReady
    {
      var p := polls(i);
      if p.listing.None? {
        last := Unreachable;
      } else if key !in p.listing.value || p.listing.value[key].authIndex == "" {
        last := NotReady;
      } else {
        assert FoundAt(polls, key, attempts, i);
        FirstIsOnly(polls, key, attempts, i);
        return Ok(p.listing.value[key]);
      }
      if i < attempts - 1 && p.interrupted {
        assert CutAt(polls, key, attempts, i);
        CutIsOnly(polls, key, attempts, i);
        return Err(Cancelled);
      }
    }
    if attempts > 0 { NothingFound(polls, key, attempts); }
    return Err(last);
  }

  lemma FirstIsOnly(polls: nat -> Poll, key: string, n: nat, i: nat)
    requires FoundAt(polls, key, n, i)
    ensures forall j: nat :: FoundAt(polls, key, n, j) ==> j == i
    ensures forall j: nat :: !CutAt(polls, key, n, j)
  {
  }

  lemma CutIsOnly(polls: nat -> Poll, key: string, n: nat, i: nat)
    requires CutAt(polls, key, n, i)
    ensures forall j: nat :: !FoundAt(polls, key, n, j)
  {
  }

  lemma NothingFound(polls: nat -> Poll, key: string, n: nat)
    requires n > 0 && Reached(polls, key, n - 1) && !Lists(polls(n - 1), key)
    ensures forall j: nat :: !FoundAt(polls, key, n, j) && !CutAt(polls, key, n, j)
  {
  }

  /** `meta` was listed under the key by some poll of the lookup and agrees with the credential file. */
  ghost predicate Confirmed(w: World, key: string, file: AuthFile, meta: Metadata) {
    && meta.authIndex != ""
    && Matches(meta, file)
    && exists i: nat :: ListedAt(w.polls(i), key, meta) || ListedAt(w.laterPolls(i), key, meta)
  }

  /** How often the runtime is asked. */
  function Tries(w: World, o: LookupOptions): (n: nat)
    ensures n >= 1 && (o.waitAuthIndex && w.attempts >= 1 ==> n == w.attempts) && (!o.waitAuthIndex || w.attempts < 1 ==> n == 1)
  {
    if o.waitAuthIndex && w.attempts >= 1 then w.attempts else 1
  }

  /** The wait ends with a listing that agrees with the file. */
  ghost predicate Agreed(polls: nat -> Poll, key: string, n: nat, file: AuthFile) {
    exists i: nat :: FoundAt(polls, key, n, i) && Matches(polls(i).listing.value[key], file)
  }

  /** The wait ends with a listing that does not. */
  ghost predicate Disagreed(polls: nat -> Poll, key: string, n: nat, file: AuthFile) {
    exists i: nat :: FoundAt(polls, key, n, i) && !Matches(polls(i).listing.value[key], file)
  }

  /** Every poll answers, and none lists the key. */
  ghost predicate NeverListed(polls: nat -> Poll, key: string, n: nat) {
    n > 0 && Reached(polls, key, n - 1) && !Lists(polls(n - 1), key) && polls(n - 1).listing.Some?
  }

  method ResolveAuthMetadata(w: World, key: string, file: AuthFile, o: LookupOptions)
    returns (r: Result<Metadata, LookupError>)
    ensures r.Ok? ==> Confirmed(w, key, file, r.value)
    // A read-only lookup stops here.
    ensures o.readOnly ==> (r.Ok? <==> Agreed(w.polls, key, Tries(w, o), file))
    ensures o.readOnly ==> forall i: nat :: FoundAt(w.polls, key, Tries(w, o), i) && r.Ok? ==> r.value == w.polls(i).listing.value[key]
    ensures o.readOnly ==> (r == Err(MetadataMismatch) <==> Disagreed(w.polls, key, Tries(w, o), file))
    ensures o.readOnly ==> (r == Err(NotReady) <==> NeverListed(w.polls, key, Tries(w, o)))
    // A writing one that found nothing fitting reloads the runtime and asks once more.
    ensures !o.readOnly ==> (r.Ok? <==>
      || Agreed(w.polls, key, Tries(w, o), file)
      || (&& o.waitAuthIndex && w.reloadConfigured && w.reloadHealthy
          && (Disagreed(w.polls, key, Tries(w, o), file) || NeverListed(w.polls, key, Tries(w, o)))
          && Agreed(w.laterPolls, key, Tries(w, o), file)))
  {
    var attempts := Tries(w, o);
    r := WaitForAuthMetadata(w.polls, key, attempts);
    WaitMeans(w.polls, key, attempts, file, r);
    if r.Ok? && Matches(r.value, file) {
      return;
    }
    var error := if r.Ok? then MetadataMismatch else r.error;
    if !o.waitAuthIndex || o.readOnly || (error != NotReady && error != MetadataMismatch) || !w.reloadConfigured {
      return Err(error);
    }
    if !w.reloadHealthy {
      return Err(Unreachable);
    }
    r := WaitForAuthMetadata(w.laterPolls, key, attempts);
    WaitMeans(w.laterPolls, key, attempts, file, r);
    if r.Ok? && !Matches(r.value, file) {
      r := Err(MetadataMismatch);
    }
  }

  /** What the outcome of a wait says of the polls. */
  ghost predicate Waited(polls: nat -> Poll, key: string, n: nat, r: Result<Metadata, LookupError>)
    requires n > 0
  {
    && (r.Ok? <==> exists i: nat :: FoundAt(polls, key, n, i))
    && (forall i: nat :: FoundAt(polls, key, n, i) ==> r == Ok(polls(i).listing.value[key]))
    && (r == Err(Cancelled) <==> exists i: nat :: CutAt(polls, key, n, i))
    && (r.Err? && r.error != Cancelled ==>
          && Reached(polls, key, n - 1) && !Lists(polls(n - 1), key)
          && r.error == if polls(n - 1).listing.None? then Unreachable else NotReady)
  }

  lemma WaitMeans(polls: nat -> Poll, key: string, n: nat, file: AuthFile, r: Result<Metadata, LookupError>)
    requires n > 0 && Waited(polls, key, n, r)
    ensures Agreed(polls, key, n, file) <==> r.Ok? && Matches(r.value, file)
    ensures Disagreed(polls, key, n, file) <==> r.Ok? && !Matches(r.value, file)
    ensures NeverListed(polls, key, n) <==> r == Err(NotReady)
    ensures r.Ok? ==> exists i: nat :: ListedAt(polls(i), key, r.value)
  {
    if r.Ok? {
      var i: nat :| FoundAt(polls, key, n, i);
      assert ListedAt(polls(i), key, r.value);
      FirstIsOnly(polls, key, n, i);
    } else if r.error == Cancelled {
      var i: nat :| CutAt(polls, key, n, i);
      assert NeverListed(polls, key, n) ==> Reached(polls, key, n - 1);
    } else {
      NothingFound(polls, key, n);
    }
  }

  // ----- The whole lookup -----

  /** What stands in the way before the runtime is asked, in order. */
  function Obstacle(a: Account, w: World): Option<BindError> {
    if a.source != Cpa then Some(NotCpa)
    else if a.identity.serviceId.None? then Some(ServiceMissing)
    else if w.service.None? || !w.service.value.enabled then Some(ServiceUnreachable)
    else if !w.authDirConfigured then Some(AuthDirMissing)
    else if w.file.FileMissing? then Some(FileGone)
    else if w.file.FileCorrupt? then Some(FileBroken)
    else if w.file.file.disabled then Some(CredentialDisabled)
    else None
  }

  /** The service's own management key or the shared one. */
  predicate HasManagementKey(w: World) { w.service.Some? && (w.service.value.managementKey != "" || w.sharedManagementKey != "") }

  /** A read-only lookup with auth index succeeds. */
  ghost predicate Resolvable(a: Account, w: World, o: LookupOptions) {
    && Obstacle(a, w).None? && HasManagementKey(w)
    && w.file.FileFound? && Agreed(w.polls, a.identity.accountKey, Tries(w, o), w.file.file)
  }

  method ResolveCpaRuntime(a: Account, w: World, o: LookupOptions)
    returns (r: Result<Option<Metadata>, BindError>, writes: seq<RowWrite>)
    ensures o.readOnly ==> writes == []
    ensures r.Ok? ==> (r.value.Some? <==> o.needAuthIndex)
    ensures r.Ok? && r.value.Some? ==> w.file.FileFound? && Confirmed(w, a.identity.accountKey, w.file.file, r.value.value)
    // Success, and the reason of each refusal.
    ensures Obstacle(a, w).Some? ==> r == Err(Obstacle(a, w).value)
    ensures Obstacle(a, w).None? && !o.needAuthIndex ==> r == Ok(None)
    ensures Obstacle(a, w).None? && o.needAuthIndex && !HasManagementKey(w) ==> r == Err(ManagementKeyMissing)
    ensures Obstacle(a, w).None? && o.needAuthIndex && HasManagementKey(w) && r.Err? ==> r.error in {AuthIndexPending, RuntimeUnreachable}
    ensures o.readOnly && o.needAuthIndex ==> (r.Ok? <==> Resolvable(a, w, o))
    ensures o.readOnly && Resolvable(a, w, o) && r.Ok? && r.value.Some? ==>
      forall i: nat :: FoundAt(w.polls, a.identity.accountKey, Tries(w, o), i) ==> r.value.value == w.polls(i).listing.value[a.identity.accountKey]
    ensures o.readOnly && o.needAuthIndex && Obstacle(a, w).None? && HasManagementKey(w) ==>
      (r == Err(AuthIndexPending) <==> NeverListed(w.polls, a.identity.accountKey, Tries(w, o)))
    // A writing lookup leaves a verdict on the credential, unless it had nothing to do with one.
    ensures forall e :: MarkCredential(e) in writes <==> !o.readOnly && r == Err(e) && e != NotCpa
    ensures forall e :: MarkHealth(e) in writes <==> !o.readOnly && r == Err(e) && e in {FileGone, FileBroken, CredentialDisabled}
    ensures CredentialIsOk in writes <==> !o.readOnly && r.Ok? && o.needAuthIndex
    ensures RefreshMetadata in writes <==> !o.readOnly && Obstacle(a, w) in {None, Some(CredentialDisabled)} && !w.fileIsOlder
    ensures RefreshSubscription in writes <==>
      !o.readOnly && Obstacle(a, w).None? && w.file.FileFound? && EqualFold(w.file.file.kind, "codex") && w.fileCarriesSubscription
  {
    var obstacle;
    obstacle, writes := CheckCredential(a, w, o);
    if obstacle.Some? {
      return Err(obstacle.value), writes;
    }
    var file := w.file.file;
    var managementKey := if w.service.value.managementKey == "" then w.sharedManagementKey else w.service.value.managementKey;
    if !o.readOnly && EqualFold(file.kind, "codex") && w.fileCarriesSubscription {
      writes := writes + [RefreshSubscription];
    }
    if !o.needAuthIndex {
      return Ok(None), writes;
    }
    if managementKey == "" {
      return Err(ManagementKeyMissing), if o.readOnly then writes else writes + [MarkCredential(ManagementKeyMissing)];
    }
    var meta := ResolveAuthMetadata(w, a.identity.accountKey, file, o);
    if meta.Ok? {
      return Ok(Some(meta.value)), if o.readOnly then writes else writes + [CredentialIsOk];
    }
    var e := if meta.error == NotReady then AuthIndexPending else RuntimeUnreachable;
    return Err(e), if o.readOnly then writes else writes + [MarkCredential(e)];
  }

  /** The part of the lookup that does not ask the runtime. */
  method CheckCredential(a: Account, w: World, o: LookupOptions) returns (obstacle: Option<BindError>, writes: seq<RowWrite>)
    ensures obstacle == Obstacle(a, w)
    ensures o.readOnly ==> writes == []
    ensures forall e :: MarkCredential(e) in writes <==> !o.readOnly && obstacle == Some(e) && e != NotCpa
    ensures forall e :: MarkHealth(e) in writes <==> !o.readOnly && obstacle == Some(e) && e in {FileGone, FileBroken, CredentialDisabled}
    ensures RefreshMetadata in writes <==> !o.readOnly && obstacle in {None, Some(CredentialDisabled)} && !w.fileIsOlder
    ensures CredentialIsOk !in writes && RefreshSubscription !in writes
  {
    writes := [];
    if !a.source.Cpa? {
      return Some(NotCpa), writes;
    }
    if a.identity.serviceId.None? {
      return Some(ServiceMissing), if o.readOnly then [] else [MarkCredential(ServiceMissing)];
    }
    if w.service.None? || !w.service.value.enabled {
      return Some(ServiceUnreachable), if o.readOnly then [] else [MarkCredential(ServiceUnreachable)];
    }
    if !w.authDirConfigured {
      return Some(AuthDirMissing), if o.readOnly then [] else [MarkCredential(AuthDirMissing)];
    }
    if !w.file.FileFound? {
      var e := if w.file.FileMissing? then FileGone else FileBroken;
      return Some(e), if o.readOnly then [] else [MarkHealth(e), MarkCredential(e)];
    }
    if !o.readOnly && !w.fileIsOlder {
      writes := writes + [RefreshMetadata];
    }
    if w.file.file.disabled {
      return Some(CredentialDisabled),
        if o.readOnly then writes else writes + [MarkHealth(CredentialDisabled), MarkCredential(CredentialDisabled)];
    }
    return None, writes;
  }

  /** The headers that pin a request to one runtime credential. */
  datatype Binding = Binding(accountKey: string, authId: string, authIndex: string, openaiId: string)

  /** The binder as the gateway sees it: absent, or a checker with its pinning capability. */
  datatype Binder = NoBinder | Checker(pinningSupported: bool)

  /** The listing of poll i is the first, reached without a wait cut short, among the configured number of polls, at least
      one; it agrees with the file on every field that both carry, and its auth index is not blank. */
  ghost predicate FitsAt(w: World, key: string, i: nat)
    requires w.file.FileFound?
  {
    var file := w.file.file;
    && i < (if w.attempts >= 1 then w.attempts else 1)
    && (forall k: nat :: k < i ==> !Lists(w.polls(k), key) && !w.polls(k).interrupted)
    && w.polls(i).listing.Some? && key in w.polls(i).listing.value
    && var meta := w.polls(i).listing.value[key];
    && meta.authIndex != "" && !Blank(meta.authIndex)
    && (meta.provider == "" || file.kind == "" || EqualFold(meta.provider, file.kind))
    && (meta.email == "" || file.email == "" || EqualFold(meta.email, file.email))
    && (meta.openaiId == "" || file.accountId == "" || meta.openaiId == file.accountId)
    && (meta.planType == "" || file.planType == "" || meta.planType == file.planType)
  }

  /** Everything a CPA account needs to be reached. */
  ghost predicate Bindable(a: Account, binder: Binder, w: World) {
    && binder == Checker(true)
    && a.identity.serviceId.Some? && w.service.Some? && w.service.value.enabled
    && w.authDirConfigured && w.file.FileFound? && !w.file.file.disabled
    && (w.service.value.managementKey != "" || w.sharedManagementKey != "")
    && exists i: nat :: FitsAt(w, a.identity.accountKey, i)
  }

  const READ_ONLY := LookupOptions(true, true, true)

  /** Which poll fits, in terms of the wait. */
  lemma FitsMeans(a: Account, w: World, i: nat)
    requires w.file.FileFound?
    ensures var key := a.identity.accountKey; var n := Tries(w, READ_ONLY);
      FitsAt(w, key, i) <==>
        FoundAt(w.polls, key, n, i) && Matches(w.polls(i).listing.value[key], w.file.file) && !Blank(w.polls(i).listing.value[key].authIndex)
  {
  }

  lemma BindableResolves(a: Account, w: World)
    requires a.source == Cpa && Bindable(a, Checker(true), w)
    ensures Resolvable(a, w, READ_ONLY)
    ensures exists i: nat :: FoundAt(w.polls, a.identity.accountKey, Tries(w, READ_ONLY), i)
                          && !Blank(w.polls(i).listing.value[a.identity.accountKey].authIndex)
  {
    var i: nat :| FitsAt(w, a.identity.accountKey, i);
    FitsMeans(a, w, i);
  }

  /** Pins a CPA account if and only if it is bindable; every refusal has its reason. */
  method ResolveForwardBinding(a: Account, binder: Binder, w: World)
    returns (r: Result<Option<Binding>, BindError>, writes: seq<RowWrite>)
    ensures writes == []
    ensures a.source != Cpa ==> r == Ok(None)
    ensures a.source == Cpa ==> (r.Ok? <==> Bindable(a, binder, w))
    ensures a.source == Cpa && r.Ok? ==> w.file.FileFound? && r.value.Some?
    ensures a.source == Cpa && r.Ok? ==>
      exists i: nat :: FitsAt(w, a.identity.accountKey, i)
                    && BindingOf(a, w.polls(i).listing.value[a.identity.accountKey], r.value.value)
    ensures a.source == Cpa && r.Ok? ==> exists meta ::
      Confirmed(w, a.identity.accountKey, w.file.file, meta) && r.value.value.authIndex == meta.authIndex && r.value.value.authId == meta.id
    ensures a.source == Cpa && binder.NoBinder? ==> r == Err(BinderMissing)
    ensures a.source == Cpa && binder.Checker? && Obstacle(a, w).Some? ==> r == Err(Obstacle(a, w).value)
    ensures a.source == Cpa && binder.Checker? && Obstacle(a, w).None? && !HasManagementKey(w) ==> r == Err(ManagementKeyMissing)
    ensures a.source == Cpa && binder.Checker? && Obstacle(a, w).None? && HasManagementKey(w) ==>
      var never := NeverListed(w.polls, a.identity.accountKey, Tries(w, READ_ONLY));
      && (r == Err(AuthIndexPending) <==> never)
      && (r == Err(RuntimeUnreachable) <==> !never && !Resolvable(a, w, READ_ONLY))
    ensures a.source == Cpa && binder == Checker(false) && Bindable(a, Checker(true), w) ==> r == Err(PinningUnsupported)
  {
    writes := [];
    if !a.source.Cpa? {
      return Ok(None), writes;
    }
    if binder.NoBinder? {
      return Err(BinderMissing), writes;
    }
    var rt;
    rt, writes := ResolveCpaRuntime(a, w, READ_ONLY);
    if Bindable(a, Checker(true), w) { BindableResolves(a, w); }
    if rt.Err? {
      return Err(rt.error), writes;
    }
    var meta := rt.value.value;
    if Blank(meta.authIndex) {
      return Err(BinderMissing), writes;
    }
    if !binder.pinningSupported {
      return Err(PinningUnsupported), writes;
    }
    var openaiId := if !Blank(meta.openaiId) then meta.openaiId else a.identity.openaiId;
    var binding := Binding(a.identity.accountKey, meta.id, meta.authIndex, openaiId);
    ghost var i: nat :| FoundAt(w.polls, a.identity.accountKey, Tries(w, READ_ONLY), i) && Matches(w.polls(i).listing.value[a.identity.accountKey], w.file.file);
    FitsMeans(a, w, i);
    assert FitsAt(w, a.identity.accountKey, i) && BindingOf(a, w.polls(i).listing.value[a.identity.accountKey], binding);
    return Ok(Some(binding)), writes;
  }

  /** The headers name the account's own key, the listed credential, and the OpenAI id of the listing or else of the row. */
  predicate BindingOf(a: Account, meta: Metadata, b: Binding) {
    && b.accountKey == a.identity.accountKey && b.authId == meta.id && b.authIndex == meta.authIndex
    && (!Blank(meta.openaiId) ==> b.openaiId == meta.openaiId)
    && (Blank(meta.openaiId) ==> b.openaiId == a.identity.openaiId)
  }

  datatype Target = Target(baseUrl: string, apiKey: string, binding: Option<Binding>)

  /** The endpoint of a service for one provider. */
  function ServiceUrl(base: string, provider: string): string { TrimRight(base, '/') + "/api/provider/" + provider + "/v1" }

  /** `service` is read again here, after the binding was resolved. */
  function ResolveTarget(a: Account, binding: Option<Binding>, service: Option<Service>): Target {
    if a.source.Cpa? && a.identity.serviceId.Some? && service.Some? then
      Target(ServiceUrl(service.value.baseUrl, a.identity.providerName), service.value.apiKey, binding)
    else
      Target(a.identity.baseUrl, a.identity.apiKey, None)
  }

  /** The binding reaches the upstream exactly when the service row is still there. */
  lemma BindingSurvives(a: Account, binding: Option<Binding>, service: Option<Service>)
    requires a.source.Cpa? && a.identity.serviceId.Some? && binding.Some?
    ensures ResolveTarget(a, binding, service).binding == if service.Some? then binding else None
  {
  }
}
