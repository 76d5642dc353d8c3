/** The quota columns of an account: evidence of a 429 from a model request sticks until it is cleared on purpose. */
module QuotaEvidence {
  import opened Basics
  import opened Routability

  datatype Subscription = Active | Expired | OtherSubscription

  /** Every statement that updates an account row, by what it does to the columns that routing reads. Values that a
      caller passes in are part of the action. */
  datatype Action =
    | QuotaFetched                                              // UpdateAccountCodexQuota
    | ClearEvidence                                             // ClearAccountCodexModelRequestQuotaEvidence
    | SetQuotaStatus(quota: Quota, error: string)               // UpdateAccountCodexQuotaStatus
    | Backoff                                                   // UpdateAccountCodexQuotaBackoff
    | Import(provider: Provider, credential: Credential, access: Access, enabled: bool)
    | Restore(provider: Provider, credential: Credential, access: Access, enabled: bool, status: Health)
    | SubscriptionUpdate(subscription: Subscription, accessKept: bool)
    | SetAccess(access: Access)
    | SetCredential(credential: Credential)
    | SetHealth(status: Health)
    | SetEnabled(enabled: bool)
    | Disable
    | ServingSuccess
    | ServingFailure(cooldownUntil: int)
    | DiagnosticChange(diagnostic: Option<Diagnostic>, loadFailed: bool)
    | ModelsChange(models: seq<string>)

  /** The subscription rule: active makes the access eligible; expired makes it ineligible unless the access was granted
      for another reason. */
  function AccessAfter(a: Access, s: Subscription, accessKept: bool): Access {
    match s
    case Active => AccessEligible
    case Expired => if !a.AccessEligible? || !accessKept then AccessIneligible else a
    case OtherSubscription => a
  }

  function Apply(a: Account, act: Action): Account {
    match act
    case QuotaFetched =>
      if Like429(a.quotaError) then a else a.(quota := QuotaOk, quotaError := "")
    case ClearEvidence =>
      if Like429(a.quotaError) then
        a.(quota := if a.quota.QuotaErrored? || a.quota.QuotaBlocked? then QuotaOk else a.quota, quotaError := "")
      else a
    case SetQuotaStatus(quota, error) => a.(quota := quota, quotaError := error)
    case Backoff => a
    case Import(provider, credential, access, enabled) =>
      a.(provider := provider, credential := credential, access := access, enabled := enabled, status := Healthy)
    case Restore(provider, credential, access, enabled, status) =>
      a.(provider := provider, credential := credential, access := access, enabled := enabled, status := status)
    case SubscriptionUpdate(s, kept) => a.(access := AccessAfter(a.access, s, kept))
    case SetAccess(access) => a.(access := access)
    case SetCredential(credential) => a.(credential := credential)
    case SetHealth(status) => a.(status := status)
    case SetEnabled(enabled) => a.(enabled := enabled)
    case Disable => a.(enabled := false, status := Disabled)
    case ServingSuccess => a.(serving := Serving, cooldownUntil := None, status := Healthy)
    case ServingFailure(until) => a.(serving := Cooldown, cooldownUntil := Some(until))
    case DiagnosticChange(d, failed) => a.(diagnostic := d, diagnosticLoadFailed := failed)
    case ModelsChange(models) => a.(models := models)
  }

  function Run(a: Account, actions: seq<Action>): Account {
    if actions == [] then a else Apply(Run(a, actions[..|actions| - 1]), actions[|actions| - 1])
  }

  predicate IsEvidence(quota: Quota, error: string) { (quota.QuotaErrored? || quota.QuotaBlocked?) && MODEL_REQUEST_429 <= error }

  /** What the gateway records when a codex model request is answered with 429. */
  predicate HoldsEvidence(a: Account) { a.source.Cpa? && a.provider.Codex? && IsEvidence(a.quota, a.quotaError) }

  /** An import or restore that names another provider for the account. */
  predicate Relabels(act: Action) { (act.Import? || act.Restore?) && !act.provider.Codex? }

  /** The steps that lift the evidence: clearing it, writing another quota status over it, re-labelling the account. */
  predicate Lifts(act: Action) {
    act.ClearEvidence? || (act.SetQuotaStatus? && !IsEvidence(act.quota, act.error)) || Relabels(act)
  }

  lemma EvidenceBlocks(a: Account, o: Options)
    requires HoldsEvidence(a) && !o.diagnostic
    ensures !IsRoutable(a, o) && !BindingBlocked(a, o)
  {
  }

  /** One step removes the evidence if and only if it is a lifting one; the others leave it word for word, unless they
      write evidence anew. */
  lemma EvidenceSticks(a: Account, act: Action)
    requires HoldsEvidence(a)
    ensures HoldsEvidence(Apply(a, act)) <==> !Lifts(act)
    ensures !Lifts(act) && !act.SetQuotaStatus? ==> Apply(a, act).quota == a.quota && Apply(a, act).quotaError == a.quotaError
    ensures act.ClearEvidence? ==> Apply(a, act) == a.(quota := QuotaOk, quotaError := "")
  {
    PrefixFolds(MODEL_REQUEST_429, a.quotaError);
  }

  /** Without evidence, a fetched quota sets the status to ok and clears the error; clearing evidence touches nothing. */
  lemma FetchWithoutEvidence(a: Account)
    requires !Like429(a.quotaError)
    ensures Apply(a, QuotaFetched) == a.(quota := QuotaOk, quotaError := "") && Apply(a, ClearEvidence) == a
  {
  }

  /** The columns that imports, traffic and subscriptions write, and that they leave the quota columns alone. */
  lemma OtherWriters(a: Account, act: Action)
    ensures act.Import? ==> var b := Apply(a, act);
      b == a.(provider := b.provider, credential := b.credential, access := b.access, enabled := b.enabled, status := Healthy)
      && b.provider == act.provider && b.credential == act.credential && b.access == act.access && b.enabled == act.enabled
    ensures act.ServingSuccess? ==> Apply(a, act) == a.(serving := Serving, cooldownUntil := None, status := Healthy)
    ensures act.ServingFailure? ==> Apply(a, act) == a.(serving := Cooldown, cooldownUntil := Some(act.cooldownUntil))
    ensures act.SubscriptionUpdate? ==> Apply(a, act) == a.(access := Apply(a, act).access)
    ensures act == SubscriptionUpdate(Active, true) || act == SubscriptionUpdate(Active, false) ==> Apply(a, act).access == AccessEligible
    ensures act == SubscriptionUpdate(Expired, false) ==> Apply(a, act).access == AccessIneligible
    ensures act == SubscriptionUpdate(Expired, true) && a.access == AccessEligible ==> Apply(a, act) == a
  {
  }

  lemma RunStep(a: Account, actions: seq<Action>, k: nat)
    requires k < |actions|
    ensures Run(a, actions[..k + 1]) == Apply(Run(a, actions[..k]), actions[k])
  {
    assert actions[..k + 1][..k] == actions[..k];
  }

  ghost predicate HeldThroughout(a: Account, actions: seq<Action>) {
    forall k :: 0 <= k <= |actions| ==> HoldsEvidence(Run(a, actions[..k]))
  }

  lemma {:induction false} HeldUpTo(a: Account, actions: seq<Action>, k: nat)
    requires HoldsEvidence(a) && k <= |actions| && forall i :: 0 <= i < k ==> !Lifts(actions[i])
    ensures HoldsEvidence(Run(a, actions[..k]))
  {
    if k > 0 {
      HeldUpTo(a, actions, k - 1);
      RunStep(a, actions, k - 1);
      EvidenceSticks(Run(a, actions[..k - 1]), actions[k - 1]);
    }
  }

  /** Over every run, the evidence is held throughout if and only if no step lifts it. */
  lemma {:induction false} HeldIffNoLift(a: Account, actions: seq<Action>)
    requires HoldsEvidence(a)
    ensures HeldThroughout(a, actions) <==> forall i :: 0 <= i < |actions| ==> !Lifts(actions[i])
  {
    if HeldThroughout(a, actions) {
      forall i | 0 <= i < |actions| ensures !Lifts(actions[i]) {
        assert HoldsEvidence(Run(a, actions[..i])) && HoldsEvidence(Run(a, actions[..i + 1]));
        RunStep(a, actions, i);
        EvidenceSticks(Run(a, actions[..i]), actions[i]);
      }
    }
    if forall i :: 0 <= i < |actions| ==> !Lifts(actions[i]) {
      forall k | 0 <= k <= |actions| ensures HoldsEvidence(Run(a, actions[..k])) { HeldUpTo(a, actions, k); }
    }
  }

  /** Over every run of other updates the account stays out of ordinary traffic. */
  lemma {:induction false} StaysUnroutable(a: Account, actions: seq<Action>, o: Options)
    requires HoldsEvidence(a) && !o.diagnostic
    requires forall i :: 0 <= i < |actions| ==> !Lifts(actions[i])
    ensures HoldsEvidence(Run(a, actions)) && !IsRoutable(Run(a, actions), o)
  {
    HeldUpTo(a, actions, |actions|);
    assert actions[..|actions|] == actions;
    EvidenceBlocks(Run(a, actions), o);
  }

  /** The first lifting step of a run, |actions| if there is none. */
  lemma {:induction false} FirstLift(a: Account, actions: seq<Action>) returns (i: nat)
    requires HoldsEvidence(a)
    ensures i <= |actions| && (forall k :: 0 <= k < i ==> !Lifts(actions[k])) && (i < |actions| ==> Lifts(actions[i]))
    ensures HoldsEvidence(Run(a, actions[..i]))
  {
    i := 0;
    while i < |actions| && !Lifts(actions[i])
      invariant i <= |actions| && forall k :: 0 <= k < i ==> !Lifts(actions[k])
    {
      i := i + 1;
    }
    HeldUpTo(a, actions, i);
  }

  /** A run that ends with the account routable again contains a step at which the evidence was held and lost. */
  lemma {:induction false} RoutableAgainMeansLifted(a: Account, actions: seq<Action>, o: Options) returns (i: nat)
    requires HoldsEvidence(a) && !o.diagnostic && IsRoutable(Run(a, actions), o)
    ensures i < |actions| && Lifts(actions[i])
    ensures HoldsEvidence(Run(a, actions[..i])) && !HoldsEvidence(Run(a, actions[..i + 1]))
  {
    i := FirstLift(a, actions);
    assert actions[..|actions|] == actions;
    if i == |actions| {
      EvidenceBlocks(Run(a, actions), o);
      assert false;
    }
    RunStep(a, actions, i);
    EvidenceSticks(Run(a, actions[..i]), actions[i]);
  }

  // ----- Without clearing and without a quota-status write -----

  predicate Untold(actions: seq<Action>) { forall i :: 0 <= i < |actions| ==> !actions[i].ClearEvidence? && !actions[i].SetQuotaStatus? }

  /** The provider named by the last import or restore of a run. */
  function ProviderAfter(p: Provider, actions: seq<Action>): Provider {
    if actions == [] then p
    else
      var last := actions[|actions| - 1];
      if last.Import? || last.Restore? then last.provider else ProviderAfter(p, actions[..|actions| - 1])
  }

  lemma TextStep(a: Account, act: Action)
    requires IsEvidence(a.quota, a.quotaError) && !act.ClearEvidence? && !act.SetQuotaStatus?
    ensures var b := Apply(a, act);
      && b.source == a.source && b.quota == a.quota && b.quotaError == a.quotaError
      && b.provider == if act.Import? || act.Restore? then act.provider else a.provider
  {
    PrefixFolds(MODEL_REQUEST_429, a.quotaError);
  }

  lemma {:induction false} TextStays(a: Account, actions: seq<Action>)
    requires HoldsEvidence(a) && Untold(actions)
    ensures var b := Run(a, actions);
      b.source == a.source && b.quota == a.quota && b.quotaError == a.quotaError && b.provider == ProviderAfter(a.provider, actions)
  {
    if actions != [] {
      TextStays(a, actions[..|actions| - 1]);
      TextStep(Run(a, actions[..|actions| - 1]), actions[|actions| - 1]);
    }
  }

  /** Without a clearing step or a quota-status write, the account holds its evidence at the end of a run if and only if
      the last import or restore, if any, called it a codex account. */
  lemma {:induction false} EvidenceAtTheEnd(a: Account, actions: seq<Action>)
    requires HoldsEvidence(a) && Untold(actions)
    ensures HoldsEvidence(Run(a, actions)) <==> ProviderAfter(a.provider, actions).Codex?
  {
    TextStays(a, actions);
  }

  /** Without these two, the account is routable at the end if and only if it was re-labelled, its quota status is error
      rather than blocked, and it would be routable with a clean quota. */
  lemma {:induction false} RoutableAtTheEnd(a: Account, actions: seq<Action>, o: Options)
    requires HoldsEvidence(a) && Untold(actions) && !o.diagnostic
    ensures var b := Run(a, actions);
      IsRoutable(b, o) <==>
        !ProviderAfter(a.provider, actions).Codex? && a.quota.QuotaErrored? && IsRoutable(b.(quota := QuotaOk, quotaError := ""), o)
  {
    TextStays(a, actions);
  }

  /** An account that a 429 took out of traffic and that importing its file under another provider brings back. */
  lemma RelabellingLifts() returns (a: Account, act: Action, o: Options)
    ensures HoldsEvidence(a) && !o.diagnostic && !IsRoutable(a, o)
    ensures act.Import? && Untold([act]) && IsRoutable(Apply(a, act), o)
  {
    a := Account(
      true, Healthy, Serving, None, Cpa, Codex, CredentialOk, QuotaErrored, MODEL_REQUEST_429, AccessEligible, None, false, [],
      Identity(Some(1), "k", "", "", "codex", "", ""));
    act, o := Import(OtherProvider, CredentialOk, AccessUnknown, true), Options(false, true, 0);
  }
}
