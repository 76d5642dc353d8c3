/** Account rows as the router sees them, the Go evaluator that decides whether an account
    may serve a request, and the SQL predicate that decides the same question for dashboards. */
module Routability {
  import opened Basics

  datatype Health = Healthy | Degraded | Errored | Disabled | UnknownHealth
  datatype Serving = Serving | Cooldown | ServingErrored
  datatype Provider = Codex | OtherProvider
  datatype Source = Cpa | OpenAICompat
  datatype Credential =
    | CredentialOk | AuthSuspect | NeedsLogin | RefreshFailed | RuntimePending | RuntimeErrored | CredentialUnknown
  datatype Quota = QuotaOk | QuotaErrored | QuotaUnknown | QuotaPending | QuotaBlocked
  datatype Access = AccessEligible | AccessIneligible | AccessUnknown
  datatype Stable = Usable | Banned | QuotaExhausted | ProbeFailedButUsable | AuthInvalid | StableUnknown
  // scheduler_status is a text column: besides its three valid values it may be blank or foreign.
  datatype Scheduler = Eligible | EligibleWithWarning | Ineligible | BlankScheduler | ForeignScheduler

  /** A row of account_diagnostics; `override == ""` means that no override is set. */
  datatype Diagnostic = Diagnostic(stable: Stable, scheduler: Scheduler, override: string)

  /** Who the account is, for reaching its upstream. */
  datatype Identity = Identity(
    serviceId: Option<int>, accountKey: string, openaiId: string, email: string, providerName: string, baseUrl: string, apiKey: string)

  /** Instants are nanoseconds; `cooldownUntil` is None when the column is blank or cannot be parsed. */
  datatype Account = Account(
    enabled: bool, status: Health,
    serving: Serving, cooldownUntil: Option<int>,
    source: Source, provider: Provider,
    credential: Credential, quota: Quota, quotaError: string, access: Access,
    diagnostic: Option<Diagnostic>, diagnosticLoadFailed: bool,
    models: seq<string>, identity: Identity)

  datatype Reason =
    | Routable | AccountDisabled | AccountUnhealthy
    | DiagnosticUnavailable | DiagnosticBlocked(stable: Stable) | DiagnosticScheduler
    | ServingCooldown | ServingError | BindingUnavailable
    | QuotaIsBlocked | ModelRequest429 | CredentialBlocked(credential: Credential) | AccessBlocked(access: Access)

  datatype Decision = Decision(routable: bool, reason: Reason, quotaWarn: bool, bindingBlocked: bool, penalty: nat)

  /** `diagnostic` traffic skips the serving, diagnostic, quota and credential gates. */
  datatype Options = Options(diagnostic: bool, bindingSupported: bool, now: int)

  const SECOND := 1_000_000_000
  const MODEL_REQUEST_429 := "HTTP 429 from model request"

  function Blocked(reason: Reason): Decision { Decision(false, reason, false, false, 0) }

  function Pass(penalty: nat): Decision { Decision(true, Routable, false, false, penalty) }

  predicate Terminal(s: Stable) { s.Banned? || s.QuotaExhausted? || s.AuthInvalid? }

  predicate CredentialGate(c: Credential) { c.CredentialOk? || c.AuthSuspect? }

  // ----- The Go evaluator -----

  function EvaluateDiagnostic(a: Account): Decision {
    if a.diagnosticLoadFailed then Blocked(DiagnosticUnavailable)
    else if a.diagnostic.None? then Pass(0)
    else
      var d := a.diagnostic.value;
      if d.scheduler.Ineligible? then Blocked(DiagnosticBlocked(d.stable))
      else if d.scheduler.ForeignScheduler? then Blocked(DiagnosticScheduler)
      else if d.override == "" && Terminal(d.stable) then Blocked(DiagnosticBlocked(d.stable))
      else Pass(if d.scheduler.EligibleWithWarning? && !d.stable.StableUnknown? then 1 else 0)
  }

  function EvaluateCpa(a: Account, o: Options): Decision {
    if o.diagnostic then Pass(0)
    else if a.quota.QuotaBlocked? then Blocked(QuotaIsBlocked)
    else if a.provider.Codex? && a.quota.QuotaErrored? && MODEL_REQUEST_429 <= a.quotaError then Blocked(ModelRequest429)
    else if !CredentialGate(a.credential) then Blocked(CredentialBlocked(a.credential))
    else
      var warn := a.quota.QuotaErrored? || a.quota.QuotaUnknown? || a.quota.QuotaPending?;
      if a.provider.Codex? && !a.access.AccessEligible? then Blocked(AccessBlocked(a.access))
      else Decision(true, Routable, warn, false,
                    (if a.credential.AuthSuspect? then 1 else 0) + (if warn then 1 else 0))
  }

  function Evaluate(a: Account, o: Options): (d: Decision)
    // Three warnings at most: far below the 999 of the router's last stage.
    ensures d.penalty <= 3
    ensures d.routable ==> d.reason == Routable && !d.bindingBlocked
    ensures d.bindingBlocked ==> !d.routable && d.reason == BindingUnavailable
  {
    if !a.enabled then Blocked(AccountDisabled)
    else if !a.status.Healthy? && !a.status.Degraded? then Blocked(AccountUnhealthy)
    else
      var diag := if o.diagnostic then Pass(0) else EvaluateDiagnostic(a);
      if !diag.routable then diag
      else if !o.diagnostic && a.serving.Cooldown? && (a.cooldownUntil.None? || a.cooldownUntil.value > o.now) then
        Blocked(ServingCooldown)
      else if !o.diagnostic && a.serving.ServingErrored? then Blocked(ServingError)
      else if !a.source.Cpa? then diag
      else
        var cpa := EvaluateCpa(a, o);
        if !cpa.routable then cpa
        else if !o.bindingSupported then
          Decision(false, BindingUnavailable, cpa.quotaWarn, true, cpa.penalty + diag.penalty)
        else cpa.(penalty := cpa.penalty + diag.penalty)
  }

  predicate IsRoutable(a: Account, o: Options) { Evaluate(a, o).routable }

  predicate BindingBlocked(a: Account, o: Options) { Evaluate(a, o.(diagnostic := false)).bindingBlocked }

  /** "Blocked by binding" means: this gate alone stands between the account and ordinary traffic. */
  lemma BindingBlockedIsTheOnlyGate(a: Account, o: Options)
    ensures BindingBlocked(a, o) <==>
            !o.bindingSupported
            && IsRoutable(a, Options(false, true, o.now))
            && !IsRoutable(a, Options(false, false, o.now))
    ensures BindingBlocked(a, o) ==> !IsRoutable(a, o)
  {
    assert o.(diagnostic := false) == Options(false, o.bindingSupported, o.now);
  }

  /** Diagnostic traffic is refused only for being disabled, unhealthy or unpinnable. */
  lemma DiagnosticTrafficGates(a: Account, o: Options)
    requires o.diagnostic
    ensures IsRoutable(a, o) <==>
            a.enabled && (a.status.Healthy? || a.status.Degraded?) && (a.source.Cpa? ==> o.bindingSupported)
    ensures IsRoutable(a, o.(diagnostic := false)) ==> IsRoutable(a, o)
    ensures Evaluate(a, o).penalty == 0
  {
  }

  datatype Warning = SuspectCredential | UncertainQuota | DiagnosticWarning

  function One(holds: bool, w: Warning): set<Warning> { if holds then {w} else {} }

  predicate Suspect(a: Account) { a.source.Cpa? && a.credential.AuthSuspect? }

  predicate Uncertain(a: Account) { a.source.Cpa? && (a.quota.QuotaErrored? || a.quota.QuotaUnknown? || a.quota.QuotaPending?) }

  predicate Warned(d: Option<Diagnostic>) { d.Some? && d.value.scheduler.EligibleWithWarning? && !d.value.stable.StableUnknown? }

  /** What speaks against an account without keeping it from serving; credential and quota only concern CPA accounts. */
  function Warnings(a: Account): set<Warning> {
    One(Suspect(a), SuspectCredential) + One(Uncertain(a), UncertainQuota) + One(Warned(a.diagnostic), DiagnosticWarning)
  }

  lemma SizeOfThree(x: bool, y: bool, z: bool)
    ensures |One(x, SuspectCredential) + One(y, UncertainQuota) + One(z, DiagnosticWarning)|
         == (if x then 1 else 0) + (if y then 1 else 0) + (if z then 1 else 0)
  {
    var two := One(x, SuspectCredential) + One(y, UncertainQuota);
    assert |two| == |One(x, SuspectCredential)| + |One(y, UncertainQuota)|;
    assert |two + One(z, DiagnosticWarning)| == |two| + |One(z, DiagnosticWarning)|;
  }

  lemma DiagnosticPenalty(a: Account)
    requires EvaluateDiagnostic(a).routable
    ensures EvaluateDiagnostic(a).penalty == if Warned(a.diagnostic) then 1 else 0
  {
  }

  lemma CpaPenalty(a: Account, o: Options)
    requires a.source.Cpa? && !o.diagnostic && EvaluateCpa(a, o).routable
    ensures EvaluateCpa(a, o).penalty == (if Suspect(a) then 1 else 0) + (if Uncertain(a) then 1 else 0)
    ensures EvaluateCpa(a, o).quotaWarn <==> Uncertain(a)
  {
  }

  /** The penalty that the search orders by is the number of warnings. */
  lemma PenaltyCountsWarnings(a: Account, o: Options)
    requires IsRoutable(a, o) && !o.diagnostic
    ensures Evaluate(a, o).penalty == |Warnings(a)|
    ensures Evaluate(a, o).quotaWarn <==> Uncertain(a)
  {
    DiagnosticPenalty(a);
    if a.source.Cpa? { CpaPenalty(a, o); }
    SizeOfThree(Suspect(a), Uncertain(a), Warned(a.diagnostic));
  }

  // ----- The gates, one by one -----

  /** A gate: whether the account passes it, and what it is told otherwise. */
  datatype Gate = Gate(passes: bool, reason: Reason)

  /** The gates in their order, over the columns themselves. */
  function Gates(a: Account, o: Options): seq<Gate> {
    var ordinary, cpa := !o.diagnostic, a.source == Cpa;
    var codex := cpa && a.provider == Codex;
    var d := if a.diagnostic.Some? then a.diagnostic.value else Diagnostic(StableUnknown, Eligible, "");
    var cooling := a.serving == Cooldown && (a.cooldownUntil.None? || a.cooldownUntil.value > o.now);
    [ Gate(a.enabled, AccountDisabled),
      Gate(a.status in {Healthy, Degraded}, AccountUnhealthy),
      Gate(ordinary ==> !a.diagnosticLoadFailed, DiagnosticUnavailable),
      Gate(ordinary ==> d.scheduler != Ineligible, DiagnosticBlocked(d.stable)),
      Gate(ordinary ==> d.scheduler in {Eligible, EligibleWithWarning, BlankScheduler}, DiagnosticScheduler),
      Gate(ordinary && d.override == "" ==> d.stable !in {Banned, QuotaExhausted, AuthInvalid}, DiagnosticBlocked(d.stable)),
      Gate(ordinary ==> !cooling, ServingCooldown),
      Gate(ordinary ==> a.serving != ServingErrored, ServingError),
      Gate(ordinary && cpa ==> a.quota != QuotaBlocked, QuotaIsBlocked),
      Gate(ordinary && codex && a.quota == QuotaErrored ==> !("HTTP 429 from model request" <= a.quotaError), ModelRequest429),
      Gate(ordinary && cpa ==> a.credential in {CredentialOk, AuthSuspect}, CredentialBlocked(a.credential)),
      Gate(ordinary && codex ==> a.access == AccessEligible, AccessBlocked(a.access)),
      Gate(cpa ==> o.bindingSupported, BindingUnavailable) ]
  }

  /** Gate i is the first that the account does not pass. */
  ghost predicate FirstClosed(gates: seq<Gate>, i: nat) {
    i < |gates| && !gates[i].passes && forall j :: 0 <= j < i ==> gates[j].passes
  }

  lemma {:induction false} FindClosed(gates: seq<Gate>, from: nat) returns (i: nat)
    requires from <= |gates| && forall j :: 0 <= j < from ==> gates[j].passes
    ensures i <= |gates| && (i < |gates| ==> FirstClosed(gates, i)) && (i == |gates| ==> forall j :: 0 <= j < |gates| ==> gates[j].passes)
    decreases |gates| - from
  {
    if from == |gates| || !gates[from].passes { i := from; } else { i := FindClosed(gates, from + 1); }
  }

  /** An account is routable if and only if it passes every gate, and otherwise its reason is that of the first closed one. */
  lemma EvaluateIsFirstClosedGate(a: Account, o: Options)
    ensures IsRoutable(a, o) <==> forall i :: 0 <= i < |Gates(a, o)| ==> Gates(a, o)[i].passes
    ensures !IsRoutable(a, o) ==> exists i: nat :: FirstClosed(Gates(a, o), i) && Evaluate(a, o).reason == Gates(a, o)[i].reason
  {
    var gates := Gates(a, o);
    var i := FindClosed(gates, 0);
    if i < |gates| { ClosedGateDecides(a, o, i); } else { OpenGatesServe(a, o); }
  }

  lemma ClosedGateDecides(a: Account, o: Options, i: nat)
    requires FirstClosed(Gates(a, o), i)
    ensures !IsRoutable(a, o) && Evaluate(a, o).reason == Gates(a, o)[i].reason
  {
    var gates := Gates(a, o);
    assert (0 < i ==> gates[0].passes) && (1 < i ==> gates[1].passes) && (2 < i ==> gates[2].passes);
    assert (3 < i ==> gates[3].passes) && (4 < i ==> gates[4].passes) && (5 < i ==> gates[5].passes);
    assert (6 < i ==> gates[6].passes) && (7 < i ==> gates[7].passes) && (8 < i ==> gates[8].passes);
    assert (9 < i ==> gates[9].passes) && (10 < i ==> gates[10].passes) && (11 < i ==> gates[11].passes);
  }

  lemma OpenGatesServe(a: Account, o: Options)
    requires forall i :: 0 <= i < |Gates(a, o)| ==> Gates(a, o)[i].passes
    ensures IsRoutable(a, o)
  {
    var gates := Gates(a, o);
    assert gates[0].passes && gates[1].passes && gates[2].passes && gates[3].passes && gates[4].passes && gates[5].passes;
    assert gates[6].passes && gates[7].passes && gates[8].passes && gates[9].passes && gates[10].passes && gates[11].passes;
    assert gates[12].passes;
  }

  // ----- The SQL predicate -----

  /** SQLite's LIKE 'HTTP 429 from model request%' ignores ASCII case. */
  predicate Like429(s: string) { Fold(MODEL_REQUEST_429) <= Fold(s) }

  /** datetime(x) drops the fraction of a second. */
  function WholeSecond(t: int): int { t / SECOND }

  predicate SqlDiagnosticOk(d: Option<Diagnostic>) {
    d.None? ||
    (&& (d.value.scheduler.Eligible? || d.value.scheduler.EligibleWithWarning?)
     && !(d.value.override == "" && Terminal(d.value.stable)))
  }

  predicate SqlRoutable(a: Account, pinning: bool, now: int) {
    && a.enabled
    && (a.status.Healthy? || a.status.Degraded?)
    && !a.serving.ServingErrored?
    && (!a.serving.Cooldown? || (a.cooldownUntil.Some? && WholeSecond(a.cooldownUntil.value) <= WholeSecond(now)))
    && SqlDiagnosticOk(a.diagnostic)
    && (|| !a.source.Cpa?
        || (&& pinning
            && CredentialGate(a.credential)
            && !a.quota.QuotaBlocked?
            && !(a.provider.Codex? && a.quota.QuotaErrored? && Like429(a.quotaError))
            && (!a.provider.Codex? || a.access.AccessEligible?)))
  }

  // The four ways in which the stored row and the loaded row can be read differently.

  predicate BlankSchedulerRow(a: Account) { a.diagnostic.Some? && a.diagnostic.value.scheduler.BlankScheduler? }

  predicate EndsWithinThisSecond(a: Account, now: int) {
    a.serving.Cooldown? && a.cooldownUntil.Some?
    && a.cooldownUntil.value > now && WholeSecond(a.cooldownUntil.value) <= WholeSecond(now)
  }

  predicate LowerCase429(a: Account) {
    a.source.Cpa? && a.provider.Codex? && a.quota.QuotaErrored?
    && Like429(a.quotaError) && !(MODEL_REQUEST_429 <= a.quotaError)
  }

  /** SQL counts an account the router refuses exactly when the load of its diagnostic failed or its
      cooldown ends later within the current second. */
  lemma SqlButNotGo(a: Account, pinning: bool, now: int)
    requires SqlRoutable(a, pinning, now)
    ensures !IsRoutable(a, Options(false, pinning, now)) <==> a.diagnosticLoadFailed || EndsWithinThisSecond(a, now)
  {
    if MODEL_REQUEST_429 <= a.quotaError { PrefixFolds(MODEL_REQUEST_429, a.quotaError); }
  }

  /** The router serves an account SQL does not count exactly when its scheduler status is blank or
      its quota error spells the 429 evidence in another case. */
  lemma GoButNotSql(a: Account, pinning: bool, now: int)
    requires IsRoutable(a, Options(false, pinning, now))
    ensures !SqlRoutable(a, pinning, now) <==> BlankSchedulerRow(a) || LowerCase429(a)
  {
  }

  /** What every writer of the tables keeps: statuses canonical, diagnostics loaded, whole-second cooldowns. */
  predicate Canonical(a: Account) {
    && !a.diagnosticLoadFailed
    && !BlankSchedulerRow(a)
    && !LowerCase429(a)
    && (a.cooldownUntil.Some? ==> a.cooldownUntil.value % SECOND == 0)
  }

  lemma WholeSecondCooldown(until: int, now: int)
    requires until % SECOND == 0
    ensures until <= now <==> WholeSecond(until) <= WholeSecond(now)
  {
  }

  lemma SqlAgreesWithGo(a: Account, pinning: bool, now: int)
    requires Canonical(a)
    ensures SqlRoutable(a, pinning, now) <==> IsRoutable(a, Options(false, pinning, now))
  {
    if SqlRoutable(a, pinning, now) { SqlButNotGo(a, pinning, now); }
    if IsRoutable(a, Options(false, pinning, now)) { GoButNotSql(a, pinning, now); }
    if a.cooldownUntil.Some? { WholeSecondCooldown(a.cooldownUntil.value, now); }
  }

  /** The two flags are read from different places; when they differ the verdicts differ for every
      pinned account that passes the other gates. */
  lemma PinningFlagsMustMatch(a: Account, sqlPinning: bool, goPinning: bool, now: int)
    requires Canonical(a)
    ensures SqlRoutable(a, sqlPinning, now) == IsRoutable(a, Options(false, goPinning, now)) <==>
            sqlPinning == goPinning || !a.source.Cpa? || !IsRoutable(a, Options(false, true, now))
  {
    SqlAgreesWithGo(a, sqlPinning, now);
    BindingBlockedIsTheOnlyGate(a, Options(false, false, now));
  }
}
