/** The diagnostic row of an account: who may rewrite it, what every rewrite keeps, and what that means for routing. */
module Diagnostics {
  import opened Basics
  import opened Routability

  datatype Probe = NotRun | Succeeded | TransientError | BannedSignal | AuthInvalidSignal | QuotaSignal | QuotaProbeAuthFailed

  datatype Row = Row(diagnostic: Diagnostic, lastProbe: Probe)

  /** `stable` None stands for a text outside the valid set; `preserve` is PreserveStableStatus. */
  datatype Update = Update(stable: Option<Stable>, probe: Probe, scheduler: Scheduler, override: string, preserve: bool)

  function SchedulerFor(s: Stable): Scheduler {
    match s
    case Usable => Eligible
    case Banned => Ineligible
    case QuotaExhausted => Ineligible
    case AuthInvalid => Ineligible
    case ProbeFailedButUsable => EligibleWithWarning
    case StableUnknown => EligibleWithWarning
  }

  predicate ValidScheduler(s: Scheduler) { s.Eligible? || s.EligibleWithWarning? || s.Ineligible? }

  function InitialRow(accountEnabled: bool, status: Health): Row {
    Row(Diagnostic(StableUnknown, if !accountEnabled || status.Disabled? then Ineligible else EligibleWithWarning, ""), NotRun)
  }

  /** Validation refuses an unknown stable status, and an override with an invalid scheduler status. */
  predicate Accepts(u: Update) { u.stable.Some? && (u.override == "" || ValidScheduler(u.scheduler)) }

  /** What an accepted update asks for; without an override the scheduler status follows the stable one. */
  function Wanted(u: Update): Diagnostic
    requires Accepts(u)
  {
    Diagnostic(u.stable.value, if u.override == "" then SchedulerFor(u.stable.value) else u.scheduler, u.override)
  }

  /** The statement of UpdateAccountDiagnostic, which ignores the preserve flag. */
  function Plain(row: Row, u: Update): Row { if Accepts(u) then Row(Wanted(u), u.probe) else row }

  /** The transaction of UpdateAccountDiagnosticWithEvidence. */
  function WithEvidence(row: Row, u: Update): Row {
    if !Accepts(u) then row
    else if u.preserve then
      var d := row.diagnostic;
      Row(d.(scheduler := if d.scheduler.BlankScheduler? then SchedulerFor(d.stable) else d.scheduler), u.probe)
    else Row(Wanted(u), u.probe)
  }

  /** What the gateway writes after a request; `seen` is the stable status it read before, `stable` None when the caller
      names none. A transient error preserves. */
  function Observation(seen: Stable, stable: Option<Stable>, probe: Probe): Update {
    var preserve := probe.TransientError?;
    var next := if preserve || stable.None? then seen else stable.value;
    Update(Some(next), probe, BlankScheduler, "", preserve)
  }

  predicate FreshlyUsable(row: Row) {
    (row.diagnostic.stable.Usable? || row.diagnostic.stable.ProbeFailedButUsable?) && row.lastProbe.Succeeded?
  }

  /** What a quota probe writes when it is refused with 401 or 403; `seen` is the row it read before. */
  function QuotaProbe(seen: Row): Update {
    if FreshlyUsable(seen) then Update(Some(ProbeFailedButUsable), QuotaProbeAuthFailed, BlankScheduler, "", false)
    else Update(Some(seen.diagnostic.stable), QuotaProbeAuthFailed, BlankScheduler, "", true)
  }

  // ----- The table, with its retried transaction -----

  datatype TxOutcome = Committed | Busy | Refused

  const TX_ATTEMPTS := 5

  /** The transaction commits within five attempts, all earlier ones having met a busy database. */
  predicate Commits(tx: nat -> TxOutcome, from: nat)
    decreases TX_ATTEMPTS - from
  {
    from < TX_ATTEMPTS && (tx(from).Committed? || (tx(from).Busy? && Commits(tx, from + 1)))
  }

  /** What looking the account up gives. */
  datatype Lookup = Exists(enabled: bool, status: Health) | Missing | Unreadable

  /** EnsureAccountDiagnostic: an existing account gets its initial row. */
  function Ensured(rows: map<int, Row>, id: int, account: Lookup): map<int, Row> {
    if account.Exists? && id !in rows then rows[id := InitialRow(account.enabled, account.status)] else rows
  }

  class DiagnosticTable {
    var rows: map<int, Row>
    var evidence: seq<int>   // account of every evidence row, oldest first

    constructor ()
      ensures rows == map[] && evidence == []
    {
      rows, evidence := map[], [];
    }

    /** The row is created first, outside the transaction, if the account exists; the update and its evidence land
        together or not at all, and not at all without a row. */
    method UpdateWithEvidence(id: int, account: Lookup, u: Update, tx: nat -> TxOutcome) returns (ok: bool)
      modifies this
      ensures ok <==> Accepts(u) && !account.Unreadable? && (id in old(rows) || account.Exists?) && exists k: nat :: CommitsAt(tx, 0, k)
      ensures !Accepts(u) ==> rows == old(rows) && evidence == old(evidence)
      ensures Accepts(u) ==>
        var base := Ensured(old(rows), id, account);
        && (ok ==> rows == base[id := WithEvidence(base[id], u)] && evidence == old(evidence) + [id])
        && (!ok ==> rows == base && evidence == old(evidence))
    {
      CommitsMeans(tx, 0);
      if !Accepts(u) {
        return false;
      }
      if account.Unreadable? {
        return false;
      }
      if account.Exists? && id !in rows {
        rows := rows[id := InitialRow(account.enabled, account.status)];
      }
      if id !in rows {
        return false;     // the transaction finds no row, which is not a busy database
      }
      var attempt := 0;
      while attempt < TX_ATTEMPTS
        invariant 0 <= attempt <= TX_ATTEMPTS
        invariant Commits(tx, attempt) == Commits(tx, 0)
        invariant rows == Ensured(old(rows), id, account) && id in rows && evidence == old(evidence)
      {
        if tx(attempt).Committed? {
          rows := rows[id := WithEvidence(rows[id], u)];
          evidence := evidence + [id];
          return true;
        }
        if tx(attempt).Refused? {
          return false;
        }
        attempt := attempt + 1;
      }
      return false;
    }
  }

  // ----- Every run -----

  /** Any writer of the row. Reads that precede a write may be stale, so what they saw is part of the action. */
  datatype Action =
    | PlainUpdate(u: Update)
    | EvidenceUpdate(u: Update)
    | Observe(seen: Stable, stable: Option<Stable>, probe: Probe)
    | ProbeRefused(seenRow: Row)

  function Apply(row: Row, a: Action): Row {
    match a
    case PlainUpdate(u) => Plain(row, u)
    case EvidenceUpdate(u) => WithEvidence(row, u)
    case Observe(seen, stable, probe) => WithEvidence(row, Observation(seen, stable, probe))
    case ProbeRefused(seen) => WithEvidence(row, QuotaProbe(seen))
  }

  function Run(row: Row, actions: seq<Action>): Row {
    if actions == [] then row else Apply(Run(row, actions[..|actions| - 1]), actions[|actions| - 1])
  }

  /** Without an override the scheduler status follows the stable one, except for an account that was disabled when its
      row was created and has not been diagnosed since. */
  predicate Inv(row: Row) {
    var d := row.diagnostic;
    && ValidScheduler(d.scheduler)
    && (d.override == "" ==> d.scheduler == SchedulerFor(d.stable) || (d.stable.StableUnknown? && d.scheduler.Ineligible?))
  }

  /** The scheduler status that goes with a diagnosis: usable accounts are eligible, uncertain ones with a warning, and
      terminal diagnoses make ineligible. */
  predicate Follows(scheduler: Scheduler, stable: Stable) {
    && (stable == Usable ==> scheduler == Eligible)
    && (stable in {ProbeFailedButUsable, StableUnknown} ==> scheduler == EligibleWithWarning)
    && (stable in {Banned, QuotaExhausted, AuthInvalid} ==> scheduler == Ineligible)
  }

  /** In every run the scheduler status is one of the three valid ones and, without an override, follows the stable status,
      but for an account disabled from the start and never diagnosed. */
  lemma {:induction false} RunKeepsInv(accountEnabled: bool, status: Health, actions: seq<Action>)
    ensures Inv(Run(InitialRow(accountEnabled, status), actions))
    ensures var d := Run(InitialRow(accountEnabled, status), actions).diagnostic;
      && d.scheduler in {Eligible, EligibleWithWarning, Ineligible}
      && (d.override == "" ==> Follows(d.scheduler, d.stable) || (d.stable == StableUnknown && d.scheduler == Ineligible))
      && (actions == [] ==> d == Diagnostic(StableUnknown, if accountEnabled && status != Disabled then EligibleWithWarning else Ineligible, ""))
  {
    if actions != [] { RunKeepsInv(accountEnabled, status, actions[..|actions| - 1]); }
  }

  /** In every reachable state without an override, a terminal diagnosis makes the scheduler status ineligible and keeps
      the account from ordinary traffic. */
  lemma {:induction false} TerminalIsUnroutable(accountEnabled: bool, status: Health, actions: seq<Action>, a: Account, o: Options)
    requires a.diagnostic == Some(Run(InitialRow(accountEnabled, status), actions).diagnostic)
    requires a.diagnostic.value.override == "" && Terminal(a.diagnostic.value.stable) && !o.diagnostic
    ensures a.diagnostic.value.scheduler.Ineligible?
    ensures !IsRoutable(a, o)
  {
    RunKeepsInv(accountEnabled, status, actions);
  }

  /** On every reachable diagnostic row the dashboard's SQL and the router's evaluator agree, given what the loader and the
      other writers guarantee: a successful load, whole-second cooldowns and the evidence text as the gateway writes it. */
  lemma {:induction false} ReachableRowsAgree(accountEnabled: bool, status: Health, actions: seq<Action>, a: Account, pinning: bool, now: int)
    requires a.diagnostic == Some(Run(InitialRow(accountEnabled, status), actions).diagnostic) && !a.diagnosticLoadFailed
    requires !LowerCase429(a) && (a.cooldownUntil.Some? ==> a.cooldownUntil.value % SECOND == 0)
    ensures SqlRoutable(a, pinning, now) <==> IsRoutable(a, Options(false, pinning, now))
  {
    RunKeepsInv(accountEnabled, status, actions);
    SqlAgreesWithGo(a, pinning, now);
  }

  /** Transient observations change nothing but the last probe, however stale their read was. */
  lemma TransientChangesNothing(row: Row, seen: Stable, stable: Option<Stable>)
    requires Inv(row)
    ensures Apply(row, Observe(seen, stable, TransientError)) == Row(row.diagnostic, TransientError)
  {
  }

  lemma {:induction false} TransientRun(row: Row, actions: seq<Action>)
    requires Inv(row)
    requires forall i :: 0 <= i < |actions| ==> actions[i].Observe? && actions[i].probe.TransientError?
    ensures Run(row, actions).diagnostic == row.diagnostic
  {
    if actions != [] {
      TransientRun(row, actions[..|actions| - 1]);
      var last := actions[|actions| - 1];
      TransientChangesNothing(Run(row, actions[..|actions| - 1]), last.seen, last.stable);
    }
  }

  /** What an update with evidence leaves behind: preserving ones touch only the last probe; others write the diagnosis, the
      override, and the scheduler status that the override asks for or else the diagnosis. */
  lemma UpdateMeans(row: Row, u: Update)
    requires Inv(row) && u.stable.Some? && (u.override == "" || u.scheduler in {Eligible, EligibleWithWarning, Ineligible})
    ensures var after := WithEvidence(row, u); var d := after.diagnostic;
      && after.lastProbe == u.probe
      && (u.preserve ==> d == row.diagnostic)
      && (!u.preserve ==> d.stable == u.stable.value && d.override == u.override)
      && (!u.preserve && u.override == "" ==> Follows(d.scheduler, d.stable))
      && (!u.preserve && u.override != "" ==> d.scheduler == u.scheduler)
  {
  }

  /** A finding of the gateway that is not transient becomes the diagnosis; without a finding the one it had read stays. */
  lemma ObservationMeans(row: Row, seen: Stable, stable: Option<Stable>, probe: Probe)
    requires Inv(row) && probe != TransientError
    ensures var after := Apply(row, Observe(seen, stable, probe)); var d := after.diagnostic;
      after.lastProbe == probe && d.override == "" && Follows(d.scheduler, d.stable) && d.stable == if stable.Some? then stable.value else seen
  {
  }

  lemma {:induction false} CommitsMeans(tx: nat -> TxOutcome, from: nat)
    ensures Commits(tx, from) <==> exists k: nat :: CommitsAt(tx, from, k)
    decreases if from < TX_ATTEMPTS then TX_ATTEMPTS - from else 0
  {
    if from < TX_ATTEMPTS {
      CommitsMeans(tx, from + 1);
      if tx(from).Committed? { assert CommitsAt(tx, from, from); }
      if Commits(tx, from) && !tx(from).Committed? {
        var k: nat :| CommitsAt(tx, from + 1, k);
        assert CommitsAt(tx, from, k);
      }
      if k: nat :| CommitsAt(tx, from, k) && k > from { assert CommitsAt(tx, from + 1, k); }
    }
  }

  /** Attempt k of five commits, and all from `from` to it met a busy database. */
  ghost predicate CommitsAt(tx: nat -> TxOutcome, from: nat, k: nat) {
    from <= k < 5 && tx(k) == TxOutcome.Committed && forall j: nat :: from <= j < k ==> tx(j) == Busy
  }

  predicate IsEligible(row: Row) { row.diagnostic.scheduler.Eligible? || row.diagnostic.scheduler.EligibleWithWarning? }

  /** A refused quota probe makes an ineligible account eligible if and only if the row it had read was usable and
      successfully probed: the write then replaces diagnosis and override alike. */
  lemma ProbeRevivesExactly(seen: Row, row: Row)
    requires Inv(row) && row.diagnostic.scheduler.Ineligible?
    ensures IsEligible(Apply(row, ProbeRefused(seen))) <==>
      seen.diagnostic.stable in {Usable, ProbeFailedButUsable} && seen.lastProbe == Succeeded
  {
  }

  /** One that read the current row does so exactly when an override made a usable, successfully probed account ineligible. */
  lemma ProbeRevivesOnlyOverridden(row: Row)
    requires Inv(row) && row.diagnostic.scheduler.Ineligible?
    ensures IsEligible(Apply(row, ProbeRefused(row))) <==> row.diagnostic.override != "" && FreshlyUsable(row)
  {
    ProbeRevivesExactly(row, row);
  }

  /** The writer sets no override, as the gateway and the checker never do. */
  predicate SetsNoOverride(a: Action) { (a.PlainUpdate? || a.EvidenceUpdate?) ==> a.u.override == "" }

  lemma {:induction false} NoOverrideAppears(accountEnabled: bool, status: Health, actions: seq<Action>)
    requires forall i :: 0 <= i < |actions| ==> SetsNoOverride(actions[i])
    ensures Run(InitialRow(accountEnabled, status), actions).diagnostic.override == ""
  {
    if actions != [] {
      assert SetsNoOverride(actions[|actions| - 1]);
      NoOverrideAppears(accountEnabled, status, actions[..|actions| - 1]);
    }
  }

  /** As long as nobody sets an override, a refused probe that reads the current row never makes an ineligible account
      eligible, in any run. */
  lemma {:induction false} ProbeNeverRevives(accountEnabled: bool, status: Health, actions: seq<Action>)
    requires forall i :: 0 <= i < |actions| ==> SetsNoOverride(actions[i])
    ensures var row := Run(InitialRow(accountEnabled, status), actions);
      row.diagnostic.scheduler.Ineligible? ==> !IsEligible(Apply(row, ProbeRefused(row)))
  {
    RunKeepsInv(accountEnabled, status, actions);
    NoOverrideAppears(accountEnabled, status, actions);
    var row := Run(InitialRow(accountEnabled, status), actions);
    if row.diagnostic.scheduler.Ineligible? { ProbeRevivesOnlyOverridden(row); }
  }

  /** With an override, a revived row is reachable. */
  lemma OverriddenRowIsReachable() returns (actions: seq<Action>)
    ensures var row := Run(InitialRow(true, Healthy), actions);
      && row.diagnostic.scheduler.Ineligible?
      && IsEligible(Apply(row, ProbeRefused(row)))
  {
    actions := [PlainUpdate(Update(Some(Usable), Succeeded, Ineligible, "manual", false))];
    assert actions[..0] == [];
  }

  /** Reading and writing must not be interleaved: a run without overrides in which a probe reads the row of a usable
      account, a ban is recorded, and the probe's write lifts it. */
  lemma InterleavedProbeLiftsBan() returns (actions: seq<Action>)
    ensures |actions| == 3 && forall i :: 0 <= i < 3 ==> SetsNoOverride(actions[i])
    ensures var start := InitialRow(true, Healthy);
      && actions[2] == ProbeRefused(Run(start, actions[..1]))
      && Run(start, actions[..2]).diagnostic == Diagnostic(Banned, Ineligible, "")
      && IsEligible(Run(start, actions))
  {
    var start := InitialRow(true, Healthy);
    var success, ban := Observe(StableUnknown, Some(Usable), Succeeded), Observe(Usable, Some(Banned), BannedSignal);
    actions := [success, ban, ProbeRefused(Apply(start, success))];
    assert actions[..1] == [success] && [success][..0] == [];
    assert actions[..2] == [success, ban] && [success, ban][..1] == [success];
    assert Run(start, [success]) == Apply(Run(start, []), success);
    assert Run(start, [success, ban]) == Apply(Run(start, [success]), ban);
  }
}
