# Lune, verified

A Dafny model of the decision logic of Lune, an LLM gateway over SQLite: which account serves a request, what the gateway does with the replies, what the routing cache may return, how account state evolves, how notifications leave the outbox, and what the imports and the token reconciliation do to the tables. Check it with `dafny verify dfyconfig.toml`.

| file | what it models |
|---|---|
| `Routability.dfy` | the Go evaluator of accounts and the SQL predicate that repeats it |
| `Router.dfy` | staged search, forced routing, candidate explanation, repeated selection |
| `RuntimeBinding.dfy` | pinning a CPA account to one runtime credential |
| `RequestEnvelope.dfy` | reading `model` and `stream` through a token cursor |
| `Gateway.dfy` | one request: selection, binding, forwarding, retrying, responding, logging |
| `RoutingCache.dfy` | the versioned cache under interleaved readers and writers |
| `Diagnostics.dfy`, `QuotaEvidence.dfy`, `DiscoveryHealth.dfy` | the account state machines |
| `ItemLock.dfy`, `Outbox.dfy`, `OutboxBudget.dfy`, `Dispatch.dfy` | the item locks, delivery attempts, the retry budget, deduplication |
| `PoolMembers.dfy`, `Tokens.dfy`, `ConfigImport.dfy`, `BatchImport.dfy` | member order, token reconciliation, configuration import, credential batches |
| `Basics.dfy`, `Collections.dfy` | options, ASCII text helpers, facts about finite sets and maps |

Conventions. Each SQL statement or transaction, each lock operation and each outside call is one atomic step; tables are maps from row id to row. Status columns are datatypes of their canonical values, with a case for blank or foreign text where the code can tell the difference. Time is an integer number of nanoseconds (an explicit whole-second view where SQLite drops the fraction), and one resolve reads the clock once. Upstream replies, snapshots between attempts, polls of the runtime, database faults and generated token values are arbitrary inputs.

Where the code does less than one would expect, the model keeps the code, shows an input on which the expectation fails, and states when it holds:

- The SQL count and the router disagree exactly on failed diagnostic loads, cooldowns that end within the current second, blank scheduler statuses and 429 evidence spelled in another case (`SqlButNotGo`, `GoButNotSql`), and when the two pinning flags differ (`PinningFlagsMustMatch`).
- A refused quota probe makes an ineligible account eligible exactly when the row it had read was usable and successfully probed (`ProbeRevivesExactly`). On the current row that takes an override (`ProbeRevivesOnlyOverridden`, `OverriddenRowIsReachable`); the store's exported update accepts one, but neither the gateway nor the checker nor the administration sets it, and in runs without an override such a probe never revives an account (`ProbeNeverRevives`). A probe whose read precedes a ban and whose write follows it lifts the ban (`InterleavedProbeLiftsBan`).
- 429 evidence is held throughout a run exactly when no step clears it, writes another quota status over it, or imports or restores the account under another provider (`HeldIffNoLift`). The last of these is not meant to lift it (`RelabellingLifts`): imports of files already on disk (internal/admin/handler.go:2645-2657 and 3663-3672) take the provider from the file, while uploads refuse any type but codex (internal/admin/handler.go:3504). Without the first two, the account ends up routable exactly when it was re-labelled, its quota status is error and nothing else blocks it (`RoutableAtTheEnd`).
- A failure recorded before the item lock writes a possibly stale attempt number and can bring a dropped row back (`DroppedRowRevived`). It keeps the accounting of attempts exactly when nobody else is working on the row and it acts on a current copy of an active row, or fits the budget of a row already gone, or is refused by the unique index on active keys (`ExitKeepsBudgetIffTimely`).
- Dispatches of one key need not be more than the backoff apart: deleting the row of an unsubscribed event before any delivery of it was recorded leaves nothing for the duplicate check (`UnsubscriptionForgets`). In every run the next dispatch of a key goes through exactly when no dispatch of the key was recorded within the backoff and none has an active row (`DispatchGoesThroughIff`); hence two dispatches are apart unless no delivery of the first had been recorded when the second was checked, and then the first had lost its row that way (`DispatchesAreApart`).
- A table whose query failed is cached like any other: every later Get returns it as failed (empty, or for diagnostics with every account marked as not loaded) until the next Invalidate (`FailedLoadIsCached`).
- A CPA account whose service row vanishes between binding and target resolution is forwarded without its binding, to its own endpoint (`SendOnce`).
- The grace period of five minutes is kept only up to one second, and that bound is sharp (`GraceMargin`, `BoundIsSharp`).
- A credential import whose account cannot be read back after the commit reports a failure and leaves its row (`UnreadRowStays`), and the preview of a batch ignores identity clashes that the import refuses (`PreviewIsImport`).
- The logged attempt count is the number of forwards, one more when a re-selection fails, and 0 when a binding is refused, even after forwards (`ServeRequest`).

## Model

| member | source | states |
|---|---|---|
| `Routability.Evaluate` | internal/store/routability.go:22-99 | penalties never exceed 3 (so the 999 bound of the last stage admits all); a routable decision carries no blocking reason; a binding block is never routable |
| `Routability.EvaluateIsFirstClosedGate` | internal/store/routability.go:22-147 | an account is routable if and only if it passes all thirteen gates, each written over its columns, and otherwise the reason given is that of the first closed one |
| `Routability.BindingBlockedIsTheOnlyGate` | internal/store/routability.go:55-66 | blocked by binding if and only if pinning support alone separates the account from ordinary traffic |
| `Routability.DiagnosticTrafficGates` | internal/store/routability.go:22-75 | diagnostic traffic is refused only for being disabled, unhealthy or unpinnable, and accepts whatever ordinary traffic accepts, without penalty |
| `Routability.PenaltyCountsWarnings` | internal/store/routability.go:55-143 | the penalty that the search orders by is the number of warnings of the account (suspect credential, uncertain quota, diagnostic warning) |
| `Routability.SqlButNotGo` | internal/store/pools.go:10-41 | SQL counts an account the router refuses if and only if its diagnostic failed to load or its cooldown ends later within the current second |
| `Routability.GoButNotSql` | internal/store/pools.go:10-41 | the router serves an account SQL does not count if and only if its scheduler status is blank or its 429 evidence is spelled in another case |
| `Routability.SqlAgreesWithGo` | internal/store/pools.go:10-41 | on canonical rows with whole-second cooldowns and the same pinning flag, the SQL predicate and the evaluator agree |
| `Routability.PinningFlagsMustMatch` | internal/store/pools.go:10-41 | with two pinning flags, the verdicts agree if and only if the flags do, or the account is not CPA, or another gate blocks it anyway |
| `Diagnostics.ReachableRowsAgree` | internal/store/routability.go:101-143 | on every diagnostic row that any run of updates reaches, SQL and evaluator agree |
| `Router.PickFromMembers` | internal/router/router.go:283-315 | the loop returns the first member that fits the stage, and its flag says whether an unbound member was passed on the way |
| `Router.PickOrdered` | internal/router/router.go:250-281 | the two passes return what the two-stage search returns; on failure the flag says whether any open member is only unbound |
| `Router.ResolveInPool` | internal/router/router.go:199-248 | the six-stage or two-pass procedure equals the specified resolution on every snapshot |
| `Router.ResolveForced` | internal/router/router.go:147-197 | a forced route is found if and only if the forced account is an enabled member of the enabled pool, routable, and its loaded model list does not exclude the model; pool disabled, no route, model not on account and runtime binding each if and only if its cause |
| `Router.WinningStage` | internal/router/router.go:199-248 | nobody fits an earlier stage than the answering one, nobody seated earlier fits that one, and no stage answers if and only if the search fails |
| `Router.SearchIsLeast` | internal/router/router.go:199-281 | the search fails if and only if no member is a candidate; otherwise its answer ranks before every other candidate (match, bucket, position, id) |
| `Router.RouteFollowsIndex` | internal/router/router.go:340-361 | over the model index itself: a found account is listed under the model or under no model; if any servable member is listed under the model, the found one is; one listed only elsewhere is never found |
| `Router.WinnerIsPreferred` | internal/router/router.go:199-350 | the found account is preferred to every other eligible one: listed under the model first, then (health_first, ordinary traffic) fewer warnings up to two, then position and id |
| `Router.ResolveVerdicts` | internal/router/router.go:199-330 | found, pool disabled and runtime binding each if and only if its cause: a candidate exists; the pool is missing or disabled; no candidate but some open member blocked only by binding |
| `Router.ExplainCandidates` | internal/router/router.go:99-145 | one trace per member of an enabled pool, each outcome exactly when its cause holds |
| `Router.TraceOverIndex` | internal/router/router.go:99-145 | over the model index itself: a trace is an explicit candidate, a candidate without models, or a mismatch exactly for servable members listed under the model, under none, or only elsewhere |
| `Router.SelectionMatchesExplanation` | internal/router/router.go:99-248 | a route is found if and only if the explanation marks a candidate; the chosen one is marked and ranks before every other marked one |
| `Router.EnumerationCovers` | internal/router/router.go:92-97 | selecting with the chosen accounts excluded visits exactly the candidates |
| `Router.EnumerationAscends` | internal/router/router.go:92-97 | the visits are pairwise distinct and in rank order |
| `Router.EnumerationTheorem` | internal/router/router.go:92-97 | repeated selection visits exactly the candidates, once each, in rank order, and then fails |
| `RuntimeBinding.WaitForAuthMetadata` | internal/health/checker.go:613-629 | success if and only if some poll lists the key with an auth index and is reached, no earlier one listing it or being cut short, and then that listing; cancelled if and only if cut short before; otherwise the last poll decides the error |
| `RuntimeBinding.ResolveAuthMetadata` | internal/health/checker.go:581-611 | read-only: success if and only if the first reached listing agrees with the file, mismatch if and only if it does not, not ready if and only if every poll answered and none listed the key; otherwise one reload and a second wait in exactly these two cases |
| `RuntimeBinding.ResolveCpaRuntime` | internal/health/checker.go:428-540 | success if and only if nothing stands in the way, and each refusal with its own reason in the source's order; a read-only lookup writes no row, and each row write of another happens if and only if its cause holds |
| `RuntimeBinding.ResolveForwardBinding` | internal/gateway/handler.go:518-542 | no row is written; a CPA account is bound if and only if the binder pins, the service is there and enabled, the auth directory set, the file readable and enabled, a management key configured, and the first reached listing agrees with the file field by field with a non-blank index; the binding is made from that listing; every refusal has its reason |
| `RequestEnvelope.SkipsOne` | internal/gateway/body.go:179-211 | skipping consumes exactly one value of any depth, whatever follows |
| `RequestEnvelope.CutFails` | internal/gateway/body.go:179-211 | skipping fails on every proper prefix of a value |
| `RequestEnvelope.Decoder.SkipValue` | internal/gateway/body.go:179-211 | the recursive loop leaves the cursor where the specification of one skipped value says, on any token stream |
| `RequestEnvelope.Decoder.Decode` | internal/gateway/body.go:158-166 | decoding consumes one value and sets the field, keeps it on null, or gives the type error |
| `RequestEnvelope.ParseRequestEnvelope` | internal/gateway/body.go:133-177 | on any token stream the loop gives the specified envelope or error |
| `RequestEnvelope.ReadEntryFirst` | internal/gateway/body.go:149-171 | the first field is read before, and independently of, the rest |
| `RequestEnvelope.EnvelopeMeaning` | internal/gateway/body.go:133-177 | for every JSON text: an object is accepted if and only if its top-level model and stream fields are well typed, and then gives the last non-null ones (else "" and false); otherwise the error of the first ill-typed field; a non-object is refused |
| `RequestEnvelope.NestedIsIgnored` | internal/gateway/body.go:133-177 | two objects with the same top-level model and stream fields give the same answer, whatever is nested or follows |
| `RequestEnvelope.CutEnvelopeFails` | internal/gateway/body.go:133-177 | an object cut anywhere is refused |
| `Gateway.WriteResponse` | internal/gateway/proxy.go:205-217 | what Forward wrote and what is flushed later are together exactly one copy of the upstream reply |
| `Gateway.SelectRoute` | internal/gateway/handler.go:163-237 | the first route or the re-selection: an untried enabled routable member of the token's pool, or the forced account |
| `Gateway.SendOnce` | internal/gateway/handler.go:251-297 | nothing is forwarded if and only if the account is CPA and not bindable; otherwise the target is the service's provider endpoint with the binding if and only if the service row is still there, and else the account's own endpoint |
| `Gateway.Settle` | internal/gateway/handler.go:298-460 | another attempt, with nothing added to the wire or the log, if and only if the reply is retryable, buffered and within budget; otherwise the answer and its log are appended |
| `Gateway.AnsweredOnce` | internal/gateway/proxy.go:205-217 | what Forward and the handler write for a final reply is together one response, the one its exit calls for |
| `Gateway.RetryLoop` | internal/gateway/handler.go:207-474 | with everything written to the client and to the log accumulated over all attempts, both are empty as long as the loop runs and hold exactly one entry after any exit; forwards stay distinct, sound and within budget |
| `Gateway.ServeRequest` | internal/gateway/handler.go:113-474 | for all snapshots, bindings and replies: over the whole request the client receives one response and one log is written, with the literal status, account, success and attempts of each exit; at most one forward if forced or diagnostic, else at most the positive setting or three; distinct enabled members, each the selection of its own moment; every forward but the last, and none that was answered within the budget, was worth retrying (no reply that allows it, or an unstreamed 429 or 5xx that does not condemn a CPA account); a refused binding means that the selected account is not bindable |
| `Gateway.RoutesAreSelections` | internal/gateway/handler.go:141-237 | which selection each attempt follows: the model of the body, lenient gates only on the first attempt of diagnostic requests and stateful probes, all tried accounts excluded afterwards |
| `Gateway.ForwardMeans` | internal/gateway/handler.go:141-297 | every forward goes to an enabled member of the enabled pool of the token that passes the gates of the request and that the model index lists under the model or not at all |
| `Gateway.RetryRouteIsSelected` | internal/router/router.go:92-97 | a retry route avoids everything tried and is a routable member of its own snapshot |
| `Gateway.FirstRouteIsSelected` | internal/router/router.go:77-90 | a first route names a routable enabled member, the forced account if one is forced |
| `RoutingCache.StepKeepsInv` | internal/store/cache.go:33-115 | every step keeps the invariant: version not ahead of the counter, entries genuine, snapshots complete, a writer alone |
| `RoutingCache.PublishedIsFenced` | internal/store/cache.go:33-61 | once a commit's Invalidate has completed, some counter value fences off every older snapshot, stored or in the making |
| `RoutingCache.GetIsFresh` | internal/store/cache.go:37-115 | in every interleaving, a Get that begins after the Invalidate of a commit returns all tables, each failed or read at or after that commit with the database contents of that moment |
| `RoutingCache.FailureHasACause` | internal/store/cache.go:63-115 | over every run, a returned snapshot was stored by some reload, and each of its tables is missing exactly because that reload's own query for it failed |
| `RoutingCache.GetIsComplete` | internal/store/cache.go:63-115 | in a run without failing queries, a Get that begins after a commit's Invalidate returns all eight tables, each with the contents of a moment at or after the commit |
| `RoutingCache.CurrentIsReadOnly` | internal/store/cache.go:37-47 | while the stored snapshot is current, a Get returns it under the read lock alone |
| `RoutingCache.ReadsAreMonotone` | internal/store/cache.go:37-115 | a Get that begins after another returned never goes back in time, table by table |
| `RoutingCache.VersionBehindCounter` | internal/store/cache.go:33-61 | the stored version never exceeds the counter, and a writer excludes readers |
| `RoutingCache.FailedLoadIsCached` | internal/store/cache.go:37-61 | a reload that no Invalidate overtook is what every later Get returns until the next Invalidate, failed tables included |
| `Diagnostics.DiagnosticTable.UpdateWithEvidence` | internal/store/diagnostics.go:228-337 | succeeds if and only if the update is valid, the account can be looked up, a row exists or can be created for it, and one of five attempts commits after busy ones only; row and evidence change together or not at all |
| `Diagnostics.RunKeepsInv` | internal/store/diagnostics.go:186-409 | in every run the scheduler status is valid and, without an override, follows the stable one: usable eligible, uncertain with warning, terminal ineligible; rows start unknown, ineligible for disabled accounts |
| `Diagnostics.UpdateMeans` | internal/store/diagnostics.go:271-337 | a preserving update changes only the last probe; others write diagnosis, override and the scheduler status that goes with them |
| `Diagnostics.ObservationMeans` | internal/gateway/handler.go:696-753 | a finding that is not transient becomes the diagnosis |
| `Diagnostics.TerminalIsUnroutable` | internal/store/diagnostics.go:347-358 | in every reachable state without override a banned, exhausted or invalid account is ineligible and not routable |
| `Diagnostics.TransientRun` | internal/gateway/handler.go:696-753 | no run of transient observations changes stable, scheduler or override |
| `Diagnostics.ProbeRevivesExactly` | internal/health/checker.go:1071-1130 | a refused quota probe makes an ineligible account eligible if and only if the row it had read, current or not, was usable and successfully probed |
| `Diagnostics.ProbeRevivesOnlyOverridden` | internal/health/checker.go:1071-1130 | on the current row: if and only if an override blocked a usable, successfully probed account |
| `Diagnostics.ProbeNeverRevives` | internal/health/checker.go:1071-1130 | in every run in which nobody sets an override, a refused probe on the current row never makes an ineligible account eligible |
| `Diagnostics.OverriddenRowIsReachable` | internal/health/checker.go:1071-1130 | a run that reaches such a row |
| `Diagnostics.InterleavedProbeLiftsBan` | internal/health/checker.go:1071-1130 | a run from the initial row: a success, a probe's read, a ban, and the probe's write, after which the account is eligible |
| `QuotaEvidence.EvidenceSticks` | internal/store/accounts.go:464-511 | a step removes the evidence if and only if it clears it, writes another quota status over it, or imports or restores another provider; every other step but a rewriting one leaves status and text as they were |
| `QuotaEvidence.HeldIffNoLift` | internal/store/accounts.go:464-511 | over every run, the evidence is held throughout if and only if no step lifts it |
| `QuotaEvidence.FetchWithoutEvidence` | internal/store/accounts.go:464-503 | without evidence a fetched quota sets ok, and clearing touches nothing |
| `QuotaEvidence.StaysUnroutable` | internal/store/accounts.go:464-511 | over every run without a lifting step the account stays out of ordinary traffic |
| `QuotaEvidence.RoutableAgainMeansLifted` | internal/store/accounts.go:464-511 | a run ending routable contains a lifting step at which the evidence was held before and gone after |
| `QuotaEvidence.EvidenceAtTheEnd` | internal/store/accounts.go:226-244 | without clearing and quota-status writes, evidence is held at the end if and only if the last import or restore named codex |
| `QuotaEvidence.RoutableAtTheEnd` | internal/store/accounts.go:226-244 | without these two, the account is routable at the end if and only if it was re-labelled, its quota status is error and it would be routable with a clean quota |
| `QuotaEvidence.RelabellingLifts` | internal/admin/handler.go:2645-2657 | a concrete account with evidence that an import under another provider makes routable |
| `DiscoveryHealth.StepKeepsInv` | internal/health/checker.go:232-291 | every health writer keeps error rows stamped and cleared discoveries justified by the tuple they hold |
| `DiscoveryHealth.NoFreshErrorIsReplaced` | internal/health/checker.go:232-291 | under any interleaving, a discovery write that replaces a foreign error comes more than five minutes less one second after it |
| `DiscoveryHealth.UndisturbedDiscovery` | internal/health/checker.go:232-262 | a discovery that nothing disturbs replaces the row if and only if it is not a foreign error stamped less than five minutes ago or in the future |
| `DiscoveryHealth.DiscoveryErrorMeans` | internal/health/checker.go:264-277 | an error is the discovery's own if and only if, trimmed, it is the unreachable-service text or a failed GET that mentions a models endpoint in any case |
| `DiscoveryHealth.BoundIsSharp` | internal/health/checker.go:250-262 | a run that replaces an error one nanosecond past that bound |
| `ItemLock.StepKeepsInv` | internal/notify/outbox.go:205-226 | every acquire, lock, unlock and release keeps the counts exact and each lock object tied to one item |
| `ItemLock.MutualExclusion` | internal/notify/outbox.go:205-226 | two threads inside one item's section are the same thread |
| `ItemLock.EntryCountsThreads` | internal/notify/outbox.go:205-226 | refs is the number of threads between acquire and release, and positive |
| `ItemLock.ReleaseIsEnabled` | internal/notify/outbox.go:218-226 | a release always finds a positive count |
| `ItemLock.WaiterCanEnter` | internal/notify/outbox.go:205-216 | a waiting thread can enter if and only if nobody is inside its item |
| `ItemLock.LockProtocol` | internal/notify/outbox.go:205-226 | in every reachable state: exclusion per item, exact counts, an entry if and only if some thread is busy with the item, an empty map if and only if no thread is |
| `Outbox.AtMostOneSuccess` | internal/notify/outbox.go:107-165 | over all interleavings, with early failures too, a row is sent successfully at most once |
| `OutboxBudget.RetryBudget` | internal/notify/outbox.go:107-203 | while early failures are timely or refused: the stored counter is the number of failures, a row is dropped if and only if it failed four times, at most four sends |
| `OutboxBudget.FailureRaisesCounter` | internal/store/notifications.go:386-446 | a failure recorded under the lock raises the counter by one and drops the row if and only if it is the fourth |
| `OutboxBudget.AttemptDelivers` | internal/notify/outbox.go:126-165 | an attempt under the lock of an active row sends it; on success the row is deleted and the delivery listed, together |
| `OutboxBudget.AttemptFails` | internal/notify/outbox.go:126-203 | on failure the delivery is listed, the counter rises by one, and the row waits or, at the fourth failure, is dropped |
| `OutboxBudget.AttemptGivesUp` | internal/notify/outbox.go:126-132 | a row that is gone or dropped is left alone |
| `OutboxBudget.NeverSentAgain` | internal/notify/outbox.go:107-203 | after the fourth failure or a success no continuation with timely or refused early failures sends the row again |
| `OutboxBudget.GoneIsNeverSent` | internal/notify/outbox.go:107-165 | once the row is gone and no thread is midway on it, no continuation whatever sends it again |
| `OutboxBudget.ExitKeepsBudgetIffTimely` | internal/notify/outbox.go:107-123 | an early failure keeps the accounting if and only if no other thread is working on the row and its copy is current and the row active (or, the row being gone, one more failure fits the budget), or the unique index refuses it |
| `OutboxBudget.NoExitIsTame` | internal/notify/outbox.go:107-123 | runs without early failures meet that condition |
| `OutboxBudget.DroppedRowRevived` | internal/notify/outbox.go:107-123 | a run in which a dropped row becomes active again |
| `Dispatch.RecentIffRecorded` | internal/store/notifications.go:482-496 | the duplicate check finds a recent delivery if and only if some accepted dispatch of the key has its latest record within the backoff, in whole seconds, pruning notwithstanding |
| `Dispatch.DispatchGoesThroughIff` | internal/notify/dispatcher.go:43-91 | in every reachable state, overlapping dispatches included, check and insert of a key succeed if and only if no dispatch of the key was recorded within the backoff and none has an active row |
| `Dispatch.CheckMeansFar` | internal/store/notifications.go:482-496 | a check that passes puts every recorded dispatch of the key more than the backoff away |
| `Dispatch.UnrecordedIsForgotten` | internal/notify/outbox.go:57-105 | with no dispatch of the key under way, the unrecorded ones lost their rows to an unsubscription before any delivery |
| `Dispatch.StepKeepsDocumented` | internal/notify/outbox.go:167-203 | in every run each accepted dispatch has a sound delivery record, or lost its row to an unsubscription before any, or is still with its own thread on the untouched row; and every delivery stems from a dispatch of its key |
| `Dispatch.DispatchesAreApart` | internal/notify/dispatcher.go:43-91 | two accepted dispatches of one key are more than the backoff apart in every serial run, unless no delivery of the first had been recorded when the second was checked; and every such first had lost its row to an unsubscription |
| `Dispatch.UnsubscriptionForgets` | internal/notify/outbox.go:57-105 | a serial run with two dispatches of one key accepted at one instant |
| `PoolMembers.LoadMembers` | internal/store/cache.go:117-154 | the loaded sequence holds exactly the pool's rows, sorted by position and id |
| `PoolMembers.CachedIsUnique` | internal/store/cache.go:145-153 | the order determines the sequence |
| `PoolMembers.CachedIsSeated` | internal/store/store.go:110-118 | the uniqueness constraint gives what the router's rank order needs |
| `PoolMembers.MemberTable.AddPoolMember` | internal/store/pools.go:406-425 | the member is added, enabled and behind all others, if and only if the account is not in the pool yet |
| `PoolMembers.MemberTable.ReorderPoolMembers` | internal/store/pools.go:472-497 | positions become list indices and rows outside the list stay as they are; a list naming a foreign member changes nothing |
| `PoolMembers.ReorderIsTheList` | internal/store/pools.go:472-497 | after a list naming each member once, the cached sequence is the list |
| `PoolMembers.AddedLandsLast` | internal/store/pools.go:406-425 | a later member lands last and the others keep their places |
| `PoolMembers.OrderedTakesFirst` | internal/router/router.go:250-281 | ordered routing takes the first candidate of the sequence, explicit matches before unknown ones |
| `PoolMembers.ReorderDecidesRouting` | internal/store/pools.go:472-497 | after a reorder, ordered routing finds a member of the list if and only if one is a candidate, and takes the first |
| `PoolMembers.DashboardCountIsRouters` | internal/store/pools.go:43-53 | routable_account_count equals the number of members the router accepts for ordinary traffic |
| `Tokens.SettlePool` | internal/store/tokens.go:274-318 | one pool ends with its lowest token enabled and otherwise untouched, or with a new one under the default name and the generated value, which must be unused; other tokens are as they were |
| `Tokens.ReconcilePoolTokens` | internal/store/tokens.go:235-325 | every pool settled, tokens without a pool gone, every value old or freshly generated and values still unique, tokens-after = tokens-before + created - skipped, created = pools that had none; it cannot fail when every pool has a token |
| `Tokens.ReconciledIsClean` | internal/store/tokens.go:235-325 | reconciliation leaves exactly one enabled token per pool and none without |
| `Tokens.CleanIsFixed` | internal/store/tokens.go:235-325 | reconciling a clean table changes nothing |
| `ConfigImport.ImportPools` | internal/store/import.go:103-140 | every labelled pool carries priority and enabled flag of the last entry for its label and keeps its policy, new pools come from entries with health_first, labels stay unique, counters are exact |
| `ConfigImport.ImportOneToken` | internal/store/import.go:142-196 | an error if and only if the entry names no known pool; a token is added only to a pool without one |
| `ConfigImport.ImportTokens` | internal/store/import.go:142-196 | new tokens belong to pools that had none and bear the name of the first entry for them; counters are exact |
| `ConfigImport.ImportSettings` | internal/store/import.go:205-217 | exactly the allowed keys are overwritten and counted |
| `ConfigImport.AcceptedMeans` | internal/syscfg/defaults.go:16-30 | the eight keys an import may set |
| `ConfigImport.RunImport` | internal/store/import.go:101-220 | success gives the imported database, refusal means an entry naming an unknown pool or a value that could not be generated; all counters exact; it cannot fail on an absorbed payload |
| `ConfigImport.ImportAbsorbs` | internal/store/import.go:101-220 | every successful import ends with one enabled token per pool and its payload absorbed |
| `ConfigImport.AbsorbedStays` | internal/store/import.go:101-220 | importing an absorbed payload changes nothing |
| `ConfigImport.ReimportChangesNothing` | internal/store/import.go:101-220 | importing the same payload again leaves the data as it is |
| `ConfigImport.ConfigStore.ImportConfig` | internal/store/import.go:53-67 | all or nothing; a second import of a payload creates no pool and no token |
| `ConfigImport.CountersAreDetermined` | internal/store/import.go:101-220 | two imports of a payload into one database report the same counters, whatever ids and token values they draw |
| `ConfigImport.ImportKeepsLinks` | internal/store/store.go:128-138 | an import leaves no token that refers to a missing pool |
| `ConfigImport.ConfigStore.PreviewImport` | internal/store/import.go:72-99 | the preview changes nothing, accepts only what the import accepts, and its counters are those of every successful import of the payload |
| `BatchImport.UpsertAccountAndMember` | internal/store/accounts.go:246-340 | broken off at any stage it changes nothing; committed, a known account keeps all but the imported columns, status and error, a new one starts healthy, and an account outside the pool gets one new row there, enabled and behind all others, and no other membership appears |
| `BatchImport.ImportedIsServed` | internal/store/accounts.go:313-327 | an account imported into a new pool is the last member the cache loads, and open to queries |
| `BatchImport.UpsertFrame` | internal/store/accounts.go:246-340 | other accounts, unimported columns and existing memberships are untouched |
| `BatchImport.UpsertLookup` | internal/store/accounts.go:200-207 | afterwards the imported key is found, and every other key if and only if it was before |
| `BatchImport.Importer.ImportSingle` | internal/admin/handler.go:3084-3139 | every fault, clash and lookup result with its outcome and code; success stores file and rows; a failure restores the file when compensation works and leaves the rows alone unless the account cannot be read back; other keys are never touched |
| `BatchImport.ImportedMeans` | internal/admin/handler.go:3108-3120 | a successful item's rows are those of a committed import of its key into the pool |
| `BatchImport.ClashMeans` | internal/admin/handler.go:3618-3633 | identities clash if and only if both carry e-mails that differ beyond case, or both account ids that differ |
| `BatchImport.Importer.PreviewBatch` | internal/admin/handler.go:2839-2882 | one verdict per item (failed, repeated, created, updated) and exact counts |
| `BatchImport.CountMeans` | internal/admin/handler.go:2839-2930 | each counter of the summary is the number of items that ended so |
| `BatchImport.Importer.ImportBatch` | internal/admin/handler.go:2884-2945 | whatever breaks and is undone, the final state is that of importing only the successful items; without faults every outcome is the one forecast from the state before the batch |
| `BatchImport.PreviewIsImport` | internal/admin/handler.go:2839-2945 | preview and fault-free import count alike, repeated keys included, if and only if no first item of a key clashes with the stored identity |
| `BatchImport.ReplayFrame` | internal/admin/handler.go:3084-3139 | under keys no successful item carried, file and lookup are what they were |
| `BatchImport.ReplayKeepsRows` | internal/admin/handler.go:3084-3139 | account rows no successful item named are unchanged |

## Left out

- The web interface, HTTP and OAuth clients, webhook delivery, JWT decoding and file I/O: their results are arbitrary inputs.
- Schema migrations: only the uniqueness and foreign-key constraints are used.
- Login sessions, data retention beyond pruning of notification history, redaction, debug collection and statistics: no hard property holds of them.
- Sleeping, jitter, Retry-After and `next_attempt_at`: attempts may happen at any time, so no property depends on them.
- Template text and notification payloads: rendering only succeeds or fails.
- Buffering and spilling of the request body (`NewReplayBody`): the model starts from the decoder's tokens or the failure to read.
- The JSON decoder itself: malformed or cut text is a token stream that ends early.
- The branch of the stream writer for clients that cannot be flushed, which the standard HTTP server never takes.
- Case folding and trimming of text outside ASCII.
- The clock of one resolve is read once; the router reads it once per account.
- The cache, the item locks, the outbox and the health writers are state machines over values, one atomic action per step, rather than shared objects: aliasing between Go objects and the memory model are not captured, and failing database steps of the outbox are not steps of its model.
- Row ids of the outbox are never reused, which the schema does not enforce.
- The effect of a request on the account tables (health, quota evidence, diagnostics) reaches later attempts only as an arbitrary next snapshot; what those writes keep is proved in the account state machines.
- The forced-account check reads a model list that the cache never fills; the model keeps the list as an input.
- Timestamps of rows and the `updated_at` columns.
- `EnsurePoolToken`, the single-file credential import and the runtime reload after a batch: variants of what is modelled.
- Dispatch.DispatchesAreApart: requires that dispatches of one key do not overlap and that retention is at least the backoff, which the code assumes and does not enforce.
- OutboxBudget.RetryBudget: covers runs whose failures before the item lock are timely or refused, since with others it is false.
