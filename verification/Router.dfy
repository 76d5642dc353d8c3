/** Selection of an account inside a pool: the staged search of the router, its explanation, and the
    proof that both follow one rank order. */
module Router {
  import opened Basics
  import opened Routability

  datatype Policy = HealthFirst | Ordered
  datatype Pool = Pool(enabled: bool, policy: Policy)
  datatype Member = Member(id: int, accountId: int, position: int, enabled: bool)

  /** The part of a cache snapshot that routing reads. */
  datatype Snapshot = Snapshot(
    pools: map<int, Pool>,
    accounts: map<int, Account>,
    members: map<int, seq<Member>>,
    modelIndex: map<string, seq<int>>)

  datatype Ask = Ask(model: string, options: Options)
  datatype Query = Query(ask: Ask, exclude: set<int>)

  datatype RouteError = NoRoute | PoolDisabled | NoHealthyAccount | ModelNotOnAccount | RuntimeBinding
  datatype Route = Found(poolId: int, accountId: int, account: Account) | Failed(error: RouteError)

  datatype Match = Explicit | Mismatch | UnknownModel

  predicate HasAnyModel(s: Snapshot, accountId: int) {
    exists model :: model in s.modelIndex && accountId in s.modelIndex[model]
  }

  function ModelMatch(s: Snapshot, accountId: int, model: string): Match {
    if !HasAnyModel(s, accountId) then UnknownModel
    else if model in s.modelIndex && accountId in s.modelIndex[model] then Explicit
    else Mismatch
  }

  // ----- Who may be chosen, and in which order -----

  predicate Open(q: Query, m: Member) { m.enabled && m.accountId !in q.exclude }

  predicate Acceptable(s: Snapshot, q: Query, m: Member) {
    Open(q, m) && m.accountId in s.accounts && IsRoutable(s.accounts[m.accountId], q.ask.options)
  }

  predicate Candidate(s: Snapshot, q: Query, m: Member) {
    Acceptable(s, q, m) && !ModelMatch(s, m.accountId, q.ask.model).Mismatch?
  }

  /** An open member that only the binding gate keeps from ordinary traffic. */
  predicate Unbound(s: Snapshot, q: Query, m: Member) {
    Open(q, m) && m.accountId in s.accounts && BindingBlocked(s.accounts[m.accountId], q.ask.options)
  }

  function Penalty(s: Snapshot, ask: Ask, m: Member): nat
    requires m.accountId in s.accounts
  {
    Evaluate(s.accounts[m.accountId], ask.options).penalty
  }

  function MatchRank(s: Snapshot, ask: Ask, m: Member): nat {
    if ModelMatch(s, m.accountId, ask.model).Explicit? then 0 else 1
  }

  /** Penalties 0 and 1 have their own bucket; everything worse shares the third. */
  function Bucket(s: Snapshot, ask: Ask, m: Member): nat
    requires m.accountId in s.accounts
  {
    if Penalty(s, ask, m) >= 2 then 2 else Penalty(s, ask, m)
  }

  predicate SeatedBefore(a: Member, b: Member) {
    a.position < b.position || (a.position == b.position && a.id < b.id)
  }

  /** The rank order: explicit match, then penalty bucket (health first only), then position, then id. */
  predicate RanksBefore(s: Snapshot, ask: Ask, policy: Policy, a: Member, b: Member)
    requires a.accountId in s.accounts && b.accountId in s.accounts
  {
    if MatchRank(s, ask, a) != MatchRank(s, ask, b) then MatchRank(s, ask, a) < MatchRank(s, ask, b)
    else if policy.HealthFirst? && Bucket(s, ask, a) != Bucket(s, ask, b) then Bucket(s, ask, a) < Bucket(s, ask, b)
    else SeatedBefore(a, b)
  }

  /** What the cache hands over: members sorted by (position, id), no account twice in a pool. */
  ghost predicate Seated(members: seq<Member>) {
    && (forall i, j :: 0 <= i < j < |members| ==> SeatedBefore(members[i], members[j]))
    && (forall i, j :: 0 <= i < j < |members| ==> members[i].accountId != members[j].accountId)
  }

  // ----- The staged search -----

  /** One pass over the members; `limit` None puts no bound on the penalty. */
  datatype Stage = Stage(explicitMatch: bool, limit: Option<nat>)

  const ORDERED_STAGES := [Stage(true, None), Stage(false, None)]
  const HEALTH_STAGES := [
    Stage(true, Some(0)), Stage(true, Some(1)), Stage(true, Some(999)),
    Stage(false, Some(0)), Stage(false, Some(1)), Stage(false, Some(999))]

  function Stages(policy: Policy): seq<Stage> { if policy.Ordered? then ORDERED_STAGES else HEALTH_STAGES }

  predicate Fits(s: Snapshot, q: Query, m: Member, st: Stage) {
    && Acceptable(s, q, m)
    && (st.limit.Some? ==> Penalty(s, q.ask, m) <= st.limit.value)
    && ModelMatch(s, m.accountId, q.ask.model) == (if st.explicitMatch then Explicit else UnknownModel)
  }

  function FirstFit(s: Snapshot, q: Query, members: seq<Member>, st: Stage, from: nat): (r: Option<nat>)
    requires from <= |members|
    ensures r.Some? ==> from <= r.value < |members| && Fits(s, q, members[r.value], st)
    ensures forall k :: from <= k < (if r.Some? then r.value else |members|) ==> !Fits(s, q, members[k], st)
    decreases |members| - from
  {
    if from == |members| then None
    else if Fits(s, q, members[from], st) then Some(from)
    else FirstFit(s, q, members, st, from + 1)
  }

  function Search(s: Snapshot, q: Query, members: seq<Member>, stages: seq<Stage>): (r: Option<nat>)
    ensures r.Some? ==> r.value < |members|
  {
    if stages == [] then None
    else
      var r := FirstFit(s, q, members, stages[0], 0);
      if r.Some? then r else Search(s, q, members, stages[1..])
  }

  function Resolve(s: Snapshot, q: Query, poolId: int): Route {
    if poolId !in s.pools || !s.pools[poolId].enabled then Failed(PoolDisabled)
    else if poolId !in s.members || s.members[poolId] == [] then Failed(NoHealthyAccount)
    else
      var members := s.members[poolId];
      var r := Search(s, q, members, Stages(s.pools[poolId].policy));
      if r.Some? then
        SearchFits(s, q, members, Stages(s.pools[poolId].policy));
        var id := members[r.value].accountId;
        Found(poolId, id, s.accounts[id])
      else if exists m :: m in members && Unbound(s, q, m) then Failed(RuntimeBinding)
      else Failed(NoHealthyAccount)
  }

  /** Forced routing: one named account, no ordering. */
  function ResolveForced(s: Snapshot, q: Query, poolId: int, accountId: int): (r: Route)
    ensures r.Found? ==> r == Found(poolId, accountId, r.account)
    ensures r.Found? <==>
      && poolId in s.pools && s.pools[poolId].enabled
      && accountId in s.accounts && (r.Found? ==> r.account == s.accounts[accountId])
      && IsRoutable(s.accounts[accountId], q.ask.options)
      && (exists m :: m in MembersOf(s, poolId) && m.accountId == accountId && m.enabled)
      && (s.accounts[accountId].models == [] || q.ask.model in s.accounts[accountId].models)
    // Every refusal has its cause.
    ensures r == Failed(PoolDisabled) <==> poolId !in s.pools || !s.pools[poolId].enabled
    ensures r == Failed(NoRoute) <==>
      && poolId in s.pools && s.pools[poolId].enabled
      && (accountId !in s.accounts || forall m :: m in MembersOf(s, poolId) && m.accountId == accountId ==> !m.enabled)
    ensures r == Failed(ModelNotOnAccount) <==>
      && poolId in s.pools && s.pools[poolId].enabled && accountId in s.accounts
      && (exists m :: m in MembersOf(s, poolId) && m.accountId == accountId && m.enabled)
      && IsRoutable(s.accounts[accountId], q.ask.options)
      && s.accounts[accountId].models != [] && q.ask.model !in s.accounts[accountId].models
    // An unbindable account is reported as such exactly when binding alone stands in the way.
    ensures r == Failed(RuntimeBinding) <==>
      && poolId in s.pools && s.pools[poolId].enabled
      && accountId in s.accounts && BindingBlocked(s.accounts[accountId], q.ask.options)
      && !IsRoutable(s.accounts[accountId], q.ask.options)
      && (exists m :: m in MembersOf(s, poolId) && m.accountId == accountId && m.enabled)
  {
    if poolId !in s.pools || !s.pools[poolId].enabled then Failed(PoolDisabled)
    else if !exists m :: m in MembersOf(s, poolId) && m.accountId == accountId && m.enabled then Failed(NoRoute)
    else if accountId !in s.accounts then Failed(NoRoute)
    else
      var a := s.accounts[accountId];
      if !IsRoutable(a, q.ask.options) then
        if BindingBlocked(a, q.ask.options) then Failed(RuntimeBinding) else Failed(NoHealthyAccount)
      else if a.models != [] && q.ask.model !in a.models then Failed(ModelNotOnAccount)
      else Found(poolId, accountId, a)
  }

  function MembersOf(s: Snapshot, poolId: int): seq<Member> {
    if poolId in s.members then s.members[poolId] else []
  }

  // ----- The loops of the router, proved against the search -----

  method PickFromMembers(s: Snapshot, q: Query, members: seq<Member>, requireModel: bool, maxPenalty: nat)
    returns (found: Option<nat>, blocked: bool)
    ensures found == FirstFit(s, q, members, Stage(requireModel, Some(maxPenalty)), 0)
    ensures blocked <==>
            exists k :: 0 <= k < (if found.Some? then found.value else |members|) && Unbound(s, q, members[k])
  {
    found, blocked := None, false;
    var i := 0;
    while i < |members|
      invariant 0 <= i <= |members|
      invariant FirstFit(s, q, members, Stage(requireModel, Some(maxPenalty)), i)
             == FirstFit(s, q, members, Stage(requireModel, Some(maxPenalty)), 0)
      invariant blocked <==> exists k :: 0 <= k < i && Unbound(s, q, members[k])
    {
      var m := members[i];
      if m.enabled && m.accountId !in q.exclude && m.accountId in s.accounts {
        var a := s.accounts[m.accountId];
        BindingBlockedIsTheOnlyGate(a, q.ask.options);
        if !IsRoutable(a, q.ask.options) {
          if BindingBlocked(a, q.ask.options) {
            blocked := true;
          }
        } else if Evaluate(a, q.ask.options).penalty <= maxPenalty {
          var match_ := ModelMatch(s, m.accountId, q.ask.model);
          if (requireModel && match_.Explicit?) || (!requireModel && match_.UnknownModel?) {
            found := Some(i);
            return;
          }
        }
      }
      i := i + 1;
    }
  }

  ghost predicate SomeUnbound(s: Snapshot, q: Query, members: seq<Member>, n: nat)
    requires n <= |members|
  {
    exists k :: 0 <= k < n && Unbound(s, q, members[k])
  }

  lemma UnboundStep(s: Snapshot, q: Query, members: seq<Member>, i: nat)
    requires i < |members|
    ensures SomeUnbound(s, q, members, i + 1) <==> SomeUnbound(s, q, members, i) || Unbound(s, q, members[i])
    ensures Unbound(s, q, members[i]) ==> SomeUnbound(s, q, members, |members|)
  {
  }

  method PickOrdered(s: Snapshot, q: Query, members: seq<Member>) returns (found: Option<nat>, blocked: bool)
    ensures found == Search(s, q, members, ORDERED_STAGES)
    ensures found.None? ==> (blocked <==> exists m :: m in members && Unbound(s, q, m))
  {
    found, blocked := None, false;
    var pass := 0;
    while pass < 2
      invariant 0 <= pass <= 2
      invariant Search(s, q, members, ORDERED_STAGES[pass..]) == Search(s, q, members, ORDERED_STAGES)
      invariant blocked <==> pass > 0 && SomeUnbound(s, q, members, |members|)
    {
      var requireExplicit := pass == 0;
      ghost var st := Stage(requireExplicit, None);
      var i := 0;
      while i < |members|
        invariant 0 <= i <= |members|
        invariant FirstFit(s, q, members, st, i) == FirstFit(s, q, members, st, 0)
        invariant blocked <==> SomeUnbound(s, q, members, if pass > 0 then |members| else i)
      {
        var m := members[i];
        UnboundStep(s, q, members, i);
        if m.enabled && m.accountId !in q.exclude && m.accountId in s.accounts {
          var a := s.accounts[m.accountId];
          BindingBlockedIsTheOnlyGate(a, q.ask.options);
          if !IsRoutable(a, q.ask.options) {
            if BindingBlocked(a, q.ask.options) {
              blocked := true;
            }
          } else {
            var match_ := ModelMatch(s, m.accountId, q.ask.model);
            if (requireExplicit && match_.Explicit?) || (!requireExplicit && match_.UnknownModel?) {
              found := Some(i);
              assert ORDERED_STAGES[pass..][0] == st;
              return;
            }
          }
        }
        i := i + 1;
      }
      assert ORDERED_STAGES[pass..][0] == st && ORDERED_STAGES[pass..][1..] == ORDERED_STAGES[pass + 1..];
      pass := pass + 1;
    }
  }

  method ResolveInPool(s: Snapshot, q: Query, poolId: int) returns (r: Route)
    ensures r == Resolve(s, q, poolId)
  {
    if poolId !in s.pools || !s.pools[poolId].enabled {
      return Failed(PoolDisabled);
    }
    if poolId !in s.members || |s.members[poolId]| == 0 {
      return Failed(NoHealthyAccount);
    }
    var members := s.members[poolId];
    var found: Option<nat>, bindingBlocked := None, false;
    if s.pools[poolId].policy.Ordered? {
      found, bindingBlocked := PickOrdered(s, q, members);
    } else {
      var k := 0;
      while k < |HEALTH_STAGES| && found.None?
        invariant 0 <= k <= |HEALTH_STAGES|
        invariant found.None? ==>
                  && Search(s, q, members, HEALTH_STAGES[k..]) == Search(s, q, members, HEALTH_STAGES)
                  && (bindingBlocked <==> k > 0 && exists m :: m in members && Unbound(s, q, m))
        invariant found.Some? ==> found == Search(s, q, members, HEALTH_STAGES)
      {
        assert HEALTH_STAGES[k..][1..] == HEALTH_STAGES[k + 1..];
        var blocked;
        found, blocked := PickFromMembers(s, q, members, HEALTH_STAGES[k].explicitMatch, HEALTH_STAGES[k].limit.value);
        bindingBlocked := bindingBlocked || blocked;
        k := k + 1;
      }
    }
    if found.Some? {
      SearchFits(s, q, members, Stages(s.pools[poolId].policy));
      var id := members[found.value].accountId;
      return Found(poolId, id, s.accounts[id]);
    }
    return Failed(if bindingBlocked then RuntimeBinding else NoHealthyAccount);
  }

  // ----- The search finds exactly the least candidate -----

  lemma SearchFits(s: Snapshot, q: Query, members: seq<Member>, stages: seq<Stage>)
    ensures var r := Search(s, q, members, stages);
            r.Some? ==> r.value < |members| && Candidate(s, q, members[r.value])
  {
  }

  /** The stage that answered: nobody fits an earlier stage, nobody seated earlier fits this one. */
  lemma {:induction false} WinningStage(s: Snapshot, q: Query, members: seq<Member>, stages: seq<Stage>) returns (k: nat)
    ensures var r := Search(s, q, members, stages);
      && k <= |stages|
      && (forall e, i :: 0 <= e < k && 0 <= i < |members| ==> !Fits(s, q, members[i], stages[e]))
      && (r.None? <==> k == |stages|)
      && (r.Some? ==> && Fits(s, q, members[r.value], stages[k])
                      && forall i :: 0 <= i < r.value ==> !Fits(s, q, members[i], stages[k]))
  {
    if stages == [] {
      k := 0;
    } else if FirstFit(s, q, members, stages[0], 0).Some? {
      k := 0;
    } else {
      var rest := WinningStage(s, q, members, stages[1..]);
      k := rest + 1;
      forall e, i | 0 <= e < k && 0 <= i < |members| ensures !Fits(s, q, members[i], stages[e]) {
        if e > 0 { assert stages[e] == stages[1..][e - 1]; }
      }
    }
  }

  /** Under health first, stage k admits rank k / 3 up to bucket k % 3. */
  lemma HealthStageMeaning(s: Snapshot, q: Query, m: Member, k: nat)
    requires k < |HEALTH_STAGES|
    ensures Fits(s, q, m, HEALTH_STAGES[k]) <==>
            Candidate(s, q, m) && MatchRank(s, q.ask, m) == k / 3 && Bucket(s, q.ask, m) <= k % 3
  {
  }

  lemma OrderedStageMeaning(s: Snapshot, q: Query, m: Member, k: nat)
    requires k < |ORDERED_STAGES|
    ensures Fits(s, q, m, ORDERED_STAGES[k]) <==> Candidate(s, q, m) && MatchRank(s, q.ask, m) == k
  {
  }

  /** The search fails exactly when no member is a candidate; otherwise its answer ranks before every
      other candidate. */
  lemma SearchIsLeast(s: Snapshot, q: Query, members: seq<Member>, policy: Policy)
    ensures var r := Search(s, q, members, Stages(policy));
      && (r.None? <==> forall m :: m in members ==> !Candidate(s, q, m))
      && (r.Some? ==> Candidate(s, q, members[r.value]))
      && (r.Some? && Seated(members) ==>
            forall j :: 0 <= j < |members| && j != r.value && Candidate(s, q, members[j]) ==>
              RanksBefore(s, q.ask, policy, members[r.value], members[j]))
  {
    var stages := Stages(policy);
    var r := Search(s, q, members, stages);
    var k := WinningStage(s, q, members, stages);
    forall j | 0 <= j < |members| && Candidate(s, q, members[j])
      ensures r.Some?
      ensures Seated(members) && j != r.value ==> RanksBefore(s, q.ask, policy, members[r.value], members[j])
    {
      var own := OwnStage(s, q, members[j], policy);
      assert k <= own;
      if Seated(members) && j != r.value { WinnerRanksFirst(s, q, members, policy, k, r.value, j); }
    }
    SearchFits(s, q, members, stages);
  }

  /** The first stage that admits a candidate. */
  lemma OwnStage(s: Snapshot, q: Query, m: Member, policy: Policy) returns (k: nat)
    requires Candidate(s, q, m)
    ensures k < |Stages(policy)| && Fits(s, q, m, Stages(policy)[k])
    ensures k == if policy.Ordered? then MatchRank(s, q.ask, m) else 3 * MatchRank(s, q.ask, m) + Bucket(s, q.ask, m)
  {
    k := if policy.Ordered? then MatchRank(s, q.ask, m) else 3 * MatchRank(s, q.ask, m) + Bucket(s, q.ask, m);
    if policy.Ordered? { OrderedStageMeaning(s, q, m, k); } else { HealthStageMeaning(s, q, m, k); }
  }

  lemma WinnerRanksFirst(s: Snapshot, q: Query, members: seq<Member>, policy: Policy, k: nat, i: nat, j: nat)
    requires Seated(members) && i < |members| && j < |members| && i != j
    requires k < |Stages(policy)| && Fits(s, q, members[i], Stages(policy)[k]) && Candidate(s, q, members[j])
    requires forall e, x :: 0 <= e < k && 0 <= x < |members| ==> !Fits(s, q, members[x], Stages(policy)[e])
    requires forall x :: 0 <= x < i ==> !Fits(s, q, members[x], Stages(policy)[k])
    ensures RanksBefore(s, q.ask, policy, members[i], members[j])
  {
    var ownI := OwnStage(s, q, members[i], policy);
    var ownJ := OwnStage(s, q, members[j], policy);
    assert k <= ownI && k <= ownJ;
    if policy.Ordered? {
      OrderedStageMeaning(s, q, members[i], k);
      OrderedStageMeaning(s, q, members[j], k);
    } else {
      HealthStageMeaning(s, q, members[i], k);
      HealthStageMeaning(s, q, members[j], k);
    }
  }

  /** Every verdict of the router, both ways. */
  lemma ResolveVerdicts(s: Snapshot, q: Query, poolId: int)
    ensures var r := Resolve(s, q, poolId);
      var live := poolId in s.pools && s.pools[poolId].enabled;
      var members := MembersOf(s, poolId);
      && (r == Failed(PoolDisabled) <==> !live)
      && (r.Found? <==> live && exists m :: m in members && Candidate(s, q, m))
      && (r == Failed(RuntimeBinding) <==>
            && live
            && (forall m :: m in members ==> !Candidate(s, q, m))
            && (exists m :: m in members && Unbound(s, q, m)))
      && (r.Failed? ==> r.error in {PoolDisabled, RuntimeBinding, NoHealthyAccount})
      && (r.Found? ==>
            && r.poolId == poolId
            && (exists m :: m in members && Candidate(s, q, m) && m.accountId == r.accountId)
            && r.account == s.accounts[r.accountId])
  {
    if poolId in s.pools {
      SearchIsLeast(s, q, MembersOf(s, poolId), s.pools[poolId].policy);
    }
  }

  // ----- The explanation -----

  datatype Outcome = IsCandidate(explicitMatch: bool) | MemberDisabled | AlreadyAttempted | MissingAccount
                   | NotRoutable(reason: Reason) | ExplicitMismatch
  datatype Trace = Trace(accountId: int, position: int, outcome: Outcome)

  /** What a trace says of its member, each outcome exactly when its cause holds. */
  predicate Explains(s: Snapshot, q: Query, m: Member, t: Trace) {
    && t.accountId == m.accountId && t.position == m.position
    && (t.outcome.MemberDisabled? <==> !m.enabled)
    && (t.outcome.AlreadyAttempted? <==> m.enabled && m.accountId in q.exclude)
    && (t.outcome.MissingAccount? <==> Open(q, m) && m.accountId !in s.accounts)
    && (t.outcome.ExplicitMismatch? <==> Acceptable(s, q, m) && !Candidate(s, q, m))
    && (t.outcome.IsCandidate? <==> Candidate(s, q, m))
    && (t.outcome.IsCandidate? ==> (t.outcome.explicitMatch <==> MatchRank(s, q.ask, m) == 0))
    && (t.outcome.NotRoutable? ==>
          m.accountId in s.accounts && t.outcome.reason == Evaluate(s.accounts[m.accountId], q.ask.options).reason)
  }

  ghost predicate Explained(s: Snapshot, q: Query, poolId: int, traces: seq<Trace>) {
    if poolId !in s.pools || !s.pools[poolId].enabled then traces == []
    else
      && |traces| == |MembersOf(s, poolId)|
      && forall i :: 0 <= i < |traces| ==> Explains(s, q, MembersOf(s, poolId)[i], traces[i])
  }

  method ExplainCandidates(s: Snapshot, q: Query, poolId: int) returns (traces: seq<Trace>)
    ensures Explained(s, q, poolId, traces)
  {
    traces := [];
    if poolId !in s.pools || !s.pools[poolId].enabled {
      return;
    }
    var members := MembersOf(s, poolId);
    var i := 0;
    while i < |members|
      invariant 0 <= i <= |members| && |traces| == i
      invariant forall k :: 0 <= k < i ==> Explains(s, q, members[k], traces[k])
    {
      var m := members[i];
      var outcome;
      if !m.enabled {
        outcome := MemberDisabled;
      } else if m.accountId in q.exclude {
        outcome := AlreadyAttempted;
      } else if m.accountId !in s.accounts {
        outcome := MissingAccount;
      } else {
        var decision := Evaluate(s.accounts[m.accountId], q.ask.options);
        if !decision.routable {
          outcome := NotRoutable(decision.reason);
        } else {
          match ModelMatch(s, m.accountId, q.ask.model)
          case Explicit => outcome := IsCandidate(true);
          case UnknownModel => outcome := IsCandidate(false);
          case Mismatch => outcome := ExplicitMismatch;
        }
      }
      traces := traces + [Trace(m.accountId, m.position, outcome)];
      i := i + 1;
    }
  }

  /** Selection and explanation agree: a route is found exactly when some member is marked candidate, the
      chosen account is marked so, and no other candidate of the explanation ranks before it. */
  lemma SelectionMatchesExplanation(s: Snapshot, q: Query, poolId: int, traces: seq<Trace>)
    requires Explained(s, q, poolId, traces)
    requires Seated(MembersOf(s, poolId))
    ensures var r := Resolve(s, q, poolId);
      && (r.Found? <==> exists t :: t in traces && t.outcome.IsCandidate?)
      && (r.Found? ==>
            exists i :: 0 <= i < |traces| && traces[i].outcome.IsCandidate? && traces[i].accountId == r.accountId
              && forall j :: 0 <= j < |traces| && j != i && traces[j].outcome.IsCandidate? ==>
                   RanksBefore(s, q.ask, s.pools[poolId].policy, MembersOf(s, poolId)[i], MembersOf(s, poolId)[j]))
  {
    if poolId in s.pools && s.pools[poolId].enabled {
      var members := MembersOf(s, poolId);
      SearchIsLeast(s, q, members, s.pools[poolId].policy);
      var r := Search(s, q, members, Stages(s.pools[poolId].policy));
      if r.Some? {
        assert traces[r.value] in traces && Explains(s, q, members[r.value], traces[r.value]);
        assert forall j :: 0 <= j < |traces| ==> Explains(s, q, members[j], traces[j]);
      }
    }
  }

  // ----- Selection and explanation over the model index itself -----

  predicate Lists(s: Snapshot, model: string, accountId: int) { model in s.modelIndex && accountId in s.modelIndex[model] }

  ghost predicate ListsNothing(s: Snapshot, accountId: int) { forall model :: !Lists(s, model, accountId) }

  /** An enabled member outside the exclude list whose account exists and may serve. */
  predicate Servable(s: Snapshot, q: Query, m: Member) {
    m.enabled && m.accountId !in q.exclude && m.accountId in s.accounts && IsRoutable(s.accounts[m.accountId], q.ask.options)
  }

  lemma MatchOverIndex(s: Snapshot, accountId: int, model: string)
    ensures ModelMatch(s, accountId, model).Explicit? <==> Lists(s, model, accountId)
    ensures ModelMatch(s, accountId, model).UnknownModel? <==> ListsNothing(s, accountId)
  {
    if model' :| Lists(s, model', accountId) { assert HasAnyModel(s, accountId); }
    if HasAnyModel(s, accountId) {
      var model' :| model' in s.modelIndex && accountId in s.modelIndex[model'];
      assert Lists(s, model', accountId);
    }
  }

  /** A found account is listed under the model, or under no model at all; if any servable member is listed under the
      model, the found one is. */
  lemma RouteFollowsIndex(s: Snapshot, q: Query, poolId: int)
    ensures var r := Resolve(s, q, poolId); var members := MembersOf(s, poolId);
      && (r.Found? ==> Lists(s, q.ask.model, r.accountId) || ListsNothing(s, r.accountId))
      && (r.Found? ==> exists m :: m in members && m.accountId == r.accountId && Servable(s, q, m))
      && (poolId in s.pools && s.pools[poolId].enabled && (exists m :: m in members && Servable(s, q, m) && Lists(s, q.ask.model, m.accountId)) ==>
            r.Found? && Lists(s, q.ask.model, r.accountId))
  {
    ResolveVerdicts(s, q, poolId);
    var r, members := Resolve(s, q, poolId), MembersOf(s, poolId);
    forall id ensures ModelMatch(s, id, q.ask.model).Explicit? <==> Lists(s, q.ask.model, id) { MatchOverIndex(s, id, q.ask.model); }
    if r.Found? { MatchOverIndex(s, r.accountId, q.ask.model); }
    if poolId in s.pools && s.pools[poolId].enabled {
      ExplicitWins(s, q, members, s.pools[poolId].policy);
    }
  }

  /** The stages for explicit matches come first. */
  lemma ExplicitWins(s: Snapshot, q: Query, members: seq<Member>, policy: Policy)
    ensures var r := Search(s, q, members, Stages(policy));
      (exists m :: m in members && Candidate(s, q, m) && MatchRank(s, q.ask, m) == 0) ==> r.Some? && MatchRank(s, q.ask, members[r.value]) == 0
  {
    if m :| m in members && Candidate(s, q, m) && MatchRank(s, q.ask, m) == 0 {
      var k := WinningStage(s, q, members, Stages(policy));
      var own := OwnStage(s, q, m, policy);
      assert k <= own;
      var r := Search(s, q, members, Stages(policy));
      if policy.Ordered? {
        OrderedStageMeaning(s, q, members[r.value], k);
      } else {
        HealthStageMeaning(s, q, members[r.value], k);
      }
    }
  }

  function AtMostTwo(n: nat): nat { if n > 2 then 2 else n }

  /** The order of preference, over the rows themselves: listed under the model first; under health first, and for ordinary
      traffic, fewer warnings, where two and more count alike; then position and id. */
  predicate Preferred(s: Snapshot, ask: Ask, policy: Policy, a: Member, b: Member)
    requires a.accountId in s.accounts && b.accountId in s.accounts
  {
    var listedA, listedB := Lists(s, ask.model, a.accountId), Lists(s, ask.model, b.accountId);
    var warnA, warnB := AtMostTwo(|Warnings(s.accounts[a.accountId])|), AtMostTwo(|Warnings(s.accounts[b.accountId])|);
    if listedA != listedB then listedA
    else if policy == HealthFirst && !ask.options.diagnostic && warnA != warnB then warnA < warnB
    else a.position < b.position || (a.position == b.position && a.id < b.id)
  }

  lemma KeysOverRows(s: Snapshot, q: Query, m: Member)
    requires Servable(s, q, m)
    ensures MatchRank(s, q.ask, m) == if Lists(s, q.ask.model, m.accountId) then 0 else 1
    ensures Bucket(s, q.ask, m) == if q.ask.options.diagnostic then 0 else AtMostTwo(|Warnings(s.accounts[m.accountId])|)
  {
    MatchOverIndex(s, m.accountId, q.ask.model);
    if q.ask.options.diagnostic {
      DiagnosticTrafficGates(s.accounts[m.accountId], q.ask.options);
    } else {
      PenaltyCountsWarnings(s.accounts[m.accountId], q.ask.options);
    }
  }

  lemma RankIsPreference(s: Snapshot, q: Query, policy: Policy, a: Member, b: Member)
    requires Servable(s, q, a) && Servable(s, q, b)
    ensures RanksBefore(s, q.ask, policy, a, b) <==> Preferred(s, q.ask, policy, a, b)
  {
    KeysOverRows(s, q, a);
    KeysOverRows(s, q, b);
  }

  /** The found account is preferred to that of every other servable member listed under the model or under none. */
  lemma WinnerIsPreferred(s: Snapshot, q: Query, poolId: int, m: Member)
    requires Resolve(s, q, poolId).Found? && Seated(MembersOf(s, poolId))
    requires m in MembersOf(s, poolId) && m.accountId != Resolve(s, q, poolId).accountId
    requires Servable(s, q, m) && (Lists(s, q.ask.model, m.accountId) || ListsNothing(s, m.accountId))
    ensures exists w :: w in MembersOf(s, poolId) && w.accountId == Resolve(s, q, poolId).accountId && w.accountId in s.accounts
                     && Preferred(s, q.ask, s.pools[poolId].policy, w, m)
  {
    var members, policy := MembersOf(s, poolId), s.pools[poolId].policy;
    MatchOverIndex(s, m.accountId, q.ask.model);
    SearchIsLeast(s, q, members, policy);
    var w := members[Search(s, q, members, Stages(policy)).value];
    RankIsPreference(s, q, policy, w, m);
  }

  /** What the traces say of the index: candidate by explicit match, candidate for want of any model, or mismatch, each
      exactly for servable members listed so. */
  lemma TraceOverIndex(s: Snapshot, q: Query, poolId: int, traces: seq<Trace>, i: nat)
    requires Explained(s, q, poolId, traces) && i < |traces|
    ensures var m := MembersOf(s, poolId)[i]; var id := m.accountId;
      && (traces[i].outcome == IsCandidate(true) <==> Servable(s, q, m) && Lists(s, q.ask.model, id))
      && (traces[i].outcome == IsCandidate(false) <==> Servable(s, q, m) && ListsNothing(s, id))
      && (traces[i].outcome == ExplicitMismatch <==> Servable(s, q, m) && !Lists(s, q.ask.model, id) && !ListsNothing(s, id))
  {
    var m := MembersOf(s, poolId)[i];
    assert Explains(s, q, m, traces[i]);
    MatchOverIndex(s, m.accountId, q.ask.model);
  }

  // ----- Retrying with the chosen accounts excluded -----

  function Excluding(q: Query, accountId: int): Query { Query(q.ask, q.exclude + {accountId}) }

  ghost function Remaining(q: Query, members: seq<Member>): set<int> {
    (set m | m in members :: m.accountId) - q.exclude
  }

  /** The members chosen by selecting again and again, each time excluding what was chosen before. */
  ghost function Enumerate(s: Snapshot, q: Query, members: seq<Member>, policy: Policy): (order: seq<Member>)
    ensures forall i :: 0 <= i < |order| ==> order[i] in members && Candidate(s, q, order[i])
    decreases |Remaining(q, members)|
  {
    var r := Search(s, q, members, Stages(policy));
    if r.None? then []
    else
      SearchFits(s, q, members, Stages(policy));
      var m := members[r.value];
      ExcludingShrinks(q, members, m);
      [m] + Enumerate(s, Excluding(q, m.accountId), members, policy)
  }

  lemma ExcludingShrinks(q: Query, members: seq<Member>, m: Member)
    requires m in members && m.accountId !in q.exclude
    ensures |Remaining(Excluding(q, m.accountId), members)| < |Remaining(q, members)|
  {
    assert Remaining(Excluding(q, m.accountId), members) == Remaining(q, members) - {m.accountId};
    assert m.accountId in Remaining(q, members);
  }

  ghost function Accounts(order: seq<Member>): set<int> { set m | m in order :: m.accountId }

  /** One step of the enumeration: the least candidate first, then the rest without it. */
  lemma EnumerateStep(s: Snapshot, q: Query, members: seq<Member>, policy: Policy) returns (m: Member, q': Query)
    requires Search(s, q, members, Stages(policy)).Some?
    ensures m in members && Candidate(s, q, m) && q' == Excluding(q, m.accountId)
    ensures Enumerate(s, q, members, policy) == [m] + Enumerate(s, q', members, policy)
    ensures |Remaining(q', members)| < |Remaining(q, members)|
    ensures forall x :: x in members ==> (Candidate(s, q', x) <==> Candidate(s, q, x) && x.accountId != m.accountId)
    ensures Seated(members) ==>
              forall x :: x in members && x != m && Candidate(s, q, x) ==> RanksBefore(s, q.ask, policy, m, x)
  {
    SearchIsLeast(s, q, members, policy);
    m := members[Search(s, q, members, Stages(policy)).value];
    q' := Excluding(q, m.accountId);
    ExcludingShrinks(q, members, m);
  }

  lemma {:induction false} EnumerationCovers(s: Snapshot, q: Query, members: seq<Member>, policy: Policy)
    requires Seated(members)
    ensures forall m :: m in members ==> (m in Enumerate(s, q, members, policy) <==> Candidate(s, q, m))
    decreases |Remaining(q, members)|
  {
    SearchIsLeast(s, q, members, policy);
    if Search(s, q, members, Stages(policy)).Some? {
      var m, q' := EnumerateStep(s, q, members, policy);
      EnumerationCovers(s, q', members, policy);
    }
  }

  ghost predicate Ascending(s: Snapshot, ask: Ask, policy: Policy, order: seq<Member>) {
    && (forall i :: 0 <= i < |order| ==> order[i].accountId in s.accounts)
    && (forall i, j :: 0 <= i < j < |order| ==>
          order[i].accountId != order[j].accountId && RanksBefore(s, ask, policy, order[i], order[j]))
  }

  lemma AscendingCons(s: Snapshot, ask: Ask, policy: Policy, m: Member, rest: seq<Member>)
    requires m.accountId in s.accounts && Ascending(s, ask, policy, rest)
    requires forall i :: 0 <= i < |rest| ==>
               rest[i].accountId != m.accountId && RanksBefore(s, ask, policy, m, rest[i])
    ensures Ascending(s, ask, policy, [m] + rest)
  {
    var order := [m] + rest;
    assert forall i :: 1 <= i < |order| ==> order[i] == rest[i - 1];
  }

  lemma {:induction false} EnumerationAscends(s: Snapshot, q: Query, members: seq<Member>, policy: Policy)
    requires Seated(members)
    ensures Ascending(s, q.ask, policy, Enumerate(s, q, members, policy))
    decreases |Remaining(q, members)|
  {
    if Search(s, q, members, Stages(policy)).Some? {
      var m, q' := EnumerateStep(s, q, members, policy);
      EnumerationAscends(s, q', members, policy);
      AscendingCons(s, q.ask, policy, m, Enumerate(s, q', members, policy));
    }
  }

  lemma EnumerationEnds(s: Snapshot, q: Query, members: seq<Member>, policy: Policy)
    requires Seated(members)
    ensures var order := Enumerate(s, q, members, policy);
      Search(s, Query(q.ask, q.exclude + Accounts(order)), members, Stages(policy)) == None
  {
    EnumerationCovers(s, q, members, policy);
    var order := Enumerate(s, q, members, policy);
    var done := Query(q.ask, q.exclude + Accounts(order));
    forall m | m in members ensures !Candidate(s, done, m) {
      if Candidate(s, q, m) { assert m.accountId in Accounts(order); }
    }
    SearchIsLeast(s, done, members, policy);
  }

  /** Repeated selection visits exactly the candidates, each once, in rank order, and then fails. */
  lemma EnumerationTheorem(s: Snapshot, q: Query, members: seq<Member>, policy: Policy)
    requires Seated(members)
    ensures var order := Enumerate(s, q, members, policy);
      && (forall m :: m in members ==> (m in order <==> Candidate(s, q, m)))
      && Ascending(s, q.ask, policy, order)
      && Search(s, Query(q.ask, q.exclude + Accounts(order)), members, Stages(policy)) == None
  {
    EnumerationCovers(s, q, members, policy);
    EnumerationAscends(s, q, members, policy);
    EnumerationEnds(s, q, members, policy);
  }
}
