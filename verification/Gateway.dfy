/** One gateway request from parsed body to client response: routing, pinning, forwarding and retrying
    against an upstream, cache and clock that may do anything between attempts. */
module Gateway {
  import opened Basics
  import opened Routability
  import opened Router
  import B = RuntimeBinding

  // ----- What the outside world does -----

  /** The upstream's behaviour on one attempt. `banned` and `authFailure` are the text classifiers' verdicts on
      the reply; `streamFailed` is what the stream scanner reported. */
  datatype Upstream =
    | NoReply(retryable: bool)
    | Reply(status: int, banned: bool, authFailure: bool, streamFailed: bool)

  /** Everything one attempt observes: the snapshot and clock of the selection, the binding lookup, the service
      row read for the target, and the upstream. */
  datatype Attempt = Attempt(snap: Snapshot, now: int, world: B.World, service: Option<B.Service>, upstream: Upstream)

  datatype BodyOutcome = TooLarge | ReadFailed | Malformed | Parsed(model: string)

  datatype Request = Request(
    body: BodyOutcome, stream: bool, poolId: Option<int>, forced: Option<int>,
    diagnostic: bool, probeHeader: bool)

  datatype Config = Config(maxRetries: Option<int>, bindingSupported: bool, binder: B.Binder)

  // ----- What the client and the log see -----

  datatype Response = GatewayError(status: int) | Upstreamed(accountId: int, status: int)
  datatype Log = Log(accountId: Option<int>, status: int, success: bool, attempts: nat)
  datatype Forward = Forward(accountId: int, target: B.Target, upstream: Upstream)

  datatype Exit =
    | BadBody | RouteRefused(error: RouteError) | BindingRefused(accountId: int) | NotRetryable | Answered | Exhausted(reselectFailed: bool)

  const DEFAULT_MAX_RETRIES := 3

  function MaxRetries(setting: Option<int>): nat {
    if setting.Some? && setting.value > 0 then setting.value else DEFAULT_MAX_RETRIES
  }

  /** Forced and diagnostic requests are single-shot. */
  function Budget(req: Request, cfg: Config): nat {
    if req.forced.Some? || req.diagnostic then 1 else MaxRetries(cfg.maxRetries)
  }

  predicate RetryableStatus(status: int) { status >= 500 || status == 429 }

  predicate StatefulProbe(req: Request) { req.forced.Some? && !req.diagnostic && req.probeHeader }

  function FirstAsk(req: Request, cfg: Config, now: int): Ask
    requires req.body.Parsed?
  {
    Ask(req.body.model, Options(req.diagnostic || StatefulProbe(req), cfg.bindingSupported, now))
  }

  function RetryAsk(req: Request, cfg: Config, now: int): Ask
    requires req.body.Parsed?
  {
    Ask(req.body.model, Options(false, cfg.bindingSupported, now))
  }

  function FirstRoute(req: Request, cfg: Config, a: Attempt): Route
    requires req.body.Parsed?
  {
    if req.poolId.None? then Failed(NoRoute)
    else
      var q := Query(FirstAsk(req, cfg, a.now), {});
      if req.forced.Some? then ResolveForced(a.snap, q, req.poolId.value, req.forced.value)
      else Resolve(a.snap, q, req.poolId.value)
  }

  ghost function Tried(forwards: seq<Forward>): set<int> { set f | f in forwards :: f.accountId }

  /** The route that attempt k must follow, given what was forwarded before it. */
  ghost function RouteAt(req: Request, cfg: Config, env: nat -> Attempt, forwards: seq<Forward>): Route
    requires req.body.Parsed? && req.poolId.Some?
  {
    var k := |forwards|;
    if k == 0 then FirstRoute(req, cfg, env(0))
    else Resolve(env(k).snap, Query(RetryAsk(req, cfg, env(k).now), Tried(forwards)), req.poolId.value)
  }

  // ----- The pieces of a response -----

  function RefusalStatus(e: RouteError): int {
    match e
    case NoRoute => 404
    case ModelNotOnAccount => 404
    case PoolDisabled => 503
    case NoHealthyAccount => 503
    case RuntimeBinding => 503
  }

  /** A streamed reply is written while it arrives, unless its status invites a retry. */
  predicate WrittenByForward(req: Request, u: Upstream) {
    u.Reply? && req.stream && !RetryableStatus(u.status)
  }

  /** What Forward leaves on the wire itself. */
  function ForwardWrites(req: Request, accountId: int, u: Upstream): seq<Response> {
    if WrittenByForward(req, u) then [Upstreamed(accountId, u.status)] else []
  }

  /** Flushing a buffered reply; a reply already streamed is not written again. */
  function WriteResponse(req: Request, accountId: int, u: Upstream): (w: seq<Response>)
    requires u.Reply?
    ensures ForwardWrites(req, accountId, u) + w == [Upstreamed(accountId, u.status)]
  {
    if WrittenByForward(req, u) then [] else [Upstreamed(accountId, u.status)]
  }

  predicate Succeeded(u: Upstream) { u.Reply? && 200 <= u.status < 400 && !u.streamFailed }

  // ----- What holds of every finished request -----

  /** The account of a forward was, in the snapshot that selected it, an enabled and routable member of the pool. */
  ghost predicate Selected(req: Request, cfg: Config, a: Attempt, accountId: int)
    requires req.body.Parsed? && req.poolId.Some?
  {
    && accountId in a.snap.accounts
    && req.poolId.value in a.snap.pools && a.snap.pools[req.poolId.value].enabled
    && (exists m :: m in MembersOf(a.snap, req.poolId.value) && m.enabled && m.accountId == accountId)
    && (exists ask :: ask in {FirstAsk(req, cfg, a.now), RetryAsk(req, cfg, a.now)}
                   && IsRoutable(a.snap.accounts[accountId], ask.options))
  }

  /** A CPA account is only reached when it is bindable. The target carries the binding, made from the first listing that
      fits, if and only if the service row is still there when the target is built. */
  ghost predicate Pinned(cfg: Config, a: Attempt, f: Forward)
    requires f.accountId in a.snap.accounts
  {
    var acc := a.snap.accounts[f.accountId];
    acc.source.Cpa? ==>
      && B.Bindable(acc, cfg.binder, a.world)
      && (f.target.binding.Some? <==> a.service.Some?)
      && (f.target.binding.Some? ==>
            exists i: nat :: B.FitsAt(a.world, acc.identity.accountKey, i)
                          && B.BindingOf(acc, a.world.polls(i).listing.value[acc.identity.accountKey], f.target.binding.value))
  }

  /** The binding of the selected account is refused: it is a CPA account and not bindable. */
  ghost predicate Unbindable(cfg: Config, a: Attempt, accountId: int) {
    && accountId in a.snap.accounts && a.snap.accounts[accountId].source.Cpa?
    && !B.Bindable(a.snap.accounts[accountId], cfg.binder, a.world)
  }

  /** The request goes to the account's own endpoint, or to the service as long as its row is there. */
  ghost predicate Addressed(a: Attempt, f: Forward)
    requires f.accountId in a.snap.accounts
  {
    var acc := a.snap.accounts[f.accountId];
    if acc.source.Cpa? && a.service.Some? then
      && f.target.baseUrl == TrimRight(a.service.value.baseUrl, '/') + "/api/provider/" + acc.identity.providerName + "/v1"
      && f.target.apiKey == a.service.value.apiKey
    else f.target == B.Target(acc.identity.baseUrl, acc.identity.apiKey, None)
  }

  /** Forward k went where the selection of its own moment, with the earlier ones excluded, sent it. */
  ghost predicate SoundAt(req: Request, cfg: Config, env: nat -> Attempt, earlier: seq<Forward>, f: Forward)
    requires req.body.Parsed? && req.poolId.Some?
  {
    var k := |earlier|;
    && Selected(req, cfg, env(k), f.accountId)
    && RouteAt(req, cfg, env, earlier).Found?
    && RouteAt(req, cfg, env, earlier).accountId == f.accountId
    && Pinned(cfg, env(k), f) && Addressed(env(k), f)
    && f.upstream == env(k).upstream
  }

  predicate Distinct(forwards: seq<Forward>) {
    forall i, j :: 0 <= i < j < |forwards| ==> forwards[i].accountId != forwards[j].accountId
  }

  ghost predicate ForwardedSoundly(req: Request, cfg: Config, env: nat -> Attempt, forwards: seq<Forward>) {
    && (forwards != [] ==> req.body.Parsed? && req.poolId.Some?)
    && (forall k {:trigger SoundAt(req, cfg, env, forwards[..k], forwards[k])} :: 0 <= k < |forwards| ==>
          SoundAt(req, cfg, env, forwards[..k], forwards[k]))
    && Distinct(forwards)
    && (req.forced.Some? ==> forall k :: 0 <= k < |forwards| ==> forwards[k].accountId == req.forced.value)
  }

  /** The reply asks for another attempt: nothing was written and the account is excluded from now on. */
  predicate Retries(req: Request, cfg: Config, k: nat, acc: Account, u: Upstream) {
    match u
    case NoReply(retryable) => retryable
    case Reply(status, banned, authFailure, _) =>
      && RetryableStatus(status) && !req.stream && k < Budget(req, cfg) - 1
      && !(acc.source.Cpa? && (banned || authFailure))
  }

  /** The status of the last reply among the forwards, 0 when none of them got one. */
  function LastStatus(forwards: seq<Forward>): int {
    if forwards == [] then 0
    else
      var f := Last(forwards);
      if f.upstream.Reply? then f.upstream.status else LastStatus(forwards[..|forwards| - 1])
  }

  lemma LastStatusStep(forwards: seq<Forward>, f: Forward)
    ensures LastStatus(forwards + [f]) == if f.upstream.Reply? then f.upstream.status else LastStatus(forwards)
  {
    assert (forwards + [f])[..|forwards|] == forwards;
  }

  /** The response and the log that an exit after these forwards calls for; None when no such exit is possible. */
  function Closing(req: Request, forwards: seq<Forward>, exit: Exit): Option<(Response, Log)> {
    match exit
    case BadBody =>
      var status := if req.body.TooLarge? then 413 else 400;
      if forwards == [] then Some((GatewayError(status), Log(None, status, false, 0))) else None
    case RouteRefused(e) =>
      if forwards == [] then Some((GatewayError(RefusalStatus(e)), Log(None, RefusalStatus(e), false, 0))) else None
    case BindingRefused(accountId) =>
      // This log counts no attempts, whatever was forwarded before.
      Some((GatewayError(503), Log(Some(accountId), 503, false, 0)))
    case NotRetryable =>
      if forwards != [] && Last(forwards).upstream == NoReply(false) then
        Some((GatewayError(502), Log(Some(Last(forwards).accountId), 0, false, |forwards|)))
      else None
    case Answered =>
      if forwards != [] && Last(forwards).upstream.Reply? then
        var f := Last(forwards);
        Some((Upstreamed(f.accountId, f.upstream.status), Log(Some(f.accountId), f.upstream.status, Succeeded(f.upstream), |forwards|)))
      else None
    case Exhausted(reselectFailed) =>
      // The attempt counter runs ahead of the forwards exactly when the re-selection failed.
      var attempts := |forwards| + (if reselectFailed then 1 else 0);
      if forwards != [] then
        Some((GatewayError(502), Log(Some(Last(forwards).accountId), LastStatus(forwards), false, attempts)))
      else None
  }

  function Last(forwards: seq<Forward>): Forward
    requires forwards != []
  {
    forwards[|forwards| - 1]
  }

  /** Over the whole request the client has received the one response, and the log holds the one record, of this exit. */
  predicate Closed(req: Request, forwards: seq<Forward>, exit: Exit, wire: seq<Response>, logs: seq<Log>) {
    |wire| == 1 && |logs| == 1 && Closing(req, forwards, exit) == Some((wire[0], logs[0]))
  }

  // ----- The request -----

  /** The exclude list as the set the router builds from it. */
  function Ids(exclude: seq<int>): set<int> { set x | x in exclude }

  /** What a selection promises about the route of attempt |forwards|. */
  ghost predicate RoutedSoundly(req: Request, cfg: Config, env: nat -> Attempt, forwards: seq<Forward>, r: Route)
    requires req.body.Parsed? && req.poolId.Some?
  {
    var a := env(|forwards|);
    && r == RouteAt(req, cfg, env, forwards)
    && (r.Found? ==>
          && r.accountId !in Tried(forwards)
          && r.accountId in a.snap.accounts && r.account == a.snap.accounts[r.accountId]
          && Selected(req, cfg, a, r.accountId)
          && (forwards == [] && req.forced.Some? ==> r.accountId == req.forced.value))
  }

  /** Selection of attempt k: the first route, or a re-selection that excludes what was tried. */
  method SelectRoute(req: Request, cfg: Config, env: nat -> Attempt, attempt: nat, exclude: seq<int>, ghost forwards: seq<Forward>)
    returns (r: Route)
    requires req.body.Parsed? && req.poolId.Some? && attempt == |forwards| && Ids(exclude) == Tried(forwards)
    ensures RoutedSoundly(req, cfg, env, forwards, r)
  {
    if attempt == 0 {
      var q := Query(FirstAsk(req, cfg, env(0).now), {});
      if req.forced.Some? {
        r := ResolveForced(env(0).snap, q, req.poolId.value, req.forced.value);
      } else {
        r := ResolveInPool(env(0).snap, q, req.poolId.value);
      }
      if r.Found? { FirstRouteIsSelected(req, cfg, env(0)); }
    } else {
      var q := Query(RetryAsk(req, cfg, env(attempt).now), Ids(exclude));
      r := ResolveInPool(env(attempt).snap, q, req.poolId.value);
      if r.Found? { RetryRouteIsSelected(req, cfg, env, forwards); }
    }
  }

  /** Binding, target and forward of one attempt; None when the binding is refused. Forward may write to the client. */
  method SendOnce(req: Request, cfg: Config, a: Attempt, accountId: int, acc: Account, wire: seq<Response>)
    returns (sent: Option<Forward>, wire': seq<Response>)
    requires accountId in a.snap.accounts && a.snap.accounts[accountId] == acc
    ensures sent.None? <==> Unbindable(cfg, a, accountId)
    ensures sent.None? ==> wire' == wire
    ensures sent.Some? ==>
      sent.value.accountId == accountId && sent.value.upstream == a.upstream && Pinned(cfg, a, sent.value) && Addressed(a, sent.value)
    ensures sent.Some? ==> wire' == wire + ForwardWrites(req, accountId, a.upstream)
  {
    var binding, rowWrites := B.ResolveForwardBinding(acc, cfg.binder, a.world);
    if binding.Err? {
      return None, wire;
    }
    var target := B.ResolveTarget(acc, binding.value, a.service);
    if acc.source.Cpa? { B.BindingSurvives(acc, binding.value, a.service); }
    return Some(Forward(accountId, target, a.upstream)), wire + ForwardWrites(req, accountId, a.upstream);
  }

  datatype Verdict = Retry(status: int) | Done(exit: Exit)

  /** What becomes of one upstream result: another attempt, or a response to the client and a log. `wire` is what the
      client has received so far, this attempt's Forward included. */
  method Settle(req: Request, cfg: Config, attempt: nat, acc: Account, f: Forward, wire: seq<Response>, logs: seq<Log>)
    returns (v: Verdict, wire': seq<Response>, logs': seq<Log>)
    ensures v.Retry? <==> Retries(req, cfg, attempt, acc, f.upstream)
    ensures v.Retry? ==> wire' == wire && logs' == logs && v.status == (if f.upstream.Reply? then f.upstream.status else 0)
    ensures v.Done? ==> wire' == wire + AnswerWrites(req, f) && logs' == logs + [AnswerLog(f, attempt + 1)]
    ensures v.Done? ==> v.exit == if f.upstream.Reply? then Answered else NotRetryable
  {
    var u := f.upstream;
    var attemptsUsed := attempt + 1;
    if u.NoReply? {
      if u.retryable {
        return Retry(0), wire, logs;
      }
      return Done(NotRetryable), wire + [GatewayError(502)], logs + [Log(Some(f.accountId), 0, false, attemptsUsed)];
    }
    if RetryableStatus(u.status) {
      if (acc.source.Cpa? && (u.banned || u.authFailure)) || req.stream || attempt >= Budget(req, cfg) - 1 {
        return Done(Answered), wire + WriteResponse(req, f.accountId, u), logs + [Log(Some(f.accountId), u.status, false, attemptsUsed)];
      }
      return Retry(u.status), wire, logs;
    }
    return Done(Answered), wire + WriteResponse(req, f.accountId, u), logs + [Log(Some(f.accountId), u.status, Succeeded(u), attemptsUsed)];
  }

  /** What the handler writes itself once it stops retrying. */
  function AnswerWrites(req: Request, f: Forward): seq<Response> {
    if f.upstream.NoReply? then [GatewayError(502)] else WriteResponse(req, f.accountId, f.upstream)
  }

  function AnswerLog(f: Forward, attempts: nat): Log {
    Log(Some(f.accountId), if f.upstream.Reply? then f.upstream.status else 0, Succeeded(f.upstream), attempts)
  }

  ghost predicate RetriedAt(req: Request, cfg: Config, a: Attempt, f: Forward, k: nat) {
    f.accountId in a.snap.accounts && Retries(req, cfg, k, a.snap.accounts[f.accountId], f.upstream)
  }

  /** The first n forwards all asked for another attempt. */
  ghost predicate Retried(req: Request, cfg: Config, env: nat -> Attempt, forwards: seq<Forward>, n: nat)
    requires n <= |forwards|
  {
    forall k {:trigger RetriedAt(req, cfg, env(k), forwards[k], k)} :: 0 <= k < n ==> RetriedAt(req, cfg, env(k), forwards[k], k)
  }

  /** The last forward did not ask for another attempt. */
  ghost predicate Stopped(req: Request, cfg: Config, env: nat -> Attempt, forwards: seq<Forward>) {
    forwards != [] && !RetriedAt(req, cfg, env(|forwards| - 1), Last(forwards), |forwards| - 1)
  }

  /** One attempt on a selected route, from a client that has received nothing and a log that is empty. */
  method TryOnce(req: Request, cfg: Config, env: nat -> Attempt, r: Route, forwards: seq<Forward>, wire: seq<Response>, logs: seq<Log>)
    returns (sent: Option<Forward>, v: Verdict, wire': seq<Response>, logs': seq<Log>)
    requires req.body.Parsed? && req.poolId.Some? && (req.forced.Some? ==> forwards == [])
    requires ForwardedSoundly(req, cfg, env, forwards) && Retried(req, cfg, env, forwards, |forwards|)
    requires RoutedSoundly(req, cfg, env, forwards, r) && r.Found? && wire == [] && logs == []
    ensures sent.None? ==> wire' == [] && logs' == [] && Unbindable(cfg, env(|forwards|), r.accountId)
    ensures sent.Some? ==>
      && sent.value.accountId == r.accountId
      && (v.Done? ==> Stopped(req, cfg, env, forwards + [sent.value]))
      && ForwardedSoundly(req, cfg, env, forwards + [sent.value])
      && Retried(req, cfg, env, forwards + [sent.value], |forwards|)
      && (v.Retry? ==> Retried(req, cfg, env, forwards + [sent.value], |forwards| + 1))
      && (v.Retry? ==> wire' == [] && logs' == [] && v.status == (if sent.value.upstream.Reply? then sent.value.upstream.status else 0))
      && (v.Done? ==> v.exit in {NotRetryable, Answered} && Closed(req, forwards + [sent.value], v.exit, wire', logs'))
  {
    v, logs' := Retry(0), logs;
    sent, wire' := SendOnce(req, cfg, env(|forwards|), r.accountId, r.account, wire);
    if sent.Some? {
      AppendIsSound(req, cfg, env, forwards, r, sent.value);
      v, wire', logs' := Settle(req, cfg, |forwards|, r.account, sent.value, wire', logs);
      if v.Retry? {
        RetriedWritesNothing(req, cfg, |forwards|, r.account, sent.value);
      } else {
        AnsweredOnce(req, forwards, sent.value);
      }
    }
  }

  /** Forward and handler together write one response, the one that the exit calls for. */
  lemma AnsweredOnce(req: Request, forwards: seq<Forward>, f: Forward)
    requires f.upstream != NoReply(true)
    ensures var wire := ForwardWrites(req, f.accountId, f.upstream) + AnswerWrites(req, f);
      var exit := if f.upstream.Reply? then Answered else NotRetryable;
      Closed(req, forwards + [f], exit, wire, [AnswerLog(f, |forwards| + 1)])
  {
  }

  /** A reply that asks for another attempt has not reached the client. */
  lemma RetriedWritesNothing(req: Request, cfg: Config, k: nat, acc: Account, f: Forward)
    requires Retries(req, cfg, k, acc, f.upstream)
    ensures ForwardWrites(req, f.accountId, f.upstream) == []
    ensures f.upstream.Reply? ==> RetryableStatus(f.upstream.status)
  {
  }

  /** Every forward so far was sound and asked for another attempt. */
  ghost predicate Running(req: Request, cfg: Config, env: nat -> Attempt, forwards: seq<Forward>) {
    ForwardedSoundly(req, cfg, env, forwards) && Retried(req, cfg, env, forwards, |forwards|)
  }

  datatype Turn = NoRouteLeft | Refused(accountId: int) | Sent(f: Forward, v: Verdict)

  /** One round of the loop: the first route or a re-selection, then the attempt. */
  method Round(req: Request, cfg: Config, env: nat -> Attempt, first: Route, exclude: seq<int>, forwards: seq<Forward>,
               wire: seq<Response>, logs: seq<Log>)
    returns (turn: Turn, wire': seq<Response>, logs': seq<Log>)
    requires req.body.Parsed? && req.poolId.Some? && (req.forced.Some? ==> forwards == [])
    requires RoutedSoundly(req, cfg, env, [], first) && first.Found?
    requires Running(req, cfg, env, forwards) && Ids(exclude) == Tried(forwards) && wire == [] && logs == []
    ensures !turn.Sent? || turn.v.Retry? ==> wire' == [] && logs' == []
    ensures turn.NoRouteLeft? ==> forwards != [] && RouteAt(req, cfg, env, forwards).Failed?
    ensures turn.Refused? ==> RouteAt(req, cfg, env, forwards).Found? && RouteAt(req, cfg, env, forwards).accountId == turn.accountId
    ensures turn.Refused? ==> Unbindable(cfg, env(|forwards|), turn.accountId)
    ensures turn.Sent? ==>
      && ForwardedSoundly(req, cfg, env, forwards + [turn.f]) && Retried(req, cfg, env, forwards + [turn.f], |forwards|)
      && (turn.v.Retry? ==> Running(req, cfg, env, forwards + [turn.f]))
      && (turn.v.Retry? ==> turn.v.status == if turn.f.upstream.Reply? then turn.f.upstream.status else 0)
      && (turn.v.Done? ==> turn.v.exit in {NotRetryable, Answered} && Stopped(req, cfg, env, forwards + [turn.f]))
      && (turn.v.Done? ==> Closed(req, forwards + [turn.f], turn.v.exit, wire', logs'))
  {
    var resolved := first;
    if forwards != [] {
      resolved := SelectRoute(req, cfg, env, |forwards|, exclude, forwards);
      if resolved.Failed? {
        return NoRouteLeft, wire, logs;
      }
    }
    var sent, v;
    sent, v, wire', logs' := TryOnce(req, cfg, env, resolved, forwards, wire, logs);
    turn := if sent.None? then Refused(resolved.accountId) else Sent(sent.value, v);
  }

  /** The loop. `wire` is everything the client receives and `logs` every log record, in order, over all attempts. */
  method RetryLoop(req: Request, cfg: Config, env: nat -> Attempt, first: Route)
    returns (forwards: seq<Forward>, wire: seq<Response>, logs: seq<Log>, exit: Exit)
    requires req.body.Parsed? && req.poolId.Some? && RoutedSoundly(req, cfg, env, [], first) && first.Found?
    ensures Closed(req, forwards, exit, wire, logs) && |forwards| <= Budget(req, cfg)
    ensures ForwardedSoundly(req, cfg, env, forwards)
    ensures forwards != [] ==> Retried(req, cfg, env, forwards, |forwards| - 1)
    ensures exit == Exhausted(false) ==> |forwards| == Budget(req, cfg)
    ensures exit == Exhausted(true) ==> |forwards| < Budget(req, cfg) && RouteAt(req, cfg, env, forwards).Failed?
    ensures exit.BindingRefused? ==> RouteAt(req, cfg, env, forwards).Found? && RouteAt(req, cfg, env, forwards).accountId == exit.accountId
    ensures exit.BindingRefused? ==> Unbindable(cfg, env(|forwards|), exit.accountId)
    ensures exit.Answered? ==> Stopped(req, cfg, env, forwards)
    ensures exit.Exhausted? ==> forwards != [] && Retried(req, cfg, env, forwards, |forwards|)
    ensures exit.BindingRefused? || exit.NotRetryable? || exit.Answered? || exit.Exhausted?
  {
    forwards, wire, logs := [], [], [];
    var exclude: seq<int> := [];
    var lastStatus := 0;
    var attemptsUsed := 0;
    var attempt := 0;
    exit := Exhausted(false);
    while attempt < Budget(req, cfg)
      invariant 0 <= attempt <= Budget(req, cfg) && attempt == |forwards| == attemptsUsed
      invariant exit == Exhausted(false) && wire == [] && logs == []
      invariant Running(req, cfg, env, forwards) && Ids(exclude) == Tried(forwards)
      invariant lastStatus == LastStatus(forwards)
    {
      attemptsUsed := attempt + 1;
      var turn;
      turn, wire, logs := Round(req, cfg, env, first, exclude, forwards, wire, logs);
      if turn.NoRouteLeft? {
        exit := Exhausted(true);
        break;
      }
      if turn.Refused? {
        wire, logs := wire + [GatewayError(503)], logs + [Log(Some(turn.accountId), 503, false, 0)];
        exit := BindingRefused(turn.accountId);
        return;
      }
      TriedGrows(exclude, forwards, turn.f);
      LastStatusStep(forwards, turn.f);
      forwards := forwards + [turn.f];
      if turn.v.Done? {
        exit := turn.v.exit;
        return;
      }
      exclude := exclude + [turn.f.accountId];
      if turn.f.upstream.Reply? {
        lastStatus := turn.v.status;
      }
      attempt := attempt + 1;
    }
    wire := wire + [GatewayError(502)];
    logs := logs + [Log(Some(Last(forwards).accountId), lastStatus, false, attemptsUsed)];
    ExhaustionCloses(req, forwards, exit);
  }

  lemma ExhaustionCloses(req: Request, forwards: seq<Forward>, exit: Exit)
    requires forwards != [] && exit.Exhausted?
    ensures Closed(req, forwards, exit, [GatewayError(502)],
                   [Log(Some(Last(forwards).accountId), LastStatus(forwards), false, |forwards| + if exit.reselectFailed then 1 else 0)])
  {
  }

  // ----- The promises in plain terms -----

  /** How many attempts a request may make. */
  predicate WithinBudget(req: Request, cfg: Config, n: nat) {
    if req.diagnostic || req.forced.Some? then n <= 1
    else if cfg.maxRetries.Some? && cfg.maxRetries.value > 0 then n <= cfg.maxRetries.value
    else n <= 3
  }

  /** No answer at all, for a reason that allows another try, or an unstreamed 429 or 5xx that does not condemn the account. */
  predicate WorthRetrying(req: Request, acc: Account, u: Upstream) {
    || u == NoReply(true)
    || (&& u.Reply? && !req.stream && (u.status == 429 || u.status >= 500)
        && !(acc.source == Cpa && (u.banned || u.authFailure)))
  }

  /** Forward k was worth retrying. */
  ghost predicate WorthIt(req: Request, a: Attempt, f: Forward) {
    f.accountId in a.snap.accounts && WorthRetrying(req, a.snap.accounts[f.accountId], f.upstream)
  }

  lemma RetriedMeans(req: Request, cfg: Config, a: Attempt, f: Forward, k: nat)
    ensures RetriedAt(req, cfg, a, f, k) ==> WorthIt(req, a, f)
    ensures WorthIt(req, a, f) && !RetriedAt(req, cfg, a, f, k) ==> !WithinBudget(req, cfg, k + 2)
  {
  }

  /** Diagnostic requests and stateful probes of a forced account skip the gates for ordinary traffic, on the first attempt. */
  predicate Lenient(req: Request, k: nat) { k == 0 && (req.diagnostic || (req.forced.Some? && req.probeHeader)) }

  /** Which selection each attempt follows: the model of the body; on the first attempt the lenient gates for diagnostic
      requests and stateful probes, and nothing excluded; afterwards the ordinary gates, with all tried accounts excluded. */
  lemma RoutesAreSelections(req: Request, cfg: Config, env: nat -> Attempt, forwards: seq<Forward>)
    requires req.body.Parsed? && req.poolId.Some?
    ensures var k := |forwards|; var pool := req.poolId.value;
      var q := Query(Ask(req.body.model, Options(Lenient(req, k), cfg.bindingSupported, env(k).now)), set f | f in forwards :: f.accountId);
      && (k == 0 && req.forced.None? ==> FirstRoute(req, cfg, env(0)) == Resolve(env(0).snap, q, pool))
      && (k == 0 && req.forced.Some? ==> FirstRoute(req, cfg, env(0)) == ResolveForced(env(0).snap, q, pool, req.forced.value))
      && RouteAt(req, cfg, env, forwards) == if k == 0 then FirstRoute(req, cfg, env(0)) else Resolve(env(k).snap, q, pool)
  {
    if forwards == [] {
      assert (set f | f in forwards :: f.accountId) == {};
    }
  }

  /** The account of forward k, in the snapshot of its own moment: an enabled member of the token's enabled pool that passes
      the gates of the request, and that the model index lists under the model or not at all; a forced one may only not
      have a model list that excludes the model. */
  lemma ForwardMeans(req: Request, cfg: Config, env: nat -> Attempt, forwards: seq<Forward>, k: nat)
    requires ForwardedSoundly(req, cfg, env, forwards) && k < |forwards|
    ensures req.body.Parsed? && req.poolId.Some?
    ensures var snap := env(k).snap; var id := forwards[k].accountId; var pool := req.poolId.value;
      && pool in snap.pools && snap.pools[pool].enabled
      && id in snap.accounts && (exists m :: m in MembersOf(snap, pool) && m.enabled && m.accountId == id)
      && var acc := snap.accounts[id];
      && (Lenient(req, k) ==> acc.enabled && acc.status in {Healthy, Degraded} && (acc.source == Cpa ==> cfg.bindingSupported))
      && (!Lenient(req, k) ==> IsRoutable(acc, Options(false, cfg.bindingSupported, env(k).now)))
      && (req.forced.None? ==> Lists(snap, req.body.model, id) || ListsNothing(snap, id))
      && (req.forced.Some? && k == 0 ==> acc.models == [] || req.body.model in acc.models)
  {
    assert SoundAt(req, cfg, env, forwards[..k], forwards[k]);
    var a := env(k);
    var ask := if k == 0 then FirstAsk(req, cfg, a.now) else RetryAsk(req, cfg, a.now);
    var q := Query(ask, Tried(forwards[..k]));
    if k == 0 { assert forwards[..k] == [] && q.exclude == {}; }
    if k > 0 || req.forced.None? {
      ResolveVerdicts(a.snap, q, req.poolId.value);
      RouteFollowsIndex(a.snap, q, req.poolId.value);
    }
    if Lenient(req, k) { DiagnosticTrafficGates(a.snap.accounts[forwards[k].accountId], ask.options); }
  }

  /** What the client and the log are told at each exit. */
  ghost predicate ToldPlainly(req: Request, forwards: seq<Forward>, exit: Exit, response: Response, log: Log) {
    && (exit.BadBody? ==> response == GatewayError(if req.body == TooLarge then 413 else 400) && log == Log(None, response.status, false, 0))
    && (exit.RouteRefused? ==>
          response == GatewayError(if exit.error in {NoRoute, ModelNotOnAccount} then 404 else 503) && log == Log(None, response.status, false, 0))
    && (exit.BindingRefused? ==> response == GatewayError(503) && log == Log(Some(exit.accountId), 503, false, 0))
    && (exit.NotRetryable? ==>
          && forwards != [] && Last(forwards).upstream == NoReply(false) && response == GatewayError(502)
          && log == Log(Some(Last(forwards).accountId), 0, false, |forwards|))
    && (exit.Answered? ==>
          && forwards != [] && Last(forwards).upstream.Reply?
          && response == Upstreamed(Last(forwards).accountId, Last(forwards).upstream.status)
          && log == Log(Some(Last(forwards).accountId), response.status, 200 <= response.status < 400 && !Last(forwards).upstream.streamFailed, |forwards|))
    && (exit.Exhausted? ==>
          && forwards != [] && response == GatewayError(502) && !log.success && log.accountId == Some(Last(forwards).accountId)
          && log.attempts == |forwards| + (if exit.reselectFailed then 1 else 0)
          && LatestStatus(forwards, log.status))
  }

  /** The status of the latest reply, 0 when there was none. */
  ghost predicate LatestStatus(forwards: seq<Forward>, status: int) {
    || (&& status == 0 && forall i :: 0 <= i < |forwards| ==> forwards[i].upstream.NoReply?)
    || exists i :: LatestAt(forwards, i, status)
  }

  ghost predicate LatestAt(forwards: seq<Forward>, i: int, status: int) {
    && 0 <= i < |forwards| && forwards[i].upstream.Reply? && forwards[i].upstream.status == status
    && forall j :: i < j < |forwards| ==> forwards[j].upstream.NoReply?
  }

  lemma {:induction false} LastStatusIsLatest(forwards: seq<Forward>)
    ensures LatestStatus(forwards, LastStatus(forwards))
    decreases |forwards|
  {
    if forwards != [] && Last(forwards).upstream.Reply? {
      assert LatestAt(forwards, |forwards| - 1, LastStatus(forwards));
    } else if forwards != [] {
      var front := forwards[..|forwards| - 1];
      LastStatusIsLatest(front);
      assert forall i :: 0 <= i < |front| ==> forwards[i] == front[i];
      if i :| LatestAt(front, i, LastStatus(front)) { assert LatestAt(forwards, i, LastStatus(forwards)); }
    }
  }

  lemma ClosedIsTold(req: Request, forwards: seq<Forward>, exit: Exit, wire: seq<Response>, logs: seq<Log>)
    requires Closed(req, forwards, exit, wire, logs)
    ensures ToldPlainly(req, forwards, exit, wire[0], logs[0])
  {
    LastStatusIsLatest(forwards);
  }

  /** Every request, whatever the snapshots, bindings and replies along the way: the client receives one response, one log
      is written, and the request goes to distinct enabled members within the budget, only to the forced account when
      one is forced. */
  method ServeRequest(req: Request, cfg: Config, env: nat -> Attempt)
    returns (forwards: seq<Forward>, wire: seq<Response>, logs: seq<Log>, exit: Exit)
    ensures |wire| == 1 && |logs| == 1 && ToldPlainly(req, forwards, exit, wire[0], logs[0])
    ensures WithinBudget(req, cfg, |forwards|)
    ensures ForwardedSoundly(req, cfg, env, forwards)
    // Every forward but the last was worth retrying; a final answer that was, too, used up the budget.
    ensures forall k :: 0 <= k < |forwards| - 1 ==> WorthIt(req, env(k), forwards[k])
    ensures exit.Answered? && WorthIt(req, env(|forwards| - 1), Last(forwards)) ==> !WithinBudget(req, cfg, |forwards| + 1)
    // An exhausted request used its budget or lost its route.
    ensures exit == Exhausted(false) ==> !WithinBudget(req, cfg, |forwards| + 1)
    ensures exit == Exhausted(true) ==>
              forwards != [] && WithinBudget(req, cfg, |forwards| + 1) && RouteAt(req, cfg, env, forwards).Failed?
    ensures exit.Exhausted? ==> WorthIt(req, env(|forwards| - 1), Last(forwards))
    // A refused binding is that of the account just selected, which is not bindable.
    ensures exit.BindingRefused? ==>
              && req.body.Parsed? && req.poolId.Some? && Unbindable(cfg, env(|forwards|), exit.accountId)
              && RouteAt(req, cfg, env, forwards).Found? && RouteAt(req, cfg, env, forwards).accountId == exit.accountId
    ensures exit.BadBody? <==> !req.body.Parsed? || req.body.model == ""
    ensures exit.RouteRefused? <==>
              req.body.Parsed? && req.body.model != "" && FirstRoute(req, cfg, env(0)).Failed?
    ensures exit.RouteRefused? ==> exit.error == FirstRoute(req, cfg, env(0)).error
  {
    forwards, wire, logs := [], [], [];
    if !req.body.Parsed? || req.body.model == "" {
      var status := if req.body.TooLarge? then 413 else 400;
      wire, logs, exit := wire + [GatewayError(status)], logs + [Log(None, status, false, 0)], BadBody;
      return;
    }
    if req.poolId.None? {
      wire, logs, exit := wire + [GatewayError(404)], logs + [Log(None, 404, false, 0)], RouteRefused(NoRoute);
      return;
    }
    var first := SelectRoute(req, cfg, env, 0, [], []);
    if first.Failed? {
      var status := RefusalStatus(first.error);
      wire, logs, exit := wire + [GatewayError(status)], logs + [Log(None, status, false, 0)], RouteRefused(first.error);
      return;
    }
    forwards, wire, logs, exit := RetryLoop(req, cfg, env, first);
    ClosedIsTold(req, forwards, exit, wire, logs);
    LoopInPlainTerms(req, cfg, env, forwards, exit);
  }

  lemma LoopInPlainTerms(req: Request, cfg: Config, env: nat -> Attempt, forwards: seq<Forward>, exit: Exit)
    requires |forwards| <= Budget(req, cfg) && (forwards != [] ==> Retried(req, cfg, env, forwards, |forwards| - 1))
    requires exit.Answered? ==> Stopped(req, cfg, env, forwards)
    requires exit.Exhausted? ==> forwards != [] && Retried(req, cfg, env, forwards, |forwards|)
    ensures WithinBudget(req, cfg, |forwards|)
    ensures forall k :: 0 <= k < |forwards| - 1 ==> WorthIt(req, env(k), forwards[k])
    ensures exit.Answered? && WorthIt(req, env(|forwards| - 1), Last(forwards)) ==> !WithinBudget(req, cfg, |forwards| + 1)
    ensures exit.Exhausted? ==> WorthIt(req, env(|forwards| - 1), Last(forwards))
  {
    forall k | 0 <= k < |forwards| - 1 ensures WorthIt(req, env(k), forwards[k]) {
      assert RetriedAt(req, cfg, env(k), forwards[k], k);
      RetriedMeans(req, cfg, env(k), forwards[k], k);
    }
    if forwards != [] { RetriedMeans(req, cfg, env(|forwards| - 1), Last(forwards), |forwards| - 1); }
  }

  lemma TriedGrows(exclude: seq<int>, forwards: seq<Forward>, f: Forward)
    requires Ids(exclude) == Tried(forwards)
    ensures Ids(exclude + [f.accountId]) == Tried(forwards + [f]) == Tried(forwards) + {f.accountId}
  {
    assert Ids(exclude + [f.accountId]) == Ids(exclude) + {f.accountId};
    forall id | id in Tried(forwards) + {f.accountId} ensures id in Tried(forwards + [f]) {
      if id in Tried(forwards) {
        var g :| g in forwards && g.accountId == id;
        assert g in forwards + [f];
      } else {
        assert f in forwards + [f];
      }
    }
  }

  /** A first route names an enabled, routable member of the token's pool; a forced one names the forced account. */
  lemma FirstRouteIsSelected(req: Request, cfg: Config, a: Attempt)
    requires req.body.Parsed? && FirstRoute(req, cfg, a).Found?
    ensures req.poolId.Some?
    ensures Selected(req, cfg, a, FirstRoute(req, cfg, a).accountId)
    ensures FirstRoute(req, cfg, a).account == a.snap.accounts[FirstRoute(req, cfg, a).accountId]
    ensures req.forced.Some? ==> FirstRoute(req, cfg, a).accountId == req.forced.value
  {
    var q := Query(FirstAsk(req, cfg, a.now), {});
    if req.forced.None? { ResolveVerdicts(a.snap, q, req.poolId.value); }
    assert FirstAsk(req, cfg, a.now) in {FirstAsk(req, cfg, a.now), RetryAsk(req, cfg, a.now)};
  }

  /** A retry route avoids everything tried before. */
  lemma RetryRouteIsSelected(req: Request, cfg: Config, env: nat -> Attempt, forwards: seq<Forward>)
    requires req.body.Parsed? && req.poolId.Some? && forwards != []
    requires RouteAt(req, cfg, env, forwards).Found?
    ensures var r := RouteAt(req, cfg, env, forwards); var a := env(|forwards|);
      && r.accountId !in Tried(forwards)
      && r.accountId in a.snap.accounts && r.account == a.snap.accounts[r.accountId]
      && Selected(req, cfg, a, r.accountId)
  {
    var a := env(|forwards|);
    ResolveVerdicts(a.snap, Query(RetryAsk(req, cfg, a.now), Tried(forwards)), req.poolId.value);
    assert RetryAsk(req, cfg, a.now) in {FirstAsk(req, cfg, a.now), RetryAsk(req, cfg, a.now)};
  }

  lemma AppendIsSound(req: Request, cfg: Config, env: nat -> Attempt, forwards: seq<Forward>, r: Route, f: Forward)
    requires req.body.Parsed? && req.poolId.Some?
    requires ForwardedSoundly(req, cfg, env, forwards)
    requires RoutedSoundly(req, cfg, env, forwards, r) && r.Found? && r.accountId == f.accountId
    requires f.upstream == env(|forwards|).upstream && Pinned(cfg, env(|forwards|), f) && Addressed(env(|forwards|), f)
    requires req.forced.Some? ==> forwards == []
    ensures ForwardedSoundly(req, cfg, env, forwards + [f])
  {
    var all := forwards + [f];
    assert all[..|forwards|] == forwards;
    forall k | 0 <= k < |all| ensures SoundAt(req, cfg, env, all[..k], all[k]) {
      if k < |forwards| { assert all[..k] == forwards[..k] && all[k] == forwards[k]; }
    }
    forall i | 0 <= i < |forwards| ensures all[i].accountId != f.accountId {
      assert forwards[i] in forwards;
    }
  }
}
