/** Access tokens: the reconciliation that leaves every pool with exactly one enabled token. */
module Tokens {
  import opened Basics
  import opened Collections

  datatype Token = Token(name: string, value: string, poolId: Option<int>, enabled: bool)
  datatype PoolRow = PoolRow(title: string, priority: int, enabled: bool, policy: string)

  function TokensOf(tokens: map<int, Token>, p: int): set<int> {
    set id | id in tokens && tokens[id].poolId == Some(p)
  }

  function DefaultName(title: string): string {
    if TrimSpace(title) == "" then "pool-token" else TrimSpace(title) + "-token"
  }

  predicate ValueTaken(tokens: map<int, Token>, value: string) { exists id :: id in tokens && tokens[id].value == value }

  // ----- What reconciliation promises -----

  /** Exactly one enabled token, and no token without a pool. */
  ghost predicate Clean(pools: map<int, PoolRow>, tokens: map<int, Token>) {
    && (forall id :: id in tokens ==> tokens[id].poolId.Some?)
    && (forall p :: p in pools ==> exists keep :: TokensOf(tokens, p) == {keep} && tokens[keep].enabled)
  }

  /** Pool p has one enabled token: the one with the lowest id among those it had, its value and name untouched, or
      a new one under the default name when it had none. */
  ghost predicate Settled(title: string, before: map<int, Token>, after: map<int, Token>, p: int, keep: int) {
    && keep in after && TokensOf(after, p) == {keep} && after[keep].enabled
    && (TokensOf(before, p) == {} ==> after[keep].name == if TrimSpace(title) == "" then "pool-token" else TrimSpace(title) + "-token")
    && (TokensOf(before, p) != {} ==>
          && keep == MinOf(TokensOf(before, p))
          && after[keep] == before[keep].(enabled := true))
  }

  ghost predicate HasSettled(title: string, before: map<int, Token>, after: map<int, Token>, p: int) {
    exists keep :: Settled(title, before, after, p, keep)
  }

  /** Tokens of anything but a pool in `done` are as they were; tokens without a pool are gone. */
  ghost predicate Untouched(before: map<int, Token>, after: map<int, Token>, done: set<int>) {
    && (forall id :: id in after ==> after[id].poolId.Some?)
    && (forall id :: id in after && after[id].poolId.value !in done ==> id in before && after[id] == before[id])
    && (forall id :: id in before && before[id].poolId.Some? && before[id].poolId.value !in done ==> id in after && after[id] == before[id])
  }

  ghost predicate Reconciled(pools: map<int, PoolRow>, before: map<int, Token>, after: map<int, Token>) {
    && Untouched(before, after, pools.Keys)
    && (forall p :: p in pools ==> HasSettled(pools[p].title, before, after, p))
  }

  ghost function PoolsWithout(tokens: map<int, Token>, pools: set<int>): set<int> {
    set p | p in pools && TokensOf(tokens, p) == {}
  }

  // ----- The loops -----

  lemma DeleteOne(tokens: map<int, Token>, extras: set<int>, rest: set<int>, id: int)
    requires id in rest && rest <= extras
    ensures (tokens - (extras - rest)) - {id} == tokens - (extras - (rest - {id}))
  {
    assert extras - (rest - {id}) == (extras - rest) + {id};
  }

  /** Deletes the extra tokens of a pool one by one, counting them. */
  method DeleteExtras(tokens: map<int, Token>, extras: set<int>) returns (left: map<int, Token>, deleted: nat)
    requires extras <= tokens.Keys
    ensures left == tokens - extras && deleted == |extras| && |left| + deleted == |tokens|
  {
    left, deleted := tokens, 0;
    var rest := extras;
    while rest != {}
      invariant rest <= extras && left == tokens - (extras - rest) && deleted == |extras| - |rest|
      decreases |rest|
    {
      ghost var some := SomeElement(rest);
      var id :| id in rest;
      DeleteOne(tokens, extras, rest, id);
      left, rest, deleted := left - {id}, rest - {id}, deleted + 1;
    }
    assert extras - rest == extras;
    RemoveAll(tokens, extras);
  }

  /** Only tokens of pool p differ. */
  ghost predicate OthersKept(tx: map<int, Token>, tokens: map<int, Token>, p: int) {
    && (forall id :: id in tx && tx[id].poolId != Some(p) ==> id in tokens && tokens[id] == tx[id])
    && (forall id :: id in tokens && tokens[id].poolId != Some(p) ==> id in tx && tokens[id] == tx[id])
  }

  lemma OthersSame(tx: map<int, Token>, tokens: map<int, Token>, p: int, q: int)
    requires OthersKept(tx, tokens, p) && q != p
    ensures TokensOf(tokens, q) == TokensOf(tx, q)
  {
    forall id ensures id in TokensOf(tokens, q) <==> id in TokensOf(tx, q) {
      if id in tx && tx[id].poolId != Some(p) { assert id in tokens && tokens[id] == tx[id]; }
      if id in tokens && tokens[id].poolId != Some(p) { assert id in tx && tokens[id] == tx[id]; }
    }
  }

  /** Either one token was added, with the generated value, which nobody had; or every token left is an old one with its
      name, value and pool. */
  ghost predicate Issued(tx: map<int, Token>, tokens: map<int, Token>, value: Option<string>, created: nat) {
    if created == 0 then
      forall id :: id in tokens ==> id in tx && tokens[id] == tx[id].(enabled := tokens[id].enabled)
    else
      && created == 1 && value.Some? && !ValueTaken(tx, value.value)
      && exists id :: id !in tx && id in tokens && tokens == tx[id := tokens[id]] && tokens[id].value == value.value
  }

  /** One pool: keep the lowest token and delete the others, or create the default one. `value` is the generated value,
      None when generation fails; a value in use violates the unique index. */
  method SettlePool(tx: map<int, Token>, p: int, title: string, value: Option<string>)
    returns (ok: bool, tokens: map<int, Token>, created: nat, skipped: nat)
    ensures ok ==> OthersKept(tx, tokens, p) && HasSettled(title, tx, tokens, p)
    ensures ok ==> |tokens| + skipped == |tx| + created && created == if TokensOf(tx, p) == {} then 1 else 0
    ensures ok ==> Issued(tx, tokens, value, created)
    ensures TokensOf(tx, p) == {} ==> (ok <==> value.Some? && !ValueTaken(tx, value.value))
    ensures TokensOf(tx, p) != {} ==> ok
  {
    var ids := TokensOf(tx, p);
    if ids == {} {
      if value.None? || ValueTaken(tx, value.value) { return false, tx, 0, 0; }
      var token := Token(DefaultName(title), value.value, Some(p), true);
      tokens := tx[NextId(tx) := token];
      InsertOne(tx, NextId(tx), token);
      CreatedIsAlone(tx, p, NextId(tx), token);
      assert Settled(title, tx, tokens, p, NextId(tx));
      assert NextId(tx) !in tx && tokens == tx[NextId(tx) := tokens[NextId(tx)]];
      return true, tokens, 1, 0;
    }
    var keep := MinOf(ids);
    assert keep in tx;
    var enabled := tx[keep := tx[keep].(enabled := true)];
    UpdateOne(tx, keep, tx[keep].(enabled := true));
    tokens, skipped := DeleteExtras(enabled, ids - {keep});
    KeptIsAlone(tx, p, keep);
    assert Settled(title, tx, tokens, p, keep);
    return true, tokens, 0, skipped;
  }

  lemma CreatedIsAlone(tx: map<int, Token>, p: int, id: int, token: Token)
    requires TokensOf(tx, p) == {} && id !in tx && token.poolId == Some(p)
    ensures TokensOf(tx[id := token], p) == {id} && OthersKept(tx, tx[id := token], p)
  {
    var tokens := tx[id := token];
    forall k ensures k in TokensOf(tokens, p) <==> k == id {
      assert k !in TokensOf(tx, p);
    }
  }

  lemma KeptIsAlone(tx: map<int, Token>, p: int, keep: int)
    requires keep in TokensOf(tx, p)
    ensures var tokens := tx[keep := tx[keep].(enabled := true)] - (TokensOf(tx, p) - {keep});
      keep in tokens && TokensOf(tokens, p) == {keep} && tokens[keep] == tx[keep].(enabled := true) && OthersKept(tx, tokens, p)
  {
    var tokens := tx[keep := tx[keep].(enabled := true)] - (TokensOf(tx, p) - {keep});
    assert keep in tokens;
    forall k ensures k in TokensOf(tokens, p) <==> k == keep {
      assert k in tokens ==> k == keep || k !in TokensOf(tx, p);
    }
  }

  /** The pools in `done` are settled and nothing else has changed. */
  ghost predicate Progress(pools: map<int, PoolRow>, before: map<int, Token>, tokens: map<int, Token>, done: set<int>) {
    && Untouched(before, tokens, done)
    && (forall q :: q in done && q in pools ==> HasSettled(pools[q].title, before, tokens, q))
  }

  lemma Pending(before: map<int, Token>, tx: map<int, Token>, done: set<int>, p: int)
    requires Untouched(before, tx, done) && p !in done
    ensures TokensOf(tx, p) == TokensOf(before, p)
    ensures forall id :: id in TokensOf(tx, p) ==> id in before && tx[id] == before[id]
  {
    forall id ensures id in TokensOf(tx, p) <==> id in TokensOf(before, p) {
      if id in tx && tx[id].poolId == Some(p) { assert id in before; }
      if id in before && before[id].poolId == Some(p) { assert id in tx; }
    }
  }

  lemma StaysSettled(title: string, before: map<int, Token>, tx: map<int, Token>, tokens: map<int, Token>, p: int, q: int)
    requires OthersKept(tx, tokens, p) && q != p && HasSettled(title, before, tx, q)
    ensures HasSettled(title, before, tokens, q)
  {
    var keep :| Settled(title, before, tx, q, keep);
    OthersSame(tx, tokens, p, q);
    assert keep in TokensOf(tokens, q);
    assert Settled(title, before, tokens, q, keep);
  }

  lemma NewlySettled(title: string, before: map<int, Token>, tx: map<int, Token>, tokens: map<int, Token>, done: set<int>, p: int)
    requires Untouched(before, tx, done) && p !in done && HasSettled(title, tx, tokens, p)
    ensures HasSettled(title, before, tokens, p)
  {
    var keep :| Settled(title, tx, tokens, p, keep);
    Pending(before, tx, done, p);
    assert Settled(title, before, tokens, p, keep);
  }

  lemma UntouchedAdvances(before: map<int, Token>, tx: map<int, Token>, tokens: map<int, Token>, done: set<int>, p: int)
    requires Untouched(before, tx, done) && OthersKept(tx, tokens, p)
    ensures Untouched(before, tokens, done + {p})
  {
  }

  lemma Advance(pools: map<int, PoolRow>, before: map<int, Token>, tx: map<int, Token>, tokens: map<int, Token>, done: set<int>, p: int)
    requires Progress(pools, before, tx, done) && p !in done && p in pools
    requires OthersKept(tx, tokens, p) && HasSettled(pools[p].title, tx, tokens, p)
    ensures Progress(pools, before, tokens, done + {p})
  {
    UntouchedAdvances(before, tx, tokens, done, p);
    NewlySettled(pools[p].title, before, tx, tokens, done, p);
    forall q | q in done && q in pools ensures HasSettled(pools[q].title, before, tokens, q) {
      StaysSettled(pools[q].title, before, tx, tokens, p, q);
    }
  }

  lemma PoolsWithoutStep(before: map<int, Token>, done: set<int>, p: int)
    requires p !in done
    ensures |PoolsWithout(before, done + {p})| == |PoolsWithout(before, done)| + if TokensOf(before, p) == {} then 1 else 0
  {
    if TokensOf(before, p) == {} {
      assert PoolsWithout(before, done + {p}) == PoolsWithout(before, done) + {p};
    } else {
      assert PoolsWithout(before, done + {p}) == PoolsWithout(before, done);
    }
  }

  // ----- Token values -----

  ghost predicate UniqueValues(tokens: map<int, Token>) {
    forall i, j :: i in tokens && j in tokens && tokens[i].value == tokens[j].value ==> i == j
  }

  /** One of the first n generated values. */
  ghost predicate Drawn(gen: nat -> Option<string>, n: nat, value: string) { exists k: nat :: k < n && gen(k) == Some(value) }

  ghost predicate OldOrDrawn(before: map<int, Token>, t: Token, id: int, gen: nat -> Option<string>, n: nat) {
    (id in before && t == before[id].(enabled := t.enabled)) || Drawn(gen, n, t.value)
  }

  /** Every token is an old one with its value, or carries a generated value; values stay unique. */
  ghost predicate Fair(before: map<int, Token>, tokens: map<int, Token>, gen: nat -> Option<string>, n: nat) {
    && (forall id :: id in tokens ==> OldOrDrawn(before, tokens[id], id, gen, n))
    && (UniqueValues(before) ==> UniqueValues(tokens))
  }

  lemma StaysFair(before: map<int, Token>, tx: map<int, Token>, tokens: map<int, Token>, gen: nat -> Option<string>, n: nat, made: nat)
    requires Fair(before, tx, gen, n) && Issued(tx, tokens, gen(n), made)
    ensures Fair(before, tokens, gen, n + made)
  {
    forall id | id in tokens ensures OldOrDrawn(before, tokens[id], id, gen, n + made) {
      if id in tx {
        assert OldOrDrawn(before, tx[id], id, gen, n) && tokens[id] == tx[id].(enabled := tokens[id].enabled);
        if Drawn(gen, n, tx[id].value) {
          var k: nat :| k < n && gen(k) == Some(tx[id].value);
          assert k < n + made && gen(k) == Some(tokens[id].value);
        }
      } else {
        assert n < n + made && gen(n) == Some(tokens[id].value);
      }
    }
  }

  /** The generator after its first m values. */
  function Later(gen: nat -> Option<string>, m: nat): nat -> Option<string> { (n: nat) => gen(m + n) }

  /** Two passes that draw from one generator, the second after the first m values. */
  lemma FairTwice(before: map<int, Token>, mid: map<int, Token>, after: map<int, Token>, gen: nat -> Option<string>, m: nat, n: nat)
    requires Fair(before, mid, gen, m) && Fair(mid, after, Later(gen, m), n)
    ensures Fair(before, after, gen, m + n)
  {
    var later := Later(gen, m);
    forall id | id in after ensures OldOrDrawn(before, after[id], id, gen, m + n) {
      assert OldOrDrawn(mid, after[id], id, later, n);
      if Drawn(later, n, after[id].value) {
        var k: nat :| k < n && later(k) == Some(after[id].value);
        assert m + k < m + n && gen(m + k) == Some(after[id].value);
      } else {
        assert OldOrDrawn(before, mid[id], id, gen, m);
        if Drawn(gen, m, mid[id].value) {
          var k: nat :| k < m && gen(k) == Some(mid[id].value);
          assert k < m + n && gen(k) == Some(after[id].value);
        }
      }
    }
  }

  // ----- The loop over the pools -----

  ghost predicate Tally(pools: map<int, PoolRow>, before: map<int, Token>, tokens: map<int, Token>, done: set<int>, created: nat, skipped: nat) {
    && Progress(pools, before, tokens, done)
    && |tokens| + skipped == |before| + created
    && created == |PoolsWithout(before, done)|
  }

  /** One round of the loop over the pools. */
  method SettleNext(pools: map<int, PoolRow>, ghost before: map<int, Token>, tx: map<int, Token>, ghost done: set<int>, p: int,
                    gen: nat -> Option<string>, created: nat, skipped: nat)
    returns (ok: bool, tokens: map<int, Token>, created': nat, skipped': nat)
    requires p in pools && p !in done && Tally(pools, before, tx, done, created, skipped) && Fair(before, tx, gen, created)
    ensures ok ==> Tally(pools, before, tokens, done + {p}, created', skipped') && Fair(before, tokens, gen, created')
    ensures !ok ==> TokensOf(before, p) == {}
  {
    var made, dropped;
    ok, tokens, made, dropped := SettlePool(tx, p, pools[p].title, gen(created));
    Pending(before, tx, done, p);
    created', skipped' := created + made, skipped + dropped;
    if ok {
      Advance(pools, before, tx, tokens, done, p);
      PoolsWithoutStep(before, done, p);
      StaysFair(before, tx, tokens, gen, created, made);
    }
  }

  lemma OrphansGone(pools: map<int, PoolRow>, before: map<int, Token>, orphans: set<int>, gen: nat -> Option<string>)
    requires orphans == set id | id in before && before[id].poolId.None?
    ensures Tally(pools, before, before - orphans, {}, 0, |orphans|) && Fair(before, before - orphans, gen, 0)
  {
    RemoveAll(before, orphans);
    assert PoolsWithout(before, {}) == {};
  }

  lemma TallyIsReconciled(pools: map<int, PoolRow>, before: map<int, Token>, tokens: map<int, Token>, created: nat, skipped: nat)
    requires Tally(pools, before, tokens, pools.Keys, created, skipped)
    ensures Reconciled(pools, before, tokens)
  {
  }

  /** The whole reconciliation, on a working copy the caller drops on failure; `gen` supplies token values. */
  method ReconcilePoolTokens(pools: map<int, PoolRow>, before: map<int, Token>, gen: nat -> Option<string>)
    returns (ok: bool, tokens: map<int, Token>, created: nat, skipped: nat)
    ensures ok ==> Reconciled(pools, before, tokens)
    ensures ok ==> |tokens| + skipped == |before| + created
    ensures ok ==> created == |PoolsWithout(before, pools.Keys)|
    ensures ok ==> Fair(before, tokens, gen, created)
    ensures PoolsWithout(before, pools.Keys) == {} ==> ok
  {
    created, ok := 0, true;
    var orphans := set id | id in before && before[id].poolId.None?;
    tokens, skipped := DeleteExtras(before, orphans);
    OrphansGone(pools, before, orphans, gen);
    var done := {};
    while ok && done != pools.Keys
      invariant done <= pools.Keys
      invariant ok ==> Tally(pools, before, tokens, done, created, skipped) && Fair(before, tokens, gen, created)
      invariant !ok ==> PoolsWithout(before, pools.Keys) != {}
      decreases Remaining(pools.Keys, done), ok
    {
      var p := Lowest(pools.Keys, done);
      ok, tokens, created, skipped := SettleNext(pools, before, tokens, done, p, gen, created, skipped);
      assert !ok ==> p in PoolsWithout(before, pools.Keys);
      done := done + {p};
    }
    if ok { TallyIsReconciled(pools, before, tokens, created, skipped); }
  }

  ghost function Remaining(all: set<int>, done: set<int>): nat { |all - done| }

  /** The next id in ascending order. */
  method Lowest(all: set<int>, done: set<int>) returns (p: int)
    requires done <= all && done != all
    ensures p in all && p !in done && forall q :: q in all && q !in done ==> p <= q
    ensures done + {p} <= all && Remaining(all, done + {p}) < Remaining(all, done)
  {
    ghost var some := SomeElement(all - done);
    p := MinOf(all - done);
    assert all - done == (all - (done + {p})) + {p};
  }

  // ----- Consequences -----

  lemma ReconciledIsClean(pools: map<int, PoolRow>, before: map<int, Token>, after: map<int, Token>)
    requires Reconciled(pools, before, after)
    ensures Clean(pools, after)
  {
    forall p | p in pools ensures exists keep :: TokensOf(after, p) == {keep} && after[keep].enabled {
      var keep :| Settled(pools[p].title, before, after, p, keep);
    }
  }

  lemma CleanNeedsNoToken(pools: map<int, PoolRow>, tokens: map<int, Token>)
    requires Clean(pools, tokens)
    ensures PoolsWithout(tokens, pools.Keys) == {}
  {
    forall p | p in pools ensures TokensOf(tokens, p) != {} {
      var keep :| TokensOf(tokens, p) == {keep} && tokens[keep].enabled;
      assert keep in TokensOf(tokens, p);
    }
  }

  /** Reconciling a clean table changes nothing. */
  lemma CleanIsFixed(pools: map<int, PoolRow>, before: map<int, Token>, after: map<int, Token>)
    requires Clean(pools, before) && Reconciled(pools, before, after)
    ensures after == before
  {
    forall id | id in before ensures id in after && after[id] == before[id] { CleanTokenStays(pools, before, after, id); }
    forall id | id in after ensures id in before { CleanTokenIsOld(pools, before, after, id); }
    assert after.Keys == before.Keys;
  }

  lemma CleanTokenStays(pools: map<int, PoolRow>, before: map<int, Token>, after: map<int, Token>, id: int)
    requires Clean(pools, before) && Reconciled(pools, before, after) && id in before
    ensures id in after && after[id] == before[id]
  {
    var p := before[id].poolId.value;
    if p in pools {
      var kept :| TokensOf(before, p) == {kept} && before[kept].enabled;
      var keep :| Settled(pools[p].title, before, after, p, keep);
      assert id in TokensOf(before, p);
      assert keep == kept && before[id].(enabled := true) == before[id];
    }
  }

  lemma CleanTokenIsOld(pools: map<int, PoolRow>, before: map<int, Token>, after: map<int, Token>, id: int)
    requires Clean(pools, before) && Reconciled(pools, before, after) && id in after
    ensures id in before
  {
    var p := after[id].poolId.value;
    if p in pools {
      CleanNeedsNoToken(pools, before);
      assert p !in PoolsWithout(before, pools.Keys);
      var keep :| Settled(pools[p].title, before, after, p, keep);
      assert id in TokensOf(after, p) && keep in TokensOf(before, p);
    }
  }
}
