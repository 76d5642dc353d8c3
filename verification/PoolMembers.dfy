/** The pool_members table: adding, reordering and loading members, what a reorder means for routing, and why the
    dashboard's count is the router's. */
module PoolMembers {
  import opened Routability
  import opened Router
  import opened Collections

  datatype Row = Row(poolId: int, accountId: int, position: int, enabled: bool)

  function AsMember(id: int, r: Row): Member { Member(id, r.accountId, r.position, r.enabled) }

  ghost predicate InPool(rows: map<int, Row>, poolId: int, id: int) { id in rows && rows[id].poolId == poolId }

  /** UNIQUE(pool_id, account_id). */
  ghost predicate UniqueAccounts(rows: map<int, Row>) {
    forall i, j :: i in rows && j in rows && i != j && rows[i].poolId == rows[j].poolId ==>
      rows[i].accountId != rows[j].accountId
  }

  // ----- The cached sequence -----

  ghost predicate Sorted(s: seq<Member>) { forall i, j :: 0 <= i < j < |s| ==> SeatedBefore(s[i], s[j]) }

  /** The sequence the cache holds for a pool: its rows, sorted by (position, id), and nothing else. */
  ghost predicate Cached(rows: map<int, Row>, poolId: int, s: seq<Member>) {
    && Sorted(s)
    && (forall m :: m in s <==> InPool(rows, poolId, m.id) && m == AsMember(m.id, rows[m.id]))
  }

  function Insert(s: seq<Member>, m: Member): seq<Member> {
    if s == [] then [m]
    else if SeatedBefore(m, s[0]) then [m] + s
    else [s[0]] + Insert(s[1..], m)
  }

  lemma {:induction false} InsertKeepsSorted(s: seq<Member>, m: Member)
    requires Sorted(s) && forall x :: x in s ==> x.id != m.id
    ensures Sorted(Insert(s, m))
    ensures forall x :: x in Insert(s, m) <==> x in s || x == m
  {
    if s != [] && !SeatedBefore(m, s[0]) {
      InsertKeepsSorted(s[1..], m);
      var t := Insert(s[1..], m);
      assert forall x :: x in s <==> x == s[0] || x in s[1..];
      forall j | 0 <= j < |t| ensures SeatedBefore(s[0], t[j]) {
        assert t[j] in t;
        if t[j] != m {
          var k :| 0 <= k < |s[1..]| && s[1..][k] == t[j];
          assert s[k + 1] == t[j];
        } else {
          assert s[0] in s;
        }
      }
    }
  }

  method LoadMembers(rows: map<int, Row>, poolId: int) returns (s: seq<Member>)
    ensures Cached(rows, poolId, s)
  {
    s := [];
    var rest := rows.Keys;
    while rest != {}
      invariant rest <= rows.Keys
      invariant Sorted(s)
      invariant forall m :: m in s <==> InPool(rows, poolId, m.id) && m.id !in rest && m == AsMember(m.id, rows[m.id])
      decreases |rest|
    {
      ghost var some := SomeElement(rest);
      var id :| id in rest;
      if rows[id].poolId == poolId {
        InsertKeepsSorted(s, AsMember(id, rows[id]));
        s := Insert(s, AsMember(id, rows[id]));
      }
      rest := rest - {id};
    }
  }

  lemma HeadsAgree(s: seq<Member>, t: seq<Member>)
    requires Sorted(s) && Sorted(t) && s != [] && t != [] && forall m :: m in s <==> m in t
    ensures s[0] == t[0]
  {
    assert s[0] in t && t[0] in s;
  }

  lemma HasMember(s: seq<Member>)
    requires s != []
    ensures exists m :: m in s
  {
    assert s[0] in s;
  }

  /** The order fixes the sequence. */
  lemma {:induction false} SortedIsUnique(s: seq<Member>, t: seq<Member>)
    requires Sorted(s) && Sorted(t) && forall m :: m in s <==> m in t
    ensures s == t
  {
    if s == [] || t == [] {
      if s != [] { HasMember(s); }
      if t != [] { HasMember(t); }
    } else {
      HeadsAgree(s, t);
      forall m ensures m in s[1..] <==> m in t[1..] {
        assert m in s <==> m == s[0] || m in s[1..];
        assert m in t <==> m == t[0] || m in t[1..];
        assert s[0] !in s[1..] && t[0] !in t[1..];
      }
      SortedIsUnique(s[1..], t[1..]);
    }
  }

  lemma CachedIsUnique(rows: map<int, Row>, poolId: int, s: seq<Member>, t: seq<Member>)
    requires Cached(rows, poolId, s) && Cached(rows, poolId, t)
    ensures s == t
  {
    SortedIsUnique(s, t);
  }

  /** What the router requires of its members is what the table's constraint gives. */
  lemma CachedIsSeated(rows: map<int, Row>, poolId: int, s: seq<Member>)
    requires Cached(rows, poolId, s) && UniqueAccounts(rows)
    ensures Seated(s)
  {
    forall i, j | 0 <= i < j < |s| ensures s[i].accountId != s[j].accountId {
      assert s[i] in s && s[j] in s && SeatedBefore(s[i], s[j]);
      assert s[i].id != s[j].id;
    }
  }

  // ----- The table's writers -----

  /** The positions after the first n statements of a reorder. */
  function Positioned(rows: map<int, Row>, ids: seq<int>, n: nat): (r: map<int, Row>)
    requires n <= |ids| && forall k :: 0 <= k < n ==> ids[k] in rows
    ensures r.Keys == rows.Keys
    ensures forall id :: id in rows ==> r[id] == rows[id].(position := r[id].position)
  {
    if n == 0 then rows
    else
      var before := Positioned(rows, ids, n - 1);
      before[ids[n - 1] := before[ids[n - 1]].(position := n - 1)]
  }

  ghost predicate Distinct(ids: seq<int>) { forall i, j :: 0 <= i < j < |ids| ==> ids[i] != ids[j] }

  lemma {:induction false} PositionedGivesIndex(rows: map<int, Row>, ids: seq<int>, n: nat, k: nat)
    requires k < n <= |ids| && Distinct(ids) && forall i :: 0 <= i < n ==> ids[i] in rows
    ensures Positioned(rows, ids, n)[ids[k]].position == k
  {
    var before := Positioned(rows, ids, n - 1);
    assert Positioned(rows, ids, n) == before[ids[n - 1] := before[ids[n - 1]].(position := n - 1)];
    if k < n - 1 {
      PositionedGivesIndex(rows, ids, n - 1, k);
      assert ids[k] != ids[n - 1];
    }
  }

  function NextPosition(rows: map<int, Row>, poolId: int): (p: int)
    ensures forall id :: id in rows && rows[id].poolId == poolId ==> rows[id].position < p
    ensures p == 0 || exists id :: id in rows && rows[id].poolId == poolId && rows[id].position == p - 1
    decreases |rows|
  {
    // MAX(position) + 1, or 0 for an empty pool
    var positions := set id | id in rows && rows[id].poolId == poolId :: rows[id].position;
    if positions == {} then
      assert forall id :: id in rows && rows[id].poolId == poolId ==> rows[id].position in positions;
      0
    else
      assert forall id :: id in rows && rows[id].poolId == poolId ==> rows[id].position in positions;
      MaxOf(positions) + 1
  }

  class MemberTable {
    var rows: map<int, Row>

    constructor ()
      ensures rows == map[]
    {
      rows := map[];
    }

    /** The row id is chosen by the database. */
    method AddPoolMember(poolId: int, accountId: int, id: int) returns (ok: bool)
      requires id !in rows && UniqueAccounts(rows)
      modifies this
      ensures UniqueAccounts(rows)
      ensures ok <==> forall i :: InPool(old(rows), poolId, i) ==> old(rows)[i].accountId != accountId
      ensures rows == if ok then old(rows)[id := Row(poolId, accountId, NextPosition(old(rows), poolId), true)] else old(rows)
    {
      var position := NextPosition(rows, poolId);
      ok := forall i :: i in rows && rows[i].poolId == poolId ==> rows[i].accountId != accountId;
      assert ok <==> forall i :: InPool(rows, poolId, i) ==> rows[i].accountId != accountId;
      if ok {
        rows := rows[id := Row(poolId, accountId, position, true)];
      }
    }

    /** One transaction: every statement must hit a row of the pool, or none of them counts. */
    method ReorderPoolMembers(poolId: int, ids: seq<int>) returns (ok: bool)
      modifies this
      ensures ok <==> forall k :: 0 <= k < |ids| ==> InPool(old(rows), poolId, ids[k])
      ensures ok ==> rows == Positioned(old(rows), ids, |ids|)
      ensures forall id :: id in old(rows) && id !in ids ==> id in rows && rows[id] == old(rows)[id]
      ensures !ok ==> rows == old(rows)
    {
      var tx := rows;
      var i := 0;
      while i < |ids|
        invariant 0 <= i <= |ids| && rows == old(rows)
        invariant forall k :: 0 <= k < i ==> InPool(rows, poolId, ids[k])
        invariant tx == Positioned(rows, ids, i) && tx.Keys == rows.Keys
        invariant forall id :: id in rows ==> tx[id].poolId == rows[id].poolId && (id !in ids ==> tx[id] == rows[id])
      {
        if ids[i] !in tx || tx[ids[i]].poolId != poolId {
          assert !InPool(rows, poolId, ids[i]);
          return false;
        }
        tx := tx[ids[i] := tx[ids[i]].(position := i)];
        i := i + 1;
      }
      rows := tx;
      return true;
    }
  }

  // ----- What a reorder means -----

  /** The members named by a list of ids, in the order of the list. */
  ghost function Listed(rows: map<int, Row>, ids: seq<int>): seq<Member>
    requires forall k :: 0 <= k < |ids| ==> ids[k] in rows
  {
    seq(|ids|, k requires 0 <= k < |ids| => AsMember(ids[k], rows[ids[k]]))
  }

  ghost predicate NamesPoolOnce(rows: map<int, Row>, poolId: int, ids: seq<int>) {
    Distinct(ids) && forall id :: id in ids <==> InPool(rows, poolId, id)
  }

  /** A reorder naming each member once makes the cached sequence the list itself. */
  lemma ReorderIsTheList(rows: map<int, Row>, poolId: int, ids: seq<int>, s: seq<Member>)
    requires NamesPoolOnce(rows, poolId, ids)
    requires forall k :: 0 <= k < |ids| ==> ids[k] in rows
    requires Cached(Positioned(rows, ids, |ids|), poolId, s)
    ensures s == Listed(Positioned(rows, ids, |ids|), ids)
    ensures |s| == |ids| && forall k :: 0 <= k < |ids| ==> s[k].id == ids[k] && s[k].accountId == rows[ids[k]].accountId
  {
    var after := Positioned(rows, ids, |ids|);
    var list := Listed(after, ids);
    forall k | 0 <= k < |ids| ensures list[k].position == k { PositionedGivesIndex(rows, ids, |ids|, k); }
    forall m ensures m in list <==> InPool(after, poolId, m.id) && m == AsMember(m.id, after[m.id]) {
      if m in list {
        var k :| 0 <= k < |list| && list[k] == m;
        assert ids[k] in ids && InPool(rows, poolId, ids[k]);
      }
      if InPool(after, poolId, m.id) && m == AsMember(m.id, after[m.id]) {
        assert InPool(rows, poolId, m.id);
        var k :| 0 <= k < |ids| && ids[k] == m.id;
        assert list[k] == m;
      }
    }
    CachedIsUnique(after, poolId, s, list);
  }

  /** A member added later lands at the end. */
  lemma AddedLandsLast(rows: map<int, Row>, poolId: int, accountId: int, id: int, s: seq<Member>, t: seq<Member>)
    requires id !in rows && Cached(rows, poolId, s)
    requires Cached(rows[id := Row(poolId, accountId, NextPosition(rows, poolId), true)], poolId, t)
    ensures |t| == |s| + 1 && t[..|s|] == s && t[|s|].id == id && t[|s|].accountId == accountId
  {
    var row := Row(poolId, accountId, NextPosition(rows, poolId), true);
    var after := rows[id := row];
    var grown := s + [AsMember(id, row)];
    forall i | 0 <= i < |s| ensures SeatedBefore(s[i], AsMember(id, row)) { assert s[i] in s; }
    forall m ensures m in grown <==> InPool(after, poolId, m.id) && m == AsMember(m.id, after[m.id]) {
      assert m in grown <==> m in s || m == AsMember(id, row);
    }
    CachedIsUnique(after, poolId, t, grown);
  }

  /** Under `ordered`, routing takes the first candidate of the list, explicit matches before unknown ones. */
  lemma {:induction false} ReorderDecidesRouting(rows: map<int, Row>, poolId: int, ids: seq<int>, snap: Snapshot, q: Query)
    requires NamesPoolOnce(rows, poolId, ids) && UniqueAccounts(rows)
    requires forall k :: 0 <= k < |ids| ==> ids[k] in rows
    requires poolId in snap.pools && snap.pools[poolId] == Pool(true, Ordered)
    requires poolId in snap.members && Cached(Positioned(rows, ids, |ids|), poolId, snap.members[poolId])
    ensures var r := Resolve(snap, q, poolId); var members := snap.members[poolId];
      && |members| == |ids|
      && (r.Found? <==> exists k :: 0 <= k < |ids| && Candidate(snap, q, members[k]))
      && (r.Found? ==>
            exists k :: 0 <= k < |ids| && r.accountId == rows[ids[k]].accountId
                     && Candidate(snap, q, members[k]) && Leads(snap, q, members, k))
  {
    var members := snap.members[poolId];
    var after := Positioned(rows, ids, |ids|);
    ReorderIsTheList(rows, poolId, ids, members);
    CachedIsSeated(after, poolId, members);
    OrderedTakesFirst(snap, q, members);
    assert forall k :: 0 <= k < |ids| ==> members[k] in members;
  }

  /** The ordered search: explicit matches first, then the order of the sequence. */
  lemma OrderedTakesFirst(snap: Snapshot, q: Query, members: seq<Member>)
    requires Seated(members)
    ensures var r := Search(snap, q, members, ORDERED_STAGES);
      && (r.None? <==> forall k :: 0 <= k < |members| ==> !Candidate(snap, q, members[k]))
      && (r.Some? ==> Candidate(snap, q, members[r.value]) && Leads(snap, q, members, r.value))
  {
    SearchIsLeast(snap, q, members, Ordered);
    var r := Search(snap, q, members, ORDERED_STAGES);
    assert forall k :: 0 <= k < |members| ==> members[k] in members;
    if r.Some? {
      forall j | 0 <= j < |members| && j != r.value && Candidate(snap, q, members[j])
        ensures LeadsOver(snap, q, members, r.value, j)
      {
        assert RanksBefore(snap, q.ask, Ordered, members[r.value], members[j]);
        assert j < r.value ==> SeatedBefore(members[j], members[r.value]);
      }
    }
  }

  predicate LeadsOver(snap: Snapshot, q: Query, members: seq<Member>, k: nat, j: nat)
    requires k < |members| && j < |members|
  {
    if MatchRank(snap, q.ask, members[k]) == MatchRank(snap, q.ask, members[j]) then k < j
    else MatchRank(snap, q.ask, members[k]) < MatchRank(snap, q.ask, members[j])
  }

  ghost predicate Leads(snap: Snapshot, q: Query, members: seq<Member>, k: nat)
    requires k < |members|
  {
    forall j :: 0 <= j < |members| && j != k && Candidate(snap, q, members[j]) ==> LeadsOver(snap, q, members, k, j)
  }

  // ----- The dashboard's count -----

  /** What routable_account_count counts: enabled rows of the pool whose account the SQL predicate accepts. */
  ghost function SqlRoutableIds(rows: map<int, Row>, accounts: map<int, Account>, poolId: int, pinning: bool, now: int): set<int> {
    set id | id in rows && rows[id].poolId == poolId && rows[id].enabled
             && rows[id].accountId in accounts && SqlRoutable(accounts[rows[id].accountId], pinning, now)
  }

  function CountAcceptable(snap: Snapshot, q: Query, members: seq<Member>): nat {
    if members == [] then 0
    else CountAcceptable(snap, q, members[..|members| - 1]) + (if Acceptable(snap, q, members[|members| - 1]) then 1 else 0)
  }

  ghost function AcceptableIds(snap: Snapshot, q: Query, members: seq<Member>): set<int> {
    set m | m in members && Acceptable(snap, q, m) :: m.id
  }

  lemma {:induction false} CountIsCardinality(snap: Snapshot, q: Query, members: seq<Member>)
    requires forall i, j :: 0 <= i < j < |members| ==> members[i].id != members[j].id
    ensures CountAcceptable(snap, q, members) == |AcceptableIds(snap, q, members)|
  {
    if members != [] {
      var front, last := members[..|members| - 1], members[|members| - 1];
      CountIsCardinality(snap, q, front);
      assert forall m :: m in members <==> m in front || m == last;
      assert AcceptableIds(snap, q, members) ==
             AcceptableIds(snap, q, front) + (if Acceptable(snap, q, last) then {last.id} else {});
      assert last.id !in AcceptableIds(snap, q, front);
    }
  }

  /** The dashboard's count equals the number of members the router accepts for ordinary traffic. */
  lemma DashboardCountIsRouters(
    rows: map<int, Row>, poolId: int, snap: Snapshot, members: seq<Member>, model: string, pinning: bool, now: int)
    requires Cached(rows, poolId, members)
    requires forall id :: id in snap.accounts ==> Canonical(snap.accounts[id])
    ensures |SqlRoutableIds(rows, snap.accounts, poolId, pinning, now)|
         == CountAcceptable(snap, Query(Ask(model, Options(false, pinning, now)), {}), members)
  {
    var q := Query(Ask(model, Options(false, pinning, now)), {});
    forall i, j | 0 <= i < j < |members| ensures members[i].id != members[j].id {
      assert members[i] in members && members[j] in members && SeatedBefore(members[i], members[j]);
    }
    CountIsCardinality(snap, q, members);
    forall id ensures id in SqlRoutableIds(rows, snap.accounts, poolId, pinning, now) <==> id in AcceptableIds(snap, q, members) {
      if InPool(rows, poolId, id) {
        var m := AsMember(id, rows[id]);
        assert m in members;
        if m.accountId in snap.accounts { SqlAgreesWithGo(snap.accounts[m.accountId], pinning, now); }
      }
    }
    assert SqlRoutableIds(rows, snap.accounts, poolId, pinning, now) == AcceptableIds(snap, q, members);
  }
}
