/** Deduplication of dispatches, over the runs of the outbox: the recent-delivery check keeps two accepted dispatches
    of one key more than the backoff apart, unless the first row was deleted for want of a subscription before any
    delivery of it was recorded. */
module Dispatch {
  import opened Outbox
  import L = ItemLock

  /** Thread t is busy with a dispatch of the key: between its check and the end of its immediate attempt. */
  ghost predicate Dispatches(s: State, t: nat, key: string) {
    t in s.work &&
    ((s.work[t].Checking? && s.work[t].key == key)
     || exists i :: 0 <= i < |s.accepted| && s.accepted[i].thread == t && s.accepted[i].key == key)
  }

  /** Dispatches of one key do not overlap. */
  ghost predicate Serial(s: State, a: Action) {
    a.CheckRecent? ==> forall t :: !Dispatches(s, t, a.key)
  }

  ghost predicate SerialRun(s: State, actions: seq<Action>)
    requires Valid(s, actions)
    decreases |actions|
  {
    actions == [] || (Serial(s, actions[0]) && SerialRun(Apply(s, actions[0]), actions[1..]))
  }

  // ----- Keys -----

  /** The copy a thread holds of row `id`, if it holds one, carries the key. */
  predicate CopyHas(w: Work, id: int, key: string) {
    && (w.Started? && w.id == id ==> w.item.key == key)
    && ((w.Checked? || w.SentOk? || w.Failing?) && w.id == id ==> w.row.key == key)
  }

  predicate RowHas(s: State, id: int, key: string) { id in s.rows ==> s.rows[id].key == key }

  /** Rows and copies of rows carry the key of their dispatch. */
  ghost predicate KeysAt(s: State, i: int)
    requires 0 <= i < |s.accepted|
  {
    var x := s.accepted[i];
    RowHas(s, x.id, x.key) && forall t :: t in s.work ==> CopyHas(s.work[t], x.id, x.key)
  }

  /** Accepting threads were born, and a thread that is still checking has had nothing accepted. */
  ghost predicate Authors(s: State) {
    && s.work.Keys <= s.born
    && (forall i :: 0 <= i < |s.accepted| ==> s.accepted[i].thread in s.born)
    && (forall t, i :: t in s.work && s.work[t].Checking? && 0 <= i < |s.accepted| ==> s.accepted[i].thread != t)
  }

  ghost predicate DistinctIds(s: State) { forall i, j :: 0 <= i < j < |s.accepted| ==> s.accepted[i].id != s.accepted[j].id }

  ghost predicate Keys(s: State) {
    && Known(s)
    && Authors(s)
    && DistinctIds(s)
    && (forall i :: 0 <= i < |s.accepted| ==> KeysAt(s, i))
  }

  lemma StepKeepsRowKey(s: State, a: Action, id: int, key: string)
    requires Enabled(s, a) && RowHas(s, id, key) && !(a.Accept? && a.id == id)
    ensures RowHas(Apply(s, a), id, key)
  {
  }

  lemma ActorKeepsCopy(s: State, a: Action, t: nat, id: int, key: string)
    requires Enabled(s, a) && RowHas(s, id, key) && (t in s.work ==> CopyHas(s.work[t], id, key)) && !(a.Accept? && a.id == id)
    requires Acts(a, t) && t in Apply(s, a).work
    ensures CopyHas(Apply(s, a).work[t], id, key)
  {
  }

  lemma StepKeepsCopy(s: State, a: Action, t: nat, id: int, key: string)
    requires Enabled(s, a) && RowHas(s, id, key) && (t in s.work ==> CopyHas(s.work[t], id, key)) && !(a.Accept? && a.id == id)
    ensures RowHas(Apply(s, a), id, key)
    ensures t in Apply(s, a).work ==> CopyHas(Apply(s, a).work[t], id, key)
  {
    StepKeepsRowKey(s, a, id, key);
    if !Acts(a, t) {
      OthersRest(s, a, t);
    } else if t in Apply(s, a).work {
      ActorKeepsCopy(s, a, t, id, key);
    }
  }

  lemma StepKeepsKeysAt(s: State, a: Action, i: int)
    requires Enabled(s, a) && 0 <= i < |s.accepted| && KeysAt(s, i)
    ensures KeysAt(Apply(s, a), i)
  {
    var s', x := Apply(s, a), s.accepted[i];
    assert s'.accepted[i] == x && Used(s, x.id);
    forall t: nat ensures RowHas(s', x.id, x.key) && (t in s'.work ==> CopyHas(s'.work[t], x.id, x.key)) {
      StepKeepsCopy(s, a, t, x.id, x.key);
    }
  }

  lemma NewKeysAt(s: State, t: nat, id: int)
    requires Known(s) && Enabled(s, Accept(t, id))
    ensures KeysAt(Apply(s, Accept(t, id)), |s.accepted|)
  {
    assert forall u :: u in s.work && !s.work[u].Checking? ==> Used(s, s.work[u].id);
  }

  lemma CheckingIsOld(s: State, a: Action, t: nat)
    requires Enabled(s, a) && s.work.Keys <= s.born && t in Apply(s, a).work
    ensures t in Apply(s, a).born
    ensures Apply(s, a).work[t].Checking? ==> (a.CheckRecent? && a.t == t && t !in s.born) || (t in s.work && s.work[t].Checking? && !(a.Accept? && a.t == t))
  {
  }

  lemma StepKeepsAuthors(s: State, a: Action)
    requires Authors(s) && Enabled(s, a)
    ensures Authors(Apply(s, a))
  {
    var s' := Apply(s, a);
    assert s.born <= s'.born && s'.accepted == s.accepted + if a.Accept? then [Accepted(a.id, s.work[a.t].key, s.now, a.t, s.work[a.t].unrecorded)] else [];
    forall t | t in s'.work
      ensures t in s'.born && (s'.work[t].Checking? ==> forall i :: 0 <= i < |s'.accepted| ==> s'.accepted[i].thread != t)
    {
      CheckingIsOld(s, a, t);
    }
  }

  lemma StepKeepsDistinctIds(s: State, a: Action)
    requires DistinctIds(s) && Enabled(s, a)
    ensures DistinctIds(Apply(s, a))
  {
    if a.Accept? {
      forall i | 0 <= i < |s.accepted| ensures s.accepted[i].id != a.id { assert !Used(s, a.id); }
    }
  }

  lemma StepKeepsKeys(s: State, a: Action)
    requires Keys(s) && Enabled(s, a)
    ensures Keys(Apply(s, a))
  {
    var s' := Apply(s, a);
    StepKeepsKnown(s, a);
    StepKeepsAuthors(s, a);
    StepKeepsDistinctIds(s, a);
    forall i | 0 <= i < |s'.accepted| ensures KeysAt(s', i) {
      if i < |s.accepted| { StepKeepsKeysAt(s, a, i); } else { NewKeysAt(s, a.t, a.id); }
    }
  }

  // ----- Every accepted dispatch leaves a delivery record -----

  /** A delivery record of that instant is still there, or too old to matter. */
  ghost predicate Evidence(s: State, key: string, at: int) {
    (key, Sec(at)) in s.deliveries || Sec(at) < Sec(s.now - s.cfg.retention)
  }

  predicate Attempting(w: Work, id: int) {
    (w.Started? || w.Queued? || w.Holding? || w.Checked? || w.SentOk? || w.Failing?) && w.id == id
  }

  ghost predicate Recorded(s: State, x: Accepted) {
    x.id in s.delivered && x.at <= s.delivered[x.id] <= s.now && Evidence(s, x.key, s.delivered[x.id])
  }

  /** The record of an accepted dispatch is sound; without one, its row was lost to an unsubscription or its own thread is
      still on the untouched row. */
  ghost predicate Traced(s: State, x: Accepted) {
    && x.at <= s.now
    && (x.id in s.delivered ==> Recorded(s, x))
    && (x.id !in s.delivered ==> x.id in s.forgotten || Underway(s, x))
  }

  lemma EvidenceLasts(s: State, a: Action, key: string, at: int)
    requires Enabled(s, a) && Evidence(s, key, at)
    ensures Evidence(Apply(s, a), key, at)
  {
    var s' := Apply(s, a);
    assert s.now <= s'.now;
  }

  lemma RecordedLasts(s: State, a: Action, i: int)
    requires Keys(s) && Enabled(s, a) && 0 <= i < |s.accepted| && Recorded(s, s.accepted[i])
    requires s.accepted[i].at <= s.now
    ensures Recorded(Apply(s, a), s.accepted[i])
  {
    var x := s.accepted[i];
    EvidenceLasts(s, a, x.key, s.delivered[x.id]);
    assert KeysAt(s, i);
  }

  /** The dispatch's own thread is still on the untouched row. */
  predicate Underway(s: State, x: Accepted) {
    && x.id in s.rows && s.rows[x.id] == Row(x.key, Pending, 0) && x.id !in s.delivered
    && x.thread in s.work && Attempting(s.work[x.thread], x.id)
  }

  /** Only a recording step makes a first record, and it is sound. */
  lemma FirstRecord(s: State, a: Action, x: Accepted)
    requires Enabled(s, a) && x.at <= s.now && x.id !in s.delivered && (Records(a) ==> CopyHas(s.work[a.t], x.id, x.key))
    ensures x.id in Apply(s, a).delivered ==> Records(a) && Recorded(Apply(s, a), x)
  {
    if Records(a) { RecordEffect(s, a); } else { OtherEffect(s, a); }
  }

  /** Recording another row, or finding none, leaves this one as it is. */
  lemma RecordFromUnderway(s: State, a: Action, x: Accepted)
    requires Enabled(s, a) && Records(a) && Underway(s, x)
    ensures x.id in Apply(s, a).delivered || Underway(Apply(s, a), x)
  {
    if s.work[a.t].id != x.id { ForeignRecord(s, a, x); }
  }

  lemma ForeignRecord(s: State, a: Action, x: Accepted)
    requires Enabled(s, a) && Records(a) && Underway(s, x) && s.work[a.t].id != x.id
    ensures Underway(Apply(s, a), x)
  {
    RecordEffect(s, a);
    assert a.t != x.thread;
  }

  lemma OtherFromUnderway(s: State, a: Action, x: Accepted)
    requires Enabled(s, a) && !Records(a) && Underway(s, x) && x.thread in s.born && !(a.Accept? && a.id == x.id)
    ensures x.id in Apply(s, a).forgotten || Underway(Apply(s, a), x)
  {
  }

  lemma StepKeepsTraced(s: State, a: Action, i: int)
    requires Keys(s) && Enabled(s, a) && 0 <= i < |s.accepted| && Traced(s, s.accepted[i])
    ensures Traced(Apply(s, a), s.accepted[i])
  {
    var x := s.accepted[i];
    assert KeysAt(s, i) && Used(s, x.id);
    if x.id in s.delivered {
      RecordedLasts(s, a, i);
    } else {
      FirstRecord(s, a, x);
      if Underway(s, x) {
        if Records(a) { RecordFromUnderway(s, a, x); } else { OtherFromUnderway(s, a, x); }
      }
    }
  }

  // ----- The delivery table speaks of the accepted dispatches -----

  /** Dispatch i is of that key, and its latest record is no older than the listed delivery. */
  ghost predicate Backs(s: State, i: int, d: (string, int)) {
    0 <= i < |s.accepted| && s.accepted[i].key == d.0 && s.accepted[i].id in s.delivered && d.1 <= Sec(s.delivered[s.accepted[i].id])
  }

  ghost predicate Documented(s: State) {
    && (forall i :: 0 <= i < |s.accepted| ==> Traced(s, s.accepted[i]))
    && (forall d :: d in s.deliveries ==> exists i :: Backs(s, i, d))
  }

  predicate Records(a: Action) { a.PreLockFail? || a.RecordFail? || a.RecordSuccess? }

  /** The key that a recording thread writes. */
  function CopyKey(w: Work): string
    requires w.Started? || w.Checked? || w.SentOk? || w.Failing?
  {
    if w.Started? then w.item.key else w.row.key
  }

  /** A recording step enters its own row under the key of its copy, or, finding no row to delete, nothing. */
  lemma RecordEffect(s: State, a: Action)
    requires Enabled(s, a) && Records(a)
    ensures var s' := Apply(s, a); var id := s.work[a.t].id;
      && s'.accepted == s.accepted && s'.now == s.now
      && (|| (s'.delivered == s.delivered && s'.deliveries == s.deliveries)
          || (s'.delivered == s.delivered[id := s.now] && s'.deliveries == s.deliveries + {(CopyKey(s.work[a.t]), Sec(s.now))}))
  {
  }

  lemma OtherEffect(s: State, a: Action)
    requires Enabled(s, a) && !Records(a)
    ensures Apply(s, a).delivered == s.delivered && Apply(s, a).deliveries <= s.deliveries && s.accepted <= Apply(s, a).accepted
  {
  }

  lemma BacksLasts(s: State, a: Action, i: int, d: (string, int))
    requires Enabled(s, a) && Backs(s, i, d) && Traced(s, s.accepted[i])
    ensures Backs(Apply(s, a), i, d)
  {
    if Records(a) { RecordEffect(s, a); } else { OtherEffect(s, a); }
  }

  /** The dispatch behind a new entry of the delivery table. */
  lemma NewIsBacked(s: State, a: Action, d: (string, int)) returns (i: int)
    requires Keys(s) && Enabled(s, a) && d in Apply(s, a).deliveries && d !in s.deliveries
    ensures Backs(Apply(s, a), i, d)
  {
    if !Records(a) { OtherEffect(s, a); }
    RecordEffect(s, a);
    assert Used(s, s.work[a.t].id);
    i :| 0 <= i < |s.accepted| && s.accepted[i].id == s.work[a.t].id;
    assert KeysAt(s, i) && CopyHas(s.work[a.t], s.accepted[i].id, s.accepted[i].key);
  }

  lemma StepKeepsDocumented(s: State, a: Action)
    requires Keys(s) && Documented(s) && Enabled(s, a)
    ensures Documented(Apply(s, a))
  {
    var s' := Apply(s, a);
    forall i | 0 <= i < |s'.accepted| ensures Traced(s', s'.accepted[i]) {
      if i < |s.accepted| { StepKeepsTraced(s, a, i); } else { NewIsTraced(s, a.t, a.id); }
    }
    forall d | d in s'.deliveries ensures exists i :: Backs(s', i, d) {
      if d in s.deliveries {
        var i :| Backs(s, i, d);
        BacksLasts(s, a, i, d);
      } else {
        var i := NewIsBacked(s, a, d);
      }
    }
  }

  lemma NewIsTraced(s: State, t: nat, id: int)
    requires Known(s) && Enabled(s, Accept(t, id))
    ensures var s' := Apply(s, Accept(t, id)); Traced(s', s'.accepted[|s.accepted|])
  {
  }

  lemma {:induction false} RunKeepsDocumented(s: State, actions: seq<Action>)
    requires Keys(s) && Documented(s) && Valid(s, actions)
    ensures Keys(Exec(s, actions)) && Documented(Exec(s, actions)) && Exec(s, actions).cfg == s.cfg
    decreases |actions|
  {
    if actions != [] {
      StepKeepsKeys(s, actions[0]);
      StepKeepsDocumented(s, actions[0]);
      RunKeepsDocumented(Apply(s, actions[0]), actions[1..]);
    }
  }

  /** Pruning removes exactly the deliveries of seconds before the retention. */
  lemma PruningMeans(s: State, d: (string, int))
    ensures d in Apply(s, PruneDeliveries).deliveries <==> d in s.deliveries && d.1 >= (s.now - s.cfg.retention) / 1_000_000_000
    ensures Apply(s, PruneDeliveries) == s.(deliveries := Apply(s, PruneDeliveries).deliveries)
  {
  }

  /** Dispatch i is of the key and its latest record is not older, in whole seconds, than the backoff. */
  ghost predicate RecentlyRecorded(s: State, i: int, key: string) {
    && 0 <= i < |s.accepted| && s.accepted[i].key == key
    && s.accepted[i].id in s.delivered && Sec(s.delivered[s.accepted[i].id]) >= Sec(s.now - s.cfg.backoff)
  }

  lemma RecentIffRecorded(s: State, key: string)
    requires Documented(s) && s.cfg.backoff <= s.cfg.retention
    ensures Recent(s, key) <==> exists i :: RecentlyRecorded(s, i, key)
  {
    if Recent(s, key) {
      var d :| d in s.deliveries && d.0 == key && d.1 >= Sec(s.now - s.cfg.backoff);
      var i :| Backs(s, i, d);
      assert RecentlyRecorded(s, i, key);
    }
    if i :| RecentlyRecorded(s, i, key) {
      assert Traced(s, s.accepted[i]);
      assert Sec(s.now - s.cfg.retention) <= Sec(s.now - s.cfg.backoff);
      assert (key, Sec(s.delivered[s.accepted[i].id])) in s.deliveries;
    }
  }

  /** In every run, overlapping dispatches included, the next dispatch of a key goes through, check and insert, if and
      only if no dispatch of the key was recorded within the backoff and none has an active row. */
  lemma DispatchGoesThroughIff(s: State, actions: seq<Action>, key: string, t: nat, id: int)
    requires Init(s) && s.cfg.backoff <= s.cfg.retention && Valid(s, actions)
    requires t !in Exec(s, actions).born && !Used(Exec(s, actions), id)
    ensures var e := Exec(s, actions);
      Valid(e, [CheckRecent(t, key), Accept(t, id)]) <==>
        && (forall i :: !RecentlyRecorded(e, i, key))
        && (forall r :: r in e.rows && e.rows[r].key == key ==> e.rows[r].status == Dropped)
  {
    InitIsDocumented(s);
    RunKeepsDocumented(s, actions);
    var e := Exec(s, actions);
    RecentIffRecorded(e, key);
    var run := [CheckRecent(t, key), Accept(t, id)];
    assert run[1..] == [Accept(t, id)] && run[1..][1..] == [];
    if Enabled(e, run[0]) {
      var e' := Apply(e, run[0]);
      assert e'.rows == e.rows && e'.accepted == e.accepted && e'.work[t].key == key;
      assert Enabled(e', run[1]) <==> !HasActive(e, key);
      assert Valid(e', run[1..]) <==> Enabled(e', run[1]);
    }
  }

  lemma InitIsDocumented(s: State)
    requires Init(s)
    ensures Keys(s) && Documented(s)
  {
  }

  // ----- The gap -----

  /** A dispatch that passed the check at `tau` is far from every earlier one of its key that was recorded by then. */
  ghost predicate FarFrom(s: State, key: string, tau: int, unrecorded: set<int>) {
    forall i :: 0 <= i < |s.accepted| && s.accepted[i].key == key && s.accepted[i].id !in unrecorded ==>
      tau - s.accepted[i].at > s.cfg.backoff
  }

  ghost predicate ApartAt(s: State, i: int, j: int)
    requires 0 <= i < j < |s.accepted|
  {
    s.accepted[i].id in s.accepted[j].unrecorded || s.accepted[j].at - s.accepted[i].at > s.cfg.backoff
  }

  ghost predicate CheckingOk(s: State, t: nat)
    requires t in s.work && s.work[t].Checking?
  {
    && s.work[t].at <= s.now && s.work[t].unrecorded <= s.forgotten
    && FarFrom(s, s.work[t].key, s.work[t].at, s.work[t].unrecorded)
  }

  ghost predicate Spaced(s: State) {
    && s.cfg.backoff <= s.cfg.retention
    && (forall t :: t in s.work && s.work[t].Checking? ==> CheckingOk(s, t))
    // a checking thread is the only dispatcher of its key
    && (forall t, u :: t in s.work && s.work[t].Checking? && u != t ==> !Dispatches(s, u, s.work[t].key))
    && (forall j :: 0 <= j < |s.accepted| ==> s.accepted[j].unrecorded <= s.forgotten)
    && (forall i, j :: 0 <= i < j < |s.accepted| && s.accepted[i].key == s.accepted[j].key ==> ApartAt(s, i, j))
  }

  /** A check that passes puts every recorded dispatch of the key more than the backoff away, forgotten or not. */
  lemma CheckMeansFar(s: State, key: string)
    requires Documented(s) && s.cfg.backoff <= s.cfg.retention && !Recent(s, key)
    ensures FarFrom(s, key, s.now, Unrecorded(s, key))
  {
    RecentIffRecorded(s, key);
    forall i | 0 <= i < |s.accepted| && s.accepted[i].key == key && s.accepted[i].id !in Unrecorded(s, key)
      ensures s.now - s.accepted[i].at > s.cfg.backoff
    {
      assert !RecentlyRecorded(s, i, key) && Traced(s, s.accepted[i]);
    }
  }

  /** With no dispatch of the key under way, the unrecorded ones lost their rows to an unsubscription. */
  lemma UnrecordedIsForgotten(s: State, key: string)
    requires Documented(s) && forall t :: !Dispatches(s, t, key)
    ensures Unrecorded(s, key) <= s.forgotten
  {
    forall i | 0 <= i < |s.accepted| && s.accepted[i].key == key && s.accepted[i].id !in s.delivered
      ensures s.accepted[i].id in s.forgotten
    {
      assert Traced(s, s.accepted[i]) && !Dispatches(s, s.accepted[i].thread, key);
    }
  }

  /** The actor of a step dispatches a key afterwards only if it did before, or has just checked it. */
  lemma ActorDispatchesBefore(s: State, a: Action, u: nat)
    requires Enabled(s, a) && Acts(a, u) && u in Apply(s, a).work && !a.CheckRecent?
    ensures Apply(s, a).work[u].Checking? ==> u in s.work && s.work[u] == Apply(s, a).work[u]
    ensures u in s.work || (a.Background? && u !in s.born)
  {
  }

  lemma DispatchesBefore(s: State, a: Action, u: nat, key: string)
    requires Keys(s) && Enabled(s, a) && Dispatches(Apply(s, a), u, key)
    ensures Dispatches(s, u, key) || (a.CheckRecent? && a.t == u && a.key == key)
  {
    var s' := Apply(s, a);
    AcceptedGrows(s, a);
    if !Acts(a, u) { OthersRest(s, a, u); } else if !a.CheckRecent? { ActorDispatchesBefore(s, a, u); }
    if !(s'.work[u].Checking? && s'.work[u].key == key) {
      var i :| 0 <= i < |s'.accepted| && s'.accepted[i].thread == u && s'.accepted[i].key == key;
      if i < |s.accepted| { assert s.accepted[i] == s'.accepted[i] && s.accepted[i].thread in s.born; }
    }
  }

  lemma AcceptedGrows(s: State, a: Action)
    requires Enabled(s, a)
    ensures Apply(s, a).accepted
      == s.accepted + if a.Accept? then [Accepted(a.id, s.work[a.t].key, s.now, a.t, s.work[a.t].unrecorded)] else []
  {
  }

  lemma FarFromLasts(s: State, a: Action, key: string, tau: int, unrecorded: set<int>)
    requires Enabled(s, a) && FarFrom(s, key, tau, unrecorded) && (a.Accept? ==> s.work[a.t].key != key)
    ensures FarFrom(Apply(s, a), key, tau, unrecorded) && s.forgotten <= Apply(s, a).forgotten
  {
  }

  lemma CheckStarts(s: State, t: nat, key: string)
    requires Documented(s) && s.cfg.backoff <= s.cfg.retention && Enabled(s, CheckRecent(t, key)) && Serial(s, CheckRecent(t, key))
    ensures CheckingOk(Apply(s, CheckRecent(t, key)), t)
  {
    CheckMeansFar(s, key);
    UnrecordedIsForgotten(s, key);
    FarFromLasts(s, CheckRecent(t, key), key, s.now, Unrecorded(s, key));
  }

  lemma StepKeepsChecking(s: State, a: Action, t: nat)
    requires Keys(s) && Documented(s) && Spaced(s) && Enabled(s, a) && Serial(s, a)
    requires t in Apply(s, a).work && Apply(s, a).work[t].Checking?
    ensures CheckingOk(Apply(s, a), t)
  {
    if a.CheckRecent? && a.t == t {
      CheckStarts(s, t, a.key);
    } else {
      var w := Apply(s, a).work[t];
      if Acts(a, t) { ActorDispatchesBefore(s, a, t); } else { OthersRest(s, a, t); }
      assert t in s.work && s.work[t] == w && CheckingOk(s, t);
      if a.Accept? { assert t != a.t && !Dispatches(s, a.t, w.key); }
      FarFromLasts(s, a, w.key, w.at, w.unrecorded);
    }
  }

  lemma StepKeepsApart(s: State, a: Action, i: int, j: int)
    requires Keys(s) && Spaced(s) && Enabled(s, a)
    requires 0 <= i < j < |Apply(s, a).accepted| && Apply(s, a).accepted[i].key == Apply(s, a).accepted[j].key
    ensures ApartAt(Apply(s, a), i, j)
  {
    AcceptedGrows(s, a);
    assert Apply(s, a).cfg == s.cfg;
    if j == |s.accepted| { assert CheckingOk(s, a.t); } else { assert ApartAt(s, i, j); }
  }

  lemma StepKeepsSoleDispatcher(s: State, a: Action, t: nat, u: nat)
    requires Keys(s) && Spaced(s) && Enabled(s, a) && Serial(s, a)
    requires t in Apply(s, a).work && Apply(s, a).work[t].Checking? && u != t
    ensures !Dispatches(Apply(s, a), u, Apply(s, a).work[t].key)
  {
    var key := Apply(s, a).work[t].key;
    if Dispatches(Apply(s, a), u, key) {
      DispatchesBefore(s, a, u, key);
      assert !(a.CheckRecent? && a.t == t) ==> Dispatches(s, t, key);
      assert false;
    }
  }

  lemma StepKeepsLost(s: State, a: Action, j: int)
    requires Spaced(s) && Enabled(s, a) && 0 <= j < |Apply(s, a).accepted|
    ensures Apply(s, a).accepted[j].unrecorded <= Apply(s, a).forgotten
  {
    if j == |s.accepted| { assert CheckingOk(s, a.t); }
    assert s.forgotten <= Apply(s, a).forgotten;
  }

  lemma StepKeepsSpaced(s: State, a: Action)
    requires Keys(s) && Documented(s) && Spaced(s) && Enabled(s, a) && Serial(s, a)
    ensures Spaced(Apply(s, a))
  {
    var s' := Apply(s, a);
    forall t | t in s'.work && s'.work[t].Checking? ensures CheckingOk(s', t) { StepKeepsChecking(s, a, t); }
    forall t, u | t in s'.work && s'.work[t].Checking? && u != t ensures !Dispatches(s', u, s'.work[t].key) {
      StepKeepsSoleDispatcher(s, a, t, u);
    }
    forall j | 0 <= j < |s'.accepted| ensures s'.accepted[j].unrecorded <= s'.forgotten { StepKeepsLost(s, a, j); }
    forall i, j | 0 <= i < j < |s'.accepted| && s'.accepted[i].key == s'.accepted[j].key ensures ApartAt(s', i, j) {
      StepKeepsApart(s, a, i, j);
    }
  }

  lemma {:induction false} RunKeepsSpaced(s: State, actions: seq<Action>)
    requires Keys(s) && Documented(s) && Spaced(s) && Valid(s, actions) && SerialRun(s, actions)
    ensures Spaced(Exec(s, actions))
    decreases |actions|
  {
    if actions != [] {
      StepKeepsKeys(s, actions[0]);
      StepKeepsDocumented(s, actions[0]);
      StepKeepsSpaced(s, actions[0]);
      RunKeepsSpaced(Apply(s, actions[0]), actions[1..]);
    }
  }

  /** Two accepted dispatches of one key are more than the backoff apart, whatever was sent, retried, dropped or pruned in
      between, unless no delivery of the first had been recorded when the second passed its check; and then the first
      had lost its row to an unsubscription. */
  lemma DispatchesAreApart(s: State, actions: seq<Action>, i: int, j: int)
    requires Init(s) && s.cfg.backoff <= s.cfg.retention && Valid(s, actions) && SerialRun(s, actions)
    requires 0 <= i < j < |Exec(s, actions).accepted|
    requires Exec(s, actions).accepted[i].key == Exec(s, actions).accepted[j].key
    ensures var e := Exec(s, actions);
      && (e.accepted[i].id !in e.accepted[j].unrecorded ==> e.accepted[j].at - e.accepted[i].at > e.cfg.backoff)
      && e.accepted[j].unrecorded <= e.forgotten
  {
    InitIsDocumented(s);
    RunKeepsSpaced(s, actions);
    assert ApartAt(Exec(s, actions), i, j);
  }

  lemma PrependSerial(s: State, a: Action, rest: seq<Action>)
    requires Enabled(s, a) && Serial(s, a) && Valid(Apply(s, a), rest) && SerialRun(Apply(s, a), rest)
    ensures Valid(s, [a] + rest) && SerialRun(s, [a] + rest) && Exec(s, [a] + rest) == Exec(Apply(s, a), rest)
  {
    assert ([a] + rest)[1..] == rest;
  }

  lemma {:induction false} SerialConcat(s: State, first: seq<Action>, second: seq<Action>)
    requires Valid(s, first) && SerialRun(s, first)
    requires Valid(Exec(s, first), second) && SerialRun(Exec(s, first), second)
    ensures Valid(s, first + second) && SerialRun(s, first + second)
    ensures Exec(s, first + second) == Exec(Exec(s, first), second)
    decreases |first|
  {
    if first == [] {
      assert first + second == second;
    } else {
      SerialConcat(Apply(s, first[0]), first[1..], second);
      assert (first + second)[1..] == first[1..] + second;
    }
  }

  lemma TakeLock(s: State, t: nat, id: int) returns (s': State)
    requires s.work == map[t := Started(id, Row("k", Pending, 0))] && s.lock == L.INITIAL
    ensures Enabled(s, Acquire(t, 0)) && Enabled(Apply(s, Acquire(t, 0)), Enter(t))
    ensures s' == Apply(Apply(s, Acquire(t, 0)), Enter(t))
    ensures s' == s.(work := map[t := Holding(id)],
                     lock := L.State(map[id := 0], map[0 := 1], map[0 := t], map[t := L.Inside(id, 0)]))
  {
    var s1 := Apply(s, Acquire(t, 0));
    assert s1.lock == L.State(map[id := 0], map[0 := 1], map[], map[t := L.Waiting(id, 0)]);
    assert s1.work == map[t := Queued(id)];
    s' := Apply(s1, Enter(t));
    assert s'.work == map[t := Holding(id)];
  }

  lemma LockAndFindNothing(s: State, t: nat, id: int) returns (actions: seq<Action>, s': State)
    requires s.work == map[t := Started(id, Row("k", Pending, 0))] && id !in s.rows && s.lock == L.INITIAL
    ensures Valid(s, actions) && SerialRun(s, actions) && s' == Exec(s, actions)
    ensures s' == s.(work := map[t := Finished(id)], lock := s'.lock)
    ensures s'.lock == L.State(map[id := 0], map[0 := 1], map[0 := t], map[t := L.Inside(id, 0)])
  {
    var s2 := TakeLock(s, t, id);
    s' := Apply(s2, ReadRow(t));
    PrependSerial(s2, ReadRow(t), []);
    PrependSerial(Apply(s, Acquire(t, 0)), Enter(t), [ReadRow(t)]);
    PrependSerial(s, Acquire(t, 0), [Enter(t)] + [ReadRow(t)]);
    actions := [Acquire(t, 0)] + ([Enter(t)] + [ReadRow(t)]);
  }

  lemma UnlockAndLeave(s: State, t: nat, id: int) returns (actions: seq<Action>, s': State)
    requires s.work == map[t := Finished(id)]
    requires s.lock == L.State(map[id := 0], map[0 := 1], map[0 := t], map[t := L.Inside(id, 0)])
    ensures Valid(s, actions) && SerialRun(s, actions) && s' == Exec(s, actions)
    ensures s' == s.(work := map[], lock := s'.lock)
  {
    var s1 := Apply(s, Exit(t));
    assert s1.lock.threads[t] == L.Leaving(id, 0) && s1.lock.refs == map[0 := 1];
    s' := Apply(s1, Release(t));
    PrependSerial(s1, Release(t), []);
    PrependSerial(s, Exit(t), [Release(t)]);
    actions := [Exit(t)] + [Release(t)];
    assert s'.work == map[];
  }

  /** An attempt whose row is gone takes the lock, finds nothing, and leaves everything but the lock table as it was. */
  lemma FruitlessAttempt(s: State, t: nat, id: int) returns (actions: seq<Action>, s': State)
    requires s.work == map[t := Started(id, Row("k", Pending, 0))] && id !in s.rows && s.lock == L.INITIAL
    ensures Valid(s, actions) && SerialRun(s, actions) && s' == Exec(s, actions)
    ensures s' == s.(work := map[], lock := s'.lock)
  {
    var first, mid := LockAndFindNothing(s, t, id);
    var second, end := UnlockAndLeave(mid, t, id);
    SerialConcat(s, first, second);
    actions, s' := first + second, end;
  }

  /** A dispatch of "k" in a state without deliveries, rows or busy threads is accepted. */
  lemma DispatchAccepted(s: State, t: nat, id: int) returns (actions: seq<Action>, s': State)
    requires s.work == map[] && s.rows == map[] && s.deliveries == {} && t !in s.born && !Used(s, id)
    ensures Valid(s, actions) && SerialRun(s, actions) && s' == Exec(s, actions)
    ensures s' == s.(work := map[t := Started(id, Row("k", Pending, 0))], rows := map[id := Row("k", Pending, 0)],
                     born := s.born + {t}, accepted := s.accepted + [Accepted(id, "k", s.now, t, Unrecorded(s, "k"))])
  {
    var s1 := Apply(s, CheckRecent(t, "k"));
    s' := Apply(s1, Accept(t, id));
    PrependSerial(s1, Accept(t, id), []);
    PrependSerial(s, CheckRecent(t, "k"), [Accept(t, id)]);
    actions := [CheckRecent(t, "k")] + [Accept(t, id)];
    assert s'.rows == map[id := Row("k", Pending, 0)];
  }

  /** The exception is real: unsubscribing between the insert and the first attempt deletes the row without a delivery
      record, and the next dispatch of the key is accepted at once. */
  lemma UnsubscriptionForgets(s: State) returns (actions: seq<Action>)
    requires Init(s) && s.cfg.backoff > 0
    ensures Valid(s, actions) && SerialRun(s, actions)
    ensures var e := Exec(s, actions);
      |e.accepted| == 2 && e.accepted[0].key == e.accepted[1].key && e.accepted[1].at == e.accepted[0].at
  {
    var start, s1 := DispatchAccepted(s, 0, 1);
    var s2 := Apply(s1, DropUnsubscribed(1));
    PrependSerial(s1, DropUnsubscribed(1), []);
    var drop := [DropUnsubscribed(1)] + [];
    SerialConcat(s, start, drop);
    var tried, s3 := FruitlessAttempt(s2, 0, 1);
    SerialConcat(s, start + drop, tried);
    assert s3.rows == map[];
    var again, s4 := DispatchAccepted(s3, 1, 2);
    SerialConcat(s, start + drop + tried, again);
    actions := start + drop + tried + again;
  }
}
