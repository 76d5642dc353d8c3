/** The per-item locks of the notification outbox: a map from item id to a reference-counted mutex, shared by any
    number of threads. Each action is what one thread does while it holds `locksMu`, or one operation on an item mutex. */
module ItemLock {
  import opened Collections

  /** Where a thread that is not idle stands, with the item and the lock object it got for it. */
  datatype Place =
    | Waiting(id: int, lk: nat)    // reference taken, mutex not yet acquired
    | Inside(id: int, lk: nat)     // holding the item mutex
    | Leaving(id: int, lk: nat)    // mutex released, reference not yet dropped

  datatype State = State(
    locks: map<int, nat>,          // item id -> lock object
    refs: map<nat, nat>,           // reference count of every lock object ever allocated
    holder: map<nat, nat>,         // lock object -> thread holding its mutex
    threads: map<nat, Place>)      // threads that are not idle

  const INITIAL := State(map[], map[], map[], map[])

  datatype Action =
    | Acquire(t: nat, id: int, newLk: nat)
    | Enter(t: nat)
    | Exit(t: nat)
    | Release(t: nat)

  predicate Enabled(s: State, a: Action) {
    match a
    case Acquire(t, id, newLk) =>
      t !in s.threads && newLk !in s.refs && (id in s.locks ==> s.locks[id] in s.refs)
    case Enter(t) => t in s.threads && s.threads[t].Waiting? && s.threads[t].lk !in s.holder
    case Exit(t) => t in s.threads && s.threads[t].Inside?
    case Release(t) =>
      t in s.threads && s.threads[t].Leaving? && s.threads[t].lk in s.refs && s.refs[s.threads[t].lk] > 0
  }

  function Apply(s: State, a: Action): State
    requires Enabled(s, a)
  {
    match a
    case Acquire(t, id, newLk) =>
      var lk := if id in s.locks then s.locks[id] else newLk;
      var count := if id in s.locks then s.refs[lk] else 0;
      s.(locks := s.locks[id := lk], refs := s.refs[lk := count + 1], threads := s.threads[t := Waiting(id, lk)])
    case Enter(t) =>
      var p := s.threads[t];
      s.(holder := s.holder[p.lk := t], threads := s.threads[t := Inside(p.id, p.lk)])
    case Exit(t) =>
      var p := s.threads[t];
      s.(holder := s.holder - {p.lk}, threads := s.threads[t := Leaving(p.id, p.lk)])
    case Release(t) =>
      var p := s.threads[t];
      var left: nat := s.refs[p.lk] - 1;
      s.(locks := if left == 0 then s.locks - {p.id} else s.locks,
         refs := s.refs[p.lk := left],
         threads := s.threads - {t})
  }

  /** The threads between the acquisition and the release of a lock object. */
  ghost function Users(s: State, lk: nat): set<nat> { set t | t in s.threads && s.threads[t].lk == lk }

  /** Every busy thread uses the lock object that the map names for its item. */
  ghost predicate ThreadsOk(s: State) {
    forall t :: t in s.threads ==> s.threads[t].id in s.locks && s.locks[s.threads[t].id] == s.threads[t].lk
  }

  /** The map holds live lock objects, and no lock object serves two items. */
  ghost predicate LocksOk(s: State) {
    && (forall id :: id in s.locks ==> s.locks[id] in s.refs && s.refs[s.locks[id]] > 0)
    && (forall i, j :: i in s.locks && j in s.locks && s.locks[i] == s.locks[j] ==> i == j)
  }

  /** A mutex is held by the one thread inside. */
  ghost predicate MutexOk(s: State) {
    && (forall lk :: lk in s.holder ==>
          s.holder[lk] in s.threads && s.threads[s.holder[lk]].Inside? && s.threads[s.holder[lk]].lk == lk)
    && (forall t :: t in s.threads && s.threads[t].Inside? ==>
          s.threads[t].lk in s.holder && s.holder[s.threads[t].lk] == t)
  }

  ghost predicate Shape(s: State) { ThreadsOk(s) && LocksOk(s) && MutexOk(s) }

  /** References count users. */
  ghost predicate Counted(s: State) { forall lk :: lk in s.refs ==> s.refs[lk] == |Users(s, lk)| }

  ghost predicate Inv(s: State) { Shape(s) && Counted(s) }

  /** How one action changes the users of each lock object. */
  lemma UsersChange(s: State, a: Action, lk: nat)
    requires Enabled(s, a)
    ensures var s' := Apply(s, a);
      Users(s', lk) ==
        match a
        case Acquire(t, _, _) => if s'.threads[t].lk == lk then Users(s, lk) + {t} else Users(s, lk)
        case Release(t) => if s.threads[t].lk == lk then Users(s, lk) - {t} else Users(s, lk)
        case _ => Users(s, lk)
  {
  }

  lemma NewLockHasNoUsers(s: State, lk: nat)
    requires Inv(s) && lk !in s.refs
    ensures Users(s, lk) == {}
  {
  }

  lemma StepKeepsRefs(s: State, a: Action)
    requires Inv(s) && Enabled(s, a)
    ensures Counted(Apply(s, a))
  {
    var s' := Apply(s, a);
    forall lk | lk in s'.refs ensures s'.refs[lk] == |Users(s', lk)| {
      UsersChange(s, a, lk);
      if lk !in s.refs { NewLockHasNoUsers(s, lk); }
      if a.Release? { assert s.threads[a.t].lk == lk ==> a.t in Users(s, lk); }
      if a.Acquire? { assert a.t !in Users(s, lk); }
    }
  }

  lemma AcquireKeepsLocks(s: State, t: nat, id: int, newLk: nat)
    requires LocksOk(s) && Enabled(s, Acquire(t, id, newLk))
    ensures LocksOk(Apply(s, Acquire(t, id, newLk)))
  {
    assert forall i :: i in s.locks ==> s.locks[i] != newLk;
  }

  lemma AcquireKeepsThreads(s: State, t: nat, id: int, newLk: nat)
    requires ThreadsOk(s) && Enabled(s, Acquire(t, id, newLk))
    ensures ThreadsOk(Apply(s, Acquire(t, id, newLk)))
  {
  }

  lemma AcquireKeepsMutex(s: State, t: nat, id: int, newLk: nat)
    requires MutexOk(s) && Enabled(s, Acquire(t, id, newLk))
    ensures MutexOk(Apply(s, Acquire(t, id, newLk)))
  {
    var s' := Apply(s, Acquire(t, id, newLk));
    assert s'.holder == s.holder;
    assert forall u :: u in s'.threads && s'.threads[u].Inside? ==> u in s.threads && s'.threads[u] == s.threads[u];
  }

  lemma AcquireKeepsShape(s: State, t: nat, id: int, newLk: nat)
    requires Shape(s) && Enabled(s, Acquire(t, id, newLk))
    ensures Shape(Apply(s, Acquire(t, id, newLk)))
  {
    AcquireKeepsLocks(s, t, id, newLk);
    AcquireKeepsThreads(s, t, id, newLk);
    AcquireKeepsMutex(s, t, id, newLk);
  }

  lemma EnterKeepsShape(s: State, t: nat)
    requires Shape(s) && Enabled(s, Enter(t))
    ensures Shape(Apply(s, Enter(t)))
  {
    var s' := Apply(s, Enter(t));
    forall lk | lk in s'.holder
      ensures s'.holder[lk] in s'.threads && s'.threads[s'.holder[lk]].Inside? && s'.threads[s'.holder[lk]].lk == lk
    {
      assert lk in s.holder ==> s.holder[lk] != t;
    }
  }

  lemma ExitKeepsShape(s: State, t: nat)
    requires Shape(s) && Enabled(s, Exit(t))
    ensures Shape(Apply(s, Exit(t)))
  {
    var s' := Apply(s, Exit(t));
    forall lk | lk in s'.holder
      ensures s'.holder[lk] in s'.threads && s'.threads[s'.holder[lk]].Inside? && s'.threads[s'.holder[lk]].lk == lk
    {
      assert lk in s.holder && s.holder[lk] != t;
    }
  }

  /** Releasing deletes the entry only when nobody else uses the item. */
  lemma ReleaseKeepsThreads(s: State, t: nat)
    requires ThreadsOk(s) && LocksOk(s) && Counted(s) && Enabled(s, Release(t))
    ensures ThreadsOk(Apply(s, Release(t)))
  {
    var s', p := Apply(s, Release(t)), s.threads[t];
    forall u | u in s'.threads ensures s'.threads[u].id in s'.locks && s'.locks[s'.threads[u].id] == s'.threads[u].lk {
      assert u in s.threads && u != t;
      if s.threads[u].id == p.id { TwoUsers(s, t, u); }
    }
  }

  lemma TwoUsers(s: State, t: nat, u: nat)
    requires ThreadsOk(s) && LocksOk(s) && Counted(s) && t in s.threads && u in s.threads && t != u && s.threads[t].id == s.threads[u].id
    ensures s.threads[t].lk in s.refs && s.refs[s.threads[t].lk] >= 2
  {
    var users := Users(s, s.threads[t].lk);
    assert {t, u} <= users;
    assert |users| >= |{t, u}| by { assert users == {t, u} + (users - {t, u}); }
  }

  lemma ReleaseKeepsLocks(s: State, t: nat)
    requires ThreadsOk(s) && LocksOk(s) && Enabled(s, Release(t))
    ensures LocksOk(Apply(s, Release(t)))
  {
    assert s.locks[s.threads[t].id] == s.threads[t].lk;
  }

  lemma ReleaseKeepsMutex(s: State, t: nat)
    requires MutexOk(s) && Enabled(s, Release(t))
    ensures MutexOk(Apply(s, Release(t)))
  {
    var s' := Apply(s, Release(t));
    assert s'.holder == s.holder;
    assert forall u :: u in s'.threads ==> u in s.threads && s'.threads[u] == s.threads[u];
  }

  lemma ReleaseKeepsShape(s: State, t: nat)
    requires Inv(s) && Enabled(s, Release(t))
    ensures Shape(Apply(s, Release(t)))
  {
    ReleaseKeepsThreads(s, t);
    ReleaseKeepsLocks(s, t);
    ReleaseKeepsMutex(s, t);
  }

  lemma StepKeepsInv(s: State, a: Action)
    requires Inv(s) && Enabled(s, a)
    ensures Inv(Apply(s, a))
  {
    StepKeepsRefs(s, a);
    match a
    case Acquire(t, id, newLk) => AcquireKeepsShape(s, t, id, newLk);
    case Release(t) => ReleaseKeepsShape(s, t);
    case Enter(t) => EnterKeepsShape(s, t);
    case Exit(t) => ExitKeepsShape(s, t);
  }

  /** An action of the protocol never gets stuck on the map: releasing always finds a positive count. */
  lemma ReleaseIsEnabled(s: State, t: nat)
    requires Inv(s) && t in s.threads && s.threads[t].Leaving?
    ensures Enabled(s, Release(t))
  {
    assert t in Users(s, s.threads[t].lk);
  }

  /** A thread that waits for an item enters as soon as nobody is inside. */
  lemma WaiterCanEnter(s: State, t: nat)
    requires Inv(s) && t in s.threads && s.threads[t].Waiting?
    ensures Enabled(s, Enter(t)) <==> forall u :: u in s.threads && s.threads[u].Inside? ==> s.threads[u].id != s.threads[t].id
  {
    var lk := s.threads[t].lk;
    if lk in s.holder {
      var u := s.holder[lk];
      assert u in s.threads && s.locks[s.threads[u].id] == s.locks[s.threads[t].id];
    }
    forall u | u in s.threads && s.threads[u].Inside? && s.threads[u].id == s.threads[t].id ensures lk in s.holder {
      assert s.locks[s.threads[u].id] == s.threads[u].lk;
    }
  }

  /** What the four steps do to the thread and to the mutex of its item. */
  lemma StepsMove(s: State, a: Action)
    requires Enabled(s, a)
    ensures var s' := Apply(s, a);
      && (a.Acquire? ==> a.t in s'.threads && s'.threads[a.t].Waiting? && s'.threads[a.t].id == a.id)
      && (a.Enter? ==> s'.threads[a.t].Inside? && s'.threads[a.t].id == s.threads[a.t].id)
      && (a.Exit? ==> s'.threads[a.t].Leaving? && s'.threads[a.t].id == s.threads[a.t].id)
      && (a.Release? ==> a.t !in s'.threads)
      && (forall u :: u != a.t ==> (u in s'.threads <==> u in s.threads) && (u in s.threads ==> s'.threads[u] == s.threads[u]))
  {
  }

  // ----- Every run -----

  ghost predicate Valid(s: State, actions: seq<Action>)
    decreases |actions|
  {
    actions == [] || (Enabled(s, actions[0]) && Valid(Apply(s, actions[0]), actions[1..]))
  }

  ghost function Exec(s: State, actions: seq<Action>): State
    requires Valid(s, actions)
    decreases |actions|
  {
    if actions == [] then s else Exec(Apply(s, actions[0]), actions[1..])
  }

  lemma {:induction false} RunKeepsInv(s: State, actions: seq<Action>)
    requires Inv(s) && Valid(s, actions)
    ensures Inv(Exec(s, actions))
    decreases |actions|
  {
    if actions != [] {
      StepKeepsInv(s, actions[0]);
      RunKeepsInv(Apply(s, actions[0]), actions[1..]);
    }
  }

  lemma InitialInv()
    ensures Inv(INITIAL)
  {
  }

  lemma MutualExclusion(s: State, t: nat, u: nat)
    requires Inv(s) && t in s.threads && u in s.threads
    requires s.threads[t].Inside? && s.threads[u].Inside? && s.threads[t].id == s.threads[u].id
    ensures t == u
  {
  }

  /** An entry of the map counts the threads busy with its item, and there is at least one. */
  lemma EntryCountsThreads(s: State, id: int)
    requires Inv(s) && id in s.locks
    ensures s.locks[id] in s.refs && s.refs[s.locks[id]] > 0
    ensures s.refs[s.locks[id]] == |BusyWith(s, id)|
    ensures BusyWith(s, id) != {}
  {
    assert Users(s, s.locks[id]) == BusyWith(s, id);
  }

  ghost function BusyWith(s: State, id: int): set<nat> { set t | t in s.threads && s.threads[t].id == id }

  /** What the protocol promises of a state. */
  ghost predicate Promise(s: State) {
    // no two threads inside the critical section of one item
    && (forall t, u :: t in s.threads && u in s.threads && s.threads[t].Inside? && s.threads[u].Inside? ==>
          s.threads[t].id == s.threads[u].id ==> t == u)
    // the count is the number of threads between acquire and release; the entry exists exactly while it is positive
    && (forall id :: id in s.locks ==> s.locks[id] in s.refs && s.refs[s.locks[id]] == |BusyWith(s, id)|)
    && (forall id :: id in s.locks <==> BusyWith(s, id) != {})
    // an idle outbox keeps no locks
    && (s.threads == map[] <==> s.locks == map[])
  }

  lemma InvPromises(s: State)
    requires Inv(s)
    ensures Promise(s)
  {
    forall id | id in s.locks
      ensures s.locks[id] in s.refs && s.refs[s.locks[id]] == |BusyWith(s, id)| && BusyWith(s, id) != {}
    {
      EntryCountsThreads(s, id);
    }
    forall id | BusyWith(s, id) != {} ensures id in s.locks {
      var t :| t in BusyWith(s, id);
    }
    NoThreadsNoLocks(s);
  }

  lemma NoThreadsNoLocks(s: State)
    requires Inv(s)
    ensures s.threads == map[] <==> s.locks == map[]
  {
    if s.locks.Keys != {} {
      var id := SomeElement(s.locks.Keys);
      EntryCountsThreads(s, id);
      var t := SomeElement(BusyWith(s, id));
      assert t in s.threads;
    }
    if s.threads.Keys != {} {
      var t := SomeElement(s.threads.Keys);
      assert s.threads[t].id in s.locks;
    }
  }

  /** In every state that any interleaving reaches. */
  lemma LockProtocol(actions: seq<Action>)
    requires Valid(INITIAL, actions)
    ensures Promise(Exec(INITIAL, actions))
  {
    RunKeepsInv(INITIAL, actions);
    InvPromises(Exec(INITIAL, actions));
  }
}
