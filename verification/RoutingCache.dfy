/** The versioned routing cache under concurrency: writers change the database and then invalidate; readers take a
    read-locked fast path or reload table by table under the write lock. Every step below is one atomic action of
    one goroutine, and a run is any interleaving of them. */
module RoutingCache {
  import opened Basics

  // The queries of one reload, in the order in which they are issued.
  datatype Table = Accounts | Diagnostics | Pools | Members | Models | Tokens | Settings | Services

  const LOAD_ORDER: seq<Table> := [Accounts, Diagnostics, Pools, Members, Models, Tokens, Settings, Services]

  // The contents of one table.
  type Value

  /** The contents of every table. */
  type Database = Table -> Value

  /** A loaded table: what the query returned and the moment (number of commits so far) at which it ran. A failed query
      leaves the table empty in the snapshot; failed diagnostics instead mark every account as not loaded. */
  datatype Loaded = Read(value: Value, at: nat) | QueryFailed

  type Snapshot = map<Table, Loaded>

  /** Where one call of Get stands. */
  datatype Phase =
    | Called                                       // before the counter is loaded
    | Sampled(seen: nat)                           // counter loaded, before RLock
    | Reading(seen: nat)                           // holding the read lock
    | Missed                                       // read lock released after a miss, before Lock
    | Locked                                       // holding the write lock, before the second load
    | Loading(seen: nat, partial: Snapshot, next: nat)  // reloading, `next` queries done
    | Done(result: Snapshot)

  datatype State = State(
    history: seq<Database>,       // history[i] is the database after i commits
    pending: set<nat>,            // commits whose Invalidate has not run yet
    counter: nat,                 // dbVer
    version: nat,                 // version of the stored snapshot
    snapshot: Option<Snapshot>,
    readers: set<nat>,            // calls holding the read lock
    writer: Option<nat>,          // the call holding the write lock
    calls: map<nat, Phase>)       // every call of Get so far

  predicate Init(s: State) {
    && |s.history| == 1 && s.pending == {} && s.counter == 1 && s.version == 0 && s.snapshot.None?
    && s.readers == {} && s.writer.None? && s.calls == map[]
  }

  datatype Action =
    | Commit(db: Database)                // a database write
    | Invalidate(published: set<nat>)     // Invalidate, run after the writes it publishes
    | Begin(g: nat)                       // a call of Get
    | Sample(g: nat)
    | RLock(g: nat)
    | Check(g: nat)                       // compare under the read lock, then release it
    | Lock(g: nat)
    | Recheck(g: nat)                     // second load of the counter under the write lock
    | Query(g: nat, fails: bool)          // one query of the reload
    | Store(g: nat)                       // publish the snapshot, release the write lock

  predicate Enabled(s: State, a: Action) {
    match a
    case Commit(_) => true
    case Invalidate(published) => published <= s.pending
    case Begin(g) => g !in s.calls
    case Sample(g) => g in s.calls && s.calls[g].Called?
    case RLock(g) => g in s.calls && s.calls[g].Sampled? && s.writer.None?
    case Check(g) => g in s.calls && s.calls[g].Reading?
    case Lock(g) => g in s.calls && s.calls[g].Missed? && s.writer.None? && s.readers == {}
    case Recheck(g) => g in s.calls && s.calls[g].Locked?
    case Query(g, _) => g in s.calls && s.calls[g].Loading? && s.calls[g].next < |LOAD_ORDER|
    case Store(g) => g in s.calls && s.calls[g].Loading? && s.calls[g].next == |LOAD_ORDER|
  }

  ghost predicate Step(s: State, a: Action, s': State) {
    Enabled(s, a) &&
    match a
    case Commit(db) =>
      s' == s.(history := s.history + [db], pending := s.pending + {|s.history|})
    case Invalidate(published) =>
      s' == s.(counter := s.counter + 1, pending := s.pending - published)
    case Begin(g) =>
      s' == s.(calls := s.calls[g := Called])
    case Sample(g) =>
      s' == s.(calls := s.calls[g := Sampled(s.counter)])
    case RLock(g) =>
      s' == s.(readers := s.readers + {g}, calls := s.calls[g := Reading(s.calls[g].seen)])
    case Check(g) =>
      var hit := s.version == s.calls[g].seen && s.snapshot.Some?;
      s' == s.(readers := s.readers - {g}, calls := s.calls[g := if hit then Done(s.snapshot.value) else Missed])
    case Lock(g) =>
      s' == s.(writer := Some(g), calls := s.calls[g := Locked])
    case Recheck(g) =>
      if s.version == s.counter && s.snapshot.Some? then
        s' == s.(writer := None, calls := s.calls[g := Done(s.snapshot.value)])
      else
        s' == s.(calls := s.calls[g := Loading(s.counter, map[], 0)])
    case Query(g, fails) =>
      var p := s.calls[g];
      var t := LOAD_ORDER[p.next];
      var now := |s.history| - 1;
      |s.history| > 0 &&
      s' == s.(calls := s.calls[g := Loading(
                 p.seen, p.partial[t := if fails then QueryFailed else Read(s.history[now](t), now)], p.next + 1)])
    case Store(g) =>
      var p := s.calls[g];
      s' == s.(snapshot := Some(p.partial), version := p.seen, writer := None, calls := s.calls[g := Done(p.partial)])
  }

  ghost predicate Run(states: seq<State>, actions: seq<Action>) {
    && |states| == |actions| + 1
    && Init(states[0])
    && forall i :: 0 <= i < |actions| ==> StepAt(states, actions, i)
  }

  ghost predicate StepAt(states: seq<State>, actions: seq<Action>, i: nat)
    requires i < |actions| && i + 1 < |states|
  {
    Step(states[i], actions[i], states[i + 1])
  }

  // ----- Invariants of every reachable state -----

  /** Every entry was read from the database of its moment. */
  ghost predicate Genuine(s: State, snap: Snapshot) {
    forall t :: t in snap && snap[t].Read? ==>
      snap[t].at < |s.history| && snap[t].value == s.history[snap[t].at](t)
  }

  ghost predicate Complete(snap: Snapshot) { forall t: Table :: t in snap }

  /** The first n tables of the load order are present. */
  ghost predicate LoadedUpTo(snap: Snapshot, n: nat) {
    n <= |LOAD_ORDER| && forall i :: 0 <= i < n ==> LOAD_ORDER[i] in snap
  }

  ghost predicate PhaseOk(s: State, g: nat) {
    && g in s.calls
    && match s.calls[g]
       case Called => true
       case Sampled(seen) => seen <= s.counter
       case Reading(seen) => seen <= s.counter && g in s.readers
       case Missed => true
       case Locked => s.writer == Some(g)
       case Loading(seen, partial, next) =>
         s.version <= seen <= s.counter && s.writer == Some(g) && LoadedUpTo(partial, next) && Genuine(s, partial)
       case Done(result) => Complete(result) && Genuine(s, result)
  }

  ghost predicate Inv(s: State) {
    && |s.history| > 0
    && s.version <= s.counter
    && (forall w :: w in s.pending ==> 0 < w < |s.history|)
    && (s.snapshot.Some? ==> Complete(s.snapshot.value) && Genuine(s, s.snapshot.value))
    && (forall g :: g in s.calls ==> PhaseOk(s, g))
    && (s.writer.Some? ==>
          && s.readers == {} && s.writer.value in s.calls
          && (s.calls[s.writer.value].Locked? || s.calls[s.writer.value].Loading?))
    && (forall g :: g in s.readers ==> g in s.calls && s.calls[g].Reading?)
  }

  lemma LoadOrderCovers(snap: Snapshot)
    requires LoadedUpTo(snap, |LOAD_ORDER|)
    ensures Complete(snap)
  {
    assert LOAD_ORDER[0] == Accounts && LOAD_ORDER[1] == Diagnostics && LOAD_ORDER[2] == Pools && LOAD_ORDER[3] == Members;
    assert LOAD_ORDER[4] == Models && LOAD_ORDER[5] == Tokens && LOAD_ORDER[6] == Settings && LOAD_ORDER[7] == Services;
    forall t: Table ensures t in snap {
      match t
      case Accounts => case Diagnostics => case Pools => case Members =>
      case Models => case Tokens => case Settings => case Services =>
    }
  }

  /** The steps of the reload, which the writer takes alone. */
  predicate Reloads(a: Action) { a.Recheck? || a.Query? || a.Store? }

  /** Entries stay genuine as the history grows. */
  lemma GenuineStays(s: State, a: Action, s': State, snap: Snapshot)
    requires Step(s, a, s') && Genuine(s, snap)
    ensures Genuine(s', snap)
  {
    assert forall i :: 0 <= i < |s.history| ==> s'.history[i] == s.history[i];
  }

  lemma ReloadKeepsPhase(s: State, a: Action, s': State, g: nat)
    requires Inv(s) && Step(s, a, s') && Reloads(a) && g in s'.calls
    ensures PhaseOk(s', g)
  {
    assert g in s.calls && PhaseOk(s, g) && PhaseOk(s, a.g);
    if a.Store? { LoadOrderCovers(s.calls[a.g].partial); }
  }

  lemma OtherStepKeepsPhase(s: State, a: Action, s': State, g: nat)
    requires Inv(s) && Step(s, a, s') && !Reloads(a) && g in s'.calls
    ensures PhaseOk(s', g)
  {
    if g in s.calls {
      assert PhaseOk(s, g);
      if s.calls[g].Loading? { GenuineStays(s, a, s', s.calls[g].partial); }
      if s.calls[g].Done? { GenuineStays(s, a, s', s.calls[g].result); }
    }
    if s.snapshot.Some? { GenuineStays(s, a, s', s.snapshot.value); }
  }

  lemma StepKeepsPhase(s: State, a: Action, s': State, g: nat)
    requires Inv(s) && Step(s, a, s') && g in s'.calls
    ensures PhaseOk(s', g)
  {
    if Reloads(a) { ReloadKeepsPhase(s, a, s', g); } else { OtherStepKeepsPhase(s, a, s', g); }
  }

  lemma StepKeepsSnapshot(s: State, a: Action, s': State)
    requires Inv(s) && Step(s, a, s') && s'.snapshot.Some?
    ensures Complete(s'.snapshot.value) && Genuine(s', s'.snapshot.value)
  {
    if a.Store? {
      assert PhaseOk(s, a.g);
      LoadOrderCovers(s.calls[a.g].partial);
      GenuineStays(s, a, s', s.calls[a.g].partial);
    } else {
      GenuineStays(s, a, s', s.snapshot.value);
    }
  }

  lemma StepKeepsLocks(s: State, a: Action, s': State)
    requires Inv(s) && Step(s, a, s')
    ensures s'.version <= s'.counter
    ensures forall g :: g in s'.readers ==> g in s'.calls && s'.calls[g].Reading?
    ensures s'.writer.Some? ==>
      && s'.readers == {} && s'.writer.value in s'.calls
      && (s'.calls[s'.writer.value].Locked? || s'.calls[s'.writer.value].Loading?)
  {
    assert forall g :: g in s.calls ==> PhaseOk(s, g);
  }

  lemma StepKeepsInv(s: State, a: Action, s': State)
    requires Inv(s) && Step(s, a, s')
    ensures Inv(s')
  {
    forall g | g in s'.calls ensures PhaseOk(s', g) { StepKeepsPhase(s, a, s', g); }
    if s'.snapshot.Some? { StepKeepsSnapshot(s, a, s'); }
    StepKeepsLocks(s, a, s');
  }

  // ----- Freshness -----

  /** Every table that `snap` holds was read at or after moment w. */
  ghost predicate NoOlderThan(snap: Snapshot, w: nat) {
    forall t :: t in snap && snap[t].Read? ==> snap[t].at >= w
  }

  /** Commit w is published: it happened and its Invalidate has completed. */
  predicate Published(s: State, w: nat) { 0 < w < |s.history| && w !in s.pending }

  /** Counter value c fences off everything older than commit w. */
  ghost predicate Fence(s: State, w: nat, c: nat) {
    && w < |s.history| && c <= s.counter
    && (s.version >= c && s.snapshot.Some? ==> NoOlderThan(s.snapshot.value, w))
    && (forall g :: g in s.calls && s.calls[g].Loading? && s.calls[g].seen >= c ==> NoOlderThan(s.calls[g].partial, w))
  }

  lemma {:induction false} RunKeepsInv(states: seq<State>, actions: seq<Action>, i: nat)
    requires Run(states, actions) && i < |states|
    ensures Inv(states[i])
  {
    if i > 0 {
      assert StepAt(states, actions, i - 1);
      RunKeepsInv(states, actions, i - 1);
      StepKeepsInv(states[i - 1], actions[i - 1], states[i]);
    }
  }

  lemma StepKeepsFence(s: State, a: Action, s': State, w: nat, c: nat)
    requires Inv(s) && Step(s, a, s') && Fence(s, w, c)
    ensures Fence(s', w, c)
  {
    forall g | g in s'.calls && s'.calls[g].Loading? && s'.calls[g].seen >= c ensures NoOlderThan(s'.calls[g].partial, w) {
      if g in s.calls { assert PhaseOk(s, g); }
    }
  }

  /** Publishing a commit raises its fence: the counter moves past every version stored or being loaded. */
  lemma {:induction false} PublishedIsFenced(states: seq<State>, actions: seq<Action>, i: nat, w: nat) returns (c: nat)
    requires Run(states, actions) && i < |states| && Published(states[i], w)
    ensures Fence(states[i], w, c)
  {
    assert i > 0 && StepAt(states, actions, i - 1);
    var s, a, s' := states[i - 1], actions[i - 1], states[i];
    RunKeepsInv(states, actions, i - 1);
    if Published(s, w) {
      c := PublishedIsFenced(states, actions, i - 1, w);
      StepKeepsFence(s, a, s', w, c);
    } else {
      assert a.Invalidate? && w in a.published;
      c := s'.counter;
      assert forall g :: g in s.calls ==> PhaseOk(s, g);
    }
  }

  /** A call that began behind the fence carries only counter values and snapshots at or past it. */
  ghost predicate CallFresh(s: State, g: nat, w: nat, c: nat) {
    g in s.calls ==>
      match s.calls[g]
      case Sampled(seen) => seen >= c
      case Reading(seen) => seen >= c
      case Loading(seen, _, _) => seen >= c
      case Done(result) => NoOlderThan(result, w)
      case _ => true
  }

  lemma StepKeepsCallFresh(s: State, a: Action, s': State, g: nat, w: nat, c: nat)
    requires Inv(s) && Step(s, a, s') && Fence(s, w, c) && CallFresh(s, g, w, c)
    ensures Fence(s', w, c) && CallFresh(s', g, w, c)
  {
    StepKeepsFence(s, a, s', w, c);
    if g in s.calls { assert PhaseOk(s, g); }
  }

  lemma CallFreshNext(states: seq<State>, actions: seq<Action>, i: nat, g: nat, w: nat, c: nat)
    requires Run(states, actions) && i + 1 < |states| && Fence(states[i], w, c) && CallFresh(states[i], g, w, c)
    ensures Fence(states[i + 1], w, c) && CallFresh(states[i + 1], g, w, c)
  {
    assert StepAt(states, actions, i);
    RunKeepsInv(states, actions, i);
    StepKeepsCallFresh(states[i], actions[i], states[i + 1], g, w, c);
  }

  lemma {:induction false} CallStaysFresh(
    states: seq<State>, actions: seq<Action>, i: nat, j: nat, g: nat, w: nat, c: nat)
    requires Run(states, actions) && i <= j < |states|
    requires Fence(states[i], w, c) && g !in states[i].calls
    ensures Fence(states[j], w, c) && CallFresh(states[j], g, w, c)
    decreases j
  {
    if i < j {
      CallStaysFresh(states, actions, i, j - 1, g, w, c);
      CallFreshNext(states, actions, j - 1, g, w, c);
    }
  }

  /** Freshness, over every interleaving: a Get that begins after the Invalidate of commit w has completed returns a
      snapshot in which every table either failed to load or holds the database contents of a moment at or after w. */
  lemma GetIsFresh(states: seq<State>, actions: seq<Action>, i: nat, j: nat, g: nat, w: nat)
    requires Run(states, actions) && i <= j < |states|
    requires g !in states[i].calls && Published(states[i], w)
    requires g in states[j].calls && states[j].calls[g].Done?
    ensures forall t: Table ::
      var result := states[j].calls[g].result;
      t in result &&
      (result[t].Read? ==>
         w <= result[t].at < |states[j].history| && result[t].value == states[j].history[result[t].at](t))
  {
    var c := PublishedIsFenced(states, actions, i, w);
    CallStaysFresh(states, actions, i, j, g, w, c);
    RunKeepsInv(states, actions, j);
    assert PhaseOk(states[j], g);
  }

  // ----- Monotone reads -----

  /** Wherever both hold a table, `newer` read it no earlier than `older` did. */
  ghost predicate Follows(newer: Snapshot, older: Snapshot) {
    forall t :: t in newer && t in older && newer[t].Read? && older[t].Read? ==> newer[t].at >= older[t].at
  }

  /** The stored snapshot follows every returned one, and the one being loaded follows both. */
  ghost predicate Monotone(s: State) {
    && (forall d :: d in s.calls && s.calls[d].Done? && s.snapshot.Some? ==> Follows(s.snapshot.value, s.calls[d].result))
    && (forall d :: d in s.calls && s.calls[d].Done? ==> s.snapshot.Some?)
    && (forall l :: l in s.calls && s.calls[l].Loading? && s.snapshot.Some? ==> Follows(s.calls[l].partial, s.snapshot.value))
    && (forall l, d :: l in s.calls && d in s.calls && s.calls[l].Loading? && s.calls[d].Done? ==>
          Follows(s.calls[l].partial, s.calls[d].result))
  }

  /** A query runs at the latest moment, so the partial snapshot keeps following whatever it followed. */
  lemma QueryFollows(s: State, g: nat, fails: bool, s': State, older: Snapshot)
    requires Inv(s) && Step(s, Query(g, fails), s') && Genuine(s, older) && Follows(s.calls[g].partial, older)
    ensures Follows(s'.calls[g].partial, older)
  {
  }

  lemma StepKeepsMonotone(s: State, a: Action, s': State)
    requires Inv(s) && Monotone(s) && Step(s, a, s')
    ensures Monotone(s')
  {
    forall l | l in s'.calls && s'.calls[l].Loading?
      ensures s'.snapshot.Some? ==> Follows(s'.calls[l].partial, s'.snapshot.value)
    {
      LoadingFollows(s, a, s', l);
    }
    forall d | d in s'.calls && s'.calls[d].Done?
      ensures s'.snapshot.Some? && Follows(s'.snapshot.value, s'.calls[d].result)
    {
      StoredFollows(s, a, s', d);
    }
    forall l, d | l in s'.calls && d in s'.calls && s'.calls[l].Loading? && s'.calls[d].Done?
      ensures Follows(s'.calls[l].partial, s'.calls[d].result)
    {
      LoadingFollowsDone(s, a, s', l, d);
    }
  }

  lemma LoadingFollows(s: State, a: Action, s': State, l: nat)
    requires Inv(s) && Monotone(s) && Step(s, a, s') && l in s'.calls && s'.calls[l].Loading?
    ensures s'.snapshot.Some? ==> Follows(s'.calls[l].partial, s'.snapshot.value)
  {
    assert forall g :: g in s.calls ==> PhaseOk(s, g);
    if a.Query? && a.g == l && s.snapshot.Some? { QueryFollows(s, l, a.fails, s', s.snapshot.value); }
  }

  lemma StoredFollows(s: State, a: Action, s': State, d: nat)
    requires Inv(s) && Monotone(s) && Step(s, a, s') && d in s'.calls && s'.calls[d].Done?
    ensures s'.snapshot.Some? && Follows(s'.snapshot.value, s'.calls[d].result)
  {
  }

  lemma LoadingFollowsDone(s: State, a: Action, s': State, l: nat, d: nat)
    requires Inv(s) && Monotone(s) && Step(s, a, s')
    requires l in s'.calls && d in s'.calls && s'.calls[l].Loading? && s'.calls[d].Done?
    ensures Follows(s'.calls[l].partial, s'.calls[d].result)
  {
    assert l in s.calls && d in s.calls && PhaseOk(s, l) && PhaseOk(s, d);
    if a.Query? && a.g == l {
      assert s'.calls[d] == s.calls[d];
      QueryFollows(s, l, a.fails, s', s.calls[d].result);
    }
  }

  lemma {:induction false} RunKeepsMonotone(states: seq<State>, actions: seq<Action>, i: nat)
    requires Run(states, actions) && i < |states|
    ensures Monotone(states[i])
  {
    if i > 0 {
      assert StepAt(states, actions, i - 1);
      RunKeepsMonotone(states, actions, i - 1);
      RunKeepsInv(states, actions, i - 1);
      StepKeepsMonotone(states[i - 1], actions[i - 1], states[i]);
    }
  }

  lemma FollowsNext(states: seq<State>, actions: seq<Action>, k: nat, first: nat, second: nat)
    requires Run(states, actions) && k + 1 < |states| && first in states[k].calls && states[k].calls[first].Done? && first != second
    requires second in states[k].calls && states[k].calls[second].Done? ==>
      Follows(states[k].calls[second].result, states[k].calls[first].result)
    ensures first in states[k + 1].calls && states[k + 1].calls[first] == states[k].calls[first]
    ensures second in states[k + 1].calls && states[k + 1].calls[second].Done? ==>
      Follows(states[k + 1].calls[second].result, states[k].calls[first].result)
  {
    assert StepAt(states, actions, k);
    RunKeepsMonotone(states, actions, k);
    SecondFollowsFirst(states[k], actions[k], states[k + 1], first, second);
  }

  /** A Get that begins after another one returned never goes back in time, table by table. */
  lemma {:induction false} ReadsAreMonotone(states: seq<State>, actions: seq<Action>, i: nat, j: nat, first: nat, second: nat)
    requires Run(states, actions) && i <= j < |states|
    requires first in states[i].calls && states[i].calls[first].Done?
    requires second !in states[i].calls
    ensures first in states[j].calls && states[j].calls[first] == states[i].calls[first]
    ensures second in states[j].calls && states[j].calls[second].Done? ==>
              Follows(states[j].calls[second].result, states[i].calls[first].result)
    decreases j
  {
    if i < j {
      ReadsAreMonotone(states, actions, i, j - 1, first, second);
      FollowsNext(states, actions, j - 1, first, second);
    }
  }

  lemma SecondFollowsFirst(s: State, a: Action, s': State, first: nat, second: nat)
    requires Monotone(s) && Step(s, a, s') && first in s.calls && s.calls[first].Done? && first != second
    requires second in s.calls && s.calls[second].Done? ==> Follows(s.calls[second].result, s.calls[first].result)
    ensures first in s'.calls && s'.calls[first] == s.calls[first]
    ensures second in s'.calls && s'.calls[second].Done? ==> Follows(s'.calls[second].result, s.calls[first].result)
  {
  }

  /** The stored version never runs ahead of the counter, and a call holding the write lock is alone. */
  lemma VersionBehindCounter(states: seq<State>, actions: seq<Action>, i: nat)
    requires Run(states, actions) && i < |states|
    ensures states[i].version <= states[i].counter
    ensures states[i].writer.Some? ==> states[i].readers == {}
  {
    RunKeepsInv(states, actions, i);
  }

  // ----- A failed query is cached like any other result -----

  ghost predicate NoInvalidate(actions: seq<Action>, i: nat, j: nat)
    requires i <= j <= |actions|
  {
    forall k :: i <= k < j ==> !actions[k].Invalidate?
  }

  /** The stored snapshot is current and nobody is replacing it; call g, if it has begun, can only return it. */
  ghost predicate Kept(s: State, snap: Snapshot, g: nat) {
    && s.version == s.counter && s.snapshot == Some(snap)
    && (forall l :: l in s.calls ==> !s.calls[l].Loading?)
    && (g in s.calls ==>
          && (s.calls[g].Sampled? || s.calls[g].Reading? ==> s.calls[g].seen == s.version)
          && (s.calls[g].Done? ==> s.calls[g].result == snap))
  }

  lemma StepKeepsKept(s: State, a: Action, s': State, snap: Snapshot, g: nat)
    requires Step(s, a, s') && !a.Invalidate? && Kept(s, snap, g)
    ensures Kept(s', snap, g)
  {
  }

  lemma StoreIsKept(s: State, l: nat, s': State, g: nat)
    requires Inv(s) && Step(s, Store(l), s') && s'.version == s'.counter && g !in s'.calls
    ensures Kept(s', s.calls[l].partial, g)
  {
    assert PhaseOk(s, l);
    forall m | m in s'.calls ensures !s'.calls[m].Loading? { assert m in s.calls && PhaseOk(s, m); }
  }

  lemma {:induction false} StaysKept(states: seq<State>, actions: seq<Action>, i: nat, j: nat, snap: Snapshot, g: nat)
    requires Run(states, actions) && i <= j < |states| && Kept(states[i], snap, g) && NoInvalidate(actions, i, j)
    ensures Kept(states[j], snap, g)
    decreases j
  {
    if i < j {
      assert StepAt(states, actions, j - 1);
      StaysKept(states, actions, i, j - 1, snap, g);
      StepKeepsKept(states[j - 1], actions[j - 1], states[j], snap, g);
    }
  }

  /** A reload that no Invalidate overtook is what every later Get returns until the next Invalidate, tables whose query
      failed included: they stay failed that long, whatever is committed meanwhile. */
  lemma FailedLoadIsCached(states: seq<State>, actions: seq<Action>, i: nat, j: nat, l: nat, g: nat)
    requires Run(states, actions) && i < j < |states| && actions[i] == Store(l)
    requires states[i + 1].version == states[i + 1].counter && NoInvalidate(actions, i + 1, j)
    requires g !in states[i + 1].calls && g in states[j].calls && states[j].calls[g].Done?
    ensures l in states[i].calls && states[i].calls[l].Loading?
    ensures states[j].calls[g].result == states[i].calls[l].partial
  {
    RunKeepsInv(states, actions, i);
    assert StepAt(states, actions, i);
    StoreIsKept(states[i], l, states[i + 1], g);
    StaysKept(states, actions, i + 1, j, states[i].calls[l].partial, g);
  }

  /** While the stored snapshot is current and no writer is about, a Get returns it under the read lock alone. */
  lemma CurrentIsReadOnly(s: State, g: nat, s1: State, s2: State, s3: State, s4: State)
    requires s.version == s.counter && s.snapshot.Some?
    requires Step(s, Begin(g), s1) && Step(s1, Sample(g), s2) && Step(s2, RLock(g), s3) && Step(s3, Check(g), s4)
    ensures s4.calls[g] == Done(s.snapshot.value) && s4.writer == s.writer && s4.snapshot == s.snapshot && s4.readers == s.readers - {g}
  {
  }

  // ----- Where each table of a snapshot comes from -----

  /** Before moment i of the run, call l issued its query for table t, and it failed or not as `fails` says. */
  ghost predicate Queried(states: seq<State>, actions: seq<Action>, i: nat, l: nat, t: Table, fails: bool)
    requires i <= |actions| < |states|
  {
    exists k: nat :: k < i && QueriedAt(states[k], actions[k], l, t, fails)
  }

  ghost predicate QueriedAt(s: State, a: Action, l: nat, t: Table, fails: bool) {
    && a == Query(l, fails) && l in s.calls && s.calls[l].Loading?
    && s.calls[l].next < |LOAD_ORDER| && LOAD_ORDER[s.calls[l].next] == t
  }

  /** Each table of the snapshot is missing exactly where the query of call l failed, and read where it succeeded. */
  ghost predicate Sourced(states: seq<State>, actions: seq<Action>, i: nat, l: nat, snap: Snapshot)
    requires i <= |actions| < |states|
  {
    forall t :: t in snap ==> Queried(states, actions, i, l, t, snap[t].QueryFailed?)
  }

  /** Call l stored the snapshot before moment i, and its queries are what the snapshot holds. */
  ghost predicate StoredBy(states: seq<State>, actions: seq<Action>, i: nat, l: nat, snap: Snapshot)
    requires i <= |actions| < |states|
  {
    && Sourced(states, actions, i, l, snap)
    && exists m: nat :: m < i && actions[m] == Store(l) && l in states[m].calls && states[m].calls[l].Loading? && states[m].calls[l].partial == snap
  }

  ghost predicate HasSource(states: seq<State>, actions: seq<Action>, i: nat, snap: Snapshot)
    requires i <= |actions| < |states|
  {
    exists l :: StoredBy(states, actions, i, l, snap)
  }

  ghost predicate SourcesKnown(states: seq<State>, actions: seq<Action>, i: nat)
    requires i <= |actions| < |states|
  {
    && (forall l :: l in states[i].calls && states[i].calls[l].Loading? ==> Sourced(states, actions, i, l, states[i].calls[l].partial))
    && (states[i].snapshot.Some? ==> HasSource(states, actions, i, states[i].snapshot.value))
    && (forall g :: g in states[i].calls && states[i].calls[g].Done? ==> HasSource(states, actions, i, states[i].calls[g].result))
  }

  lemma SourcedStays(states: seq<State>, actions: seq<Action>, i: nat, l: nat, snap: Snapshot)
    requires i < |actions| < |states| && Sourced(states, actions, i, l, snap)
    ensures Sourced(states, actions, i + 1, l, snap)
  {
    forall t | t in snap ensures Queried(states, actions, i + 1, l, t, snap[t].QueryFailed?) {
      assert Queried(states, actions, i, l, t, snap[t].QueryFailed?);
    }
  }

  lemma SourceStays(states: seq<State>, actions: seq<Action>, i: nat, snap: Snapshot)
    requires i < |actions| < |states| && HasSource(states, actions, i, snap)
    ensures HasSource(states, actions, i + 1, snap)
  {
    var l :| StoredBy(states, actions, i, l, snap);
    SourcedStays(states, actions, i, l, snap);
    assert StoredBy(states, actions, i + 1, l, snap);
  }

  lemma LoadingStaysSourced(states: seq<State>, actions: seq<Action>, i: nat, l: nat)
    requires Run(states, actions) && i < |actions| && SourcesKnown(states, actions, i)
    requires l in states[i + 1].calls && states[i + 1].calls[l].Loading?
    ensures Sourced(states, actions, i + 1, l, states[i + 1].calls[l].partial)
  {
    assert StepAt(states, actions, i);
    var s, a, s' := states[i], actions[i], states[i + 1];
    var snap := s'.calls[l].partial;
    if l in s.calls && s.calls[l].Loading? {
      SourcedStays(states, actions, i, l, s.calls[l].partial);
      if a.Query? && a.g == l {
        var now := LOAD_ORDER[s.calls[l].next];
        forall t | t in snap ensures Queried(states, actions, i + 1, l, t, snap[t].QueryFailed?) {
          if t == now { assert QueriedAt(states[i], actions[i], l, t, snap[t].QueryFailed?); } else { assert snap[t] == s.calls[l].partial[t]; }
        }
      }
    }
  }

  lemma StoreHasSource(states: seq<State>, actions: seq<Action>, i: nat, l: nat)
    requires Run(states, actions) && i < |actions| && SourcesKnown(states, actions, i) && actions[i] == Store(l)
    ensures l in states[i].calls && states[i].calls[l].Loading? && HasSource(states, actions, i + 1, states[i].calls[l].partial)
  {
    assert StepAt(states, actions, i);
    SourcedStays(states, actions, i, l, states[i].calls[l].partial);
    assert StoredBy(states, actions, i + 1, l, states[i].calls[l].partial);
  }

  /** A finished call had finished before, has just stored its own reload, or takes the stored snapshot. */
  lemma NewlyDone(s: State, a: Action, s': State, g: nat)
    requires Step(s, a, s') && g in s'.calls && s'.calls[g].Done?
    ensures || (g in s.calls && s'.calls[g] == s.calls[g])
            || (a == Store(g) && g in s.calls && s.calls[g].Loading? && s'.calls[g].result == s.calls[g].partial)
            || (!a.Store? && s.snapshot.Some? && s'.calls[g].result == s.snapshot.value)
  {
  }

  lemma DoneHasSource(states: seq<State>, actions: seq<Action>, i: nat, g: nat)
    requires Run(states, actions) && i < |actions| && SourcesKnown(states, actions, i)
    requires g in states[i + 1].calls && states[i + 1].calls[g].Done?
    ensures HasSource(states, actions, i + 1, states[i + 1].calls[g].result)
  {
    assert StepAt(states, actions, i);
    var s := states[i];
    NewlyDone(s, actions[i], states[i + 1], g);
    if g in s.calls && s.calls[g].Done? {
      SourceStays(states, actions, i, s.calls[g].result);
    } else if actions[i].Store? {
      StoreHasSource(states, actions, i, g);
    } else {
      SourceStays(states, actions, i, s.snapshot.value);
    }
  }

  lemma SnapshotHasSource(states: seq<State>, actions: seq<Action>, i: nat)
    requires Run(states, actions) && i < |actions| && SourcesKnown(states, actions, i) && states[i + 1].snapshot.Some?
    ensures HasSource(states, actions, i + 1, states[i + 1].snapshot.value)
  {
    assert StepAt(states, actions, i);
    if actions[i].Store? { StoreHasSource(states, actions, i, actions[i].g); } else { SourceStays(states, actions, i, states[i].snapshot.value); }
  }

  lemma SourcesNext(states: seq<State>, actions: seq<Action>, i: nat)
    requires Run(states, actions) && i < |actions| && SourcesKnown(states, actions, i)
    ensures SourcesKnown(states, actions, i + 1)
  {
    var s' := states[i + 1];
    forall l | l in s'.calls && s'.calls[l].Loading? ensures Sourced(states, actions, i + 1, l, s'.calls[l].partial) {
      LoadingStaysSourced(states, actions, i, l);
    }
    if s'.snapshot.Some? { SnapshotHasSource(states, actions, i); }
    forall g | g in s'.calls && s'.calls[g].Done? ensures HasSource(states, actions, i + 1, s'.calls[g].result) {
      DoneHasSource(states, actions, i, g);
    }
  }

  lemma {:induction false} RunKnowsSources(states: seq<State>, actions: seq<Action>, i: nat)
    requires Run(states, actions) && i < |states|
    ensures SourcesKnown(states, actions, i)
  {
    if i > 0 {
      RunKnowsSources(states, actions, i - 1);
      SourcesNext(states, actions, i - 1);
    }
  }

  /** Every returned snapshot was stored by some reload, and a table is missing from it exactly because that reload's own
      query for it failed: tables whose query succeeded are there. */
  lemma FailureHasACause(states: seq<State>, actions: seq<Action>, j: nat, g: nat)
    requires Run(states, actions) && j < |states| && g in states[j].calls && states[j].calls[g].Done?
    ensures exists l :: StoredBy(states, actions, j, l, states[j].calls[g].result)
    ensures forall t: Table :: t in states[j].calls[g].result
  {
    RunKnowsSources(states, actions, j);
    assert HasSource(states, actions, j, states[j].calls[g].result);
    RunKeepsInv(states, actions, j);
    assert PhaseOk(states[j], g);
  }

  /** In a run without failing queries, a Get that begins after the Invalidate of commit w returns all eight tables, each
      with the database contents of a moment at or after w. */
  lemma GetIsComplete(states: seq<State>, actions: seq<Action>, i: nat, j: nat, g: nat, w: nat)
    requires Run(states, actions) && i <= j < |states|
    requires g !in states[i].calls && Published(states[i], w)
    requires g in states[j].calls && states[j].calls[g].Done?
    requires forall k :: 0 <= k < j ==> !(actions[k].Query? && actions[k].fails)
    ensures var result := states[j].calls[g].result;
      forall t :: t in {Accounts, Diagnostics, Pools, Members, Models, Tokens, Settings, Services} ==>
        && t in result && result[t].Read?
        && w <= result[t].at < |states[j].history| && result[t].value == states[j].history[result[t].at](t)
  {
    FailureHasACause(states, actions, j, g);
    var result := states[j].calls[g].result;
    var l :| StoredBy(states, actions, j, l, result);
    GetIsFresh(states, actions, i, j, g, w);
    forall t: Table ensures t in result && result[t].Read? {
      assert Queried(states, actions, j, l, t, result[t].QueryFailed?);
    }
  }
}
