/** Delivery of notifications: dispatches put rows into the outbox, and any number of threads attempt to deliver them,
    each attempt being one AttemptOne call. Every action is one database statement or transaction, one lock operation
    or one call of the driver; a run is any interleaving of them. Row ids are never reused. */
module Outbox {
  import L = ItemLock

  const MAX_ATTEMPTS := 4
  const SECOND := 1_000_000_000

  datatype Status = Pending | Retrying | Dropped

  datatype Row = Row(key: string, status: Status, attempt: nat)

  predicate Active(r: Row) { !r.status.Dropped? }

  /** Where one thread stands. */
  datatype Work =
    | Checking(key: string, at: int, unrecorded: set<int>)   // a dispatch that found no recent delivery, at that instant
    | Started(id: int, item: Row)      // AttemptOne entered with a copy of the row, nothing checked yet
    | Queued(id: int)                  // waiting for the item lock
    | Holding(id: int)                 // inside the lock, row not yet read again
    | Checked(id: int, row: Row)       // the row was read again and is active
    | SentOk(id: int, row: Row)        // the driver accepted the message
    | Failing(id: int, row: Row)       // the attempt failed, not yet recorded
    | Finished(id: int)                // recorded or given up, still inside the lock
    | Leaving(id: int)                 // mutex released, reference not yet dropped

  predicate Critical(w: Work) { w.Holding? || w.Checked? || w.SentOk? || w.Failing? || w.Finished? }

  predicate UsesLock(w: Work) { w.Queued? || w.Leaving? || Critical(w) }

  /** A dispatch that was accepted: its row, its key, the instant of the insert and the thread that goes on to attempt it;
      `unrecorded` are the earlier dispatches of the key without a delivery record when this one passed its check. */
  datatype Accepted = Accepted(id: int, key: string, at: int, thread: nat, unrecorded: set<int>)

  /** Both in nanoseconds; the backoff is a whole number of seconds in the settings. */
  datatype Config = Config(backoff: int, retention: int)

  datatype State = State(
    cfg: Config,
    now: int,
    lock: L.State,
    rows: map<int, Row>,
    work: map<nat, Work>,
    deliveries: set<(string, int)>,   // (dedup key, second of creation)
    // What happened so far, for stating the properties:
    born: set<nat>,                   // threads ever started
    accepted: seq<Accepted>,
    forgotten: set<int>,              // rows deleted for want of a subscription before any delivery record
    delivered: map<int, int>,         // row -> instant of its latest delivery record
    sends: map<int, nat>,             // driver calls per row
    oks: map<int, nat>,               // of these, the successful ones
    fails: map<int, nat>)             // failed attempts per row

  function Count(m: map<int, nat>, id: int): nat { if id in m then m[id] else 0 }

  function Bump(m: map<int, nat>, id: int): map<int, nat> { m[id := Count(m, id) + 1] }

  function Sec(t: int): int { t / SECOND }

  predicate Init(s: State) {
    && s.lock == L.INITIAL && s.rows == map[] && s.work == map[] && s.deliveries == {} && s.born == {}
    && s.accepted == [] && s.forgotten == {} && s.delivered == map[]
    && s.sends == map[] && s.oks == map[] && s.fails == map[]
  }

  datatype Action =
    | Tick(d: nat)
    | CheckRecent(t: nat, key: string)     // HasRecentNotificationDelivery finds nothing
    | Accept(t: nat, id: int)              // the insert succeeds: no active row with the key
    | Background(t: nat, id: int)          // the background worker lists a due row
    | PreLockFail(t: nat)                  // driver missing, payload or template broken: fail() before the lock
    | Acquire(t: nat, newLk: nat)
    | Enter(t: nat)
    | ReadRow(t: nat)
    | BuildFails(t: nat)                   // the channel cannot be built: no send
    | Send(t: nat, ok: bool)
    | RecordFail(t: nat)
    | RecordSuccess(t: nat)
    | Exit(t: nat)
    | Release(t: nat)
    | DropUnsubscribed(id: int)            // the background worker deletes the row of an unsubscribed event
    | PruneDeliveries
    | PruneDropped(id: int)

  predicate Recent(s: State, key: string) {
    exists d :: d in s.deliveries && d.0 == key && d.1 >= Sec(s.now - s.cfg.backoff)
  }

  /** The dispatches of a key that have no delivery record so far. */
  function Unrecorded(s: State, key: string): set<int> {
    set i | 0 <= i < |s.accepted| && s.accepted[i].key == key && s.accepted[i].id !in s.delivered :: s.accepted[i].id
  }

  predicate HasActive(s: State, key: string) {
    exists id :: id in s.rows && s.rows[id].key == key && Active(s.rows[id])
  }

  predicate Used(s: State, id: int) { exists i :: 0 <= i < |s.accepted| && s.accepted[i].id == id }

  predicate Enabled(s: State, a: Action) {
    match a
    case Tick(_) => true
    case CheckRecent(t, key) => t !in s.born && !Recent(s, key)
    case Accept(t, id) =>
      t in s.work && s.work[t].Checking? && !Used(s, id) && !HasActive(s, s.work[t].key)
    case Background(t, id) => t !in s.born && id in s.rows && Active(s.rows[id])
    case PreLockFail(t) => t in s.work && s.work[t].Started?
    case Acquire(t, newLk) =>
      t in s.work && s.work[t].Started? && L.Enabled(s.lock, L.Acquire(t, s.work[t].id, newLk))
    case Enter(t) => t in s.work && s.work[t].Queued? && L.Enabled(s.lock, L.Enter(t))
    case ReadRow(t) => t in s.work && s.work[t].Holding?
    case BuildFails(t) => t in s.work && s.work[t].Checked?
    case Send(t, _) => t in s.work && s.work[t].Checked?
    case RecordFail(t) => t in s.work && s.work[t].Failing?
    case RecordSuccess(t) => t in s.work && s.work[t].SentOk?
    case Exit(t) => t in s.work && s.work[t].Finished? && L.Enabled(s.lock, L.Exit(t))
    case Release(t) => t in s.work && s.work[t].Leaving? && L.Enabled(s.lock, L.Release(t))
    case DropUnsubscribed(id) => id in s.rows
    case PruneDeliveries => true
    case PruneDropped(id) => id in s.rows && s.rows[id].status.Dropped?
  }

  /** Reviving a dropped row next to an active one of the same key violates the unique index on active keys. */
  predicate Refused(s: State, id: int, item: Row) {
    id in s.rows && !Active(s.rows[id]) && item.attempt + 1 < MAX_ATTEMPTS && HasActive(s, s.rows[id].key)
  }

  /** fail(): a delivery record, and the row moved to retrying or dropped by the attempt number of the copy in hand; a
      refused update takes the record back with it. */
  function RecordFailure(s: State, id: int, item: Row): State {
    var n := item.attempt + 1;
    var status := if n >= MAX_ATTEMPTS then Dropped else Retrying;
    if Refused(s, id, item) then s
    else
      s.(rows := if id in s.rows then s.rows[id := Row(s.rows[id].key, status, n)] else s.rows,
         deliveries := s.deliveries + {(item.key, Sec(s.now))},
         delivered := s.delivered[id := s.now],
         fails := Bump(s.fails, id))
  }

  function Apply(s: State, a: Action): State
    requires Enabled(s, a)
  {
    match a
    case Tick(d) => s.(now := s.now + d)
    case CheckRecent(t, key) => s.(work := s.work[t := Checking(key, s.now, Unrecorded(s, key))], born := s.born + {t})
    case Accept(t, id) =>
      var row := Row(s.work[t].key, Pending, 0);
      s.(rows := s.rows[id := row], work := s.work[t := Started(id, row)],
         accepted := s.accepted + [Accepted(id, row.key, s.now, t, s.work[t].unrecorded)])
    case Background(t, id) => s.(work := s.work[t := Started(id, s.rows[id])], born := s.born + {t})
    case PreLockFail(t) =>
      RecordFailure(s, s.work[t].id, s.work[t].item).(work := s.work - {t})
    case Acquire(t, newLk) =>
      s.(lock := L.Apply(s.lock, L.Acquire(t, s.work[t].id, newLk)), work := s.work[t := Queued(s.work[t].id)])
    case Enter(t) =>
      s.(lock := L.Apply(s.lock, L.Enter(t)), work := s.work[t := Holding(s.work[t].id)])
    case ReadRow(t) =>
      var id := s.work[t].id;
      s.(work := s.work[t := if id in s.rows && Active(s.rows[id]) then Checked(id, s.rows[id]) else Finished(id)])
    case BuildFails(t) => s.(work := s.work[t := Failing(s.work[t].id, s.work[t].row)])
    case Send(t, ok) =>
      var id := s.work[t].id;
      s.(sends := Bump(s.sends, id), oks := if ok then Bump(s.oks, id) else s.oks,
         work := s.work[t := if ok then SentOk(id, s.work[t].row) else Failing(id, s.work[t].row)])
    case RecordFail(t) =>
      var id := s.work[t].id;
      RecordFailure(s, id, s.work[t].row).(work := s.work[t := Finished(id)])
    case RecordSuccess(t) =>
      var id := s.work[t].id;
      if id in s.rows then
        s.(rows := s.rows - {id}, deliveries := s.deliveries + {(s.work[t].row.key, Sec(s.now))},
           delivered := s.delivered[id := s.now], work := s.work[t := Finished(id)])
      else
        s.(work := s.work[t := Finished(id)])      // nothing to delete: the transaction rolls back
    case Exit(t) =>
      s.(lock := L.Apply(s.lock, L.Exit(t)), work := s.work[t := Leaving(s.work[t].id)])
    case Release(t) =>
      s.(lock := L.Apply(s.lock, L.Release(t)), work := s.work - {t})
    case DropUnsubscribed(id) =>
      s.(rows := s.rows - {id}, forgotten := if id in s.delivered then s.forgotten else s.forgotten + {id})
    case PruneDeliveries =>
      s.(deliveries := set d | d in s.deliveries && d.1 >= Sec(s.now - s.cfg.retention))
    case PruneDropped(id) => s.(rows := s.rows - {id})
  }

  ghost predicate Valid(s: State, actions: seq<Action>)
    decreases |actions|
  {
    actions == [] || (Enabled(s, actions[0]) && Valid(Apply(s, actions[0]), actions[1..]))
  }

  ghost function Exec(s: State, actions: seq<Action>): State
    requires Valid(s, actions)
    decreases |actions|
  {
    if actions == [] then s else Exec(Apply(s, actions[0]), actions[1..])
  }

  /** Thread u is the one that acts. */
  predicate Acts(a: Action, u: nat) {
    && !a.Tick? && !a.DropUnsubscribed? && !a.PruneDeliveries? && !a.PruneDropped?
    && a.t == u
  }

  lemma OthersRest(s: State, a: Action, u: nat)
    requires Enabled(s, a) && !Acts(a, u)
    ensures u in Apply(s, a).work <==> u in s.work
    ensures u in s.work ==> Apply(s, a).work[u] == s.work[u]
  {
  }

  // ----- The lock is what it seems -----

  /** The lock places a thread exactly where its work says. */
  ghost predicate CoupledAt(s: State, t: nat) {
    && (t in s.work ==> t in s.born)
    && (t in s.lock.threads <==> t in s.work && UsesLock(s.work[t]))
    && (t in s.lock.threads ==>
          && s.lock.threads[t].id == s.work[t].id
          && (s.lock.threads[t].Inside? <==> Critical(s.work[t]))
          && (s.lock.threads[t].Leaving? <==> s.work[t].Leaving?))
  }

  ghost predicate Coupled(s: State) { forall t :: CoupledAt(s, t) }

  /** Rows and attempts stem from accepted dispatches. */
  ghost predicate Known(s: State) {
    && (forall id :: id in s.rows || id in s.delivered ==> Used(s, id))
    && (forall t :: t in s.work && !s.work[t].Checking? ==> Used(s, s.work[t].id))
  }

  ghost predicate Linked(s: State) { L.Inv(s.lock) && Coupled(s) && Known(s) }

  lemma StepKeepsLock(s: State, a: Action)
    requires L.Inv(s.lock) && Enabled(s, a)
    ensures L.Inv(Apply(s, a).lock)
  {
    match a
    case Acquire(t, newLk) => L.StepKeepsInv(s.lock, L.Acquire(t, s.work[t].id, newLk));
    case Enter(t) => L.StepKeepsInv(s.lock, L.Enter(t));
    case Exit(t) => L.StepKeepsInv(s.lock, L.Exit(t));
    case Release(t) => L.StepKeepsInv(s.lock, L.Release(t));
    case _ =>
  }

  lemma UsedStays(s: State, a: Action, id: int)
    requires Enabled(s, a)
    ensures Used(s, id) ==> Used(Apply(s, a), id)
    ensures a.Accept? ==> Used(Apply(s, a), a.id)
  {
    var s' := Apply(s, a);
    if Used(s, id) {
      var i :| 0 <= i < |s.accepted| && s.accepted[i].id == id;
      assert s'.accepted[i] == s.accepted[i];
    }
    if a.Accept? { assert s'.accepted[|s.accepted|].id == a.id; }
  }

  lemma StepKeepsKnownRow(s: State, a: Action, id: int)
    requires Known(s) && Enabled(s, a) && (id in Apply(s, a).rows || id in Apply(s, a).delivered)
    ensures Used(Apply(s, a), id)
  {
    UsedStays(s, a, id);
  }

  lemma StepKeepsKnownThread(s: State, a: Action, t: nat)
    requires Known(s) && Enabled(s, a) && t in Apply(s, a).work && !Apply(s, a).work[t].Checking?
    ensures Used(Apply(s, a), Apply(s, a).work[t].id)
  {
    UsedStays(s, a, Apply(s, a).work[t].id);
    if !Acts(a, t) { OthersRest(s, a, t); }
  }

  lemma StepKeepsKnown(s: State, a: Action)
    requires Known(s) && Enabled(s, a)
    ensures Known(Apply(s, a))
  {
    var s' := Apply(s, a);
    forall id | id in s'.rows || id in s'.delivered ensures Used(s', id) { StepKeepsKnownRow(s, a, id); }
    forall t | t in s'.work && !s'.work[t].Checking? ensures Used(s', s'.work[t].id) { StepKeepsKnownThread(s, a, t); }
  }

  lemma StepKeepsCoupled(s: State, a: Action)
    requires Coupled(s) && Enabled(s, a)
    ensures Coupled(Apply(s, a))
  {
    forall t ensures CoupledAt(Apply(s, a), t) { StepKeepsCoupledAt(s, a, t); }
  }

  predicate OnLock(a: Action) { a.Acquire? || a.Enter? || a.Exit? || a.Release? }

  lemma LockStepKeepsCoupledAt(s: State, a: Action, t: nat)
    requires CoupledAt(s, t) && Enabled(s, a) && OnLock(a)
    ensures CoupledAt(Apply(s, a), t)
  {
  }

  lemma OtherStepKeepsCoupledAt(s: State, a: Action, t: nat)
    requires CoupledAt(s, t) && Enabled(s, a) && !OnLock(a)
    ensures CoupledAt(Apply(s, a), t)
  {
    if Acts(a, t) { ActorKeepsCoupledAt(s, a, t); } else { OthersRest(s, a, t); }
    assert Apply(s, a).lock == s.lock && s.born <= Apply(s, a).born;
  }

  lemma ActorKeepsCoupledAt(s: State, a: Action, t: nat)
    requires CoupledAt(s, t) && Enabled(s, a) && !OnLock(a) && Acts(a, t)
    ensures CoupledAt(Apply(s, a), t)
  {
    assert Apply(s, a).lock == s.lock;
  }

  lemma StepKeepsCoupledAt(s: State, a: Action, t: nat)
    requires CoupledAt(s, t) && Enabled(s, a)
    ensures CoupledAt(Apply(s, a), t)
  {
    if OnLock(a) { LockStepKeepsCoupledAt(s, a, t); } else { OtherStepKeepsCoupledAt(s, a, t); }
  }

  lemma StepKeepsLinked(s: State, a: Action)
    requires Linked(s) && Enabled(s, a)
    ensures Linked(Apply(s, a))
  {
    StepKeepsLock(s, a);
    StepKeepsCoupled(s, a);
    StepKeepsKnown(s, a);
  }

  /** Two threads inside the critical section of one row are one thread. */
  lemma Exclusive(s: State, t: nat, u: nat)
    requires Linked(s) && t in s.work && u in s.work && Critical(s.work[t]) && Critical(s.work[u])
    requires s.work[t].id == s.work[u].id
    ensures t == u
  {
    assert CoupledAt(s, t) && CoupledAt(s, u);
    L.MutualExclusion(s.lock, t, u);
  }

  /** What the delivery arguments need: one thread per critical section, and no thread out of nowhere. */
  ghost predicate Orderly(s: State) {
    && Known(s)
    && s.work.Keys <= s.born
    && (forall t, u :: t in s.work && u in s.work && Critical(s.work[t]) && Critical(s.work[u]) ==>
          s.work[t].id == s.work[u].id ==> t == u)
  }

  lemma LinkedIsOrderly(s: State)
    requires Linked(s)
    ensures Orderly(s)
  {
    forall t | t in s.work ensures t in s.born { assert CoupledAt(s, t); }
    forall t, u | t in s.work && u in s.work && Critical(s.work[t]) && Critical(s.work[u]) && s.work[t].id == s.work[u].id
      ensures t == u
    {
      Exclusive(s, t, u);
    }
  }

  // ----- At most one successful send per row -----

  ghost predicate Confirming(s: State, t: nat, id: int) { t in s.work && s.work[t].SentOk? && s.work[t].id == id }

  ghost predicate FailingAt(s: State, t: nat, id: int) { t in s.work && s.work[t].Failing? && s.work[t].id == id }


  ghost predicate OnceAt(s: State, id: int) {
    && Count(s.oks, id) <= 1
    && (Count(s.oks, id) == 1 && id in s.rows ==> exists t :: Confirming(s, t, id))
    && (!Used(s, id) ==> Count(s.oks, id) == 0 && Count(s.sends, id) == 0 && Count(s.fails, id) == 0)
  }

  ghost predicate OnceThread(s: State, t: nat) {
    t in s.work ==>
      && (s.work[t].Checked? || s.work[t].Failing? ==> Count(s.oks, s.work[t].id) == 0)
      && (s.work[t].SentOk? ==> Count(s.oks, s.work[t].id) == 1)
  }

  ghost predicate Once(s: State) { (forall id :: OnceAt(s, id)) && (forall t :: OnceThread(s, t)) }

  /** The step records a failed attempt. */
  predicate RecordsFailure(s: State, a: Action)
    requires Enabled(s, a)
  {
    || (a.RecordFail? && !Refused(s, s.work[a.t].id, s.work[a.t].row))
    || (a.PreLockFail? && !Refused(s, s.work[a.t].id, s.work[a.t].item))
  }

  lemma SendsMove(s: State, a: Action)
    requires Enabled(s, a)
    ensures Apply(s, a).oks == if a.Send? && a.ok then Bump(s.oks, s.work[a.t].id) else s.oks
    ensures Apply(s, a).sends == if a.Send? then Bump(s.sends, s.work[a.t].id) else s.sends
  {
  }

  lemma FailsMove(s: State, a: Action)
    requires Enabled(s, a)
    ensures Apply(s, a).fails == if RecordsFailure(s, a) then Bump(s.fails, s.work[a.t].id) else s.fails
  {
  }

  /** How the counters of one row move. */
  lemma CountersMove(s: State, a: Action, id: int)
    requires Enabled(s, a)
    ensures var s' := Apply(s, a);
      && Count(s'.oks, id) == Count(s.oks, id) + (if a.Send? && a.ok && s.work[a.t].id == id then 1 else 0)
      && Count(s'.sends, id) == Count(s.sends, id) + (if a.Send? && s.work[a.t].id == id then 1 else 0)
      && Count(s'.fails, id) == Count(s.fails, id) + (if RecordsFailure(s, a) && s.work[a.t].id == id then 1 else 0)
  {
    SendsMove(s, a);
    FailsMove(s, a);
  }

  /** A confirming thread goes on confirming until it removes the row. */
  lemma ConfirmingStays(s: State, a: Action, t: nat, id: int)
    requires Enabled(s, a) && Confirming(s, t, id) && t in s.born && id in Apply(s, a).rows && !(a.Accept? && a.id == id)
    ensures Confirming(Apply(s, a), t, id)
  {
    if !Acts(a, t) { OthersRest(s, a, t); }
  }

  lemma StepKeepsOnceAt(s: State, a: Action, id: int)
    requires Orderly(s) && Once(s) && Enabled(s, a)
    ensures OnceAt(Apply(s, a), id)
  {
    var s' := Apply(s, a);
    assert OnceAt(s, id);
    UsedStays(s, a, id);
    CountersMove(s, a, id);
    if a.Send? || a.RecordFail? || a.PreLockFail? { assert OnceThread(s, a.t) && Used(s, s.work[a.t].id); }
    if Count(s'.oks, id) == 1 && id in s'.rows {
      if Count(s.oks, id) == 0 {
        assert Confirming(s', a.t, id);
      } else {
        assert id in s.rows;
        var t :| Confirming(s, t, id);
        ConfirmingStays(s, a, t, id);
      }
    }
  }

  /** A thread in the critical section of a row is there alone. */
  lemma Alone(s: State, t: nat)
    requires Orderly(s) && t in s.work && Critical(s.work[t])
    ensures forall u :: Confirming(s, u, s.work[t].id) || FailingAt(s, u, s.work[t].id) ==> u == t
    ensures forall u :: u in s.work && Critical(s.work[u]) && s.work[u].id == s.work[t].id ==> u == t
  {
  }

  /** Steps of other rows and other phases leave the count a thread relies on. */
  lemma OtherStepKeepsOnceThread(s: State, a: Action, t: nat)
    requires OnceThread(s, t) && Enabled(s, a) && !a.ReadRow? && !a.Send?
    ensures OnceThread(Apply(s, a), t)
  {
  }

  lemma StepKeepsOnceThread(s: State, a: Action, t: nat)
    requires Orderly(s) && Once(s) && Enabled(s, a)
    ensures OnceThread(Apply(s, a), t)
  {
    assert OnceThread(s, t);
    if a.ReadRow? {
      Alone(s, a.t);
      assert OnceAt(s, s.work[a.t].id);
    } else if a.Send? {
      Alone(s, a.t);
    } else {
      OtherStepKeepsOnceThread(s, a, t);
    }
  }

  lemma StepKeepsOnce(s: State, a: Action)
    requires Orderly(s) && Once(s) && Enabled(s, a)
    ensures Once(Apply(s, a))
  {
    forall id ensures OnceAt(Apply(s, a), id) { StepKeepsOnceAt(s, a, id); }
    forall t ensures OnceThread(Apply(s, a), t) { StepKeepsOnceThread(s, a, t); }
  }

  lemma InitIsLinked(s: State)
    requires Init(s)
    ensures Linked(s)
  {
    L.InitialInv();
    assert L.Inv(s.lock);
    forall t ensures CoupledAt(s, t) { }
  }

  lemma InitIsOnce(s: State)
    requires Init(s)
    ensures Once(s)
  {
    forall id ensures OnceAt(s, id) { }
    forall t ensures OnceThread(s, t) { }
  }

  lemma {:induction false} RunKeepsOnce(s: State, actions: seq<Action>)
    requires Linked(s) && Once(s) && Valid(s, actions)
    ensures Linked(Exec(s, actions)) && Once(Exec(s, actions))
    decreases |actions|
  {
    if actions != [] {
      LinkedIsOrderly(s);
      StepKeepsLinked(s, actions[0]);
      StepKeepsOnce(s, actions[0]);
      RunKeepsOnce(Apply(s, actions[0]), actions[1..]);
    }
  }

  /** Whatever the interleaving of immediate and background attempts, and even with failures recorded before the lock,
      the driver accepts the message of a row at most once. */
  lemma AtMostOneSuccess(s: State, actions: seq<Action>, id: int)
    requires Init(s) && Valid(s, actions)
    ensures Count(Exec(s, actions).oks, id) <= 1
  {
    InitIsLinked(s);
    InitIsOnce(s);
    RunKeepsOnce(s, actions);
    assert OnceAt(Exec(s, actions), id);
  }
}
