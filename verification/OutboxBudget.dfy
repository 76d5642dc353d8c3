/** The retry budget of the outbox: what the stored attempt counter says, when failures recorded before the item lock
    spoil it, and what one attempt under the lock does. */
module OutboxBudget {
  import opened Outbox

  /** The stored counter is the number of failures, and four failures drop the row. */
  ghost predicate AttemptsAt(s: State, id: int) {
    && Count(s.fails, id) <= MAX_ATTEMPTS
    && (id in s.rows ==>
          && s.rows[id].attempt == Count(s.fails, id)
          && (s.rows[id].status.Dropped? <==> Count(s.fails, id) == MAX_ATTEMPTS))
    && (Count(s.oks, id) == 1 ==> Count(s.fails, id) < MAX_ATTEMPTS)
  }

  /** The copy read inside the lock stays current. */
  ghost predicate AttemptsThread(s: State, t: nat) {
    t in s.work && (s.work[t].Checked? || s.work[t].SentOk? || s.work[t].Failing?) ==>
      s.work[t].row.attempt == Count(s.fails, s.work[t].id) < MAX_ATTEMPTS
  }

  /** Every send but the one in hand or the successful one ended in a recorded failure. */
  ghost predicate SendsAt(s: State, id: int) {
    && Count(s.sends, id) <= Count(s.fails, id) + 1
    && (Count(s.sends, id) == Count(s.fails, id) + 1 ==> Count(s.oks, id) == 1 || exists t :: FailingAt(s, t, id))
  }

  ghost predicate SendsThread(s: State, t: nat) {
    t in s.work && s.work[t].Checked? ==> Count(s.sends, s.work[t].id) <= Count(s.fails, s.work[t].id)
  }

  ghost predicate Attempts(s: State) { (forall id :: AttemptsAt(s, id)) && (forall t :: AttemptsThread(s, t)) }

  ghost predicate Sends(s: State) { (forall id :: SendsAt(s, id)) && (forall t :: SendsThread(s, t)) }

  ghost predicate Budget(s: State) { Attempts(s) && Sends(s) }

  lemma InitIsWithinBudget(s: State)
    requires Init(s)
    ensures Budget(s)
  {
    forall id ensures AttemptsAt(s, id) && SendsAt(s, id) { }
    forall t ensures AttemptsThread(s, t) && SendsThread(s, t) { }
  }

  lemma StepKeepsAttemptsAt(s: State, a: Action, id: int)
    requires Once(s) && Attempts(s) && Enabled(s, a) && !a.PreLockFail?
    ensures AttemptsAt(Apply(s, a), id)
  {
    assert AttemptsAt(s, id) && OnceAt(s, id);
    CountersMove(s, a, id);
    if a.Send? || a.RecordFail? { assert AttemptsThread(s, a.t) && OnceThread(s, a.t); }
  }

  lemma OtherStepKeepsAttemptsThread(s: State, a: Action, t: nat)
    requires AttemptsThread(s, t) && Enabled(s, a) && !a.PreLockFail? && !a.ReadRow? && !a.RecordFail?
    ensures AttemptsThread(Apply(s, a), t)
  {
  }

  lemma StepKeepsAttemptsThread(s: State, a: Action, t: nat)
    requires Orderly(s) && Attempts(s) && Enabled(s, a) && !a.PreLockFail?
    ensures AttemptsThread(Apply(s, a), t)
  {
    assert AttemptsThread(s, t);
    if a.ReadRow? {
      assert AttemptsAt(s, s.work[a.t].id);
    } else if a.RecordFail? {
      Alone(s, a.t);
    } else {
      OtherStepKeepsAttemptsThread(s, a, t);
    }
  }

  /** The row that a thread failed on under the lock is active, so the index has no objection. */
  lemma LockedIsNotRefused(s: State, t: nat)
    requires Attempts(s) && Enabled(s, RecordFail(t))
    ensures !Refused(s, s.work[t].id, s.work[t].row)
  {
    assert AttemptsThread(s, t) && AttemptsAt(s, s.work[t].id);
  }

  lemma StepKeepsSendsAt(s: State, a: Action, id: int)
    requires Orderly(s) && Once(s) && Attempts(s) && Sends(s) && Enabled(s, a) && !a.PreLockFail?
    ensures SendsAt(Apply(s, a), id)
  {
    var s' := Apply(s, a);
    assert SendsAt(s, id) && OnceAt(s, id);
    CountersMove(s, a, id);
    if a.RecordFail? { LockedIsNotRefused(s, a.t); }
    if a.Send? { assert SendsThread(s, a.t) && OnceThread(s, a.t); }
    if a.Send? && s.work[a.t].id == id {
      assert FailingAt(s', a.t, id) || Count(s'.oks, id) == 1;
    } else if Count(s'.sends, id) == Count(s'.fails, id) + 1 && Count(s'.oks, id) != 1 {
      var t :| FailingAt(s, t, id);
      assert FailingAt(s', t, id);
    }
  }

  lemma OtherStepKeepsSendsThread(s: State, a: Action, t: nat)
    requires SendsThread(s, t) && Enabled(s, a) && !a.ReadRow? && !a.Send?
    ensures SendsThread(Apply(s, a), t)
  {
    if t in s.work && s.work[t].Checked? { CountersMove(s, a, s.work[t].id); }
  }

  lemma StepKeepsSendsThread(s: State, a: Action, t: nat)
    requires Orderly(s) && Once(s) && Sends(s) && Enabled(s, a) && !a.PreLockFail?
    ensures SendsThread(Apply(s, a), t)
  {
    assert SendsThread(s, t);
    if a.ReadRow? {
      Alone(s, a.t);
      assert SendsAt(s, s.work[a.t].id) && OnceAt(s, s.work[a.t].id);
    } else if a.Send? {
      Alone(s, a.t);
    } else {
      OtherStepKeepsSendsThread(s, a, t);
    }
  }

  lemma StepKeepsBudget(s: State, a: Action)
    requires Orderly(s) && Once(s) && Budget(s) && Enabled(s, a) && !a.PreLockFail?
    ensures Budget(Apply(s, a))
  {
    forall id ensures AttemptsAt(Apply(s, a), id) && SendsAt(Apply(s, a), id) {
      StepKeepsAttemptsAt(s, a, id);
      StepKeepsSendsAt(s, a, id);
    }
    forall t ensures AttemptsThread(Apply(s, a), t) && SendsThread(Apply(s, a), t) {
      StepKeepsAttemptsThread(s, a, t);
      StepKeepsSendsThread(s, a, t);
    }
  }

  // ----- Failures recorded before the lock -----

  ghost predicate Midway(s: State, t: nat, id: int) {
    t in s.work && (s.work[t].Checked? || s.work[t].SentOk? || s.work[t].Failing?) && s.work[t].id == id
  }

  /** Nobody else is working on the row, and the exit of thread t acts on a current copy of an active row; if the row is
      gone, one more failure must fit the budget of an unsent message. */
  ghost predicate Timely(s: State, t: nat)
    requires Enabled(s, PreLockFail(t))
  {
    var id := s.work[t].id;
    && (forall u :: !Midway(s, u, id))
    && (id in s.rows ==> Active(s.rows[id]) && s.work[t].item.attempt == s.rows[id].attempt)
    && (id !in s.rows ==> Count(s.fails, id) + 1 <= MAX_ATTEMPTS && (Count(s.oks, id) == 1 ==> Count(s.fails, id) + 1 < MAX_ATTEMPTS))
  }

  lemma TimelyKeepsAttemptsAt(s: State, t: nat, id: int)
    requires Once(s) && Attempts(s) && Enabled(s, PreLockFail(t)) && Timely(s, t)
    ensures AttemptsAt(Apply(s, PreLockFail(t)), id)
  {
    assert AttemptsAt(s, id) && OnceAt(s, id);
    assert forall u :: Confirming(s, u, s.work[t].id) ==> Midway(s, u, s.work[t].id);
    CountersMove(s, PreLockFail(t), id);
  }

  lemma TimelyKeepsThread(s: State, t: nat, u: nat)
    requires Attempts(s) && Sends(s) && Enabled(s, PreLockFail(t)) && Timely(s, t)
    ensures AttemptsThread(Apply(s, PreLockFail(t)), u) && SendsThread(Apply(s, PreLockFail(t)), u)
  {
    assert AttemptsThread(s, u) && SendsThread(s, u) && !Midway(s, u, s.work[t].id);
  }

  lemma ExitKeepsSendsAt(s: State, t: nat, id: int)
    requires Sends(s) && Enabled(s, PreLockFail(t))
    ensures SendsAt(Apply(s, PreLockFail(t)), id)
  {
    var s' := Apply(s, PreLockFail(t));
    assert SendsAt(s, id);
    CountersMove(s, PreLockFail(t), id);
    if Count(s'.sends, id) == Count(s'.fails, id) + 1 && Count(s'.oks, id) != 1 {
      var u :| FailingAt(s, u, id);
      assert FailingAt(s', u, id);
    }
  }

  lemma TimelyKeepsBudget(s: State, t: nat)
    requires Once(s) && Budget(s) && Enabled(s, PreLockFail(t)) && Timely(s, t)
    ensures Budget(Apply(s, PreLockFail(t)))
  {
    forall id ensures AttemptsAt(Apply(s, PreLockFail(t)), id) && SendsAt(Apply(s, PreLockFail(t)), id) {
      TimelyKeepsAttemptsAt(s, t, id);
      ExitKeepsSendsAt(s, t, id);
    }
    forall u ensures AttemptsThread(Apply(s, PreLockFail(t)), u) && SendsThread(Apply(s, PreLockFail(t)), u) {
      TimelyKeepsThread(s, t, u);
    }
  }

  lemma KeptMeansTimely(s: State, t: nat)
    requires Budget(s) && Enabled(s, PreLockFail(t)) && Budget(Apply(s, PreLockFail(t))) && !ExitRefused(s, t)
    ensures Timely(s, t)
  {
    var s', id := Apply(s, PreLockFail(t)), s.work[t].id;
    CountersMove(s, PreLockFail(t), id);
    assert AttemptsAt(s, id) && AttemptsAt(s', id);
    forall u ensures !Midway(s, u, id) {
      assert AttemptsThread(s, u) && AttemptsThread(s', u);
    }
  }

  /** The exit is refused by the index, and so changes nothing. */
  predicate ExitRefused(s: State, t: nat)
    requires Enabled(s, PreLockFail(t))
  {
    Refused(s, s.work[t].id, s.work[t].item)
  }

  lemma RefusedKeepsBudget(s: State, t: nat)
    requires Budget(s) && Enabled(s, PreLockFail(t)) && ExitRefused(s, t)
    ensures Budget(Apply(s, PreLockFail(t)))
  {
    var s' := Apply(s, PreLockFail(t));
    assert s' == s.(work := s.work - {t});
    forall id ensures AttemptsAt(s', id) && SendsAt(s', id) {
      assert AttemptsAt(s, id);
      ExitKeepsSendsAt(s, t, id);
    }
    forall u ensures AttemptsThread(s', u) && SendsThread(s', u) { assert AttemptsThread(s, u) && SendsThread(s, u); }
  }

  /** A failure before the lock keeps the accounting of attempts if and only if it is timely or refused. */
  lemma ExitKeepsBudgetIffTimely(s: State, t: nat)
    requires Once(s) && Budget(s) && Enabled(s, PreLockFail(t))
    ensures Budget(Apply(s, PreLockFail(t))) <==> Timely(s, t) || ExitRefused(s, t)
  {
    if ExitRefused(s, t) {
      RefusedKeepsBudget(s, t);
    } else if Timely(s, t) {
      TimelyKeepsBudget(s, t);
    } else if Budget(Apply(s, PreLockFail(t))) {
      KeptMeansTimely(s, t);
    }
  }

  /** Every failure before the lock is timely or refused; in particular there may be none. */
  ghost predicate Tame(s: State, actions: seq<Action>)
    requires Valid(s, actions)
    decreases |actions|
  {
    actions == [] || (TameStep(s, actions[0]) && Tame(Apply(s, actions[0]), actions[1..]))
  }

  ghost predicate TameStep(s: State, a: Action)
    requires Enabled(s, a)
  {
    a.PreLockFail? ==> Timely(s, a.t) || ExitRefused(s, a.t)
  }

  predicate NoPreLockExit(actions: seq<Action>) { forall i :: 0 <= i < |actions| ==> !actions[i].PreLockFail? }

  lemma {:induction false} NoExitIsTame(s: State, actions: seq<Action>)
    requires Valid(s, actions) && NoPreLockExit(actions)
    ensures Tame(s, actions)
    decreases |actions|
  {
    if actions != [] { NoExitIsTame(Apply(s, actions[0]), actions[1..]); }
  }

  // ----- Every run -----

  ghost predicate Sound(s: State) { Linked(s) && Once(s) && Budget(s) }

  lemma StepKeepsSound(s: State, a: Action)
    requires Sound(s) && Enabled(s, a) && TameStep(s, a)
    ensures Sound(Apply(s, a))
  {
    LinkedIsOrderly(s);
    StepKeepsLinked(s, a);
    StepKeepsOnce(s, a);
    if a.PreLockFail? { ExitKeepsBudgetIffTimely(s, a.t); } else { StepKeepsBudget(s, a); }
  }

  lemma {:induction false} RunKeepsSound(s: State, actions: seq<Action>)
    requires Sound(s) && Valid(s, actions) && Tame(s, actions)
    ensures Sound(Exec(s, actions))
    decreases |actions|
  {
    if actions != [] {
      StepKeepsSound(s, actions[0]);
      RunKeepsSound(Apply(s, actions[0]), actions[1..]);
    }
  }

  /** As long as failures before the lock are timely or refused, the stored counter is the number of failed attempts, the row is
      dropped at exactly the fourth, and the driver is called at most four times for a row. */
  lemma RetryBudget(s: State, actions: seq<Action>, id: int)
    requires Init(s) && Valid(s, actions) && Tame(s, actions)
    ensures var e := Exec(s, actions);
      && Count(e.fails, id) <= 4
      && Count(e.sends, id) <= 4
      && (id in e.rows ==> e.rows[id].attempt == Count(e.fails, id))
      && (id in e.rows ==> (e.rows[id].status.Dropped? <==> Count(e.fails, id) == 4))
  {
    InitIsLinked(s);
    InitIsOnce(s);
    InitIsWithinBudget(s);
    RunKeepsSound(s, actions);
    BudgetBounds(Exec(s, actions), id);
  }

  lemma BudgetBounds(e: State, id: int)
    requires Budget(e)
    ensures Count(e.fails, id) <= 4 && Count(e.sends, id) <= 4
    ensures id in e.rows ==>
      && e.rows[id].attempt == Count(e.fails, id)
      && (e.rows[id].status.Dropped? <==> Count(e.fails, id) == 4)
  {
    assert AttemptsAt(e, id) && SendsAt(e, id);
    if Count(e.sends, id) == Count(e.fails, id) + 1 && Count(e.oks, id) != 1 {
      var t :| FailingAt(e, t, id);
      assert AttemptsThread(e, t);
    }
  }

  /** A failure recorded inside the lock raises the stored counter by exactly one. */
  lemma FailureRaisesCounter(s: State, t: nat)
    requires Budget(s) && Enabled(s, RecordFail(t)) && s.work[t].id in s.rows
    ensures var id := s.work[t].id;
      && Apply(s, RecordFail(t)).rows[id].attempt == s.rows[id].attempt + 1
      && (Apply(s, RecordFail(t)).rows[id].status.Dropped? <==> s.rows[id].attempt == 3)
  {
    assert AttemptsThread(s, t) && AttemptsAt(s, s.work[t].id);
  }

  /** Once the budget is spent or the message accepted, one step calls the driver no more and changes neither fact. */
  predicate Settled(s: State, id: int) { Count(s.fails, id) == MAX_ATTEMPTS || Count(s.oks, id) == 1 }

  lemma TimelyHasRoom(s: State, t: nat)
    requires Once(s) && Attempts(s) && Enabled(s, PreLockFail(t)) && Timely(s, t)
    ensures Count(s.fails, s.work[t].id) < MAX_ATTEMPTS
  {
    assert AttemptsAt(s, s.work[t].id);
  }

  lemma SettledStep(s: State, a: Action, id: int)
    requires Once(s) && Attempts(s) && Enabled(s, a) && TameStep(s, a) && Settled(s, id)
    ensures Settled(Apply(s, a), id) && Count(Apply(s, a).sends, id) == Count(s.sends, id)
  {
    CountersMove(s, a, id);
    if a.PreLockFail? && !ExitRefused(s, a.t) { TimelyHasRoom(s, a.t); }
    if a.Send? || a.RecordFail? { assert AttemptsThread(s, a.t) && OnceThread(s, a.t); }
  }

  /** After the fourth failure, or after a success, no tame continuation calls the driver for the row again. */
  lemma {:induction false} NeverSentAgain(s: State, actions: seq<Action>, id: int)
    requires Sound(s) && Valid(s, actions) && Tame(s, actions) && Settled(s, id)
    ensures Count(Exec(s, actions).sends, id) == Count(s.sends, id)
    decreases |actions|
  {
    if actions != [] {
      SettledStep(s, actions[0], id);
      StepKeepsSound(s, actions[0]);
      NeverSentAgain(Apply(s, actions[0]), actions[1..], id);
    }
  }

  // ----- One attempt under the lock -----

  /** A thread inside the lock of an active row sends it; if the driver accepts, the row is deleted and the delivery listed
      under its key, at once and together. */
  lemma AttemptDelivers(s: State, t: nat)
    requires t in s.work && s.work[t].Holding? && s.work[t].id in s.rows && s.rows[s.work[t].id].status in {Pending, Retrying}
    ensures var run := [ReadRow(t), Send(t, true), RecordSuccess(t)]; var id := s.work[t].id;
      && Valid(s, run) && var e := Exec(s, run);
      && e.rows == s.rows - {id} && e.deliveries == s.deliveries + {(s.rows[id].key, Sec(s.now))} && e.delivered == s.delivered[id := s.now]
      && Count(e.oks, id) == Count(s.oks, id) + 1 && Count(e.sends, id) == Count(s.sends, id) + 1 && e.fails == s.fails
  {
    var s1 := Apply(s, ReadRow(t));
    var s2 := Apply(s1, Send(t, true));
    PrependValid(s2, RecordSuccess(t), []);
    PrependValid(s1, Send(t, true), [RecordSuccess(t)]);
    PrependValid(s, ReadRow(t), [Send(t, true)] + [RecordSuccess(t)]);
    assert [ReadRow(t)] + ([Send(t, true)] + [RecordSuccess(t)]) == [ReadRow(t), Send(t, true), RecordSuccess(t)];
  }

  /** If the driver refuses, the failure is listed, the counter rises by one, and the row waits for the next attempt or, at
      the fourth failure, is dropped. */
  lemma AttemptFails(s: State, t: nat)
    requires t in s.work && s.work[t].Holding? && s.work[t].id in s.rows && s.rows[s.work[t].id].status in {Pending, Retrying}
    ensures var run := [ReadRow(t), Send(t, false), RecordFail(t)]; var id := s.work[t].id;
      && Valid(s, run) && var e := Exec(s, run); var row := s.rows[id];
      && e.rows == s.rows[id := Row(row.key, if row.attempt + 1 >= 4 then Dropped else Retrying, row.attempt + 1)]
      && e.deliveries == s.deliveries + {(row.key, Sec(s.now))} && e.delivered == s.delivered[id := s.now]
      && Count(e.fails, id) == Count(s.fails, id) + 1 && Count(e.sends, id) == Count(s.sends, id) + 1 && e.oks == s.oks
  {
    var s1 := Apply(s, ReadRow(t));
    var s2 := Apply(s1, Send(t, false));
    assert !Refused(s2, s.work[t].id, s.rows[s.work[t].id]);
    PrependValid(s2, RecordFail(t), []);
    PrependValid(s1, Send(t, false), [RecordFail(t)]);
    PrependValid(s, ReadRow(t), [Send(t, false)] + [RecordFail(t)]);
    assert [ReadRow(t)] + ([Send(t, false)] + [RecordFail(t)]) == [ReadRow(t), Send(t, false), RecordFail(t)];
  }

  /** A row that is gone or dropped is left alone. */
  lemma AttemptGivesUp(s: State, t: nat)
    requires t in s.work && s.work[t].Holding? && (s.work[t].id in s.rows ==> s.rows[s.work[t].id].status == Dropped)
    ensures Enabled(s, ReadRow(t)) && Apply(s, ReadRow(t)) == s.(work := s.work[t := Finished(s.work[t].id)])
  {
  }

  // ----- Gone rows -----

  /** The row is gone for good and nobody holds a copy read under the lock. */
  ghost predicate Gone(s: State, id: int) { Used(s, id) && id !in s.rows && forall u :: !Midway(s, u, id) }

  lemma GoneStep(s: State, a: Action, id: int)
    requires Enabled(s, a) && Gone(s, id)
    ensures Gone(Apply(s, a), id) && Count(Apply(s, a).sends, id) == Count(s.sends, id)
  {
    UsedStays(s, a, id);
    CountersMove(s, a, id);
    assert a.Send? ==> Midway(s, a.t, s.work[a.t].id);
    forall u ensures !Midway(Apply(s, a), u, id) { MidwayStays(s, a, u, id); }
  }

  /** Only reading an existing row under the lock puts a thread midway. */
  lemma MidwayStays(s: State, a: Action, u: nat, id: int)
    requires Enabled(s, a)
    ensures Midway(Apply(s, a), u, id) ==> Midway(s, u, id) || (a.ReadRow? && id in s.rows)
  {
  }

  /** Once the row is gone and nobody is midway on it, no continuation whatever calls the driver for it again. */
  lemma {:induction false} GoneIsNeverSent(s: State, actions: seq<Action>, id: int)
    requires Valid(s, actions) && Gone(s, id)
    ensures Gone(Exec(s, actions), id) && Count(Exec(s, actions).sends, id) == Count(s.sends, id)
    decreases |actions|
  {
    if actions != [] {
      GoneStep(s, actions[0], id);
      GoneIsNeverSent(Apply(s, actions[0]), actions[1..], id);
    }
  }

  /** A failure before the lock writes the attempt number of a copy that may be old: it raises the stored counter by one
      exactly when the copy is current and the index does not object, and an old copy revives a dropped row. */
  lemma PreLockExitIsExactWhenCurrent(s: State, t: nat)
    requires Enabled(s, PreLockFail(t)) && s.work[t].id in s.rows
    ensures var id := s.work[t].id;
      Apply(s, PreLockFail(t)).rows[id].attempt == s.rows[id].attempt + 1 <==>
        s.work[t].item.attempt == s.rows[id].attempt && !ExitRefused(s, t)
    ensures s.rows[s.work[t].id].status.Dropped? && s.work[t].item.attempt + 1 < MAX_ATTEMPTS && !ExitRefused(s, t) ==>
      Active(Apply(s, PreLockFail(t)).rows[s.work[t].id])
  {
  }

  lemma PrependValid(s: State, a: Action, rest: seq<Action>)
    requires Enabled(s, a) && Valid(Apply(s, a), rest)
    ensures Valid(s, [a] + rest) && Exec(s, [a] + rest) == Exec(Apply(s, a), rest)
  {
    assert ([a] + rest)[1..] == rest;
  }

  /** One background attempt that fails before the lock, on a current copy. */
  lemma FailBeforeLock(s: State, t: nat, id: int) returns (s': State)
    requires t !in s.born && id in s.rows && Active(s.rows[id])
    ensures Valid(s, [Background(t, id), PreLockFail(t)]) && s' == Exec(s, [Background(t, id), PreLockFail(t)])
    ensures s'.work == s.work - {t} && s'.born == s.born + {t}
    ensures id in s'.rows && s'.rows[id].attempt == s.rows[id].attempt + 1 && s'.rows == s.rows[id := s'.rows[id]]
    ensures s'.rows[id].status == if s.rows[id].attempt + 1 >= MAX_ATTEMPTS then Dropped else Retrying
  {
    var s1 := Apply(s, Background(t, id));
    s' := Apply(s1, PreLockFail(t));
    PrependValid(s1, PreLockFail(t), []);
    PrependValid(s, Background(t, id), [PreLockFail(t)]);
    assert [Background(t, id)] + [PreLockFail(t)] == [Background(t, id), PreLockFail(t)];
  }

  lemma {:induction false} ValidConcat(s: State, first: seq<Action>, second: seq<Action>)
    requires Valid(s, first) && Valid(Exec(s, first), second)
    ensures Valid(s, first + second) && Exec(s, first + second) == Exec(Exec(s, first), second)
    decreases |first|
  {
    if first == [] {
      assert first + second == second;
    } else {
      ValidConcat(Apply(s, first[0]), first[1..], second);
      assert (first + second)[1..] == first[1..] + second;
    }
  }

  /** A dispatch puts a pending row in place and keeps its own copy. */
  lemma DispatchStarts(s: State, key: string, id: int) returns (actions: seq<Action>, s': State)
    requires Init(s)
    ensures Valid(s, actions) && s' == Exec(s, actions)
    ensures s'.rows == map[id := Row(key, Pending, 0)] && s'.born == {0}
    ensures s'.work == map[0 := Started(id, Row(key, Pending, 0))]
  {
    var s1 := Apply(s, CheckRecent(0, key));
    s' := Apply(s1, Accept(0, id));
    PrependValid(s1, Accept(0, id), []);
    PrependValid(s, CheckRecent(0, key), [Accept(0, id)]);
    actions := [CheckRecent(0, key)] + [Accept(0, id)];
  }

  /** Background attempts t, t + 1, ... that all fail before the lock, until the row is dropped. */
  lemma {:induction false} FailUntilDropped(s: State, t: nat, id: int) returns (actions: seq<Action>, s': State)
    requires id in s.rows && Active(s.rows[id]) && s.rows[id].attempt < MAX_ATTEMPTS && 0 < t
    requires forall u :: u in s.born ==> u < t
    ensures Valid(s, actions) && s' == Exec(s, actions)
    ensures id in s'.rows && s'.rows[id].status.Dropped? && s'.rows == s.rows[id := s'.rows[id]]
    ensures 0 in s.work ==> 0 in s'.work && s'.work[0] == s.work[0]
    decreases MAX_ATTEMPTS - s.rows[id].attempt
  {
    actions := [Background(t, id), PreLockFail(t)];
    s' := FailBeforeLock(s, t, id);
    if !s'.rows[id].status.Dropped? {
      var more, end := FailUntilDropped(s', t + 1, id);
      ValidConcat(s, actions, more);
      actions, s' := actions + more, end;
    }
  }

  /** The budget does not hold with pre-lock exits: a run in which a dropped row comes back to life, because the
      dispatching thread still holds its first copy when the row has already failed four times. */
  lemma DroppedRowRevived(s: State) returns (before: seq<Action>, a: Action, id: int)
    requires Init(s)
    ensures Valid(s, before) && Enabled(Exec(s, before), a)
    ensures id in Exec(s, before).rows && Exec(s, before).rows[id].status.Dropped?
    ensures id in Apply(Exec(s, before), a).rows && Active(Apply(Exec(s, before), a).rows[id])
  {
    id := 7;
    var start, s1 := DispatchStarts(s, "k", id);
    var rest, s2 := FailUntilDropped(s1, 1, id);
    ValidConcat(s, start, rest);
    before, a := start + rest, PreLockFail(0);
    PreLockExitIsExactWhenCurrent(s2, 0);
  }
}
