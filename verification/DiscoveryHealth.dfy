/** The health columns of an account under concurrent writers: a successful model discovery must not wipe out an error
    that something else has just recorded. Each statement is one step; the discovery's read, test and compare-and-set
    are three steps with anything in between. */
module DiscoveryHealth {
  import opened Basics
  import opened Routability

  const MINUTE := 60 * SECOND
  const GRACE := 5 * MINUTE

  /** What the compare-and-set compares. `checkedAt` is last_checked_at in whole seconds, None when it is blank. */
  datatype HealthTuple = Tuple(status: Health, error: string, checkedAt: Option<int>)

  /** `recordedAt` is the instant at which the present tuple was recorded. */
  datatype State = State(now: int, row: HealthTuple, recordedAt: int, discoveries: map<nat, Discovery>)

  /** A discovery that succeeded upstream: it has read a tuple, or has also found that nothing need be preserved. */
  datatype Discovery = Examining(seen: HealthTuple) | Cleared(seen: HealthTuple)

  datatype Action =
    | Tick(d: nat)
    | Read(g: nat)                              // the row as it is now
    | ReadFailed(g: nat, cached: HealthTuple)       // the fallback: the copy the checker started from
    | GraceTest(g: nat)
    | Write(g: nat, slow: bool)                 // UpdateAccountHealthIfUnchanged
    | Record(status: Health, error: string)     // any unconditional health write, stamped now
    | RecordServing(error: string)              // a serving failure: new error text and stamp, status unchanged
    | Disable                                   // status only
    | Restore(tuple: HealthTuple, at: int)          // an import rollback puts back an older tuple with its own stamp

  predicate IsDiscoveryError(error: string) {
    var e := TrimSpace(error);
    e == "CPA service unreachable" || ("Get " <= e && MentionsModels(Fold(e)))
  }

  predicate MentionsModels(e: string) { exists i :: 0 <= i < |e| && OccursAt("/models", e, i) }

  predicate OccursAt(word: string, e: string, i: nat) { i <= |e| && word <= e[i..] }

  /** A recent error from elsewhere is preserved. */
  predicate Preserve(t: HealthTuple, now: int) {
    && t.status.Errored? && !IsDiscoveryError(t.error) && t.checkedAt.Some?
    && (t.checkedAt.value * SECOND > now || now - t.checkedAt.value * SECOND < GRACE)
  }

  predicate Enabled(s: State, a: Action) {
    match a
    case Read(g) => g !in s.discoveries
    case ReadFailed(g, _) => g !in s.discoveries
    case GraceTest(g) => g in s.discoveries && s.discoveries[g].Examining?
    case Write(g, _) => g in s.discoveries && s.discoveries[g].Cleared?
    case Restore(_, at) => at <= s.now
    case _ => true
  }

  function Stamp(now: int): Option<int> { Some(WholeSecond(now)) }

  function Apply(s: State, a: Action): State
    requires Enabled(s, a)
  {
    match a
    case Tick(d) => s.(now := s.now + d)
    case Read(g) => s.(discoveries := s.discoveries[g := Examining(s.row)])
    case ReadFailed(g, cached) => s.(discoveries := s.discoveries[g := Examining(cached)])
    case GraceTest(g) =>
      var seen := s.discoveries[g].seen;
      if Preserve(seen, s.now) then s.(discoveries := s.discoveries - {g})
      else s.(discoveries := s.discoveries[g := Cleared(seen)])
    case Write(g, slow) =>
      var done := s.(discoveries := s.discoveries - {g});
      if s.row != s.discoveries[g].seen then done
      else done.(row := Tuple(if slow then Degraded else Healthy, if slow then "slow response" else "", Stamp(s.now)),
                 recordedAt := s.now)
    case Record(status, error) => s.(row := Tuple(status, error, Stamp(s.now)), recordedAt := s.now)
    case RecordServing(error) => s.(row := Tuple(s.row.status, error, Stamp(s.now)), recordedAt := s.now)
    case Disable => s.(row := s.row.(status := Disabled))
    case Restore(tuple, at) => s.(row := tuple, recordedAt := at)
  }

  /** A restored tuple carries the stamp of the instant it was first recorded at. */
  predicate HonestRestore(a: Action) {
    a.Restore? && a.tuple.status.Errored? ==> a.tuple.checkedAt == Stamp(a.at)
  }

  /** An error row is stamped with the second in which it was recorded. */
  predicate Stamped(s: State) {
    && s.recordedAt <= s.now
    && (s.row.status.Errored? ==> s.row.checkedAt == Stamp(s.recordedAt))
  }

  /** A cleared discovery passed the grace test on the tuple it holds, at some instant not after now. */
  ghost predicate Justified(s: State, g: nat) {
    g in s.discoveries && s.discoveries[g].Cleared? ==>
      exists tested :: tested <= s.now && !Preserve(s.discoveries[g].seen, tested)
  }

  ghost predicate Inv(s: State) { Stamped(s) && forall g :: Justified(s, g) }

  lemma StepKeepsInv(s: State, a: Action)
    requires Inv(s) && Enabled(s, a) && HonestRestore(a)
    ensures Inv(Apply(s, a))
  {
    var s' := Apply(s, a);
    forall g ensures Justified(s', g) {
      assert Justified(s, g);
      if g in s'.discoveries && s'.discoveries[g].Cleared? {
        if g in s.discoveries && s.discoveries[g].Cleared? {
          var tested :| tested <= s.now && !Preserve(s.discoveries[g].seen, tested);
          assert tested <= s'.now && !Preserve(s'.discoveries[g].seen, tested);
        } else {
          assert s.now <= s'.now && !Preserve(s'.discoveries[g].seen, s.now);
        }
      }
    }
  }

  ghost predicate Valid(s: State, actions: seq<Action>)
    decreases |actions|
  {
    actions == [] || (Enabled(s, actions[0]) && HonestRestore(actions[0]) && Valid(Apply(s, actions[0]), actions[1..]))
  }

  ghost function Exec(s: State, actions: seq<Action>): State
    requires Valid(s, actions)
    decreases |actions|
  {
    if actions == [] then s else Exec(Apply(s, actions[0]), actions[1..])
  }

  lemma {:induction false} RunKeepsInv(s: State, actions: seq<Action>)
    requires Inv(s) && Valid(s, actions)
    ensures Inv(Exec(s, actions))
    decreases |actions|
  {
    if actions != [] {
      StepKeepsInv(s, actions[0]);
      RunKeepsInv(Apply(s, actions[0]), actions[1..]);
    }
  }

  /** The test compares whole seconds, so it can be off by less than one second, never by more. */
  lemma GraceMargin(recordedAt: int, tested: int, error: string)
    requires !Preserve(Tuple(Errored, error, Stamp(recordedAt)), tested) && !IsDiscoveryError(error)
    ensures tested - recordedAt > GRACE - SECOND
  {
  }

  /** Whatever happens between its read and its write, a discovery that replaces an error it did not itself cause does so
      more than five minutes less one second after the error was recorded. */
  lemma NoFreshErrorIsReplaced(start: State, actions: seq<Action>, g: nat, slow: bool)
    requires Inv(start) && Valid(start, actions)
    requires var s := Exec(start, actions);
      Enabled(s, Write(g, slow)) && s.row.status.Errored? && !IsDiscoveryError(s.row.error)
    ensures var s := Exec(start, actions);
      Apply(s, Write(g, slow)).row != s.row ==> s.now - s.recordedAt > GRACE - SECOND
  {
    RunKeepsInv(start, actions);
    var s := Exec(start, actions);
    if s.row == s.discoveries[g].seen {
      assert Justified(s, g);
      var tested :| tested <= s.now && !Preserve(s.discoveries[g].seen, tested);
      GraceMargin(s.recordedAt, tested, s.row.error);
    }
  }

  /** The bound is sharp: an error recorded at the very end of a second is replaced by a discovery that examines it
      five minutes after the start of that second, one nanosecond more than the bound after it was recorded. */
  lemma BoundIsSharp() returns (start: State, actions: seq<Action>)
    ensures Inv(start) && Valid(start, actions)
    ensures var s := Exec(start, actions);
      && Enabled(s, Write(0, false)) && s.row == Tuple(Errored, "upstream authentication failed", Some(0))
      && Apply(s, Write(0, false)).row.status.Healthy?
      && s.now - s.recordedAt == GRACE - SECOND + 1
  {
    start := State(SECOND - 1, Tuple(Errored, "upstream authentication failed", Some(0)), SECOND - 1, map[]);
    actions := [Tick(GRACE - SECOND + 1), Read(0), GraceTest(0)];
    var s1 := Apply(start, actions[0]);
    var s2 := Apply(s1, actions[1]);
    assert start.row.error[0] != "Get "[0];
    var s3 := Apply(s2, actions[2]);
    assert Valid(s3, []) && Exec(s3, []) == s3 && [actions[2]][1..] == [];
    assert Valid(s2, [actions[2]]) && Exec(s2, [actions[2]]) == s3;
    assert actions[1..][1..] == [actions[2]];
    assert Valid(s1, actions[1..]) && Exec(s1, actions[1..]) == s3;
  }

  /** A discovery that nothing disturbs replaces the row if and only if the row is not a foreign error that was stamped less
      than five minutes ago, or in the future; slow answers leave the account degraded. */
  lemma UndisturbedDiscovery(s: State, g: nat, slow: bool)
    requires g !in s.discoveries
    ensures var seen := Apply(s, Read(g)); var examined := Apply(seen, GraceTest(g));
      var kept := && s.row.status == Errored && !IsDiscoveryError(s.row.error) && s.row.checkedAt.Some?
                  && s.now - s.row.checkedAt.value * 1_000_000_000 < 300 * 1_000_000_000;
      && (kept ==> examined == s)
      && (!kept ==> Enabled(examined, Write(g, slow)) && var after := Apply(examined, Write(g, slow));
            && after.row.status == (if slow then Degraded else Healthy) && (!slow ==> after.row.error == "") && after.row.checkedAt == Some(s.now / 1_000_000_000)
            && after.recordedAt == s.now && after.discoveries == s.discoveries)
  {
    var seen := Apply(s, Read(g));
    assert seen.discoveries - {g} == s.discoveries;
  }

  /** Which errors count as the discovery's own: the unreachable service, and failed GETs of a models endpoint. */
  lemma DiscoveryErrorMeans(error: string)
    ensures IsDiscoveryError(error) <==>
      var e := TrimSpace(error);
      || e == "CPA service unreachable"
      || (|e| >= 4 && e[..4] == "Get " && exists before: string, after: string :: Fold(e) == before + "/models" + after)
  {
    var e := TrimSpace(error);
    var folded := Fold(e);
    if MentionsModels(folded) {
      var i :| 0 <= i < |folded| && OccursAt("/models", folded, i);
      assert folded == folded[..i] + "/models" + folded[i + 7..];
    }
    if before: string, after: string :| folded == before + "/models" + after {
      assert folded[|before|..] == "/models" + after;
      assert OccursAt("/models", folded, |before|);
    }
  }
}
