/** Where the failure backoff is lost: a failure that the replica's status does not record,
    and a pass that had already decided on a time and writes it over the delay. */
module FailureGap {
  import opened Options
  import opened Protocol
  import opened PassPlans
  import opened RunRules
  import opened Scenarios
  import opened FailureSpacing

  // ----- Exactly when the delay is there afterwards -----------------------------------

  /** The last time that the pass in hand, left alone, still sets. */
  ghost function LastSet(s: State): Option<int>
    decreases WritesLeft(s.pass)
  {
    if s.pass.None? then None
    else
      WorkShrinks(s);
      var later := LastSet(DoWork(s));
      if later.None? && InTail(s) && s.pass.value.tail[0].SetSchedule? then Some(s.pass.value.tail[0].at) else later
  }

  lemma ScheduleAfterWork(s: State)
    requires s.pass.Some?
    ensures DoWork(s).status.nextScheduled ==
      if InTail(s) && s.pass.value.tail[0].SetSchedule? then Some(s.pass.value.tail[0].at) else s.status.nextScheduled
  {
    if InTail(s) {
      match s.pass.value.tail[0]
      case RecordVerified(_) => case TearDown(_, _) => case SweepDelete(_, _) => case ClearPhases =>
      case CleanFailed(_, _) => case TakeListing => case DropListJob => case CreateRestore(_, _, _) =>
      case SetSchedule(_) => case CreateListJob =>
    }
  }

  lemma {:induction false} ScheduleAfterPass(s: State)
    ensures Finish(s).status.nextScheduled == if LastSet(s).Some? then LastSet(s) else s.status.nextScheduled
    decreases WritesLeft(s.pass)
  {
    if s.pass.Some? {
      WorkShrinks(s);
      ScheduleAfterWork(s);
      ScheduleAfterPass(DoWork(s));
    }
  }

  /** The next attempt is not due before the delay is up. */
  predicate Waits(status: Status, due: int) { status.nextScheduled.Some? && status.nextScheduled.value >= due }

  /** After a failure, with the pass in hand left alone, the next attempt waits out the
      delay if and only if the last time that pass still sets is no earlier; or, where it
      sets none, if and only if the failure was recorded or the replica had such a time
      already. */
  lemma DelaySurvivesExactly(s: State, n: Name, o: Observation)
    requires Fails(s, RestorePass(n, o))
    ensures var due := s.now + FailureBackoff(s.status.failures + 1);
      var last := LastSet(RestoreStep(s, n, o));
      Waits(Finish(RestoreStep(s, n, o)).status, due) <==>
        if last.Some? then last.value >= due else o.recorded || Waits(s.status, due)
  {
    ScheduleAfterPass(RestoreStep(s, n, o));
  }

  function LastOf(tail: seq<Tail>): Option<int> {
    if tail == [] then None
    else if LastOf(tail[1..]).None? && tail[0].SetSchedule? then Some(tail[0].at) else LastOf(tail[1..])
  }

  lemma {:induction false} LastOfWithoutClear(tail: seq<Tail>)
    ensures LastOf(WithoutClear(tail)) == LastOf(tail)
  {
    if tail != [] {
      LastOfWithoutClear(tail[1..]);
      if !tail[0].ClearPhases? {
        assert WithoutClear(tail) == [tail[0]] + WithoutClear(tail[1..]);
        assert WithoutClear(tail)[1..] == WithoutClear(tail[1..]);
      } else {
        assert WithoutClear(tail) == [] + WithoutClear(tail[1..]) == WithoutClear(tail[1..]);
      }
    }
  }

  /** Once a pass has made what it makes, that is the last time among its writes. */
  lemma {:induction false} LastSetIs(s: State)
    requires s.pass.Some? && s.pass.value.gates == [] && s.pass.value.switch.None?
    requires forall w <- s.pass.value.tail :: !Creates(w)
    ensures LastSet(s) == LastOf(s.pass.value.tail)
    decreases WritesLeft(s.pass)
  {
    var tail := s.pass.value.tail;
    WorkShrinks(s);
    if tail != [] {
      assert tail[0] in tail;
      TailLeaves(s);
      LastOfWithoutClear(tail[1..]);
      forall w | w in WithoutClear(tail[1..]) ensures w in tail[1..] { WithoutClearIs(tail[1..], w); }
      LastSetIs(DoWork(s));
    }
  }

  // ----- The runs that lose it ------------------------------------------------------------

  function Failing(recorded: bool): Observation {
    Healthy.(jobSucceeded := false, jobFailed := true, recorded := recorded)
  }

  function Broken(snapshot: Snapshot, at: int): Restore { Begun(snapshot, at).(phase := Some(Failed)) }

  /** `n` failed just now. */
  function Fell(s: State, n: Name, snapshot: Snapshot, recorded: bool): State {
    var fell := s.(restores := s.restores[n := Broken(snapshot, s.now)],
                   history := s.history.(failTimes := s.history.failTimes + [s.now]));
    if recorded then RecordFailure(fell) else fell
  }

  lemma RestoreFails(s0: State, s: State, n: Name, snapshot: Snapshot, recorded: bool, rule: (State, Event) -> bool)
    requires Reaches(s0, s.(restores := s.restores[n := Begun(snapshot, s.now)]), rule)
    requires rule(s.(restores := s.restores[n := Begun(snapshot, s.now)]), RestorePass(n, Failing(recorded)))
    ensures Reaches(s0, Fell(s, n, snapshot, recorded), rule)
  {
    var begun := s.(restores := s.restores[n := Begun(snapshot, s.now)]);
    ReachesStep(s0, begun, RestorePass(n, Failing(recorded)), rule);
    assert begun.restores[n := Broken(snapshot, s.now)] == s.restores[n := Broken(snapshot, s.now)];
  }

  /** Smooth, but for failures that are not recorded. */
  predicate Unnoted(s: State, e: Event) {
    && !e.Stop? && !e.Restart? && !e.OutsideDelete?
    && (e.BeginPass? ==> !e.choices.scheduleChanged && NoneUnphased(s))
  }

  lemma FellIdle(s: State)
    requires FreshKopia(s)
    ensures Idle(Fell(s, 0, 0, false), None, [])
  {
    assert LiveNames(Fell(s, 0, 0, false).restores) == {};
  }

  /** Where the replica's patch is lost, the next attempt starts and fails in the very second
      the last one did. */
  lemma UnrecordedFailuresAtOnce(s: State)
    requires FreshKopia(s)
    ensures exists t :: Reaches(s, t, Unnoted) && t.history.failTimes == [s.now, s.now] && t.status == s.status
  {
    ReachesSelf(s, Unnoted);
    RestoreStarts(s, s, None, [], 0, 0, Unnoted);
    RestoreFails(s, s, 0, 0, false, Unnoted);
    var one := Fell(s, 0, 0, false);
    FellIdle(s);
    RestoreStarts(s, one, None, [], 1, 0, Unnoted);
    RestoreFails(s, one, 1, 0, false, Unnoted);
    assert Fell(one, 1, 0, false).history.failTimes == [s.now, s.now];
  }

  /** The pass that makes the first restore is still to set the schedule when it fails. */
  function Overwritten(s: State, at: int): State {
    var fell := Fell(s, 0, 0, true);
    fell.(status := fell.status.(nextScheduled := Some(at)))
  }

  lemma DelayOverwritten(s: State, at: int)
    requires FreshKopia(s)
    ensures Reaches(s, Overwritten(s, at), Smooth)
  {
    ReachesSelf(s, Smooth);
    RestoreCreated(s, s, None, [], 0, 0, Some(at), Smooth);
    var setting := s.(pass := Some(Pass([], None, SetTail(s, Some(at)))));
    assert Made(setting, 0, 0) == Made(s, 0, 0).(pass := setting.pass);
    RestoreBegins(s, setting, 0, 0, Smooth);
    RestoreFails(s, setting, 0, 0, true, Smooth);
    SetTailRuns(s, s, Fell(setting, 0, 0, true), at);
  }

  lemma OverwrittenIdle(s: State)
    requires FreshKopia(s)
    ensures Idle(Overwritten(s, s.now + 1).(now := s.now + 1), None, [])
  {
    assert LiveNames(Overwritten(s, s.now + 1).restores) == {};
  }

  /** With every failure recorded, a pass in hand that goes on to set an earlier time lets two
      failures come a second apart, where the delay between them is two minutes. */
  lemma PendingScheduleLosesDelay(s: State)
    requires FreshKopia(s)
    ensures exists t :: Reaches(s, t, Smooth) && t.history.failTimes == [s.now, s.now + 1] && t.status.failures == 2
  {
    DelayOverwritten(s, s.now + 1);
    var one := Overwritten(s, s.now + 1);
    ReachesStep(s, one, Tick(1), Smooth);
    var later := one.(now := s.now + 1);
    OverwrittenIdle(s);
    RestoreStarts(s, later, None, [], 1, 0, Smooth);
    RestoreFails(s, later, 1, 0, true, Smooth);
    assert Fell(later, 1, 0, true).history.failTimes == [s.now, s.now + 1];
  }
}
