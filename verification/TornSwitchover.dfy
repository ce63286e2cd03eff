/** The one place a stop costs the Service its restore: after the Active patch and
    before the status patch. The status then names the outgoing restore, and the next
    sweep takes the restore the Service names for a leftover. */
module TornSwitchover {
  import opened Options
  import opened Protocol
  import opened PassPlans
  import opened RunRules
  import opened Scenarios

  lemma {:induction false} StaleIsDeleted(names: seq<Name>, undeleted: set<Name>, lingers: set<Name>, n: Name)
    requires n in names && n !in undeleted
    ensures SweepDelete(n, n in lingers) in SweepDeletes(names, undeleted, lingers)
  {
    if names[0] != n {
      StaleIsDeleted(names[1..], undeleted, lingers, n);
    }
  }

  predicate Takes(tail: seq<Tail>, n: Name) {
    exists w :: w in tail && Deletes(w) && w.restore == n
  }

  /** A pass plans to delete the Active restore `n` exactly when the sweep runs and the
      status does not name `n`; whether the Service names it is not consulted. */
  lemma PlannedExactly(s: State, c: Choices, n: Name)
    requires !s.spec.ephemeral && ValidChoices(s, c) && c.switching.None?
    requires s.Has(n, Active) && n !in c.undeleted
    ensures Takes(Plan(s, c).tail, n) <==> SweepGuard(s) && s.status.current != Some(n)
  {
    if SweepGuard(s) && s.status.current != Some(n) {
      assert IsStale(s, n);
      StaleIsDeleted(c.stale, c.undeleted, c.lingers, n);
      assert SweepDelete(n, n in c.lingers) in SweepTail(s, c);
    }
    if Takes(Plan(s, c).tail, n) {
      var w :| w in Plan(s, c).tail && Deletes(w) && w.restore == n;
      RestWrite(s, c, w);
      if w.CleanFailed? {
        assert IsExpired(s, n);
      }
    }
  }

  predicate Leaves(s: State, n: Name) { n !in s.restores || s.restores[n].deleting }

  lemma WorkOnTail(s: State, n: Name)
    requires s.pass.Some? && s.pass.value.gates == [] && s.pass.value.switch.None? && s.pass.value.tail != []
    ensures var w, t := s.pass.value.tail[0], DoWork(s);
      && t.service == s.service
      && (Leaves(s, n) && !Creates(w) ==> Leaves(t, n))
      && (Deletes(w) && w.restore == n ==> Leaves(t, n))
      && (!(Deletes(w) && w.restore == n) && !Leaves(s, n) ==> !Leaves(t, n))
  {
  }

  lemma TakesAfter(tail: seq<Tail>, n: Name)
    ensures Takes(WithoutClear(tail), n) <==> Takes(tail, n)
    ensures tail != [] ==> (Takes(tail, n) <==> (Deletes(tail[0]) && tail[0].restore == n) || Takes(tail[1..], n))
  {
    forall w ensures w in WithoutClear(tail) <==> w in tail && !w.ClearPhases? { WithoutClearIs(tail, w); }
    if tail != [] {
      assert tail == [tail[0]] + tail[1..];
    }
  }

  lemma CreatesLastAfter(tail: seq<Tail>)
    requires CreatesLast(tail) && tail != []
    ensures CreatesLast(tail[1..]) && CreatesLast(WithoutClear(tail[1..]))
    ensures Creates(tail[0]) ==> forall n :: !Takes(tail[1..], n)
  {
    WithoutClearCreatesLast(tail[1..]);
    if Creates(tail[0]) {
      forall w | w in tail[1..] ensures !Deletes(w) {
        var j :| 1 <= j < |tail| && tail[j] == w;
      }
    }
  }

  /** The new restore's name carries the time it is made, so it is not an old one's. */
  ghost predicate Anew(tail: seq<Tail>, n: Name) {
    forall w :: w in tail && w.CreateRestore? ==> w.restore != n
  }

  lemma AnewAfter(tail: seq<Tail>, n: Name)
    requires Anew(tail, n) && tail != []
    ensures Anew(tail[1..], n) && Anew(WithoutClear(tail[1..]), n)
  {
    forall w ensures w in WithoutClear(tail[1..]) <==> w in tail[1..] && !w.ClearPhases? { WithoutClearIs(tail[1..], w); }
  }

  /** Left alone, a pass deletes what it planned to and nothing else. */
  lemma {:induction false} FinishTakes(s: State, n: Name)
    requires s.pass.Some? && s.pass.value.gates == [] && s.pass.value.switch.None? && CreatesLast(s.pass.value.tail)
    requires !Leaves(s, n) && Anew(s.pass.value.tail, n)
    ensures Finish(s).service == s.service
    ensures Leaves(Finish(s), n) <==> Takes(s.pass.value.tail, n)
    decreases WritesLeft(s.pass)
  {
    var tail := s.pass.value.tail;
    if tail == [] {
      assert Finish(DoWork(s)) == DoWork(s);
    } else {
      var t := DoWork(s);
      WorkShrinks(s);
      WorkOnTail(s, n);
      TailLeaves(s);
      CreatesLastAfter(tail);
      TakesAfter(tail, n);
      TakesAfter(tail[1..], n);
      AnewAfter(tail, n);
      if t.pass.Some? {
        if Leaves(t, n) { FinishStaysGone(t, n); } else { FinishTakes(t, n); }
      }
    }
  }

  lemma {:induction false} FinishStaysGone(s: State, n: Name)
    requires s.pass.Some? && s.pass.value.gates == [] && s.pass.value.switch.None?
    requires Leaves(s, n) && Anew(s.pass.value.tail, n)
    ensures Finish(s).service == s.service && Leaves(Finish(s), n)
    decreases WritesLeft(s.pass)
  {
    var tail := s.pass.value.tail;
    if tail == [] {
      assert Finish(DoWork(s)) == DoWork(s);
    } else {
      var t := DoWork(s);
      WorkShrinks(s);
      TailLeaves(s);
      AnewAfter(tail, n);
      assert tail[0] in tail;
      if t.pass.Some? {
        FinishStaysGone(t, n);
      }
    }
  }

  /** A pass, left alone, takes the restore the Service names exactly when the sweep's
      own guard holds and the status names another restore: the state a stop after the
      Active patch leaves, and the only one that does it. */
  lemma ServedRestoreLostExactly(s: State, c: Choices, n: Name)
    requires !s.spec.ephemeral && s.pass.None? && ValidChoices(s, c) && c.switching.None?
    requires s.service == Some(n) && s.Has(n, Active) && !s.restores[n].deleting
    requires n !in c.undeleted && c.newName != n
    ensures var t := Finish(Step(s, BeginPass(c)));
      t.service == Some(n) && (Leaves(t, n) <==> SweepGuard(s) && s.status.current != s.service)
  {
    var begun := Step(s, BeginPass(c));
    forall w | w in begun.pass.value.tail && w.CreateRestore? ensures w.restore != n {
      CreatedName(s, c, w);
    }
    RestCreatesLast(s, c);
    FinishTakes(begun, n);
    PlannedExactly(s, c, n);
  }

  // ----- The run that reaches it --------------------------------------------------

  /** The status names `outgoing`, the Service names `incoming`, and nothing else is going on. */
  ghost predicate Split(s: State, outgoing: Name, incoming: Name) {
    && s.pass == None && !s.spec.ephemeral && s.spec.schemas.NotConfigured? && !s.spec.redaction
    && s.status.redaction == None && outgoing != incoming
    && s.Has(outgoing, Active) && s.Has(incoming, Active) && (forall n :: n in s.restores ==> n == outgoing || n == incoming)
    && s.status.current == Some(outgoing) && s.service == Some(incoming)
    && s.status.completedAt.Some? && s.now - s.status.completedAt.value > s.spec.grace
  }

  function SweepOf(outgoing: Name, incoming: Name): Choices {
    Plain(None, Some(outgoing), None, 0).(stale := [incoming])
  }

  lemma SplitPlan(s: State, outgoing: Name, incoming: Name)
    requires Split(s, outgoing, incoming)
    ensures ValidChoices(s, SweepOf(outgoing, incoming))
    ensures var p := Plan(s, SweepOf(outgoing, incoming));
      p.gates == [] && p.switch == None && p.tail != [] && p.tail[0] == SweepDelete(incoming, false)
  {
    var c := SweepOf(outgoing, incoming);
    assert SweepDeletes([incoming], {}, {}) == [SweepDelete(incoming, false)];
  }

  lemma SweptAway(s0: State, s: State, outgoing: Name, incoming: Name)
    requires Reaches(s0, s, NoHand) && Split(s, outgoing, incoming)
    ensures exists t :: Reaches(s0, t, NoHand) && t.service.Some? && t.service.value !in t.restores
  {
    SplitPlan(s, outgoing, incoming);
    ReachesStep(s0, s, BeginPass(SweepOf(outgoing, incoming)), NoHand);
    var begun := Step(s, BeginPass(SweepOf(outgoing, incoming)));
    ReachesStep(s0, begun, Work, NoHand);
    assert incoming !in Step(begun, Work).restores;
  }

  /** The first restore served, and the second waiting for its switchover. */
  function SecondWaiting(s: State): State
    requires s.restores == map[]
  {
    var one := Switched(s.(restores := s.restores[0 := Fresh(0, s.now)]), 0);
    one.(restores := one.restores[1 := Fresh(1, one.now)])
  }

  lemma SecondWaits(s: State)
    requires FreshKopia(s) && !s.spec.redaction && s.status.redaction == None
    ensures Reaches(s, SecondWaiting(s), Smooth) && Waiting(SecondWaiting(s), Some(0), 1)
  {
    ReachesSelf(s, Smooth);
    RestoreSwitches(s, s, None, 0, 0);
    var first := s.(restores := s.restores[0 := Fresh(0, s.now)]);
    SwitchCompletes(s, first, None, 0);
    FirstServed(first, 0);
    RestoreSwitches(s, Switched(first, 0), Some(0), 1, 1);
  }

  /** The operator stops with the second restore Active and not yet recorded, and comes back
      once the grace period is over. */
  function Stopped(second: State): State
    requires 1 in second.restores
  {
    var grace := second.spec.grace;
    Activated(second, 1).(now := second.now + (if grace < 0 then 0 else grace + 1))
  }

  lemma StopReaches(s: State, second: State)
    requires Waiting(second, Some(0), 1) && Reaches(s, second, NoHand)
    ensures Reaches(s, Stopped(second), NoHand)
  {
    SwitchStops(s, second, Some(0), 1, NoHand);
    var stopped := Activated(second, 1);
    ReachesStep(s, stopped.(pass := After(Switch(1, second.status.current, ToStamp), ToStamp)), Stop, NoHand);
    ReachesStep(s, stopped, Tick(if second.spec.grace < 0 then 0 else second.spec.grace + 1), NoHand);
  }

  lemma StopSplits(s: State)
    requires FreshKopia(s) && !s.spec.redaction && s.status.redaction == None
    ensures Split(Stopped(SecondWaiting(s)), 0, 1)
  { }

  /** From every fresh replica whose restores run smoothly, one stop in the second
      switchover is enough: the Service ends up naming a restore that is gone. */
  lemma OneStopLosesServedRestore(s: State)
    requires FreshKopia(s) && !s.spec.redaction && s.status.redaction == None
    ensures exists t :: Reaches(s, t, NoHand) && t.service.Some? && t.service.value !in t.restores
  {
    SecondWaits(s);
    var second := SecondWaiting(s);
    ReachesWeaker(s, second, Smooth, NoHand);
    StopReaches(s, second);
    StopSplits(s);
    SweptAway(s, Stopped(second), 0, 1);
  }
}
