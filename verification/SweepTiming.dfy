/** What a sweep meets. A pass decides to sweep only when it finds no restore Switching, but
    its deletes come one after another, and the restore controller goes on in between. */
module SweepTiming {
  import opened Options
  import opened Protocol
  import opened PassPlans
  import opened RunRules
  import opened Scenarios
  import Switchover

  /** The pass in hand has stale restores left to delete. */
  predicate Sweeping(s: State) {
    s.pass.Some? && exists i :: 0 <= i < |s.pass.value.tail| && s.pass.value.tail[i].SweepDelete?
  }

  /** The restores that have become Switching since the pass in hand decided to sweep. */
  ghost function LateStep(s: State, late: set<Name>, e: Event): set<Name> {
    if !Sweeping(Step(s, e)) then {}
    else if EntersSwitching(s, e) then late + {e.restore}
    else late
  }

  ghost function Late(s: State, late: set<Name>, events: seq<Event>): set<Name>
    decreases |events|
  {
    if events == [] then late else Late(Step(s, events[0]), LateStep(s, late, events[0]), events[1..])
  }

  /** While it sweeps, those are the restores that are Switching. */
  ghost predicate Tracked(s: State, late: set<Name>) {
    && (if Sweeping(s) then forall n: Name :: s.Has(n, Switching) <==> n in late else late == {})
    && (s.pass.Some? && s.pass.value.tail != [] ==> s.pass.value.gates == [] && s.pass.value.switch.None?)
  }

  /** A pass that decides to sweep has found no restore Switching. */
  lemma BeginTracked(s: State, c: Choices)
    requires s.pass.None? && ValidChoices(s, c) && !s.spec.ephemeral
    ensures Tracked(s.(pass := Some(Plan(s, c))), {})
  { }

  /** A write of the tail makes no restore Switching and deletes none that is. */
  lemma TailSwitching(s: State, n: Name)
    requires Switchover.Inv(s) && InTail(s)
    ensures DoWork(s).Has(n, Switching) <==> s.Has(n, Switching)
  {
    TailTouches(s, n);
    assert Switchover.WriteSafe(s, s.pass.value.tail[0]);
    if s.Has(n, Switching) && n !in DoWork(s).restores {
      Switchover.TailDeletes(s, n);
    }
  }

  lemma SweepShrinks(s: State)
    requires InTail(s) && Sweeping(DoWork(s))
    ensures Sweeping(s)
  {
    TailLeaves(s);
    var tail, left := s.pass.value.tail, DoWork(s).pass.value.tail;
    var i :| 0 <= i < |left| && left[i].SweepDelete?;
    WithoutClearIs(tail[1..], left[i]);
    assert left[i] in tail[1..];
  }

  lemma WorkTracked(s: State, late: set<Name>)
    requires Switchover.Inv(s) && Tracked(s, late) && s.pass.Some?
    ensures Tracked(DoWork(s), if Sweeping(DoWork(s)) then late else {})
  {
    if InTail(s) {
      TailLeaves(s);
      if Sweeping(DoWork(s)) {
        SweepShrinks(s);
        forall n: Name ensures DoWork(s).Has(n, Switching) <==> s.Has(n, Switching) { TailSwitching(s, n); }
      }
    }
  }

  lemma RestorePassTracked(s: State, n: Name, o: Observation, late: set<Name>)
    requires Tracked(s, late) && n in s.restores
    ensures Tracked(RestoreStep(s, n, o), LateStep(s, late, RestorePass(n, o)))
  {
    var t := RestoreStep(s, n, o);
    assert t.pass == s.pass;
    if Sweeping(s) {
      forall m: Name ensures t.Has(m, Switching) <==> s.Has(m, Switching) || (m == n && EntersSwitching(s, RestorePass(n, o))) { }
    }
  }

  /** Events that leave the phases of the restores alone and at most end the pass. */
  predicate Aside(e: Event) { !e.BeginPass? && !e.Work? && !e.RestorePass? && !e.OutsideDelete? }

  lemma AsideTracked(s: State, e: Event, late: set<Name>)
    requires Switchover.Inv(s) && Tracked(s, late) && Aside(e)
    ensures Tracked(Step(s, e), LateStep(s, late, e))
  {
    var t := Step(s, e);
    assert t.pass == s.pass || t.pass == None;
    forall n: Name ensures t.Has(n, Switching) <==> s.Has(n, Switching) { AsideSwitching(s, e, n); }
  }

  lemma AsideSwitching(s: State, e: Event, n: Name)
    requires OnlyFinishedDeleted(s) && Aside(e)
    ensures Step(s, e).Has(n, Switching) <==> s.Has(n, Switching)
  {
    match e
    case Stop => case Restart => case WithdrawTarget(_) => case Tick(_) => case MigrationJobEnds(_) =>
    case MigrationJobGone => case ListingPosted => case ListJobEnds(_) => case ListJobGone =>
    case SetDesired(_) => case Gone(_) =>
  }

  lemma StepTracked(s: State, e: Event, late: set<Name>)
    requires Switchover.Inv(s) && Tracked(s, late) && Switchover.Untorn(s, e)
    ensures Tracked(Step(s, e), LateStep(s, late, e))
  {
    match e
    case BeginPass(c) => if s.pass.None? && ValidChoices(s, c) { BeginTracked(s, c); }
    case Work => if s.pass.Some? { WorkTracked(s, late); }
    case RestorePass(n, o) => if n in s.restores { RestorePassTracked(s, n, o, late); }
    case _ => AsideTracked(s, e, late);
  }

  lemma {:induction false} RunTracked(s: State, late: set<Name>, events: seq<Event>)
    requires Switchover.Inv(s) && Tracked(s, late) && Along(s, events, Switchover.Untorn)
    ensures Switchover.Inv(Run(s, events)) && Tracked(Run(s, events), Late(s, late, events))
    decreases |events|
  {
    if events != [] {
      Switchover.StepKeeps(s, events[0]);
      StepTracked(s, events[0], late);
      RunTracked(Step(s, events[0]), LateStep(s, late, events[0]), events[1..]);
    }
  }

  /** On every run: while a pass has stale restores left to delete, a restore is Switching if
      and only if it became so after the pass decided to sweep. */
  lemma SweepMeetsOnlyLate(s: State, events: seq<Event>, n: Name)
    requires Initial(s) && !s.spec.ephemeral && Along(s, events, Switchover.Untorn)
    requires Sweeping(Run(s, events))
    ensures Run(s, events).Has(n, Switching) <==> n in Late(s, {}, events)
  {
    RunTracked(s, {}, events);
  }

  /** No restore becomes Switching while a pass sweeps. */
  predicate NoneLate(s: State, e: Event) { Switchover.Untorn(s, e) && (EntersSwitching(s, e) ==> !Sweeping(s)) }

  lemma {:induction false} NoneLateEmpty(s: State, events: seq<Event>)
    requires Along(s, events, NoneLate)
    ensures Late(s, {}, events) == {} && Along(s, events, Switchover.Untorn)
    decreases |events|
  {
    if events != [] {
      var t := Step(s, events[0]);
      if EntersSwitching(s, events[0]) { assert t.pass == s.pass; }
      NoneLateEmpty(t, events[1..]);
    }
  }

  /** So on every run on which the restore controller waits for the sweep, no sweep goes on
      while any restore is Switching. */
  lemma NoSweepWhileSwitching(s: State, events: seq<Event>)
    requires Initial(s) && !s.spec.ephemeral && Along(s, events, NoneLate) && Sweeping(Run(s, events))
    ensures NoneSwitching(Run(s, events))
  {
    NoneLateEmpty(s, events);
    forall n | n in Run(s, events).restores ensures !Run(s, events).restores[n].Is(Switching) {
      SweepMeetsOnlyLate(s, events, n);
    }
  }

  // ----- The run that does not wait ---------------------------------------------------------

  /** The first restore is stale, the second is served. */
  function TwoServed(s: State): State
    requires s.restores == map[]
  {
    var one := Switched(s.(restores := s.restores[0 := Fresh(0, s.now)]), 0);
    Switched(one.(restores := one.restores[1 := Fresh(1, one.now)]), 1)
  }

  lemma TwoServedReached(s: State)
    requires FreshKopia(s) && !s.spec.redaction && s.status.redaction == None && s.spec.grace >= 0
    ensures Reaches(s, TwoServed(s), Smooth)
  {
    ReachesSelf(s, Smooth);
    RestoreSwitches(s, s, None, 0, 0);
    var first := s.(restores := s.restores[0 := Fresh(0, s.now)]);
    SwitchCompletes(s, first, None, 0);
    FirstServed(first, 0);
    var one := Switched(first, 0);
    RestoreSwitches(s, one, Some(0), 1, 1);
    SwitchCompletes(s, one.(restores := one.restores[1 := Fresh(1, one.now)]), Some(0), 1);
  }

  lemma TwoServedIdle(s: State)
    requires FreshKopia(s) && s.status.redaction == None && s.spec.grace >= 0
    ensures Idle(TwoServed(s), Some(1), [0])
  {
    assert LiveNames(TwoServed(s).restores) == {0, 1};
  }

  /** Past the grace period, with a third restore up and not yet Switching. */
  function ThirdUp(s: State): State
    requires s.restores == map[]
  {
    var two := TwoServed(s);
    two.(restores := two.restores[2 := Up(2, s.now)], now := s.now + s.spec.grace + 1)
  }

  lemma ThirdUpReached(s: State)
    requires FreshKopia(s) && !s.spec.redaction && s.status.redaction == None && s.spec.grace >= 0
    ensures Reaches(s, ThirdUp(s), Smooth)
  {
    var two := TwoServed(s);
    TwoServedReached(s);
    TwoServedIdle(s);
    RestoreComesUp(s, two, Some(1), [0], 2, 2, Smooth);
    ReachesStep(s, two.(restores := two.restores[2 := Up(2, two.now)]), Tick(s.spec.grace + 1), Smooth);
  }

  /** Two restores Active, the second of them current, a third up, and a sweep due. */
  ghost predicate Poised(x: State) {
    && x.pass == None && x.listJob == None && !x.spec.canopy && !x.spec.ephemeral && x.spec.schemas.NotConfigured?
    && x.status.redaction == None && x.status.current == Some(1)
    && x.status.completedAt.Some? && x.now - x.status.completedAt.value > x.spec.grace
    && x.restores.Keys == {0, 1, 2} && x.Has(0, Active) && x.Has(1, Active)
    && x.Has(2, Ready) && x.restores[2].versionKnown && !x.restores[2].hasTarget
  }

  lemma ThirdUpPoised(s: State)
    requires FreshKopia(s) && !s.spec.redaction && s.status.redaction == None && s.spec.grace >= 0
    ensures Poised(ThirdUp(s))
  { }

  lemma SweepPlanned(x: State)
    requires Poised(x)
    ensures var c := Looking(Some(1), [0], None, 0);
      && ValidChoices(x, c) && Smooth(x, BeginPass(c))
      && Plan(x, c) == Pass([], None, [SweepDelete(0, false), ClearPhases])
  {
    var c := Looking(Some(1), [0], None, 0);
    assert SweepDeletes([0], {}, {}) == [SweepDelete(0, false)];
    assert SweepTail(x, c) == [SweepDelete(0, false), ClearPhases];
    assert x.restores[2].InProgress();
    assert LaterTail(x, c) == [];
    assert SweptTail(x, c) + [] == [SweepDelete(0, false), ClearPhases];
  }

  lemma PoisedSweeps(s: State, x: State)
    requires Poised(x) && Reaches(s, x, Smooth)
    ensures exists t :: Reaches(s, t, Smooth) && InTail(t) && t.pass.value.tail[0] == SweepDelete(0, false)
                        && t.Has(0, Active) && t.Has(2, Switching)
  {
    SweepPlanned(x);
    var tail := [SweepDelete(0, false), ClearPhases];
    PassStarts(s, x, Looking(Some(1), [0], None, 0), tail, Smooth);
    var sweeping := x.(pass := Some(Pass([], None, tail)));
    var switching := x.restores[2].(phase := Some(Switching));
    RestoreMoves(s, sweeping, 2, switching, Smooth);
    var t := sweeping.(restores := sweeping.restores[2 := switching]);
    assert t.Has(0, Active) && t.Has(2, Switching);
  }

  /** From a fresh replica, with nothing stopped, failing or deleted by hand: a third restore
      becomes Switching after the pass has decided to sweep, and is Switching as the sweep
      deletes the first. */
  lemma SweepMeetsSwitching(s: State)
    requires FreshKopia(s) && !s.spec.redaction && s.status.redaction == None && s.spec.grace >= 0
    ensures exists t :: Reaches(s, t, Smooth) && InTail(t) && t.pass.value.tail[0] == SweepDelete(0, false)
                        && t.Has(0, Active) && t.Has(2, Switching)
  {
    ThirdUpReached(s);
    ThirdUpPoised(s);
    PoisedSweeps(s, ThirdUp(s));
  }
}
