/** How many restores a replica can have, on every run without exception: any stops,
    restarts, deletions by hand and interleavings of the two controllers. */
module RestoreBounds {
  import opened Options
  import opened Protocol
  import opened PassPlans
  import Lifecycle

  ghost predicate OneLivePerSnapshot(restores: map<Name, Restore>) {
    forall m, n :: m in restores && n in restores && restores[m].Live() && restores[n].Live() && m != n ==>
                     restores[m].snapshot != restores[n].snapshot
  }

  ghost predicate Uncovered(restores: map<Name, Restore>, snapshot: Snapshot) {
    forall n :: n in restores && restores[n].Live() ==> restores[n].snapshot != snapshot
  }

  ghost predicate CreatesUncovered(s: State) {
    s.pass.Some? ==>
      && CreatesOnce(s.pass.value.tail)
      && forall w :: w in s.pass.value.tail && w.CreateRestore? ==> Uncovered(s.restores, w.snapshot)
  }

  ghost predicate Inv(s: State) {
    && Lifecycle.Inv(s) && OneLivePerSnapshot(s.restores) && CreatesUncovered(s)
    && |LiveNames(s.restores)| <= MAX_RESTORES_PER_REPLICA
  }

  // ----- Planning -----------------------------------------------------------------

  lemma BeginKeeps(s: State, c: Choices)
    requires Inv(s) && s.pass.None? && ValidChoices(s, c)
    ensures Inv(s.(pass := Some(Plan(s, c))))
  {
    Lifecycle.StepForward(s, BeginPass(c), 0);
    if c.switching.None? && !(s.spec.ephemeral && c.active.Some? && !s.restores[c.active.value].deleting) {
      RestCreatesOnce(s, c);
      forall w | w in RestPlan(s, c).tail && w.CreateRestore?
        ensures Uncovered(s.restores, w.snapshot)
      {
        RestWrite(s, c, w);
      }
    }
  }

  // ----- Steps --------------------------------------------------------------------

  /** No restore comes to life, and none changes its snapshot. */
  ghost predicate Shrinks(before: map<Name, Restore>, after: map<Name, Restore>) {
    forall n :: n in after && after[n].Live() ==>
                  n in before && before[n].Live() && before[n].snapshot == after[n].snapshot
  }

  lemma {:induction false} SubsetSmaller(a: set<Name>, b: set<Name>)
    requires a <= b
    ensures |a| <= |b|
  {
    if a != {} {
      var x :| x in a;
      SubsetSmaller(a - {x}, b - {x});
    }
  }

  lemma ShrinkKeeps(s: State, t: State)
    requires Inv(s) && Lifecycle.Inv(t) && Shrinks(s.restores, t.restores)
    requires t.pass.Some? ==>
               s.pass.Some? && CreatesOnce(t.pass.value.tail) && forall w :: w in t.pass.value.tail ==> w in s.pass.value.tail
    ensures Inv(t)
  {
    SubsetSmaller(LiveNames(t.restores), LiveNames(s.restores));
  }

  lemma CreateKeeps(s: State, t: State, n: Name, snapshot: Snapshot, hasTarget: bool)
    requires Lifecycle.Inv(t) && OneLivePerSnapshot(s.restores) && |LiveNames(s.restores)| < MAX_RESTORES_PER_REPLICA
    requires n !in s.restores && Uncovered(s.restores, snapshot)
    requires t.restores == s.restores[n := NewRestore(snapshot, hasTarget)]
    requires t.pass.Some? ==> CreatesOnce(t.pass.value.tail) && forall w :: w in t.pass.value.tail ==> !w.CreateRestore?
    ensures Inv(t)
  {
    assert LiveNames(t.restores) == LiveNames(s.restores) + {n};
  }

  lemma TailKeeps(s: State)
    requires Inv(s) && s.pass.Some? && s.pass.value.gates == [] && s.pass.value.switch.None? && s.pass.value.tail != []
    ensures Inv(DoWork(s))
  {
    var tail := s.pass.value.tail;
    var w, t := tail[0], DoWork(s);
    Lifecycle.WorkForward(s, 0);
    if w.CreateRestore? && CreatesNow(s, w.restore) {
      assert w in tail;
      forall x | x in tail[1..] ensures !x.CreateRestore? {
        var j :| 1 <= j < |tail| && tail[j] == x;
        assert Creates(tail[0]);
      }
      CreateKeeps(s, t, w.restore, w.snapshot, w.hasTarget);
    } else {
      TailLeaves(s);
      WithoutClearCreatesOnce(tail[1..]);
      forall x | x in WithoutClear(tail[1..]) ensures x in tail { WithoutClearIs(tail[1..], x); }
      forall n | n in t.restores && t.restores[n].Live()
        ensures n in s.restores && s.restores[n].Live() && s.restores[n].snapshot == t.restores[n].snapshot
      {
        TailTouches(s, n);
      }
      ShrinkKeeps(s, t);
    }
  }

  lemma SwitchKeeps(s: State)
    requires Inv(s) && s.pass.Some? && s.pass.value.gates == [] && s.pass.value.switch.Some?
    ensures Inv(DoWork(s))
  {
    Lifecycle.WorkForward(s, 0);
    SwitchShrinks(s);
    ShrinkKeeps(s, DoWork(s));
  }

  lemma SwitchShrinks(s: State)
    requires s.pass.Some? && s.pass.value.gates == [] && s.pass.value.switch.Some? && Lifecycle.SwitchTargets(s)
    ensures Shrinks(s.restores, DoWork(s).restores)
    ensures DoWork(s).pass.Some? ==> DoWork(s).pass.value.tail == []
  {
    match s.pass.value.switch.value.stage
    case ToSelect => case ToActivate => case ToStamp => case ToRecord(_) =>
  }

  lemma GateKeeps(s: State)
    requires Inv(s) && s.pass.Some? && s.pass.value.gates != []
    ensures Inv(DoWork(s))
  {
    Lifecycle.WorkForward(s, 0);
    ShrinkKeeps(s, DoWork(s));
  }

  /** Apart from a pass's own writes, nothing brings a restore to life. */
  lemma OtherShrinks(s: State, e: Event)
    requires !e.BeginPass? && !e.Work?
    ensures Shrinks(s.restores, Step(s, e).restores) && (Step(s, e).pass == s.pass || Step(s, e).pass == None)
  {
  }

  lemma OtherKeeps(s: State, e: Event)
    requires Inv(s) && !e.BeginPass? && !e.Work?
    ensures Inv(Step(s, e))
  {
    Lifecycle.StepForward(s, e, 0);
    OtherShrinks(s, e);
    ShrinkKeeps(s, Step(s, e));
  }

  lemma StepKeeps(s: State, e: Event)
    requires Inv(s)
    ensures Inv(Step(s, e))
  {
    match e
    case BeginPass(c) => if s.pass.None? && ValidChoices(s, c) { BeginKeeps(s, c); }
    case Work =>
      if s.pass.Some? {
        if s.pass.value.gates != [] { GateKeeps(s); }
        else if s.pass.value.switch.Some? { SwitchKeeps(s); }
        else if s.pass.value.tail != [] { TailKeeps(s); }
      }
    case _ => OtherKeeps(s, e);
  }

  lemma {:induction false} RunKeeps(s: State, events: seq<Event>)
    requires Inv(s)
    ensures Inv(Run(s, events))
    decreases |events|
  {
    if events != [] {
      StepKeeps(s, events[0]);
      RunKeeps(Step(s, events[0]), events[1..]);
    }
  }

  /** In every reachable state at most one restore per snapshot has not failed, and at
      most three in all have not. */
  lemma AtMostThreeLive(s: State, events: seq<Event>)
    requires Initial(s)
    ensures var t := Run(s, events);
      && |LiveNames(t.restores)| <= 3
      && forall m, n :: m in t.restores && n in t.restores && m != n && t.restores[m].Live() && t.restores[n].Live() ==>
                          t.restores[m].snapshot != t.restores[n].snapshot
  {
    assert LiveNames(s.restores) == {};
    RunKeeps(s, events);
  }
}
