/** A restore's phases only ever move forward, whichever controller moves them. */
module Lifecycle {
  import opened Options
  import opened Protocol
  import opened PassPlans

  /** What is left of a restore's life. A Ready restore with its migration still to run
      ranks above Migrating, and above itself once the migration's result is in. */
  function Rank(r: Restore): nat {
    match r.phase
    case None => 7
    case Some(Pending) => 6
    case Some(Restoring) => 5
    case Some(Ready) => if r.hasTarget && !r.migrated then 4 else 2
    case Some(Migrating) => 3
    case Some(Switching) => 1
    case Some(Active) => 0
    case Some(Failed) => 0
  }

  /** A restore with a migration target reaches switchover only with its result in. */
  predicate MigratedFirst(r: Restore) {
    r.hasTarget && (r.Is(Switching) || r.Is(Active)) ==> r.migrated
  }

  /** The restore a pass is switching to is Switching until the pass makes it Active. */
  predicate SwitchTargets(s: State) {
    s.pass.Some? && s.pass.value.switch.Some? && s.pass.value.switch.value.target in s.restores ==>
      var sw := s.pass.value.switch.value;
      s.restores[sw.target].Is(if sw.stage.ToSelect? || sw.stage.ToActivate? then Switching else Active)
  }

  predicate SwitchAlone(s: State) {
    s.pass.Some? && s.pass.value.switch.Some? ==> s.pass.value.tail == []
  }

  ghost predicate Inv(s: State) {
    SwitchTargets(s) && SwitchAlone(s) && forall n :: n in s.restores ==> MigratedFirst(s.restores[n])
  }

  predicate Forward(r: Restore, after: Restore) {
    && (after.phase != r.phase ==> Rank(after) < Rank(r))
    && Rank(after) <= Rank(r)
    && (r.Is(Active) || r.Is(Failed) ==> after.phase == r.phase)
  }

  lemma HandledForward(r: Restore, o: Observation, now: int)
    requires MigratedFirst(r)
    ensures Forward(r, Handle(r, o, now).restore) && MigratedFirst(Handle(r, o, now).restore)
  {
    match r.phase
    case Some(Ready) => ReadyForward(r, o);
    case Some(Migrating) => MigratingForward(r, o);
    case _ =>
  }

  lemma ReadyForward(r: Restore, o: Observation)
    requires r.Is(Ready)
    ensures Forward(r, HandleReady(r, o).restore) && MigratedFirst(HandleReady(r, o).restore)
  {
  }

  lemma MigratingForward(r: Restore, o: Observation)
    requires r.Is(Migrating)
    ensures Forward(r, HandleMigrating(r, o).restore) && MigratedFirst(HandleMigrating(r, o).restore)
  {
  }

  lemma WorkForward(s: State, n: Name)
    requires Inv(s) && s.pass.Some?
    ensures Inv(DoWork(s))
    ensures n in s.restores && n in DoWork(s).restores ==> Forward(s.restores[n], DoWork(s).restores[n])
  {
    if s.pass.value.gates != [] {
      GateForward(s, n);
    } else if s.pass.value.switch.Some? {
      SwitchForward(s, n);
    } else if s.pass.value.tail != [] {
      TailForward(s, n);
    }
  }

  lemma GateForward(s: State, n: Name)
    requires Inv(s) && s.pass.Some? && s.pass.value.gates != []
    ensures Inv(DoWork(s))
    ensures n in s.restores && n in DoWork(s).restores ==> Forward(s.restores[n], DoWork(s).restores[n])
  {
  }

  lemma SwitchForward(s: State, n: Name)
    requires Inv(s) && s.pass.Some? && s.pass.value.gates == [] && s.pass.value.switch.Some?
    ensures Inv(DoWork(s))
    ensures n in s.restores && n in DoWork(s).restores ==> Forward(s.restores[n], DoWork(s).restores[n])
  {
    match s.pass.value.switch.value.stage
    case ToSelect =>
    case ToActivate =>
    case ToStamp =>
    case ToRecord(_) =>
  }

  lemma TailForward(s: State, n: Name)
    requires Inv(s) && s.pass.Some? && s.pass.value.gates == [] && s.pass.value.switch.None? && s.pass.value.tail != []
    ensures Inv(DoWork(s))
    ensures n in s.restores && n in DoWork(s).restores ==> Forward(s.restores[n], DoWork(s).restores[n])
  {
    var t := DoWork(s);
    TailLeaves(s);
    forall m | m in t.restores ensures MigratedFirst(t.restores[m]) { TailTouches(s, m); }
    TailTouches(s, n);
  }

  lemma RestorePassForward(s: State, m: Name, o: Observation, n: Name)
    requires Inv(s) && m in s.restores
    ensures Inv(RestoreStep(s, m, o))
    ensures n in s.restores ==> Forward(s.restores[n], RestoreStep(s, m, o).restores[n])
  {
    HandledForward(s.restores[m], o, s.now);
  }

  /** Each step moves each restore that it leaves in place forward or not at all. */
  lemma StepForward(s: State, e: Event, n: Name)
    requires Inv(s)
    ensures Inv(Step(s, e))
    ensures n in s.restores && n in Step(s, e).restores ==> Forward(s.restores[n], Step(s, e).restores[n])
  {
    match e
    case BeginPass(c) =>
    case Work => if s.pass.Some? { WorkForward(s, n); }
    case RestorePass(m, o) => if m in s.restores { RestorePassForward(s, m, o, n); }
    case _ =>
  }

  // ----- Over a run ---------------------------------------------------------------

  /** `n` is not deleted during the run. */
  ghost predicate Stays(s: State, events: seq<Event>, n: Name)
    decreases |events|
  {
    n in s.restores && (events == [] || Stays(Step(s, events[0]), events[1..], n))
  }

  /** How often `n` changes phase during the run. */
  ghost function Changes(s: State, events: seq<Event>, n: Name): nat
    requires Stays(s, events, n)
    decreases |events|
  {
    if events == [] then 0
    else
      var t := Step(s, events[0]);
      assert Stays(t, events[1..], n);
      (if t.restores[n].phase != s.restores[n].phase then 1 else 0) + Changes(t, events[1..], n)
  }

  lemma {:induction false} ChangesBounded(s: State, events: seq<Event>, n: Name)
    requires Inv(s) && Stays(s, events, n)
    ensures Inv(Run(s, events)) && n in Run(s, events).restores
    ensures Changes(s, events, n) + Rank(Run(s, events).restores[n]) <= Rank(s.restores[n])
    ensures s.restores[n].Is(Active) || s.restores[n].Is(Failed) ==> Run(s, events).restores[n].phase == s.restores[n].phase
    decreases |events|
  {
    if events != [] {
      StepForward(s, events[0], n);
      ChangesBounded(Step(s, events[0]), events[1..], n);
    }
  }

  lemma {:induction false} RunKeeps(s: State, events: seq<Event>)
    requires Inv(s)
    ensures Inv(Run(s, events))
    decreases |events|
  {
    if events != [] {
      StepForward(s, events[0], 0);
      RunKeeps(Step(s, events[0]), events[1..]);
    }
  }

  /** On every run from a fresh replica, however it is stopped, restarted or meddled
      with: from any point on, a restore that stays changes phase at most seven times,
      never leaves Active or Failed, and is Switching or Active with a migration target
      only when its migration's result is recorded. */
  lemma PhasesMoveForward(s: State, before: seq<Event>, after: seq<Event>, n: Name)
    requires Initial(s) && Stays(Run(s, before), after, n)
    ensures var m := Run(s, before);
      var t := Run(m, after);
      && Changes(m, after, n) <= 7 && n in t.restores
      && (m.Has(n, Active) ==> t.Has(n, Active)) && (m.Has(n, Failed) ==> t.Has(n, Failed))
      && (t.restores[n].hasTarget && (t.Has(n, Switching) || t.Has(n, Active)) ==> t.restores[n].migrated)
  {
    RunKeeps(s, before);
    ChangesBounded(Run(s, before), after, n);
  }
}
