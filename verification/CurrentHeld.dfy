/** `status.currentRestore` names a restore that exists and is Active, on every run on
    which nobody deletes restores by hand: ephemeral or not, wherever the operator stops. */
module CurrentHeld {
  import opened Options
  import opened Protocol
  import opened PassPlans
  import opened RunRules
  import Lifecycle

  predicate TargetKept(s: State) {
    s.pass.Some? && s.pass.value.switch.Some? ==>
      s.pass.value.switch.value.target in s.restores && !s.restores[s.pass.value.switch.value.target].deleting
  }

  predicate WriteSafe(s: State, tail: seq<Tail>, w: Tail) {
    match w
    case SweepDelete(n, _) => s.status.current != Some(n) && (n in s.restores ==> s.restores[n].Is(Active))
    case CleanFailed(n, _) => n in s.restores ==> s.restores[n].Is(Failed)
    case TearDown(n, _) =>
      && (n in s.restores ==> s.restores[n].Is(Active))
      && (s.status.current.None? || (tail != [] && tail[0].RecordVerified?))
    case _ => true
  }

  ghost predicate TailSafe(s: State) {
    s.pass.Some? ==>
      CreatesLast(s.pass.value.tail) && forall w :: w in s.pass.value.tail ==> WriteSafe(s, s.pass.value.tail, w)
  }

  ghost predicate Inv(s: State) {
    Lifecycle.Inv(s) && CurrentIsActive(s) && OnlyFinishedDeleted(s) && TargetKept(s) && TailSafe(s)
  }

  lemma BeginKeeps(s: State, c: Choices)
    requires Inv(s) && s.pass.None? && ValidChoices(s, c)
    ensures Inv(s.(pass := Some(Plan(s, c))))
  {
    Lifecycle.StepForward(s, BeginPass(c), 0);
    if c.switching.None? && !(s.spec.ephemeral && c.active.Some? && !s.restores[c.active.value].deleting) {
      RestCreatesLast(s, c);
      forall w | w in RestPlan(s, c).tail ensures WriteSafe(s, RestPlan(s, c).tail, w) {
        RestWrite(s, c, w);
        match w
        case SweepDelete(n, _) => assert IsStale(s, n);
        case CleanFailed(n, _) => assert IsExpired(s, n);
        case _ =>
      }
    }
  }

  /** Restores rewritten without touching what this property reads of them. */
  ghost predicate SameRestores(s: State, t: State) {
    && (forall n :: n in t.restores <==> n in s.restores)
    && forall n :: n in t.restores ==>
                     && t.restores[n].deleting == s.restores[n].deleting
                     && (s.restores[n].Is(Active) || s.restores[n].Is(Failed) ==> t.restores[n].phase == s.restores[n].phase)
  }

  lemma FrameKeeps(s: State, t: State)
    requires Inv(s) && Lifecycle.Inv(t) && SameRestores(s, t) && t.status.current == s.status.current
    requires t.pass.Some? ==> s.pass.Some? && t.pass.value.tail == s.pass.value.tail
    requires t.pass.Some? && t.pass.value.switch.Some? ==>
               s.pass.value.switch.Some? && t.pass.value.switch.value.target == s.pass.value.switch.value.target
    ensures Inv(t)
  {
    if t.pass.Some? {
      forall w | w in t.pass.value.tail ensures WriteSafe(t, t.pass.value.tail, w) {
        assert WriteSafe(s, s.pass.value.tail, w);
      }
    }
  }

  lemma SwitchKeeps(s: State)
    requires Inv(s) && s.pass.Some? && s.pass.value.gates == [] && s.pass.value.switch.Some?
    ensures Inv(DoWork(s))
  {
    Lifecycle.WorkForward(s, 0);
    match s.pass.value.switch.value.stage
    case ToSelect => FrameKeeps(s, DoWork(s));
    case ToActivate => FrameKeeps(s, DoWork(s));
    case ToStamp => FrameKeeps(s, DoWork(s));
    case ToRecord(_) =>
  }

  lemma DeleteKeeps(s: State, n: Name, lingers: bool)
    requires Inv(s) && s.status.current != Some(n) && (n in s.restores ==> s.restores[n].Is(Active) || s.restores[n].Is(Failed))
    requires s.pass.Some? ==> s.pass.value.switch.None?
    ensures Inv(DeleteRestore(s, n, lingers))
  {
    var t := DeleteRestore(s, n, lingers);
    if t.pass.Some? {
      forall w | w in t.pass.value.tail ensures WriteSafe(t, t.pass.value.tail, w) {
        assert WriteSafe(s, s.pass.value.tail, w);
      }
    }
  }

  /** The tail's first write dropped, once the status it leaves is in place. */
  lemma PopKeeps(s: State)
    requires Inv(s) && s.pass.Some? && s.pass.value.switch.None? && s.pass.value.tail != []
    ensures var tail := s.pass.value.tail;
      var marked := if tail[0].RecordVerified? then DoTail(s, tail[0]) else s;
      Inv(marked.(pass := Some(s.pass.value.(tail := tail[1..]))))
  {
    var tail := s.pass.value.tail;
    var marked := if tail[0].RecordVerified? then DoTail(s, tail[0]) else s;
    var t := marked.(pass := Some(s.pass.value.(tail := tail[1..])));
    forall w | w in tail[1..] ensures WriteSafe(t, tail[1..], w) { assert WriteSafe(s, tail, w); }
  }

  lemma CreateKeeps(s: State, n: Name, r: Restore)
    requires Inv(s) && s.pass.Some? && s.pass.value.switch.None? && n !in s.restores && r.phase.None? && !r.deleting
    requires forall w :: w in s.pass.value.tail ==> !Deletes(w)
    ensures Inv(s.(restores := s.restores[n := r]))
  {
    var t := s.(restores := s.restores[n := r]);
    forall w | w in t.pass.value.tail ensures WriteSafe(t, t.pass.value.tail, w) {
      assert WriteSafe(s, s.pass.value.tail, w);
    }
  }

  lemma TailKeeps(s: State)
    requires Inv(s) && s.pass.Some? && s.pass.value.gates == [] && s.pass.value.switch.None? && s.pass.value.tail != []
    ensures Inv(DoWork(s))
  {
    Lifecycle.WorkForward(s, 0);
    var tail := s.pass.value.tail;
    var w := tail[0];
    var popped := s.(pass := Some(s.pass.value.(tail := tail[1..])));
    assert WriteSafe(s, tail, w);
    PopKeeps(s);
    match w
    case RecordVerified(_) =>
    case TearDown(n, lingers) => DeleteKeeps(popped, n, lingers);
    case CleanFailed(n, lingers) => DeleteKeeps(popped, n, lingers);
    case SweepDelete(n, lingers) => SweepKeeps(popped, n, lingers);
    case CreateRestore(n, snapshot, hasTarget) =>
      if n !in s.restores && |LiveNames(s.restores)| < MAX_RESTORES_PER_REPLICA {
        forall x | x in tail[1..] ensures !Deletes(x) {
          var j :| 1 <= j < |tail| && tail[j] == x;
          assert Creates(tail[0]);
        }
        CreateKeeps(popped, n, NewRestore(snapshot, hasTarget));
      } else {
        FrameKeeps(popped, DoWork(s));
      }
    case ClearPhases => FrameKeeps(popped, DoWork(s));
    case TakeListing => FrameKeeps(popped, DoWork(s));
    case DropListJob => FrameKeeps(popped, DoWork(s));
    case SetSchedule(_) => FrameKeeps(popped, DoWork(s));
    case CreateListJob => FrameKeeps(popped, DoWork(s));
  }

  lemma SweepKeeps(s: State, n: Name, lingers: bool)
    requires Inv(s) && s.pass.Some? && s.pass.value.switch.None?
    requires s.status.current != Some(n) && (n in s.restores ==> s.restores[n].Is(Active))
    ensures Inv(DoSweep(s, n, lingers))
  {
    if n in s.restores {
      DeleteKeeps(s, n, lingers);
    } else {
      var tail := s.pass.value.tail;
      WithoutClearCreatesLast(tail);
      forall w | w in WithoutClear(tail) ensures WriteSafe(s, WithoutClear(tail), w) {
        WithoutClearIs(tail, w);
        assert WriteSafe(s, tail, w);
        if w.TearDown? { WithoutClearHead(tail); }
      }
    }
  }

  lemma WithoutClearHead(tail: seq<Tail>)
    ensures tail != [] && !tail[0].ClearPhases? ==> WithoutClear(tail) != [] && WithoutClear(tail)[0] == tail[0]
  {
  }

  lemma GateSame(s: State)
    requires s.pass.Some? && s.pass.value.gates != []
    ensures SameRestores(s, DoWork(s)) && DoWork(s).status.current == s.status.current
    ensures DoWork(s).pass == Some(s.pass.value.(gates := s.pass.value.gates[1..]))
  {
  }

  lemma WorkKeeps(s: State)
    requires Inv(s) && s.pass.Some?
    ensures Inv(DoWork(s))
  {
    if s.pass.value.gates != [] {
      Lifecycle.WorkForward(s, 0);
      GateSame(s);
      FrameKeeps(s, DoWork(s));
    } else if s.pass.value.switch.Some? {
      SwitchKeeps(s);
    } else if s.pass.value.tail != [] {
      TailKeeps(s);
    } else {
      FrameKeeps(s, s.(pass := None));
    }
  }

  lemma OtherSame(s: State, e: Event)
    requires !e.BeginPass? && !e.Work? && !e.Gone? && !e.OutsideDelete?
    ensures var t := Step(s, e);
      SameRestores(s, t) && t.status.current == s.status.current && (t.pass == s.pass || t.pass == None)
  {
  }

  lemma GoneKeeps(s: State, n: Name)
    requires Inv(s) && n in s.restores && s.restores[n].deleting
    ensures Inv(s.(restores := s.restores - {n}))
  {
    var t := s.(restores := s.restores - {n});
    if t.pass.Some? {
      forall w | w in t.pass.value.tail ensures WriteSafe(t, t.pass.value.tail, w) {
        assert WriteSafe(s, s.pass.value.tail, w);
      }
    }
  }

  lemma StepKeeps(s: State, e: Event)
    requires Inv(s) && NoHand(s, e)
    ensures Inv(Step(s, e))
  {
    match e
    case BeginPass(c) => if s.pass.None? && ValidChoices(s, c) { BeginKeeps(s, c); }
    case Work => if s.pass.Some? { WorkKeeps(s); }
    case Gone(n) => if n in s.restores && s.restores[n].deleting { GoneKeeps(s, n); }
    case OutsideDelete(_) =>
    case _ =>
      OtherSame(s, e);
      Lifecycle.StepForward(s, e, 0);
      FrameKeeps(s, Step(s, e));
  }

  lemma {:induction false} RunKeeps(s: State, events: seq<Event>)
    requires Inv(s) && Along(s, events, NoHand)
    ensures Inv(Run(s, events))
    decreases |events|
  {
    if events != [] {
      StepKeeps(s, events[0]);
      RunKeeps(Step(s, events[0]), events[1..]);
    }
  }

  /** Even a torn switchover leaves `currentRestore` naming an Active restore; it is the
      Service that can be left behind. */
  lemma CurrentAlwaysActive(s: State, events: seq<Event>)
    requires Initial(s) && Along(s, events, NoHand)
    ensures var t := Run(s, events);
      t.status.current.Some? ==> t.Has(t.status.current.value, Active) && !t.restores[t.status.current.value].deleting
  {
    RunKeeps(s, events);
  }
}
