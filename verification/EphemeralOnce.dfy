/** An ephemeral canopy replica verifies a snapshot once. The marker is written before
    the restore is deleted, so neither a stop between the two nor a delete that keeps
    failing makes it verify the snapshot again. */
module EphemeralOnce {
  import opened Options
  import opened Protocol
  import opened PassPlans
  import RestoreBounds

  /** Canopy keeps offering `offered`, and nobody deletes a restore by hand. */
  function Offering(offered: Snapshot): (State, Event) -> bool {
    (s: State, e: Event) => !e.OutsideDelete? && (e.SetDesired? ==> e.snapshot == offered)
  }

  ghost predicate AllOf(s: State, offered: Snapshot) {
    && s.spec.ephemeral && s.spec.canopy
    && (s.status.desired.Some? ==> s.status.desired.value == offered)
    && (forall n :: n in s.restores ==> s.restores[n].snapshot == offered)
  }

  predicate Verified(s: State, offered: Snapshot) { s.status.verified == Some(offered) }

  ghost predicate SomeActive(s: State) { exists n :: n in s.restores && s.restores[n].Is(Active) }

  /** Before anything was Active nothing is; afterwards whatever has not failed is the
      one that was, and its snapshot is on record once it can go. */
  ghost predicate Once(s: State, offered: Snapshot) {
    && s.history.activations[offered] <= 1
    && (s.history.activations[offered] == 0 ==> !SomeActive(s))
    && (s.history.activations[offered] == 1 ==>
          && (Verified(s, offered) || SomeActive(s))
          && (forall n :: n in s.restores && s.restores[n].Live() ==> s.restores[n].Is(Active)))
    && (forall n :: n in s.restores && s.restores[n].deleting ==>
                      s.restores[n].Is(Failed) || (s.restores[n].Is(Active) && Verified(s, offered)))
  }

  predicate WriteSafe(s: State, tail: seq<Tail>, offered: Snapshot, w: Tail) {
    match w
    case RecordVerified(v) => v == offered
    case TearDown(n, _) =>
      && (n in s.restores ==> s.restores[n].Is(Active))
      && (Verified(s, offered) || (tail != [] && tail[0] == RecordVerified(offered)))
    case SweepDelete(n, _) => false
    case CleanFailed(n, _) => n in s.restores ==> s.restores[n].Is(Failed)
    case CreateRestore(_, snapshot, _) => snapshot == offered && s.history.activations[offered] == 0
    case _ => true
  }

  ghost predicate TailSafe(s: State, offered: Snapshot) {
    s.pass.Some? ==> CreatesLast(s.pass.value.tail) && forall w :: w in s.pass.value.tail ==> WriteSafe(s, s.pass.value.tail, offered, w)
  }

  ghost predicate Inv(s: State, offered: Snapshot) {
    RestoreBounds.Inv(s) && AllOf(s, offered) && Once(s, offered) && TailSafe(s, offered)
  }

  // ----- Planning -----------------------------------------------------------------

  lemma OneLive(s: State, offered: Snapshot, m: Name, n: Name)
    requires Inv(s, offered) && m in s.restores && n in s.restores && s.restores[m].Live() && s.restores[n].Live()
    ensures m == n
  {
  }

  lemma BeginKeeps(s: State, c: Choices, offered: Snapshot)
    requires Inv(s, offered) && s.pass.None? && ValidChoices(s, c)
    ensures Inv(s.(pass := Some(Plan(s, c))), offered)
  {
    RestoreBounds.StepKeeps(s, BeginPass(c));
    var t := s.(pass := Some(Plan(s, c)));
    if c.switching.None? && !(s.spec.ephemeral && c.active.Some? && !s.restores[c.active.value].deleting) {
      RestCreatesLast(s, c);
      forall w | w in RestPlan(s, c).tail
        ensures WriteSafe(t, RestPlan(s, c).tail, offered, w)
      {
        RestWriteSafe(s, c, offered, w);
      }
    }
  }

  lemma RestWriteSafe(s: State, c: Choices, offered: Snapshot, w: Tail)
    requires Inv(s, offered) && s.pass.None? && ValidChoices(s, c) && w in RestPlan(s, c).tail
    ensures WriteSafe(s, RestPlan(s, c).tail, offered, w)
  {
    RestWrite(s, c, w);
    match w
    case SweepDelete(n, _) =>
      assert IsStale(s, n);
      OneLive(s, offered, n, s.status.current.value);
    case CleanFailed(n, _) => assert IsExpired(s, n);
    case CreateRestore(_, snapshot, _) =>
      assert !Covered(snapshot, s.status.verified, s.restores);
    case _ =>
  }

  // ----- Steps --------------------------------------------------------------------

  lemma SwitchKeeps(s: State, offered: Snapshot)
    requires Inv(s, offered) && s.pass.Some? && s.pass.value.gates == [] && s.pass.value.switch.Some?
    ensures Inv(DoWork(s), offered)
  {
    RestoreBounds.StepKeeps(s, Work);
    var sw := s.pass.value.switch.value;
    if sw.stage.ToActivate? {
      ActivateKeeps(s, offered);
    } else {
      SwitchSame(s);
      FrameKeeps(s, DoWork(s), offered);
    }
  }

  lemma SwitchSame(s: State)
    requires s.pass.Some? && s.pass.value.gates == [] && s.pass.value.switch.Some?
    requires !s.pass.value.switch.value.stage.ToActivate? && s.pass.value.tail == []
    ensures var t := DoWork(s);
      && SamePhases(s, t) && t.spec == s.spec && t.history.activations == s.history.activations
      && t.status.verified == s.status.verified && t.status.desired == s.status.desired
      && (t.pass.Some? ==> t.pass.value.tail == [])
  {
    match s.pass.value.switch.value.stage
    case ToSelect => case ToStamp => case ToRecord(_) =>
  }

  /** The same restores, as far as who is Active goes. */
  ghost predicate SamePhases(s: State, t: State) {
    && (forall n :: n in t.restores <==> n in s.restores)
    && forall n :: n in t.restores ==>
                     && t.restores[n].phase == s.restores[n].phase && t.restores[n].snapshot == s.restores[n].snapshot
                     && t.restores[n].deleting == s.restores[n].deleting
  }

  lemma SomeActiveAfter(s: State, t: State)
    requires SamePhases(s, t)
    ensures SomeActive(t) <==> SomeActive(s)
  {
    if SomeActive(s) {
      var n :| n in s.restores && s.restores[n].Is(Active);
      assert n in t.restores && t.restores[n].Is(Active);
    }
  }

  lemma ActivateKeeps(s: State, offered: Snapshot)
    requires Inv(s, offered) && s.pass.Some? && s.pass.value.gates == [] && s.pass.value.switch.Some?
    requires s.pass.value.switch.value.stage.ToActivate? && RestoreBounds.Inv(DoWork(s))
    ensures Inv(DoWork(s), offered)
  {
    var n, t := s.pass.value.switch.value.target, DoWork(s);
    if n in s.restores {
      assert s.restores[n].Is(Switching);
      assert s.history.activations[offered] == 0;
      assert t.restores[n].Is(Active);
      forall m | m in t.restores && t.restores[m].Live() ensures t.restores[m].Is(Active) {
        OneLive(s, offered, m, n);
      }
    }
  }

  lemma DeleteKeeps(s: State, n: Name, lingers: bool, offered: Snapshot)
    requires Inv(s, offered) && RestoreBounds.Inv(DeleteRestore(s, n, lingers))
    requires n in s.restores ==> s.restores[n].Is(Failed) || (s.restores[n].Is(Active) && Verified(s, offered))
    ensures Inv(DeleteRestore(s, n, lingers), offered)
  {
    var t := DeleteRestore(s, n, lingers);
    if SomeActive(s) && !Verified(s, offered) {
      var m :| m in s.restores && s.restores[m].Is(Active);
      assert m in t.restores && t.restores[m].Is(Active);
    }
    if s.pass.Some? {
      forall w | w in t.pass.value.tail ensures WriteSafe(t, t.pass.value.tail, offered, w) {
        assert WriteSafe(s, s.pass.value.tail, offered, w);
      }
    }
  }

  /** The tail's first write dropped, once the marker that write leaves is in place. */
  lemma PopKeeps(s: State, offered: Snapshot)
    requires Inv(s, offered) && s.pass.Some? && s.pass.value.tail != []
    ensures var tail := s.pass.value.tail;
      var marked := if tail[0].RecordVerified? then DoTail(s, tail[0]) else s;
      Inv(marked.(pass := Some(s.pass.value.(tail := tail[1..]))), offered)
  {
    var tail := s.pass.value.tail;
    var marked := if tail[0].RecordVerified? then DoTail(s, tail[0]) else s;
    var t := marked.(pass := Some(s.pass.value.(tail := tail[1..])));
    assert WriteSafe(s, tail, offered, tail[0]);
    SomeActiveAfter(s, t);
    forall w | w in t.pass.value.tail ensures WriteSafe(t, t.pass.value.tail, offered, w) {
      assert WriteSafe(s, tail, offered, w);
    }
  }

  lemma CreateKeeps(s: State, n: Name, hasTarget: bool, offered: Snapshot)
    requires Inv(s, offered) && s.pass.Some? && s.history.activations[offered] == 0 && n !in s.restores
    requires forall w :: w in s.pass.value.tail ==> !Deletes(w)
    requires RestoreBounds.Inv(s.(restores := s.restores[n := NewRestore(offered, hasTarget)]))
    ensures Inv(s.(restores := s.restores[n := NewRestore(offered, hasTarget)]), offered)
  {
    var t := s.(restores := s.restores[n := NewRestore(offered, hasTarget)]);
    forall w | w in t.pass.value.tail ensures WriteSafe(t, t.pass.value.tail, offered, w) {
      assert WriteSafe(s, s.pass.value.tail, offered, w);
    }
  }

  /** Only fields this property does not read differ, or the pass is over. */
  lemma FrameKeeps(s: State, t: State, offered: Snapshot)
    requires Inv(s, offered) && RestoreBounds.Inv(t) && t.spec == s.spec && t.history.activations == s.history.activations
    requires t.status.verified == s.status.verified && t.status.desired == s.status.desired
    requires SamePhases(s, t) && (t.pass.Some? ==> s.pass.Some? && t.pass.value.tail == s.pass.value.tail)
    ensures Inv(t, offered)
  {
    SomeActiveAfter(s, t);
    if t.pass.Some? {
      forall w | w in t.pass.value.tail ensures WriteSafe(t, t.pass.value.tail, offered, w) {
        assert WriteSafe(s, s.pass.value.tail, offered, w);
      }
    }
  }

  lemma TailKeeps(s: State, offered: Snapshot)
    requires Inv(s, offered) && s.pass.Some? && s.pass.value.gates == [] && s.pass.value.switch.None? && s.pass.value.tail != []
    ensures Inv(DoWork(s), offered)
  {
    RestoreBounds.StepKeeps(s, Work);
    var tail := s.pass.value.tail;
    var w := tail[0];
    var popped := s.(pass := Some(s.pass.value.(tail := tail[1..])));
    assert WriteSafe(s, tail, offered, w);
    PopKeeps(s, offered);
    if w.TearDown? || w.CleanFailed? {
      DeleteKeeps(popped, w.restore, w.lingers, offered);
    } else if w.CreateRestore? && CreatesNow(s, w.restore) {
      forall x | x in tail[1..] ensures !Deletes(x) {
        var j :| 1 <= j < |tail| && tail[j] == x;
        assert Creates(tail[0]);
      }
      CreateKeeps(popped, w.restore, w.hasTarget, offered);
    } else if !w.RecordVerified? {
      PlainTailSame(s);
      FrameKeeps(popped, DoWork(s), offered);
    }
  }

  lemma PlainTailSame(s: State)
    requires InTail(s) && !Deletes(s.pass.value.tail[0]) && !s.pass.value.tail[0].RecordVerified?
    requires s.pass.value.tail[0].CreateRestore? ==> !CreatesNow(s, s.pass.value.tail[0].restore)
    ensures var t := DoWork(s);
      && SamePhases(s, t) && t.spec == s.spec && t.history == s.history
      && t.status.verified == s.status.verified && t.status.desired == s.status.desired
      && (t.pass.Some? ==> t.pass.value.tail == s.pass.value.tail[1..])
  {
    match s.pass.value.tail[0]
    case ClearPhases => case TakeListing => case DropListJob => case SetSchedule(_) => case CreateListJob =>
    case CreateRestore(_, _, _) =>
  }

  lemma GateSame(s: State)
    requires s.pass.Some? && s.pass.value.gates != []
    ensures var t := DoWork(s);
      && SamePhases(s, t) && t.spec == s.spec && t.history == s.history && t.status.verified == s.status.verified
      && t.status.desired == s.status.desired && t.pass.Some? && t.pass.value.tail == s.pass.value.tail
  {
  }

  lemma GateKeeps(s: State, offered: Snapshot)
    requires Inv(s, offered) && s.pass.Some? && s.pass.value.gates != []
    ensures Inv(DoWork(s), offered)
  {
    RestoreBounds.StepKeeps(s, Work);
    GateSame(s);
    FrameKeeps(s, DoWork(s), offered);
  }

  lemma RestorePassKeeps(s: State, n: Name, o: Observation, offered: Snapshot)
    requires Inv(s, offered) && n in s.restores
    ensures Inv(RestoreStep(s, n, o), offered)
  {
    RestoreBounds.StepKeeps(s, RestorePass(n, o));
    RestorePassSame(s, n, o);
    var t := RestoreStep(s, n, o);
    OnceAfter(s, t, offered);
    if s.pass.Some? {
      forall w | w in t.pass.value.tail ensures WriteSafe(t, t.pass.value.tail, offered, w) {
        assert WriteSafe(s, s.pass.value.tail, offered, w);
      }
    }
  }

  /** The restore controller makes nothing Active and undoes nothing that is. */
  ghost predicate SameActive(s: State, t: State) {
    && t.spec == s.spec && t.pass == s.pass && t.history.activations == s.history.activations
    && t.status.verified == s.status.verified && t.status.desired == s.status.desired
    && t.restores.Keys == s.restores.Keys
    && forall n :: n in t.restores ==> Untouched(s.restores[n], t.restores[n])
  }

  lemma RestorePassSame(s: State, n: Name, o: Observation)
    requires n in s.restores
    ensures SameActive(s, RestoreStep(s, n, o))
  { }

  lemma OnceAfter(s: State, t: State, offered: Snapshot)
    requires Once(s, offered) && SameActive(s, t)
    ensures Once(t, offered)
  {
    if SomeActive(s) {
      var m :| m in s.restores && s.restores[m].Is(Active);
      assert m in t.restores && t.restores[m].Is(Active);
    }
    forall n | n in t.restores ensures Untouched(s.restores[n], t.restores[n]) { }
  }

  predicate Elsewhere(e: Event) {
    !e.BeginPass? && !e.Work? && !e.RestorePass? && !e.Gone? && !e.SetDesired? && !e.OutsideDelete?
  }

  lemma OtherSame(s: State, e: Event)
    requires Elsewhere(e)
    ensures var t := Step(s, e);
      && SamePhases(s, t) && t.spec == s.spec && t.history == s.history && t.status == s.status
      && (t.pass == s.pass || t.pass == None)
  {
  }

  lemma WorkKeeps(s: State, offered: Snapshot)
    requires Inv(s, offered) && s.pass.Some?
    ensures Inv(DoWork(s), offered)
  {
    if s.pass.value.gates != [] {
      GateKeeps(s, offered);
    } else if s.pass.value.switch.Some? {
      SwitchKeeps(s, offered);
    } else if s.pass.value.tail != [] {
      TailKeeps(s, offered);
    } else {
      RestoreBounds.StepKeeps(s, Work);
      FrameKeeps(s, s.(pass := None), offered);
    }
  }

  lemma StepKeeps(s: State, e: Event, offered: Snapshot)
    requires Inv(s, offered) && Offering(offered)(s, e)
    ensures Inv(Step(s, e), offered)
  {
    RestoreBounds.StepKeeps(s, e);
    match e
    case BeginPass(c) => if s.pass.None? && ValidChoices(s, c) { BeginKeeps(s, c, offered); }
    case Work => if s.pass.Some? { WorkKeeps(s, offered); }
    case RestorePass(n, o) => if n in s.restores { RestorePassKeeps(s, n, o, offered); }
    case Gone(n) => if n in s.restores && s.restores[n].deleting { DeleteKeeps(s, n, false, offered); }
    case SetDesired(d) => DesiredKeeps(s, offered);
    case OutsideDelete(_) =>
    case _ => OtherSame(s, e); FrameKeeps(s, Step(s, e), offered);
  }

  lemma DesiredKeeps(s: State, offered: Snapshot)
    requires Inv(s, offered) && RestoreBounds.Inv(Step(s, SetDesired(offered)))
    ensures Inv(Step(s, SetDesired(offered)), offered)
  {
    var t := Step(s, SetDesired(offered));
    SomeActiveAfter(s, t);
    if t.pass.Some? {
      forall w | w in t.pass.value.tail ensures WriteSafe(t, t.pass.value.tail, offered, w) {
        assert WriteSafe(s, s.pass.value.tail, offered, w);
      }
    }
  }

  lemma {:induction false} RunKeeps(s: State, events: seq<Event>, offered: Snapshot)
    requires Inv(s, offered) && Along(s, events, Offering(offered))
    ensures Inv(Run(s, events), offered)
    decreases |events|
  {
    if events != [] {
      StepKeeps(s, events[0], offered);
      RunKeeps(Step(s, events[0]), events[1..], offered);
    }
  }

  /** While canopy offers the one snapshot, at most one restore of it ever becomes
      Active, whatever fails, stops or restarts; and once one has, every restore of it
      that has not failed is that one, and nothing further is made once it is gone. */
  lemma VerifiedOnce(s: State, events: seq<Event>, offered: Snapshot)
    requires Initial(s) && s.spec.ephemeral && s.spec.canopy && (s.status.desired.Some? ==> s.status.desired.value == offered)
    requires Along(s, events, Offering(offered))
    ensures var t := Run(s, events);
      && t.history.activations[offered] <= 1
      && (t.history.activations[offered] == 1 && !SomeActive(t) ==>
            t.status.verified == Some(offered) && forall n :: n in t.restores ==> t.restores[n].Is(Failed))
  {
    assert LiveNames(s.restores) == {};
    RunKeeps(s, events, offered);
  }
}
