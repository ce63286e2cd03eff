/** A canopy replica follows what canopy offers, without waiting for its schedule. */
module CanopyOffers {
  import opened Options
  import opened Protocol
  import opened PassPlans
  import opened RunRules
  import opened Scenarios

  /** A served canopy replica that is offered another snapshot, outside its minimum TTL, comes
      to a restore of that snapshot in the same second, whenever its schedule is due. */
  lemma OfferComesToRestore(s: State, a: Name, n: Name, offered: Snapshot)
    requires Idle(s, Some(a), []) && s.spec.canopy && s.status.desired == Some(offered)
    requires n !in s.restores && (forall m :: m in s.restores && s.restores[m].Live() ==> s.restores[m].snapshot != offered)
    ensures exists t :: Reaches(s, t, Smooth) && t.now == s.now && t.Has(n, Restoring) && t.restores[n].snapshot == offered
  {
    ReachesSelf(s, Smooth);
    RestoreStarts(s, s, Some(a), [], n, offered, Smooth);
    assert s.(restores := s.restores[n := Begun(offered, s.now)]).Has(n, Restoring);
  }

  /** A canopy replica, not ephemeral and without redaction, persistent schemas or minimum TTL,
      that nothing has acted on yet and that is offered snapshot 1. */
  ghost predicate FreshCanopy(s: State) {
    && Initial(s) && Idle(s, None, []) && s.spec.canopy && s.status.desired == Some(1)
    && s.spec.minimumTtl == None && !s.spec.redaction && s.status.redaction == None
  }

  function With(s: State, n: Name, r: Restore, at: int): State {
    s.(restores := s.restores[n := r], status := s.status.(nextScheduled := Some(at)))
  }

  lemma FirstWaits(s: State, at: int)
    requires FreshCanopy(s)
    ensures Reaches(s, With(s, 0, Fresh(1, s.now), at), Smooth)
  {
    ReachesSelf(s, Smooth);
    RestoreCreated(s, s, None, [], 0, 1, Some(at), Smooth);
    SetTailRuns(s, s, Made(s, 0, 1).(pass := Some(Pass([], None, SetTail(s, Some(at))))), at);
    var set' := s.(status := s.status.(nextScheduled := Some(at)));
    assert Made(set', 0, 1) == Made(s, 0, 1).(status := set'.status, pass := None);
    RestoreBegins(s, set', 0, 1, Smooth);
    FirstComesUp(s, at);
  }

  lemma FirstComesUp(s: State, at: int)
    requires s.restores == map[] && Reaches(s, With(s, 0, Begun(1, s.now), at), Smooth)
    ensures Reaches(s, With(s, 0, Fresh(1, s.now), at), Smooth)
  {
    RestoreMoves(s, With(s, 0, Begun(1, s.now), at), 0, Up(1, s.now), Smooth);
    assert With(s, 0, Begun(1, s.now), at).restores[0 := Up(1, s.now)] == With(s, 0, Up(1, s.now), at).restores;
    RestoreMoves(s, With(s, 0, Up(1, s.now), at), 0, Fresh(1, s.now), Smooth);
    assert With(s, 0, Up(1, s.now), at).restores[0 := Fresh(1, s.now)] == With(s, 0, Fresh(1, s.now), at).restores;
  }

  /** Snapshot 1 is served and canopy offers snapshot 2. */
  function Served(s: State, at: int): State {
    var one := Switched(With(s, 0, Fresh(1, s.now), at), 0);
    one.(status := one.status.(desired := Some(2)))
  }

  lemma ServedIdle(s: State, at: int)
    requires FreshCanopy(s)
    ensures Idle(Served(s, at), Some(0), []) && Unheld(Served(s, at), 2)
  {
    assert LiveNames(Served(s, at).restores) == {0};
  }

  lemma ServedReached(s: State, at: int)
    requires FreshCanopy(s)
    ensures Reaches(s, Served(s, at), Smooth)
  {
    FirstWaits(s, at);
    SwitchCompletes(s, With(s, 0, Fresh(1, s.now), at), None, 0);
    ReachesStep(s, Switched(With(s, 0, Fresh(1, s.now), at), 0), SetDesired(2), Smooth);
  }

  /** From a fresh canopy replica with its schedule set for any later time: snapshot 1 is served,
      snapshot 2 is offered, and snapshot 2 is served, before the schedule is due. */
  lemma OfferIsServed(s: State, at: int)
    requires FreshCanopy(s) && at > s.now
    ensures exists t :: Reaches(s, t, Smooth) && t.service == Some(1) && t.Has(1, Active) && t.restores[1].snapshot == 2
                        && t.status.nextScheduled == Some(at) && t.now < at
  {
    ServedReached(s, at);
    ServedIdle(s, at);
    var one := Served(s, at);
    RestoreSwitches(s, one, Some(0), 1, 2);
    var two := one.(restores := one.restores[1 := Fresh(2, one.now)]);
    SwitchCompletes(s, two, Some(0), 1);
    var t := Switched(two, 1);
    assert t.service == Some(1) && t.Has(1, Active) && t.restores[1].snapshot == 2;
  }
}
