/** `redactionPhase` is one field per replica, and only a sweep that found a stale
    restore clears it. What that leaves open, exactly. */
module RedactionGap {
  import opened Options
  import opened Protocol
  import opened PassPlans
  import opened Scenarios
  import opened RedactionSafety

  /** The pass that moves the Service to its target, run to the end. */
  lemma {:induction false} FinishSwitch(s: State)
    requires s.pass.Some? && s.pass.value.switch.Some? && s.pass.value.switch.value.stage.ToSelect?
    requires s.pass.value.switch.value.target in s.restores
    ensures var p, t := s.pass.value, Finish(s);
      var n := p.switch.value.target;
      && t.pass == None && t.service == Some(n) && t.Has(n, Active) && t.status.current == Some(n)
      && t.restores[n].masked == MaskedAfter(p.gates, s.restores[n].masked, n)
    decreases |s.pass.value.gates|
  {
    var t := DoWork(s);
    WorkShrinks(s);
    if s.pass.value.gates != [] {
      FinishSwitch(t);
    } else {
      FinishSwitchWrites(s);
    }
  }

  lemma FinishSwitchWrites(s: State)
    requires s.pass.Some? && s.pass.value.gates == [] && s.pass.value.switch.Some?
    requires s.pass.value.switch.value.stage.ToSelect? && s.pass.value.switch.value.target in s.restores
    ensures var n, t := s.pass.value.switch.value.target, Finish(s);
      && t.pass == None && t.service == Some(n) && t.Has(n, Active) && t.status.current == Some(n)
      && t.restores[n].masked == s.restores[n].masked
  {
    var selected := DoWork(s);
    var activated := DoWork(selected);
    var stamped := DoWork(activated);
    var recorded := DoWork(stamped);
    assert Finish(recorded) == recorded;
    assert Finish(stamped) == Finish(recorded);
    assert Finish(activated) == Finish(stamped);
    assert Finish(selected) == Finish(activated);
    assert Finish(s) == Finish(selected);
  }

  /** A pass that lets an unmasked restore through, left alone, serves it unmasked
      exactly when `redactionPhase` was already Complete or Partial as it began. */
  lemma ServedUnmaskedExactly(s: State, c: Choices, n: Name)
    requires s.spec.redaction && s.pass.None? && ValidChoices(s, c) && c.switching == Some(n)
    requires !s.restores[n].masked && Plan(s, c).switch.Some?
    ensures var t := Finish(Step(s, BeginPass(c)));
      t.service == Some(n) && t.Has(n, Active) && (!t.restores[n].masked <==> Done(s.status))
  {
    var first, rest := RedactionGate(s, c, n).writes, MigrationGate(s, c).writes;
    RedactionGateMasks(s, c, false, n);
    MigrationUnrelated(s, c);
    UnrelatedAfter(first, rest, false, n);
    FinishSwitch(Step(s, BeginPass(c)));
  }

  /** Which passes clear the phase: those whose sweep ran, found a stale restore and
      deleted every one it found. */
  lemma ClearsExactly(s: State, c: Choices)
    requires ValidChoices(s, c)
    ensures ClearPhases in Plan(s, c).tail <==>
            && c.switching.None? && !(s.spec.ephemeral && c.active.Some? && !s.restores[c.active.value].deleting)
            && SweepGuard(s) && (exists n: Name :: IsStale(s, n)) && AllDeleted(c.stale, c.undeleted)
  {
    if c.switching.None? && !(s.spec.ephemeral && c.active.Some? && !s.restores[c.active.value].deleting) {
      if ClearPhases in Plan(s, c).tail {
        RestWrite(s, c, ClearPhases);
        assert IsStale(s, c.stale[0]);
      }
      if SweepGuard(s) && (exists n: Name :: IsStale(s, n)) && AllDeleted(c.stale, c.undeleted) {
        var n :| IsStale(s, n);
        assert n in c.stale;
        assert ClearPhases in SweepTail(s, c);
      }
    }
  }

  /** So a replica with no second Active restore keeps its settled phase. */
  lemma LoneRestoreNeverClears(s: State, c: Choices)
    requires ValidChoices(s, c) && forall n: Name :: s.Has(n, Active) ==> s.status.current == Some(n)
    ensures ClearPhases !in Plan(s, c).tail
  {
    ClearsExactly(s, c);
  }

  // ----- The second restore of every redacted replica -----------------------------

  function Masked(s: State, n: Name): State
    requires n in s.restores
  {
    s.(restores := s.restores[n := s.restores[n].(masked := true)],
       status := s.status.(redaction := Some(RedactionComplete)))
  }

  /** The first restore: redaction has never run, so the gate runs it. */
  ghost predicate FirstWaiting(s: State, n: Name) {
    && s.spec.redaction && s.status.redaction == None
    && !s.spec.ephemeral && s.spec.schemas.NotConfigured? && s.pass == None
    && s.Has(n, Switching) && s.status.current == None && forall m :: m in s.restores ==> m == n
  }

  lemma FirstIsMasked(s0: State, s: State, n: Name)
    requires FirstWaiting(s, n) && Reaches(s0, s, Smooth)
    ensures Reaches(s0, Masked(s, n).(pass := Some(Pass([], Some(Switch(n, None, ToSelect)), []))), Smooth)
  {
    var c := Plain(Some(n), None, None, 0);
    var sw := Some(Switch(n, None, ToSelect));
    var gates := [PatchRedaction(RedactionActive), Mask(n), PatchRedaction(RedactionComplete)];
    assert Plan(s, c) == Pass(gates, sw, []);
    ReachesStep(s0, s, BeginPass(c), Smooth);
    GatesRun(s0, s, n, sw);
  }

  lemma GatesRun(s0: State, s: State, n: Name, sw: Option<Switch>)
    requires n in s.restores
    requires Reaches(s0, s.(pass := Some(Pass([PatchRedaction(RedactionActive), Mask(n), PatchRedaction(RedactionComplete)], sw, []))), Smooth)
    ensures Reaches(s0, Masked(s, n).(pass := Some(Pass([], sw, []))), Smooth)
  {
    var g1, g2 := [Mask(n), PatchRedaction(RedactionComplete)], [PatchRedaction(RedactionComplete)];
    var s1 := s.(status := s.status.(redaction := Some(RedactionActive)));
    var s2 := s1.(restores := s.restores[n := s.restores[n].(masked := true)]);
    assert [PatchRedaction(RedactionActive)] + g1 == [PatchRedaction(RedactionActive), Mask(n), PatchRedaction(RedactionComplete)];
    ReachesStep(s0, s.(pass := Some(Pass([PatchRedaction(RedactionActive)] + g1, sw, []))), Work, Smooth);
    assert ([PatchRedaction(RedactionActive)] + g1)[1..] == g1;
    ReachesStep(s0, s1.(pass := Some(Pass(g1, sw, []))), Work, Smooth);
    assert g1[1..] == g2;
    ReachesStep(s0, s2.(pass := Some(Pass(g2, sw, []))), Work, Smooth);
    assert g2[1..] == [];
  }

  lemma FirstMaskedServed(s: State)
    requires FreshKopia(s) && s.spec.redaction && s.status.redaction == None
    ensures var one := Switched(Masked(s.(restores := s.restores[0 := Fresh(0, s.now)]), 0), 0);
      Reaches(s, one, Smooth) && Idle(one, Some(0), [])
  {
    ReachesSelf(s, Smooth);
    RestoreSwitches(s, s, None, 0, 0);
    var first := s.(restores := s.restores[0 := Fresh(0, s.now)]);
    FirstIsMasked(s, first, 0);
    SwitchWrites(s, Masked(first, 0), 0);
    FirstServed(Masked(first, 0), 0);
  }

  /** From every fresh redacted replica, with nothing failing, stopping or deleted, the
      second restore is served unmasked: the first left the phase Complete, and with no
      stale restore to sweep nothing cleared it. */
  lemma SecondRestoreServedUnmasked(s: State)
    requires FreshKopia(s) && s.spec.redaction && s.status.redaction == None
    ensures exists t :: Reaches(s, t, Smooth) && t.service.Some? && t.Has(t.service.value, Active)
                        && !t.restores[t.service.value].masked
  {
    ReachesSelf(s, Smooth);
    FirstMaskedServed(s);
    var one := Switched(Masked(s.(restores := s.restores[0 := Fresh(0, s.now)]), 0), 0);
    RestoreSwitches(s, one, Some(0), 1, 1);
    var second := one.(restores := one.restores[1 := Fresh(1, one.now)]);
    SwitchCompletes(s, second, Some(0), 1);
    var t := Switched(second, 1);
    assert t.service == Some(1) && t.Has(1, Active) && !t.restores[1].masked;
  }
}
