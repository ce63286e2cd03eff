/** What the redaction gate guarantees of the data the Service hands out, and the cycle
    in which it guarantees nothing. */
module RedactionSafety {
  import opened Options
  import opened Protocol
  import opened PassPlans
  import opened RunRules
  import CurrentHeld

  predicate Done(status: Status) { status.redaction.Some? && status.redaction.value.IsDone() }

  /** Restores switch one at a time, each finds `redactionPhase` not yet settled and no pass
      part way through its gates, and a new restore does not take the name the Service still
      selects. */
  predicate OneAtATime(s: State, e: Event) {
    && (EntersSwitching(s, e) ==> NoneSwitching(s) && !Done(s.status) && (s.pass.Some? ==> s.pass.value.gates == []))
    && (e.BeginPass? ==> Some(e.choices.newName) != s.service)
  }

  // ----- The gate's writes --------------------------------------------------------

  /** Whether `n` is masked once the gate writes have been made. */
  function MaskedAfter(gates: seq<Gate>, masked: bool, n: Name): bool {
    if gates == [] then masked else MaskedAfter(gates[1..], masked || gates[0] == Mask(n), n)
  }

  /** Redaction is recorded as settled only once `n` is masked. */
  predicate Honest(gates: seq<Gate>, masked: bool, n: Name) {
    gates == [] ||
    (&& (gates[0].PatchRedaction? && gates[0].redaction.IsDone() ==> masked)
     && Honest(gates[1..], masked || gates[0] == Mask(n), n))
  }

  predicate Unrelated(gates: seq<Gate>) {
    forall g :: g in gates ==> !g.PatchRedaction? && !g.Mask?
  }

  lemma {:induction false} UnrelatedAfter(first: seq<Gate>, rest: seq<Gate>, masked: bool, n: Name)
    requires Unrelated(rest)
    ensures MaskedAfter(first + rest, masked, n) == MaskedAfter(first, masked, n)
    ensures Honest(first + rest, masked, n) == Honest(first, masked, n)
    decreases |first| + |rest|
  {
    if first != [] {
      assert (first + rest)[1..] == first[1..] + rest;
      UnrelatedAfter(first[1..], rest, masked || first[0] == Mask(n), n);
    } else if rest != [] {
      assert first + rest == rest && rest[1..] == [] + rest[1..] && rest[0] in rest;
      UnrelatedAfter([], rest[1..], masked, n);
    } else {
      assert first + rest == [];
    }
  }

  lemma MigrationUnrelated(s: State, c: Choices)
    ensures Unrelated(MigrationGate(s, c).writes)
  {
  }

  lemma SettlingMasks(c: Choices, masked: bool, n: Name)
    ensures var run := [Mask(n), PatchRedaction(if c.redactionPartial then RedactionPartial else RedactionComplete)];
      Honest(run, masked, n) && MaskedAfter(run, masked, n)
  {
    var settled := PatchRedaction(if c.redactionPartial then RedactionPartial else RedactionComplete);
    assert [Mask(n), settled][1..] == [settled] && [settled][1..] == [];
    assert Honest([settled], true, n) && MaskedAfter([settled], true, n);
  }

  lemma BeginningIsHonest(run: seq<Gate>, masked: bool, n: Name)
    requires Honest(run, masked, n)
    ensures Honest([PatchRedaction(RedactionActive)] + run, masked, n)
    ensures MaskedAfter([PatchRedaction(RedactionActive)] + run, masked, n) == MaskedAfter(run, masked, n)
  {
    assert ([PatchRedaction(RedactionActive)] + run)[1..] == run;
  }

  /** The gate lets a restore through masked, unless redaction was already settled. */
  lemma RedactionGateMasks(s: State, c: Choices, masked: bool, n: Name)
    requires s.spec.redaction
    ensures (Done(s.status) ==> masked) ==> Honest(RedactionGate(s, c, n).writes, masked, n)
    ensures RedactionGate(s, c, n).proceed ==>
      MaskedAfter(RedactionGate(s, c, n).writes, masked, n) == (masked || !Done(s.status))
  {
    if !Done(s.status) {
      var run := [Mask(n), PatchRedaction(if c.redactionPartial then RedactionPartial else RedactionComplete)];
      var failed := [PatchRedaction(RedactionFailed)];
      SettlingMasks(c, masked, n);
      assert Honest(failed, masked, n) by { assert failed[1..] == []; }
      BeginningIsHonest(run, masked, n);
      BeginningIsHonest(failed, masked, n);
      assert [] + failed == failed && [] + run == run;
    }
  }

  // ----- The invariant ------------------------------------------------------------

  ghost predicate OneSwitching(s: State) {
    forall m, n :: m in s.restores && n in s.restores && s.restores[m].Is(Switching) && s.restores[n].Is(Switching) ==> m == n
  }

  ghost predicate DoneMeansMasked(s: State) {
    Done(s.status) ==> forall n :: n in s.restores && s.restores[n].Is(Switching) ==> s.restores[n].masked
  }

  predicate ServedMasked(s: State) {
    s.service.Some? && s.service.value in s.restores ==> s.restores[s.service.value].masked
  }

  ghost predicate PassMasks(s: State) {
    s.pass.Some? ==>
      var p := s.pass.value;
      && (forall n :: n in s.restores && s.restores[n].Is(Switching) ==> Honest(p.gates, s.restores[n].masked, n))
      && (p.switch.Some? && p.switch.value.target in s.restores ==>
            MaskedAfter(p.gates, s.restores[p.switch.value.target].masked, p.switch.value.target))
      && (p.switch.Some? ==> p.tail == [])
      && (p.tail != [] ==> p.gates == [])
      && (forall w :: w in p.tail && w.CreateRestore? ==> s.service != Some(w.restore))
  }

  ghost predicate Inv(s: State) {
    s.spec.redaction && OneSwitching(s) && DoneMeansMasked(s) && ServedMasked(s) && PassMasks(s)
  }

  lemma SwitchPlanMasks(s: State, c: Choices)
    requires Inv(s) && s.pass.None? && ValidChoices(s, c) && c.switching.Some?
    ensures PassMasks(s.(pass := Some(Plan(s, c))))
  {
    var n := c.switching.value;
    var first, rest := RedactionGate(s, c, n).writes, MigrationGate(s, c).writes;
    RedactionGateMasks(s, c, s.restores[n].masked, n);
    MigrationUnrelated(s, c);
    UnrelatedAfter(first, rest, s.restores[n].masked, n);
  }

  lemma BeginKeeps(s: State, c: Choices)
    requires Inv(s) && s.pass.None? && ValidChoices(s, c) && Some(c.newName) != s.service
    ensures Inv(s.(pass := Some(Plan(s, c))))
  {
    if c.switching.Some? {
      SwitchPlanMasks(s, c);
    } else if s.spec.ephemeral && c.active.Some? && !s.restores[c.active.value].deleting {
    } else {
      forall w | w in RestPlan(s, c).tail && w.CreateRestore? ensures s.service != Some(w.restore) {
        CreatedName(s, c, w);
      }
    }
  }

  lemma GateKeeps(s: State)
    requires Inv(s) && s.pass.Some? && s.pass.value.gates != []
    ensures Inv(DoWork(s))
  {
    match s.pass.value.gates[0]
    case Mask(n) => MaskKeeps(s, n);
    case PatchRedaction(p) =>
    case PatchMigration(_) =>
    case CreateMigrationJob =>
    case DeleteMigrationJob =>
  }

  lemma MaskKeeps(s: State, n: Name)
    requires Inv(s) && s.pass.Some? && s.pass.value.gates != [] && s.pass.value.gates[0] == Mask(n)
    ensures Inv(DoWork(s))
  { }

  lemma SwitchKeeps(s: State)
    requires Inv(s) && s.pass.Some? && s.pass.value.gates == [] && s.pass.value.switch.Some?
    ensures Inv(DoWork(s))
  {
    var sw := s.pass.value.switch.value;
    match sw.stage
    case ToSelect => SelectKeeps(s, sw);
    case ToActivate =>
      if sw.target in s.restores { RephaseKeeps(s, sw, s.restores[sw.target].(phase := Some(Active)), ToStamp); }
    case ToStamp =>
      if sw.target in s.restores {
        RephaseKeeps(s, sw, s.restores[sw.target].(activatedAt := Some(s.now)), ToRecord(s.now));
      }
    case ToRecord(_) =>
  }

  lemma SelectKeeps(s: State, sw: Switch)
    requires Inv(s) && s.pass == Some(Pass([], Some(sw), [])) && sw.stage.ToSelect?
    ensures Inv(DoWork(s))
  {
    var t := DoWork(s);
    assert forall n :: n in t.restores <==> n in s.restores;
    assert forall n :: n in t.restores ==>
                         t.restores[n].phase == s.restores[n].phase && t.restores[n].masked == s.restores[n].masked;
  }

  lemma RephaseKeeps(s: State, sw: Switch, after: Restore, stage: Stage)
    requires Inv(s) && s.pass == Some(Pass([], Some(sw), [])) && sw.target in s.restores
    requires after.masked == s.restores[sw.target].masked
    requires after.Is(Switching) ==> s.restores[sw.target].Is(Switching)
    ensures Inv(s.(restores := s.restores[sw.target := after], pass := After(sw, stage)))
  {
  }

  lemma DeleteKeeps(s: State, n: Name, lingers: bool)
    requires Inv(s)
    ensures Inv(DeleteRestore(s, n, lingers))
  {
  }

  lemma FewerKeeps(s: State, tail: seq<Tail>)
    requires Inv(s) && s.pass.Some? && s.pass.value.gates == [] && s.pass.value.switch.None?
    requires forall w :: w in tail ==> w in s.pass.value.tail
    ensures Inv(s.(pass := Some(s.pass.value.(tail := tail))))
  {
  }

  lemma TailKeeps(s: State)
    requires Inv(s) && s.pass.Some? && s.pass.value.gates == [] && s.pass.value.switch.None? && s.pass.value.tail != []
    ensures Inv(DoWork(s))
  {
    var tail := s.pass.value.tail;
    var w := tail[0];
    var popped := s.(pass := Some(s.pass.value.(tail := tail[1..])));
    assert w in tail;
    FewerKeeps(s, tail[1..]);
    match w
    case SweepDelete(n, lingers) =>
      DeleteKeeps(popped, n, lingers);
      forall x | x in WithoutClear(tail[1..]) ensures x in tail[1..] { WithoutClearIs(tail[1..], x); }
      FewerKeeps(popped, WithoutClear(tail[1..]));
    case CleanFailed(n, lingers) => DeleteKeeps(popped, n, lingers);
    case TearDown(n, lingers) => DeleteKeeps(popped, n, lingers);
    case CreateRestore(n, snapshot, hasTarget) => CreateKeeps(popped, n, NewRestore(snapshot, hasTarget));
    case ClearPhases => QuietKeeps(popped, DoWork(s));
    case RecordVerified(_) => QuietKeeps(popped, DoWork(s));
    case TakeListing => QuietKeeps(popped, DoWork(s));
    case DropListJob => QuietKeeps(popped, DoWork(s));
    case SetSchedule(_) => QuietKeeps(popped, DoWork(s));
    case CreateListJob => QuietKeeps(popped, DoWork(s));
  }

  lemma QuietKeeps(s: State, t: State)
    requires Inv(s) && t.spec == s.spec && t.restores == s.restores && t.service == s.service
    requires (t.pass == s.pass || t.pass == None) && (Done(t.status) ==> Done(s.status))
    ensures Inv(t)
  { }

  lemma CreateKeeps(s: State, n: Name, r: Restore)
    requires Inv(s) && s.pass.Some? && s.pass.value.switch.None? && s.pass.value.gates == []
    requires s.service != Some(n) && r.phase.None?
    ensures Inv(s.(pass := None))
    ensures n !in s.restores ==> Inv(s.(restores := s.restores[n := r]))
  { }

  lemma RestorePassKeeps(s: State, n: Name, o: Observation)
    requires Inv(s) && n in s.restores && OneAtATime(s, RestorePass(n, o))
    ensures Inv(RestoreStep(s, n, o))
  {
    var after := Handle(s.restores[n], o, s.now).restore;
    if after.Is(Switching) && !s.restores[n].Is(Switching) {
      assert EntersSwitching(s, RestorePass(n, o));
    }
  }

  lemma StepKeeps(s: State, e: Event)
    requires Inv(s) && OneAtATime(s, e)
    ensures Inv(Step(s, e))
  {
    match e
    case BeginPass(c) => if s.pass.None? && ValidChoices(s, c) { BeginKeeps(s, c); }
    case Work =>
      if s.pass.Some? {
        if s.pass.value.gates != [] { GateKeeps(s); }
        else if s.pass.value.switch.Some? { SwitchKeeps(s); }
        else if s.pass.value.tail != [] { TailKeeps(s); }
      }
    case RestorePass(n, o) => if n in s.restores { RestorePassKeeps(s, n, o); }
    case Gone(n) => DeleteKeeps(s, n, false);
    case OutsideDelete(n) => DeleteKeeps(s, n, false);
    case _ =>
  }

  lemma {:induction false} RunKeeps(s: State, events: seq<Event>)
    requires Inv(s) && Along(s, events, OneAtATime)
    ensures Inv(Run(s, events))
    decreases |events|
  {
    if events != [] {
      StepKeeps(s, events[0]);
      RunKeeps(Step(s, events[0]), events[1..]);
    }
  }

  /** Through deletions by hand as well: where a restore becomes Switching only while no pass
      is part way through its gates, the Service only ever selects a restore whose own
      redaction run returned Ok. */
  lemma ServedOnlyMaskedThroughDeletions(s: State, events: seq<Event>)
    requires Initial(s) && s.spec.redaction && Along(s, events, OneAtATime)
    ensures var t := Run(s, events);
      t.service.Some? && t.service.value in t.restores ==> t.restores[t.service.value].masked
  {
    RunKeeps(s, events);
  }

  // ----- Where nobody deletes by hand ---------------------------------------------------

  /** Restores switch one at a time, each finds `redactionPhase` not yet settled, a new restore
      does not take the name the Service still selects, and nobody deletes one by hand. */
  predicate InTurn(s: State, e: Event) {
    && NoHand(s, e)
    && (EntersSwitching(s, e) ==> NoneSwitching(s) && !Done(s.status))
    && (e.BeginPass? ==> Some(e.choices.newName) != s.service)
  }

  /** A pass that has gates left has its restore still Switching. */
  predicate GatesAttended(s: State) { s.pass.Some? && s.pass.value.gates != [] ==> !NoneSwitching(s) }

  lemma GateLeavesSwitching(s: State, n: Name)
    requires s.pass.Some? && s.pass.value.gates != [] && s.Has(n, Switching)
    ensures DoWork(s).Has(n, Switching)
  { }

  lemma NoGatesAfter(s: State)
    requires s.pass.Some? && s.pass.value.gates == []
    ensures DoWork(s).pass.Some? ==> DoWork(s).pass.value.gates == []
  {
    if InTail(s) { TailLeaves(s); }
  }

  lemma OtherLeavesSwitching(s: State, e: Event, n: Name)
    requires OnlyFinishedDeleted(s) && NoHand(s, e) && !e.BeginPass? && !e.Work? && s.Has(n, Switching)
    ensures Step(s, e).Has(n, Switching) && (Step(s, e).pass == s.pass || Step(s, e).pass == None)
  { }

  lemma GatesAttendedKept(s: State, e: Event)
    requires CurrentHeld.Inv(s) && GatesAttended(s) && NoHand(s, e)
    ensures GatesAttended(Step(s, e))
  {
    var left := s.pass.Some? && s.pass.value.gates != [];
    if e.BeginPass? {
      if s.pass.None? && ValidChoices(s, e.choices) && e.choices.switching.Some? {
        assert s.Has(e.choices.switching.value, Switching);
      }
    } else if left {
      var n :| n in s.restores && s.restores[n].Is(Switching);
      if e.Work? { GateLeavesSwitching(s, n); } else { OtherLeavesSwitching(s, e, n); }
    } else if e.Work? && s.pass.Some? {
      NoGatesAfter(s);
    }
  }

  lemma {:induction false} InTurnIsOneAtATime(s: State, events: seq<Event>)
    requires CurrentHeld.Inv(s) && GatesAttended(s) && Along(s, events, InTurn)
    ensures Along(s, events, OneAtATime)
    decreases |events|
  {
    if events != [] {
      CurrentHeld.StepKeeps(s, events[0]);
      GatesAttendedKept(s, events[0]);
      InTurnIsOneAtATime(Step(s, events[0]), events[1..]);
    }
  }

  /** Restores switching one at a time, each before redaction is settled for it: the
      Service only ever selects a restore whose own redaction run returned Ok, through
      any number of failed runs, stops and restarts. */
  lemma ServedOnlyMasked(s: State, events: seq<Event>)
    requires Initial(s) && s.spec.redaction && Along(s, events, InTurn)
    ensures var t := Run(s, events);
      t.service.Some? && t.service.value in t.restores ==> t.restores[t.service.value].masked
  {
    InTurnIsOneAtATime(s, events);
    ServedOnlyMaskedThroughDeletions(s, events);
  }
}
