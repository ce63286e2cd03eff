/** What the blue-green switchover keeps on every run of a replica that is not
    ephemeral: the Service never names a restore that is gone, and no Active restore is
    deleted before it has been off the Service for the grace period. */
module Switchover {
  import opened Options
  import opened Protocol
  import opened PassPlans
  import opened RunRules

  predicate Switches(s: State) { s.pass.Some? && s.pass.value.switch.Some? }

  /** Between the Active patch and the status patch. */
  predicate Unrecorded(s: State) {
    Switches(s) && (s.pass.value.switch.value.stage.ToStamp? || s.pass.value.switch.value.stage.ToRecord?)
  }

  /** Between the Service patch and the status patch. */
  predicate MidSwitchover(s: State) {
    Switches(s) && !s.pass.value.switch.value.stage.ToSelect?
  }

  /** Nobody deletes a restore by hand, and the operator does not stop between marking
      a restore Active and recording it as current. */
  predicate Untorn(s: State, e: Event) {
    !e.OutsideDelete? && (e.Stop? || e.Restart? ==> !Unrecorded(s))
  }

  /** The same, with all of the switchover's writes taken together. */
  predicate Whole(s: State, e: Event) {
    !e.OutsideDelete? && (e.Stop? || e.Restart? ==> !MidSwitchover(s))
  }

  // ----- The invariant ------------------------------------------------------------

  predicate Served(s: State) {
    s.service.Some? ==>
      && s.service.value in s.restores
      && !s.restores[s.service.value].deleting
      && (s.restores[s.service.value].Is(Switching) || s.restores[s.service.value].Is(Active))
  }

  predicate ServedIsCurrent(s: State) {
    s.service.Some? && s.Has(s.service.value, Active) ==>
      s.status.current == s.service || (Unrecorded(s) && Some(s.pass.value.switch.value.target) == s.service)
  }

  predicate CompletedBy(s: State, at: int) {
    s.status.completedAt.Some? ==> s.status.completedAt.value <= at
  }

  predicate SwitchInStep(s: State) {
    Switches(s) ==>
      var p := s.pass.value;
      var sw := p.switch.value;
      && p.tail == []
      && (p.gates != [] ==> sw.stage.ToSelect?)
      && sw.target in s.restores && !s.restores[sw.target].deleting
      && s.restores[sw.target].Is(if Unrecorded(s) then Active else Switching)
      && (!sw.stage.ToSelect? ==> s.service == Some(sw.target))
      && (sw.stage.ToRecord? ==> sw.stage.at <= s.now && CompletedBy(s, sw.stage.at))
  }

  predicate LeftInTime(s: State, r: Restore) {
    && r.leftService.Some? && r.leftService.value <= s.now
    && (|| (s.status.completedAt.Some? && r.leftService.value <= s.status.completedAt.value)
        || (s.service.Some? && s.Has(s.service.value, Switching))
        || (Unrecorded(s) && (s.pass.value.switch.value.stage.ToRecord? ==>
                                r.leftService.value <= s.pass.value.switch.value.stage.at)))
  }

  ghost predicate OthersLeft(s: State) {
    forall n :: n in s.restores && s.restores[n].Is(Active) && s.service != Some(n) ==> LeftInTime(s, s.restores[n])
  }

  predicate PastGrace(s: State, r: Restore) {
    r.leftService.Some? && s.now - r.leftService.value > s.spec.grace
  }

  predicate Removable(s: State, n: Name) {
    && s.service != Some(n) && s.status.current != Some(n)
    && (n in s.restores ==> s.restores[n].Is(Active) || s.restores[n].Is(Failed))
    && (s.Has(n, Active) ==> PastGrace(s, s.restores[n]) && SweepSettled(s))
  }

  predicate SweepSettled(s: State) {
    && (s.spec.schemas.NotConfigured? || s.status.migration != Some(MigrationActive))
    && s.status.redaction != Some(RedactionActive)
  }

  predicate WriteSafe(s: State, w: Tail) {
    match w
    case RecordVerified(_) => false
    case TearDown(_, _) => false
    case SweepDelete(n, _) => Removable(s, n)
    case CleanFailed(n, _) => Removable(s, n)
    case _ => true
  }

  ghost predicate TailSafe(s: State) {
    s.pass.Some? ==>
      && (s.pass.value.tail != [] ==> s.pass.value.gates == [])
      && CreatesLast(s.pass.value.tail)
      && forall w :: w in s.pass.value.tail ==> WriteSafe(s, w)
  }

  ghost predicate Inv(s: State) {
    && !s.spec.ephemeral && CompletedBy(s, s.now)
    && Served(s) && ServedIsCurrent(s) && CurrentIsActive(s)
    && SwitchInStep(s) && OthersLeft(s) && TailSafe(s) && OnlyFinishedDeleted(s)
  }

  // ----- Planning -----------------------------------------------------------------

  lemma StaleIsRemovable(s: State, c: Choices, n: Name)
    requires Inv(s) && s.pass.None? && ValidChoices(s, c) && c.switching.None?
    requires SweepGuard(s) && IsStale(s, n)
    ensures Removable(s, n)
  {
    assert LeftInTime(s, s.restores[n]);
  }

  lemma PlannedWritesAreSafe(s: State, c: Choices)
    requires Inv(s) && s.pass.None? && ValidChoices(s, c) && c.switching.None?
    ensures TailSafe(s.(pass := Some(RestPlan(s, c))))
  {
    var t := s.(pass := Some(RestPlan(s, c)));
    RestCreatesLast(s, c);
    forall w | w in t.pass.value.tail
      ensures WriteSafe(t, w)
    {
      RestWrite(s, c, w);
      match w
      case SweepDelete(n, _) => StaleIsRemovable(s, c, n);
      case CleanFailed(n, _) => assert IsExpired(s, n);
      case _ =>
    }
  }

  lemma BeginKeeps(s: State, c: Choices)
    requires Inv(s) && s.pass.None? && ValidChoices(s, c)
    ensures Inv(s.(pass := Some(Plan(s, c))))
  {
    var t := s.(pass := Some(Plan(s, c)));
    if c.switching.None? {
      PlannedWritesAreSafe(s, c);
    }
    forall n | n in t.restores && t.restores[n].Is(Active) && t.service != Some(n)
      ensures LeftInTime(t, t.restores[n])
    {
      assert LeftInTime(s, s.restores[n]);
    }
  }

  // ----- Steps that leave the invariant's fields alone ----------------------------

  predicate SameCore(s: State, t: State) {
    && t.spec == s.spec && t.restores == s.restores && t.service == s.service && t.pass == s.pass && t.now == s.now
    && t.status.current == s.status.current && t.status.completedAt == s.status.completedAt
    && t.status.migration == s.status.migration && t.status.redaction == s.status.redaction
  }

  lemma CoreKeeps(s: State, t: State)
    requires Inv(s) && SameCore(s, t)
    ensures Inv(t)
  {
    forall n | n in t.restores && t.restores[n].Is(Active) && t.service != Some(n)
      ensures LeftInTime(t, t.restores[n])
    {
      assert LeftInTime(s, s.restores[n]);
    }
    if s.pass.Some? {
      forall w | w in t.pass.value.tail ensures WriteSafe(t, w) { assert WriteSafe(s, w); }
    }
  }

  /** A restore rewritten without touching what the switchover reads of it. */
  lemma RetouchKeeps(s: State, n: Name, after: Restore)
    requires Inv(s) && n in s.restores && Untouched(s.restores[n], after)
    ensures Inv(s.(restores := s.restores[n := after]))
  {
    var t := s.(restores := s.restores[n := after]);
    forall m | m in t.restores && t.restores[m].Is(Active) && t.service != Some(m)
      ensures LeftInTime(t, t.restores[m])
    {
      assert LeftInTime(s, s.restores[m]);
    }
    if s.pass.Some? {
      forall w | w in t.pass.value.tail ensures WriteSafe(t, w) { assert WriteSafe(s, w); }
    }
  }

  lemma TickKeeps(s: State, d: nat)
    requires Inv(s)
    ensures Inv(s.(now := s.now + d))
  {
    var t := s.(now := s.now + d);
    forall m | m in t.restores && t.restores[m].Is(Active) && t.service != Some(m)
      ensures LeftInTime(t, t.restores[m])
    {
      assert LeftInTime(s, s.restores[m]);
    }
    if s.pass.Some? {
      forall w | w in t.pass.value.tail ensures WriteSafe(t, w) { assert WriteSafe(s, w); }
    }
  }

  lemma DropPassKeeps(s: State)
    requires Inv(s) && !Unrecorded(s)
    ensures Inv(s.(pass := None))
  {
    var t := s.(pass := None);
    forall n | n in t.restores && t.restores[n].Is(Active) && t.service != Some(n)
      ensures LeftInTime(t, t.restores[n])
    {
      assert LeftInTime(s, s.restores[n]);
    }
  }

  // ----- Each write of a pass -----------------------------------------------------

  lemma PopGateKeeps(s: State)
    requires Inv(s) && s.pass.Some? && s.pass.value.gates != []
    ensures Inv(s.(pass := Some(s.pass.value.(gates := s.pass.value.gates[1..]))))
  {
    var t := s.(pass := Some(s.pass.value.(gates := s.pass.value.gates[1..])));
    forall n | n in t.restores && t.restores[n].Is(Active) && t.service != Some(n)
      ensures LeftInTime(t, t.restores[n])
    {
      assert LeftInTime(s, s.restores[n]);
    }
  }

  lemma PhasesKeep(s: State, migration: Option<SchemaMigrationPhase>, redaction: Option<RedactionPhase>)
    requires Inv(s) && (s.pass.Some? ==> s.pass.value.tail == [])
    ensures Inv(s.(status := s.status.(migration := migration, redaction := redaction)))
  {
    var t := s.(status := s.status.(migration := migration, redaction := redaction));
    forall n | n in t.restores && t.restores[n].Is(Active) && t.service != Some(n)
      ensures LeftInTime(t, t.restores[n])
    {
      assert LeftInTime(s, s.restores[n]);
    }
  }

  lemma GateKeeps(s: State)
    requires Inv(s) && s.pass.Some? && s.pass.value.gates != []
    ensures Inv(DoWork(s))
  {
    var g := s.pass.value.gates[0];
    var popped := s.(pass := Some(s.pass.value.(gates := s.pass.value.gates[1..])));
    PopGateKeeps(s);
    match g
    case PatchRedaction(p) => PhasesKeep(popped, s.status.migration, Some(p));
    case PatchMigration(p) => PhasesKeep(popped, Some(p), s.status.redaction);
    case Mask(n) => if n in s.restores { MaskKeeps(popped, n); }
    case CreateMigrationJob => CoreKeeps(popped, DoWork(s));
    case DeleteMigrationJob => CoreKeeps(popped, DoWork(s));
  }

  lemma MaskKeeps(s: State, n: Name)
    requires Inv(s) && n in s.restores
    ensures Inv(s.(restores := s.restores[n := s.restores[n].(masked := true)]))
  {
    var t := s.(restores := s.restores[n := s.restores[n].(masked := true)]);
    forall m | m in t.restores && t.restores[m].Is(Active) && t.service != Some(m)
      ensures LeftInTime(t, t.restores[m])
    {
      assert LeftInTime(s, s.restores[m]);
    }
    if s.pass.Some? {
      forall w | w in t.pass.value.tail ensures WriteSafe(t, w) { assert WriteSafe(s, w); }
    }
  }

  lemma SelectKeeps(s: State)
    requires Inv(s) && Switches(s) && s.pass.value.gates == [] && s.pass.value.switch.value.stage.ToSelect?
    ensures Inv(DoWork(s))
  {
    var t := DoWork(s);
    assert t.service.Some? && t.Has(t.service.value, Switching);
    forall n | n in t.restores && t.restores[n].Is(Active) && t.service != Some(n)
      ensures LeftInTime(t, t.restores[n])
    {
      if s.service != Some(n) {
        assert LeftInTime(s, s.restores[n]);
      }
    }
  }

  lemma ActivateKeeps(s: State)
    requires Inv(s) && Switches(s) && s.pass.value.gates == [] && s.pass.value.switch.value.stage.ToActivate?
    ensures Inv(DoWork(s))
  {
    var t := DoWork(s);
    forall n | n in t.restores && t.restores[n].Is(Active) && t.service != Some(n)
      ensures LeftInTime(t, t.restores[n])
    {
      assert LeftInTime(s, s.restores[n]);
    }
  }

  lemma StampKeeps(s: State)
    requires Inv(s) && Switches(s) && s.pass.value.gates == [] && s.pass.value.switch.value.stage.ToStamp?
    ensures Inv(DoWork(s))
  {
    var t := DoWork(s);
    forall n | n in t.restores && t.restores[n].Is(Active) && t.service != Some(n)
      ensures LeftInTime(t, t.restores[n])
    {
      assert LeftInTime(s, s.restores[n]);
    }
  }

  lemma RecordKeeps(s: State)
    requires Inv(s) && Switches(s) && s.pass.value.gates == [] && s.pass.value.switch.value.stage.ToRecord?
    ensures Inv(DoWork(s))
  {
    var t := DoWork(s);
    var at := s.pass.value.switch.value.stage.at;
    forall n | n in t.restores && t.restores[n].Is(Active) && t.service != Some(n)
      ensures LeftInTime(t, t.restores[n])
    {
      assert LeftInTime(s, s.restores[n]);
      assert !s.Has(s.service.value, Switching);
    }
  }

  /** Deleting anything the Service and the status do not name keeps the invariant. */
  lemma DeleteKeeps(s: State, n: Name, lingers: bool)
    requires Inv(s) && Removable(s, n) && !Switches(s)
    ensures Inv(DeleteRestore(s, n, lingers))
  {
    var t := DeleteRestore(s, n, lingers);
    forall m | m in t.restores && t.restores[m].Is(Active) && t.service != Some(m)
      ensures LeftInTime(t, t.restores[m])
    {
      assert LeftInTime(s, s.restores[m]);
    }
    if s.pass.Some? {
      forall w | w in t.pass.value.tail ensures WriteSafe(t, w) { assert WriteSafe(s, w); }
    }
  }

  /** Some of the remaining writes dropped. */
  lemma FewerKeeps(s: State, tail: seq<Tail>)
    requires Inv(s) && s.pass.Some? && !Switches(s) && CreatesLast(tail)
    requires forall w :: w in tail ==> w in s.pass.value.tail
    ensures Inv(s.(pass := Some(s.pass.value.(tail := tail))))
  {
    var t := s.(pass := Some(s.pass.value.(tail := tail)));
    forall n | n in t.restores && t.restores[n].Is(Active) && t.service != Some(n)
      ensures LeftInTime(t, t.restores[n])
    {
      assert LeftInTime(s, s.restores[n]);
    }
    forall w | w in tail ensures WriteSafe(t, w) { assert WriteSafe(s, w); }
    if tail != [] {
      assert tail[0] in s.pass.value.tail;
    }
  }

  lemma SweepKeeps(s: State, n: Name, lingers: bool)
    requires Inv(s) && Removable(s, n) && s.pass.Some? && !Switches(s)
    ensures Inv(DoSweep(s, n, lingers))
  {
    if n in s.restores {
      DeleteKeeps(s, n, lingers);
    } else {
      var tail := WithoutClear(s.pass.value.tail);
      WithoutClearCreatesLast(s.pass.value.tail);
      forall w | w in tail ensures w in s.pass.value.tail { WithoutClearIs(s.pass.value.tail, w); }
      FewerKeeps(s, tail);
    }
  }

  lemma CreateKeeps(s: State, n: Name, r: Restore)
    requires Inv(s) && !Switches(s) && s.pass.Some? && n !in s.restores && r.phase.None? && !r.deleting
    requires forall w :: w in s.pass.value.tail ==> !Deletes(w)
    ensures Inv(s.(restores := s.restores[n := r]))
  {
    var t := s.(restores := s.restores[n := r]);
    forall m | m in t.restores && t.restores[m].Is(Active) && t.service != Some(m)
      ensures LeftInTime(t, t.restores[m])
    {
      assert LeftInTime(s, s.restores[m]);
    }
    forall w | w in t.pass.value.tail ensures WriteSafe(t, w) { assert WriteSafe(s, w); }
  }

  lemma ClearKeeps(s: State)
    requires Inv(s) && s.pass.Some?
    ensures Inv(s.(status := s.status.(previous := None, migration := None, redaction := None)))
  {
    var t := s.(status := s.status.(previous := None, migration := None, redaction := None));
    forall n | n in t.restores && t.restores[n].Is(Active) && t.service != Some(n)
      ensures LeftInTime(t, t.restores[n])
    {
      assert LeftInTime(s, s.restores[n]);
    }
    forall w | w in t.pass.value.tail ensures WriteSafe(t, w) { assert WriteSafe(s, w); }
  }

  lemma TailKeeps(s: State)
    requires Inv(s) && s.pass.Some? && s.pass.value.gates == [] && s.pass.value.switch.None? && s.pass.value.tail != []
    ensures Inv(DoWork(s))
  {
    var tail := s.pass.value.tail;
    var w := tail[0];
    var popped := s.(pass := Some(s.pass.value.(tail := tail[1..])));
    assert WriteSafe(s, w);
    FewerKeeps(s, tail[1..]);
    match w
    case SweepDelete(n, lingers) => SweepKeeps(popped, n, lingers);
    case CleanFailed(n, lingers) => DeleteKeeps(popped, n, lingers);
    case CreateRestore(n, snapshot, hasTarget) =>
      if |LiveNames(s.restores)| < MAX_RESTORES_PER_REPLICA {
        if n in s.restores {
          DropPassKeeps(popped);
        } else {
          forall x | x in tail[1..] ensures !Deletes(x) {
            var j :| 1 <= j < |tail| && tail[j] == x;
            assert Creates(tail[0]);
          }
          CreateKeeps(popped, n, NewRestore(snapshot, hasTarget));
        }
      }
    case ClearPhases => ClearKeeps(popped);
    case CreateListJob =>
      if s.listJob.Some? { DropPassKeeps(popped); } else { CoreKeeps(popped, DoWork(s)); }
    case TakeListing => CoreKeeps(popped, DoWork(s));
    case DropListJob => CoreKeeps(popped, DoWork(s));
    case SetSchedule(_) => CoreKeeps(popped, DoWork(s));
    case RecordVerified(_) =>
    case TearDown(_, _) =>
  }

  lemma WorkKeeps(s: State)
    requires Inv(s) && s.pass.Some?
    ensures Inv(DoWork(s))
  {
    if s.pass.value.gates != [] {
      GateKeeps(s);
    } else if s.pass.value.switch.Some? {
      match s.pass.value.switch.value.stage
      case ToSelect => SelectKeeps(s);
      case ToActivate => ActivateKeeps(s);
      case ToStamp => StampKeeps(s);
      case ToRecord(_) => RecordKeeps(s);
    } else if s.pass.value.tail != [] {
      TailKeeps(s);
    } else {
      DropPassKeeps(s);
    }
  }

  // ----- Everything else ----------------------------------------------------------

  lemma RestorePassKeeps(s: State, n: Name, o: Observation)
    requires Inv(s) && n in s.restores
    ensures Inv(RestoreStep(s, n, o))
  {
    var after := Handle(s.restores[n], o, s.now).restore;
    RetouchKeeps(s, n, after);
    CoreKeeps(s.(restores := s.restores[n := after]), RestoreStep(s, n, o));
  }

  lemma GoneKeeps(s: State, n: Name)
    requires Inv(s) && n in s.restores && s.restores[n].deleting
    ensures Inv(s.(restores := s.restores - {n}))
  {
    var t := s.(restores := s.restores - {n});
    forall m | m in t.restores && t.restores[m].Is(Active) && t.service != Some(m)
      ensures LeftInTime(t, t.restores[m])
    {
      assert LeftInTime(s, s.restores[m]);
    }
    if s.pass.Some? {
      forall w | w in t.pass.value.tail ensures WriteSafe(t, w) { assert WriteSafe(s, w); }
    }
  }

  lemma StepKeeps(s: State, e: Event)
    requires Inv(s) && Untorn(s, e)
    ensures Inv(Step(s, e))
  {
    match e
    case BeginPass(c) => if s.pass.None? && ValidChoices(s, c) { BeginKeeps(s, c); }
    case Work => if s.pass.Some? { WorkKeeps(s); }
    case Stop => DropPassKeeps(s);
    case Restart => DropPassKeeps(s); CoreKeeps(s.(pass := None), Step(s, e));
    case RestorePass(n, o) => if n in s.restores { RestorePassKeeps(s, n, o); }
    case WithdrawTarget(n) => if n in s.restores { RetouchKeeps(s, n, s.restores[n].(hasTarget := false)); }
    case Tick(d) => TickKeeps(s, d);
    case Gone(n) => if n in s.restores && s.restores[n].deleting { GoneKeeps(s, n); }
    case MigrationJobEnds(_) => CoreKeeps(s, Step(s, e));
    case MigrationJobGone => CoreKeeps(s, Step(s, e));
    case ListingPosted => CoreKeeps(s, Step(s, e));
    case ListJobEnds(_) => CoreKeeps(s, Step(s, e));
    case ListJobGone => CoreKeeps(s, Step(s, e));
    case SetDesired(_) => CoreKeeps(s, Step(s, e));
    case OutsideDelete(_) =>
  }

  // ----- On every run -------------------------------------------------------------

  lemma {:induction false} RunKeeps(s: State, events: seq<Event>)
    requires Inv(s) && Along(s, events, Untorn)
    ensures Inv(Run(s, events))
    decreases |events|
  {
    if events != [] {
      StepKeeps(s, events[0]);
      RunKeeps(Step(s, events[0]), events[1..]);
    }
  }

  /** Whatever stops fall elsewhere, the Service only ever names a restore that exists,
      is not on its way out, and is Active or about to be; and once no pass is part way
      through a switchover and no restore waits for one, it is the current restore. */
  lemma ServiceNamesLiveRestore(s: State, events: seq<Event>)
    requires Initial(s) && !s.spec.ephemeral && Along(s, events, Untorn)
    ensures var t := Run(s, events);
      && (t.service.Some? ==>
            && t.service.value in t.restores && !t.restores[t.service.value].deleting
            && (t.Has(t.service.value, Active) || t.Has(t.service.value, Switching)))
      && (t.status.current.Some? ==> t.Has(t.status.current.value, Active))
      && (t.service.Some? && !MidSwitchover(t) && !t.Has(t.service.value, Switching) ==> t.status.current == t.service)
  {
    RunKeeps(s, events);
  }

  predicate ServiceIsCurrent(s: State) {
    s.service.Some? && !MidSwitchover(s) ==> s.status.current == s.service && s.Has(s.service.value, Active)
  }

  lemma StepKeepsServiceCurrent(s: State, e: Event)
    requires Inv(s) && ServiceIsCurrent(s) && Whole(s, e)
    ensures Inv(Step(s, e)) && ServiceIsCurrent(Step(s, e))
  {
    StepKeeps(s, e);
    if e.Work? && s.pass.Some? {
      WorkKeepsServiceCurrent(s);
    }
  }

  lemma WorkKeepsServiceCurrent(s: State)
    requires Inv(s) && ServiceIsCurrent(s) && s.pass.Some?
    ensures ServiceIsCurrent(DoWork(s))
  {
    if InTail(s) {
      TailKeepsServiceCurrent(s);
    }
  }

  lemma TailKeepsServiceCurrent(s: State)
    requires Inv(s) && ServiceIsCurrent(s) && InTail(s)
    ensures ServiceIsCurrent(DoWork(s))
  {
    assert WriteSafe(s, s.pass.value.tail[0]);
    TailLeaves(s);
    if s.service.Some? && Deleted(s, DoWork(s), s.service.value) { TailDeletes(s, s.service.value); }
  }

  lemma {:induction false} RunKeepsServiceCurrent(s: State, events: seq<Event>)
    requires Inv(s) && ServiceIsCurrent(s) && Along(s, events, Whole)
    ensures Inv(Run(s, events)) && ServiceIsCurrent(Run(s, events))
    decreases |events|
  {
    if events != [] {
      StepKeepsServiceCurrent(s, events[0]);
      RunKeepsServiceCurrent(Step(s, events[0]), events[1..]);
    }
  }

  /** With the switchover's writes taken as one step, the Service always names the
      current restore, which exists and is Active. */
  lemma ServiceNamesCurrent(s: State, events: seq<Event>)
    requires Initial(s) && !s.spec.ephemeral && Along(s, events, Whole)
    ensures var t := Run(s, events);
      t.service.Some? && !MidSwitchover(t) ==> t.status.current == t.service && t.Has(t.service.value, Active)
  {
    RunKeepsServiceCurrent(s, events);
  }

  /** A restore this step deletes, or asks to be deleted. */
  predicate Deleted(s: State, t: State, n: Name) {
    n in s.restores && (n !in t.restores || (t.restores[n].deleting && !s.restores[n].deleting))
  }

  lemma WorkDeletesOnly(s: State, n: Name)
    requires Inv(s) && s.pass.Some? && Deleted(s, DoWork(s), n)
    ensures Removable(s, n)
  {
    if s.pass.value.gates != [] {
      GateDeletesNone(s, n);
    } else if s.pass.value.switch.Some? {
      SwitchDeletesNone(s, n);
    } else if s.pass.value.tail != [] {
      assert WriteSafe(s, s.pass.value.tail[0]);
      TailDeletes(s, n);
    }
  }

  lemma GateDeletesNone(s: State, n: Name)
    requires s.pass.Some? && s.pass.value.gates != []
    ensures !Deleted(s, DoWork(s), n)
  { }

  lemma SwitchDeletesNone(s: State, n: Name)
    requires s.pass.Some? && s.pass.value.gates == [] && s.pass.value.switch.Some?
    ensures !Deleted(s, DoWork(s), n)
  { }

  lemma TailDeletes(s: State, n: Name)
    requires InTail(s) && Deleted(s, DoWork(s), n)
    ensures Deletes(s.pass.value.tail[0]) && s.pass.value.tail[0].restore == n
  {
    if Deletes(s.pass.value.tail[0]) { DeleteWrites(s); }
    else if !s.pass.value.tail[0].CreateRestore? { OtherWrites(s); }
  }

  /** On every such run, an Active restore that a pass deletes is neither served nor
      current, left the Service more than the grace period ago, and goes while neither a
      schema migration nor a redaction is under way. */
  lemma DeletedAfterGrace(s: State, events: seq<Event>, n: Name)
    requires Initial(s) && !s.spec.ephemeral && Along(s, events, Untorn)
    requires var t := Run(s, events); t.Has(n, Active) && Deleted(t, Step(t, Work), n)
    ensures var t := Run(s, events);
      && t.service != Some(n) && t.status.current != Some(n)
      && t.restores[n].leftService.Some? && t.now - t.restores[n].leftService.value > t.spec.grace
      && (t.spec.schemas.NotConfigured? || t.status.migration != Some(MigrationActive))
      && t.status.redaction != Some(RedactionActive)
  {
    RunKeeps(s, events);
    WorkDeletesOnly(Run(s, events), n);
  }
}
