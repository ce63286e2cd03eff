/** What a pass of the replica controller does, told from the objects it read: which writes
    it owes, and what it leaves behind when a restore waits for its switchover. */
module Decisions {
  import opened Options
  import opened Protocol
  import opened PassPlans
  import opened ReplicaReconciler

  // ----- Outside a switchover ---------------------------------------------------------

  /** The one Active restore of an ephemeral replica is to be torn down. */
  predicate TearsDown(s: State, c: Choices)
    requires c.active.Some? ==> c.active.value in s.restores
  {
    c.switching.None? && s.spec.ephemeral && c.active.Some? && !s.restores[c.active.value].deleting
  }

  predicate Rests(s: State, c: Choices)
    requires c.active.Some? ==> c.active.value in s.restores
  {
    c.switching.None? && !(s.spec.ephemeral && c.active.Some? && !s.restores[c.active.value].deleting)
  }

  /** A sweep is due: the current restore is Active, neither a schema migration nor a
      redaction is running, and the grace period since the last switchover is over. */
  predicate SweepDue(s: State) {
    && s.status.current.Some? && s.status.current.value in s.restores
    && s.restores[s.status.current.value].phase == Some(Active)
    && !(!s.spec.schemas.NotConfigured? && s.status.migration == Some(MigrationActive))
    && s.status.redaction != Some(RedactionActive)
    && s.status.completedAt.Some? && s.now > s.status.completedAt.value + s.spec.grace
  }

  predicate LeftOver(s: State, n: Name) {
    n in s.restores && s.restores[n].phase == Some(Active) && s.status.current != Some(n)
  }

  /** Some restore is on its way to a switchover. */
  predicate Busy(s: State) {
    exists n :: n in s.restores && s.restores[n].phase in {Some(Pending), Some(Restoring), Some(Migrating), Some(Ready)}
  }

  predicate TtlOver(s: State) {
    s.spec.minimumTtl.Some? && s.status.completedAt.Some? ==> s.now >= s.status.completedAt.value + s.spec.minimumTtl.value
  }

  /** The snapshot listing, if there is a Job for it, has nothing more to wait for. */
  predicate ListingOver(s: State) {
    s.listJob == None || s.listJob == Some(JobFailed) || (s.listJob == Some(JobSucceeded) && s.listing)
  }

  /** A restore is called for: nothing was ever restored and no backoff holds, the restore in
      the status is gone, canopy offers another snapshot than the replica carries, or the
      schedule is due. */
  predicate CalledFor(s: State, c: Choices)
    requires c.active.Some? ==> c.active.value in s.restores
  {
    var next := s.status.nextScheduled;
    || next.None?
    || (s.now >= next.value && TtlOver(s))
    || (c.active.None? && s.status.completedAt.None? && s.status.verified.None? && (s.status.failures == 0 || s.now >= next.value))
    || (c.active.None? && s.status.current.Some?)
    || (s.spec.canopy && TtlOver(s) && s.status.desired.Some? &&
        match c.active
        case Some(n) => s.restores[n].snapshot != s.status.desired.value
        case None => s.status.verified.None? || s.status.verified.value != s.status.desired.value)
  }

  /** The writes a pass outside a switchover owes. */
  ghost predicate Owes(s: State, c: Choices, w: Tail)
    requires c.active.Some? ==> c.active.value in s.restores
  {
    match w
    case RecordVerified(v) => TearsDown(s, c) && v == s.restores[c.active.value].snapshot
    case TearDown(n, lingers) => TearsDown(s, c) && c.active == Some(n) && n !in c.undeleted && lingers == (n in c.lingers)
    case SweepDelete(n, lingers) =>
      Rests(s, c) && SweepDue(s) && LeftOver(s, n) && n !in c.undeleted && lingers == (n in c.lingers)
    case ClearPhases =>
      && Rests(s, c) && SweepDue(s) && (exists n: Name :: LeftOver(s, n))
      && forall n: Name :: LeftOver(s, n) ==> n !in c.undeleted
    case CleanFailed(n, lingers) =>
      && Rests(s, c) && n in s.restores && s.restores[n].phase == Some(Failed) && s.restores[n].createdAt.Some?
      && s.now - s.restores[n].createdAt.value > 300 && n !in c.undeleted && lingers == (n in c.lingers)
    case TakeListing => Rests(s, c) && s.listJob == Some(JobSucceeded) && s.listing
    case DropListJob => Rests(s, c) && s.listJob == Some(JobSucceeded) && c.listJobDeleted && (s.listing || c.listJobStale)
    case CreateRestore(n, snapshot, hasTarget) =>
      && Rests(s, c) && s.listJob == Some(JobSucceeded) && s.listing && c.picked == Some(snapshot)
      && n == c.newName && hasTarget == c.newHasTarget && s.status.verified != Some(snapshot)
      && forall m :: m in s.restores && s.restores[m].snapshot == snapshot ==> s.restores[m].phase == Some(Failed)
    case SetSchedule(at) =>
      && Rests(s, c) && ListingOver(s) && !Busy(s) && c.nextFire == Some(at)
      && (|| c.scheduleChanged || s.status.nextScheduled.None?
          || (s.now >= s.status.nextScheduled.value && !(CalledFor(s, c) && s.listJob.None?)))
    case CreateListJob => Rests(s, c) && s.listJob.None? && !Busy(s) && CalledFor(s, c) && c.slotFree
  }

  lemma {:induction false} SweepDeletesHave(names: seq<Name>, undeleted: set<Name>, lingers: set<Name>, w: Tail)
    ensures w in SweepDeletes(names, undeleted, lingers) <==>
      w.SweepDelete? && w.restore in names && w.restore !in undeleted && w.lingers == (w.restore in lingers)
  {
    if names != [] {
      SweepDeletesHave(names[1..], undeleted, lingers, w);
      assert names == [names[0]] + names[1..];
    }
  }

  lemma {:induction false} CleanTailHas(names: seq<Name>, lingers: set<Name>, w: Tail)
    ensures w in CleanTail(names, lingers) <==> w.CleanFailed? && w.restore in names && w.lingers == (w.restore in lingers)
  {
    if names != [] {
      CleanTailHas(names[1..], lingers, w);
      assert names == [names[0]] + names[1..];
    }
  }

  lemma SweepDueIs(s: State)
    ensures SweepGuard(s) <==> SweepDue(s)
  { }

  lemma SweptExactly(s: State, c: Choices, w: Tail)
    requires ValidChoices(s, c) && Rests(s, c)
    ensures w in SweptTail(s, c) <==> (w.SweepDelete? || w.ClearPhases? || w.CleanFailed?) && Owes(s, c, w)
  {
    SweepDueIs(s);
    SweepDeletesHave(c.stale, c.undeleted, c.lingers, w);
    CleanTailHas(c.expired, c.lingers, w);
    assert forall n: Name :: LeftOver(s, n) <==> n in c.stale;
    if c.stale != [] { assert LeftOver(s, c.stale[0]); }
  }

  lemma BusyIs(s: State)
    ensures Busy(s) <==> AnyInProgress(s.restores)
  { }

  lemma CalledForIs(s: State, c: Choices)
    requires c.active.Some? ==> c.active.value in s.restores
    ensures CalledFor(s, c) <==> ShouldRestore(s, c)
  { }

  lemma ListedExactly(s: State, c: Choices, w: Tail)
    requires ValidChoices(s, c) && Rests(s, c)
    ensures w in ListTail(s, c).writes <==> (w.TakeListing? || w.DropListJob? || w.CreateRestore?) && Owes(s, c, w)
    ensures ListTail(s, c).ends <==> !ListingOver(s)
  {
    match s.listJob
    case None => case Some(JobRunning) => case Some(JobFailed) =>
    case Some(JobSucceeded) => if c.picked.Some? { CoveredIs(s, c.picked.value); }
  }

  lemma CoveredIs(s: State, snapshot: Snapshot)
    ensures Covered(snapshot, s.status.verified, s.restores) <==>
      !(s.status.verified != Some(snapshot)
        && forall m :: m in s.restores && s.restores[m].snapshot == snapshot ==> s.restores[m].phase == Some(Failed))
  { }

  lemma TriggeredExactly(s: State, c: Choices, w: Tail)
    requires ValidChoices(s, c) && Rests(s, c) && ListingOver(s) && !Busy(s)
    ensures w in TriggerTail(s, c) <==> (w.SetSchedule? || w.CreateListJob?) && Owes(s, c, w)
  {
    CalledForIs(s, c);
  }

  /** A pass plans exactly the writes it owes. */
  lemma TailExactly(s: State, c: Choices, w: Tail)
    requires ValidChoices(s, c)
    ensures w in Plan(s, c).tail <==> Owes(s, c, w)
  {
    if Rests(s, c) {
      SweptExactly(s, c, w);
      ListedExactly(s, c, w);
      BusyIs(s);
      if ListingOver(s) && !Busy(s) { TriggeredExactly(s, c, w); }
      assert Plan(s, c) == RestPlan(s, c);
      assert w in RestPlan(s, c).tail <==> w in SweptTail(s, c) || w in LaterTail(s, c);
    }
  }

  // ----- What the listing comes to --------------------------------------------------------

  lemma {:induction false} ListJobKept(s: State)
    requires s.pass.Some? ==> (s.pass.value.switch.Some? ==> s.pass.value.tail == [])
    requires s.pass.Some? ==> forall w <- s.pass.value.tail :: !w.CreateListJob? && !w.DropListJob?
    ensures Finish(s).listJob == s.listJob
    decreases WritesLeft(s.pass)
  {
    if s.pass.Some? {
      WorkShrinks(s);
      ListJobWork(s);
      ListJobKept(DoWork(s));
    }
  }

  /** One write, and what it leaves to be written. */
  lemma ListJobWork(s: State)
    requires s.pass.Some? && (s.pass.value.switch.Some? ==> s.pass.value.tail == [])
    ensures var t := DoWork(s);
      && (t.pass.Some? ==>
            && (t.pass.value.switch.Some? ==> t.pass.value.tail == [])
            && forall w <- t.pass.value.tail :: w in s.pass.value.tail)
      && (!InTail(s) || !(s.pass.value.tail[0].CreateListJob? || s.pass.value.tail[0].DropListJob?) ==> t.listJob == s.listJob)
  {
    if InTail(s) {
      var tail := s.pass.value.tail;
      TailLeaves(s);
      forall w | w in WithoutClear(tail[1..]) ensures w in tail { WithoutClearIs(tail[1..], w); }
      if !tail[0].CreateListJob? && !tail[0].DropListJob? { ListJobTail(s); }
    }
  }

  lemma ListJobTail(s: State)
    requires InTail(s) && !s.pass.value.tail[0].CreateListJob? && !s.pass.value.tail[0].DropListJob?
    ensures DoWork(s).listJob == s.listJob
  {
    match s.pass.value.tail[0]
    case RecordVerified(_) => case TearDown(_, _) => case SweepDelete(_, _) => case ClearPhases =>
    case CleanFailed(_, _) => case TakeListing => case CreateRestore(_, _, _) => case SetSchedule(_) =>
  }

  lemma {:induction false} ListJobMade(s: State)
    requires s.listJob.None? && s.pass.Some? && s.pass.value.gates == [] && s.pass.value.switch.None?
    requires CreatesOnce(s.pass.value.tail)
    requires forall w <- s.pass.value.tail :: !w.CreateRestore? && !w.DropListJob?
    ensures Finish(s).listJob == if CreateListJob in s.pass.value.tail then Some(JobRunning) else None
    decreases WritesLeft(s.pass)
  {
    var tail, t := s.pass.value.tail, DoWork(s);
    WorkShrinks(s);
    if tail != [] {
      assert tail == [tail[0]] + tail[1..];
      assert tail[0] in tail && forall w :: w in tail[1..] ==> w in tail;
      if tail[0].CreateListJob? {
        forall w | w in tail[1..] ensures !Creates(w) {
          var j :| 1 <= j < |tail| && tail[j] == w;
          assert Creates(tail[0]);
        }
        ListJobKept(t);
      } else {
        ListJobTail(s);
        TailLeaves(s);
        WithoutClearCreatesOnce(tail[1..]);
        forall w ensures w in WithoutClear(tail[1..]) <==> w in tail[1..] && !w.ClearPhases? { WithoutClearIs(tail[1..], w); }
        ListJobMade(t);
      }
    }
  }

  /** With no listing under way, a pass left alone starts one if and only if no restore waits
      for its switchover or its tear-down, none is on its way, a restore is called for and a
      slot is free. */
  lemma ListJobStartsExactly(s: State, c: Choices)
    requires s.pass.None? && s.listJob.None? && ValidChoices(s, c)
    ensures Finish(Step(s, BeginPass(c))).listJob.Some? <==> Rests(s, c) && !Busy(s) && CalledFor(s, c) && c.slotFree
  {
    NoListingWrites(s, c);
    if Rests(s, c) {
      ListingPlanned(s, c);
      ListJobMade(s.(pass := Some(Plan(s, c))));
    } else {
      ListJobKept(s.(pass := Some(Plan(s, c))));
    }
  }

  lemma ListingPlanned(s: State, c: Choices)
    requires ValidChoices(s, c) && Rests(s, c) && s.listJob.None?
    ensures Plan(s, c) == RestPlan(s, c) && CreatesOnce(Plan(s, c).tail)
    ensures CreateListJob in Plan(s, c).tail <==> !Busy(s) && CalledFor(s, c) && c.slotFree
  {
    RestIsTail(s, c);
    RestCreatesOnce(s, c);
    ListJobOwed(s, c);
  }

  lemma ListJobOwed(s: State, c: Choices)
    requires ValidChoices(s, c)
    ensures CreateListJob in Plan(s, c).tail <==>
      Rests(s, c) && s.listJob.None? && !Busy(s) && CalledFor(s, c) && c.slotFree
  {
    TailExactly(s, c, CreateListJob);
  }

  lemma RestIsTail(s: State, c: Choices)
    requires ValidChoices(s, c) && Rests(s, c)
    ensures Plan(s, c) == RestPlan(s, c)
  { }

  lemma NoListingWrites(s: State, c: Choices)
    requires ValidChoices(s, c) && s.listJob.None?
    ensures forall w <- Plan(s, c).tail :: !w.CreateRestore? && !w.DropListJob? && (w.CreateListJob? ==> Rests(s, c))
    ensures Plan(s, c).switch.Some? ==> Plan(s, c).tail == []
  {
    forall w | w in Plan(s, c).tail
      ensures !w.CreateRestore? && !w.DropListJob? && (w.CreateListJob? ==> Rests(s, c))
    {
      TailExactly(s, c, w);
    }
  }

  // ----- A restore that waits for its switchover ----------------------------------------------

  /** Redaction lets the restore through. */
  predicate RedactionPasses(s: State, c: Choices) {
    !s.spec.redaction || s.status.redaction in {Some(RedactionComplete), Some(RedactionPartial)} || c.redactionOk
  }

  /** The schema migration lets it through: there is none to make, it is done, its Job
      succeeded, or its Job ran past its budget. */
  predicate MigrationPasses(s: State, c: Choices) {
    || s.spec.schemas.NotConfigured? || s.spec.schemas.ConfiguredEmpty? || c.active.None?
    || s.status.migration == Some(MigrationComplete)
    || s.migrationJob == Some(JobSucceeded)
    || (s.migrationJob == Some(JobRunning) && c.overBudget)
    || (s.migrationJob == None && c.discovery.NothingToMigrate?)
  }

  function RedactionLeft(s: State, c: Choices): Option<RedactionPhase> {
    if !s.spec.redaction || s.status.redaction in {Some(RedactionComplete), Some(RedactionPartial)} then s.status.redaction
    else if !c.redactionOk then Some(RedactionFailed)
    else if c.redactionPartial then Some(RedactionPartial)
    else Some(RedactionComplete)
  }

  /** The phase a pass that came as far as the migration leaves. */
  function MigrationLeft(s: State, c: Choices): Option<SchemaMigrationPhase> {
    if s.spec.schemas.NotConfigured? || c.active.None? then s.status.migration
    else if s.spec.schemas.ConfiguredEmpty? || s.status.migration == Some(MigrationComplete) then Some(MigrationComplete)
    else match s.migrationJob
      case Some(JobRunning) => if c.overBudget then Some(MigrationTimeoutSkipped) else s.status.migration
      case Some(JobSucceeded) => Some(if c.migrationPartial then MigrationPartial else MigrationComplete)
      case Some(JobFailed) => Some(MigrationFailed)
      case None =>
        match c.discovery
        case NothingToMigrate => Some(MigrationComplete)
        case ReadyToMigrate => Some(MigrationActive)
        case _ => s.status.migration
  }

  /** And the Job: one that ended or ran past its budget is deleted where the delete goes
      through, and one is made where there is something to migrate. */
  function MigrationJobLeft(s: State, c: Choices): Option<Job> {
    if !s.spec.schemas.Configured? || c.active.None? || s.status.migration == Some(MigrationComplete) then s.migrationJob
    else if s.migrationJob == None then (if c.discovery.ReadyToMigrate? then Some(JobRunning) else None)
    else if s.migrationJob == Some(JobRunning) && !c.overBudget then s.migrationJob
    else if c.migrationJobDeleted then None else s.migrationJob
  }

  lemma RedactionApplied(s: State, c: Choices, n: Name)
    ensures RedactionGate(s, c, n).proceed <==> RedactionPasses(s, c)
    ensures OnlyMasked(s, ApplyGates(s, RedactionGate(s, c, n).writes), RedactionLeft(s, c))
  {
    if s.spec.redaction && s.status.redaction !in {Some(RedactionComplete), Some(RedactionPartial)} {
      var begin := if s.status.redaction == Some(RedactionActive) then [] else [PatchRedaction(RedactionActive)];
      var s1 := s.(status := s.status.(redaction := Some(RedactionActive)));
      RedactionBegun(s, begin);
      if c.redactionOk {
        var done := if c.redactionPartial then RedactionPartial else RedactionComplete;
        ApplyGatesCat(s, begin, [Mask(n), PatchRedaction(done)]);
        MaskApplied(s1, n, done);
      } else {
        ApplyGatesCat(s, begin, [PatchRedaction(RedactionFailed)]);
        ApplyOne(s1, PatchRedaction(RedactionFailed));
      }
    }
  }

  lemma RedactionBegun(s: State, begin: seq<Gate>)
    requires begin == if s.status.redaction == Some(RedactionActive) then [] else [PatchRedaction(RedactionActive)]
    ensures ApplyGates(s, begin) == s.(status := s.status.(redaction := Some(RedactionActive)))
  {
    ApplyOne(s, PatchRedaction(RedactionActive));
  }

  /** Only masks and the redaction phase differ. */
  ghost predicate OnlyMasked(s: State, t: State, redaction: Option<RedactionPhase>) {
    && t == s.(status := s.status.(redaction := redaction), restores := t.restores) && t.restores.Keys == s.restores.Keys
    && forall m :: m in s.restores ==> t.restores[m] == s.restores[m].(masked := t.restores[m].masked)
  }

  lemma MaskApplied(s: State, n: Name, done: RedactionPhase)
    ensures OnlyMasked(s, ApplyGates(s, [Mask(n), PatchRedaction(done)]), Some(done))
  {
    ApplyGatesCat(s, [Mask(n)], [PatchRedaction(done)]);
    assert [Mask(n)] + [PatchRedaction(done)] == [Mask(n), PatchRedaction(done)];
    ApplyOne(s, Mask(n));
    ApplyOne(DoGate(s, Mask(n)), PatchRedaction(done));
  }

  lemma MigrationApplied(s: State, c: Choices)
    ensures MigrationGate(s, c).proceed <==> MigrationPasses(s, c)
    ensures var t := ApplyGates(s, MigrationGate(s, c).writes);
      t == s.(status := s.status.(migration := MigrationLeft(s, c)), migrationJob := MigrationJobLeft(s, c))
  {
    var drop := if c.migrationJobDeleted then [DeleteMigrationJob] else [];
    ApplyOne(s, PatchMigration(MigrationComplete));
    if !s.spec.schemas.NotConfigured? && c.active.Some? && s.spec.schemas.Configured?
       && s.status.migration != Some(MigrationComplete) {
      MigrationJobApplied(s, c, drop);
    }
  }

  lemma MigrationJobApplied(s: State, c: Choices, drop: seq<Gate>)
    requires s.spec.schemas.Configured? && c.active.Some? && s.status.migration != Some(MigrationComplete)
    requires drop == if c.migrationJobDeleted then [DeleteMigrationJob] else []
    ensures var t := ApplyGates(s, MigrationGate(s, c).writes);
      t == s.(status := s.status.(migration := MigrationLeft(s, c)), migrationJob := MigrationJobLeft(s, c))
  {
    match s.migrationJob
    case Some(JobRunning) => if c.overBudget { DropThenPatch(s, drop, MigrationTimeoutSkipped); }
    case Some(JobSucceeded) => PatchThenDrop(s, drop, if c.migrationPartial then MigrationPartial else MigrationComplete);
    case Some(JobFailed) => DropThenPatch(s, drop, MigrationFailed);
    case None =>
      if c.discovery.NothingToMigrate? { ApplyOne(s, PatchMigration(MigrationComplete)); }
      if c.discovery.ReadyToMigrate? {
        ApplyGatesCat(s, [CreateMigrationJob], [PatchMigration(MigrationActive)]);
        assert [CreateMigrationJob] + [PatchMigration(MigrationActive)] == [CreateMigrationJob, PatchMigration(MigrationActive)];
        ApplyOne(s, CreateMigrationJob);
        ApplyOne(DoGate(s, CreateMigrationJob), PatchMigration(MigrationActive));
      }
  }

  lemma DropThenPatch(s: State, drop: seq<Gate>, p: SchemaMigrationPhase)
    requires drop == [] || drop == [DeleteMigrationJob]
    ensures ApplyGates(s, drop + [PatchMigration(p)])
         == s.(status := s.status.(migration := Some(p)), migrationJob := if drop == [] then s.migrationJob else None)
  {
    ApplyGatesCat(s, drop, [PatchMigration(p)]);
    ApplyOne(s, DeleteMigrationJob);
    ApplyOne(ApplyGates(s, drop), PatchMigration(p));
  }

  lemma PatchThenDrop(s: State, drop: seq<Gate>, p: SchemaMigrationPhase)
    requires drop == [] || drop == [DeleteMigrationJob]
    ensures ApplyGates(s, [PatchMigration(p)] + drop)
         == s.(status := s.status.(migration := Some(p)), migrationJob := if drop == [] then s.migrationJob else None)
  {
    ApplyGatesCat(s, [PatchMigration(p)], drop);
    ApplyOne(s, PatchMigration(p));
    ApplyOne(DoGate(s, PatchMigration(p)), DeleteMigrationJob);
  }

  /** The restore has been switched to: Service, phase and status all say so. */
  predicate SwitchedTo(s: State, t: State, n: Name) {
    && t.service == Some(n) && n in t.restores && t.restores[n].phase == Some(Active) && t.restores[n].activatedAt == Some(s.now)
    && t.status.current == Some(n) && t.status.previous == s.status.current && t.status.completedAt == Some(s.now)
    && t.status.failures == 0
  }

  /** Nothing has moved. */
  predicate StillWaits(s: State, t: State, n: Name) {
    && t.service == s.service && n in t.restores && t.restores[n].phase == Some(Switching)
    && t.status.current == s.status.current && t.status.previous == s.status.previous
    && t.status.completedAt == s.status.completedAt && t.status.failures == s.status.failures
  }

  /** A pass left alone switches over if and only if all three gates let the restore through:
      redaction, schema migration and schema build. Otherwise nothing moves. */
  lemma SwitchesExactly(s: State, c: Choices, n: Name)
    requires s.pass.None? && ValidChoices(s, c) && c.switching == Some(n)
    ensures var t := Finish(Step(s, BeginPass(c)));
      && (if RedactionPasses(s, c) && MigrationPasses(s, c) && c.schemaBuilt then SwitchedTo(s, t, n) else StillWaits(s, t, n))
      && t.status.redaction == RedactionLeft(s, c)
      && t.status.migration == (if RedactionPasses(s, c) then MigrationLeft(s, c) else s.status.migration)
      && t.migrationJob == (if RedactionPasses(s, c) then MigrationJobLeft(s, c) else s.migrationJob)
  {
    var redaction, migration := RedactionGate(s, c, n), MigrationGate(s, c);
    var s1 := ApplyGates(s, redaction.writes);
    RedactionApplied(s, c, n);
    RedactionLeaves(s, c, n);
    MigrationApplied(s1, c);
    ApplyGatesCat(s, redaction.writes, migration.writes);
    var s2 := ApplyGates(s1, migration.writes);
    if !redaction.proceed {
      FinishGates(s, redaction.writes, None, []);
      FinishNothing(s1.(pass := Rest([])));
    } else if !migration.proceed || !c.schemaBuilt {
      FinishGates(s, redaction.writes + migration.writes, None, []);
      FinishNothing(s2.(pass := Rest([])));
    } else {
      var sw := Switch(n, s.status.current, ToSelect);
      FinishGates(s, redaction.writes + migration.writes, Some(sw), []);
      FinishSwitched(s2, sw);
    }
  }

  lemma FinishSwitched(s: State, sw: Switch)
    requires sw.stage.ToSelect? && sw.target in s.restores
    ensures var t := Finish(s.(pass := Some(Pass([], Some(sw), []))));
      && SwitchedTo(s.(status := s.status.(current := sw.previous)), t, sw.target)
      && t.status.redaction == s.status.redaction && t.status.migration == s.status.migration
      && t.migrationJob == s.migrationJob
  {
    var s0 := s.(pass := Some(Pass([], Some(sw), [])));
    var s1 := DoWork(s0);
    assert s1.pass == After(sw, ToActivate) && sw.target in s1.restores;
    var s2 := DoWork(s1);
    assert s2.pass == After(sw, ToStamp) && sw.target in s2.restores;
    var s3 := DoWork(s2);
    assert s3.pass == After(sw, ToRecord(s.now));
    var s4 := DoWork(s3);
    assert Finish(s0) == Finish(s1) == Finish(s2);
    assert Finish(s2) == Finish(s3) == Finish(s4) == s4;
  }

  /** A replica with persistent schemas and a restore to carry them over from is switched only
      when its migration ended well, in part, or was given up for time: never after a
      migration that failed, nor while one runs. */
  lemma NeverSwitchedUnmigrated(s: State, c: Choices, n: Name)
    requires s.pass.None? && ValidChoices(s, c) && c.switching == Some(n) && s.spec.schemas.Configured? && c.active.Some?
    ensures var t := Finish(Step(s, BeginPass(c)));
      t.Has(n, Active) ==> t.status.migration in {Some(MigrationComplete), Some(MigrationPartial), Some(MigrationTimeoutSkipped)}
  {
    SwitchesExactly(s, c, n);
  }

  // ----- What a sweep and a tear-down leave ---------------------------------------------------

  predicate SamePhases(a: Status, b: Status) {
    a.previous == b.previous && a.migration == b.migration && a.redaction == b.redaction
  }

  lemma PhasesWork(s: State)
    requires InTail(s) && !s.pass.value.tail[0].ClearPhases? && !s.pass.value.tail[0].RecordVerified?
    ensures SamePhases(DoWork(s).status, s.status)
  {
    match s.pass.value.tail[0]
    case TearDown(_, _) => case SweepDelete(_, _) => case CleanFailed(_, _) => case TakeListing =>
    case DropListJob => case CreateRestore(_, _, _) => case SetSchedule(_) => case CreateListJob =>
  }

  lemma {:induction false} PhasesKept(s: State)
    requires s.pass.Some? ==> s.pass.value.gates == [] && s.pass.value.switch.None?
    requires s.pass.Some? ==> forall w <- s.pass.value.tail :: !w.ClearPhases? && !w.RecordVerified?
    ensures SamePhases(Finish(s).status, s.status)
    decreases WritesLeft(s.pass)
  {
    if s.pass.Some? {
      WorkShrinks(s);
      if InTail(s) {
        var tail := s.pass.value.tail;
        assert tail[0] in tail;
        PhasesWork(s);
        TailLeaves(s);
        forall w | w in WithoutClear(tail[1..]) ensures w in tail { WithoutClearIs(tail[1..], w); }
      }
      PhasesKept(DoWork(s));
    }
  }

  predicate Cleared(st: Status) { st.previous == None && st.migration == None && st.redaction == None }

  /** With every delete going through, the sweep comes to clear the phases. */
  lemma {:induction false} SweepClears(s: State, names: seq<Name>, c: Choices, rest: seq<Tail>)
    requires s.pass == Rest(SweepDeletes(names, c.undeleted, c.lingers) + ([ClearPhases] + rest))
    requires AllDeleted(names, c.undeleted) && forall n <- names :: n in s.restores
    requires forall i, j :: 0 <= i < j < |names| ==> names[i] != names[j]
    requires forall w <- rest :: !w.ClearPhases? && !w.RecordVerified?
    ensures Cleared(Finish(s).status)
    decreases |names|
  {
    if names == [] {
      assert [] + ([ClearPhases] + rest) == [ClearPhases] + rest;
      FinishFirst(s, ClearPhases, rest);
      PhasesKept(DoTail(s.(pass := Rest(rest)), ClearPhases));
    } else {
      var n, left := names[0], SweepDeletes(names[1..], c.undeleted, c.lingers) + ([ClearPhases] + rest);
      var w := SweepDelete(n, n in c.lingers);
      assert n in names && n !in c.undeleted;
      assert SweepDeletes(names, c.undeleted, c.lingers) + ([ClearPhases] + rest) == [w] + left;
      FinishFirst(s, w, left);
      assert forall i :: 0 <= i < |names[1..]| ==> names[1..][i] == names[i + 1];
      forall m | m in names[1..] ensures m in names && m != n { }
      SweepClears(DoTail(s.(pass := Rest(left)), w), names[1..], c, rest);
    }
  }

  /** A pass that rests, left alone, clears the cycle's phases and the previous restore if and
      only if a sweep is due, some restore is left over, and every one of them is deleted; if
      not it leaves all three as they were. */
  lemma PhasesClearedExactly(s: State, c: Choices)
    requires s.pass.None? && ValidChoices(s, c) && Rests(s, c)
    ensures var t := Finish(Step(s, BeginPass(c)));
      if SweepDue(s) && (exists n: Name :: LeftOver(s, n)) && (forall n: Name :: LeftOver(s, n) ==> n !in c.undeleted)
      then Cleared(t.status) else SamePhases(t.status, s.status)
  {
    RestIsTail(s, c);
    ClearOwed(s, c);
    if ClearPhases in RestPlan(s, c).tail {
      SweepDueIs(s);
      assert forall n: Name :: LeftOver(s, n) <==> n in c.stale;
      ClearsAfterSweep(s, c);
    } else {
      forall w | w in RestPlan(s, c).tail ensures !w.ClearPhases? && !w.RecordVerified? { RestWrite(s, c, w); }
      PhasesKept(s.(pass := Some(RestPlan(s, c))));
    }
  }

  lemma ClearOwed(s: State, c: Choices)
    requires ValidChoices(s, c) && Rests(s, c)
    ensures ClearPhases in Plan(s, c).tail <==>
      SweepDue(s) && (exists n: Name :: LeftOver(s, n)) && (forall n: Name :: LeftOver(s, n) ==> n !in c.undeleted)
  {
    TailExactly(s, c, ClearPhases);
  }

  lemma ClearsAfterSweep(s: State, c: Choices)
    requires s.pass.None? && ValidChoices(s, c) && SweepGuard(s) && c.stale != [] && AllDeleted(c.stale, c.undeleted)
    ensures Cleared(Finish(s.(pass := Some(RestPlan(s, c)))).status)
  {
    var rest := CleanTail(c.expired, c.lingers) + LaterTail(s, c);
    forall w | w in rest ensures !w.ClearPhases? && !w.RecordVerified? { RestNever(s, c, w); }
    RestPlanIs(s, c);
    assert SweepTail(s, c) + rest == SweepDeletes(c.stale, c.undeleted, c.lingers) + ([ClearPhases] + rest);
    SweepClears(s.(pass := Some(RestPlan(s, c))), c.stale, c, rest);
  }

  lemma RestNever(s: State, c: Choices, w: Tail)
    requires ValidChoices(s, c) && w in CleanTail(c.expired, c.lingers) + LaterTail(s, c)
    ensures !w.ClearPhases? && !w.RecordVerified?
  {
    if w in CleanTail(c.expired, c.lingers) { CleansAre(c.expired, c.lingers, w); } else { LaterAre(s, c, w); }
  }

  /** A tear-down records its snapshot as verified, clears what the status named, and leaves
      the restore only where the delete failed or has yet to finish. */
  lemma TearDownExactly(s: State, c: Choices, n: Name)
    requires s.pass.None? && ValidChoices(s, c) && TearsDown(s, c) && c.active == Some(n)
    ensures var t := Finish(Step(s, BeginPass(c)));
      && t.status == s.status.(verified := Some(s.restores[n].snapshot), current := None, previous := None)
      && t.restores == (if n in c.undeleted then s.restores
                        else if n in c.lingers then s.restores[n := s.restores[n].(deleting := true)]
                        else s.restores - {n})
  {
    var snapshot := s.restores[n].snapshot;
    var delete := if n in c.undeleted then [] else [TearDown(n, n in c.lingers)];
    var s1 := s.(status := s.status.(verified := Some(snapshot), current := None, previous := None));
    FinishFirst(s.(pass := Rest([RecordVerified(snapshot)] + delete)), RecordVerified(snapshot), delete);
    if n in c.undeleted {
      FinishNothing(s1.(pass := Rest([])));
    } else {
      assert delete == [TearDown(n, n in c.lingers)] + [];
      FinishFirst(s1.(pass := Rest(delete)), TearDown(n, n in c.lingers), []);
      FinishNothing(DeleteRestore(s1, n, n in c.lingers).(pass := Rest([])));
    }
  }

  /** A restore that a pass makes is of the snapshot picked and blank otherwise. */
  lemma CreatedBlank(s: State, n: Name)
    requires CreatesNow(s, n)
    ensures var w, t := s.pass.value.tail[0], DoWork(s);
      && t.restores.Keys == s.restores.Keys + {n} && (forall m :: m in s.restores ==> t.restores[m] == s.restores[m])
      && t.restores[n].snapshot == w.snapshot && t.restores[n].hasTarget == w.hasTarget
      && t.restores[n].phase == None && t.restores[n].createdAt == None && t.restores[n].activatedAt == None
      && !t.restores[n].versionKnown && !t.restores[n].migrated && !t.restores[n].deleting && !t.restores[n].masked
  { }
}
