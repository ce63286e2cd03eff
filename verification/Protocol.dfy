/** One replica, its restores and everything that acts on them, as a state machine.
    The replica controller's pass is a plan of separate writes, decided from what it
    read when it began; the restore controller, the Jobs, the clock and the people who
    edit or delete objects move between any two of those writes, and the operator may
    stop after any of them. A run is a list of events. */
module Protocol {
  import opened Options

  type Name = nat
  type Snapshot = nat

  datatype Phase = Pending | Restoring | Migrating | Ready | Switching | Active | Failed

  datatype SchemaMigrationPhase =
    | MigrationActive | MigrationComplete | MigrationPartial | MigrationTimeoutSkipped | MigrationFailed

  datatype RedactionPhase = RedactionActive | RedactionComplete | RedactionPartial | RedactionFailed
  {
    predicate IsDone() { RedactionComplete? || RedactionPartial? }
  }

  /** A restore resource. `masked` says whether a redaction run against its database
      has returned Ok. `leftService` is when the Service last moved off it; no code
      reads it. */
  datatype Restore = Restore(
    snapshot: Snapshot, phase: Option<Phase>, createdAt: Option<int>, activatedAt: Option<int>,
    versionKnown: bool, hasTarget: bool, migrated: bool, deleting: bool,
    masked: bool, leftService: Option<int>)
  {
    predicate Is(p: Phase) { phase == Some(p) }

    /** A restore working toward a switchover; one with no phase yet is not. */
    predicate InProgress() { Is(Pending) || Is(Restoring) || Is(Migrating) || Is(Ready) }

    predicate Live() { !Is(Failed) }
  }

  datatype PersistentSchemas = NotConfigured | ConfiguredEmpty | Configured

  datatype Spec = Spec(redaction: bool, schemas: PersistentSchemas, ephemeral: bool, canopy: bool,
                       grace: int, minimumTtl: Option<int>)

  datatype Status = Status(
    current: Option<Name>, previous: Option<Name>, completedAt: Option<int>,
    failures: nat, nextScheduled: Option<int>,
    migration: Option<SchemaMigrationPhase>, redaction: Option<RedactionPhase>,
    verified: Option<Snapshot>, desired: Option<Snapshot>)

  datatype Job = JobRunning | JobSucceeded | JobFailed

  // ----- What is left of a pass ---------------------------------------------------

  datatype Gate =
    | PatchRedaction(redaction: RedactionPhase)
    | Mask(restore: Name)
    | PatchMigration(migration: SchemaMigrationPhase)
    | CreateMigrationJob
    | DeleteMigrationJob

  /** The switchover's writes, in order: Service selector, Active, activatedAt, status. */
  datatype Stage = ToSelect | ToActivate | ToStamp | ToRecord(at: int)

  datatype Switch = Switch(target: Name, previous: Option<Name>, stage: Stage)

  datatype Tail =
    | RecordVerified(snapshot: Snapshot)
    | TearDown(restore: Name, lingers: bool)
    | SweepDelete(restore: Name, lingers: bool)
    | ClearPhases
    | CleanFailed(restore: Name, lingers: bool)
    | TakeListing
    | DropListJob
    | CreateRestore(restore: Name, snapshot: Snapshot, hasTarget: bool)
    | SetSchedule(at: int)
    | CreateListJob

  datatype Pass = Pass(gates: seq<Gate>, switch: Option<Switch>, tail: seq<Tail>)

  /** What happened so far, for stating properties of runs; no code reads it. `failTimes` is
      when restores failed since the last switchover, recorded on the replica or not. */
  datatype History = History(activations: multiset<Snapshot>, failTimes: seq<int>)

  datatype State = State(
    spec: Spec, restores: map<Name, Restore>, status: Status, service: Option<Name>,
    migrationJob: Option<Job>, listJob: Option<Job>, listing: bool,
    pass: Option<Pass>, now: int, history: History)
  {
    predicate Has(n: Name, p: Phase) { n in restores && restores[n].Is(p) }
  }

  const MAX_RESTORES_PER_REPLICA := 3
  const FAILED_RESTORE_TTL := 300

  /** A replica nothing has acted on yet. */
  predicate Initial(s: State) {
    && s.restores == map[] && s.service == None && s.pass == None
    && s.status.current == None && s.status.completedAt == None && s.status.failures == 0
    && s.migrationJob == None && s.listJob == None && !s.listing
    && s.history == History(multiset{}, [])
  }

  // ----- The replica controller's decisions ---------------------------------------

  /** What a pass meets that the model does not decide: which restore a `find` comes
      to first, what the redaction, the migration and the build answered, which deletes
      failed, what the listing held, the next cron fire, the queue. */
  datatype Choices = Choices(
    switching: Option<Name>, active: Option<Name>,
    redactionOk: bool, redactionPartial: bool,
    overBudget: bool, migrationPartial: bool, migrationJobDeleted: bool, discovery: Discovery,
    schemaBuilt: bool,
    stale: seq<Name>, undeleted: set<Name>, expired: seq<Name>, lingers: set<Name>,
    listJobStale: bool, listJobDeleted: bool, picked: Option<Snapshot>,
    newName: Name, newHasTarget: bool,
    scheduleChanged: bool, nextFire: Option<int>, slotFree: bool)

  /** Looking at the source restore before a migration Job is created. */
  datatype Discovery = DiscoveryFailed | ResettingCredentials | NothingToMigrate | ReadyToMigrate

  predicate IsStale(s: State, n: Name) {
    s.Has(n, Active) && s.status.current != Some(n)
  }

  predicate IsExpired(s: State, n: Name) {
    s.Has(n, Failed) && s.restores[n].createdAt.Some? && s.now - s.restores[n].createdAt.value > FAILED_RESTORE_TTL
  }

  ghost predicate ValidChoices(s: State, c: Choices) {
    && (c.switching.Some? ==> s.Has(c.switching.value, Switching))
    && (c.switching.None? ==> forall n :: n in s.restores ==> !s.restores[n].Is(Switching))
    && (c.active.Some? ==> s.Has(c.active.value, Active))
    && (c.active.None? ==> forall n :: n in s.restores ==> !s.restores[n].Is(Active))
    && (forall n :: n in c.stale <==> IsStale(s, n))
    && (forall i, j :: 0 <= i < j < |c.stale| ==> c.stale[i] != c.stale[j])
    && (forall n :: n in c.expired <==> IsExpired(s, n) && n !in c.undeleted)
    && (s.spec.canopy && c.picked.Some? ==> c.picked == s.status.desired)
  }

  datatype GateAnswer = GateAnswer(writes: seq<Gate>, proceed: bool)

  function RedactionGate(s: State, c: Choices, n: Name): GateAnswer {
    if !s.spec.redaction || (s.status.redaction.Some? && s.status.redaction.value.IsDone()) then
      GateAnswer([], true)
    else
      var begin := if s.status.redaction == Some(RedactionActive) then [] else [PatchRedaction(RedactionActive)];
      if c.redactionOk then
        GateAnswer(begin + [Mask(n), PatchRedaction(if c.redactionPartial then RedactionPartial else RedactionComplete)], true)
      else
        GateAnswer(begin + [PatchRedaction(RedactionFailed)], false)
  }

  function MigrationGate(s: State, c: Choices): GateAnswer {
    var drop := if c.migrationJobDeleted then [DeleteMigrationJob] else [];
    if s.spec.schemas.NotConfigured? || c.active.None? then GateAnswer([], true)
    else if s.spec.schemas.ConfiguredEmpty? then GateAnswer([PatchMigration(MigrationComplete)], true)
    else if s.status.migration == Some(MigrationComplete) then GateAnswer([], true)
    else match s.migrationJob
      case Some(JobRunning) =>
        if c.overBudget then GateAnswer(drop + [PatchMigration(MigrationTimeoutSkipped)], true)
        else GateAnswer([], false)
      case Some(JobSucceeded) =>
        GateAnswer([PatchMigration(if c.migrationPartial then MigrationPartial else MigrationComplete)] + drop, true)
      case Some(JobFailed) =>
        GateAnswer(drop + [PatchMigration(MigrationFailed)], false)
      case None =>
        match c.discovery
        case DiscoveryFailed => GateAnswer([], false)
        case ResettingCredentials => GateAnswer([], false)
        case NothingToMigrate => GateAnswer([PatchMigration(MigrationComplete)], true)
        case ReadyToMigrate => GateAnswer([CreateMigrationJob, PatchMigration(MigrationActive)], false)
  }

  /** Redaction, then schema migration, then the reporting-schema build; the Service
      moves only when all three let the switching restore through. */
  function SwitchPlan(s: State, c: Choices, n: Name): Pass {
    var redaction := RedactionGate(s, c, n);
    if !redaction.proceed then Pass(redaction.writes, None, [])
    else
      var migration := MigrationGate(s, c);
      var gates := redaction.writes + migration.writes;
      if !migration.proceed || !c.schemaBuilt then Pass(gates, None, [])
      else Pass(gates, Some(Switch(n, s.status.current, ToSelect)), [])
  }

  function TearDownPlan(s: State, c: Choices, n: Name): Pass
    requires n in s.restores
  {
    var delete := if n in c.undeleted then [] else [TearDown(n, n in c.lingers)];
    Pass([], None, [RecordVerified(s.restores[n].snapshot)] + delete)
  }

  predicate SweepGuard(s: State) {
    && s.status.current.Some?
    && (s.spec.schemas.NotConfigured? || s.status.migration != Some(MigrationActive))
    && s.status.redaction != Some(RedactionActive)
    && s.Has(s.status.current.value, Active)
    && s.status.completedAt.Some?
    && s.now - s.status.completedAt.value > s.spec.grace
  }

  function SweepDeletes(names: seq<Name>, undeleted: set<Name>, lingers: set<Name>): seq<Tail> {
    if names == [] then []
    else (if names[0] in undeleted then [] else [SweepDelete(names[0], names[0] in lingers)])
         + SweepDeletes(names[1..], undeleted, lingers)
  }

  predicate AllDeleted(names: seq<Name>, undeleted: set<Name>) {
    forall n :: n in names ==> n !in undeleted
  }

  function SweepTail(s: State, c: Choices): seq<Tail> {
    if !SweepGuard(s) || c.stale == [] then []
    else SweepDeletes(c.stale, c.undeleted, c.lingers)
         + (if AllDeleted(c.stale, c.undeleted) then [ClearPhases] else [])
  }

  function CleanTail(names: seq<Name>, lingers: set<Name>): seq<Tail> {
    if names == [] then [] else [CleanFailed(names[0], names[0] in lingers)] + CleanTail(names[1..], lingers)
  }

  /** A snapshot recorded as verified, or held by any restore that has not failed. */
  predicate Covered(snapshot: Snapshot, verified: Option<Snapshot>, restores: map<Name, Restore>) {
    || verified == Some(snapshot)
    || exists n :: n in restores && restores[n].snapshot == snapshot && restores[n].Live()
  }

  datatype TailAnswer = TailAnswer(writes: seq<Tail>, ends: bool)

  function ListTail(s: State, c: Choices): TailAnswer {
    match s.listJob
    case None => TailAnswer([], false)
    case Some(JobRunning) => TailAnswer([], true)
    case Some(JobFailed) => TailAnswer([], false)
    case Some(JobSucceeded) =>
      if !s.listing then TailAnswer(if c.listJobStale && c.listJobDeleted then [DropListJob] else [], true)
      else
        var taken := [TakeListing] + (if c.listJobDeleted then [DropListJob] else []);
        if c.picked.Some? && !Covered(c.picked.value, s.status.verified, s.restores) then
          TailAnswer(taken + [CreateRestore(c.newName, c.picked.value, c.newHasTarget)], false)
        else TailAnswer(taken, false)
  }

  predicate AnyInProgress(restores: map<Name, Restore>) {
    exists n :: n in restores && restores[n].InProgress()
  }

  predicate BackoffPending(status: Status, now: int) {
    status.failures != 0 && status.nextScheduled.Some? && now < status.nextScheduled.value
  }

  predicate WithinMinimumTtl(spec: Spec, status: Status, now: int) {
    spec.minimumTtl.Some? && status.completedAt.Some? && now < status.completedAt.value + spec.minimumTtl.value
  }

  datatype ScheduleDecision = NotDue | Trigger | SkippedByTtl

  function CheckSchedule(spec: Spec, status: Status, now: int): ScheduleDecision {
    if status.nextScheduled.None? then Trigger
    else if now < status.nextScheduled.value then NotDue
    else if WithinMinimumTtl(spec, status, now) then SkippedByTtl
    else Trigger
  }

  predicate CanopyDesiredChanged(s: State, c: Choices)
    requires c.active.Some? ==> c.active.value in s.restores
  {
    var effective := if c.active.Some? then Some(s.restores[c.active.value].snapshot) else s.status.verified;
    s.spec.canopy && s.status.desired.Some? && s.status.desired != effective && !WithinMinimumTtl(s.spec, s.status, s.now)
  }

  predicate ShouldRestore(s: State, c: Choices)
    requires c.active.Some? ==> c.active.value in s.restores
  {
    var neverRestored := c.active.None? && s.status.completedAt.None? && s.status.verified.None?;
    || (neverRestored && !BackoffPending(s.status, s.now))
    || (c.active.None? && s.status.current.Some?)
    || CanopyDesiredChanged(s, c)
    || CheckSchedule(s.spec, s.status, s.now).Trigger?
  }

  function TriggerTail(s: State, c: Choices): seq<Tail>
    requires c.active.Some? ==> c.active.value in s.restores
  {
    var recompute :=
      if (c.scheduleChanged || s.status.nextScheduled.None?) && c.nextFire.Some? then [SetSchedule(c.nextFire.value)] else [];
    if ShouldRestore(s, c) && s.listJob.None? then
      recompute + (if c.slotFree then [CreateListJob] else [])
    else
      recompute + (if !CheckSchedule(s.spec, s.status, s.now).NotDue? && c.nextFire.Some? then [SetSchedule(c.nextFire.value)] else [])
  }

  function SweptTail(s: State, c: Choices): seq<Tail> {
    SweepTail(s, c) + CleanTail(c.expired, c.lingers)
  }

  function LaterTail(s: State, c: Choices): seq<Tail>
    requires c.active.Some? ==> c.active.value in s.restores
  {
    var listed := ListTail(s, c);
    if listed.ends || AnyInProgress(s.restores) then listed.writes else listed.writes + TriggerTail(s, c)
  }

  function RestPlan(s: State, c: Choices): Pass
    requires c.active.Some? ==> c.active.value in s.restores
  {
    Pass([], None, SweptTail(s, c) + LaterTail(s, c))
  }

  /** Everything the pass will write, were nothing to stop it. */
  ghost function Plan(s: State, c: Choices): Pass
    requires ValidChoices(s, c)
  {
    if c.switching.Some? then SwitchPlan(s, c, c.switching.value)
    else if s.spec.ephemeral && c.active.Some? && !s.restores[c.active.value].deleting then
      TearDownPlan(s, c, c.active.value)
    else RestPlan(s, c)
  }

  // ----- Carrying the writes out --------------------------------------------------

  function DoGate(s: State, g: Gate): State {
    match g
    case PatchRedaction(p) => s.(status := s.status.(redaction := Some(p)))
    case Mask(n) => if n in s.restores then s.(restores := s.restores[n := s.restores[n].(masked := true)]) else s
    case PatchMigration(p) => s.(status := s.status.(migration := Some(p)))
    case CreateMigrationJob => s.(migrationJob := Some(JobRunning))
    case DeleteMigrationJob => s.(migrationJob := None)
  }

  /** The Service moves to `n`: whatever it named before has been left as of now. */
  function Reselect(restores: map<Name, Restore>, service: Option<Name>, n: Name, now: int): map<Name, Restore> {
    var left := if service.Some? && service != Some(n) && service.value in restores
                then restores[service.value := restores[service.value].(leftService := Some(now))] else restores;
    if n in left then left[n := left[n].(leftService := None)] else left
  }

  function After(sw: Switch, stage: Stage): Option<Pass> {
    Some(Pass([], Some(sw.(stage := stage)), []))
  }

  function DoSwitch(s: State, sw: Switch): State {
    match sw.stage
    case ToSelect =>
      s.(restores := Reselect(s.restores, s.service, sw.target, s.now), service := Some(sw.target),
         pass := After(sw, ToActivate))
    case ToActivate =>
      if sw.target !in s.restores then s.(pass := None)
      else
        var r := s.restores[sw.target];
        s.(restores := s.restores[sw.target := r.(phase := Some(Active))], pass := After(sw, ToStamp),
           history := s.history.(activations := s.history.activations + multiset{r.snapshot}))
    case ToStamp =>
      if sw.target !in s.restores then s.(pass := None)
      else
        var r := s.restores[sw.target];
        s.(restores := s.restores[sw.target := r.(activatedAt := Some(s.now))], pass := After(sw, ToRecord(s.now)))
    case ToRecord(at) =>
      s.(status := s.status.(current := Some(sw.target), previous := sw.previous, completedAt := Some(at), failures := 0),
         history := s.history.(failTimes := []), pass := None)
  }

  function DeleteRestore(s: State, n: Name, lingers: bool): State {
    if n !in s.restores then s
    else if lingers then s.(restores := s.restores[n := s.restores[n].(deleting := true)])
    else s.(restores := s.restores - {n})
  }

  ghost function LiveNames(restores: map<Name, Restore>): set<Name> {
    set n | n in restores && restores[n].Live()
  }

  function NewRestore(snapshot: Snapshot, hasTarget: bool): Restore {
    Restore(snapshot, None, None, None, false, hasTarget, false, false, false, None)
  }

  function WithoutClear(tail: seq<Tail>): seq<Tail> {
    if tail == [] then [] else (if tail[0].ClearPhases? then [] else [tail[0]]) + WithoutClear(tail[1..])
  }

  /** A stale restore that is already gone makes the delete fail, which keeps the phases. */
  function DoSweep(s: State, n: Name, lingers: bool): State {
    if n in s.restores then DeleteRestore(s, n, lingers)
    else if s.pass.Some? then s.(pass := Some(s.pass.value.(tail := WithoutClear(s.pass.value.tail))))
    else s
  }

  ghost function DoTail(s: State, w: Tail): State {
    match w
    case RecordVerified(v) => s.(status := s.status.(verified := Some(v), current := None, previous := None))
    case TearDown(n, lingers) => DeleteRestore(s, n, lingers)
    case SweepDelete(n, lingers) => DoSweep(s, n, lingers)
    case ClearPhases => s.(status := s.status.(previous := None, migration := None, redaction := None))
    case CleanFailed(n, lingers) => DeleteRestore(s, n, lingers)
    case TakeListing => s.(listing := false)
    case DropListJob => s.(listJob := None)
    case CreateRestore(n, snapshot, hasTarget) =>
      if |LiveNames(s.restores)| >= MAX_RESTORES_PER_REPLICA then s
      else if n in s.restores then s.(pass := None)
      else s.(restores := s.restores[n := NewRestore(snapshot, hasTarget)])
    case SetSchedule(at) => s.(status := s.status.(nextScheduled := Some(at)))
    case CreateListJob => if s.listJob.Some? then s.(pass := None) else s.(listJob := Some(JobRunning))
  }

  ghost function DoWork(s: State): State
    requires s.pass.Some?
  {
    var p := s.pass.value;
    if p.gates != [] then DoGate(s, p.gates[0]).(pass := Some(p.(gates := p.gates[1..])))
    else if p.switch.Some? then DoSwitch(s, p.switch.value)
    else if p.tail != [] then DoTail(s.(pass := Some(p.(tail := p.tail[1..]))), p.tail[0])
    else s.(pass := None)
  }

  // ----- The restore controller ---------------------------------------------------

  datatype DetectJob = DetectAbsent | DetectRunning | DetectSucceeded(version: bool) | DetectFailed

  /** What one pass of the restore controller finds. `interrupted` stops it between its
      two status writes; `recorded` says the replica's failure counter was patched. */
  datatype Observation = Observation(
    interrupted: bool, jobSucceeded: bool, jobFailed: bool, versionRead: bool, detect: DetectJob,
    deploymentReady: bool, outOfTime: bool, noDatabase: bool, migrationFinished: bool, recorded: bool)

  datatype Handled = Handled(restore: Restore, failed: bool)

  /** What the restore controller leaves alone: only the replica's pass makes a restore
      Active, and a restore that is Switching, Active or Failed keeps its phase. */
  predicate Untouched(r: Restore, after: Restore) {
    && after.snapshot == r.snapshot && after.deleting == r.deleting
    && after.masked == r.masked && after.leftService == r.leftService
    && (after.Is(Active) ==> r.Is(Active))
    && (r.Is(Switching) || r.Is(Active) || r.Is(Failed) ==> after.phase == r.phase)
  }

  function HandlePending(r: Restore, o: Observation, now: int): (h: Handled)
    requires r.phase.None? || r.Is(Pending)
    ensures Untouched(r, h.restore) && (h.failed <==> !r.Is(Failed) && h.restore.Is(Failed))
  {
    var stamped := if r.createdAt.None? then r.(createdAt := Some(now), phase := Some(Pending)) else r;
    Handled(if o.interrupted then stamped else stamped.(phase := Some(Restoring)), false)
  }

  function HandleRestoring(r: Restore, o: Observation): (h: Handled)
    requires r.Is(Restoring)
    ensures Untouched(r, h.restore) && (h.failed <==> !r.Is(Failed) && h.restore.Is(Failed))
  {
    if o.jobSucceeded then Handled(r.(phase := Some(Ready), versionKnown := o.versionRead), false)
    else if o.jobFailed then Handled(r.(phase := Some(Failed)), true)
    else Handled(r, false)
  }

  function HandleMigrating(r: Restore, o: Observation): (h: Handled)
    requires r.Is(Migrating)
    ensures Untouched(r, h.restore) && (h.failed <==> !r.Is(Failed) && h.restore.Is(Failed))
  {
    if !r.hasTarget then Handled(r.(phase := Some(Ready)), false)
    else if o.noDatabase then Handled(r.(phase := Some(Failed)), true)
    else if !o.migrationFinished then Handled(r, false)
    else Handled(r.(phase := Some(Ready), migrated := true), false)
  }

  function HandleReady(r: Restore, o: Observation): (h: Handled)
    requires r.Is(Ready)
    ensures Untouched(r, h.restore) && (h.failed <==> !r.Is(Failed) && h.restore.Is(Failed))
  {
    if !r.versionKnown then
      match o.detect
      case DetectAbsent => Handled(r, false)
      case DetectRunning => Handled(r, false)
      case DetectSucceeded(version) =>
        if version then Handled(r.(versionKnown := true), false) else Handled(r.(phase := Some(Failed)), true)
      case DetectFailed => Handled(r.(phase := Some(Failed)), true)
    else if o.deploymentReady then
      Handled(r.(phase := Some(if r.hasTarget && !r.migrated then Migrating else Switching)), false)
    else if o.outOfTime then Handled(r.(phase := Some(Failed)), true)
    else Handled(r, false)
  }

  function Handle(r: Restore, o: Observation, now: int): (h: Handled)
    ensures Untouched(r, h.restore) && (h.failed <==> !r.Is(Failed) && h.restore.Is(Failed))
  {
    match r.phase
    case None => HandlePending(r, o, now)
    case Some(Pending) => HandlePending(r, o, now)
    case Some(Restoring) => HandleRestoring(r, o)
    case Some(Migrating) => HandleMigrating(r, o)
    case Some(Ready) => HandleReady(r, o)
    case Some(_) => Handled(r, false)
  }

  const BACKOFF_BASE := 60
  const BACKOFF_MIN := 120
  const BACKOFF_MAX := 3600
  const BACKOFF_EXPONENT_CAP := 20

  function Pow2(n: nat): nat { if n == 0 then 1 else 2 * Pow2(n - 1) }

  /** Seconds to wait after the `failures`-th failure in a row. */
  function FailureBackoff(failures: nat): int
    requires failures > 0
  {
    var exponent := if failures < BACKOFF_EXPONENT_CAP then failures else BACKOFF_EXPONENT_CAP;
    var unclamped := BACKOFF_BASE * Pow2(exponent);
    if unclamped < BACKOFF_MIN then BACKOFF_MIN else if unclamped > BACKOFF_MAX then BACKOFF_MAX else unclamped
  }

  function RecordFailure(s: State): State {
    var count := s.status.failures + 1;
    s.(status := s.status.(failures := count, nextScheduled := Some(s.now + FailureBackoff(count))))
  }

  function RestoreStep(s: State, n: Name, o: Observation): State
    requires n in s.restores
  {
    var handled := Handle(s.restores[n], o, s.now);
    var written := s.(restores := s.restores[n := handled.restore],
                      history := if handled.failed then s.history.(failTimes := s.history.failTimes + [s.now]) else s.history);
    if handled.failed && o.recorded then RecordFailure(written) else written
  }

  // ----- Runs ---------------------------------------------------------------------

  datatype Event =
    | BeginPass(choices: Choices)
    | Work
    | Stop
    | Restart
    | RestorePass(restore: Name, seen: Observation)
    | WithdrawTarget(restore: Name)
    | Tick(seconds: nat)
    | MigrationJobEnds(ok: bool)
    | MigrationJobGone
    | ListingPosted
    | ListJobEnds(ok: bool)
    | ListJobGone
    | SetDesired(snapshot: Snapshot)
    | Gone(restore: Name)
    | OutsideDelete(restore: Name)

  function Ended(ok: bool): Job { if ok then JobSucceeded else JobFailed }

  ghost function Step(s: State, e: Event): State {
    match e
    case BeginPass(c) => if s.pass.None? && ValidChoices(s, c) then s.(pass := Some(Plan(s, c))) else s
    case Work => if s.pass.Some? then DoWork(s) else s
    case Stop => s.(pass := None)
    case Restart => s.(pass := None, listing := false)
    case RestorePass(n, o) => if n in s.restores then RestoreStep(s, n, o) else s
    case WithdrawTarget(n) =>
      if n in s.restores then s.(restores := s.restores[n := s.restores[n].(hasTarget := false)]) else s
    case Tick(d) => s.(now := s.now + d)
    case MigrationJobEnds(ok) => if s.migrationJob == Some(JobRunning) then s.(migrationJob := Some(Ended(ok))) else s
    case MigrationJobGone => s.(migrationJob := None)
    case ListingPosted => if s.listJob == Some(JobRunning) then s.(listing := true) else s
    case ListJobEnds(ok) => if s.listJob == Some(JobRunning) then s.(listJob := Some(Ended(ok))) else s
    case ListJobGone => s.(listJob := None)
    case SetDesired(d) => s.(status := s.status.(desired := Some(d)))
    case Gone(n) => if n in s.restores && s.restores[n].deleting then s.(restores := s.restores - {n}) else s
    case OutsideDelete(n) => s.(restores := s.restores - {n})
  }

  ghost function Run(s: State, events: seq<Event>): State
    decreases |events|
  {
    if events == [] then s else Run(Step(s, events[0]), events[1..])
  }

  /** Every event of the run meets `rule` in the state it happens in. */
  ghost predicate Along(s: State, events: seq<Event>, rule: (State, Event) -> bool)
    decreases |events|
  {
    events == [] || (rule(s, events[0]) && Along(Step(s, events[0]), events[1..], rule))
  }
}
