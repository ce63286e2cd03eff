/** What a step of the restore controller does to a restore, told from what it found: which
    findings fail it, which move it on, and when its migration counts as run. */
module Handlers {
  import opened Options
  import opened Protocol
  import opened PassPlans
  import opened RunRules
  import Lifecycle

  /** Exactly these findings fail a restore: its Job failed, its version cannot be found out,
      its Deployment ran out of time, or there is no database to migrate. */
  predicate FailsOn(r: Restore, o: Observation) {
    match r.phase
    case Some(Restoring) => o.jobFailed && !o.jobSucceeded
    case Some(Migrating) => r.hasTarget && o.noDatabase
    case Some(Ready) =>
      if r.versionKnown then o.outOfTime && !o.deploymentReady
      else o.detect.DetectFailed? || (o.detect.DetectSucceeded? && !o.detect.version)
    case _ => false
  }

  /** And the phase the others lead to. */
  function LedTo(r: Restore, o: Observation): Option<Phase> {
    match r.phase
    case None => if !o.interrupted then Some(Restoring) else if r.createdAt.None? then Some(Pending) else None
    case Some(Pending) => Some(if o.interrupted then Pending else Restoring)
    case Some(Restoring) => Some(if o.jobSucceeded then Ready else Restoring)
    case Some(Migrating) => Some(if !r.hasTarget || o.migrationFinished then Ready else Migrating)
    case Some(Ready) =>
      Some(if !r.versionKnown || !o.deploymentReady then Ready
           else if r.hasTarget && !r.migrated then Migrating else Switching)
    case Some(p) => Some(p)
  }

  /** What a step leaves of a restore, field by field. */
  predicate HandledAs(r: Restore, o: Observation, now: int, h: Handled) {
    && (h.failed <==> FailsOn(r, o))
    && h.restore.phase == (if FailsOn(r, o) then Some(Failed) else LedTo(r, o))
    && (h.restore.migrated <==>
          r.migrated || (r.Is(Migrating) && r.hasTarget && !o.noDatabase && o.migrationFinished))
    && h.restore.versionKnown == (if r.Is(Restoring) && o.jobSucceeded then o.versionRead
                                  else r.versionKnown || (r.Is(Ready) && o.detect == DetectSucceeded(true)))
    && h.restore.createdAt == (if (r.phase.None? || r.Is(Pending)) && r.createdAt.None? then Some(now) else r.createdAt)
    && h.restore == r.(phase := h.restore.phase, migrated := h.restore.migrated,
                       versionKnown := h.restore.versionKnown, createdAt := h.restore.createdAt)
  }

  lemma PendingExactly(r: Restore, o: Observation, now: int)
    requires r.phase.None? || r.Is(Pending)
    ensures HandledAs(r, o, now, HandlePending(r, o, now))
  { }

  lemma RestoringExactly(r: Restore, o: Observation, now: int)
    requires r.Is(Restoring)
    ensures HandledAs(r, o, now, HandleRestoring(r, o))
  { }

  lemma MigratingExactly(r: Restore, o: Observation, now: int)
    requires r.Is(Migrating)
    ensures HandledAs(r, o, now, HandleMigrating(r, o))
  { }

  lemma ReadyExactly(r: Restore, o: Observation, now: int)
    requires r.Is(Ready)
    ensures HandledAs(r, o, now, HandleReady(r, o))
  {
    if r.versionKnown { UpExactly(r, o, now); } else { DetectingExactly(r, o, now); }
  }

  lemma UpExactly(r: Restore, o: Observation, now: int)
    requires r.Is(Ready) && r.versionKnown
    ensures HandledAs(r, o, now, HandleReady(r, o))
  { }

  lemma DetectingExactly(r: Restore, o: Observation, now: int)
    requires r.Is(Ready) && !r.versionKnown
    ensures HandledAs(r, o, now, HandleReady(r, o))
  {
    match o.detect
    case DetectAbsent => case DetectRunning => case DetectSucceeded(_) => case DetectFailed =>
  }

  lemma HandledExactly(r: Restore, o: Observation, now: int)
    ensures HandledAs(r, o, now, Handle(r, o, now))
  {
    match r.phase
    case None => PendingExactly(r, o, now);
    case Some(Pending) => PendingExactly(r, o, now);
    case Some(Restoring) => RestoringExactly(r, o, now);
    case Some(Migrating) => MigratingExactly(r, o, now);
    case Some(Ready) => ReadyExactly(r, o, now);
    case Some(Switching) => case Some(Active) => case Some(Failed) =>
  }

  /** A finished migration of a Migrating restore that has a target and a database. */
  predicate FinishesMigration(s: State, e: Event, n: Name) {
    && e.RestorePass? && e.restore == n && s.Has(n, Migrating) && s.restores[n].hasTarget
    && !e.seen.noDatabase && e.seen.migrationFinished
  }

  /** Whatever happens, a restore comes to count as migrated if and only if its migration has
      finished; it goes on to its switchover with a target only after that. */
  lemma MigratedExactly(s: State, e: Event, n: Name)
    requires n in s.restores && n in Step(s, e).restores
    ensures Step(s, e).restores[n].migrated <==> s.restores[n].migrated || FinishesMigration(s, e, n)
  {
    match e
    case RestorePass(m, o) => if m in s.restores { HandledExactly(s.restores[m], o, s.now); }
    case Work => if s.pass.Some? { WorkLeavesMigrated(s, n); }
    case BeginPass(_) => case Stop => case Restart => case WithdrawTarget(_) => case Tick(_) =>
    case MigrationJobEnds(_) => case MigrationJobGone => case ListingPosted => case ListJobEnds(_) =>
    case ListJobGone => case SetDesired(_) => case Gone(_) => case OutsideDelete(_) =>
  }

  lemma WorkLeavesMigrated(s: State, n: Name)
    requires s.pass.Some? && n in s.restores && n in DoWork(s).restores
    ensures DoWork(s).restores[n].migrated == s.restores[n].migrated
  {
    if InTail(s) { TailTouches(s, n); }
  }

  /** `n` finished its migration during the run. */
  ghost predicate Migrates(s: State, events: seq<Event>, n: Name)
    decreases |events|
  {
    events != [] && (FinishesMigration(s, events[0], n) || Migrates(Step(s, events[0]), events[1..], n))
  }

  /** So on every run a restore that stays counts as migrated at the end if and only if it did
      at the start or finished its migration in between. */
  lemma {:induction false} MigratedOverRun(s: State, events: seq<Event>, n: Name)
    requires Lifecycle.Stays(s, events, n)
    ensures n in Run(s, events).restores
    ensures Run(s, events).restores[n].migrated <==> s.restores[n].migrated || Migrates(s, events, n)
    decreases |events|
  {
    if events != [] {
      assert n in Step(s, events[0]).restores by { assert Lifecycle.Stays(Step(s, events[0]), events[1..], n); }
      MigratedExactly(s, events[0], n);
      MigratedOverRun(Step(s, events[0]), events[1..], n);
    }
  }

  /** A step of the restore controller counts a failure on the replica if and only if it found
      one and its patch was saved; and then by one, with the next attempt after the backoff. */
  lemma FailureCountedExactly(s: State, n: Name, o: Observation)
    requires n in s.restores
    ensures var t := RestoreStep(s, n, o);
      && t.status == (if FailsOn(s.restores[n], o) && o.recorded
                      then s.status.(failures := s.status.failures + 1,
                                     nextScheduled := Some(s.now + FailureBackoff(s.status.failures + 1)))
                      else s.status)
      && (Fails(s, RestorePass(n, o)) <==> FailsOn(s.restores[n], o))
      && t.history.failTimes == (if FailsOn(s.restores[n], o) then s.history.failTimes + [s.now] else s.history.failTimes)
  {
    HandledExactly(s.restores[n], o, s.now);
  }
}
