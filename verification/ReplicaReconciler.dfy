/** The replica controller's reconcile, as it works: reading once, then patching the
    replica, its restores, the Service and the Jobs one after another. It is proved to
    leave exactly what the protocol's pass leaves when nothing comes between its writes,
    so whatever holds on every run of the protocol holds of it. */
module ReplicaReconciler {
  import opened Options
  import opened Protocol
  import opened PassPlans

  // ----- Carrying out part of a plan -----------------------------------------------------

  ghost function ApplyGates(s: State, gates: seq<Gate>): State
    decreases |gates|
  {
    if gates == [] then s else ApplyGates(DoGate(s, gates[0]), gates[1..])
  }

  lemma {:induction false} FinishGates(s: State, gates: seq<Gate>, switch: Option<Switch>, tail: seq<Tail>)
    ensures Finish(s.(pass := Some(Pass(gates, switch, tail))))
         == Finish(ApplyGates(s, gates).(pass := Some(Pass([], switch, tail))))
    decreases |gates|
  {
    if gates != [] {
      var t := s.(pass := Some(Pass(gates, switch, tail)));
      assert DoWork(t) == DoGate(s, gates[0]).(pass := Some(Pass(gates[1..], switch, tail)));
      FinishGates(DoGate(s, gates[0]), gates[1..], switch, tail);
    }
  }

  lemma {:induction false} ApplyGatesCat(s: State, a: seq<Gate>, b: seq<Gate>)
    ensures ApplyGates(s, a + b) == ApplyGates(ApplyGates(s, a), b)
    decreases |a|
  {
    if a == [] {
      assert a + b == b;
    } else {
      assert (a + b)[1..] == a[1..] + b;
      ApplyGatesCat(DoGate(s, a[0]), a[1..], b);
    }
  }

  lemma ApplyOne(s: State, g: Gate)
    ensures ApplyGates(s, [g]) == DoGate(s, g)
  {
    assert [g][1..] == [];
    assert ApplyGates(DoGate(s, g), []) == DoGate(s, g);
  }

  function Works(n: nat): seq<Event> { if n == 0 then [] else [Work] + Works(n - 1) }

  /** Finishing a pass is a run of its writes. */
  lemma {:induction false} FinishIsRun(s: State, n: nat)
    requires n >= WritesLeft(s.pass)
    ensures Run(s, Works(n)) == Finish(s)
    decreases n
  {
    if n > 0 {
      assert Works(n)[1..] == Works(n - 1);
      if s.pass.Some? { WorkShrinks(s); }
      FinishIsRun(Step(s, Work), n - 1);
    }
  }

  /** So what a reconcile leaves is what some run of the protocol leads to. */
  lemma ReconcileIsRun(s: State, c: Choices)
    ensures exists n: nat :: Finish(Step(s, BeginPass(c))) == Run(s, [BeginPass(c)] + Works(n))
  {
    var t := Step(s, BeginPass(c));
    var n := WritesLeft(t.pass);
    FinishIsRun(t, n);
    assert ([BeginPass(c)] + Works(n))[1..] == Works(n);
    assert Finish(t) == Run(s, [BeginPass(c)] + Works(n));
  }

  function Rest(tail: seq<Tail>): Option<Pass> { Some(Pass([], None, tail)) }

  lemma FinishNothing(s: State)
    requires s.pass == Rest([])
    ensures Finish(s) == s.(pass := None)
  {
    assert DoWork(s) == s.(pass := None);
    assert Finish(s.(pass := None)) == s.(pass := None);
  }

  lemma FinishFirst(s: State, w: Tail, rest: seq<Tail>)
    requires s.pass == Rest([w] + rest)
    ensures Finish(s) == Finish(DoTail(s.(pass := Rest(rest)), w))
  {
    assert ([w] + rest)[1..] == rest;
    assert DoWork(s) == DoTail(s.(pass := Rest(rest)), w);
  }

  predicate NoClear(tail: seq<Tail>) { forall i :: 0 <= i < |tail| ==> !tail[i].ClearPhases? }

  lemma {:induction false} WithoutClearCat(a: seq<Tail>, b: seq<Tail>)
    ensures WithoutClear(a + b) == WithoutClear(a) + WithoutClear(b)
  {
    if a == [] {
      assert a + b == b;
    } else {
      assert (a + b)[1..] == a[1..] + b;
      WithoutClearCat(a[1..], b);
    }
  }

  lemma {:induction false} NothingToClear(tail: seq<Tail>)
    requires NoClear(tail)
    ensures WithoutClear(tail) == tail
  {
    if tail != [] {
      assert tail == [tail[0]] + tail[1..];
      NothingToClear(tail[1..]);
    }
  }

  lemma {:induction false} SweepDeletesNoClear(names: seq<Name>, undeleted: set<Name>, lingers: set<Name>)
    ensures NoClear(SweepDeletes(names, undeleted, lingers))
  {
    if names != [] { SweepDeletesNoClear(names[1..], undeleted, lingers); }
  }

  /** What is left of a sweep: the deletes, and the clearing if all of them go through. */
  function Sweeping(names: seq<Name>, undeleted: set<Name>, lingers: set<Name>, soFar: bool): seq<Tail> {
    SweepDeletes(names, undeleted, lingers) + (if soFar && AllDeleted(names, undeleted) then [ClearPhases] else [])
  }

  lemma SweepingForgets(names: seq<Name>, undeleted: set<Name>, lingers: set<Name>, soFar: bool, rest: seq<Tail>)
    requires NoClear(rest)
    ensures WithoutClear(Sweeping(names, undeleted, lingers, soFar) + rest) == Sweeping(names, undeleted, lingers, false) + rest
  {
    var deletes := SweepDeletes(names, undeleted, lingers);
    var clear := if soFar && AllDeleted(names, undeleted) then [ClearPhases] else [];
    SweepDeletesNoClear(names, undeleted, lingers);
    NothingToClear(deletes);
    NothingToClear(rest);
    WithoutClearCat(deletes + clear, rest);
    WithoutClearCat(deletes, clear);
    if clear != [] { assert clear[1..] == []; }
    assert WithoutClear(clear) == [];
    assert deletes + [] == deletes;
  }

  lemma SweepingSteps(names: seq<Name>, undeleted: set<Name>, lingers: set<Name>, soFar: bool)
    requires names != []
    ensures names[0] in undeleted ==>
      Sweeping(names, undeleted, lingers, soFar) == Sweeping(names[1..], undeleted, lingers, false)
    ensures names[0] !in undeleted ==>
      Sweeping(names, undeleted, lingers, soFar)
        == [SweepDelete(names[0], names[0] in lingers)] + Sweeping(names[1..], undeleted, lingers, soFar)
  {
    assert names == [names[0]] + names[1..];
    assert AllDeleted(names, undeleted) <==> names[0] !in undeleted && AllDeleted(names[1..], undeleted);
  }

  // ----- The reconcile -----------------------------------------------------------------------

  class Reconciler {
    const spec: Spec
    var restores: map<Name, Restore>
    var status: Status
    var service: Option<Name>
    var migrationJob: Option<Job>
    var listJob: Option<Job>
    var listing: bool
    var now: int
    ghost var history: History

    constructor (spec: Spec, status: Status, now: int)
      requires status.current == None && status.completedAt == None && status.failures == 0
      ensures this.spec == spec && Initial(Abs())
    {
      this.spec, this.status, this.now := spec, status, now;
      restores, service := map[], None;
      migrationJob, listJob, listing := None, None, false;
      history := History(multiset{}, []);
    }

    ghost function At(pass: Option<Pass>): State
      reads this
    {
      State(spec, restores, status, service, migrationJob, listJob, listing, pass, now, history)
    }

    ghost function Abs(): State
      reads this
    {
      At(None)
    }

    method RedactionStep(c: Choices, n: Name) returns (proceed: bool)
      modifies this`status, this`restores
      ensures var answer := RedactionGate(old(Abs()), c, n);
        proceed == answer.proceed && Abs() == ApplyGates(old(Abs()), answer.writes)
    {
      if !spec.redaction || (status.redaction.Some? && status.redaction.value.IsDone()) {
        return true;
      }
      ghost var s := Abs();
      ghost var begin := if s.status.redaction == Some(RedactionActive) then [] else [PatchRedaction(RedactionActive)];
      if status.redaction != Some(RedactionActive) {
        SetRedaction(RedactionActive);
      }
      assert Abs() == ApplyGates(s, begin);
      if c.redactionOk {
        var done := if c.redactionPartial then RedactionPartial else RedactionComplete;
        MaskAndSettle(n, done);
        ApplyGatesCat(s, begin, [Mask(n), PatchRedaction(done)]);
        proceed := true;
      } else {
        SetRedaction(RedactionFailed);
        ApplyGatesCat(s, begin, [PatchRedaction(RedactionFailed)]);
        proceed := false;
      }
    }

    method SetRedaction(p: RedactionPhase)
      modifies this`status
      ensures Abs() == ApplyGates(old(Abs()), [PatchRedaction(p)])
    {
      ApplyOne(Abs(), PatchRedaction(p));
      status := status.(redaction := Some(p));
    }

    method MaskAndSettle(n: Name, done: RedactionPhase)
      modifies this`status, this`restores
      ensures Abs() == ApplyGates(old(Abs()), [Mask(n), PatchRedaction(done)])
    {
      ghost var s := Abs();
      if n in restores { restores := restores[n := restores[n].(masked := true)]; }
      ApplyOne(s, Mask(n));
      SetRedaction(done);
      ApplyGatesCat(s, [Mask(n)], [PatchRedaction(done)]);
      assert [Mask(n)] + [PatchRedaction(done)] == [Mask(n), PatchRedaction(done)];
    }

    method DropMigrationJob(c: Choices)
      modifies this`migrationJob
      ensures Abs() == ApplyGates(old(Abs()), if c.migrationJobDeleted then [DeleteMigrationJob] else [])
    {
      ApplyOne(Abs(), DeleteMigrationJob);
      if c.migrationJobDeleted { migrationJob := None; }
    }

    method SetMigration(p: SchemaMigrationPhase)
      modifies this`status
      ensures Abs() == ApplyGates(old(Abs()), [PatchMigration(p)])
    {
      ApplyOne(Abs(), PatchMigration(p));
      status := status.(migration := Some(p));
    }

    method MigrationStep(c: Choices) returns (proceed: bool)
      modifies this`status, this`migrationJob
      ensures var answer := MigrationGate(old(Abs()), c);
        proceed == answer.proceed && Abs() == ApplyGates(old(Abs()), answer.writes)
    {
      ghost var s := Abs();
      ghost var drop := if c.migrationJobDeleted then [DeleteMigrationJob] else [];
      if spec.schemas.NotConfigured? || c.active.None? {
        return true;
      }
      if spec.schemas.ConfiguredEmpty? {
        SetMigration(MigrationComplete);
        return true;
      }
      if status.migration == Some(MigrationComplete) {
        return true;
      }
      match migrationJob
      case Some(JobRunning) =>
        proceed := c.overBudget;
        if c.overBudget {
          DropMigrationJob(c);
          SetMigration(MigrationTimeoutSkipped);
          ApplyGatesCat(s, drop, [PatchMigration(MigrationTimeoutSkipped)]);
        }
      case Some(JobSucceeded) =>
        var p := if c.migrationPartial then MigrationPartial else MigrationComplete;
        SetMigration(p);
        DropMigrationJob(c);
        ApplyGatesCat(s, [PatchMigration(p)], drop);
        proceed := true;
      case Some(JobFailed) =>
        DropMigrationJob(c);
        SetMigration(MigrationFailed);
        ApplyGatesCat(s, drop, [PatchMigration(MigrationFailed)]);
        proceed := false;
      case None =>
        proceed := StartMigration(c);
    }

    method StartMigration(c: Choices) returns (proceed: bool)
      requires migrationJob.None?
      modifies this`status, this`migrationJob
      ensures proceed == c.discovery.NothingToMigrate?
      ensures Abs() == ApplyGates(old(Abs()),
        match c.discovery
        case NothingToMigrate => [PatchMigration(MigrationComplete)]
        case ReadyToMigrate => [CreateMigrationJob, PatchMigration(MigrationActive)]
        case _ => [])
    {
      proceed := false;
      match c.discovery
      case NothingToMigrate =>
        SetMigration(MigrationComplete);
        proceed := true;
      case ReadyToMigrate =>
        ghost var s := Abs();
        migrationJob := Some(JobRunning);
        SetMigration(MigrationActive);
        ApplyOne(s, CreateMigrationJob);
        ApplyGatesCat(s, [CreateMigrationJob], [PatchMigration(MigrationActive)]);
        assert [CreateMigrationJob] + [PatchMigration(MigrationActive)] == [CreateMigrationJob, PatchMigration(MigrationActive)];
      case DiscoveryFailed =>
      case ResettingCredentials =>
    }

    /** The Service, then the restore, then the replica. */
    method Switchover(n: Name, previous: Option<Name>)
      modifies this
      ensures Abs() == Finish(old(At(Some(Pass([], Some(Switch(n, previous, ToSelect)), [])))))
    {
      ghost var s := At(Some(Pass([], Some(Switch(n, previous, ToSelect)), [])));
      assert Finish(s) == Finish(DoWork(s));
      SelectAndActivate(n, previous, s);
    }

    method SelectAndActivate(n: Name, previous: Option<Name>, ghost s: State)
      requires s == At(Some(Pass([], Some(Switch(n, previous, ToSelect)), [])))
      modifies this
      ensures Abs() == Finish(DoWork(s))
    {
      restores := Reselect(restores, service, n, now);
      service := Some(n);
      ghost var s1 := DoWork(s);
      assert s1 == At(Some(Pass([], Some(Switch(n, previous, ToActivate)), [])));
      if n !in restores {
        assert DoWork(s1) == Abs();
        assert Finish(s1) == Finish(DoWork(s1));
        return;
      }
      history := history.(activations := history.activations + multiset{restores[n].snapshot});
      restores := restores[n := restores[n].(phase := Some(Active))];
      ghost var s2 := DoWork(s1);
      assert Finish(s1) == Finish(s2);
      assert s2 == At(Some(Pass([], Some(Switch(n, previous, ToStamp)), [])));
      StampAndRecord(n, previous, s2);
    }

    method StampAndRecord(n: Name, previous: Option<Name>, ghost s: State)
      requires s == At(Some(Pass([], Some(Switch(n, previous, ToStamp)), []))) && n in restores
      modifies this
      ensures Abs() == Finish(s)
    {
      var at := now;
      restores := restores[n := restores[n].(activatedAt := Some(at))];
      ghost var s1 := DoWork(s);
      assert Finish(s) == Finish(s1);
      assert s1 == At(Some(Pass([], Some(Switch(n, previous, ToRecord(at))), [])));
      status := status.(current := Some(n), previous := previous, completedAt := Some(at), failures := 0);
      history := history.(failTimes := []);
      assert DoWork(s1) == Abs();
      assert Finish(s1) == Finish(DoWork(s1));
    }

    /** The three gates, and past them the switchover. */
    method SwitchPass(c: Choices, n: Name)
      modifies this
      ensures Abs() == Finish(old(At(Some(SwitchPlan(Abs(), c, n)))))
    {
      ghost var s := Abs();
      ghost var redaction, migration := RedactionGate(s, c, n), MigrationGate(s, c);
      var previous := status.current;
      var proceed := RedactionStep(c, n);
      RedactionLeaves(s, c, n);
      if !proceed {
        FinishGates(s, redaction.writes, None, []);
        FinishNothing(Abs().(pass := Rest([])));
        return;
      }
      proceed := MigrationStep(c);
      ApplyGatesCat(s, redaction.writes, migration.writes);
      ghost var gates := redaction.writes + migration.writes;
      if !proceed || !c.schemaBuilt {
        FinishGates(s, gates, None, []);
        FinishNothing(Abs().(pass := Rest([])));
        return;
      }
      FinishGates(s, gates, Some(Switch(n, previous, ToSelect)), []);
      Switchover(n, previous);
    }

    method Delete(n: Name, lingers: bool)
      modifies this`restores
      ensures Abs() == DeleteRestore(old(Abs()), n, lingers)
    {
      if n in restores {
        restores := if lingers then restores[n := restores[n].(deleting := true)] else restores - {n};
      }
    }

    /** The verified snapshot is recorded before the restore is deleted. */
    method TearDownPass(c: Choices, n: Name)
      requires n in restores
      modifies this
      ensures Abs() == Finish(old(At(Some(TearDownPlan(Abs(), c, n)))))
    {
      ghost var delete := if n in c.undeleted then [] else [TearDown(n, n in c.lingers)];
      var snapshot := restores[n].snapshot;
      RecordSnapshot(snapshot, delete);
      if n !in c.undeleted {
        assert delete == [TearDown(n, n in c.lingers)] + [];
        FinishFirst(At(Rest(delete)), TearDown(n, n in c.lingers), []);
        Delete(n, n in c.lingers);
      }
      FinishNothing(At(Rest([])));
    }

    method RecordSnapshot(snapshot: Snapshot, ghost rest: seq<Tail>)
      modifies this`status
      ensures Finish(At(Rest(rest))) == Finish(old(At(Rest([RecordVerified(snapshot)] + rest))))
    {
      FinishFirst(At(Rest([RecordVerified(snapshot)] + rest)), RecordVerified(snapshot), rest);
      status := status.(verified := Some(snapshot), current := None, previous := None);
    }

    method DeleteStale(c: Choices, ghost rest: seq<Tail>) returns (all: bool)
      requires NoClear(rest)
      modifies this`restores
      ensures Finish(At(Rest((if all then [ClearPhases] else []) + rest)))
           == Finish(old(At(Rest(Sweeping(c.stale, c.undeleted, c.lingers, true) + rest))))
    {
      all := true;
      ghost var goal := Finish(At(Rest(Sweeping(c.stale, c.undeleted, c.lingers, true) + rest)));
      var i := 0;
      assert c.stale[0..] == c.stale;
      while i < |c.stale|
        invariant 0 <= i <= |c.stale|
        invariant goal == Finish(At(Rest(Sweeping(c.stale[i..], c.undeleted, c.lingers, all) + rest)))
      {
        ghost var names := c.stale[i..];
        assert names[1..] == c.stale[i + 1..];
        all := DeleteOneStale(c.stale[i], names, c, all, rest);
        i := i + 1;
      }
      assert c.stale[i..] == [];
    }

    method DeleteOneStale(n: Name, ghost names: seq<Name>, c: Choices, soFar: bool, ghost rest: seq<Tail>) returns (all: bool)
      requires NoClear(rest) && names != [] && names[0] == n
      modifies this`restores
      ensures Finish(At(Rest(Sweeping(names[1..], c.undeleted, c.lingers, all) + rest)))
           == Finish(old(At(Rest(Sweeping(names, c.undeleted, c.lingers, soFar) + rest))))
    {
      SweepingSteps(names, c.undeleted, c.lingers, soFar);
      all := false;
      if n in c.undeleted { return; }
      ghost var s := At(Rest(Sweeping(names, c.undeleted, c.lingers, soFar) + rest));
      ghost var left := Sweeping(names[1..], c.undeleted, c.lingers, soFar) + rest;
      ghost var w := SweepDelete(n, n in c.lingers);
      assert Sweeping(names, c.undeleted, c.lingers, soFar) + rest == [w] + left;
      FinishFirst(s, w, left);
      if n in restores {
        all := soFar;
        Delete(n, n in c.lingers);
      } else {
        SweepingForgets(names[1..], c.undeleted, c.lingers, soFar, rest);
      }
    }

    /** Stale restores go, and only when all of them have do the phases of the cycle. */
    method Sweep(c: Choices, ghost rest: seq<Tail>)
      requires NoClear(rest)
      modifies this`restores, this`status
      ensures Finish(At(Rest(rest))) == Finish(old(At(Rest(SweepTail(Abs(), c) + rest))))
    {
      var settled :=
        && status.current.Some?
        && (spec.schemas.NotConfigured? || status.migration != Some(MigrationActive))
        && status.redaction != Some(RedactionActive)
        && status.current.value in restores && restores[status.current.value].Is(Active);
      if !settled || status.completedAt.None? || now - status.completedAt.value <= spec.grace || c.stale == [] {
        assert [] + rest == rest;
        return;
      }
      assert SweepTail(Abs(), c) == Sweeping(c.stale, c.undeleted, c.lingers, true);
      var all := DeleteStale(c, rest);
      if all {
        FinishFirst(At(Rest([ClearPhases] + rest)), ClearPhases, rest);
        status := status.(previous := None, migration := None, redaction := None);
      } else {
        assert [] + rest == rest;
      }
    }

    method CleanUpFailed(c: Choices, ghost rest: seq<Tail>)
      modifies this`restores
      ensures Finish(At(Rest(rest))) == Finish(old(At(Rest(CleanTail(c.expired, c.lingers) + rest))))
    {
      ghost var goal := Finish(At(Rest(CleanTail(c.expired, c.lingers) + rest)));
      var i := 0;
      assert c.expired[0..] == c.expired;
      while i < |c.expired|
        invariant 0 <= i <= |c.expired|
        invariant goal == Finish(At(Rest(CleanTail(c.expired[i..], c.lingers) + rest)))
      {
        ghost var names := c.expired[i..];
        assert names[1..] == c.expired[i + 1..];
        var n := c.expired[i];
        ghost var left := CleanTail(names[1..], c.lingers) + rest;
        assert CleanTail(names, c.lingers) + rest == [CleanFailed(n, n in c.lingers)] + left;
        CleanOne(n, n in c.lingers, left);
        i := i + 1;
      }
      assert c.expired[i..] == [];
      assert [] + rest == rest;
    }

    method CleanOne(n: Name, lingers: bool, ghost rest: seq<Tail>)
      modifies this`restores
      ensures Finish(At(Rest(rest))) == Finish(old(At(Rest([CleanFailed(n, lingers)] + rest))))
    {
      FinishFirst(At(Rest([CleanFailed(n, lingers)] + rest)), CleanFailed(n, lingers), rest);
      Delete(n, lingers);
    }

    method CountLive() returns (count: nat)
      ensures count == |LiveNames(restores)|
    {
      count := 0;
      var unseen := restores.Keys;
      ghost var seen: set<Name> := {};
      while unseen != {}
        invariant unseen <= restores.Keys && seen == LiveNames(restores) - unseen
        invariant count == |seen|
        decreases |unseen|
      {
        var n :| n in unseen;
        unseen := unseen - {n};
        if restores[n].Live() {
          count := count + 1;
          seen := seen + {n};
        }
      }
      assert seen == LiveNames(restores);
    }

    /** No more than three live restores; a name already taken ends the pass. */
    method Create(n: Name, snapshot: Snapshot, hasTarget: bool, ghost rest: seq<Tail>) returns (ok: bool)
      modifies this`restores
      ensures Finish(At(if ok then Rest(rest) else None))
           == Finish(old(At(Rest([CreateRestore(n, snapshot, hasTarget)] + rest))))
    {
      ghost var w := CreateRestore(n, snapshot, hasTarget);
      FinishFirst(At(Rest([w] + rest)), w, rest);
      var live := CountLive();
      ok := true;
      if live < MAX_RESTORES_PER_REPLICA {
        if n in restores {
          ok := false;
        } else {
          restores := restores[n := NewRestore(snapshot, hasTarget)];
        }
      }
    }

    /** What the snapshot listing answers; `covered` is as the pass found it at its start. */
    method TakeSnapshotListing(c: Choices, covered: bool, ghost rest: seq<Tail>) returns (ok: bool)
      modifies this`restores, this`listing, this`listJob
      ensures Finish(At(if ok then Rest(rest) else None)) == Finish(old(At(Rest(
        [TakeListing] + (if c.listJobDeleted then [DropListJob] else [])
        + (if c.picked.Some? && !covered then [CreateRestore(c.newName, c.picked.value, c.newHasTarget)] else []) + rest))))
    {
      ghost var create := if c.picked.Some? && !covered then [CreateRestore(c.newName, c.picked.value, c.newHasTarget)] else [];
      ghost var drop := if c.listJobDeleted then [DropListJob] else [];
      assert [TakeListing] + drop + create + rest == [TakeListing] + (drop + (create + rest));
      TakeAndDrop(c, create + rest);
      if c.picked.Some? && !covered {
        ok := Create(c.newName, c.picked.value, c.newHasTarget, rest);
      } else {
        assert create + rest == rest;
        ok := true;
      }
    }

    method TakeAndDrop(c: Choices, ghost rest: seq<Tail>)
      modifies this`listing, this`listJob
      ensures Finish(At(Rest(rest))) == Finish(old(At(Rest(
        [TakeListing] + ((if c.listJobDeleted then [DropListJob] else []) + rest)))))
    {
      ghost var drop := (if c.listJobDeleted then [DropListJob] else []) + rest;
      FinishFirst(At(Rest([TakeListing] + drop)), TakeListing, drop);
      listing := false;
      if c.listJobDeleted {
        FinishFirst(At(Rest(drop)), DropListJob, rest);
        listJob := None;
      } else {
        assert drop == rest;
      }
    }

    method SetNext(at: int, ghost rest: seq<Tail>)
      modifies this`status
      ensures Finish(At(Rest(rest))) == Finish(old(At(Rest([SetSchedule(at)] + rest))))
    {
      FinishFirst(At(Rest([SetSchedule(at)] + rest)), SetSchedule(at), rest);
      status := status.(nextScheduled := Some(at));
    }

    /** Whether to list and whether to reschedule was decided from what the pass read at its
        start. */
    method Schedule(c: Choices, recompute: bool, lists: bool, reschedule: bool)
      modifies this`status, this`listJob
      ensures Abs() == Finish(old(At(Rest(Scheduling(c, recompute, lists, reschedule)))))
    {
      ghost var last := LastScheduling(c, lists, reschedule);
      if recompute && c.nextFire.Some? {
        SetNext(c.nextFire.value, last);
      } else {
        assert [] + last == last;
      }
      if lists {
        if c.slotFree { StartListing(); } else { FinishNothing(At(Rest([]))); }
      } else {
        if reschedule && c.nextFire.Some? {
          assert last == [SetSchedule(c.nextFire.value)] + [];
          SetNext(c.nextFire.value, []);
        }
        FinishNothing(At(Rest([])));
      }
    }

    method StartListing()
      modifies this`listJob
      ensures Abs() == Finish(old(At(Rest([CreateListJob]))))
    {
      assert [CreateListJob] == [CreateListJob] + [];
      FinishFirst(At(Rest([CreateListJob])), CreateListJob, []);
      if listJob.None? {
        listJob := Some(JobRunning);
        FinishNothing(At(Rest([])));
      }
    }

    method ListStep(c: Choices, covered: bool, ghost s: State, ghost rest: seq<Tail>) returns (ends: bool, ok: bool)
      requires s.listJob == listJob && s.listing == listing
      requires c.picked.Some? ==> covered == Covered(c.picked.value, s.status.verified, s.restores)
      modifies this`restores, this`listing, this`listJob
      ensures ends == ListTail(s, c).ends
      ensures Finish(At(if ok then Rest(rest) else None)) == Finish(old(At(Rest(ListTail(s, c).writes + rest))))
    {
      ends, ok := false, true;
      assert [] + rest == rest;
      match listJob
      case None =>
      case Some(JobFailed) =>
      case Some(JobRunning) => ends := true;
      case Some(JobSucceeded) =>
        if listing {
          ghost var drop := if c.listJobDeleted then [DropListJob] else [];
          ghost var create := if c.picked.Some? && !covered then [CreateRestore(c.newName, c.picked.value, c.newHasTarget)] else [];
          assert ListTail(s, c).writes + rest == [TakeListing] + drop + create + rest;
          ok := TakeSnapshotListing(c, covered, rest);
        } else {
          ends := true;
          if c.listJobStale && c.listJobDeleted {
            FinishFirst(At(Rest([DropListJob] + rest)), DropListJob, rest);
            listJob := None;
          }
        }
    }

    /** Whether a restore is called for, from the replica and the restores as they were
        read. */
    method Due(c: Choices, found: map<Name, Restore>, replica: Status, ghost s: State) returns (due: bool)
      requires s.spec == spec && s.restores == found && s.status == replica && s.now == now
      requires c.active.Some? ==> c.active.value in found
      ensures due == ShouldRestore(s, c)
    {
      var neverRestored := c.active.None? && replica.completedAt.None? && replica.verified.None?
        && !BackoffPending(replica, now);
      var activeDeleted := c.active.None? && replica.current.Some?;
      var effective := if c.active.Some? then Some(found[c.active.value].snapshot) else replica.verified;
      var desiredChanged := spec.canopy && replica.desired.Some? && replica.desired != effective
        && !WithinMinimumTtl(spec, replica, now);
      due := neverRestored || activeDeleted || desiredChanged || CheckSchedule(spec, replica, now).Trigger?;
    }

    method Later(c: Choices, found: map<Name, Restore>, replica: Status, ghost s: State)
      requires s.spec == spec && s.restores == found && s.status == replica && s.now == now
      requires s.listJob == listJob && s.listing == listing
      requires c.active.Some? ==> c.active.value in found
      modifies this
      ensures Abs() == Finish(old(At(Rest(LaterTail(s, c)))))
    {
      var covered := c.picked.Some? && Covered(c.picked.value, replica.verified, found);
      var busy := AnyInProgress(found);
      var due := Due(c, found, replica, s);
      var recompute, lists := c.scheduleChanged || replica.nextScheduled.None?, due && listJob.None?;
      var reschedule := !CheckSchedule(spec, replica, now).NotDue?;
      LaterTailIs(s, c);
      TriggerTailIs(s, c);
      ListAndSchedule(c, covered, busy, recompute, lists, reschedule, s);
    }

    method ListAndSchedule(c: Choices, covered: bool, busy: bool, recompute: bool, lists: bool, reschedule: bool, ghost s: State)
      requires s.listJob == listJob && s.listing == listing
      requires c.picked.Some? ==> covered == Covered(c.picked.value, s.status.verified, s.restores)
      modifies this
      ensures Abs() == Finish(old(At(Rest(ListTail(s, c).writes
        + (if ListTail(s, c).ends || busy then [] else Scheduling(c, recompute, lists, reschedule))))))
    {
      ghost var rest := if ListTail(s, c).ends || busy then [] else Scheduling(c, recompute, lists, reschedule);
      var ends, ok := ListStep(c, covered, s, rest);
      if !ok { return; }
      if ends || busy {
        FinishNothing(At(Rest([])));
      } else {
        Schedule(c, recompute, lists, reschedule);
      }
    }

    /** Sweep, failed restores, listing, schedule. */
    method RestPass(c: Choices)
      requires c.active.Some? ==> c.active.value in restores
      modifies this
      ensures Abs() == Finish(old(At(Some(RestPlan(Abs(), c)))))
    {
      ghost var s := Abs();
      var found, replica := restores, status;
      ghost var later := LaterTail(s, c);
      ghost var clean := CleanTail(c.expired, c.lingers) + later;
      RestPlanIs(s, c);
      NoClearLater(s, c);
      Sweep(c, clean);
      CleanUpFailed(c, later);
      Later(c, found, replica, s);
    }

    /** One reconcile of the replica. */
    method Reconcile(c: Choices)
      requires ValidChoices(Abs(), c)
      modifies this
      ensures Abs() == Finish(Step(old(Abs()), BeginPass(c)))
    {
      if c.switching.Some? {
        SwitchPass(c, c.switching.value);
      } else if spec.ephemeral && c.active.Some? && !restores[c.active.value].deleting {
        TearDownPass(c, c.active.value);
      } else {
        RestPass(c);
      }
    }
  }

  // ----- What the gates leave alone ----------------------------------------------------------

  lemma RedactionLeaves(s: State, c: Choices, n: Name)
    ensures MigrationGate(ApplyGates(s, RedactionGate(s, c, n).writes), c) == MigrationGate(s, c)
  {
    RedactionOnly(s, RedactionGate(s, c, n).writes);
  }

  lemma {:induction false} RedactionOnly(s: State, gates: seq<Gate>)
    requires forall i :: 0 <= i < |gates| ==> gates[i].PatchRedaction? || gates[i].Mask?
    ensures var t := ApplyGates(s, gates);
      t.spec == s.spec && t.status.migration == s.status.migration && t.migrationJob == s.migrationJob
    decreases |gates|
  {
    if gates != [] { RedactionOnly(DoGate(s, gates[0]), gates[1..]); }
  }

  lemma {:induction false} CleanNoClear(names: seq<Name>, lingers: set<Name>)
    ensures NoClear(CleanTail(names, lingers))
  {
    if names != [] { CleanNoClear(names[1..], lingers); }
  }

  function LastScheduling(c: Choices, lists: bool, reschedule: bool): seq<Tail> {
    if lists then (if c.slotFree then [CreateListJob] else [])
    else if reschedule && c.nextFire.Some? then [SetSchedule(c.nextFire.value)] else []
  }

  function Scheduling(c: Choices, recompute: bool, lists: bool, reschedule: bool): seq<Tail> {
    (if recompute && c.nextFire.Some? then [SetSchedule(c.nextFire.value)] else []) + LastScheduling(c, lists, reschedule)
  }

  lemma TriggerTailIs(s: State, c: Choices)
    requires c.active.Some? ==> c.active.value in s.restores
    ensures TriggerTail(s, c) == Scheduling(c, c.scheduleChanged || s.status.nextScheduled.None?,
      ShouldRestore(s, c) && s.listJob.None?, !CheckSchedule(s.spec, s.status, s.now).NotDue?)
  { }

  lemma LaterTailIs(s: State, c: Choices)
    requires c.active.Some? ==> c.active.value in s.restores
    ensures LaterTail(s, c) == ListTail(s, c).writes
      + (if ListTail(s, c).ends || AnyInProgress(s.restores) then [] else TriggerTail(s, c))
  { }

  lemma RestPlanIs(s: State, c: Choices)
    requires c.active.Some? ==> c.active.value in s.restores
    ensures Some(RestPlan(s, c)) == Rest(SweepTail(s, c) + (CleanTail(c.expired, c.lingers) + LaterTail(s, c)))
  {
    assert SweptTail(s, c) + LaterTail(s, c) == SweepTail(s, c) + (CleanTail(c.expired, c.lingers) + LaterTail(s, c));
  }

  lemma NoClearLater(s: State, c: Choices)
    requires c.active.Some? ==> c.active.value in s.restores
    ensures NoClear(CleanTail(c.expired, c.lingers) + LaterTail(s, c))
  {
    CleanNoClear(c.expired, c.lingers);
    assert NoClear(ListTail(s, c).writes);
    assert NoClear(TriggerTail(s, c));
  }
}
