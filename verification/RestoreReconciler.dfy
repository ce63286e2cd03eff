/** The restore controller's reconcile, as it works: one restore is read, its phase decides
    the handler, and the handler patches the restore, the queue of restore slots and, on a
    failure, the replica's failure count. It is proved to be the protocol's restore step. */
module RestoreReconciler {
  import opened Options
  import opened Protocol
  import Queues = RestoreQueues

  /** What a handler does to the queue: a restore that starts takes a slot, and one that
      fails or goes on to switch over gives it up to the next in line. */
  ghost function Slots(q: Queues.Queue, key: Queues.Key, max: nat, before: Restore, after: Restore): Queues.Queue {
    if !before.Is(Restoring) && after.Is(Restoring) then Queues.Apply(q, Queues.MarkActive(key))
    else if (!before.Is(Failed) && after.Is(Failed)) || (!before.Is(Switching) && after.Is(Switching)) then
      Queues.Run(q, [Queues.Remove(key), Queues.TryPromote(max)])
    else q
  }

  function Stamped(r: Restore, now: int): Restore {
    if r.createdAt.None? then r.(createdAt := Some(now), phase := Some(Pending)) else r
  }

  lemma PendingHandled(r: Restore, o: Observation, now: int, q: Queues.Queue, key: Queues.Key, max: nat)
    requires r.phase.None? || r.Is(Pending)
    ensures var after := if o.interrupted then Stamped(r, now) else Stamped(r, now).(phase := Some(Restoring));
      && Handle(r, o, now) == Handled(after, false)
      && Slots(q, key, max, r, after) == if o.interrupted then q else Queues.Apply(q, Queues.MarkActive(key))
  { }

  function Counted(status: Status, now: int): Status {
    status.(failures := status.failures + 1, nextScheduled := Some(now + FailureBackoff(status.failures + 1)))
  }

  class Reconciler {
    const key: Queues.Key
    const max: nat
    const queue: Queues.RestoreQueue
    var restores: map<Name, Restore>
    var status: Status
    var now: int
    ghost var history: History
    ghost const elsewhere: State

    constructor (key: Queues.Key, max: nat, queue: Queues.RestoreQueue, status: Status, now: int, ghost elsewhere: State)
      ensures this.key == key && this.max == max && this.queue == queue && restores == map[] && this.status == status
    {
      this.key, this.max, this.queue := key, max, queue;
      restores, this.status, this.now := map[], status, now;
      history := History(multiset{}, []);
      this.elsewhere := elsewhere;
    }

    /** The state of which this controller sees the restores, the replica's status and the
        clock. */
    ghost function Abs(): State
      reads this
    {
      elsewhere.(restores := restores, status := status, now := now, history := history)
    }

    method Patch(n: Name, r: Restore)
      modifies this`restores
      ensures restores == old(restores)[n := r]
    {
      restores := restores[n := r];
    }

    /** The restore first, then its slot, then the replica's count, which may not be saved. */
    method Fail(n: Name, o: Observation)
      requires n in restores && !restores[n].Is(Failed)
      modifies this, queue
      ensures var failed := old(restores)[n].(phase := Some(Failed));
        && now == old(now) && restores == old(restores)[n := failed]
        && status == (if o.recorded then Counted(old(status), now) else old(status))
        && history == old(history).(failTimes := old(history).failTimes + [now])
        && queue.Abs() == Slots(old(queue.Abs()), key, max, old(restores[n]), failed)
    {
      Patch(n, restores[n].(phase := Some(Failed)));
      history := history.(failTimes := history.failTimes + [now]);
      var _ := queue.ReleaseSlot(key, max);
      if o.recorded {
        var count := status.failures + 1;
        status := status.(failures := count, nextScheduled := Some(now + FailureBackoff(count)));
      }
    }

    /** What every handler promises: the restore as handled, the failure counted where the
        count was saved, and the slot taken or given up. */
    twostate predicate Stepped(n: Name, o: Observation)
      requires old(n in restores)
      reads this, queue
    {
      var h := Handle(old(restores[n]), o, old(now));
      var counted := h.failed && o.recorded;
      && now == old(now) && restores == old(restores)[n := h.restore]
      && status == (if counted then Counted(old(status), now) else old(status))
      && history == (if h.failed then old(history).(failTimes := old(history).failTimes + [now]) else old(history))
      && queue.Abs() == Slots(old(queue.Abs()), key, max, old(restores[n]), h.restore)
    }

    method ReconcilePending(n: Name, o: Observation)
      requires n in restores && (restores[n].phase.None? || restores[n].Is(Pending))
      modifies this, queue
      ensures Stepped(n, o)
    {
      PendingHandled(restores[n], o, now, queue.Abs(), key, max);
      Stamp(n);
      if !o.interrupted { Start(n); }
    }

    method Stamp(n: Name)
      requires n in restores
      modifies this`restores
      ensures restores == old(restores)[n := Stamped(old(restores)[n], now)]
    {
      if restores[n].createdAt.None? {
        Patch(n, restores[n].(createdAt := Some(now), phase := Some(Pending)));
      }
    }

    method Start(n: Name)
      requires n in restores
      modifies this`restores, queue
      ensures restores == old(restores)[n := old(restores)[n].(phase := Some(Restoring))]
      ensures queue.Abs() == Queues.Apply(old(queue.Abs()), Queues.MarkActive(key))
    {
      Patch(n, restores[n].(phase := Some(Restoring)));
      queue.MarkActive(key);
    }

    method ReconcileRestoring(n: Name, o: Observation)
      requires n in restores && restores[n].Is(Restoring)
      modifies this, queue
      ensures Stepped(n, o)
    {
      if o.jobSucceeded {
        Patch(n, restores[n].(phase := Some(Ready), versionKnown := o.versionRead));
      } else if o.jobFailed {
        Fail(n, o);
      }
    }

    method ReconcileMigrating(n: Name, o: Observation)
      requires n in restores && restores[n].Is(Migrating)
      modifies this, queue
      ensures Stepped(n, o)
    {
      if !restores[n].hasTarget {
        Patch(n, restores[n].(phase := Some(Ready)));
      } else if o.noDatabase {
        Fail(n, o);
      } else if o.migrationFinished {
        Patch(n, restores[n].(phase := Some(Ready), migrated := true));
      }
    }

    /** A restore whose Postgres version was never read first finds it out. */
    method DetectVersion(n: Name, o: Observation)
      requires n in restores && restores[n].Is(Ready) && !restores[n].versionKnown
      modifies this, queue
      ensures Stepped(n, o)
    {
      match o.detect
      case DetectAbsent =>
      case DetectRunning =>
      case DetectFailed => Fail(n, o);
      case DetectSucceeded(version) =>
        if version {
          Patch(n, restores[n].(versionKnown := true));
        } else {
          Fail(n, o);
        }
    }

    method ReconcileReady(n: Name, o: Observation)
      requires n in restores && restores[n].Is(Ready)
      modifies this, queue
      ensures Stepped(n, o)
    {
      var r := restores[n];
      if !r.versionKnown {
        DetectVersion(n, o);
      } else if o.deploymentReady {
        if r.hasTarget && !r.migrated {
          Patch(n, r.(phase := Some(Migrating)));
        } else {
          Patch(n, r.(phase := Some(Switching)));
          var _ := queue.ReleaseSlot(key, max);
        }
      } else if o.outOfTime {
        Fail(n, o);
      }
    }

    /** One reconcile of a restore; a restore that is gone has none. */
    method Reconcile(n: Name, o: Observation)
      requires n in restores
      modifies this, queue
      ensures Abs() == RestoreStep(old(Abs()), n, o)
      ensures queue.Abs() == Slots(old(queue.Abs()), key, max, old(restores[n]), restores[n])
    {
      match restores[n].phase
      case None => ReconcilePending(n, o);
      case Some(Pending) => ReconcilePending(n, o);
      case Some(Restoring) => ReconcileRestoring(n, o);
      case Some(Migrating) => ReconcileMigrating(n, o);
      case Some(Ready) => ReconcileReady(n, o);
      case Some(_) =>
    }
  }

  /** A restore that starts holds a slot from then on and waits for none; those that held one
      keep theirs, in order. */
  lemma SlotTaken(q: Queues.Queue, key: Queues.Key, max: nat, before: Restore, after: Restore)
    requires !before.Is(Restoring) && after.Is(Restoring)
    ensures var t := Slots(q, key, max, before, after);
      && key in t.active && !Queues.Waits(t.pending, key)
      && t.active == (if key in q.active then q.active else q.active + [key])
  {
    Queues.OthersWait(q.pending, key, key);
  }

  /** Any other step leaves the queue as it was. */
  lemma SlotsStay(q: Queues.Queue, key: Queues.Key, max: nat, before: Restore, after: Restore)
    requires after.phase == before.phase || after.phase in {Some(Pending), Some(Ready), Some(Migrating)}
    ensures Slots(q, key, max, before, after) == q
  { }

  /** A replica whose restore fails or goes on to switch over neither holds a slot
      afterwards nor waits for one, whoever is promoted in its place. */
  lemma SlotGivenUp(q: Queues.Queue, key: Queues.Key, max: nat, before: Restore, after: Restore)
    requires (!before.Is(Failed) && after.Is(Failed)) || (!before.Is(Switching) && after.Is(Switching))
    ensures key !in Slots(q, key, max, before, after).active
    ensures !Queues.Waits(Slots(q, key, max, before, after).pending, key)
  {
    var ops := [Queues.Remove(key), Queues.TryPromote(max)];
    var removed := Queues.Apply(q, ops[0]);
    Queues.SelectHas(q.active, {key}, false, key);
    Queues.OthersWait(q.pending, key, key);
    assert ops[1..] == [ops[1]] && ops[1..][1..] == [];
    assert Queues.Run(q, ops) == Queues.Run(removed, ops[1..]);
    assert Queues.Run(removed, ops[1..]) == Queues.Run(Queues.Apply(removed, ops[1]), []);
    if removed.pending != [] {
      assert !Queues.Waits(removed.pending, key);
      Queues.WaitsHead(removed.pending, key);
    }
  }
}
