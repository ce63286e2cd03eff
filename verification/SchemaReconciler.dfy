/** The reconcile that drives a schema build, as it updates the restore's status, the Job
    and the callback store in turn. It is proved to be the whole pass of the protocol. */
module SchemaReconciler {
  import opened Options
  import opened CallbackStores
  import opened SchemaBuild

  class Reconciler {
    const namespace: string
    const replica: string
    const spec: Spec
    const callbacks: CallbackStore<Payload>

    var result: Option<BuildResult>
    var resultJob: Option<Token>
    var attempts: nat
    var job: Option<BuildJob>
    var nextToken: Token
    var now: int
    ghost var deliveries: map<nat, Delivery>
    ghost var history: History

    constructor (namespace: string, replica: string, spec: Spec, callbacks: CallbackStore<Payload>,
                 job: Option<BuildJob>, nextToken: Token, now: int)
      requires job.Some? ==> job.value.token < nextToken
      requires KeyOf(namespace, replica) !in callbacks.inner
      ensures this.callbacks == callbacks && this.spec == spec && Initial(Abs())
    {
      this.namespace, this.replica, this.spec, this.callbacks := namespace, replica, spec, callbacks;
      result, resultJob, attempts := None, None, 0;
      this.job, this.nextToken, this.now := job, nextToken, now;
      deliveries, history := map[], History({}, {}, {}, None);
    }

    ghost function Stored(): Option<Held>
      reads this, callbacks
    {
      var key := KeyOf(namespace, replica);
      if key in callbacks.inner then Some(Held(callbacks.inner[key].data, callbacks.inner[key].storedAt)) else None
    }

    ghost function Abs(): State
      reads this, callbacks
    {
      State(spec, result, resultJob, attempts, job, Stored(), deliveries, Idle, now, nextToken, history)
    }

    /** A pass in the middle of its work. */
    ghost function At(p: Pass): State
      reads this, callbacks
    {
      Abs().(pass := p)
    }

    method KeepSchema(sql: Payload)
      modifies callbacks
      ensures Abs() == Keep(old(Abs()), sql)
    {
      callbacks.Store(namespace, replica, sql, now);
    }

    method DropSchema()
      modifies callbacks
      ensures Abs() == old(Abs()).(store := None)
    {
      var _ := callbacks.Take(namespace, replica);
    }

    /** The call may fail, and then nothing is recorded. */
    method RecordAttempt(attempt: nat, c: Choices) returns (saved: bool)
      modifies this`attempts
      ensures saved == c.attemptSaved
      ensures Abs() == if saved then old(Abs()).(attempts := attempt) else old(Abs())
    {
      saved := c.attemptSaved;
      if saved { attempts := attempt; }
    }

    method RecordResult(of: Option<Token>, r: BuildResult, ghost held: Option<Payload>, c: Choices) returns (saved: bool)
      modifies this`result, this`resultJob, this`history
      ensures saved == c.resultSaved
      ensures Abs() == (if saved
                        then old(Abs()).(result := Some(r), resultJob := of, history := old(history).(recordedOf := held))
                        else old(Abs()))
    {
      saved := c.resultSaved;
      if saved {
        result, resultJob := Some(r), of;
        history := history.(recordedOf := held);
      }
    }

    /** Best effort: a Job that could not be deleted is left behind. */
    method DeleteJob(c: Choices)
      modifies this`job
      ensures Abs() == Finish(old(At(Dropping)), c)
    {
      if c.jobDeleted && job.Some? {
        job := if c.lingers then Some(job.value.(deleting := true)) else None;
      }
    }

    method SettleFailed(why: Reason, c: Choices)
      modifies this`result, this`resultJob, this`history
      ensures Abs() == Finish(old(At(Recording(None, FailedResult(why, 0, None), None, Nothing))), c)
    {
      var _ := RecordResult(None, FailedResult(why, 0, None), None, c);
    }

    method RetryOrSettle(c: Choices)
      modifies this`result, this`resultJob, this`history, this`attempts
      ensures var s := old(Abs());
        Abs() == Finish(s.(pass := if s.attempts + 1 >= BUILD_ATTEMPTS
                                   then Recording(None, FailedResult(SetUpFailed, 0, None), None, Nothing)
                                   else Attempting(s.attempts + 1, false)), c)
    {
      if attempts + 1 >= BUILD_ATTEMPTS {
        SettleFailed(SetUpFailed, c);
      } else {
        var _ := RecordAttempt(attempts + 1, c);
      }
    }

    method Rebuild(c: Choices)
      modifies this`attempts, this`job
      ensures Abs() == Finish(old(At(Attempting(attempts + 1, true))), c)
    {
      var saved := RecordAttempt(attempts + 1, c);
      if saved { DeleteJob(c); }
    }

    method SettleEmpty(token: Token, c: Choices)
      modifies this`result, this`resultJob, this`history, this`job
      ensures Abs() == Finish(old(At(Recording(Some(token), CompletedResult(None, None, c.elapsed, []), None, DropJob))), c)
    {
      var saved := RecordResult(Some(token), CompletedResult(None, None, c.elapsed, []), None, c);
      if saved { DeleteJob(c); }
    }

    /** A schema whose result could not be recorded is put back. */
    method SettleBuilt(token: Token, r: BuildResult, sql: Payload, c: Choices)
      modifies this`result, this`resultJob, this`history, this`job, callbacks
      ensures Abs() == Finish(old(At(Recording(Some(token), r, Some(sql), DropJob))), c)
    {
      var saved := RecordResult(Some(token), r, Some(sql), c);
      if saved { DeleteJob(c); } else { KeepSchema(sql); }
    }

    method Register(token: Token, sql: Payload, c: Choices)
      modifies this`result, this`resultJob, this`history, this`attempts, this`job, callbacks
      ensures Abs() == Finish(old(At(Took(token, sql, attempts))), c)
    {
      ghost var w := Work(At(Took(token, sql, attempts)), c);
      assert Finish(w, c) == Finish(At(Took(token, sql, attempts)), c);
      if !spec.canopy {
        SettleBuilt(token, CompletedResult(Some(sql), Some(NoCanopyClient), c.elapsed, []), sql, c);
      } else if c.registered {
        history := history.(accepted := history.accepted + {sql});
        SettleBuilt(token, CompletedResult(Some(sql), None, c.elapsed, c.artifacts), sql, c);
      } else if attempts + 1 < BUILD_ATTEMPTS {
        KeepSchema(sql);
        var _ := RecordAttempt(attempts + 1, c);
        assert Abs() == Work(w, c) && Finish(Work(w, c), c) == Work(w, c);
      } else {
        SettleBuilt(token, CompletedResult(Some(sql), Some(NotTakenIn), c.elapsed, []), sql, c);
      }
    }

    method OnSucceeded(token: Token, receipted: bool, c: Choices)
      modifies this`result, this`resultJob, this`history, this`attempts, this`job, callbacks
      ensures Abs() == Finish(old(At(Read(token, receipted, attempts))), c)
    {
      var sql := callbacks.Take(namespace, replica);
      if sql.Some? {
        Register(token, sql.value, c);
      } else if Rebuilds(receipted, attempts + 1) {
        Rebuild(c);
      } else {
        SettleEmpty(token, c);
      }
    }

    method OnFailed(j: BuildJob, c: Choices)
      modifies this`result, this`resultJob, this`history, this`job, callbacks
      ensures Abs() == Finish(old(At(Recording(Some(j.token), FailedResult(JobFailure, c.elapsed, Receipt(j)), None, DiscardAndDrop))), c)
    {
      var saved := RecordResult(Some(j.token), FailedResult(JobFailure, c.elapsed, Receipt(j)), None, c);
      if saved {
        DropSchema();
        DeleteJob(c);
      }
    }

    method OnNotStarted(c: Choices)
      requires job.None?
      modifies this`result, this`resultJob, this`history, this`attempts, this`job, this`nextToken, callbacks
      ensures Abs() == Finish(old(At(SettingUp(attempts))), c)
    {
      ghost var w := Work(At(SettingUp(attempts)), c);
      assert Finish(w, c) == Finish(At(SettingUp(attempts)), c);
      DropSchema();
      if !c.setUp {
        RetryOrSettle(c);
      } else if c.created {
        job, nextToken := Some(BuildJob(nextToken, Running, None, false)), nextToken + 1;
      }
      assert c.setUp ==> Abs() == Work(w, c) && Finish(Work(w, c), c) == Work(w, c);
    }

    /** Whether the switchover may proceed. It answers from what it read before it wrote. */
    method Reconcile(c: Choices) returns (proceed: bool)
      modifies this, callbacks
      ensures Abs() == FullPass(old(Abs()), c)
      ensures proceed <==> old(Answers(Abs()))
    {
      proceed := false;
      if result.Some? {
        DropSchema();
        proceed := true;
      } else if !spec.image || !spec.target {
        proceed := true;
      } else if !spec.migrated {
        SettleFailed(Unmigrated, c);
      } else if !spec.group {
        SettleFailed(NoGroup, c);
      } else if !spec.rank {
        SettleFailed(NoRank, c);
      } else if c.jobRead {
        if job.None? {
          OnNotStarted(c);
        } else if !job.value.deleting && job.value.stage.Succeeded? {
          OnSucceeded(job.value.token, job.value.receipt.Some?, c);
        } else if !job.value.deleting && job.value.stage.Failed? {
          OnFailed(job.value, c);
        }
      }
    }
  }
}
