/** What one reconcile of a schema build comes to, case by case, told from what it read and
    how its calls turned out. */
module SchemaOutcomes {
  import opened Options
  import opened SchemaBuild
  import opened SchemaLeftover

  /** A restore with an image and a target, whose result is not recorded yet. */
  predicate Unsettled(s: State) { s.pass.Idle? && s.result.None? && s.spec.image && s.spec.target }

  /** It is to be built, and its Job can be read. */
  predicate Builds(s: State, c: Choices) { Unsettled(s) && Buildable(s.spec) && c.jobRead }

  predicate Ended(s: State, stage: JobStage) { s.job.Some? && !s.job.value.deleting && s.job.value.stage == stage }

  function Dropped(s: State, c: Choices): Option<BuildJob> {
    if !c.jobDeleted || s.job.None? then s.job
    else if c.lingers then Some(s.job.value.(deleting := true)) else None
  }

  function Recorded(s: State, r: BuildResult, of: Option<Token>, sql: Option<Payload>): State {
    s.(result := Some(r), resultJob := of, history := s.history.(recordedOf := sql))
  }

  function Failure(why: Reason, elapsed: int, bytes: Option<int>): BuildResult {
    BuildResult(built := false, error := Some(why), elapsed := elapsed, bytes := bytes, artifacts := [])
  }

  /** A recorded result stays, and a schema posted since is let go. */
  lemma SettledStays(s: State, c: Choices)
    requires s.pass.Idle? && s.result.Some?
    ensures FullPass(s, c) == s.(store := None)
  { }

  /** A restore with no image or no target is no concern of the build. */
  lemma NoConcern(s: State, c: Choices)
    requires s.pass.Idle? && s.result.None? && (!s.spec.image || !s.spec.target)
    ensures FullPass(s, c) == s
  { }

  /** One that cannot be built is recorded as failed for the first of the reasons that holds,
      and names no Job. */
  lemma CannotBeBuilt(s: State, c: Choices)
    requires Unsettled(s) && !Buildable(s.spec)
    ensures var why := if !s.spec.migrated then Unmigrated else if !s.spec.group then NoGroup else NoRank;
      FullPass(s, c) == if c.resultSaved then Recorded(s, Failure(why, 0, None), None, None) else s
  {
    var b := Begin(s, c);
    assert Finish(b, c) == Finish(Work(b, c), c) == Work(b, c);
  }

  /** A Job that runs, is being deleted or cannot be read is waited for. */
  lemma Waited(s: State, c: Choices)
    requires Unsettled(s) && Buildable(s.spec)
    requires !c.jobRead || (s.job.Some? && (s.job.value.deleting || s.job.value.stage.Running?))
    ensures FullPass(s, c) == s
  { }

  /** With no Job, one is made with a token of its own; whatever was held is let go first. */
  lemma Started(s: State, c: Choices)
    requires Builds(s, c) && s.job.None? && c.setUp
    ensures FullPass(s, c) ==
      if c.created then s.(store := None, job := Some(BuildJob(s.nextToken, Running, None, false)), nextToken := s.nextToken + 1)
      else s.(store := None)
  {
    var b := Begin(s, c);
    var w := Work(b, c);
    assert Finish(b, c) == Finish(w, c);
    assert Finish(w, c) == Finish(Work(w, c), c) == Work(w, c);
  }

  /** A set-up that fails costs an attempt, and the fifth records the failure. */
  lemma SetUpFails(s: State, c: Choices)
    requires Builds(s, c) && s.job.None? && !c.setUp
    ensures var cleared := s.(store := None);
      FullPass(s, c) ==
        if s.attempts + 1 < 5 then (if c.attemptSaved then cleared.(attempts := s.attempts + 1) else cleared)
        else (if c.resultSaved then Recorded(cleared, Failure(SetUpFailed, 0, None), None, None) else cleared)
  {
    var b := Begin(s, c);
    var w := Work(b, c);
    assert Finish(b, c) == Finish(w, c);
    assert Finish(w, c) == Finish(Work(w, c), c) == Work(w, c);
  }

  /** What recording a result with the schema in hand comes to. */
  lemma RecordsHeld(s: State, r: BuildResult, k: Token, p: Payload, c: Choices)
    ensures Finish(s.(pass := Recording(Some(k), r, Some(p), DropJob)), c) ==
      if c.resultSaved then Recorded(s, r, Some(k), Some(p)).(job := Dropped(s, c), pass := Idle)
      else s.(store := Some(Held(p, s.now)), pass := Idle)
  {
    var b := s.(pass := Recording(Some(k), r, Some(p), DropJob));
    var w := Work(b, c);
    assert Finish(b, c) == Finish(w, c);
    if c.resultSaved { assert Finish(w, c) == Finish(Work(w, c), c) == Work(w, c); }
  }

  lemma TakesHeld(s: State, c: Choices)
    requires Builds(s, c) && Ended(s, Succeeded) && s.store.Some?
    ensures FullPass(s, c) ==
      Finish(Work(s.(store := None, pass := Took(s.job.value.token, s.store.value.payload, s.attempts)), c), c)
  {
    var b := Begin(s, c);
    var w := Work(b, c);
    assert Finish(b, c) == Finish(w, c);
    assert Finish(w, c) == Finish(Work(w, c), c);
  }

  /** A Job that ended well with its schema held, taken in by canopy: recorded as built, with
      the schema's length and what canopy answered. Where the record is not saved the schema
      is held again. */
  lemma TakenIn(s: State, c: Choices, p: Payload)
    requires Builds(s, c) && Ended(s, Succeeded) && s.store.Some? && s.store.value.payload == p
    requires s.spec.canopy && c.registered
    ensures var after := s.(store := None, history := s.history.(accepted := s.history.accepted + {p}));
      FullPass(s, c) ==
        if c.resultSaved
        then Recorded(after, BuildResult(built := true, error := None, elapsed := c.elapsed, bytes := Some(|p|), artifacts := c.artifacts),
                      Some(s.job.value.token), Some(p)).(job := Dropped(s, c))
        else after.(store := Some(Held(p, s.now)))
  {
    TakesHeld(s, c);
    var after := s.(store := None, history := s.history.(accepted := s.history.accepted + {p}));
    var r := BuildResult(true, None, c.elapsed, Some(|p|), c.artifacts);
    RecordsHeld(after, r, s.job.value.token, p, c);
  }

  /** One that canopy does not take in is held for another attempt, and recorded as not built
      on the fifth; with no canopy client it is recorded at once. */
  lemma NotTaken(s: State, c: Choices, p: Payload)
    requires Builds(s, c) && Ended(s, Succeeded) && s.store.Some? && s.store.value.payload == p
    requires !s.spec.canopy || !c.registered
    ensures var held := s.(store := Some(Held(p, s.now)));
      var why := if s.spec.canopy then NotTakenIn else NoCanopyClient;
      FullPass(s, c) ==
        if s.spec.canopy && s.attempts + 1 < 5 then (if c.attemptSaved then held.(attempts := s.attempts + 1) else held)
        else if !c.resultSaved then held
        else Recorded(s, Failure(why, c.elapsed, Some(|p|)), Some(s.job.value.token), Some(p)).(store := None, job := Dropped(s, c))
  {
    TakesHeld(s, c);
    var after, k := s.(store := None), s.job.value.token;
    if !s.spec.canopy {
      RecordsHeld(after, Failure(NoCanopyClient, c.elapsed, Some(|p|)), k, p, c);
    } else if s.attempts + 1 < 5 {
      var w := Work(after.(pass := Took(k, p, s.attempts)), c);
      assert Finish(w, c) == Finish(Work(w, c), c) == Work(w, c);
    } else {
      RecordsHeld(after, Failure(NotTakenIn, c.elapsed, Some(|p|)), k, p, c);
    }
  }

  /** A Job that ended well with nothing held is built again where its receipt says it delivered
      and an attempt is left, and is recorded as having produced no schema otherwise. */
  lemma NothingHeld(s: State, c: Choices)
    requires Builds(s, c) && Ended(s, Succeeded) && s.store.None?
    ensures FullPass(s, c) ==
      if s.job.value.receipt.Some? && s.attempts + 1 < 5
      then (if c.attemptSaved then s.(attempts := s.attempts + 1, job := Dropped(s, c)) else s)
      else if c.resultSaved
      then Recorded(s, Failure(NoSchema, c.elapsed, None), Some(s.job.value.token), None).(job := Dropped(s, c))
      else s
  {
    var b := Begin(s, c);
    var w := Work(b, c);
    var x := Work(w, c);
    assert Finish(b, c) == Finish(w, c) == Finish(x, c);
    assert Finish(x, c) == Finish(Work(x, c), c);
    assert x.pass.Dropping? ==> Work(x, c).pass.Idle?;
  }

  /** A Job that failed is recorded with the length it had delivered, if any. */
  lemma JobFails(s: State, c: Choices)
    requires Builds(s, c) && Ended(s, Failed)
    ensures FullPass(s, c) ==
      if c.resultSaved
      then Recorded(s, Failure(JobFailure, c.elapsed, Receipt(s.job.value)), Some(s.job.value.token), None)
             .(store := None, job := Dropped(s, c))
      else s
  {
    var b := Begin(s, c);
    var w := Work(b, c);
    assert Finish(b, c) == Finish(w, c);
    if c.resultSaved {
      var x := Work(w, c);
      assert Finish(w, c) == Finish(x, c);
      assert Finish(x, c) == Finish(Work(x, c), c) == Work(x, c);
    }
  }

  /** A delivery answered 204, and its Job failing afterwards, leave its length on record. */
  lemma DeliveredThenFailed(s: State, id: nat, c: Choices)
    requires Builds(s, c) && Ended(s, Running) && id in s.deliveries && s.deliveries[id].stored && c.resultSaved
    ensures var t := FullPass(Step(Step(s, PostAnswered(id, true)), JobEnds(false)), c);
      t.result == Some(Failure(JobFailure, c.elapsed, Some(|s.deliveries[id].payload|))) && t.store == None
  {
    JobFails(Step(Step(s, PostAnswered(id, true)), JobEnds(false)), c);
  }

  /** A delivery counts as answered 204 if and only if its body was stored and its receipt went
      on a Job that stands; the receipt states the body's length. */
  lemma AnsweredExactly(s: State, id: nat, recorded: bool)
    requires id in s.deliveries && s.deliveries[id].token !in s.history.delivered
    ensures var t := Step(s, PostAnswered(id, recorded));
      && (s.deliveries[id].token in t.history.delivered <==> s.deliveries[id].stored && recorded && s.job.Some?)
      && (s.deliveries[id].token in t.history.delivered ==>
            t.job == Some(s.job.value.(receipt := Some(|s.deliveries[id].payload|))))
  { }

  /** A delivery answered 204 and then lost to a restart of the operator is built again, at
      the cost of an attempt, while one is left. */
  lemma LostThenRebuilt(s: State, id: nat, c: Choices)
    requires Builds(s, c) && Ended(s, Running) && id in s.deliveries && s.deliveries[id].stored
    requires s.attempts + 1 < 5 && c.attemptSaved
    ensures var ended := Step(Step(s, PostAnswered(id, true)), JobEnds(true));
      var t := FullPass(Step(ended, Restart), c);
      t.result == None && t.attempts == s.attempts + 1 && t.job == Dropped(ended, c) && t.store == None
  {
    var ended := Step(Step(s, PostAnswered(id, true)), JobEnds(true));
    NothingHeld(Step(ended, Restart), c);
  }

  /** What is held is let go by the age sweep if and only if it is an hour old. */
  lemma SweptExactly(s: State)
    requires s.store.Some?
    ensures Step(s, AgeSweep) == if s.now - s.store.value.storedAt >= 3600 then s.(store := None) else s
  { }

  /** A post is let in if and only if it bears the token of the Job that stands; any other
      changes nothing. */
  lemma LetInExactly(s: State, id: nat, token: Token, p: Payload)
    requires id !in s.deliveries
    ensures var t := Step(s, Post(id, token, p));
      && (id in t.deliveries <==> s.job.Some? && s.job.value.token == token)
      && (id in t.deliveries ==> t.deliveries[id] == Delivery(token, p, false))
      && t == s.(deliveries := t.deliveries) && t.deliveries - {id} == s.deliveries
  { }

  // ----- Built, or an error ------------------------------------------------------------------

  predicate Decided(r: BuildResult) { r.built <==> r.error == None }

  predicate AllDecided(s: State) {
    (s.result.Some? ==> Decided(s.result.value)) && (s.pass.Recording? ==> Decided(s.pass.result))
  }

  lemma {:induction false} DecidedKept(s: State, e: Event)
    requires AllDecided(s)
    ensures AllDecided(Step(s, e))
  {
    match e
    case BeginPass(c) =>
    case PassWorks(c) =>
    case Post(_, _, _) =>
    case PostStores(_) =>
    case PostAnswered(_, _) =>
    case JobEnds(_) =>
    case JobGone =>
    case JobExpires =>
    case AgeSweep =>
    case Restart =>
    case Tick(_) =>
  }

  lemma {:induction false} RunDecided(s: State, events: seq<Event>)
    requires AllDecided(s)
    ensures AllDecided(Run(s, events))
    decreases |events|
  {
    if events != [] {
      DecidedKept(s, events[0]);
      RunDecided(Step(s, events[0]), events[1..]);
    }
  }

  /** On every run a recorded result is either built or states an error, never both or neither. */
  lemma BuiltOrError(s: State, events: seq<Event>)
    requires Initial(s)
    ensures var t := Run(s, events); t.result.Some? ==> (t.result.value.built <==> t.result.value.error == None)
  {
    RunDecided(s, events);
  }
}
