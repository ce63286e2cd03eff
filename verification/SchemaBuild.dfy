/** The reporting-schema build as a crash-tolerant protocol. The schema a build delivers
    is held in memory; a receipt on the build's Job and a count of attempts on the
    restore are what survive a restart. Each write of a reconcile, and each half of a
    delivery, is a step of its own. */
module SchemaBuild {
  import opened Options

  newtype byte = x: int | 0 <= x < 256
  type Payload = seq<byte>
  type Token = nat

  const BUILD_ATTEMPTS := 5
  const DELIVERED_SCHEMA_MAX_AGE := 3600

  datatype Reason =
    | NoSchema | NoCanopyClient | NotTakenIn | JobFailure | SetUpFailed | NoGroup | NoRank | Unmigrated

  datatype BuildResult = BuildResult(built: bool, error: Option<Reason>, elapsed: int, bytes: Option<int>, artifacts: seq<string>)

  datatype JobStage = Running | Succeeded | Failed

  datatype BuildJob = BuildJob(token: Token, stage: JobStage, receipt: Option<nat>, deleting: bool)

  /** What of the replica and the restore a build turns on. `migrated` says the
      migration to the target version ran and no migration of it failed. */
  datatype Spec = Spec(image: bool, target: bool, migrated: bool, group: bool, rank: bool, canopy: bool)

  datatype Held = Held(payload: Payload, storedAt: int)

  /** A delivery whose token has been checked and which is not answered yet. */
  datatype Delivery = Delivery(token: Token, payload: Payload, stored: bool)

  datatype AfterRecord = Nothing | DropJob | DiscardAndDrop

  datatype Pass =
    | Idle
    | SettingUp(attempts: nat)
    | Creating
    | Read(token: Token, receipted: bool, attempts: nat)
    | Took(token: Token, sql: Payload, attempts: nat)
    | Attempting(attempt: nat, drop: bool)
    | Recording(of: Option<Token>, result: BuildResult, held: Option<Payload>, after: AfterRecord)
    | Discarding
    | Dropping

  /** `accepted` is what canopy has taken in, `posted` every body stored after its token
      was checked, `delivered` the tokens of the deliveries that were answered 204, and
      `recordedOf` the payload that the recorded result speaks of. No code reads them. */
  datatype History = History(
    accepted: set<Payload>, posted: set<Payload>, delivered: set<Token>, recordedOf: Option<Payload>)

  datatype State = State(
    spec: Spec, result: Option<BuildResult>, resultJob: Option<Token>, attempts: nat, job: Option<BuildJob>,
    store: Option<Held>, deliveries: map<nat, Delivery>, pass: Pass, now: int, nextToken: Token, history: History)

  // ----- Decisions ----------------------------------------------------------------

  datatype ToDo = Settled | NoImage | NoTarget | CannotBuild(why: Reason) | Build

  function BuildToDo(s: State): ToDo {
    if s.result.Some? then Settled
    else if !s.spec.image then NoImage
    else if !s.spec.target then NoTarget
    else if !s.spec.migrated then CannotBuild(Unmigrated)
    else if !s.spec.group then CannotBuild(NoGroup)
    else if !s.spec.rank then CannotBuild(NoRank)
    else Build
  }

  function FailedResult(why: Reason, elapsed: int, bytes: Option<int>): BuildResult {
    BuildResult(false, Some(why), elapsed, bytes, [])
  }

  /** What a Job that exited zero records. */
  function CompletedResult(sql: Option<Payload>, registration: Option<Reason>, elapsed: int, artifacts: seq<string>): BuildResult {
    BuildResult(
      sql.Some? && registration.None?,
      if registration.Some? then registration else if sql.None? then Some(NoSchema) else None,
      elapsed,
      if sql.Some? then Some(|sql.value|) else None,
      artifacts)
  }

  /** A Job that ended well with no schema held is built again only if its receipt says
      it delivered one, and only while there are attempts left. */
  predicate Rebuilds(receipted: bool, attempts: nat) { receipted && attempts < BUILD_ATTEMPTS }

  /** How the calls a reconcile makes turn out. */
  datatype Choices = Choices(
    jobRead: bool, setUp: bool, created: bool, registered: bool, artifacts: seq<string>, attemptSaved: bool,
    resultSaved: bool, jobDeleted: bool, lingers: bool, elapsed: int)

  predicate Answers(s: State) {
    BuildToDo(s).Settled? || BuildToDo(s).NoImage? || BuildToDo(s).NoTarget?
  }

  function Receipt(job: BuildJob): Option<int> {
    match job.receipt case Some(n) => Some(n) case None => None
  }

  /** A reconcile reads the restore and the Job, and decides what to do. */
  function Begin(s: State, c: Choices): State {
    match BuildToDo(s)
    case Settled => s.(store := None)
    case NoImage => s
    case NoTarget => s
    case CannotBuild(why) => s.(pass := Recording(None, FailedResult(why, 0, None), None, Nothing))
    case Build =>
      if !c.jobRead then s else
      match s.job
      case None => s.(pass := SettingUp(s.attempts))
      case Some(job) =>
        if job.deleting then s
        else match job.stage
          case Running => s
          case Succeeded => s.(pass := Read(job.token, job.receipt.Some?, s.attempts))
          case Failed => s.(pass := Recording(Some(job.token), FailedResult(JobFailure, c.elapsed, Receipt(job)), None, DiscardAndDrop))
  }

  function Keep(s: State, sql: Payload): State { s.(store := Some(Held(sql, s.now))) }

  /** The next write, or the next call, of the reconcile under way. */
  function Work(s: State, c: Choices): State {
    match s.pass
    case Idle => s
    case SettingUp(attempts) =>
      var cleared := s.(store := None);
      if c.setUp then cleared.(pass := Creating)
      else if attempts + 1 >= BUILD_ATTEMPTS then cleared.(pass := Recording(None, FailedResult(SetUpFailed, 0, None), None, Nothing))
      else cleared.(pass := Attempting(attempts + 1, false))
    case Creating =>
      if c.created && s.job.None? then
        s.(job := Some(BuildJob(s.nextToken, Running, None, false)), nextToken := s.nextToken + 1, pass := Idle)
      else s.(pass := Idle)
    case Read(token, receipted, attempts) =>
      if s.store.Some? then s.(store := None, pass := Took(token, s.store.value.payload, attempts))
      else if Rebuilds(receipted, attempts + 1) then s.(pass := Attempting(attempts + 1, true))
      else s.(pass := Recording(Some(token), CompletedResult(None, None, c.elapsed, []), None, DropJob))
    case Took(token, sql, attempts) =>
      if !s.spec.canopy then
        s.(pass := Recording(Some(token), CompletedResult(Some(sql), Some(NoCanopyClient), c.elapsed, []), Some(sql), DropJob))
      else if c.registered then
        s.(pass := Recording(Some(token), CompletedResult(Some(sql), None, c.elapsed, c.artifacts), Some(sql), DropJob),
           history := s.history.(accepted := s.history.accepted + {sql}))
      else if attempts + 1 < BUILD_ATTEMPTS then
        Keep(s, sql).(pass := Attempting(attempts + 1, false))
      else
        s.(pass := Recording(Some(token), CompletedResult(Some(sql), Some(NotTakenIn), c.elapsed, []), Some(sql), DropJob))
    case Attempting(attempt, drop) =>
      if c.attemptSaved then s.(attempts := attempt, pass := if drop then Dropping else Idle) else s.(pass := Idle)
    case Recording(of, result, held, after) =>
      if c.resultSaved then
        s.(result := Some(result), resultJob := of, history := s.history.(recordedOf := held),
           pass := match after case Nothing => Idle case DropJob => Dropping case DiscardAndDrop => Discarding)
      else if held.Some? then Keep(s, held.value).(pass := Idle)
      else s.(pass := Idle)
    case Discarding => s.(store := None, pass := Dropping)
    case Dropping =>
      if !c.jobDeleted || s.job.None? then s.(pass := Idle)
      else s.(job := if c.lingers then Some(s.job.value.(deleting := true)) else None, pass := Idle)
  }

  // ----- Everything else that happens ---------------------------------------------

  datatype Event =
    | BeginPass(choices: Choices)
    | PassWorks(choices: Choices)
    | Post(id: nat, token: Token, payload: Payload)
    | PostStores(id: nat)
    | PostAnswered(id: nat, recorded: bool)
    | JobEnds(ok: bool)
    | JobGone
    | JobExpires
    | AgeSweep
    | Restart
    | Tick(seconds: nat)

  /** A delivery is let in when its token is the standing Job's. */
  function LetIn(s: State, id: nat, token: Token, payload: Payload): State {
    if id !in s.deliveries && s.job.Some? && s.job.value.token == token then
      s.(deliveries := s.deliveries[id := Delivery(token, payload, false)])
    else s
  }

  /** Its body is read and stored. */
  function Store(s: State, id: nat): State {
    if id in s.deliveries && !s.deliveries[id].stored then
      Keep(s, s.deliveries[id].payload).(
        deliveries := s.deliveries[id := s.deliveries[id].(stored := true)],
        history := s.history.(posted := s.history.posted + {s.deliveries[id].payload}))
    else s
  }

  /** The receipt goes on whichever Job bears the name by then. The answer is 204 only
      when it was recorded; otherwise the caller is told to retry. */
  function Answer(s: State, id: nat, recorded: bool): State {
    if id !in s.deliveries || !s.deliveries[id].stored then s
    else if recorded && s.job.Some? then
      s.(deliveries := s.deliveries - {id},
         job := Some(s.job.value.(receipt := Some(|s.deliveries[id].payload|))),
         history := s.history.(delivered := s.history.delivered + {s.deliveries[id].token}))
    else s.(deliveries := s.deliveries - {id})
  }

  function Step(s: State, e: Event): State {
    match e
    case BeginPass(c) => if s.pass.Idle? then Begin(s, c) else s
    case PassWorks(c) => Work(s, c)
    case Post(id, token, payload) => LetIn(s, id, token, payload)
    case PostStores(id) => Store(s, id)
    case PostAnswered(id, recorded) => Answer(s, id, recorded)
    case JobEnds(ok) =>
      if s.job.Some? && s.job.value.stage.Running? then
        s.(job := Some(s.job.value.(stage := if ok then Succeeded else Failed)))
      else s
    case JobGone => if s.job.Some? && s.job.value.deleting then s.(job := None) else s
    case JobExpires => s.(job := None)
    case AgeSweep =>
      if s.store.Some? && s.now - s.store.value.storedAt >= DELIVERED_SCHEMA_MAX_AGE then s.(store := None) else s
    case Restart => s.(store := None, deliveries := map[], pass := Idle)
    case Tick(d) => s.(now := s.now + d)
  }

  function Run(s: State, events: seq<Event>): State
    decreases |events|
  {
    if events == [] then s else Run(Step(s, events[0]), events[1..])
  }

  predicate Along(s: State, events: seq<Event>, rule: (State, Event) -> bool)
    decreases |events|
  {
    events == [] || (rule(s, events[0]) && Along(Step(s, events[0]), events[1..], rule))
  }

  /** A restore whose build has not begun; a Job left by an earlier restore may stand. */
  predicate Initial(s: State) {
    && s.result == None && s.resultJob == None && s.attempts == 0 && s.pass == Idle && s.deliveries == map[] && s.store == None
    && (s.job.Some? ==> s.job.value.token < s.nextToken) && s.history == History({}, {}, {}, None)
  }

  // ----- Whole passes -----------------------------------------------------------------

  function Length(p: Pass): nat {
    match p
    case Idle => 0
    case SettingUp(_) => 4
    case Creating => 1
    case Read(_, _, _) => 5
    case Took(_, _, _) => 4
    case Attempting(_, _) => 2
    case Recording(_, _, _, _) => 3
    case Discarding => 2
    case Dropping => 1
  }

  /** The reconcile under way goes on to its end. */
  function Finish(s: State, c: Choices): (t: State)
    ensures t.pass.Idle?
    decreases Length(s.pass)
  {
    if s.pass.Idle? then s else Finish(Work(s, c), c)
  }

  function FullPass(s: State, c: Choices): (t: State)
    requires s.pass.Idle?
    ensures t.pass.Idle?
  {
    Finish(Begin(s, c), c)
  }

  function Works(c: Choices, n: nat): seq<Event> {
    if n == 0 then [] else [PassWorks(c)] + Works(c, n - 1)
  }

  /** Finishing a pass is a run of its steps, so what holds on every run holds of it. */
  lemma {:induction false} FinishIsRun(s: State, c: Choices, n: nat)
    requires n >= Length(s.pass)
    ensures Run(s, Works(c, n)) == Finish(s, c)
    decreases n
  {
    if n > 0 {
      assert Works(c, n)[1..] == Works(c, n - 1);
      FinishIsRun(Work(s, c), c, n - 1);
    }
  }

  lemma FullPassIsRun(s: State, c: Choices)
    requires s.pass.Idle?
    ensures FullPass(s, c) == Run(s, [BeginPass(c)] + Works(c, 5))
  {
    var events := [BeginPass(c)] + Works(c, 5);
    assert events[1..] == Works(c, 5);
    FinishIsRun(Begin(s, c), c, 5);
  }
}
