/** Every schema build comes to one recorded result. Set-up failures, rebuilds and failed
    registrations draw on one budget of attempts; a rank on the attempts left and the
    stage of the Job shows that the budget is enough to reach the end. */
module SchemaSettles {
  import opened Options
  import opened SchemaBuild
  import opened SchemaDelivery

  // ----- The result is final --------------------------------------------------------

  lemma {:induction false} ResultStays(s: State, e: Event)
    requires Budgeted(s) && s.result.Some?
    ensures Step(s, e).result == s.result && Step(s, e).resultJob == s.resultJob
    ensures Step(s, e).attempts == s.attempts
  {
    match e
    case BeginPass(c) =>
    case PassWorks(c) =>
    case Post(_, _, _) =>
    case PostStores(_) =>
    case PostAnswered(_, _) =>
    case JobEnds(_) =>
    case JobGone =>
    case JobExpires =>
    case AgeSweep =>
    case Restart =>
    case Tick(_) =>
  }

  lemma {:induction false} AttemptsGrow(s: State, e: Event)
    requires Budgeted(s)
    ensures s.attempts <= Step(s, e).attempts <= s.attempts + 1
  {
    match e
    case BeginPass(c) =>
    case PassWorks(c) =>
    case Post(_, _, _) =>
    case PostStores(_) =>
    case PostAnswered(_, _) =>
    case JobEnds(_) =>
    case JobGone =>
    case JobExpires =>
    case AgeSweep =>
    case Restart =>
    case Tick(_) =>
  }

  /** On every run, with Job expiries too: the attempts recorded only grow and never pass
      four, and a result, once recorded, is the result for good. */
  lemma {:induction false} RecordedOnce(s: State, events: seq<Event>)
    requires Budgeted(s)
    ensures var t := Run(s, events);
      && s.attempts <= t.attempts <= BUILD_ATTEMPTS - 1
      && (s.result.Some? ==> t.result == s.result && t.resultJob == s.resultJob)
    decreases |events|
  {
    if events != [] {
      BudgetedKept(s, events[0]);
      AttemptsGrow(s, events[0]);
      if s.result.Some? { ResultStays(s, events[0]); }
      RecordedOnce(Step(s, events[0]), events[1..]);
    }
  }

  // ----- The rank -------------------------------------------------------------------

  /** How far the round in hand still is from the Job's outcome. */
  function Stage(s: State): nat {
    if s.pass.Dropping? then 3
    else match s.job
      case None => 2
      case Some(job) => if job.deleting then 3 else if job.stage.Running? then 1 else 0
  }

  function Rank(s: State): nat {
    if s.result.Some? then 0 else 1 + 4 * (if s.attempts < 4 then 4 - s.attempts else 0) + Stage(s)
  }

  /** A pass that is dropping or has read a Job has one to drop or read. */
  ghost predicate Attended(s: State) {
    s.result.None? && (s.pass.Dropping? || s.pass.Read? || s.pass.Took? || (s.pass.Attempting? && s.pass.drop)) ==>
      s.job.Some? && !s.job.value.deleting && s.job.value.stage.Succeeded?
  }

  lemma {:induction false} AttendedKept(s: State, e: Event)
    requires Budgeted(s) && Attended(s) && !e.JobExpires?
    ensures Attended(Step(s, e))
  {
    match e
    case BeginPass(c) =>
    case PassWorks(c) =>
    case Post(_, _, _) =>
    case PostStores(_) =>
    case PostAnswered(_, _) =>
    case JobEnds(_) =>
    case JobGone =>
    case AgeSweep =>
    case Restart =>
    case Tick(_) =>
  }

  lemma {:induction false} WorkLowers(s: State, c: Choices)
    requires Budgeted(s) && Attended(s)
    ensures Rank(Work(s, c)) <= Rank(s)
  {
    match s.pass
    case Idle => case SettingUp(_) => case Creating => case Read(_, _, _) => case Took(_, _, _) =>
    case Attempting(_, _) => case Recording(_, _, _, _) => case Discarding => case Dropping =>
  }

  /** Short of a Job expiring, nothing sets a build back: not a restart, a failed write, a
      lost payload or a failed registration. */
  lemma {:induction false} RankNeverRises(s: State, e: Event)
    requires Budgeted(s) && Attended(s) && !e.JobExpires?
    ensures Rank(Step(s, e)) <= Rank(s)
  {
    match e
    case BeginPass(c) =>
    case PassWorks(c) => WorkLowers(s, c);
    case Post(_, _, _) =>
    case PostStores(_) =>
    case PostAnswered(_, _) =>
    case JobEnds(_) =>
    case JobGone =>
    case AgeSweep =>
    case Restart =>
    case Tick(_) =>
  }

  predicate NoExpiry(events: seq<Event>) { forall i :: 0 <= i < |events| ==> !events[i].JobExpires? }

  lemma {:induction false} RunNeverRises(s: State, events: seq<Event>)
    requires Budgeted(s) && Attended(s) && NoExpiry(events)
    ensures var t := Run(s, events); Budgeted(t) && Attended(t) && Rank(t) <= Rank(s) && t.spec == s.spec
    decreases |events|
  {
    if events != [] {
      BudgetedKept(s, events[0]);
      AttendedKept(s, events[0]);
      RankNeverRises(s, events[0]);
      RunNeverRises(Step(s, events[0]), events[1..]);
    }
  }

  // ----- Whole passes -----------------------------------------------------------------

  /** Everything the pass writes goes through; what it asks of others may still fail. */
  predicate Saves(c: Choices) { c.jobRead && c.created && c.attemptSaved && c.resultSaved && c.jobDeleted }

  predicate Waiting(s: State) { s.job.Some? && (s.job.value.deleting || s.job.value.stage.Running?) }

  lemma {:induction false} FinishNeverRises(s: State, c: Choices)
    requires Budgeted(s) && Attended(s)
    ensures var t := Finish(s, c); Budgeted(t) && Attended(t) && Rank(t) <= Rank(s) && t.spec == s.spec
    decreases Length(s.pass)
  {
    if !s.pass.Idle? {
      var e := PassWorks(c);
      BudgetedKept(s, e);
      AttendedKept(s, e);
      WorkLowers(s, c);
      FinishNeverRises(Work(s, c), c);
    }
  }

  /** The pass has a write ahead of it that lowers the rank. */
  lemma {:induction false} FinishLowers(s: State, c: Choices)
    requires Budgeted(s) && Attended(s) && Saves(c) && s.result.None?
    requires !s.pass.Idle? && !s.pass.Discarding? && !s.pass.Dropping? && (s.pass.Creating? ==> s.job.None?)
    requires s.pass.SettingUp? ==> s.job.None?
    ensures Rank(Finish(s, c)) < Rank(s)
    decreases Length(s.pass)
  {
    var t := Work(s, c);
    BudgetedKept(s, PassWorks(c));
    AttendedKept(s, PassWorks(c));
    if s.pass.Creating? || s.pass.Attempting? || s.pass.Recording? {
      assert Rank(t) < Rank(s);
      FinishNeverRises(t, c);
    } else {
      WorkLowers(s, c);
      FinishLowers(t, c);
    }
  }

  /** A pass whose own writes go through, over a build not yet recorded and not waiting for
      its Job, brings it nearer the end. */
  lemma {:induction false} FullPassLowers(s: State, c: Choices)
    requires Budgeted(s) && Attended(s) && s.pass.Idle? && Saves(c) && s.spec.image && s.spec.target
    requires s.result.None? && (BuildToDo(s).Build? ==> !Waiting(s))
    ensures Rank(FullPass(s, c)) < Rank(s)
  {
    var b := Begin(s, c);
    BudgetedKept(s, BeginPass(c));
    AttendedKept(s, BeginPass(c));
    assert Rank(b) <= Rank(s);
    FinishLowers(b, c);
  }

  // ----- The budget is shared -----------------------------------------------------------

  /** Every Job after the first was paid for with an attempt. */
  ghost predicate PaidFor(s: State, first: Token) {
    s.nextToken <= first + s.attempts
      + (if s.result.Some? || (s.job.Some? && !s.job.value.deleting && !s.pass.Dropping?) then 1 else 0)
  }

  lemma {:induction false} PaidForKept(s: State, e: Event, first: Token)
    requires Budgeted(s) && Attended(s) && !e.JobExpires? && PaidFor(s, first)
    ensures PaidFor(Step(s, e), first)
  {
    match e
    case BeginPass(c) =>
    case PassWorks(c) =>
      match s.pass {
        case Idle => case SettingUp(_) => case Creating => case Read(_, _, _) => case Took(_, _, _) =>
        case Attempting(_, _) => case Recording(_, _, _, _) => case Discarding => case Dropping =>
      }
    case Post(_, _, _) =>
    case PostStores(_) =>
    case PostAnswered(_, _) =>
    case JobEnds(_) =>
    case JobGone =>
    case AgeSweep =>
    case Restart =>
    case Tick(_) =>
  }

  lemma {:induction false} RunPaidFor(s: State, events: seq<Event>, first: Token)
    requires Budgeted(s) && Attended(s) && NoExpiry(events) && PaidFor(s, first)
    ensures PaidFor(Run(s, events), first)
    decreases |events|
  {
    if events != [] {
      BudgetedKept(s, events[0]);
      AttendedKept(s, events[0]);
      PaidForKept(s, events[0], first);
      RunPaidFor(Step(s, events[0]), events[1..], first);
    }
  }

  /** One build runs at most five Jobs, and each one beyond the first has cost it an
      attempt that set-up and registration can no longer use. */
  lemma AtMostFiveJobs(s: State, events: seq<Event>)
    requires Initial(s) && NoExpiry(events)
    ensures var t := Run(s, events); t.nextToken - s.nextToken <= t.attempts + 1 <= BUILD_ATTEMPTS
  {
    RunPaidFor(s, events, s.nextToken);
    RunNeverRises(s, events);
  }

  // ----- Every build settles ------------------------------------------------------------

  /** Anything at all but a Job expiring, and then a pass whose writes go through. */
  datatype Round = Round(between: seq<Event>, choices: Choices)

  /** What the round's events lead to is a build that no pass is at work on and that does
      not wait for its Job. */
  ghost predicate Productive(s: State, r: Round) {
    && NoExpiry(r.between) && Saves(r.choices)
    && var t := Run(s, r.between); t.pass.Idle? && (BuildToDo(t).Build? ==> !Waiting(t))
  }

  ghost function After(s: State, r: Round): State
    requires Productive(s, r)
  {
    FullPass(Run(s, r.between), r.choices)
  }

  ghost predicate AllProductive(s: State, rounds: seq<Round>)
    decreases |rounds|
  {
    rounds == [] || (Productive(s, rounds[0]) && AllProductive(After(s, rounds[0]), rounds[1..]))
  }

  ghost function AfterAll(s: State, rounds: seq<Round>): State
    requires AllProductive(s, rounds)
    decreases |rounds|
  {
    if rounds == [] then s else AfterAll(After(s, rounds[0]), rounds[1..])
  }

  lemma {:induction false} RoundLowers(s: State, r: Round)
    requires Budgeted(s) && Attended(s) && s.spec.image && s.spec.target && Productive(s, r)
    ensures var t := After(s, r);
      Budgeted(t) && Attended(t) && t.spec == s.spec && (Rank(t) < Rank(s) || t.result.Some?)
  {
    RunNeverRises(s, r.between);
    var m := Run(s, r.between);
    BudgetedKept(m, BeginPass(r.choices));
    AttendedKept(m, BeginPass(r.choices));
    FinishNeverRises(Begin(m, r.choices), r.choices);
    if m.result.None? {
      FullPassLowers(m, r.choices);
    } else {
      assert Begin(m, r.choices).pass.Idle?;
    }
  }

  lemma {:induction false} RoundsLower(s: State, rounds: seq<Round>)
    requires Budgeted(s) && Attended(s) && s.spec.image && s.spec.target && AllProductive(s, rounds)
    ensures var t := AfterAll(s, rounds); t.result.Some? || Rank(t) + |rounds| <= Rank(s)
    decreases |rounds|
  {
    if rounds != [] {
      RoundLowers(s, rounds[0]);
      RoundsLower(After(s, rounds[0]), rounds[1..]);
      if After(s, rounds[0]).result.Some? {
        assert Rank(After(s, rounds[0])) == 0;
      }
    }
  }

  /** Twenty passes whose writes go through settle every build, however restarts, lost
      payloads, failed set-ups and failed registrations fall between and within them. */
  lemma EveryBuildSettles(s: State, rounds: seq<Round>)
    requires Initial(s) && s.spec.image && s.spec.target && AllProductive(s, rounds) && |rounds| >= 20
    ensures AfterAll(s, rounds).result.Some?
  {
    RoundsLower(s, rounds);
  }

  /** A restore with a builder image and a target version passes the gate if and only if it
      carried its result when the pass read it. So the pass that records the result does not
      let it through, and the one after it does. */
  lemma AnswersOnlyRecorded(s: State, events: seq<Event>, c: Choices)
    requires Initial(s) && s.spec.image && s.spec.target && Run(s, events).pass.Idle?
    ensures var m := Run(s, events);
      && (Answers(m) <==> m.result.Some?)
      && (m.result.None? && FullPass(m, c).result.Some? ==> !Answers(m) && Answers(FullPass(m, c)))
      && (m.result.Some? ==> FullPass(m, c).result == m.result && Answers(FullPass(m, c)))
  {
    SpecStays(s, events);
    var m := Run(s, events);
    FullPassIsRun(m, c);
    var pass := [BeginPass(c)] + Works(c, 5);
    SpecStays(m, pass);
    RecordedOnce(s, events);
    RunSound(s, events);
    RecordedOnce(m, pass);
  }

  lemma {:induction false} SpecStays(s: State, events: seq<Event>)
    ensures Run(s, events).spec == s.spec
    decreases |events|
  {
    if events != [] {
      SpecStays(Step(s, events[0]), events[1..]);
    }
  }
}
