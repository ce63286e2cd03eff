/** A build Job that an earlier restore left behind. Its name is the replica's, so the next
    restore's reconcile takes it for its own. */
module SchemaLeftover {
  import opened Options
  import opened SchemaBuild
  import opened SchemaDelivery

  /** Tokens from `first` on were given to Jobs made for this restore. */
  ghost predicate Own(s: State, first: Token) {
    && first <= s.nextToken
    && (s.job.Some? && s.job.value.token < first ==> s.job.value.deleting || !Buildable(s.spec))
    && (s.pass.Read? || s.pass.Took? ==> s.pass.token >= first)
    && (s.pass.Recording? && s.pass.of.Some? ==> s.pass.of.value >= first)
    && (s.resultJob.Some? ==> s.resultJob.value >= first)
  }

  predicate Buildable(spec: Spec) { spec.image && spec.target && spec.migrated && spec.group && spec.rank }

  lemma {:induction false} OwnKept(s: State, e: Event, first: Token)
    requires Own(s, first)
    ensures Own(Step(s, e), first)
  {
    match e
    case BeginPass(c) =>
    case PassWorks(c) => WorkOwn(s, c, first);
    case Post(_, _, _) =>
    case PostStores(_) =>
    case PostAnswered(_, _) =>
    case JobEnds(_) =>
    case JobGone =>
    case JobExpires =>
    case AgeSweep =>
    case Restart =>
    case Tick(_) =>
  }

  lemma WorkOwn(s: State, c: Choices, first: Token)
    requires Own(s, first)
    ensures Own(Work(s, c), first)
  {
    match s.pass
    case Idle => case SettingUp(_) => case Creating => case Read(_, _, _) => case Took(_, _, _) =>
    case Attempting(_, _) => case Recording(_, _, _, _) => case Discarding => case Dropping =>
  }

  lemma {:induction false} RunOwn(s: State, events: seq<Event>, first: Token)
    requires Own(s, first)
    ensures Own(Run(s, events), first)
    decreases |events|
  {
    if events != [] {
      OwnKept(s, events[0], first);
      RunOwn(Step(s, events[0]), events[1..], first);
    }
  }

  /** A Job stands that was made for an earlier restore, and this one is to be built. */
  predicate TakesOver(s: State) { s.job.Some? && !s.job.value.deleting && BuildToDo(s).Build? }

  /** The recorded result is of a Job made before this restore's build began. */
  predicate OfEarlier(s: State, t: State) { t.resultJob.Some? && t.resultJob.value < s.nextToken }

  function Posting(s: State, c: Choices): seq<Event>
    requires s.job.Some?
  {
    [Post(0, s.job.value.token, []), PostStores(0), JobEnds(true), BeginPass(c)]
  }

  lemma PostingLeads(s: State, c: Choices)
    requires Initial(s) && TakesOver(s) && c.jobRead
    ensures var t := Run(s, Posting(s, c)); var k := s.job.value.token;
      t.nextToken == s.nextToken && t.result == None &&
      ((t.pass.Read? && t.pass.token == k && t.store.Some?) || (t.pass.Recording? && t.pass.of == Some(k)))
  {
    var es := Posting(s, c);
    var s1 := Step(s, es[0]);
    var s2 := Step(s1, es[1]);
    var s3 := Step(s2, es[2]);
    assert es[1..][1..] == es[2..] && es[2..][1..] == es[3..] && es[3..][1..] == [];
    assert Run(s, es) == Run(s1, es[1..]) == Run(s2, es[2..]) == Run(s3, es[3..]);
    assert Run(s3, es[3..]) == Run(Step(s3, es[3]), []);
  }

  lemma TookLeads(s: State, c: Choices)
    requires s.pass.Took? && c.resultSaved && c.registered
    ensures Finish(s, c).resultJob == Some(s.pass.token)
  {
    assert Finish(s, c) == Finish(Work(s, c), c);
    FinishRecords(Work(s, c), c);
  }

  lemma LeftoverRecorded(s: State)
    requires Initial(s) && TakesOver(s)
    ensures exists events :: OfEarlier(s, Run(s, events))
  {
    var c := AllWell;
    PostingLeads(s, c);
    var t := Run(s, Posting(s, c));
    if t.pass.Read? {
      assert Finish(t, c) == Finish(Work(t, c), c);
      TookLeads(Work(t, c), c);
    } else {
      FinishRecords(t, c);
    }
    FinishIsRun(t, c, 5);
    RunCat(s, Posting(s, c), Works(c, 5));
    assert OfEarlier(s, Run(s, Posting(s, c) + Works(c, 5)));
  }

  /** A restore's result can come to be that of an earlier restore's Job if and only if such a
      Job stands, not being deleted, when the build begins; otherwise every result that names
      a Job names one made for this restore. */
  lemma OwnResultExactly(s: State)
    requires Initial(s)
    ensures (exists events :: OfEarlier(s, Run(s, events))) <==> TakesOver(s)
  {
    if TakesOver(s) {
      LeftoverRecorded(s);
    } else {
      forall events ensures !OfEarlier(s, Run(s, events)) { RunOwn(s, events, s.nextToken); }
    }
  }

  /** One that ended well without a receipt settles this restore as having produced no schema
      in a single pass, without a Job of its own having been made. */
  lemma LeftoverSettlesEmpty(s: State, c: Choices)
    requires Initial(s) && TakesOver(s) && s.job.value.stage.Succeeded? && s.job.value.receipt.None?
    requires c.jobRead && c.resultSaved
    ensures var t := FullPass(s, c);
      && t.result.Some? && t.result.value.error == Some(NoSchema) && t.resultJob == Some(s.job.value.token)
      && t.nextToken == s.nextToken && t.attempts == 0
  {
    var b := Begin(s, c);
    assert b.pass == Read(s.job.value.token, false, 0);
    assert Finish(b, c) == Finish(Work(b, c), c);
    FinishRecords(Work(b, c), c);
    FinishMakesNone(Work(b, c), c);
  }

  lemma {:induction false} FinishMakesNone(s: State, c: Choices)
    requires !s.pass.SettingUp? && !s.pass.Creating?
    ensures Finish(s, c).nextToken == s.nextToken
    decreases Length(s.pass)
  {
    if !s.pass.Idle? { FinishMakesNone(Work(s, c), c); }
  }
}
