/** What becomes of a delivered schema. A delivery answered 204 is not recorded as a build
    that produced no schema while attempts are left, and a build is recorded as built only
    on bytes that canopy took in. */
module SchemaDelivery {
  import opened Options
  import opened SchemaBuild

  // ----- What every step keeps ------------------------------------------------------

  /** The attempts a pass works from are the ones recorded, and nothing but tidying up
      goes on once there is a result. */
  ghost predicate Budgeted(s: State) {
    && s.attempts < BUILD_ATTEMPTS
    && match s.pass
       case Idle => true
       case SettingUp(attempts) => s.result.None? && attempts == s.attempts
       case Creating => s.result.None?
       case Read(_, _, attempts) => s.result.None? && attempts == s.attempts
       case Took(_, _, attempts) => s.result.None? && attempts == s.attempts
       case Attempting(attempt, _) => s.result.None? && attempt == s.attempts + 1 < BUILD_ATTEMPTS
       case Recording(_, _, _, _) => s.result.None?
       case Discarding => s.result.Some?
       case Dropping => true
  }

  /** Tokens are given out once. */
  ghost predicate Minted(s: State) {
    && (s.job.Some? ==> s.job.value.token < s.nextToken)
    && (forall id <- s.deliveries :: s.deliveries[id].token < s.nextToken)
    && (forall k <- s.history.delivered :: k < s.nextToken)
  }

  /** A Job whose delivery was answered 204 bears a receipt. */
  ghost predicate Receipted(s: State) {
    s.job.Some? && s.job.value.token in s.history.delivered ==> s.job.value.receipt.Some?
  }

  /** A result recorded or about to be recorded as built speaks of bytes canopy took in. */
  ghost predicate BuiltOn(r: BuildResult, of: Option<Payload>, taken: set<Payload>) {
    r.built ==> r.error.None? && of.Some? && of.value in taken && r.bytes == Some(|of.value|)
  }

  /** Every payload came in through the callback, with a token that was checked. */
  ghost predicate Sourced(s: State) {
    && s.history.accepted <= s.history.posted
    && (s.store.Some? ==> s.store.value.payload in s.history.posted)
    && (s.pass.Took? ==> s.pass.sql in s.history.posted)
    && (s.pass.Recording? ==> BuiltOn(s.pass.result, s.pass.held, s.history.accepted))
    && (s.pass.Recording? && s.pass.held.Some? ==> s.pass.held.value in s.history.posted)
    && (s.result.Some? ==> BuiltOn(s.result.value, s.history.recordedOf, s.history.accepted))
  }

  lemma {:induction false} BudgetedKept(s: State, e: Event)
    requires Budgeted(s)
    ensures Budgeted(Step(s, e))
  {
    match e
    case BeginPass(c) =>
    case PassWorks(c) =>
    case Post(_, _, _) =>
    case PostStores(_) =>
    case PostAnswered(_, _) =>
    case JobEnds(_) =>
    case JobGone =>
    case JobExpires =>
    case AgeSweep =>
    case Restart =>
    case Tick(_) =>
  }

  lemma {:induction false} MintedKept(s: State, e: Event)
    requires Minted(s)
    ensures Minted(Step(s, e))
  {
    match e
    case BeginPass(c) =>
    case PassWorks(c) =>
    case Post(_, _, _) =>
    case PostStores(_) =>
    case PostAnswered(_, _) =>
    case JobEnds(_) =>
    case JobGone =>
    case JobExpires =>
    case AgeSweep =>
    case Restart =>
    case Tick(_) =>
  }

  lemma {:induction false} ReceiptedKept(s: State, e: Event)
    requires Minted(s) && Receipted(s)
    ensures Receipted(Step(s, e))
  {
    match e
    case BeginPass(c) =>
    case PassWorks(c) =>
    case Post(_, _, _) =>
    case PostStores(_) =>
    case PostAnswered(_, _) =>
    case JobEnds(_) =>
    case JobGone =>
    case JobExpires =>
    case AgeSweep =>
    case Restart =>
    case Tick(_) =>
  }

  lemma {:induction false} WorkSourced(s: State, c: Choices)
    requires Sourced(s)
    ensures Sourced(Work(s, c))
  {
    if s.pass.Took? { TookSourced(s, c); }
    else if s.pass.Recording? { RecordingSourced(s, c); }
    else { assert Work(s, c).history == s.history; }
  }

  lemma TookSourced(s: State, c: Choices)
    requires Sourced(s) && s.pass.Took?
    ensures Sourced(Work(s, c))
  { }

  lemma RecordingSourced(s: State, c: Choices)
    requires Sourced(s) && s.pass.Recording?
    ensures Sourced(Work(s, c))
  { }

  lemma {:induction false} SourcedKept(s: State, e: Event)
    requires Sourced(s)
    ensures Sourced(Step(s, e))
  {
    match e
    case BeginPass(c) =>
    case PassWorks(c) => WorkSourced(s, c);
    case Post(_, _, _) =>
    case PostStores(_) =>
    case PostAnswered(_, _) =>
    case JobEnds(_) =>
    case JobGone =>
    case JobExpires =>
    case AgeSweep =>
    case Restart =>
    case Tick(_) =>
  }

  ghost predicate Sound(s: State) { Budgeted(s) && Minted(s) && Receipted(s) && Sourced(s) }

  lemma {:induction false} StepSound(s: State, e: Event)
    requires Sound(s)
    ensures Sound(Step(s, e))
  {
    BudgetedKept(s, e);
    MintedKept(s, e);
    ReceiptedKept(s, e);
    SourcedKept(s, e);
  }

  lemma {:induction false} RunSound(s: State, events: seq<Event>)
    requires Sound(s)
    ensures Sound(Run(s, events))
    decreases |events|
  {
    if events != [] {
      StepSound(s, events[0]);
      RunSound(Step(s, events[0]), events[1..]);
    }
  }

  /** A result recorded as built speaks of one payload, which canopy took in, and states its
      length and no error; and canopy is only ever sent bytes that came with a build's own
      token; on every run. */
  lemma BuiltMeansTakenIn(s: State, events: seq<Event>)
    requires Initial(s)
    ensures var t := Run(s, events);
      && t.history.accepted <= t.history.posted
      && (t.result.Some? && t.result.value.built ==>
            && t.result.value.error == None && t.history.recordedOf.Some?
            && t.history.recordedOf.value in t.history.accepted
            && t.result.value.bytes == Some(|t.history.recordedOf.value|))
  {
    RunSound(s, events);
  }

  // ----- A delivery answered 204 ------------------------------------------------------

  ghost predicate Empty(r: BuildResult) { r.error == Some(NoSchema) }

  /** Job `k` is recorded, or about to be, as having produced no schema. */
  ghost predicate SettledEmpty(s: State, k: Token) {
    || (s.pass.Recording? && s.pass.of == Some(k) && Empty(s.pass.result))
    || (s.result.Some? && s.resultJob == Some(k) && Empty(s.result.value))
  }

  /** The reconcile in hand has read Job `k` and found no receipt on it. */
  ghost predicate ReadUnreceipted(s: State, k: Token) { s.pass.Read? && s.pass.token == k && !s.pass.receipted }

  /** Nothing is answered 204 once its Job is settled as empty, or read without a receipt
      and no schema held to take; and the age sweep does not take a delivered schema from
      under a reconcile that has read its Job without the receipt. */
  ghost predicate Timely(s: State, e: Event) {
    match e
    case PostAnswered(id, recorded) =>
      recorded && s.job.Some? && id in s.deliveries && s.deliveries[id].stored ==>
        var k := s.deliveries[id].token;
        !SettledEmpty(s, k) && !(ReadUnreceipted(s, k) && s.store.None?)
    case AgeSweep =>
      !(s.pass.Read? && s.pass.token in s.history.delivered && !s.pass.receipted
        && s.store.Some? && s.now - s.store.value.storedAt >= DELIVERED_SCHEMA_MAX_AGE)
    case _ => true
  }

  ghost predicate TimelyRun(s: State, events: seq<Event>)
    decreases |events|
  {
    events == [] || (Timely(s, events[0]) && TimelyRun(Step(s, events[0]), events[1..]))
  }

  ghost predicate Spent(s: State) { s.attempts + 1 == BUILD_ATTEMPTS }

  /** A delivered Job is settled as empty only in the last round. */
  ghost predicate Honoured(s: State) {
    forall k <- s.history.delivered :: SettledEmpty(s, k) ==> Spent(s)
  }

  /** A reconcile that has read a delivered Job has seen its receipt or still finds the schema. */
  ghost predicate ReadRight(s: State) {
    s.pass.Read? && s.pass.token in s.history.delivered ==> s.pass.receipted || s.store.Some?
  }

  lemma {:induction false} WorkHonoured(s: State, c: Choices)
    requires Sound(s) && Honoured(s) && ReadRight(s)
    ensures Honoured(Work(s, c)) && ReadRight(Work(s, c))
  {
    match s.pass
    case Idle => case SettingUp(_) => case Creating => case Read(_, _, _) => case Took(_, _, _) =>
    case Attempting(_, _) => case Recording(_, _, _, _) => case Discarding => case Dropping =>
  }

  lemma {:induction false} StepHonoured(s: State, e: Event)
    requires Sound(s) && Honoured(s) && ReadRight(s) && Timely(s, e)
    ensures Honoured(Step(s, e)) && ReadRight(Step(s, e))
  {
    match e
    case BeginPass(c) =>
    case PassWorks(c) => WorkHonoured(s, c);
    case Post(_, _, _) =>
    case PostStores(_) =>
    case PostAnswered(_, _) =>
    case JobEnds(_) =>
    case JobGone =>
    case JobExpires =>
    case AgeSweep =>
    case Restart =>
    case Tick(_) =>
  }

  lemma {:induction false} RunHonoured(s: State, events: seq<Event>)
    requires Sound(s) && Honoured(s) && ReadRight(s) && TimelyRun(s, events)
    ensures Honoured(Run(s, events)) && ReadRight(Run(s, events))
    decreases |events|
  {
    if events != [] {
      StepHonoured(s, events[0]);
      StepSound(s, events[0]);
      RunHonoured(Step(s, events[0]), events[1..]);
    }
  }

  /** A Job whose delivery was answered 204 is recorded as having produced no schema only
      when the fifth round found nothing held, whatever restarts, age sweeps, expiries,
      failed writes and failed registrations fell in between. */
  lemma DeliveredNeverRecordedEmpty(s: State, events: seq<Event>, k: Token)
    requires Initial(s) && TimelyRun(s, events)
    ensures var t := Run(s, events);
      k in t.history.delivered && t.result.Some? && t.resultJob == Some(k) && t.attempts + 1 < BUILD_ATTEMPTS
      ==> t.result.value.error != Some(NoSchema)
  {
    RunHonoured(s, events);
  }

  // ----- When answers are timely ------------------------------------------------------

  /** A build that waits for its answer is answered before its Job has ended. */
  ghost predicate Awaited(s: State, e: Event) {
    e.PostAnswered? && e.recorded && e.id in s.deliveries ==>
      s.job.Some? && s.job.value.token == s.deliveries[e.id].token && s.job.value.stage.Running?
  }

  ghost predicate AwaitedRun(s: State, events: seq<Event>)
    decreases |events|
  {
    events == [] || (Awaited(s, events[0]) && AwaitedRun(Step(s, events[0]), events[1..]))
  }

  /** Only a Job that has ended is read as empty. */
  ghost predicate EmptyHasEnded(s: State) {
    && (s.resultJob.Some? ==> s.resultJob.value < s.nextToken)
    && (s.pass.Recording? && s.pass.of.Some? ==> s.pass.of.value < s.nextToken)
    && (s.job.Some? && SettledEmpty(s, s.job.value.token) ==> s.job.value.stage.Succeeded?)
    && (s.job.Some? && s.pass.Took? && s.pass.token == s.job.value.token ==> s.job.value.stage.Succeeded?)
    && (s.job.Some? && s.pass.Read? && s.pass.token == s.job.value.token ==> s.job.value.stage.Succeeded?)
    && (s.pass.Read? || s.pass.Took? ==> s.pass.token < s.nextToken)
  }

  lemma {:induction false} WorkKeepsEnded(s: State, c: Choices)
    requires EmptyHasEnded(s) && Minted(s)
    ensures EmptyHasEnded(Work(s, c))
  {
    if s.pass.Recording? { RecordingKeepsEnded(s, c); }
    else if s.pass.Took? { TookKeepsEnded(s, c); }
    else if s.pass.Creating? { CreatingKeepsEnded(s, c); }
    else if s.pass.Read? { ReadKeepsEnded(s, c); }
  }

  lemma RecordingKeepsEnded(s: State, c: Choices)
    requires EmptyHasEnded(s) && s.pass.Recording?
    ensures EmptyHasEnded(Work(s, c))
  { }

  lemma TookKeepsEnded(s: State, c: Choices)
    requires EmptyHasEnded(s) && s.pass.Took?
    ensures EmptyHasEnded(Work(s, c))
  { }

  lemma CreatingKeepsEnded(s: State, c: Choices)
    requires EmptyHasEnded(s) && s.pass.Creating?
    ensures EmptyHasEnded(Work(s, c))
  { }

  lemma ReadKeepsEnded(s: State, c: Choices)
    requires EmptyHasEnded(s) && s.pass.Read?
    ensures EmptyHasEnded(Work(s, c))
  { }

  lemma {:induction false} EmptyHasEndedKept(s: State, e: Event)
    requires EmptyHasEnded(s) && Minted(s)
    ensures EmptyHasEnded(Step(s, e))
  {
    match e
    case BeginPass(c) =>
    case PassWorks(c) => WorkKeepsEnded(s, c);
    case Post(_, _, _) =>
    case PostStores(_) =>
    case PostAnswered(_, _) =>
    case JobEnds(_) =>
    case JobGone =>
    case JobExpires =>
    case AgeSweep =>
    case Restart =>
    case Tick(_) =>
  }

  /** A reconcile that has read a delivered Job has seen its receipt. */
  ghost predicate SeesReceipt(s: State) {
    s.pass.Read? && s.pass.token in s.history.delivered ==> s.pass.receipted
  }

  lemma {:induction false} SeesReceiptKept(s: State, e: Event)
    requires EmptyHasEnded(s) && Receipted(s) && SeesReceipt(s) && Awaited(s, e)
    ensures SeesReceipt(Step(s, e))
  {
    match e
    case BeginPass(c) =>
    case PassWorks(c) =>
    case Post(_, _, _) =>
    case PostStores(_) =>
    case PostAnswered(_, _) =>
    case JobEnds(_) =>
    case JobGone =>
    case JobExpires =>
    case AgeSweep =>
    case Restart =>
    case Tick(_) =>
  }

  /** So a build that waits for its answer meets the hypothesis above. */
  lemma {:induction false} AwaitedIsTimely(s: State, events: seq<Event>)
    requires EmptyHasEnded(s) && Minted(s) && Receipted(s) && SeesReceipt(s) && AwaitedRun(s, events)
    ensures TimelyRun(s, events)
    decreases |events|
  {
    if events != [] {
      EmptyHasEndedKept(s, events[0]);
      MintedKept(s, events[0]);
      ReceiptedKept(s, events[0]);
      SeesReceiptKept(s, events[0]);
      AwaitedIsTimely(Step(s, events[0]), events[1..]);
    }
  }

  lemma AwaitedDeliveryHonoured(s: State, events: seq<Event>, k: Token)
    requires Initial(s) && AwaitedRun(s, events)
    ensures TimelyRun(s, events)
    ensures var t := Run(s, events);
      k in t.history.delivered && t.result.Some? && t.resultJob == Some(k) && t.attempts + 1 < BUILD_ATTEMPTS
      ==> t.result.value.error != Some(NoSchema)
  {
    AwaitedIsTimely(s, events);
    DeliveredNeverRecordedEmpty(s, events, k);
  }

  // ----- When they are not ------------------------------------------------------------

  /** Job `k` was answered 204 and is recorded as having produced no schema, with attempts
      left. */
  ghost predicate Betrays(s: State, k: Token) {
    && k in s.history.delivered && !Spent(s)
    && s.result.Some? && s.resultJob == Some(k) && Empty(s.result.value)
  }

  lemma {:induction false} FinishHonoured(s: State, c: Choices)
    requires Sound(s) && Honoured(s) && ReadRight(s)
    ensures Honoured(Finish(s, c))
    decreases Length(s.pass)
  {
    if !s.pass.Idle? {
      StepSound(s, PassWorks(c));
      WorkHonoured(s, c);
      FinishHonoured(Work(s, c), c);
    }
  }

  /** What an answer of 204 comes to for a reconcile that has read the Job: with its write
      going through and attempts left, it records the Job as having produced no schema if
      and only if it saw no receipt and finds no schema to take. */
  lemma AnswerAfterRead(s: State, id: nat, c: Choices)
    requires Budgeted(s) && !Spent(s) && c.resultSaved && s.job.Some?
    requires id in s.deliveries && s.deliveries[id].stored && s.pass.Read? && s.pass.token == s.deliveries[id].token
    ensures Betrays(Finish(Step(s, PostAnswered(id, true)), c), s.pass.token) <==> !s.pass.receipted && s.store.None?
  {
    var t := Step(s, PostAnswered(id, true));
    if !s.pass.receipted && s.store.None? {
      FinishRecords(Work(t, c), c);
    } else {
      FinishSpares(Work(t, c), c, s.pass.token);
    }
  }

  /** And for one that is about to record a result: if and only if that is what it records. */
  lemma AnswerBeforeRecord(s: State, id: nat, c: Choices)
    requires Budgeted(s) && !Spent(s) && c.resultSaved && s.job.Some?
    requires id in s.deliveries && s.deliveries[id].stored && s.pass.Recording? && s.pass.of == Some(s.deliveries[id].token)
    ensures Betrays(Finish(Step(s, PostAnswered(id, true)), c), s.deliveries[id].token) <==> Empty(s.pass.result)
  {
    FinishRecords(Step(s, PostAnswered(id, true)), c);
  }

  /** A result about to be recorded, and saved, is what is found when the pass has ended. */
  lemma FinishRecords(s: State, c: Choices)
    requires s.pass.Recording? && c.resultSaved
    ensures var t := Finish(s, c);
      t.result == Some(s.pass.result) && t.resultJob == s.pass.of && t.attempts == s.attempts && t.history.delivered == s.history.delivered
  {
    var t := Work(s, c);
    assert Finish(s, c) == Finish(t, c);
    FinishTidies(t, c);
  }

  lemma {:induction false} FinishTidies(s: State, c: Choices)
    requires s.pass.Idle? || s.pass.Discarding? || s.pass.Dropping?
    ensures var t := Finish(s, c);
      t.result == s.result && t.resultJob == s.resultJob && t.attempts == s.attempts && t.history == s.history
    decreases Length(s.pass)
  {
    if s.pass.Discarding? {
      assert Finish(s, c) == Finish(Work(s, c), c);
      FinishTidies(Work(s, c), c);
    } else if s.pass.Dropping? {
      assert Finish(s, c) == Finish(Work(s, c), c) == Work(s, c);
    }
  }

  /** A pass past the point of finding nothing does not record that. */
  lemma {:induction false} FinishSpares(s: State, c: Choices, k: Token)
    requires s.result.None? && (s.pass.Took? || s.pass.Attempting? || s.pass.Recording?)
    requires s.pass.Recording? ==> !Empty(s.pass.result)
    ensures !Betrays(Finish(s, c), k)
    decreases Length(s.pass)
  {
    var t := Work(s, c);
    assert Finish(s, c) == Finish(t, c);
    if s.pass.Took? {
      FinishSpares(t, c, k);
    } else {
      FinishTidies(t, c);
    }
  }

  /** On a run timely so far, and with attempts left, the next event brings a delivered Job to
      be recorded as empty, once the pass in hand has ended with its write gone through, if and
      only if that event is not timely. */
  lemma PromiseBrokenExactly(s: State, events: seq<Event>, e: Event, c: Choices)
    requires Initial(s) && TimelyRun(s, events) && c.resultSaved && !Spent(Run(s, events))
    ensures var m := Run(s, events);
      (exists k :: Betrays(Finish(Step(m, e), c), k)) <==> !Timely(m, e)
  {
    RunHonoured(s, events);
    RunSound(s, events);
    var m := Run(s, events);
    if Timely(m, e) {
      StepSound(m, e);
      StepHonoured(m, e);
      FinishHonoured(Step(m, e), c);
    } else {
      UntimelyBetrays(m, e, c);
    }
  }

  lemma UntimelyBetrays(s: State, e: Event, c: Choices)
    requires Budgeted(s) && !Timely(s, e) && c.resultSaved && !Spent(s)
    ensures exists k :: Betrays(Finish(Step(s, e), c), k)
  {
    var t := Step(s, e);
    if e.AgeSweep? {
      FinishRecords(Work(t, c), c);
      assert Betrays(Finish(t, c), s.pass.token);
    } else {
      var k := s.deliveries[e.id].token;
      if s.pass.Read? && s.result.None? {
        AnswerAfterRead(s, e.id, c);
      } else if s.pass.Recording? {
        AnswerBeforeRecord(s, e.id, c);
      } else {
        FinishTidies(t, c);
      }
      assert Betrays(Finish(t, c), k);
    }
  }

  const AllWell := Choices(true, true, true, true, [], true, true, true, false, 0)

  const Fresh := State(
    Spec(true, true, true, true, true, true), None, None, 0, None, None, map[], Idle, 0, 0, History({}, {}, {}, None))

  /** A build is created, its delivery let in, and its Job ends while the body is read. */
  function CutShort(body: Payload): seq<Event> {
    [BeginPass(AllWell), PassWorks(AllWell), PassWorks(AllWell), Post(0, 0, body), JobEnds(true)]
  }

  function Ended(body: Payload): State {
    Fresh.(job := Some(BuildJob(0, Succeeded, None, false)), deliveries := map[0 := Delivery(0, body, false)], nextToken := 1)
  }

  /** The Job is read and found empty before the body is stored and its receipt recorded. */
  const Overtaken := [BeginPass(AllWell), PassWorks(AllWell), PostStores(0), PostAnswered(0, true), PassWorks(AllWell)]

  lemma {:induction false} RunFive(s: State, events: seq<Event>)
    requires |events| == 5
    ensures Run(s, events) == Step(Step(Step(Step(Step(s, events[0]), events[1]), events[2]), events[3]), events[4])
  {
    var s1 := Step(s, events[0]);
    var s2 := Step(s1, events[1]);
    assert Run(s, events) == Run(s2, events[2..]) by { assert events[1..][1..] == events[2..]; }
    var s3 := Step(s2, events[2]);
    assert Run(s2, events[2..]) == Run(s3, events[3..]) by { assert events[2..][1..] == events[3..]; }
    assert Run(s3, events[3..]) == Run(Step(s3, events[3]), events[4..]) by { assert events[3..][1..] == events[4..]; }
    var s4 := Step(s3, events[3]);
    assert Run(s4, events[4..]) == Run(Step(s4, events[4]), []) by { assert events[4..][1..] == []; }
  }

  lemma {:induction false} RunCat(s: State, a: seq<Event>, b: seq<Event>)
    ensures Run(s, a + b) == Run(Run(s, a), b)
    decreases |a|
  {
    if a == [] {
      assert a + b == b;
    } else {
      assert (a + b)[1..] == a[1..] + b;
      RunCat(Step(s, a[0]), a[1..], b);
    }
  }

  lemma CutShortLeads(body: Payload)
    ensures Run(Fresh, CutShort(body)) == Ended(body)
  {
    RunFive(Fresh, CutShort(body));
  }

  lemma OvertakenLeads(body: Payload)
    ensures var t := Run(Ended(body), Overtaken);
      && t.history.delivered == {0} && t.attempts == 0 && t.resultJob == Some(0)
      && t.result.Some? && t.result.value.error == Some(NoSchema)
  {
    var s := Ended(body);
    RunFive(s, Overtaken);
    var s2 := Step(Step(s, Overtaken[0]), Overtaken[1]);
    assert s2 == s.(pass := Recording(Some(0), CompletedResult(None, None, 0, []), None, DropJob));
    var s4 := Step(Step(s2, Overtaken[2]), Overtaken[3]);
    assert s4.history.delivered == {0} && s4.pass == s2.pass;
  }

  /** A delivery answered 204 with every attempt left, of a build recorded as having
      produced no schema: a body still being read when its Job ends comes too late. */
  lemma LateDeliveryRecordedEmpty(body: Payload)
    ensures Initial(Fresh)
    ensures var t := Run(Fresh, CutShort(body) + Overtaken);
      && t.history.delivered == {0} && t.attempts == 0 && t.resultJob == Some(0)
      && t.result.Some? && t.result.value.error == Some(NoSchema)
  {
    RunCat(Fresh, CutShort(body), Overtaken);
    CutShortLeads(body);
    OvertakenLeads(body);
  }
}
