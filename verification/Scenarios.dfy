/** Building blocks for concrete runs: one restore taken from nothing to Switching, and
    one pass that carries a switchover through. */
module Scenarios {
  import opened Options
  import opened Protocol
  import opened RunRules

  lemma {:induction false} RunConcat(s: State, a: seq<Event>, b: seq<Event>)
    ensures Run(s, a + b) == Run(Run(s, a), b)
    decreases |a|
  {
    if a == [] {
      assert a + b == b;
    } else {
      RunConcat(Step(s, a[0]), a[1..], b);
      assert (a + b)[1..] == a[1..] + b;
    }
  }

  lemma {:induction false} AlongConcat(s: State, a: seq<Event>, b: seq<Event>, rule: (State, Event) -> bool)
    ensures Along(s, a + b, rule) <==> Along(s, a, rule) && Along(Run(s, a), b, rule)
    decreases |a|
  {
    if a == [] {
      assert a + b == b;
    } else {
      AlongConcat(Step(s, a[0]), a[1..], b, rule);
      assert (a + b)[1..] == a[1..] + b;
    }
  }

  /** Some run from `s` whose events all meet `rule` ends in `t`. */
  ghost predicate Reaches(s: State, t: State, rule: (State, Event) -> bool) {
    exists events :: Along(s, events, rule) && Run(s, events) == t
  }

  lemma ReachesSelf(s: State, rule: (State, Event) -> bool)
    ensures Reaches(s, s, rule)
  {
    assert Along(s, [], rule) && Run(s, []) == s;
  }

  lemma ReachesStep(s: State, t: State, e: Event, rule: (State, Event) -> bool)
    requires Reaches(s, t, rule) && rule(t, e)
    ensures Reaches(s, Step(t, e), rule)
  {
    var events :| Along(s, events, rule) && Run(s, events) == t;
    RunConcat(s, events, [e]);
    AlongConcat(s, events, [e], rule);
    assert Run(t, [e]) == Step(t, e) by { assert [e][1..] == []; }
    assert Along(s, events + [e], rule) && Run(s, events + [e]) == Step(t, e);
  }

  lemma {:induction false} AlongWeaker(s: State, events: seq<Event>, strong: (State, Event) -> bool, weak: (State, Event) -> bool)
    requires Along(s, events, strong) && forall x, e :: strong(x, e) ==> weak(x, e)
    ensures Along(s, events, weak)
    decreases |events|
  {
    if events != [] {
      AlongWeaker(Step(s, events[0]), events[1..], strong, weak);
    }
  }

  lemma ReachesWeaker(s: State, t: State, strong: (State, Event) -> bool, weak: (State, Event) -> bool)
    requires Reaches(s, t, strong) && forall x, e :: strong(x, e) ==> weak(x, e)
    ensures Reaches(s, t, weak)
  {
    var events :| Along(s, events, strong) && Run(s, events) == t;
    AlongWeaker(s, events, strong, weak);
  }

  // ----- A replica that runs smoothly ---------------------------------------------

  /** Canopy offers another snapshot than `active` serves, and the minimum TTL is over. */
  predicate Offered(s: State, active: Option<Name>) {
    && s.spec.canopy && s.status.desired.Some? && active.Some? && active.value in s.restores
    && s.restores[active.value].snapshot != s.status.desired.value
    && (s.spec.minimumTtl.Some? && s.status.completedAt.Some? ==> s.now >= s.status.completedAt.value + s.spec.minimumTtl.value)
  }

  /** A replica that is due for a restore and has nothing under way: `active` is served,
      `stale` is left over from earlier and not to be swept yet. */
  ghost predicate Idle(s: State, active: Option<Name>, stale: seq<Name>) {
    && !s.spec.ephemeral && s.spec.schemas.NotConfigured?
    && s.pass == None && s.listJob == None && !s.listing && s.status.verified == None
    && (CheckSchedule(s.spec, s.status, s.now).Trigger? || Offered(s, active))
    && (forall n :: n in s.restores ==> !IsExpired(s, n))
    && (active.Some? ==> s.Has(active.value, Active) && s.status.current == active)
    && (forall n :: n in s.restores ==> s.restores[n].Is(Failed) || (s.restores[n].Is(Active) && active.Some?))
    && (forall n :: n in stale <==> IsStale(s, n)) && (stale == [] || !SweepGuard(s))
    && (forall i, j :: 0 <= i < j < |stale| ==> stale[i] != stale[j])
    && |LiveNames(s.restores)| < MAX_RESTORES_PER_REPLICA
  }

  /** A kopia-secret replica, not ephemeral and without persistent schemas or minimum TTL,
      that nothing has acted on yet and that is due for its first restore. */
  ghost predicate FreshKopia(s: State) { Initial(s) && Idle(s, None, []) && !s.spec.canopy && s.spec.minimumTtl == None }

  /** Nothing fails and nothing is found to delete. */
  function Plain(switching: Option<Name>, active: Option<Name>, picked: Option<Snapshot>, newName: Name): Choices {
    Choices(switching, active, true, false, false, false, true, ReadyToMigrate, true,
            [], {}, [], {}, false, true, picked, newName, false, false, None, true)
  }

  const Healthy := Observation(false, true, false, true, DetectAbsent, true, false, false, true, true)

  /** Events that harm nothing: no stop, no deletion by hand, no edit of the schedule, every
      restore with its phase before the next pass, every failure recorded. */
  predicate Smooth(s: State, e: Event) {
    && !e.Stop? && !e.Restart? && !e.OutsideDelete?
    && (e.BeginPass? ==> !e.choices.scheduleChanged && NoneUnphased(s))
    && (Fails(s, e) ==> e.seen.recorded)
  }

  /** Whatever is smooth is allowed. */
  ghost predicate Allows(rule: (State, Event) -> bool) {
    forall x: State, e: Event :: Smooth(x, e) ==> rule(x, e)
  }

  lemma PassStarts(s0: State, s: State, c: Choices, tail: seq<Tail>, rule: (State, Event) -> bool)
    requires Reaches(s0, s, rule) && s.pass == None && ValidChoices(s, c) && Plan(s, c) == Pass([], None, tail)
    requires rule(s, BeginPass(c))
    ensures Reaches(s0, s.(pass := Some(Pass([], None, tail))), rule)
  {
    ReachesStep(s0, s, BeginPass(c), rule);
  }

  lemma Works(s0: State, s: State, w: Tail, rest: seq<Tail>, rule: (State, Event) -> bool)
    requires s.pass == Some(Pass([], None, [w] + rest)) && Reaches(s0, s, rule) && Allows(rule)
    ensures Reaches(s0, DoTail(s.(pass := Some(Pass([], None, rest))), w), rule)
  {
    assert Smooth(s, Work);
    ReachesStep(s0, s, Work, rule);
    assert ([w] + rest)[1..] == rest;
  }

  lemma PassEnds(s0: State, s: State, rule: (State, Event) -> bool)
    requires s.pass == Some(Pass([], None, [])) && Reaches(s0, s, rule) && Allows(rule)
    ensures Reaches(s0, s.(pass := None), rule)
  {
    assert Smooth(s, Work);
    ReachesStep(s0, s, Work, rule);
  }

  /** A step of the restore controller that finds nothing wrong. */
  lemma RestoreMoves(s0: State, s: State, n: Name, after: Restore, rule: (State, Event) -> bool)
    requires Reaches(s0, s, rule) && Allows(rule) && n in s.restores
    requires Handle(s.restores[n], Healthy, s.now) == Handled(after, false)
    ensures Reaches(s0, s.(restores := s.restores[n := after]), rule)
  {
    assert Smooth(s, RestorePass(n, Healthy));
    ReachesStep(s0, s, RestorePass(n, Healthy), rule);
  }

  function Looking(active: Option<Name>, stale: seq<Name>, picked: Option<Snapshot>, newName: Name): Choices {
    Plain(None, active, picked, newName).(stale := stale)
  }

  lemma IdlePlan(s: State, active: Option<Name>, stale: seq<Name>)
    requires Idle(s, active, stale)
    ensures ValidChoices(s, Looking(active, stale, None, 0)) && Smooth(s, BeginPass(Looking(active, stale, None, 0)))
    ensures Plan(s, Looking(active, stale, None, 0)) == Pass([], None, [CreateListJob] + [])
  {
    var c := Looking(active, stale, None, 0);
    assert SweepTail(s, c) == [];
    assert ListTail(s, c) == TailAnswer([], false);
    assert TriggerTail(s, c) == [CreateListJob];
  }

  /** The snapshot listing runs and its result arrives. */
  lemma ListingArrives(s0: State, s: State, active: Option<Name>, stale: seq<Name>, rule: (State, Event) -> bool)
    requires Idle(s, active, stale) && Reaches(s0, s, rule) && Allows(rule)
    ensures Reaches(s0, s.(listJob := Some(JobSucceeded), listing := true), rule)
  {
    ListingPlanned(s0, s, active, stale, rule);
    Works(s0, s.(pass := Some(Pass([], None, [CreateListJob] + []))), CreateListJob, [], rule);
    ListingPosts(s0, s, rule);
  }

  lemma ListingPlanned(s0: State, s: State, active: Option<Name>, stale: seq<Name>, rule: (State, Event) -> bool)
    requires Idle(s, active, stale) && Reaches(s0, s, rule) && Allows(rule)
    ensures s.pass == None && s.listJob == None
    ensures Reaches(s0, s.(pass := Some(Pass([], None, [CreateListJob] + []))), rule)
  {
    IdlePlan(s, active, stale);
    PassStarts(s0, s, Looking(active, stale, None, 0), [CreateListJob] + [], rule);
  }

  lemma ListingPosts(s0: State, s: State, rule: (State, Event) -> bool)
    requires s.pass == None && Allows(rule)
    requires Reaches(s0, s.(listJob := Some(JobRunning), pass := Some(Pass([], None, []))), rule)
    ensures Reaches(s0, s.(listJob := Some(JobSucceeded), listing := true), rule)
  {
    var running := s.(listJob := Some(JobRunning));
    PassEnds(s0, running.(pass := Some(Pass([], None, []))), rule);
    assert Smooth(running, ListingPosted) && Smooth(running.(listing := true), ListJobEnds(true));
    ReachesStep(s0, running, ListingPosted, rule);
    ReachesStep(s0, running.(listing := true), ListJobEnds(true), rule);
  }

  function CreateTail(n: Name, snapshot: Snapshot, rest: seq<Tail>): seq<Tail> {
    [TakeListing] + ([DropListJob] + ([CreateRestore(n, snapshot, false)] + rest))
  }

  /** What a pass that reschedules to `nextFire`, where there is one, sets. */
  function SetTail(s: State, nextFire: Option<int>): seq<Tail> {
    if nextFire.None? then []
    else match s.status.nextScheduled
      case None => [SetSchedule(nextFire.value)] + [SetSchedule(nextFire.value)]
      case Some(next) => if s.now < next then [] else [SetSchedule(nextFire.value)]
  }

  /** No restore that has not failed is of `snapshot`, and canopy, if asked, offers it. */
  ghost predicate Unheld(s: State, snapshot: Snapshot) {
    (s.spec.canopy ==> s.status.desired == Some(snapshot)) &&
    forall m :: m in s.restores && s.restores[m].Live() ==> s.restores[m].snapshot != snapshot
  }

  function Listed(s: State): State { s.(listJob := Some(JobSucceeded), listing := true) }

  lemma ListedValid(s: State, active: Option<Name>, stale: seq<Name>, n: Name, snapshot: Snapshot, nextFire: Option<int>)
    requires Idle(s, active, stale) && Unheld(s, snapshot)
    ensures var c := Looking(active, stale, Some(snapshot), n).(nextFire := nextFire);
      && ValidChoices(Listed(s), c) && Smooth(Listed(s), BeginPass(c))
      && TriggerTail(Listed(s), c) == SetTail(s, nextFire)
  { }

  lemma ListedWrites(s: State, active: Option<Name>, stale: seq<Name>, n: Name, snapshot: Snapshot, nextFire: Option<int>)
    requires Idle(s, active, stale) && Unheld(s, snapshot)
    ensures var c := Looking(active, stale, Some(snapshot), n).(nextFire := nextFire);
      && SweepTail(Listed(s), c) == [] && !AnyInProgress(Listed(s).restores)
      && ListTail(Listed(s), c) == TailAnswer(CreateTail(n, snapshot, []), false)
  {
    assert !Covered(snapshot, Listed(s).status.verified, Listed(s).restores);
  }

  lemma CreateTailCat(n: Name, snapshot: Snapshot, rest: seq<Tail>)
    ensures CreateTail(n, snapshot, []) + rest == CreateTail(n, snapshot, rest)
  { }

  lemma ListedPlan(s: State, active: Option<Name>, stale: seq<Name>, n: Name, snapshot: Snapshot, nextFire: Option<int>)
    requires Idle(s, active, stale) && Unheld(s, snapshot)
    ensures var c := Looking(active, stale, Some(snapshot), n).(nextFire := nextFire);
      && ValidChoices(Listed(s), c) && Smooth(Listed(s), BeginPass(c))
      && Plan(Listed(s), c) == Pass([], None, CreateTail(n, snapshot, SetTail(s, nextFire)))
  {
    var x, c := Listed(s), Looking(active, stale, Some(snapshot), n).(nextFire := nextFire);
    ListedValid(s, active, stale, n, snapshot, nextFire);
    ListedWrites(s, active, stale, n, snapshot, nextFire);
    CreateTailCat(n, snapshot, SetTail(s, nextFire));
    NothingSwept(x, c);
  }

  /** A pass that rests and finds nothing to sweep or clean up plans what comes later. */
  lemma NothingSwept(s: State, c: Choices)
    requires ValidChoices(s, c) && c.switching.None? && !s.spec.ephemeral && SweepTail(s, c) == [] && c.expired == []
    ensures Plan(s, c) == Pass([], None, LaterTail(s, c))
  {
    assert SweptTail(s, c) == [];
    assert [] + LaterTail(s, c) == LaterTail(s, c);
  }

  /** The pass sets its schedule and ends; `s` is the replica it began with. */
  lemma SetTailRuns(s0: State, s: State, x: State, at: int)
    requires x.pass == Some(Pass([], None, SetTail(s, Some(at)))) && Reaches(s0, x, Smooth)
    requires s.status.nextScheduled.Some? ==> s.now >= s.status.nextScheduled.value
    ensures Reaches(s0, x.(status := x.status.(nextScheduled := Some(at)), pass := None), Smooth)
  {
    var set' := x.(status := x.status.(nextScheduled := Some(at)));
    var w := SetSchedule(at);
    if s.status.nextScheduled.None? {
      Works(s0, x, w, [w], Smooth);
      assert [w] == [w] + [];
      Works(s0, set'.(pass := Some(Pass([], None, [w] + []))), w, [], Smooth);
    } else {
      assert SetTail(s, Some(at)) == [w] + [];
      Works(s0, x, w, [], Smooth);
    }
    PassEnds(s0, set'.(pass := Some(Pass([], None, []))), Smooth);
  }

  function Made(s: State, n: Name, snapshot: Snapshot): State {
    s.(restores := s.restores[n := NewRestore(snapshot, false)])
  }

  /** The listing names a snapshot nothing holds, and a restore is made for it; what else
      the pass is to set is left. */
  lemma RestoreCreated(
    s0: State, s: State, active: Option<Name>, stale: seq<Name>, n: Name, snapshot: Snapshot, nextFire: Option<int>,
    rule: (State, Event) -> bool)
    requires Idle(s, active, stale) && Reaches(s0, s, rule) && Allows(rule) && n !in s.restores && Unheld(s, snapshot)
    ensures Reaches(s0, Made(s, n, snapshot).(pass := Some(Pass([], None, SetTail(s, nextFire)))), rule)
  {
    ListingArrives(s0, s, active, stale, rule);
    ListedPlan(s, active, stale, n, snapshot, nextFire);
    var rest := SetTail(s, nextFire);
    PassStarts(s0, Listed(s), Looking(active, stale, Some(snapshot), n).(nextFire := nextFire), CreateTail(n, snapshot, rest), rule);
    CreationRuns(s0, s, n, snapshot, rest, rule);
  }

  lemma CreationRuns(s0: State, s: State, n: Name, snapshot: Snapshot, rest: seq<Tail>, rule: (State, Event) -> bool)
    requires s.pass == None && s.listJob == None && !s.listing && n !in s.restores && Allows(rule)
    requires |LiveNames(s.restores)| < MAX_RESTORES_PER_REPLICA
    requires Reaches(s0, Listed(s).(pass := Some(Pass([], None, CreateTail(n, snapshot, rest)))), rule)
    ensures Reaches(s0, Made(s, n, snapshot).(pass := Some(Pass([], None, rest))), rule)
  {
    var create := CreateRestore(n, snapshot, false);
    Works(s0, Listed(s).(pass := Some(Pass([], None, CreateTail(n, snapshot, rest)))), TakeListing, [DropListJob] + ([create] + rest), rule);
    var taken := s.(listJob := Some(JobSucceeded));
    Works(s0, taken.(pass := Some(Pass([], None, [DropListJob] + ([create] + rest)))), DropListJob, [create] + rest, rule);
    Works(s0, s.(pass := Some(Pass([], None, [create] + rest))), create, rest, rule);
  }

  /** A restore that has just begun, and one that has just come up. */
  function Begun(snapshot: Snapshot, at: int): Restore {
    Restore(snapshot, Some(Restoring), Some(at), None, false, false, false, false, false, None)
  }

  function Up(snapshot: Snapshot, at: int): Restore { Begun(snapshot, at).(phase := Some(Ready), versionKnown := true) }

  /** A restore that has just become Switching. */
  function Fresh(snapshot: Snapshot, at: int): Restore { Up(snapshot, at).(phase := Some(Switching)) }

  lemma RestoreBegins(s0: State, s: State, n: Name, snapshot: Snapshot, rule: (State, Event) -> bool)
    requires Reaches(s0, Made(s, n, snapshot), rule) && Allows(rule)
    ensures Reaches(s0, s.(restores := s.restores[n := Begun(snapshot, s.now)]), rule)
  {
    RestoreMoves(s0, Made(s, n, snapshot), n, Begun(snapshot, s.now), rule);
    assert Made(s, n, snapshot).restores[n := Begun(snapshot, s.now)] == s.restores[n := Begun(snapshot, s.now)];
  }

  /** A restore is made and begins. */
  lemma RestoreStarts(
    s0: State, s: State, active: Option<Name>, stale: seq<Name>, n: Name, snapshot: Snapshot, rule: (State, Event) -> bool)
    requires Idle(s, active, stale) && Reaches(s0, s, rule) && Allows(rule) && n !in s.restores && Unheld(s, snapshot)
    ensures Reaches(s0, s.(restores := s.restores[n := Begun(snapshot, s.now)]), rule)
  {
    RestoreCreated(s0, s, active, stale, n, snapshot, None, rule);
    PassEnds(s0, Made(s, n, snapshot).(pass := Some(Pass([], None, []))), rule);
    RestoreBegins(s0, s, n, snapshot, rule);
  }

  /** The restore runs and comes up healthy. */
  lemma RestoreComesUp(
    s0: State, s: State, active: Option<Name>, stale: seq<Name>, n: Name, snapshot: Snapshot, rule: (State, Event) -> bool)
    requires Idle(s, active, stale) && Reaches(s0, s, rule) && Allows(rule) && n !in s.restores && Unheld(s, snapshot)
    ensures Reaches(s0, s.(restores := s.restores[n := Up(snapshot, s.now)]), rule)
  {
    RestoreStarts(s0, s, active, stale, n, snapshot, rule);
    var begun := s.(restores := s.restores[n := Begun(snapshot, s.now)]);
    RestoreMoves(s0, begun, n, Up(snapshot, s.now), rule);
    assert begun.restores[n := Up(snapshot, s.now)] == s.restores[n := Up(snapshot, s.now)];
  }

  /** And waits for its switchover. */
  lemma RestoreSwitches(s0: State, s: State, active: Option<Name>, n: Name, snapshot: Snapshot)
    requires Idle(s, active, []) && Reaches(s0, s, Smooth) && n !in s.restores && Unheld(s, snapshot)
    ensures Reaches(s0, s.(restores := s.restores[n := Fresh(snapshot, s.now)]), Smooth)
  {
    RestoreComesUp(s0, s, active, [], n, snapshot, Smooth);
    var up := s.(restores := s.restores[n := Up(snapshot, s.now)]);
    RestoreMoves(s0, up, n, Fresh(snapshot, s.now), Smooth);
    assert up.restores[n := Fresh(snapshot, s.now)] == s.restores[n := Fresh(snapshot, s.now)];
  }

  // ----- A switchover -------------------------------------------------------------

  /** `n` waits for its switchover beside at most one Active restore. */
  ghost predicate Waiting(s: State, active: Option<Name>, n: Name) {
    && !s.spec.ephemeral && s.spec.schemas.NotConfigured? && s.pass == None
    && s.Has(n, Switching)
    && (active.Some? ==> s.Has(active.value, Active) && s.status.current == active)
    && (active.None? ==> s.status.current == None)
    && (forall m :: m in s.restores ==> m == n || active == Some(m))
    && (!s.spec.redaction || (s.status.redaction.Some? && s.status.redaction.value.IsDone()))
  }

  lemma WaitingPlan(s: State, active: Option<Name>, n: Name)
    requires Waiting(s, active, n)
    ensures ValidChoices(s, Plain(Some(n), active, None, 0))
    ensures Plan(s, Plain(Some(n), active, None, 0)) == Pass([], Some(Switch(n, s.status.current, ToSelect)), [])
  {
  }

  function Moved(s: State, n: Name): State {
    s.(restores := Reselect(s.restores, s.service, n, s.now), service := Some(n))
  }

  /** The Service names `n` and `n` is Active; the status still names the old restore. */
  function Activated(s: State, n: Name): State
    requires n in s.restores
  {
    var moved := Moved(s, n);
    moved.(restores := moved.restores[n := moved.restores[n].(phase := Some(Active))],
           history := s.history.(activations := s.history.activations + multiset{s.restores[n].snapshot}))
  }

  lemma SwitchStops(s0: State, s: State, active: Option<Name>, n: Name, rule: (State, Event) -> bool)
    requires Waiting(s, active, n) && Reaches(s0, s, rule)
    requires Allows(rule)
    ensures Reaches(s0, Activated(s, n).(pass := After(Switch(n, s.status.current, ToStamp), ToStamp)), rule)
  {
    var c := Plain(Some(n), active, None, 0);
    WaitingPlan(s, active, n);
    assert Smooth(s, BeginPass(c));
    ReachesStep(s0, s, BeginPass(c), rule);
    SwitchActivates(s0, s, n, rule);
  }

  lemma SwitchActivates(s0: State, s: State, n: Name, rule: (State, Event) -> bool)
    requires n in s.restores
    requires Reaches(s0, s.(pass := Some(Pass([], Some(Switch(n, s.status.current, ToSelect)), []))), rule)
    requires Allows(rule)
    ensures Reaches(s0, Activated(s, n).(pass := After(Switch(n, s.status.current, ToStamp), ToStamp)), rule)
  {
    var sw := Switch(n, s.status.current, ToSelect);
    assert Smooth(s.(pass := Some(Pass([], Some(sw), []))), Work) && Smooth(Moved(s, n).(pass := After(sw, ToActivate)), Work);
    ReachesStep(s0, s.(pass := Some(Pass([], Some(sw), []))), Work, rule);
    ReachesStep(s0, Moved(s, n).(pass := After(sw, ToActivate)), Work, rule);
  }

  /** The switchover to `n` carried through. */
  function Switched(s: State, n: Name): State
    requires n in s.restores
  {
    var active := Activated(s, n);
    active.(restores := active.restores[n := active.restores[n].(activatedAt := Some(s.now))],
            status := s.status.(current := Some(n), previous := s.status.current, completedAt := Some(s.now), failures := 0),
            history := active.history.(failTimes := []), pass := None)
  }

  lemma SwitchWrites(s0: State, s: State, n: Name)
    requires n in s.restores
    requires Reaches(s0, s.(pass := Some(Pass([], Some(Switch(n, s.status.current, ToSelect)), []))), Smooth)
    ensures Reaches(s0, Switched(s, n), Smooth)
  {
    SwitchActivates(s0, s, n, Smooth);
    SwitchRecords(s0, s, n);
  }

  lemma SwitchRecords(s0: State, s: State, n: Name)
    requires n in s.restores
    requires Reaches(s0, Activated(s, n).(pass := After(Switch(n, s.status.current, ToStamp), ToStamp)), Smooth)
    ensures Reaches(s0, Switched(s, n), Smooth)
  {
    var sw := Switch(n, s.status.current, ToStamp);
    var stamping := Activated(s, n).(pass := After(sw, ToStamp));
    ReachesStep(s0, stamping, Work, Smooth);
    var recording := Step(stamping, Work);
    assert recording.pass == After(sw, ToRecord(s.now));
    ReachesStep(s0, recording, Work, Smooth);
  }

  lemma SwitchCompletes(s0: State, s: State, active: Option<Name>, n: Name)
    requires Waiting(s, active, n) && Reaches(s0, s, Smooth)
    ensures Reaches(s0, Switched(s, n), Smooth)
  {
    SwitchStops(s0, s, active, n, Smooth);
    SwitchRecords(s0, s, n);
  }

  /** A replica whose one restore has just been switched to is idle again. */
  lemma FirstServed(s: State, n: Name)
    requires !s.spec.ephemeral && s.spec.schemas.NotConfigured? && s.spec.minimumTtl == None
    requires s.listJob == None && !s.listing && s.status.verified == None && s.restores.Keys == {n}
    requires CheckSchedule(s.spec, s.status, s.now).Trigger?
    ensures Idle(Switched(s, n), Some(n), [])
  {
    assert LiveNames(Switched(s, n).restores) == {n};
  }
}
