/** Which writes a pass outside a switchover can plan, and under what conditions. */
module PassPlans {
  import opened Options
  import opened Protocol

  predicate Deletes(w: Tail) { w.SweepDelete? || w.CleanFailed? || w.TearDown? }

  predicate Creates(w: Tail) { w.CreateRestore? || w.CreateListJob? }

  /** A pass that creates anything has already made all its deletes. */
  predicate CreatesLast(tail: seq<Tail>) {
    forall i, j :: 0 <= i < j < |tail| && Creates(tail[i]) ==> !Deletes(tail[j])
  }

  /** At most one of the remaining writes creates anything. */
  predicate CreatesOnce(tail: seq<Tail>) {
    forall i, j :: 0 <= i < j < |tail| && Creates(tail[i]) ==> !Creates(tail[j])
  }

  predicate SweptWrite(s: State, c: Choices, w: Tail) {
    match w
    case SweepDelete(n, _) => SweepGuard(s) && n in c.stale && n !in c.undeleted
    case ClearPhases => SweepGuard(s) && c.stale != [] && AllDeleted(c.stale, c.undeleted)
    case CleanFailed(n, _) => n in c.expired
    case _ => false
  }

  predicate LaterWrite(s: State, c: Choices, w: Tail)
    requires c.active.Some? ==> c.active.value in s.restores
  {
    match w
    case TakeListing => s.listJob == Some(JobSucceeded) && s.listing
    case DropListJob => s.listJob == Some(JobSucceeded)
    case CreateRestore(_, snapshot, _) =>
      && s.listJob == Some(JobSucceeded) && s.listing
      && c.picked == Some(snapshot) && !Covered(snapshot, s.status.verified, s.restores)
    case SetSchedule(_) =>
      && !AnyInProgress(s.restores) && !(s.listJob == Some(JobRunning))
      && (c.scheduleChanged || s.status.nextScheduled.None? || !CheckSchedule(s.spec, s.status, s.now).NotDue?)
    case CreateListJob => !AnyInProgress(s.restores) && s.listJob.None? && ShouldRestore(s, c)
    case _ => false
  }

  lemma {:induction false} SweepDeletesAre(names: seq<Name>, undeleted: set<Name>, lingers: set<Name>, w: Tail)
    requires w in SweepDeletes(names, undeleted, lingers)
    ensures w.SweepDelete? && w.restore in names && w.restore !in undeleted
  {
    if w in SweepDeletes(names[1..], undeleted, lingers) {
      SweepDeletesAre(names[1..], undeleted, lingers, w);
    }
  }

  lemma {:induction false} CleansAre(names: seq<Name>, lingers: set<Name>, w: Tail)
    requires w in CleanTail(names, lingers)
    ensures w.CleanFailed? && w.restore in names
  {
    if w in CleanTail(names[1..], lingers) {
      CleansAre(names[1..], lingers, w);
    }
  }

  lemma SweptAre(s: State, c: Choices, w: Tail)
    requires w in SweptTail(s, c)
    ensures SweptWrite(s, c, w)
  {
    if w in CleanTail(c.expired, c.lingers) {
      CleansAre(c.expired, c.lingers, w);
    } else if w in SweepDeletes(c.stale, c.undeleted, c.lingers) {
      SweepDeletesAre(c.stale, c.undeleted, c.lingers, w);
    }
  }

  lemma LaterAre(s: State, c: Choices, w: Tail)
    requires c.active.Some? ==> c.active.value in s.restores
    requires w in LaterTail(s, c)
    ensures LaterWrite(s, c, w)
  {
    if w in ListTail(s, c).writes {
      ListedAre(s, c, w);
    } else {
      TriggeredAre(s, c, w);
    }
  }

  lemma ListedAre(s: State, c: Choices, w: Tail)
    requires c.active.Some? ==> c.active.value in s.restores
    requires w in ListTail(s, c).writes
    ensures LaterWrite(s, c, w)
  {
  }

  lemma TriggeredAre(s: State, c: Choices, w: Tail)
    requires c.active.Some? ==> c.active.value in s.restores
    requires !AnyInProgress(s.restores) && !ListTail(s, c).ends && w in TriggerTail(s, c)
    ensures LaterWrite(s, c, w)
  {
  }

  lemma DeletesThenCreates(swept: seq<Tail>, later: seq<Tail>)
    requires forall w :: w in swept ==> !Creates(w)
    requires forall w :: w in later ==> !Deletes(w)
    ensures CreatesLast(swept + later)
  {
    var tail: seq<Tail> := swept + later;
    forall i, j | 0 <= i < j < |tail| && Creates(tail[i])
      ensures !Deletes(tail[j])
    {
      if i >= |swept| {
        assert tail[j] in later;
      }
    }
  }

  lemma RestCreatesLast(s: State, c: Choices)
    requires c.active.Some? ==> c.active.value in s.restores
    ensures CreatesLast(RestPlan(s, c).tail)
  {
    forall w | w in SweptTail(s, c) ensures !Creates(w) { SweptAre(s, c, w); }
    forall w | w in LaterTail(s, c) ensures !Deletes(w) { LaterAre(s, c, w); }
    DeletesThenCreates(SweptTail(s, c), LaterTail(s, c));
  }

  /** Where any write of a plan outside a switchover comes from. */
  lemma RestWrite(s: State, c: Choices, w: Tail)
    requires c.active.Some? ==> c.active.value in s.restores
    requires w in RestPlan(s, c).tail
    ensures SweptWrite(s, c, w) || LaterWrite(s, c, w)
  {
    if w in SweptTail(s, c) {
      SweptAre(s, c, w);
    } else {
      LaterAre(s, c, w);
    }
  }

  lemma CreatedName(s: State, c: Choices, w: Tail)
    requires c.active.Some? ==> c.active.value in s.restores
    requires w in RestPlan(s, c).tail && w.CreateRestore?
    ensures w.restore == c.newName
  {
    if w in SweptTail(s, c) {
      SweptAre(s, c, w);
    } else {
      assert w in LaterTail(s, c);
      if w !in ListTail(s, c).writes {
        TriggeredAre(s, c, w);
      }
    }
  }

  /** Only the last of `listed` may create, and then `rest` does not. */
  lemma CreatesOnceWhen(swept: seq<Tail>, listed: seq<Tail>, rest: seq<Tail>)
    requires forall w :: w in swept ==> !Creates(w)
    requires forall i :: 0 <= i < |listed| - 1 ==> !Creates(listed[i])
    requires CreatesOnce(rest)
    requires listed != [] && Creates(listed[|listed| - 1]) ==> forall w :: w in rest ==> !Creates(w)
    ensures CreatesOnce(swept + (listed + rest))
  {
    var tail: seq<Tail> := swept + (listed + rest);
    forall i, j | 0 <= i < j < |tail| && Creates(tail[i])
      ensures !Creates(tail[j])
    {
      var k := |swept| + |listed|;
      if k <= j {
        assert tail[j] == rest[j - k] && tail[j] in rest;
        if k <= i {
          assert tail[i] == rest[i - k];
        }
      }
    }
  }

  lemma ListedShape(s: State, c: Choices, i: nat)
    requires i < |ListTail(s, c).writes| - 1
    ensures !Creates(ListTail(s, c).writes[i])
  {
  }

  lemma TriggerShape(s: State, c: Choices)
    requires c.active.Some? ==> c.active.value in s.restores
    ensures CreatesOnce(TriggerTail(s, c))
  {
  }

  lemma RestCreatesOnce(s: State, c: Choices)
    requires c.active.Some? ==> c.active.value in s.restores
    ensures CreatesOnce(RestPlan(s, c).tail)
  {
    var ends := ListTail(s, c).ends || AnyInProgress(s.restores);
    var listed := ListTail(s, c).writes;
    var rest := if ends then [] else TriggerTail(s, c);
    forall i | 0 <= i < |listed| - 1 ensures !Creates(listed[i]) { ListedShape(s, c, i); }
    forall w | w in SweptTail(s, c) ensures !Creates(w) { SweptAre(s, c, w); }
    TriggerShape(s, c);
    if listed != [] && Creates(listed[|listed| - 1]) {
      ListedAre(s, c, listed[|listed| - 1]);
      forall w | w in rest ensures !Creates(w) { TriggeredAre(s, c, w); }
    }
    CreatesOnceWhen(SweptTail(s, c), listed, rest);
    assert LaterTail(s, c) == listed + rest;
  }

  lemma {:induction false} WithoutClearCreatesOnce(tail: seq<Tail>)
    requires CreatesOnce(tail)
    ensures CreatesOnce(WithoutClear(tail))
  {
    if tail != [] {
      var rest := WithoutClear(tail[1..]);
      WithoutClearCreatesOnce(tail[1..]);
      forall w | w in rest ensures w in tail[1..] { WithoutClearIs(tail[1..], w); }
      if Creates(tail[0]) {
        forall j | 0 <= j < |rest| ensures !Creates(rest[j]) {
          assert rest[j] in tail[1..];
        }
      }
    }
  }

  lemma {:induction false} WithoutClearIs(tail: seq<Tail>, w: Tail)
    ensures w in WithoutClear(tail) <==> w in tail && !w.ClearPhases?
  {
    if tail != [] {
      WithoutClearIs(tail[1..], w);
      assert tail == [tail[0]] + tail[1..];
    }
  }

  lemma {:induction false} WithoutClearCreatesLast(tail: seq<Tail>)
    requires CreatesLast(tail)
    ensures CreatesLast(WithoutClear(tail))
  {
    if tail != [] {
      var rest := WithoutClear(tail[1..]);
      WithoutClearCreatesLast(tail[1..]);
      forall w | w in rest ensures w in tail[1..] { WithoutClearIs(tail[1..], w); }
      if Creates(tail[0]) {
        forall j | 0 <= j < |rest| ensures !Deletes(rest[j]) {
          assert rest[j] in tail[1..];
        }
      }
    }
  }

  // ----- What a write of the tail touches --------------------------------------------

  predicate InTail(s: State) {
    s.pass.Some? && s.pass.value.gates == [] && s.pass.value.switch.None? && s.pass.value.tail != []
  }

  ghost predicate CreatesNow(s: State, n: Name) {
    && InTail(s) && s.pass.value.tail[0].CreateRestore? && s.pass.value.tail[0].restore == n && n !in s.restores
    && |LiveNames(s.restores)| < MAX_RESTORES_PER_REPLICA
  }

  /** Restores are deleted or asked to be, and one may be made; nothing else of them
      changes, and the writes left are those that were left before. */
  lemma TailTouches(s: State, n: Name)
    requires InTail(s)
    ensures var w, t := s.pass.value.tail[0], DoWork(s);
      n in t.restores ==>
        || (n in s.restores && t.restores[n] == s.restores[n].(deleting := t.restores[n].deleting))
        || (CreatesNow(s, n) && t.restores[n] == NewRestore(w.snapshot, w.hasTarget))
  {
    var p := s.pass.value;
    var popped := s.(pass := Some(p.(tail := p.tail[1..])));
    if Deletes(p.tail[0]) {
      DeleteWrites(s);
      DeleteTouches(popped, p.tail[0].restore, p.tail[0].lingers, n);
    } else if p.tail[0].CreateRestore? {
      CreateTouches(s, n);
    } else {
      OtherWrites(s);
    }
  }

  lemma DeleteWrites(s: State)
    requires InTail(s) && Deletes(s.pass.value.tail[0])
    ensures var w := s.pass.value.tail[0]; DoWork(s).restores == DeleteRestore(s, w.restore, w.lingers).restores
  {
    match s.pass.value.tail[0]
    case TearDown(_, _) => case SweepDelete(_, _) => case CleanFailed(_, _) =>
  }

  lemma OtherWrites(s: State)
    requires InTail(s) && !Deletes(s.pass.value.tail[0]) && !s.pass.value.tail[0].CreateRestore?
    ensures DoWork(s).restores == s.restores
  {
    match s.pass.value.tail[0]
    case RecordVerified(_) => case ClearPhases => case TakeListing => case DropListJob =>
    case SetSchedule(_) => case CreateListJob =>
  }

  lemma DeleteTouches(s: State, m: Name, lingers: bool, n: Name)
    ensures var t := DeleteRestore(s, m, lingers);
      n in t.restores ==> n in s.restores && t.restores[n] == s.restores[n].(deleting := t.restores[n].deleting)
  { }

  lemma CreateTouches(s: State, n: Name)
    requires InTail(s) && s.pass.value.tail[0].CreateRestore?
    ensures var w, t := s.pass.value.tail[0], DoWork(s);
      n in t.restores ==>
        (n in s.restores && t.restores[n] == s.restores[n]) || (CreatesNow(s, n) && t.restores[n] == NewRestore(w.snapshot, w.hasTarget))
  { }

  lemma TailLeaves(s: State)
    requires InTail(s)
    ensures var t, tail := DoWork(s), s.pass.value.tail;
      && (!Creates(tail[0]) ==> t.pass.Some?)
      && t.spec == s.spec && t.history == s.history && t.service == s.service && t.now == s.now
      && (t.pass.Some? ==>
            && t.pass.value.gates == [] && t.pass.value.switch.None?
            && (t.pass.value.tail == tail[1..] || t.pass.value.tail == WithoutClear(tail[1..])))
  {
    match s.pass.value.tail[0]
    case RecordVerified(_) => case TearDown(_, _) => case SweepDelete(_, _) => case ClearPhases =>
    case CleanFailed(_, _) => case TakeListing => case DropListJob => case CreateRestore(_, _, _) =>
    case SetSchedule(_) => case CreateListJob =>
  }

  // ----- Running a pass to its end ------------------------------------------------

  function StagesLeft(stage: Stage): nat {
    match stage case ToSelect => 4 case ToActivate => 3 case ToStamp => 2 case ToRecord(_) => 1
  }

  function WritesLeft(pass: Option<Pass>): nat {
    if pass.None? then 0
    else 1 + |pass.value.gates| + (if pass.value.switch.Some? then StagesLeft(pass.value.switch.value.stage) else 0) + |pass.value.tail|
  }

  lemma {:induction false} WithoutClearShorter(tail: seq<Tail>)
    ensures |WithoutClear(tail)| <= |tail|
  {
    if tail != [] {
      WithoutClearShorter(tail[1..]);
    }
  }

  lemma WorkShrinks(s: State)
    requires s.pass.Some?
    ensures WritesLeft(DoWork(s).pass) < WritesLeft(s.pass)
  {
    var p := s.pass.value;
    if p.gates == [] && p.switch.None? && p.tail != [] {
      WithoutClearShorter(p.tail[1..]);
    }
  }

  /** What a pass leaves behind when nothing happens between its writes. */
  ghost function Finish(s: State): State
    decreases WritesLeft(s.pass)
  {
    if s.pass.None? then s else WorkShrinks(s); Finish(DoWork(s))
  }
}
