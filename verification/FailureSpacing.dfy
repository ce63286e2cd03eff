/** The failure backoff spaces out a replica's failing restores. */
module FailureSpacing {
  import opened Options
  import opened Protocol
  import opened PassPlans
  import opened RunRules
  import CurrentHeld
  import Lifecycle

  // ----- The delay itself ---------------------------------------------------------

  /** 120, 240, 480, 960, 1920 and from the sixth failure on 3600 seconds. */
  lemma BackoffTable(failures: nat)
    requires failures > 0
    ensures failures <= 5 ==> FailureBackoff(failures) == 60 * Pow2(failures)
    ensures failures >= 6 ==> FailureBackoff(failures) == 3600
    ensures Pow2(1) == 2 && Pow2(2) == 4 && Pow2(3) == 8 && Pow2(4) == 16 && Pow2(5) == 32
  {
    assert Pow2(5) == 2 * Pow2(4) && Pow2(4) == 2 * Pow2(3) && Pow2(3) == 2 * Pow2(2) && Pow2(2) == 2 * Pow2(1) && Pow2(1) == 2 * Pow2(0);
    var exponent := if failures < BACKOFF_EXPONENT_CAP then failures else BACKOFF_EXPONENT_CAP;
    if failures >= 6 {
      Pow2Grows(6, exponent);
      assert Pow2(6) == 2 * Pow2(5);
    }
  }

  lemma {:induction false} Pow2Grows(a: nat, b: nat)
    requires a <= b
    ensures 1 <= Pow2(a) <= Pow2(b)
    decreases b
  {
    if a < b {
      Pow2Grows(a, b - 1);
    } else if a > 0 {
      Pow2Grows(a - 1, b - 1);
    }
  }

  /** Within two minutes and an hour, never shorter after more failures, and computed
      without leaving 64 bits however many there were. */
  lemma BackoffBounded(fewer: nat, more: nat)
    requires 0 < fewer <= more
    ensures 120 <= FailureBackoff(fewer) <= FailureBackoff(more) <= 3600
    ensures BACKOFF_BASE * Pow2(if more < BACKOFF_EXPONENT_CAP then more else BACKOFF_EXPONENT_CAP) < 0x1_0000_0000_0000_0000
  {
    BackoffTable(fewer);
    BackoffTable(more);
    var exponent := if more < BACKOFF_EXPONENT_CAP then more else BACKOFF_EXPONENT_CAP;
    Pow2Grows(exponent, 20);
    Pow2Twenty();
    if more <= 5 {
      Pow2Grows(fewer, more);
    }
  }

  lemma Pow2Twenty()
    ensures Pow2(20) == 1048576
  {
    assert Pow2(5) == 32 by { BackoffTable(1); }
    assert Pow2(10) == 1024 by {
      assert Pow2(10) == 2 * Pow2(9) && Pow2(9) == 2 * Pow2(8) && Pow2(8) == 2 * Pow2(7) && Pow2(7) == 2 * Pow2(6) && Pow2(6) == 2 * Pow2(5);
    }
    assert Pow2(15) == 32768 by {
      assert Pow2(15) == 2 * Pow2(14) && Pow2(14) == 2 * Pow2(13) && Pow2(13) == 2 * Pow2(12) && Pow2(12) == 2 * Pow2(11) && Pow2(11) == 2 * Pow2(10);
    }
    assert Pow2(20) == 2 * Pow2(19) && Pow2(19) == 2 * Pow2(18) && Pow2(18) == 2 * Pow2(17) && Pow2(17) == 2 * Pow2(16) && Pow2(16) == 2 * Pow2(15);
  }

  /** Failure `i + 1` comes at least the `i`-th delay after failure `i`. */
  predicate Spaced(times: seq<int>) {
    forall i :: 0 < i < |times| ==> times[i] - times[i - 1] >= FailureBackoff(i)
  }

  lemma {:induction false} SpacedSpan(times: seq<int>)
    requires Spaced(times) && times != []
    ensures times[0] <= times[|times| - 1]
    ensures |times| >= 6 ==> times[|times| - 1] - times[0] >= 3720 + 3600 * (|times| - 6)
    ensures |times| == 5 ==> times[4] - times[0] >= 1800
    decreases |times|
  {
    var n := |times|;
    if n > 1 {
      var before := times[..n - 1];
      assert Spaced(before);
      BackoffTable(n - 1);
      assert times[n - 1] - times[n - 2] >= FailureBackoff(n - 1);
      SpacedSpan(before);
      if n == 5 {
        BackoffTable(1); BackoffTable(2); BackoffTable(3);
        assert times[1] - times[0] >= FailureBackoff(1) && times[2] - times[1] >= FailureBackoff(2) && times[3] - times[2] >= FailureBackoff(3);
      }
    }
  }

  /** So a failing run that spans `t` seconds holds at most 6 + t/3600 failures. */
  lemma FailuresPerHour(times: seq<int>)
    requires Spaced(times) && times != []
    ensures |times| <= 6 + (times[|times| - 1] - times[0]) / 3600
  {
    SpacedSpan(times);
  }

  // ----- Who is under way ---------------------------------------------------------

  predicate InFlight(r: Restore) { r.phase.None? || r.InProgress() }

  ghost predicate NoneInFlight(s: State) { forall n :: n in s.restores ==> !InFlight(s.restores[n]) }

  /** No write that is left of the pass sets a schedule before `due`. */
  predicate NoneEarlier(pass: Option<Pass>, due: int) {
    pass.Some? ==> forall i :: 0 <= i < |pass.value.tail| && pass.value.tail[i].SetSchedule? ==> pass.value.tail[i].at >= due
  }

  /** The schedule is not edited, no restore is deleted by hand, a new restore has its
      phase before the next pass, and a failure is recorded on the replica, with no pass in
      hand about to write an earlier time over its delay. */
  predicate Steady(s: State, e: Event) {
    && !e.OutsideDelete?
    && (e.BeginPass? ==> !e.choices.scheduleChanged && NoneUnphased(s))
    && (Fails(s, e) ==> e.seen.recorded && NoneEarlier(s.pass, s.now + FailureBackoff(s.status.failures + 1)))
  }

  ghost predicate TailHas(s: State, kind: Tail -> bool) {
    s.pass.Some? && exists w :: w in s.pass.value.tail && kind(w)
  }

  predicate Reschedules(w: Tail) { w.SetSchedule? }

  /** A listing, or a write, from which a new restore may still come. */
  ghost predicate Yielding(s: State) {
    s.listJob == Some(JobRunning) || (s.listJob == Some(JobSucceeded) && s.listing) || TailHas(s, Creates)
  }

  /** When a restore is created, the listing it came from has been taken. */
  predicate Prepared(tail: seq<Tail>, listing: bool) {
    tail == [] ||
    (if tail[0].TakeListing? then Prepared(tail[1..], false)
     else (tail[0].CreateRestore? ==> !listing) && Prepared(tail[1..], listing))
  }

  ghost predicate OneAtATime(s: State) {
    && (forall m, n :: m in s.restores && n in s.restores && InFlight(s.restores[m]) && InFlight(s.restores[n]) ==> m == n)
    && (!NoneInFlight(s) ==> !Yielding(s))
    && (s.pass.Some? ==>
          && CreatesOnce(s.pass.value.tail) && Prepared(s.pass.value.tail, s.listing)
          && (TailHas(s, Creates) ==> s.listJob != Some(JobRunning)))
  }

  predicate Elapsed(s: State) {
    var times := s.history.failTimes;
    times != [] && s.now >= times[|times| - 1] + FailureBackoff(|times|)
  }

  /** Nothing can fail until the delay has passed. */
  ghost predicate HeldBack(s: State) {
    var times := s.history.failTimes;
    && times != [] && s.status.nextScheduled.Some?
    && s.status.nextScheduled.value >= times[|times| - 1] + FailureBackoff(|times|)
    && NoneInFlight(s) && !Yielding(s) && NoneEarlier(s.pass, times[|times| - 1] + FailureBackoff(|times|))
  }

  ghost predicate Inv(s: State) {
    && !s.spec.canopy && CurrentHeld.Inv(s) && OneAtATime(s)
    && |s.history.failTimes| == s.status.failures && Spaced(s.history.failTimes)
    && (s.status.failures > 0 ==> Elapsed(s) || HeldBack(s))
  }

  // ----- Steps that start nothing -------------------------------------------------

  ghost predicate NothingNew(s: State, t: State) {
    && (forall n :: n in t.restores && InFlight(t.restores[n]) ==> n in s.restores && InFlight(s.restores[n]))
    && (Yielding(t) ==> Yielding(s)) && SchedulesKept(s, t)
  }

  /** Every schedule still to be set was to be set before. */
  ghost predicate SchedulesKept(s: State, t: State) {
    t.pass.Some? ==> forall w <- t.pass.value.tail :: w.SetSchedule? ==> s.pass.Some? && w in s.pass.value.tail
  }

  ghost predicate PassPrepared(t: State) {
    t.pass.Some? ==>
      && CreatesOnce(t.pass.value.tail) && Prepared(t.pass.value.tail, t.listing)
      && (TailHas(t, Creates) ==> t.listJob != Some(JobRunning))
  }

  lemma QuietKeeps(s: State, t: State)
    requires Inv(s) && CurrentHeld.Inv(t) && NothingNew(s, t) && PassPrepared(t) && t.spec == s.spec && t.now >= s.now
    requires t.status.failures == s.status.failures && t.history.failTimes == s.history.failTimes
    requires t.status.nextScheduled == s.status.nextScheduled
    ensures Inv(t)
  {
  }

  /** The same once the delay has passed, whatever the schedule says by then. */
  lemma ElapsedKeeps(s: State, t: State)
    requires Inv(s) && CurrentHeld.Inv(t) && OneAtATime(t) && t.spec == s.spec && t.now >= s.now
    requires s.status.failures > 0 ==> Elapsed(s)
    requires t.status.failures == s.status.failures && t.history.failTimes == s.history.failTimes
    ensures Inv(t)
  {
  }

  // ----- Planning -----------------------------------------------------------------

  predicate Neutral(tail: seq<Tail>) { forall w :: w in tail ==> !w.TakeListing? && !w.CreateRestore? }

  lemma {:induction false} PreparedAfter(neutral: seq<Tail>, rest: seq<Tail>, listing: bool)
    requires Neutral(neutral)
    ensures Prepared(neutral + rest, listing) == Prepared(rest, listing)
  {
    if neutral == [] {
      assert neutral + rest == rest;
    } else {
      assert neutral[0] in neutral && (neutral + rest)[1..] == neutral[1..] + rest;
      PreparedAfter(neutral[1..], rest, listing);
    }
  }

  lemma {:induction false} PreparedBefore(tail: seq<Tail>, neutral: seq<Tail>, listing: bool)
    requires Neutral(neutral) && Prepared(tail, listing)
    ensures Prepared(tail + neutral, listing)
  {
    if tail == [] {
      assert tail + neutral == neutral + [];
      PreparedAfter(neutral, [], listing);
    } else {
      assert (tail + neutral)[1..] == tail[1..] + neutral;
      PreparedBefore(tail[1..], neutral, if tail[0].TakeListing? then false else listing);
    }
  }

  lemma ListedPrepared(s: State, c: Choices)
    ensures Prepared(ListTail(s, c).writes, s.listing)
  {
    if s.listJob == Some(JobSucceeded) {
      if s.listing {
        var drop := if c.listJobDeleted then [DropListJob] else [];
        var create := ListTail(s, c).writes[1 + |drop|..];
        assert ListTail(s, c).writes == [TakeListing] + (drop + create);
        assert ([TakeListing] + (drop + create))[1..] == drop + create;
        PreparedAfter(drop, create, false);
        assert Prepared(create, false);
      } else {
        PreparedAfter(ListTail(s, c).writes, [], s.listing);
        assert ListTail(s, c).writes + [] == ListTail(s, c).writes;
      }
    }
  }

  lemma RestPrepared(s: State, c: Choices)
    requires c.active.Some? ==> c.active.value in s.restores
    ensures Prepared(RestPlan(s, c).tail, s.listing)
  {
    forall w | w in SweptTail(s, c) ensures !w.TakeListing? && !w.CreateRestore? { SweptAre(s, c, w); }
    PreparedAfter(SweptTail(s, c), LaterTail(s, c), s.listing);
    ListedPrepared(s, c);
    if !(ListTail(s, c).ends || AnyInProgress(s.restores)) {
      PreparedBefore(ListTail(s, c).writes, TriggerTail(s, c), s.listing);
    }
  }

  /** A pass plans to make something new only when nothing is under way, and not at all
      while the backoff holds the replica back. */
  lemma PlannedCreates(s: State, c: Choices, w: Tail)
    requires Inv(s) && s.pass.None? && ValidChoices(s, c) && Steady(s, BeginPass(c))
    requires w in RestPlan(s, c).tail && (Creates(w) || Reschedules(w))
    ensures Creates(w) ==> NoneInFlight(s) && s.listJob != Some(JobRunning)
    ensures s.status.failures > 0 ==> Elapsed(s)
  {
    RestWrite(s, c, w);
  }

  lemma BeginKeeps(s: State, c: Choices)
    requires Inv(s) && s.pass.None? && ValidChoices(s, c) && Steady(s, BeginPass(c))
    ensures Inv(s.(pass := Some(Plan(s, c))))
  {
    var t := s.(pass := Some(Plan(s, c)));
    CurrentHeld.StepKeeps(s, BeginPass(c));
    if c.switching.None? && !(s.spec.ephemeral && c.active.Some? && !s.restores[c.active.value].deleting) {
      RestPrepared(s, c);
      RestCreatesOnce(s, c);
      forall w | w in t.pass.value.tail && (Creates(w) || Reschedules(w))
        ensures (Creates(w) ==> NoneInFlight(s) && s.listJob != Some(JobRunning)) && (s.status.failures > 0 ==> Elapsed(s))
      {
        PlannedCreates(s, c, w);
      }
      if TailHas(t, Creates) || TailHas(t, Reschedules) {
        ElapsedKeeps(s, t);
      } else {
        QuietKeeps(s, t);
      }
    } else {
      PlainTailKeeps(s, t);
    }
  }

  /** A pass that is switching over or tearing down makes nothing and reschedules nothing. */
  lemma PlainTailKeeps(s: State, t: State)
    requires Inv(s) && s.pass.None? && CurrentHeld.Inv(t) && t.pass.Some? && t == s.(pass := t.pass)
    requires forall w :: w in t.pass.value.tail ==> w.RecordVerified? || w.TearDown?
    ensures Inv(t)
  {
    var tail := t.pass.value.tail;
    PreparedAfter(tail, [], t.listing);
    assert tail + [] == tail;
    assert forall i :: 0 <= i < |tail| ==> tail[i] in tail;
    QuietKeeps(s, t);
  }

  // ----- Writes -------------------------------------------------------------------

  lemma PreparedPop(s: State)
    requires PassPrepared(s) && s.pass.Some? && s.pass.value.tail != []
    ensures var tail := s.pass.value.tail;
      && CreatesOnce(tail[1..]) && CreatesOnce(WithoutClear(tail[1..]))
      && Prepared(tail[1..], if tail[0].TakeListing? then false else s.listing)
      && Prepared(WithoutClear(tail[1..]), if tail[0].TakeListing? then false else s.listing)
      && (Creates(tail[0]) ==> forall w :: w in tail[1..] ==> !Creates(w))
  {
    var tail := s.pass.value.tail;
    WithoutClearCreatesOnce(tail[1..]);
    WithoutClearPrepared(tail[1..], if tail[0].TakeListing? then false else s.listing);
    if Creates(tail[0]) {
      forall w | w in tail[1..] ensures !Creates(w) {
        var j :| 1 <= j < |tail| && tail[j] == w;
      }
    }
  }

  lemma {:induction false} WithoutClearPrepared(tail: seq<Tail>, listing: bool)
    requires Prepared(tail, listing)
    ensures Prepared(WithoutClear(tail), listing)
  {
    if tail != [] {
      var now := if tail[0].TakeListing? then false else listing;
      WithoutClearPrepared(tail[1..], now);
      assert ([tail[0]] + WithoutClear(tail[1..]))[1..] == WithoutClear(tail[1..]);
      assert [] + WithoutClear(tail[1..]) == WithoutClear(tail[1..]);
    }
  }

  /** What a write that creates and reschedules nothing does to the rest. */
  lemma TailEffect(s: State)
    requires s.pass.Some? && s.pass.value.gates == [] && s.pass.value.switch.None? && s.pass.value.tail != []
    requires !Creates(s.pass.value.tail[0]) && !Reschedules(s.pass.value.tail[0])
    ensures var tail, t := s.pass.value.tail, DoWork(s);
      && t.pass.Some? && (t.pass.value.tail == tail[1..] || t.pass.value.tail == WithoutClear(tail[1..]))
      && t.listing == (if tail[0].TakeListing? then false else s.listing)
      && (t.listJob == s.listJob || t.listJob == None)
      && t.spec == s.spec && t.now == s.now && t.history == s.history
      && t.status.failures == s.status.failures && t.status.nextScheduled == s.status.nextScheduled
  {
  }

  lemma TailNoNewFlight(s: State, n: Name)
    requires s.pass.Some? && s.pass.value.gates == [] && s.pass.value.switch.None? && s.pass.value.tail != []
    requires !Creates(s.pass.value.tail[0])
    ensures n in DoWork(s).restores && InFlight(DoWork(s).restores[n]) ==> n in s.restores && InFlight(s.restores[n])
  {
  }

  /** Fewer writes left, and no listing that was not there. */
  lemma FewerYield(s: State, t: State)
    requires s.pass.Some? && t.pass.Some? && forall w :: w in t.pass.value.tail ==> w in s.pass.value.tail
    requires (t.listing ==> s.listing) && (t.listJob == s.listJob || t.listJob == None)
    ensures (Yielding(t) ==> Yielding(s)) && SchedulesKept(s, t)
    ensures TailHas(t, Creates) ==> TailHas(s, Creates)
  {
  }

  lemma TailNothingNew(s: State)
    requires Inv(s) && s.pass.Some? && s.pass.value.gates == [] && s.pass.value.switch.None? && s.pass.value.tail != []
    requires !Creates(s.pass.value.tail[0]) && !Reschedules(s.pass.value.tail[0])
    ensures NothingNew(s, DoWork(s)) && PassPrepared(DoWork(s))
  {
    var tail, t := s.pass.value.tail, DoWork(s);
    PreparedPop(s);
    TailEffect(s);
    forall w | w in WithoutClear(tail[1..]) ensures w in tail { WithoutClearIs(tail[1..], w); }
    FewerYield(s, t);
    forall n | n in t.restores && InFlight(t.restores[n]) ensures n in s.restores && InFlight(s.restores[n]) {
      TailNoNewFlight(s, n);
    }
  }

  lemma TailKeeps(s: State)
    requires Inv(s) && s.pass.Some? && s.pass.value.gates == [] && s.pass.value.switch.None? && s.pass.value.tail != []
    ensures Inv(DoWork(s))
  {
    CurrentHeld.StepKeeps(s, Work);
    var tail := s.pass.value.tail;
    var w := tail[0];
    assert w in tail;
    if Creates(w) {
      CreatingKeeps(s);
    } else if Reschedules(w) {
      SchedulingKeeps(s);
    } else {
      TailNothingNew(s);
      TailEffect(s);
      QuietKeeps(s, DoWork(s));
    }
  }

  lemma SchedulingKeeps(s: State)
    requires Inv(s) && s.pass.Some? && s.pass.value.gates == [] && s.pass.value.switch.None? && s.pass.value.tail != []
    requires Reschedules(s.pass.value.tail[0]) && CurrentHeld.Inv(DoWork(s))
    ensures Inv(DoWork(s))
  {
    var tail, t := s.pass.value.tail, DoWork(s);
    PreparedPop(s);
    assert forall w :: w in t.pass.value.tail ==> w in tail;
    assert OneAtATime(t);
    if s.status.failures > 0 && !Elapsed(s) {
      HeldScheduling(s);
    } else {
      ElapsedKeeps(s, t);
    }
  }

  /** A schedule that a held-back replica is given is no earlier than the end of its delay. */
  lemma HeldScheduling(s: State)
    requires HeldBack(s) && InTail(s) && Reschedules(s.pass.value.tail[0])
    ensures HeldBack(DoWork(s))
  {
    var tail, t := s.pass.value.tail, DoWork(s);
    assert t == s.(status := s.status.(nextScheduled := Some(tail[0].at)), pass := Some(Pass([], None, tail[1..])));
    assert forall i :: 0 <= i < |tail[1..]| ==> tail[1..][i] == tail[i + 1];
    assert TailHas(t, Creates) ==> TailHas(s, Creates);
  }

  lemma CreatingKeeps(s: State)
    requires Inv(s) && s.pass.Some? && s.pass.value.gates == [] && s.pass.value.switch.None? && s.pass.value.tail != []
    requires Creates(s.pass.value.tail[0]) && CurrentHeld.Inv(DoWork(s))
    ensures Inv(DoWork(s))
  {
    var tail, t := s.pass.value.tail, DoWork(s);
    PreparedPop(s);
    assert tail[0] in tail && TailHas(s, Creates);
    assert t.pass.Some? ==> t.pass.value.tail == tail[1..];
    ElapsedKeeps(s, t);
  }

  lemma SwitchKeeps(s: State)
    requires Inv(s) && s.pass.Some? && s.pass.value.gates == [] && s.pass.value.switch.Some?
    ensures Inv(DoWork(s))
  {
    CurrentHeld.StepKeeps(s, Work);
    if s.pass.value.switch.value.stage.ToRecord? {
      RecordKeeps(s);
    } else {
      SwitchQuiet(s);
      QuietKeeps(s, DoWork(s));
    }
  }

  lemma SwitchQuiet(s: State)
    requires s.pass.Some? && s.pass.value.gates == [] && s.pass.value.switch.Some? && s.pass.value.tail == []
    requires !s.pass.value.switch.value.stage.ToRecord?
    ensures var t := DoWork(s);
      && NothingNew(s, t) && PassPrepared(t) && t.spec == s.spec && t.now == s.now
      && t.status == s.status && t.history.failTimes == s.history.failTimes
  {
    var t := DoWork(s);
    forall n | n in t.restores && InFlight(t.restores[n]) ensures n in s.restores && InFlight(s.restores[n]) {
      match s.pass.value.switch.value.stage
      case ToSelect => case ToActivate => case ToStamp =>
    }
    assert t.pass.Some? ==> t.pass.value.tail == [];
  }

  lemma RecordKeeps(s: State)
    requires Inv(s) && s.pass.Some? && s.pass.value.gates == [] && s.pass.value.switch.Some?
    requires s.pass.value.switch.value.stage.ToRecord? && CurrentHeld.Inv(DoWork(s))
    ensures Inv(DoWork(s))
  { }

  lemma GateEffect(s: State, n: Name)
    requires s.pass.Some? && s.pass.value.gates != []
    ensures var t := DoWork(s);
      && t.pass.Some? && t.pass.value.tail == s.pass.value.tail && t.listing == s.listing && t.listJob == s.listJob
      && t.history == s.history && t.now == s.now && t.spec == s.spec
      && t.status.failures == s.status.failures && t.status.nextScheduled == s.status.nextScheduled
      && (n in t.restores && InFlight(t.restores[n]) ==> n in s.restores && InFlight(s.restores[n]))
  {
  }

  lemma GateKeeps(s: State)
    requires Inv(s) && s.pass.Some? && s.pass.value.gates != []
    ensures Inv(DoWork(s))
  {
    var t := DoWork(s);
    CurrentHeld.StepKeeps(s, Work);
    forall n | n in t.restores && InFlight(t.restores[n]) ensures n in s.restores && InFlight(s.restores[n]) {
      GateEffect(s, n);
    }
    GateEffect(s, 0);
    FewerYield(s, t);
    QuietKeeps(s, t);
  }

  lemma WorkKeeps(s: State)
    requires Inv(s) && s.pass.Some?
    ensures Inv(DoWork(s))
  {
    if s.pass.value.gates != [] {
      GateKeeps(s);
    } else if s.pass.value.switch.Some? {
      SwitchKeeps(s);
    } else if s.pass.value.tail != [] {
      TailKeeps(s);
    } else {
      CurrentHeld.StepKeeps(s, Work);
      QuietKeeps(s, DoWork(s));
    }
  }

  // ----- Everything else ----------------------------------------------------------

  /** A restore that fails was under way, so the delay since the last failure is over. */
  lemma FailureKeeps(s: State, n: Name, o: Observation)
    requires Inv(s) && n in s.restores && Steady(s, RestorePass(n, o)) && Handle(s.restores[n], o, s.now).failed
    requires CurrentHeld.Inv(RestoreStep(s, n, o))
    ensures Inv(RestoreStep(s, n, o))
  {
    var t := RestoreStep(s, n, o);
    var times := s.history.failTimes;
    assert InFlight(s.restores[n]) && !NoneInFlight(s);
    forall m | m in t.restores ensures !InFlight(t.restores[m]) {
      assert m != n ==> !InFlight(s.restores[m]);
    }
    forall i | 0 < i < |t.history.failTimes|
      ensures t.history.failTimes[i] - t.history.failTimes[i - 1] >= FailureBackoff(i)
    {
      if i < |times| {
        assert times[i] - times[i - 1] >= FailureBackoff(i);
      }
    }
  }

  lemma RestorePassKeeps(s: State, n: Name, o: Observation)
    requires Inv(s) && n in s.restores && Steady(s, RestorePass(n, o))
    ensures Inv(RestoreStep(s, n, o))
  {
    CurrentHeld.StepKeeps(s, RestorePass(n, o));
    if Handle(s.restores[n], o, s.now).failed {
      FailureKeeps(s, n, o);
    } else {
      HandledInFlight(s.restores[n], o, s.now);
      QuietKeeps(s, RestoreStep(s, n, o));
    }
  }

  lemma HandledInFlight(r: Restore, o: Observation, now: int)
    ensures InFlight(Handle(r, o, now).restore) ==> InFlight(r)
  {
  }

  lemma OtherNothingNew(s: State, e: Event)
    requires Inv(s) && !e.BeginPass? && !e.Work? && !e.RestorePass?
    ensures NothingNew(s, Step(s, e)) && PassPrepared(Step(s, e))
  {
    var t := Step(s, e);
    assert t.pass == s.pass || t.pass == None;
    if e.ListingPosted? && s.listJob == Some(JobRunning) && s.pass.Some? {
      forall w | w in s.pass.value.tail ensures !w.CreateRestore? {
        assert !TailHas(s, Creates) && !Creates(w);
      }
      PreparedWithoutCreates(s.pass.value.tail, true);
    }
  }

  lemma {:induction false} PreparedWithoutCreates(tail: seq<Tail>, listing: bool)
    requires forall w :: w in tail ==> !w.CreateRestore?
    ensures Prepared(tail, listing)
  {
    if tail != [] {
      PreparedWithoutCreates(tail[1..], if tail[0].TakeListing? then false else listing);
    }
  }

  lemma StepKeeps(s: State, e: Event)
    requires Inv(s) && Steady(s, e)
    ensures Inv(Step(s, e))
  {
    match e
    case BeginPass(c) => if s.pass.None? && ValidChoices(s, c) { BeginKeeps(s, c); }
    case Work => if s.pass.Some? { WorkKeeps(s); }
    case RestorePass(n, o) => if n in s.restores { RestorePassKeeps(s, n, o); }
    case _ =>
      CurrentHeld.StepKeeps(s, e);
      OtherNothingNew(s, e);
      QuietKeeps(s, Step(s, e));
  }

  lemma {:induction false} RunKeeps(s: State, events: seq<Event>)
    requires Inv(s) && Along(s, events, Steady)
    ensures Inv(Run(s, events))
    decreases |events|
  {
    if events != [] {
      StepKeeps(s, events[0]);
      RunKeeps(Step(s, events[0]), events[1..]);
    }
  }

  /** On every such run of a kopia-secret replica, consecutive failures since the last
      success are at least their backoff apart, so an unbroken failing run that spans
      `t` seconds holds at most 6 + t/3600 of them. */
  lemma FailuresSpacedOut(s: State, events: seq<Event>)
    requires Initial(s) && !s.spec.canopy && Along(s, events, Steady)
    ensures var t := Run(s, events);
      var times := t.history.failTimes;
      && |times| == t.status.failures
      && (forall i :: 0 < i < |times| ==> times[i] - times[i - 1] >= FailureBackoff(i))
      && (times != [] ==> |times| <= 6 + (times[|times| - 1] - times[0]) / 3600)
  {
    RunKeeps(s, events);
    if Run(s, events).history.failTimes != [] {
      FailuresPerHour(Run(s, events).history.failTimes);
    }
  }
}
