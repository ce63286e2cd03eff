/** How long a locale reindex may hold a restore's readiness: what was last seen of its
    progress and since when, and how that answers for the whole history of looking. */
module ReindexWatch {
  import opened Options

  type Key = string
  type Progress = string

  const STALL_TIMEOUT := 30 * 60
  const OBSERVE_INTERVAL := 60
  const ABANDONED_AFTER := 10 * 60

  /** `progress` is none when no locale reindex holds readiness. */
  datatype Watch = Watch(progress: Option<Progress>, observedAt: int, changedAt: int)

  datatype Verdict = Wait | NotReindexing | Stalled

  function Record(previous: Option<Watch>, progress: Option<Progress>, now: int): Watch {
    var changedAt := if previous.Some? && previous.value.progress == progress then previous.value.changedAt else now;
    Watch(progress, now, changedAt)
  }

  function Unobserved(previous: Watch, now: int): Watch { previous.(observedAt := now) }

  predicate NeedsObservation(w: Watch, now: int) { now - w.observedAt >= OBSERVE_INTERVAL }

  predicate Abandoned(w: Watch, now: int) { now - w.observedAt > ABANDONED_AFTER }

  function Judge(w: Watch, now: int): Verdict {
    if w.progress.None? then NotReindexing else if now - w.changedAt > STALL_TIMEOUT then Stalled else Wait
  }

  // ----- A history of looks -------------------------------------------------------------

  /** One look at the database. `seen` is none where it failed. */
  datatype Look = Look(at: int, seen: Option<Option<Progress>>)

  function Fold(w: Option<Watch>, looks: seq<Look>): Option<Watch>
    decreases |looks|
  {
    if looks == [] then w
    else
      var w' := Fold(w, looks[..|looks| - 1]);
      var last := looks[|looks| - 1];
      match last.seen
      case Some(progress) => Some(Record(w', progress, last.at))
      case None => if w'.Some? then Some(Unobserved(w'.value, last.at)) else None
  }

  predicate InTime(looks: seq<Look>, now: int) {
    && (forall i, j :: 0 <= i < j < |looks| ==> looks[i].at <= looks[j].at)
    && (forall i :: 0 <= i < |looks| ==> looks[i].at <= now)
  }

  /** What the last look that succeeded saw. */
  function LastSeen(looks: seq<Look>): Option<Option<Progress>>
    decreases |looks|
  {
    if looks == [] then None
    else if looks[|looks| - 1].seen.Some? then looks[|looks| - 1].seen
    else LastSeen(looks[..|looks| - 1])
  }

  /** From look `i`, which succeeded, on, every look that succeeded saw `p`. */
  predicate UnchangedSince(looks: seq<Look>, i: nat, p: Option<Progress>) {
    && i < |looks| && looks[i].seen == Some(p)
    && forall j :: i <= j < |looks| && looks[j].seen.Some? ==> looks[j].seen == Some(p)
  }

  /** Look `i`, at `at`, began the latest run of looks that saw `p`. */
  ghost predicate Began(looks: seq<Look>, i: nat, p: Option<Progress>, at: int) {
    && UnchangedSince(looks, i, p) && looks[i].at == at
    && forall j: nat :: UnchangedSince(looks, j, p) ==> i <= j
  }

  lemma {:induction false} SinceExtends(looks: seq<Look>, i: nat, p: Option<Progress>)
    requires looks != [] && i < |looks| - 1
    ensures var l := looks[|looks| - 1];
      UnchangedSince(looks, i, p) <==> UnchangedSince(looks[..|looks| - 1], i, p) && (l.seen.None? || l.seen == Some(p))
  {
    var n := |looks| - 1;
    assert forall j :: 0 <= j < n ==> looks[..n][j] == looks[j];
    if UnchangedSince(looks[..n], i, p) && (looks[n].seen.None? || looks[n].seen == Some(p)) {
      forall j | i <= j < |looks| && looks[j].seen.Some? ensures looks[j].seen == Some(p) {
        if j < n { assert looks[..n][j].seen.Some?; }
      }
    }
    if UnchangedSince(looks, i, p) {
      forall j | i <= j < n && looks[..n][j].seen.Some? ensures looks[..n][j].seen == Some(p) {
        assert looks[j].seen.Some?;
      }
    }
  }

  lemma {:induction false} SinceIsLast(looks: seq<Look>, i: nat, p: Option<Progress>)
    requires UnchangedSince(looks, i, p)
    ensures LastSeen(looks) == Some(p)
    decreases |looks|
  {
    var n := |looks| - 1;
    if looks[n].seen.None? {
      SinceExtends(looks, i, p);
      SinceIsLast(looks[..n], i, p);
    }
  }

  /** The watch after any history: what was last seen, and when the latest run of equal
      sightings began. A look that failed adds nothing to either. */
  lemma {:induction false} FoldIsHistory(looks: seq<Look>)
    ensures Fold(None, looks).Some? <==> LastSeen(looks).Some?
    ensures Fold(None, looks).Some? ==>
      var w := Fold(None, looks).value;
      && LastSeen(looks) == Some(w.progress)
      && exists i: nat :: Began(looks, i, w.progress, w.changedAt)
    decreases |looks|
  {
    if looks != [] {
      FoldIsHistory(looks[..|looks| - 1]);
      if Fold(None, looks).Some? { BeganExtends(looks, looks[..|looks| - 1]); }
    }
  }

  lemma BeganExtends(looks: seq<Look>, before: seq<Look>)
    requires looks != [] && before == looks[..|looks| - 1] && Fold(None, looks).Some?
    requires Fold(None, before).Some? <==> LastSeen(before).Some?
    requires Fold(None, before).Some? ==>
      var b := Fold(None, before).value;
      LastSeen(before) == Some(b.progress) && exists i: nat :: Began(before, i, b.progress, b.changedAt)
    ensures var w := Fold(None, looks).value; exists i: nat :: Began(looks, i, w.progress, w.changedAt)
  {
    var n := |looks| - 1;
    var last := looks[n];
    var b, w := Fold(None, before), Fold(None, looks).value;
    if b.Some? && w.progress == b.value.progress {
      var i: nat :| Began(before, i, b.value.progress, b.value.changedAt);
      SinceExtends(looks, i, w.progress);
      forall j: nat | UnchangedSince(looks, j, w.progress) ensures i <= j {
        if j < n { SinceExtends(looks, j, w.progress); }
      }
      assert Began(looks, i, w.progress, w.changedAt);
    } else {
      assert last.seen == Some(w.progress);
      forall j: nat | UnchangedSince(looks, j, w.progress) ensures n <= j {
        if j < n {
          SinceExtends(looks, j, w.progress);
          SinceIsLast(before, j, w.progress);
        }
      }
      assert Began(looks, n, w.progress, w.changedAt);
    }
  }

  /** Stalled means: something was reindexing at the last look that succeeded, and a look
      more than thirty minutes ago saw the very same, as did all that succeeded since. */
  lemma StalledExactly(looks: seq<Look>, now: int)
    requires InTime(looks, now) && Fold(None, looks).Some?
    ensures Judge(Fold(None, looks).value, now) == Stalled <==>
      exists i: nat, p: Progress :: UnchangedSince(looks, i, Some(p)) && now - looks[i].at > 1800
    ensures Judge(Fold(None, looks).value, now) == NotReindexing <==> LastSeen(looks) == Some(None)
  {
    FoldIsHistory(looks);
    var w := Fold(None, looks).value;
    var i: nat :| Began(looks, i, w.progress, w.changedAt);
    if j: nat, p: Progress :| UnchangedSince(looks, j, Some(p)) && now - looks[j].at > 1800 {
      SinceIsLast(looks, j, Some(p));
      assert UnchangedSince(looks, j, w.progress);
    }
    if Judge(w, now) == Stalled {
      assert UnchangedSince(looks, i, Some(w.progress.value));
    }
  }

  datatype Failure = NotReady | NoProgress

  /** What becomes of a restore past its budget; none keeps it waiting. The verdict is none
      where an explicit timeout is the last word. */
  function PastBudget(verdict: Option<Verdict>): Option<Failure> {
    match verdict
    case Some(Wait) => None
    case Some(Stalled) => Some(NoProgress)
    case Some(NotReindexing) => Some(NotReady)
    case None => Some(NotReady)
  }

  /** A restore past its budget is kept waiting exactly while a reindex was there at the
      last look that succeeded and some look within thirty minutes began what it saw. */
  lemma HeldExactly(looks: seq<Look>, now: int)
    requires InTime(looks, now) && Fold(None, looks).Some?
    ensures PastBudget(Some(Judge(Fold(None, looks).value, now))).None? <==>
      && LastSeen(looks) != Some(None)
      && forall i: nat :: UnchangedSince(looks, i, Fold(None, looks).value.progress) ==> now - looks[i].at <= 1800
    ensures PastBudget(Some(Judge(Fold(None, looks).value, now))) == Some(NotReady) <==> LastSeen(looks) == Some(None)
    ensures PastBudget(None) == Some(NotReady)
  {
    FoldIsHistory(looks);
    var w := Fold(None, looks).value;
    var i: nat :| Began(looks, i, w.progress, w.changedAt);
    StalledExactly(looks, now);
  }

  /** Failed looks put in anywhere change no verdict. */
  function Succeeded(looks: seq<Look>): seq<Look>
    decreases |looks|
  {
    if looks == [] then []
    else if looks[|looks| - 1].seen.Some? then Succeeded(looks[..|looks| - 1]) + [looks[|looks| - 1]]
    else Succeeded(looks[..|looks| - 1])
  }

  lemma {:induction false} FailedLooksChangeNothing(looks: seq<Look>, now: int)
    ensures Fold(None, looks).Some? <==> Fold(None, Succeeded(looks)).Some?
    ensures Fold(None, looks).Some? ==>
      var w, v := Fold(None, looks).value, Fold(None, Succeeded(looks)).value;
      w.progress == v.progress && w.changedAt == v.changedAt && Judge(w, now) == Judge(v, now)
    decreases |looks|
  {
    if looks != [] {
      var n := |looks| - 1;
      FailedLooksChangeNothing(looks[..n], now);
      if looks[n].seen.Some? {
        assert Succeeded(looks)[..|Succeeded(looks)| - 1] == Succeeded(looks[..n]);
      }
    }
  }

  // ----- Many restores, one map -----------------------------------------------------------

  /** A reconcile past its budget asks about its restore, at which a look would see `seen`;
      or forgets a restore it no longer waits for. */
  datatype Call = Ask(key: Key, now: int, seen: Option<Option<Progress>>) | Forget(key: Key)

  type Watches = map<Key, Watch>

  function Get(ws: Watches, k: Key): Option<Watch> { if k in ws then Some(ws[k]) else None }

  /** What an ask makes of the watch of its own restore. */
  function Asked(previous: Option<Watch>, now: int, seen: Option<Option<Progress>>): Option<Watch> {
    if previous.Some? && !NeedsObservation(previous.value, now) then previous
    else match seen
      case Some(progress) => Some(Record(previous, progress, now))
      case None => if previous.Some? then Some(Unobserved(previous.value, now)) else None
  }

  function Answer(w: Option<Watch>, now: int): Verdict {
    if w.Some? then Judge(w.value, now) else NotReindexing
  }

  /** A look clears away the watches nobody has looked at for long. */
  function Next(ws: Watches, c: Call): Watches {
    match c
    case Forget(k) => ws - {k}
    case Ask(k, now, seen) =>
      var previous := Get(ws, k);
      if previous.Some? && !NeedsObservation(previous.value, now) then ws
      else
        var watch := Asked(previous, now, seen);
        if watch.None? then ws else (map j <- ws | !Abandoned(ws[j], now) :: ws[j])[k := watch.value]
  }

  function After(ws: Watches, calls: seq<Call>): Watches
    decreases |calls|
  {
    if calls == [] then ws else Next(After(ws, calls[..|calls| - 1]), calls[|calls| - 1])
  }

  /** The watch of `k` were it the only restore there is. */
  function Alone(calls: seq<Call>, k: Key): Option<Watch>
    decreases |calls|
  {
    if calls == [] then None
    else
      var w := Alone(calls[..|calls| - 1], k);
      var last := calls[|calls| - 1];
      if last.key != k then w
      else match last
        case Forget(_) => None
        case Ask(_, now, seen) => Asked(w, now, seen)
  }

  /** The last time `k` was asked about, since it was last forgotten. */
  function LastAsk(calls: seq<Call>, k: Key): Option<int>
    decreases |calls|
  {
    if calls == [] then None
    else
      var last := calls[|calls| - 1];
      if last.key != k then LastAsk(calls[..|calls| - 1], k)
      else match last
        case Forget(_) => None
        case Ask(_, now, _) => Some(now)
  }

  /** Time does not run backwards, and while `k` waits it is asked about often enough: no
      ask, of any restore, comes more than nine minutes after the last one about `k`. */
  predicate Attended(calls: seq<Call>, k: Key)
    decreases |calls|
  {
    calls == [] ||
    (&& Attended(calls[..|calls| - 1], k)
     && var last, before := calls[|calls| - 1], LastAsk(calls[..|calls| - 1], k);
        last.Ask? && before.Some? ==>
          before.value <= last.now <= before.value + 540)
  }

  lemma {:induction false} ObservedLately(calls: seq<Call>, k: Key)
    requires Attended(calls, k) && Alone(calls, k).Some?
    ensures LastAsk(calls, k).Some?
    ensures LastAsk(calls, k).value - OBSERVE_INTERVAL < Alone(calls, k).value.observedAt <= LastAsk(calls, k).value
    decreases |calls|
  {
    var n := |calls| - 1;
    var last := calls[n];
    if last.key != k || (last.Ask? && Alone(calls[..n], k).Some?) {
      ObservedLately(calls[..n], k);
    }
  }

  /** Restores share the map of watches, and each look clears it out, yet the watch of a
      restore that is asked about at least every nine minutes is the one it would have if
      no other restore were there. */
  lemma {:induction false} WatchesStayApart(calls: seq<Call>, k: Key)
    requires Attended(calls, k)
    ensures Get(After(map[], calls), k) == Alone(calls, k)
    decreases |calls|
  {
    if calls != [] {
      var n := |calls| - 1;
      WatchesStayApart(calls[..n], k);
      if Alone(calls[..n], k).Some? { ObservedLately(calls[..n], k); }
    }
  }

  /** The looks actually made for `k` since it was last forgotten: none within a minute of
      the one before, once there is something to fall back on. */
  function Made(calls: seq<Call>, k: Key): seq<Look>
    decreases |calls|
  {
    if calls == [] then []
    else
      var made, w, last := Made(calls[..|calls| - 1], k), Alone(calls[..|calls| - 1], k), calls[|calls| - 1];
      if last.key != k then made
      else match last
        case Forget(_) => []
        case Ask(_, now, seen) => if w.Some? && !NeedsObservation(w.value, now) then made else made + [Look(now, seen)]
  }

  lemma {:induction false} AloneIsFold(calls: seq<Call>, k: Key)
    ensures Alone(calls, k) == Fold(None, Made(calls, k))
    decreases |calls|
  {
    if calls != [] {
      var n := |calls| - 1;
      AloneIsFold(calls[..n], k);
      if calls[n].key == k && calls[n].Ask? {
        var made := Made(calls[..n], k);
        assert (made + [Look(calls[n].now, calls[n].seen)])[..|made|] == made;
      }
    }
  }

  lemma {:induction false} LastLookObserved(calls: seq<Call>, k: Key)
    requires Alone(calls, k).Some?
    ensures Made(calls, k) != [] && Made(calls, k)[|Made(calls, k)| - 1].at == Alone(calls, k).value.observedAt
    decreases |calls|
  {
    var n := |calls| - 1;
    if Alone(calls[..n], k).Some? && !(calls[n].key == k && calls[n].Forget?) { LastLookObserved(calls[..n], k); }
  }

  /** An ask looks at the database if and only if nothing is known of the restore yet or the
      last look at it was a minute ago or more. */
  lemma LooksExactly(calls: seq<Call>, k: Key, now: int, seen: Option<Option<Progress>>)
    ensures var made := Made(calls, k);
      Made(calls + [Ask(k, now, seen)], k) ==
        if Alone(calls, k).None? || (made != [] && now - made[|made| - 1].at >= 60) then made + [Look(now, seen)] else made
  {
    assert (calls + [Ask(k, now, seen)])[..|calls|] == calls;
    if Alone(calls, k).Some? { LastLookObserved(calls, k); }
  }

  /** A look that tells something clears away the watches of other restores that were last
      looked at more than ten minutes ago, and no others. */
  lemma ClearedExactly(ws: Watches, k: Key, now: int, progress: Option<Progress>, other: Key)
    requires other != k && other in ws && (k in ws ==> now - ws[k].observedAt >= 60)
    ensures var after := Next(ws, Ask(k, now, Some(progress)));
      (other in after <==> now - ws[other].observedAt <= 600) && (other in after ==> after[other] == ws[other])
  { }

  lemma {:induction false} MadeInTime(calls: seq<Call>, k: Key)
    requires Attended(calls, k)
    ensures LastAsk(calls, k).None? ==> Made(calls, k) == []
    ensures LastAsk(calls, k).Some? ==> InTime(Made(calls, k), LastAsk(calls, k).value)
    decreases |calls|
  {
    if calls != [] {
      MadeInTime(calls[..|calls| - 1], k);
    }
  }

  /** So an ask about `k` says Stalled exactly when the looks made for `k` alone say that
      nothing has moved for thirty minutes. */
  lemma SharedVerdictExactly(calls: seq<Call>, k: Key, now: int)
    requires Attended(calls, k) && LastAsk(calls, k) == Some(now)
    ensures Answer(Get(After(map[], calls), k), now) == Stalled <==>
      exists i: nat, p: Progress :: UnchangedSince(Made(calls, k), i, Some(p)) && now - Made(calls, k)[i].at > 1800
    ensures Answer(Get(After(map[], calls), k), now) == NotReindexing <==>
      LastSeen(Made(calls, k)) == None || LastSeen(Made(calls, k)) == Some(None)
  {
    WatchesStayApart(calls, k);
    AloneIsFold(calls, k);
    MadeInTime(calls, k);
    var looks := Made(calls, k);
    FoldIsHistory(looks);
    if Fold(None, looks).Some? {
      StalledExactly(looks, now);
    } else {
      forall i: nat, p: Progress ensures !UnchangedSince(looks, i, Some(p)) {
        if UnchangedSince(looks, i, Some(p)) { SinceIsLast(looks, i, Some(p)); }
      }
    }
  }

  class ReindexWatches {
    var watches: Watches

    constructor ()
      ensures watches == map[]
    {
      watches := map[];
    }

    method ForgetWatch(key: Key)
      modifies this
      ensures watches == Next(old(watches), Forget(key))
    {
      watches := watches - {key};
    }

    method DropAbandoned(now: int)
      modifies this
      ensures watches == map j <- old(watches) | !Abandoned(old(watches)[j], now) :: old(watches)[j]
    {
      ghost var was := watches;
      var unseen := watches.Keys;
      while unseen != {}
        invariant unseen <= watches.Keys <= was.Keys
        invariant forall j <- watches :: watches[j] == was[j]
        invariant forall j <- was :: j in watches <==> j in unseen || !Abandoned(was[j], now)
        decreases unseen
      {
        var j :| j in unseen;
        if Abandoned(watches[j], now) { watches := watches - {j}; }
        unseen := unseen - {j};
      }
    }

    /** The database is asked at most once a minute; in between the last answer stands. */
    method ReindexVerdict(key: Key, now: int, seen: Option<Option<Progress>>) returns (verdict: Verdict)
      modifies this
      ensures watches == Next(old(watches), Ask(key, now, seen))
      ensures verdict == Answer(Get(watches, key), now)
    {
      if key in watches && !NeedsObservation(watches[key], now) {
        return Judge(watches[key], now);
      }
      var previous := Get(watches, key);
      var watch;
      if seen.Some? {
        watch := Record(previous, seen.value, now);
      } else if previous.Some? {
        watch := Unobserved(previous.value, now);
      } else {
        return NotReindexing;
      }
      verdict := Judge(watch, now);
      DropAbandoned(now);
      watches := watches[key := watch];
    }
  }
}
