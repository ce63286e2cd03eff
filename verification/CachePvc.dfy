/** The kopia cache volume shared by a replica's restores: its request is a ratchet that
    follows the snapshots up and answers cache pressure up to a cap. Sizes are bytes, in
    exact arithmetic; a quantity that does not parse is none. */
module CachePvc {
  import opened Options

  type Quantity = Option<real>

  const MI := 1048576.0
  const FLOOR_BYTES := 10240.0 * MI
  const GROWTH := 1.15
  const RESERVE_MIN_MB := 2048
  const RESERVE_FRACTION := 0.30
  const METADATA_CACHE_MB := 512
  const CONTENT_CACHE_FLOOR_MB := 1024

  predicate NeedsGrow(current: Quantity, desired: Quantity) {
    current.Some? && desired.Some? && desired.value > current.value
  }

  /** What a cache for this snapshot starts at. */
  function Default(snapshot: Quantity): (r: real)
    ensures r >= FLOOR_BYTES
  {
    var fifth := if snapshot.Some? then snapshot.value * 0.2 else 0.0;
    if fifth > FLOOR_BYTES then fifth else FLOOR_BYTES
  }

  function Cap(snapshot: Quantity): real { Default(snapshot) * 2.0 }

  function AfterPressure(current: Quantity, snapshot: Quantity): Quantity {
    match current
    case None => current
    case Some(c) => Some(if c * GROWTH > Cap(snapshot) then Cap(snapshot) else c * GROWTH)
  }

  // ----- The volume claim ------------------------------------------------------------

  datatype Claim = Absent | NoRequest | Requests(storage: Quantity)

  /** A snapshot to restore, or a restore that reports pressure; `saved` says whether the
      create or the patch goes through. */
  datatype Event = Restoring(snapshot: Quantity, saved: bool) | Pressure(snapshot: Quantity, saved: bool)

  function Ensured(claim: Claim, snapshot: Quantity, saved: bool): Claim {
    match claim
    case Absent => if saved then Requests(Some(Default(snapshot))) else claim
    case NoRequest => claim
    case Requests(current) =>
      if NeedsGrow(current, Some(Default(snapshot))) && saved then Requests(Some(Default(snapshot))) else claim
  }

  function Pressed(claim: Claim, snapshot: Quantity, saved: bool): Claim {
    if !claim.Requests? then claim
    else
      var next := AfterPressure(claim.storage, snapshot);
      if NeedsGrow(claim.storage, next) && saved then Requests(next) else claim
  }

  function Step(claim: Claim, e: Event): Claim {
    match e
    case Restoring(snapshot, saved) => Ensured(claim, snapshot, saved)
    case Pressure(snapshot, saved) => Pressed(claim, snapshot, saved)
  }

  function Run(claim: Claim, events: seq<Event>): Claim
    decreases |events|
  {
    if events == [] then claim else Run(Step(claim, events[0]), events[1..])
  }

  class CacheVolume {
    var claim: Claim

    constructor ()
      ensures claim == Absent
    {
      claim := Absent;
    }

    method Ensure(snapshot: Quantity, saved: bool)
      modifies this
      ensures claim == Step(old(claim), Restoring(snapshot, saved))
    {
      var desired := Default(snapshot);
      if claim.Absent? {
        if saved { claim := Requests(Some(desired)); }
      } else if claim.Requests? && NeedsGrow(claim.storage, Some(desired)) {
        if saved { claim := claim.(storage := Some(desired)); }
      }
    }

    method GrowAfterPressure(snapshot: Quantity, saved: bool)
      modifies this
      ensures claim == Step(old(claim), Pressure(snapshot, saved))
    {
      if !claim.Requests? { return; }
      var next := AfterPressure(claim.storage, snapshot);
      if !NeedsGrow(claim.storage, next) { return; }
      if saved { claim := claim.(storage := next); }
    }
  }

  /** In numbers: a cache is first asked for at a fifth of the snapshot or 10 GiB, whichever is
      more, and at 10 GiB where the snapshot's size does not parse. */
  lemma FirstRequest(snapshot: Quantity)
    ensures Ensured(Absent, snapshot, true) == Requests(Some(Default(snapshot)))
    ensures Default(snapshot) == Max(10737418240.0, if snapshot.Some? then snapshot.value / 5.0 else 0.0)
  { }

  /** Each pressure event adds fifteen per cent, to no more than twice that, and never takes
      any away. */
  lemma PressureExactly(current: real, snapshot: Quantity)
    requires current > 0.0
    ensures var fifth := if snapshot.Some? then snapshot.value / 5.0 else 0.0;
      Pressed(Requests(Some(current)), snapshot, true)
        == Requests(Some(Max(current, Min(current + current * 0.15, 2.0 * Max(10737418240.0, fifth)))))
  { }

  /** A write that fails leaves the claim as it was. */
  lemma UnsavedStays(claim: Claim, snapshot: Quantity)
    ensures Step(claim, Restoring(snapshot, false)) == claim && Step(claim, Pressure(snapshot, false)) == claim
  { }

  function Min(a: real, b: real): real { if a < b then a else b }

  // ----- Never down, never past the cap -------------------------------------------------

  /** The bytes requested; nothing where nothing that parses is. */
  function Size(claim: Claim): real { if claim.Requests? && claim.storage.Some? then claim.storage.value else 0.0 }

  function Max(a: real, b: real): real { if a > b then a else b }

  function LargestDefault(events: seq<Event>): real
    decreases |events|
  {
    if events == [] then 0.0 else Max(Default(events[0].snapshot), LargestDefault(events[1..]))
  }

  lemma {:induction false} RatchetStep(claim: Claim, e: Event)
    requires Size(claim) >= 0.0
    ensures Size(claim) <= Size(Step(claim, e)) <= Max(Size(claim), Cap(e.snapshot))
  {
    match e
    case Restoring(_, _) =>
    case Pressure(_, _) =>
  }

  /** However snapshots and pressure interleave, and whichever writes fail, the request
      never shrinks and never passes the larger of where it began and twice the largest
      default that came by. */
  lemma {:induction false} RatchetBounded(claim: Claim, events: seq<Event>)
    requires Size(claim) >= 0.0
    ensures Size(claim) <= Size(Run(claim, events)) <= Max(Size(claim), 2.0 * LargestDefault(events))
    decreases |events|
  {
    if events != [] {
      RatchetStep(claim, events[0]);
      RatchetBounded(Step(claim, events[0]), events[1..]);
    }
  }

  function Pressures(snapshot: Quantity, n: nat): seq<Event> {
    if n == 0 then [] else [Pressure(snapshot, true)] + Pressures(snapshot, n - 1)
  }

  function Grown(start: real, cap: real, n: nat): real
    decreases n
  {
    if n == 0 then start else Grown(if start * GROWTH > cap then Max(start, cap) else start * GROWTH, cap, n - 1)
  }

  lemma {:induction false} PressuresGrow(start: real, snapshot: Quantity, n: nat)
    requires start > 0.0
    ensures Run(Requests(Some(start)), Pressures(snapshot, n)) == Requests(Some(Grown(start, Cap(snapshot), n)))
    decreases n
  {
    if n > 0 {
      var events := Pressures(snapshot, n);
      assert events[1..] == Pressures(snapshot, n - 1);
      var next := if start * GROWTH > Cap(snapshot) then Max(start, Cap(snapshot)) else start * GROWTH;
      assert Step(Requests(Some(start)), events[0]) == Requests(Some(next));
      PressuresGrow(next, snapshot, n - 1);
    }
  }

  lemma {:induction false} AtCapStays(start: real, cap: real, n: nat)
    requires start >= cap > 0.0
    ensures Grown(start, cap, n) == start
    decreases n
  {
    if n > 0 { AtCapStays(start, cap, n - 1); }
  }

  lemma FiveGrowToCap(d: real, n: nat)
    requires d > 0.0
    ensures Grown(d, 2.0 * d, 4) < 2.0 * d
    ensures n >= 5 ==> Grown(d, 2.0 * d, n) == 2.0 * d
  {
    var c := 2.0 * d;
    var d1 := d * GROWTH;
    var d2 := d1 * GROWTH;
    var d3 := d2 * GROWTH;
    var d4 := d3 * GROWTH;
    assert d4 < c < d4 * GROWTH;
    assert Grown(d3, c, 1) == Grown(d4, c, 0);
    assert Grown(d, c, 4) == Grown(d1, c, 3) == Grown(d2, c, 2) == Grown(d3, c, 1) == d4;
    if n >= 5 {
      assert Grown(d, c, n) == Grown(d1, c, n - 1);
      assert Grown(d1, c, n - 1) == Grown(d2, c, n - 2);
      assert Grown(d2, c, n - 2) == Grown(d3, c, n - 3);
      assert Grown(d3, c, n - 3) == Grown(d4, c, n - 4);
      assert Grown(d4, c, n - 4) == Grown(c, c, n - 5);
      AtCapStays(c, c, n - 5);
    }
  }

  /** From the default, five pressure events reach twice the default exactly; four do not,
      and later ones change nothing. */
  lemma FivePressuresReachCap(snapshot: Quantity, n: nat)
    ensures Cap(snapshot) == 2.0 * Default(snapshot)
    ensures Size(Run(Requests(Some(Default(snapshot))), Pressures(snapshot, 4))) < Cap(snapshot)
    ensures n >= 5 ==> Run(Requests(Some(Default(snapshot))), Pressures(snapshot, n)) == Requests(Some(Cap(snapshot)))
  {
    PressuresGrow(Default(snapshot), snapshot, 4);
    PressuresGrow(Default(snapshot), snapshot, n);
    FiveGrowToCap(Default(snapshot), n);
  }

  /** The size asked for alone is a smaller one exactly when the volume is already past the
      cap of this snapshot; only the check before the patch keeps the request up. */
  lemma AnswersBelowExactly(current: real, snapshot: Quantity, saved: bool)
    requires current > 0.0
    ensures AfterPressure(Some(current), snapshot).value < current <==> current > Cap(snapshot)
    ensures current > Cap(snapshot) ==> Pressed(Requests(Some(current)), snapshot, saved) == Requests(Some(current))
  { }

  // ----- What kopia may fill --------------------------------------------------------------

  function Megabytes(bytes: real): int { (bytes / MI).Floor }

  function Reserve(mb: int): int {
    var share := ((mb as real) * RESERVE_FRACTION).Floor;
    if share > RESERVE_MIN_MB then share else RESERVE_MIN_MB
  }

  function LessReserve(mb: int): int { if mb > Reserve(mb) then mb - Reserve(mb) else 0 }

  /** The content-cache cap in megabytes. */
  function ContentCache(snapshot: Quantity): int {
    var mb := Megabytes(Default(snapshot));
    if LessReserve(mb) > CONTENT_CACHE_FLOOR_MB then LessReserve(mb) else CONTENT_CACHE_FLOOR_MB
  }

  lemma MegabytesGrow(a: real, b: real)
    requires a <= b
    ensures Megabytes(a) <= Megabytes(b)
  {
    assert a / MI <= b / MI;
  }

  /** Neither the floor of the content cache nor the fixed reserve ever decides. */
  lemma FloorNeverDecides(snapshot: Quantity)
    ensures var mb := Megabytes(Default(snapshot));
      ContentCache(snapshot) == mb - ((mb as real) * 0.3).Floor > 1024
    ensures ContentCache(snapshot) + 512 + 2560 <= Megabytes(Default(snapshot))
  {
    MegabytesGrow(FLOOR_BYTES, Default(snapshot));
    assert FLOOR_BYTES / MI == 10240.0;
    var mb := Megabytes(Default(snapshot));
    assert (mb as real) * RESERVE_FRACTION >= 3072.0;
    assert (mb as real) * RESERVE_FRACTION <= (mb as real) - 7168.0;
  }

  /** After the ratchet has run for a restore, with its write gone through, both of kopia's
      caches at their caps leave 2560 MB of the volume, whatever was requested before and
      whatever snapshots and pressure come after. */
  lemma CachesLeaveRoom(claim: Claim, snapshot: Quantity, later: seq<Event>)
    requires claim.Absent? || (claim.Requests? && claim.storage.Some?)
    ensures var after := Run(Ensured(claim, snapshot, true), later);
      ContentCache(snapshot) + 512 + 2560 <= Megabytes(Size(after))
  {
    var ensured := Ensured(claim, snapshot, true);
    FloorNeverDecides(snapshot);
    RatchetBounded(ensured, later);
    MegabytesGrow(Default(snapshot), Size(Run(ensured, later)));
  }
}
