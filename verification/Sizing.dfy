/** How large a restore's volume, memory, shared memory and shared buffers are made, all
    derived from the snapshot. Sizes are bytes in exact arithmetic. */
module Sizing {
  import opened Options

  /** A quantity of bytes; none where it does not parse. */
  type Quantity = Option<real>

  const MI := 1048576
  const GI := 1073741824.0

  function Min(a: real, b: real): real { if a < b then a else b }

  function Max(a: real, b: real): real { if a > b then a else b }

  // ----- The volume ---------------------------------------------------------------------

  datatype Storage = Fits(bytes: real) | LimitExceeded(computed: real, maximum: real)

  /** What the snapshot itself calls for: room for what is written into the restore, or a
      tenth over. */
  function Derived(snapshot: real, writes: bool, measured: Option<real>): real {
    if writes then
      var delta := if measured.Some? then measured.value else 0.0;
      snapshot + Max(delta, snapshot * 0.1) + 5.0 * GI
    else snapshot * 1.1
  }

  function Limit(maximum: Quantity): real { if maximum.Some? then maximum.value else 2048.0 * GI }

  function StorageSize(snapshot: real, floor: Option<Quantity>, maximum: Quantity, writes: bool, measured: Option<real>): Storage {
    var computed, most := Derived(snapshot, writes, measured), Limit(maximum);
    if computed > most then LimitExceeded(computed, most)
    else
      var chosen := match floor case Some(Some(f)) => (if f > computed then f else computed) case _ => computed;
      Fits(if chosen > most then most else chosen)
  }

  /** In numbers: the need is a tenth over the snapshot or, where the restore is written into,
      5 GiB over it and the larger of a tenth and what was last measured; the maximum is 2 TiB
      where none can be read. It is refused exactly when the need passes the maximum, and
      otherwise as large as the need or the floor asks, up to the maximum. */
  lemma StorageExactly(snapshot: real, floor: Option<Quantity>, maximum: Quantity, writes: bool, measured: Option<real>)
    ensures var r := StorageSize(snapshot, floor, maximum, writes, measured);
      var extra := Max(if measured.Some? then measured.value else 0.0, snapshot / 10.0);
      var need := if writes then snapshot + extra + 5368709120.0 else snapshot + snapshot / 10.0;
      var most := if maximum.Some? then maximum.value else 2199023255552.0;
      && (r.LimitExceeded? <==> need > most)
      && (r.LimitExceeded? ==> r.computed == need && r.maximum == most)
      && (r.Fits? ==> need <= r.bytes <= most)
      && (r.Fits? && (floor.None? || floor.value.None?) ==> r.bytes == need)
      && (r.Fits? && floor.Some? && floor.value.Some? ==> r.bytes == Max(need, Min(floor.value.value, most)))
  { }

  lemma DerivedGrows(a: real, b: real, writes: bool, measured: Option<real>)
    requires a <= b
    ensures Derived(a, writes, measured) <= Derived(b, writes, measured)
  { }

  /** A larger snapshot never gets a smaller volume, nor fits where a smaller one did not. */
  lemma StorageGrows(a: real, b: real, floor: Option<Quantity>, maximum: Quantity, writes: bool, measured: Option<real>)
    requires a <= b && StorageSize(b, floor, maximum, writes, measured).Fits?
    ensures StorageSize(a, floor, maximum, writes, measured).Fits?
    ensures StorageSize(a, floor, maximum, writes, measured).bytes <= StorageSize(b, floor, maximum, writes, measured).bytes
  {
    DerivedGrows(a, b, writes, measured);
  }

  // ----- Rounding up --------------------------------------------------------------------

  function Ceil(x: real): int { if (x.Floor as real) < x then x.Floor + 1 else x.Floor }

  /** The whole units that `bytes` takes: those that fit, and one for a remainder. */
  function CeilTo(bytes: real, unit: int): int
    requires unit > 0
  {
    var whole := (bytes / (unit as real)).Floor;
    whole + (if bytes - (whole as real) * (unit as real) > 0.0 then 1 else 0)
  }

  /** It is the least number of units that holds them. */
  lemma {:induction false} CeilToLeast(bytes: real, unit: int, n: int)
    requires unit > 0
    ensures bytes <= (n as real) * (unit as real) <==> CeilTo(bytes, unit) <= n
  {
    var u := unit as real;
    var q := bytes / u;
    var whole := q.Floor;
    assert bytes == q * u;
    TimesOrdered(whole as real, q, u);
    TimesOrdered(q, (whole + 1) as real, u);
    TimesOrdered(n as real, whole as real, u);
    TimesOrdered((whole + 1) as real, n as real, u);
    TimesOrdered(q, n as real, u);
    TimesOrdered(n as real, q, u);
  }

  lemma TimesOrdered(a: real, b: real, u: real)
    requires u > 0.0
    ensures a <= b ==> a * u <= b * u
    ensures a < b ==> a * u < b * u
  { }

  lemma CeilToGrows(a: real, b: real, unit: int)
    requires unit > 0 && a <= b
    ensures CeilTo(a, unit) <= CeilTo(b, unit)
  {
    CeilToLeast(b, unit, CeilTo(b, unit));
    CeilToLeast(a, unit, CeilTo(b, unit));
  }

  /** Rounding to whole bytes on the way to whole units makes no difference. */
  lemma CeilTwice(bytes: real, unit: int)
    requires unit > 0
    ensures CeilTo(Ceil(bytes) as real, unit) == CeilTo(bytes, unit)
  {
    var once, twice := CeilTo(bytes, unit), CeilTo(Ceil(bytes) as real, unit);
    CeilToGrows(bytes, Ceil(bytes) as real, unit);
    CeilToLeast(bytes, unit, once);
    assert Ceil(bytes) <= once * unit by {
      assert bytes <= (once * unit) as real;
    }
    assert (Ceil(bytes) as real) <= (once as real) * (unit as real);
    CeilToLeast(Ceil(bytes) as real, unit, once);
  }

  // ----- Memory -------------------------------------------------------------------------

  /** Memory in bytes, as a resource requirement names it. */
  datatype Resources = Resources(request: Option<Quantity>, limit: Option<Quantity>, cpu: Option<string>)

  function Clamp(x: real, lo: real, hi: real): real { if x < lo then lo else if x > hi then hi else x }

  /** In whole MiB. */
  function ScaledMemory(snapshot: real, floor: real, cap: real): int {
    CeilTo(Ceil(Clamp(snapshot * 0.10, Min(floor, cap), cap)) as real, MI)
  }

  datatype Replica = Replica(pinned: Option<Resources>, floor: Option<Resources>, maximum: Option<Quantity>)

  const DEFAULT_MAXIMUM := 64.0 * GI

  function FloorMemory(floor: Resources): Quantity { if floor.limit.Some? then floor.limit.value else Some(0.0) }

  function CapOf(r: Replica): Quantity { if r.maximum.Some? then r.maximum.value else Some(DEFAULT_MAXIMUM) }

  function Resolve(r: Replica, snapshot: Quantity): Option<Resources> {
    if r.pinned.Some? then r.pinned
    else if r.floor.None? then None
    else
      var floor, cap := FloorMemory(r.floor.value), CapOf(r);
      if snapshot.None? || floor.None? || cap.None? then r.floor
      else
        var memory := Some(((ScaledMemory(snapshot.value, floor.value, cap.value) * MI) as real));
        Some(Resources(Some(memory), Some(memory), r.floor.value.cpu))
  }

  /** The replica's memory is derived from the snapshot. */
  predicate Derives(r: Replica, snapshot: Quantity) {
    r.pinned.None? && r.floor.Some? && snapshot.Some? && FloorMemory(r.floor.value).Some? && CapOf(r).Some?
  }

  /** Derived memory asks for what it is limited to, holds a tenth of the snapshot where
      the cap allows, and lies between the lesser of floor and cap and the cap, each
      rounded up to whole MiB. */
  lemma MemoryBounds(r: Replica, snapshot: Quantity)
    requires Derives(r, snapshot)
    ensures var got := Resolve(r, snapshot);
      var floor, cap := FloorMemory(r.floor.value).value, CapOf(r).value;
      && got.Some? && got.value.request == got.value.limit
      && got.value.limit.Some? && got.value.limit.value.Some?
      && var memory := got.value.limit.value.value;
         && Min(floor, cap) <= memory <= ((CeilTo(cap, MI) * MI) as real)
         && memory >= Min(snapshot.value * 0.10, cap)
  {
    var floor, cap := FloorMemory(r.floor.value).value, CapOf(r).value;
    var wanted := Clamp(snapshot.value * 0.10, Min(floor, cap), cap);
    CeilTwice(wanted, MI);
    CeilToGrows(wanted, cap, MI);
    CeilToLeast(wanted, MI, CeilTo(wanted, MI));
  }

  /** In numbers: the memory is the least whole number of MiB that holds a tenth of the
      snapshot, but no more than the cap, which is 64 GiB where none is set, and no less than
      the floor within the cap. CPU is the floor's. */
  lemma MemoryExactly(r: Replica, snapshot: Quantity)
    requires Derives(r, snapshot)
    ensures var got := Resolve(r, snapshot);
      var cap := if r.maximum.Some? then r.maximum.value.value else 68719476736.0;
      var floor := if r.floor.value.limit.Some? then r.floor.value.limit.value.value else 0.0;
      var wanted := Max(Min(snapshot.value / 10.0, cap), Min(floor, cap));
      && got.Some? && got.value.cpu == r.floor.value.cpu && got.value.request == got.value.limit
      && wanted <= MemoryOf(got) < wanted + 1048576.0
      && ((MemoryOf(got) / 1048576.0).Floor as real) * 1048576.0 == MemoryOf(got)
  {
    var cap, floor := CapOf(r).value, FloorMemory(r.floor.value).value;
    var wanted := Clamp(snapshot.value * 0.10, Min(floor, cap), cap);
    CeilTwice(wanted, MI);
    WholeMib(wanted);
    ClampIs(snapshot.value * 0.10, floor, cap);
  }

  lemma ClampIs(x: real, floor: real, cap: real)
    ensures Clamp(x, Min(floor, cap), cap) == Max(Min(x, cap), Min(floor, cap))
  { }

  /** Rounding up to MiB adds less than one, and gives a whole number of them. */
  lemma WholeMib(x: real)
    ensures var m := (CeilTo(x, MI) * MI) as real;
      x <= m < x + 1048576.0 && ((m / 1048576.0).Floor as real) * 1048576.0 == m
  {
    var n := CeilTo(x, MI);
    CeilToLeast(x, MI, n);
    CeilToLeast(x, MI, n - 1);
    assert (n * MI) as real == (n as real) * 1048576.0;
    assert ((n as real) * 1048576.0) / 1048576.0 == n as real;
  }

  /** Pinned resources are taken as they are; without a floor there are none; and where a
      quantity does not parse the floor is taken as it is. */
  lemma NotDerived(r: Replica, snapshot: Quantity)
    requires !Derives(r, snapshot)
    ensures Resolve(r, snapshot) == if r.pinned.Some? then r.pinned else r.floor
  { }

  lemma MemoryGrows(r: Replica, a: real, b: real)
    requires a <= b && Derives(r, Some(a))
    ensures Derives(r, Some(b))
    ensures MemoryOf(Resolve(r, Some(a))) <= MemoryOf(Resolve(r, Some(b)))
  {
    var floor, cap := FloorMemory(r.floor.value).value, CapOf(r).value;
    var x, y := Clamp(a * 0.10, Min(floor, cap), cap), Clamp(b * 0.10, Min(floor, cap), cap);
    CeilTwice(x, MI);
    CeilTwice(y, MI);
    CeilToGrows(x, y, MI);
  }

  function MemoryOf(r: Option<Resources>): real {
    match r case Some(Resources(_, Some(Some(m)), _)) => m case _ => 0.0
  }

  // ----- Shared memory -------------------------------------------------------------------

  function RequestOf(r: Option<Resources>): real {
    match r case Some(Resources(Some(Some(m)), _, _)) => m case _ => GI
  }

  function LimitOf(r: Option<Resources>): Option<real> {
    match r case Some(Resources(_, Some(Some(m)), _)) => Some(m) case _ => None
  }

  function ShmBytes(r: Option<Resources>): real {
    var request, limit := RequestOf(r), LimitOf(r);
    var most := if limit.Some? then Max(request, limit.value) else request;
    var shm := Min(request / 2.0, most * 0.36);
    if limit.Some? then Min(shm, limit.value / 2.0) else shm
  }

  function ShmMib(r: Option<Resources>): int {
    var mib := Ceil(ShmBytes(r) / (MI as real));
    if mib > 16 then mib else 16
  }

  function SharedBuffers(shm: int): int { ((shm as real) * 0.70).Floor }

  /** Shared memory in bytes, and shared buffers in MiB. */
  datatype Buffers = Buffers(shm: real, shared: int)

  function Computed(r: Option<Resources>): Buffers {
    Buffers((ShmMib(r) * MI) as real, SharedBuffers(ShmMib(r)))
  }

  function WithFloor(b: Buffers, floor: Option<Quantity>): Buffers
    requires b.shm > 0.0
  {
    match floor
    case Some(Some(f)) =>
      if f > b.shm then
        var scaled := ((b.shared as real) * (f / b.shm)).Floor;
        Buffers(f, if scaled > 16 then scaled else 16)
      else b
    case _ => b
  }

  lemma ScaledStaysBelow(shared: real, shm: real, f: real)
    requires 0.0 <= shared < shm && f > 0.0
    ensures shared * (f / shm) < f
  {
    var k := f / shm;
    assert k > 0.0 && shm * k == f;
    TimesOrdered(shared, shm, k);
  }

  /** Shared buffers take less than shared memory, and neither is tiny. */
  predicate Roomy(b: Buffers) { b.shared >= 11 && ((b.shared * MI) as real) < b.shm && b.shm >= 16.0 * (MI as real) }

  lemma ScaledFits(shared: int, shm: real, f: real)
    requires 0 <= shared && ((shared * MI) as real) < shm < f
    ensures ((((shared as real) * (f / shm)).Floor * MI) as real) < f
  {
    var k, mi := f / shm, MI as real;
    ScaledStaysBelow((shared as real) * mi, shm, f);
    var scaled := (shared as real) * k;
    assert (scaled.Floor as real) * mi <= scaled * mi;
    assert scaled * mi == ((shared as real) * mi) * k;
  }

  lemma ComputedFits(r: Option<Resources>)
    ensures Roomy(Computed(r))
  {
    var shm := ShmMib(r);
    assert (shm as real) * 0.70 >= 11.0;
    assert (shm as real) * 0.70 < shm as real;
    assert SharedBuffers(shm) + 1 <= shm;
  }

  lemma FloorKeepsRoom(b: Buffers, f: real)
    requires Roomy(b)
    ensures Roomy(WithFloor(b, Some(Some(f))))
    ensures WithFloor(b, Some(Some(f))).shm == Max(b.shm, f)
  {
    if f > b.shm {
      ScaledFits(b.shared, b.shm, f);
      var scaled := ((b.shared as real) * (f / b.shm)).Floor;
      assert ((scaled * MI) as real) < f;
      assert ((16 * MI) as real) == 16.0 * (MI as real);
    }
  }

  /** Shared buffers always fit in shared memory with some to spare, with a floor or
      without, whatever the resources; and a floor is met. */
  lemma SharedBuffersFit(r: Option<Resources>, floor: Option<Quantity>)
    ensures Roomy(Computed(r)) && Roomy(WithFloor(Computed(r), floor))
    ensures WithFloor(Computed(r), floor).shm ==
      if floor.Some? && floor.value.Some? then Max(Computed(r).shm, floor.value.value) else Computed(r).shm
  {
    ComputedFits(r);
    if floor.Some? && floor.value.Some? { FloorKeepsRoom(Computed(r), floor.value.value); }
  }

  /** Where there is a limit, shared memory takes at most half of it, short of the 16 MiB
      that every pod gets. */
  lemma ShmWithinHalfLimit(r: Option<Resources>)
    requires LimitOf(r).Some?
    ensures ShmMib(r) <= 16 || ((ShmMib(r) - 1) * MI) as real < LimitOf(r).value / 2.0
  {
    var q := ShmBytes(r) / (MI as real);
    assert ShmBytes(r) == q * (MI as real);
  }

  /** In numbers: shared memory is the least number of MiB, and at least 16, that holds half the
      request, 36 per cent of the larger of request and limit, and half the limit, whichever
      is least; the request is 1 GiB where none can be read. Shared buffers are seven tenths
      of it, rounded down. */
  lemma ShmExactly(r: Option<Resources>)
    ensures var request := match r case Some(Resources(Some(Some(m)), _, _)) => m case _ => 1073741824.0;
      var limit := match r case Some(Resources(_, Some(Some(m)), _)) => Some(m) case _ => None;
      var most := if limit.Some? then Min(0.36 * Max(request, limit.value), limit.value / 2.0) else 0.36 * request;
      var bytes, mib := Min(request / 2.0, most), ShmMib(r);
      && mib >= 16 && bytes <= (mib * 1048576) as real && (mib == 16 || ((mib - 1) * 1048576) as real < bytes)
      && 10 * SharedBuffers(mib) <= 7 * mib < 10 * (SharedBuffers(mib) + 1)
      && Computed(r) == Buffers((mib * 1048576) as real, SharedBuffers(mib))
  {
    var q := ShmBytes(r) / (MI as real);
    assert ShmBytes(r) == q * (MI as real);
  }

  /** A floor above what was computed is taken, and shared buffers grow in proportion, to no
      less than 16. */
  lemma FloorExactly(b: Buffers, floor: Option<Quantity>)
    requires b.shm > 0.0
    ensures var r := WithFloor(b, floor);
      if floor.Some? && floor.value.Some? && floor.value.value > b.shm
      then
        var grown := (b.shared as real) * (floor.value.value / b.shm);
        && r.shm == floor.value.value && r.shared >= 16 && grown < (r.shared + 1) as real
        && (r.shared == 16 || r.shared as real <= grown)
      else r == b
  { }

  /** All along the chain: a larger snapshot never means less shared memory. */
  lemma ShmGrows(r: Replica, a: real, b: real)
    requires a <= b && Derives(r, Some(a))
    ensures ShmMib(Resolve(r, Some(a))) <= ShmMib(Resolve(r, Some(b)))
    ensures SharedBuffers(ShmMib(Resolve(r, Some(a)))) <= SharedBuffers(ShmMib(Resolve(r, Some(b))))
  {
    MemoryGrows(r, a, b);
    var x, y := Resolve(r, Some(a)), Resolve(r, Some(b));
    assert RequestOf(x) == MemoryOf(x) && LimitOf(x) == Some(MemoryOf(x));
    assert RequestOf(y) == MemoryOf(y) && LimitOf(y) == Some(MemoryOf(y));
    assert ShmBytes(x) <= ShmBytes(y);
    assert ShmBytes(x) / (MI as real) <= ShmBytes(y) / (MI as real);
    assert ShmMib(x) <= ShmMib(y);
    assert (ShmMib(x) as real) * 0.70 <= (ShmMib(y) as real) * 0.70;
  }
}
