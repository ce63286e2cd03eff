/** The queue that limits how many restores run at once: replicas that hold a slot, and
    replicas that wait for one, first come first served. */
module RestoreQueues {
  import opened Options

  type Key = string

  datatype Waiting = Waiting(key: Key, since: int)

  datatype Queue = Queue(active: seq<Key>, pending: seq<Waiting>)

  // ----- What the methods compute -----------------------------------------------------

  predicate Waits(p: seq<Waiting>, k: Key) { exists i :: 0 <= i < |p| && p[i].key == k }

  /** The place of the first entry for `k`, or the length where there is none. */
  function Place(p: seq<Waiting>, k: Key): (n: nat)
    ensures n <= |p|
    ensures n < |p| ==> p[n].key == k
    ensures forall i :: 0 <= i < n ==> p[i].key != k
  {
    if p == [] || p[0].key == k then 0 else 1 + Place(p[1..], k)
  }

  function Others(p: seq<Waiting>, k: Key): seq<Waiting> {
    if p == [] then []
    else if p[0].key == k then Others(p[1..], k)
    else [p[0]] + Others(p[1..], k)
  }

  function Select(s: seq<Key>, from: set<Key>, inside: bool): seq<Key> {
    if s == [] then []
    else if (s[0] in from) == inside then [s[0]] + Select(s[1..], from, inside)
    else Select(s[1..], from, inside)
  }

  datatype Op =
    | Enqueue(key: Key, now: int)
    | MarkActive(key: Key)
    | Remove(key: Key)
    | RetainActive(live: set<Key>)
    | TryPromote(max: nat)

  function PromotedBy(q: Queue, op: Op): Option<Key> {
    if op.TryPromote? && |q.active| < op.max && q.pending != [] then Some(q.pending[0].key) else None
  }

  function Apply(q: Queue, op: Op): Queue {
    match op
    case Enqueue(k, now) => if Waits(q.pending, k) then q else q.(pending := q.pending + [Waiting(k, now)])
    case MarkActive(k) => Queue(if k in q.active then q.active else q.active + [k], Others(q.pending, k))
    case Remove(k) => Queue(Select(q.active, {k}, false), Others(q.pending, k))
    case RetainActive(live) => q.(active := Select(q.active, live, true))
    case TryPromote(max) =>
      if PromotedBy(q, op).Some? then Queue(q.active + [q.pending[0].key], q.pending[1..]) else q
  }

  function Run(q: Queue, ops: seq<Op>): Queue
    decreases |ops|
  {
    if ops == [] then q else Run(Apply(q, ops[0]), ops[1..])
  }

  /** The replicas given a slot along the run, in order. */
  function Promotions(q: Queue, ops: seq<Op>): seq<Key>
    decreases |ops|
  {
    if ops == [] then []
    else (match PromotedBy(q, ops[0]) case Some(k) => [k] case None => []) + Promotions(Apply(q, ops[0]), ops[1..])
  }

  const EmptyQueue := Queue([], [])

  // ----- The queue as the controllers hold it -------------------------------------------

  class RestoreQueue {
    var active: seq<Key>
    var pending: seq<Waiting>

    constructor ()
      ensures Abs() == EmptyQueue
    {
      active, pending := [], [];
    }

    function Abs(): Queue
      reads this
    {
      Queue(active, pending)
    }

    method CanStart(max: nat) returns (b: bool)
      ensures b <==> |active| < max
    {
      b := |active| < max;
    }

    /** The place in the queue, from one; none for a replica that does not wait. */
    method Position(key: Key) returns (p: Option<nat>)
      ensures p.Some? <==> Waits(pending, key)
      ensures p.Some? ==> p.value == Place(pending, key) + 1
    {
      var i := 0;
      while i < |pending|
        invariant 0 <= i <= |pending|
        invariant forall j :: 0 <= j < i ==> pending[j].key != key
      {
        if pending[i].key == key {
          return Some(i + 1);
        }
        i := i + 1;
      }
      p := None;
    }

    method Enqueue(key: Key, now: int)
      modifies this
      ensures Abs() == Apply(old(Abs()), Op.Enqueue(key, now))
    {
      var at := Position(key);
      if at.None? {
        pending := pending + [Waiting(key, now)];
      }
    }

    method DropPending(key: Key)
      modifies this`pending
      ensures pending == Others(old(pending), key)
    {
      var kept, i := [], 0;
      while i < |pending|
        invariant 0 <= i <= |pending|
        invariant kept + Others(pending[i..], key) == Others(pending, key)
      {
        assert pending[i..][1..] == pending[i + 1..];
        if pending[i].key != key { kept := kept + [pending[i]]; }
        i := i + 1;
      }
      pending := kept;
    }

    /** Both halves of a partition keep the order they had. */
    method Split(from: set<Key>) returns (inside: seq<Key>, outside: seq<Key>)
      ensures inside == Select(active, from, true) && outside == Select(active, from, false)
    {
      inside, outside := [], [];
      var i := 0;
      while i < |active|
        invariant 0 <= i <= |active|
        invariant inside + Select(active[i..], from, true) == Select(active, from, true)
        invariant outside + Select(active[i..], from, false) == Select(active, from, false)
      {
        assert active[i..][1..] == active[i + 1..];
        if active[i] in from { inside := inside + [active[i]]; } else { outside := outside + [active[i]]; }
        i := i + 1;
      }
    }

    method MarkActive(key: Key)
      modifies this
      ensures Abs() == Apply(old(Abs()), Op.MarkActive(key))
      ensures key in active && !Waits(pending, key)
    {
      OthersWait(pending, key, key);
      DropPending(key);
      if key !in active { active := active + [key]; }
    }

    method Remove(key: Key)
      modifies this
      ensures Abs() == Apply(old(Abs()), Op.Remove(key))
      ensures key !in active && !Waits(pending, key)
    {
      SelectHas(active, {key}, false, key);
      OthersWait(pending, key, key);
      var _, rest := Split({key});
      active := rest;
      DropPending(key);
    }

    /** Every slot is either kept for a live restore or answered as dropped. */
    method RetainActive(live: set<Key>) returns (dropped: seq<Key>)
      modifies this
      ensures Abs() == Apply(old(Abs()), Op.RetainActive(live))
      ensures multiset(active) + multiset(dropped) == multiset(old(active))
      ensures forall k <- active :: k in live
      ensures forall k <- dropped :: k !in live
    {
      var kept, gone := Split(live);
      SelectConserves(active, live);
      active, dropped := kept, gone;
    }

    method TryPromote(max: nat) returns (promoted: Option<Key>)
      modifies this
      ensures Abs() == Apply(old(Abs()), Op.TryPromote(max))
      ensures promoted == PromotedBy(old(Abs()), Op.TryPromote(max))
    {
      if |active| < max && pending != [] {
        promoted := Some(pending[0].key);
        active, pending := active + [pending[0].key], pending[1..];
      } else {
        promoted := None;
      }
    }

    /** A restore that ends gives its slot to the replica that has waited longest. */
    method ReleaseSlot(key: Key, max: nat) returns (promoted: Option<Key>)
      modifies this
      ensures Abs() == Run(old(Abs()), [Op.Remove(key), Op.TryPromote(max)])
      ensures promoted == PromotedBy(Apply(old(Abs()), Op.Remove(key)), Op.TryPromote(max))
    {
      Remove(key);
      ghost var q := Abs();
      promoted := TryPromote(max);
      assert [Op.Remove(key), Op.TryPromote(max)][1..] == [Op.TryPromote(max)];
      assert Run(q, [Op.TryPromote(max)]) == Run(Apply(q, Op.TryPromote(max)), []);
    }
  }

  // ----- Slots ------------------------------------------------------------------------

  lemma {:induction false} SelectConserves(s: seq<Key>, from: set<Key>)
    ensures multiset(Select(s, from, true)) + multiset(Select(s, from, false)) == multiset(s)
    ensures forall k <- Select(s, from, true) :: k in from
    ensures forall k <- Select(s, from, false) :: k !in from
  {
    if s != [] {
      assert s == [s[0]] + s[1..];
      SelectConserves(s[1..], from);
    }
  }

  lemma {:induction false} SelectHas(s: seq<Key>, from: set<Key>, inside: bool, k: Key)
    ensures k in Select(s, from, inside) <==> k in s && (k in from) == inside
  {
    if s != [] {
      SelectHas(s[1..], from, inside, k);
    }
  }

  lemma {:induction false} SelectShrinks(s: seq<Key>, from: set<Key>, inside: bool)
    ensures |Select(s, from, inside)| <= |s|
    ensures NoDuplicates(s) ==> NoDuplicates(Select(s, from, inside))
  {
    if s != [] {
      SelectShrinks(s[1..], from, inside);
      SelectHas(s[1..], from, inside, s[0]);
      if NoDuplicates(s) {
        assert forall i, j :: 0 <= i < j < |s[1..]| ==> s[1..][i] == s[i + 1] && s[1..][j] == s[j + 1];
        assert s[0] !in s[1..];
        PrependDistinct(s[0], Select(s[1..], from, inside));
      }
    }
  }

  predicate NoDuplicates(s: seq<Key>) { forall i, j :: 0 <= i < j < |s| ==> s[i] != s[j] }

  lemma PrependDistinct(k: Key, s: seq<Key>)
    requires NoDuplicates(s) && k !in s
    ensures NoDuplicates([k] + s)
  { }

  // ----- The waiting line --------------------------------------------------------------

  predicate Distinct(p: seq<Waiting>) { forall i, j :: 0 <= i < j < |p| ==> p[i].key != p[j].key }

  lemma {:induction false} OthersWait(p: seq<Waiting>, k: Key, a: Key)
    ensures Waits(Others(p, k), a) <==> Waits(p, a) && a != k
  {
    if p != [] {
      OthersWait(p[1..], k, a);
      WaitsHead(p, a);
      if p[0].key != k {
        assert Others(p, k)[1..] == Others(p[1..], k);
        WaitsHead(Others(p, k), a);
      }
    }
  }

  lemma WaitsHead(p: seq<Waiting>, a: Key)
    requires p != []
    ensures Waits(p, a) <==> p[0].key == a || Waits(p[1..], a)
  {
    if Waits(p[1..], a) {
      var i :| 0 <= i < |p[1..]| && p[1..][i].key == a;
      assert p[i + 1].key == a;
    }
    if Waits(p, a) && p[0].key != a {
      var i :| 0 <= i < |p| && p[i].key == a;
      assert p[1..][i - 1].key == a;
    }
  }

  /** Taking a replica out moves nobody back and swaps nobody. */
  lemma {:induction false} OthersPlace(p: seq<Waiting>, k: Key, a: Key)
    requires a != k
    ensures Place(Others(p, k), a) <= Place(p, a)
  {
    if p != [] {
      OthersPlace(p[1..], k, a);
      if p[0].key != k { assert Others(p, k)[1..] == Others(p[1..], k); }
    }
  }

  lemma {:induction false} OthersOrder(p: seq<Waiting>, k: Key, a: Key, b: Key)
    requires a != k && b != k && Place(p, a) < Place(p, b)
    ensures Place(Others(p, k), a) < Place(Others(p, k), b)
  {
    OthersKeys(p, k, a);
    if p[0].key == a {
      assert Others(p, k)[0] == p[0];
    } else {
      OthersOrder(p[1..], k, a, b);
      if p[0].key != k { assert Others(p, k)[1..] == Others(p[1..], k); }
    }
  }

  lemma {:induction false} OthersKeys(p: seq<Waiting>, k: Key, a: Key)
    requires a != k
    ensures Place(p, a) < |p| <==> Place(Others(p, k), a) < |Others(p, k)|
  {
    if p != [] {
      OthersKeys(p[1..], k, a);
      if p[0].key != k { assert Others(p, k)[1..] == Others(p[1..], k); }
    }
  }

  lemma {:induction false} OthersDistinct(p: seq<Waiting>, k: Key)
    requires Distinct(p)
    ensures Distinct(Others(p, k))
  {
    if p != [] {
      assert forall i :: 0 <= i < |p[1..]| ==> p[1..][i] == p[i + 1];
      OthersDistinct(p[1..], k);
      if p[0].key != k {
        OthersWait(p[1..], k, p[0].key);
        assert !Waits(p[1..], p[0].key);
        assert Others(p, k) == [p[0]] + Others(p[1..], k);
      }
    }
  }

  // ----- Over every run ------------------------------------------------------------------

  lemma {:induction false} ApplyDistinct(q: Queue, op: Op)
    requires Distinct(q.pending)
    ensures Distinct(Apply(q, op).pending)
  {
    match op
    case Enqueue(k, now) =>
    case MarkActive(k) => OthersDistinct(q.pending, k);
    case Remove(k) => OthersDistinct(q.pending, k);
    case RetainActive(_) =>
    case TryPromote(_) =>
  }

  /** Nothing but its own promotion takes `a` out of the line. */
  predicate LeftAlone(ops: seq<Op>, a: Key) {
    forall i :: 0 <= i < |ops| && (ops[i].MarkActive? || ops[i].Remove?) ==> ops[i].key != a
  }

  lemma {:induction false} PlaceNeverGrows(q: Queue, op: Op, a: Key)
    requires Distinct(q.pending) && Waits(q.pending, a) && Waits(Apply(q, op).pending, a)
    ensures Place(Apply(q, op).pending, a) <= Place(q.pending, a)
  {
    match op
    case Enqueue(k, now) => PlaceAppend(q.pending, [Waiting(k, now)], a);
    case MarkActive(k) => OthersWait(q.pending, k, a); OthersPlace(q.pending, k, a);
    case Remove(k) => OthersWait(q.pending, k, a); OthersPlace(q.pending, k, a);
    case RetainActive(_) =>
    case TryPromote(_) =>
  }

  lemma {:induction false} PlaceAppend(p: seq<Waiting>, more: seq<Waiting>, a: Key)
    ensures Place(p, a) < |p| ==> Place(p + more, a) == Place(p, a)
    ensures Place(p, a) == |p| ==> Place(p + more, a) >= |p|
  {
    if p == [] {
      assert p + more == more;
    } else {
      assert (p + more)[1..] == p[1..] + more;
      PlaceAppend(p[1..], more, a);
    }
  }

  /** `a` waits before and after every step of the run. */
  predicate WaitsThrough(q: Queue, ops: seq<Op>, a: Key)
    decreases |ops|
  {
    Waits(q.pending, a) && (ops == [] || WaitsThrough(Apply(q, ops[0]), ops[1..], a))
  }

  lemma {:induction false} PositionNeverGrows(q: Queue, ops: seq<Op>, a: Key)
    requires Distinct(q.pending) && WaitsThrough(q, ops, a)
    ensures Place(Run(q, ops).pending, a) <= Place(q.pending, a)
    decreases |ops|
  {
    if ops != [] {
      ApplyDistinct(q, ops[0]);
      PlaceNeverGrows(q, ops[0], a);
      PositionNeverGrows(Apply(q, ops[0]), ops[1..], a);
    }
  }

  /** `a` is ahead of `b`, who need not have come yet. */
  predicate Ahead(q: Queue, a: Key, b: Key) { Place(q.pending, a) < |q.pending| && Place(q.pending, a) < Place(q.pending, b) }

  lemma {:induction false} AheadKept(q: Queue, op: Op, a: Key, b: Key)
    requires a != b && Distinct(q.pending) && Ahead(q, a, b)
    requires (op.MarkActive? || op.Remove?) ==> op.key != a && op.key != b
    ensures PromotedBy(q, op) == Some(a) || (PromotedBy(q, op) != Some(b) && Ahead(Apply(q, op), a, b))
  {
    match op
    case Enqueue(k, now) =>
      PlaceAppend(q.pending, [Waiting(k, now)], a);
      PlaceAppend(q.pending, [Waiting(k, now)], b);
    case MarkActive(k) => OthersOrder(q.pending, k, a, b); OthersKeys(q.pending, k, a);
    case Remove(k) => OthersOrder(q.pending, k, a, b); OthersKeys(q.pending, k, a);
    case RetainActive(_) =>
    case TryPromote(_) =>
  }

  lemma {:induction false} RunSnoc(q: Queue, ops: seq<Op>)
    requires ops != []
    ensures Run(q, ops) == Apply(Run(q, ops[..|ops| - 1]), ops[|ops| - 1])
    decreases |ops|
  {
    if |ops| == 1 {
      assert ops[..0] == [] && ops[1..] == [];
    } else {
      assert ops[1..][..|ops| - 2] == ops[..|ops| - 1][1..];
      RunSnoc(Apply(q, ops[0]), ops[1..]);
    }
  }

  lemma {:induction false} RunDistinct(ops: seq<Op>)
    ensures Distinct(Run(EmptyQueue, ops).pending)
    decreases |ops|
  {
    if ops != [] {
      RunSnoc(EmptyQueue, ops);
      RunDistinct(ops[..|ops| - 1]);
      ApplyDistinct(Run(EmptyQueue, ops[..|ops| - 1]), ops[|ops| - 1]);
    }
  }

  lemma WaitsPlace(p: seq<Waiting>, k: Key)
    ensures Waits(p, k) <==> Place(p, k) < |p|
  { }

  lemma NewlyWaits(q: Queue, op: Op, k: Key)
    requires !Waits(q.pending, k) && Waits(Apply(q, op).pending, k)
    ensures op.Enqueue? && op.key == k && Place(Apply(q, op).pending, k) == |q.pending|
  {
    match op
    case Enqueue(other, now) => WaitsPlace(q.pending, k); PlaceAppend(q.pending, [Waiting(other, now)], k);
    case MarkActive(other) => OthersWait(q.pending, other, k);
    case Remove(other) => OthersWait(q.pending, other, k);
    case RetainActive(_) =>
    case TryPromote(_) => if q.pending != [] { WaitsHead(q.pending, k); }
  }

  /** The operation from which on `k` has waited: it enqueues `k`. */
  ghost function CameAt(ops: seq<Op>, k: Key): (at: nat)
    requires Waits(Run(EmptyQueue, ops).pending, k)
    ensures at < |ops| && ops[at].Enqueue? && ops[at].key == k
    decreases |ops|
  {
    var n := |ops| - 1;
    RunSnoc(EmptyQueue, ops);
    if Waits(Run(EmptyQueue, ops[..n]).pending, k) then CameAt(ops[..n], k)
    else NewlyWaits(Run(EmptyQueue, ops[..n]), ops[n], k); n
  }

  /** A step swaps no two that wait before and after it. */
  lemma OrderKept(q: Queue, op: Op, a: Key, b: Key)
    requires a != b && Distinct(q.pending) && Waits(q.pending, a) && Waits(q.pending, b)
    requires Waits(Apply(q, op).pending, a) && Waits(Apply(q, op).pending, b) && Place(q.pending, a) < Place(q.pending, b)
    ensures Place(Apply(q, op).pending, a) < Place(Apply(q, op).pending, b)
  {
    WaitsPlace(q.pending, a);
    if op.MarkActive? || op.Remove? {
      OthersWait(q.pending, op.key, a);
      OthersWait(q.pending, op.key, b);
    }
    AheadKept(q, op, a, b);
  }

  /** On every run from the empty queue no replica waits twice, and of any two that wait the
      one that came first is ahead. */
  lemma {:induction false} WaitInArrivalOrder(ops: seq<Op>, a: Key, b: Key)
    requires a != b && Waits(Run(EmptyQueue, ops).pending, a) && Waits(Run(EmptyQueue, ops).pending, b)
    ensures Distinct(Run(EmptyQueue, ops).pending)
    ensures var p := Run(EmptyQueue, ops).pending;
      Place(p, a) < Place(p, b) <==> CameAt(ops, a) < CameAt(ops, b)
    decreases |ops|
  {
    RunDistinct(ops);
    var n := |ops| - 1;
    var q, op := Run(EmptyQueue, ops[..n]), ops[n];
    RunSnoc(EmptyQueue, ops);
    RunDistinct(ops[..n]);
    WaitsPlace(q.pending, a);
    WaitsPlace(q.pending, b);
    WaitsPlace(Apply(q, op).pending, a);
    WaitsPlace(Apply(q, op).pending, b);
    if Waits(q.pending, a) && Waits(q.pending, b) {
      WaitInArrivalOrder(ops[..n], a, b);
      if Place(q.pending, a) < Place(q.pending, b) { OrderKept(q, op, a, b); } else { OrderKept(q, op, b, a); }
    } else if Waits(q.pending, a) {
      NewlyWaits(q, op, b);
      PlaceNeverGrows(q, op, a);
    } else {
      NewlyWaits(q, op, a);
      if Waits(q.pending, b) { PlaceNeverGrows(q, op, b); } else { NewlyWaits(q, op, b); }
    }
  }

  predicate PrecededBy(keys: seq<Key>, b: Key, a: Key) {
    forall j :: 0 <= j < |keys| && keys[j] == b ==> exists i :: 0 <= i < j && keys[i] == a
  }

  /** Of two replicas that both wait until they are promoted, the one ahead goes first. */
  lemma {:induction false} PromotedInTurn(q: Queue, ops: seq<Op>, a: Key, b: Key)
    requires a != b && Distinct(q.pending) && Ahead(q, a, b) && LeftAlone(ops, a) && LeftAlone(ops, b)
    ensures PrecededBy(Promotions(q, ops), b, a)
    decreases |ops|
  {
    if ops != [] {
      AheadKept(q, ops[0], a, b);
      ApplyDistinct(q, ops[0]);
      var rest := Promotions(Apply(q, ops[0]), ops[1..]);
      var all := Promotions(q, ops);
      if PromotedBy(q, ops[0]) == Some(a) {
        assert all[0] == a;
      } else {
        PromotedInTurn(Apply(q, ops[0]), ops[1..], a, b);
        if PromotedBy(q, ops[0]).Some? {
          forall j | 0 <= j < |all| && all[j] == b ensures exists i :: 0 <= i < j && all[i] == a {
            assert rest[j - 1] == b;
            var i :| 0 <= i < j - 1 && rest[i] == a;
            assert all[i + 1] == a;
          }
        } else {
          assert all == rest;
        }
      }
    }
  }

  /** A replica left alone in the line is promoted once more slots have been given out than
      there were replicas ahead of it. */
  lemma {:induction false} NoStarvation(q: Queue, ops: seq<Op>, a: Key)
    requires Distinct(q.pending) && Place(q.pending, a) < |q.pending| && LeftAlone(ops, a)
    requires |Promotions(q, ops)| > Place(q.pending, a)
    ensures a in Promotions(q, ops)
    decreases |ops|
  {
    if PromotedBy(q, ops[0]) == Some(a) {
      assert Promotions(q, ops)[0] == a;
    } else {
      ApplyDistinct(q, ops[0]);
      StaysInLine(q, ops[0], a);
      NoStarvation(Apply(q, ops[0]), ops[1..], a);
    }
  }

  lemma {:induction false} StaysInLine(q: Queue, op: Op, a: Key)
    requires Distinct(q.pending) && Place(q.pending, a) < |q.pending| && PromotedBy(q, op) != Some(a)
    requires (op.MarkActive? || op.Remove?) ==> op.key != a
    ensures var p := Apply(q, op).pending;
      && Place(p, a) < |p|
      && Place(p, a) + (if PromotedBy(q, op).Some? then 1 else 0) <= Place(q.pending, a)
  {
    match op
    case Enqueue(k, now) => PlaceAppend(q.pending, [Waiting(k, now)], a);
    case MarkActive(k) => OthersKeys(q.pending, k, a); OthersPlace(q.pending, k, a);
    case Remove(k) => OthersKeys(q.pending, k, a); OthersPlace(q.pending, k, a);
    case RetainActive(_) =>
    case TryPromote(_) =>
  }

  // ----- The limit, and one slot each ------------------------------------------------------

  /** A step takes the slots past `max` exactly when it marks a replica that has none while
      all of them are taken, or promotes under a larger limit. */
  lemma LimitKeptExactly(q: Queue, op: Op, max: nat)
    requires |q.active| <= max
    ensures |Apply(q, op).active| <= max <==>
      !(|q.active| == max &&
        ((op.MarkActive? && op.key !in q.active) || (op.TryPromote? && max < op.max && q.pending != [])))
  {
    match op
    case Enqueue(_, _) =>
    case MarkActive(_) =>
    case Remove(k) => SelectShrinks(q.active, {k}, false);
    case RetainActive(live) => SelectShrinks(q.active, live, true);
    case TryPromote(_) =>
  }

  predicate RespectsLimit(q: Queue, ops: seq<Op>, max: nat)
    decreases |ops|
  {
    ops == [] ||
    (&& (ops[0].MarkActive? ==> ops[0].key in q.active || |q.active| < max)
     && (ops[0].TryPromote? ==> ops[0].max <= max)
     && RespectsLimit(Apply(q, ops[0]), ops[1..], max))
  }

  lemma {:induction false} LimitHolds(q: Queue, ops: seq<Op>, max: nat)
    requires |q.active| <= max && RespectsLimit(q, ops, max)
    ensures |Run(q, ops).active| <= max
    decreases |ops|
  {
    if ops != [] {
      LimitKeptExactly(q, ops[0], max);
      LimitHolds(Apply(q, ops[0]), ops[1..], max);
    }
  }

  /** Each replica is in the queue at most once, holding a slot or waiting for one. */
  predicate OnceEach(q: Queue) {
    NoDuplicates(q.active) && Distinct(q.pending) && forall i :: 0 <= i < |q.pending| ==> q.pending[i].key !in q.active
  }

  lemma {:induction false} OthersFrom(p: seq<Waiting>, k: Key)
    ensures forall i :: 0 <= i < |Others(p, k)| ==> Others(p, k)[i] in p && Others(p, k)[i].key != k
  {
    if p != [] {
      OthersFrom(p[1..], k);
      assert forall w :: w in p[1..] ==> w in p;
    }
  }

  /** The one step that breaks this is letting a replica that holds a slot wait for another. */
  lemma OnceEachKeptExactly(q: Queue, op: Op)
    requires OnceEach(q)
    ensures OnceEach(Apply(q, op)) <==> !(op.Enqueue? && op.key in q.active)
  {
    ApplyDistinct(q, op);
    match op
    case Enqueue(k, now) =>
      if k in q.active {
        assert !Waits(q.pending, k);
        assert Apply(q, op).pending[|q.pending|].key == k;
      }
    case MarkActive(k) => OthersFrom(q.pending, k);
    case Remove(k) => OthersFrom(q.pending, k); SelectShrinks(q.active, {k}, false); RemoveOnly(q, k);
    case RetainActive(live) => SelectShrinks(q.active, live, true); RetainOnly(q, live);
    case TryPromote(_) =>
  }

  lemma RemoveOnly(q: Queue, k: Key)
    requires OnceEach(q)
    ensures var r := Apply(q, Remove(k)); forall i :: 0 <= i < |r.pending| ==> r.pending[i].key !in r.active
  {
    OthersFrom(q.pending, k);
    var r := Apply(q, Remove(k));
    forall i | 0 <= i < |r.pending| ensures r.pending[i].key !in r.active {
      SelectHas(q.active, {k}, false, r.pending[i].key);
    }
  }

  lemma RetainOnly(q: Queue, live: set<Key>)
    requires OnceEach(q)
    ensures var r := Apply(q, RetainActive(live)); forall i :: 0 <= i < |r.pending| ==> r.pending[i].key !in r.active
  {
    var r := Apply(q, RetainActive(live));
    forall i | 0 <= i < |r.pending| ensures r.pending[i].key !in r.active {
      SelectHas(q.active, live, true, r.pending[i].key);
    }
  }

  predicate OnlyInactiveEnqueued(q: Queue, ops: seq<Op>)
    decreases |ops|
  {
    ops == [] || ((ops[0].Enqueue? ==> ops[0].key !in q.active) && OnlyInactiveEnqueued(Apply(q, ops[0]), ops[1..]))
  }

  lemma {:induction false} OnceEachHolds(q: Queue, ops: seq<Op>)
    requires OnceEach(q) && OnlyInactiveEnqueued(q, ops)
    ensures OnceEach(Run(q, ops))
    decreases |ops|
  {
    if ops != [] {
      OnceEachKeptExactly(q, ops[0]);
      OnceEachHolds(Apply(q, ops[0]), ops[1..]);
    }
  }

  /** A replica that waits while it holds a slot comes to hold two. */
  lemma TwoSlotsForOne(k: Key)
    ensures Run(EmptyQueue, [MarkActive(k), Enqueue(k, 1), TryPromote(2)]).active == [k, k]
  {
    var ops := [MarkActive(k), Enqueue(k, 1), TryPromote(2)];
    var q1 := Apply(EmptyQueue, ops[0]);
    var q2 := Apply(q1, ops[1]);
    assert q2 == Queue([k], [Waiting(k, 1)]);
    assert Run(EmptyQueue, ops) == Run(q1, ops[1..]);
    assert ops[1..][1..] == ops[2..];
    assert Run(q1, ops[1..]) == Run(q2, ops[2..]);
    assert ops[2..][1..] == [];
    assert Run(q2, ops[2..]) == Run(Apply(q2, ops[2]), []);
  }

  lemma RestDistinct(keys: seq<Key>, active: seq<Key>)
    requires keys != [] && NoDuplicates(keys) && forall k <- keys :: k !in active
    ensures NoDuplicates(keys[1..]) && forall k <- keys[1..] :: k !in active + [keys[0]]
    ensures (active + [keys[0]]) + keys[1..] == active + keys && keys[0] !in active
  {
    assert forall i :: 0 <= i < |keys[1..]| ==> keys[1..][i] == keys[i + 1];
  }

  lemma RunCons(q: Queue, op: Op, ops: seq<Op>)
    ensures Run(q, [op] + ops) == Run(Apply(q, op), ops)
  {
    assert ([op] + ops)[1..] == ops;
  }

  function Marks(keys: seq<Key>): seq<Op> { if keys == [] then [] else [MarkActive(keys[0])] + Marks(keys[1..]) }

  /** Marking looks at no limit: any number of replicas come to hold slots at once. */
  lemma {:induction false} MarkedPastLimit(q: Queue, keys: seq<Key>)
    requires NoDuplicates(keys) && forall k <- keys :: k !in q.active
    ensures Run(q, Marks(keys)).active == q.active + keys
    decreases |keys|
  {
    if keys == [] {
      assert q.active + keys == q.active;
    } else {
      RestDistinct(keys, q.active);
      RunCons(q, MarkActive(keys[0]), Marks(keys[1..]));
      MarkedPastLimit(Apply(q, MarkActive(keys[0])), keys[1..]);
    }
  }

  /** A slot that a restore gives up goes to the replica at the head of the line. */
  lemma SlotPassesOn(q: Queue, k: Key, max: nat)
    requires OnceEach(q) && |q.active| <= max && k in q.active && q.pending != []
    ensures PromotedBy(Apply(q, Remove(k)), TryPromote(max)) == Some(q.pending[0].key)
  {
    assert q.pending[0].key != k;
    SelectConserves(q.active, {k});
    SelectHas(q.active, {k}, true, k);
    assert |q.active| == |multiset(q.active)|;
    assert |Select(q.active, {k}, true)| + |Select(q.active, {k}, false)| == |q.active| by {
      SelectLengths(q.active, {k});
    }
  }

  lemma {:induction false} SelectLengths(s: seq<Key>, from: set<Key>)
    ensures |Select(s, from, true)| + |Select(s, from, false)| == |s|
  {
    if s != [] { SelectLengths(s[1..], from); }
  }
}
