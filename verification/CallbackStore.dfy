/** The in-memory store of what Jobs post back, keyed by namespace and name. */
module CallbackStores {
  import opened Options

  type Key = string

  function KeyOf(namespace: string, name: string): Key { namespace + "/" + name }

  /** Neither part of a key can hold a slash, so two different pairs never share an entry. */
  lemma {:induction false} KeysApart(ns: string, name: string, ns': string, name': string)
    requires '/' !in ns && '/' !in ns' && KeyOf(ns, name) == KeyOf(ns', name')
    ensures ns == ns' && name == name'
  {
    var k, k' := KeyOf(ns, name), KeyOf(ns', name');
    assert k[|ns|] == '/' && k'[|ns'|] == '/';
    assert k[..|ns|] == ns && k'[..|ns'|] == ns';
    assert k[|ns| + 1..] == name && k'[|ns'| + 1..] == name';
  }

  datatype Entry<+Data> = Entry(storedAt: int, data: Data)

  predicate Fresh<Data>(e: Entry<Data>, now: int, maxAge: int) { now - e.storedAt < maxAge }

  class CallbackStore<Data> {
    var inner: map<Key, Entry<Data>>

    constructor ()
      ensures inner == map[]
    {
      inner := map[];
    }

    /** A later result under the same key replaces the earlier one. */
    method Store(namespace: string, name: string, data: Data, now: int)
      modifies this
      ensures inner == old(inner)[KeyOf(namespace, name) := Entry(now, data)]
    {
      inner := inner[KeyOf(namespace, name) := Entry(now, data)];
    }

    /** What is taken is no longer held, so a second take finds nothing. */
    method Take(namespace: string, name: string) returns (data: Option<Data>)
      modifies this
      ensures inner == old(inner) - {KeyOf(namespace, name)}
      ensures data.Some? <==> KeyOf(namespace, name) in old(inner)
      ensures data.Some? ==> data.value == old(inner)[KeyOf(namespace, name)].data
    {
      var key := KeyOf(namespace, name);
      if key in inner {
        data := Some(inner[key].data);
        inner := inner - {key};
      } else {
        data := None;
      }
    }

    /** Exactly what is younger than `maxAge` stays, unchanged; the answer is how many went. */
    method Sweep(now: int, maxAge: int) returns (dropped: nat)
      modifies this
      ensures forall k :: k in inner <==> k in old(inner) && now - old(inner)[k].storedAt < maxAge
      ensures forall k <- inner :: inner[k] == old(inner)[k]
      ensures dropped == |old(inner)| - |inner|
    {
      var before := |inner|;
      ghost var was := inner;
      var unseen := inner.Keys;
      while unseen != {}
        invariant unseen <= was.Keys && unseen <= inner.Keys
        invariant forall k :: k in inner <==> k in was && (k in unseen || Fresh(was[k], now, maxAge))
        invariant forall k <- inner :: inner[k] == was[k]
        invariant |inner| <= |was|
        decreases |unseen|
      {
        var k :| k in unseen;
        if !Fresh(inner[k], now, maxAge) {
          assert (inner - {k}).Keys == inner.Keys - {k};
          assert |(inner - {k}).Keys| < |inner.Keys|;
          inner := inner - {k};
        }
        unseen := unseen - {k};
      }
      dropped := before - |inner|;
    }
  }
}
