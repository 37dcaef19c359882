/** The duplicate cache of time_cache.rs: a map, the list of its keys in order of
    expiration, and a length kept beside them. */
module TimeCache {
  import opened Types

  datatype Entry<K> = Entry(key: K, expiration: nat)

  datatype Cache<K(==), V> = Cache(len: nat, values: map<K, V>, list: seq<Entry<K>>, ttl: nat)

  ghost predicate DistinctKeys<K>(list: seq<Entry<K>>) {
    forall i, j :: 0 <= i < j < |list| ==> list[i].key != list[j].key
  }

  ghost function KeysOf<K>(list: seq<Entry<K>>): set<K> {
    set e | e in list :: e.key
  }

  /** The list and the map agree, so that `len` never underflows. */
  ghost predicate Consistent<K, V>(c: Cache<K, V>) {
    c.len == |c.list| && DistinctKeys(c.list) && c.values.Keys == KeysOf(c.list)
  }

  /** `remove_expired_values`: pop from the front while the entry has expired. */
  ghost function Purged<K, V>(c: Cache<K, V>, now: nat): (p: Cache<K, V>)
    requires Consistent(c)
    ensures Consistent(p) && p.ttl == c.ttl
    ensures p.list != [] ==> p.list[0].expiration > now
    decreases |c.list|
  {
    if c.list == [] || c.list[0].expiration > now then c
    else
      PopConsistent(c);
      Purged(Popped(c), now)
  }

  ghost function Popped<K, V>(c: Cache<K, V>): Cache<K, V>
    requires Consistent(c) && c.list != []
  {
    Cache(c.len - 1, c.values - {c.list[0].key}, c.list[1..], c.ttl)
  }

  lemma PopConsistent<K, V>(c: Cache<K, V>)
    requires Consistent(c) && c.list != []
    ensures Consistent(Popped(c))
  {
    var head, tail := c.list[0], c.list[1..];
    assert c.list == [head] + tail;
    forall e | e in tail
      ensures e.key != head.key
    {
      var i :| 0 <= i < |tail| && tail[i] == e;
      assert c.list[i + 1] == e;
    }
    assert KeysOf(c.list) == {head.key} + KeysOf(tail);
  }

  /** One turn of the purging loop. */
  lemma PopStep<K, V>(c: Cache<K, V>, now: nat)
    requires Consistent(c) && c.list != []
    ensures c.len > 0 && Consistent(Popped(c))
    ensures Purged(c, now) == if c.list[0].expiration > now then c else Purged(Popped(c), now)
  {
    PopConsistent(c);
  }

  /** `insert`: purge, then add the key unless it is there. The flag says whether it was added. */
  ghost function Inserted<K, V>(c: Cache<K, V>, now: nat, key: K, value: V): (r: (Cache<K, V>, bool))
    requires Consistent(c)
    ensures Consistent(r.0) && r.0.ttl == c.ttl
  {
    var p := Purged(c, now);
    if key in p.values then (p, false)
    else
      PushConsistent(p, key, value, now + c.ttl);
      (Pushed(p, key, value, now + c.ttl), true)
  }

  ghost function Pushed<K, V>(c: Cache<K, V>, key: K, value: V, expiration: nat): Cache<K, V> {
    Cache(c.len + 1, c.values[key := value], c.list + [Entry(key, expiration)], c.ttl)
  }

  lemma PushConsistent<K, V>(c: Cache<K, V>, key: K, value: V, expiration: nat)
    requires Consistent(c) && key !in c.values
    ensures Consistent(Pushed(c, key, value, expiration))
  {
    assert KeysOf(c.list + [Entry(key, expiration)]) == KeysOf(c.list) + {key} by {
      forall e | e in c.list
        ensures e in c.list + [Entry(key, expiration)]
      {}
      assert Entry(key, expiration) in c.list + [Entry(key, expiration)];
    }
    forall i | 0 <= i < |c.list|
      ensures c.list[i].key in KeysOf(c.list)
    {}
  }

  /** The cache object. Its methods follow the source step by step and are proved
      against `Purged` and `Inserted`. */
  class DuplicateCache<K(==), V> {
    var len: nat
    var values: map<K, V>
    var list: seq<Entry<K>>
    const ttl: nat

    ghost function State(): Cache<K, V>
      reads this
    {
      Cache(len, values, list, ttl)
    }

    constructor (ttl: nat)
      ensures State() == Cache(0, map[], [], ttl)
      ensures Consistent(State())
    {
      this.ttl := ttl;
      len, values, list := 0, map[], [];
    }

    method RemoveExpiredValues(now: nat)
      requires Consistent(State())
      modifies this
      ensures Consistent(State())
      ensures State() == Purged(old(State()), now)
    {
      hide Consistent;
      var going := true;
      while going && list != []
        invariant Consistent(State())
        invariant Purged(State(), now) == Purged(old(State()), now)
        invariant !going ==> Purged(State(), now) == State()
        decreases |list|, going
      {
        ghost var before := State();
        PopStep(before, now);
        var entry := list[0];
        list := list[1..];
        if entry.expiration > now {
          list := [entry] + list;
          going := false;
          assert State() == before;
        } else {
          len := len - 1;
          values := values - {entry.key};
          assert State() == Popped(before);
        }
      }
    }

    method Insert(now: nat, key: K, value: V) returns (added: bool)
      requires Consistent(State())
      modifies this
      ensures Consistent(State())
      ensures (State(), added) == Inserted(old(State()), now, key, value)
    {
      RemoveExpiredValues(now);
      if key !in values {
        PushConsistent(State(), key, value, now + ttl);
        values := values[key := value];
        len := len + 1;
        list := list + [Entry(key, now + ttl)];
        added := true;
      } else {
        added := false;
      }
    }

    method Contains(key: K) returns (found: bool)
      ensures found <==> key in State().values
    {
      found := key in values;
    }

    method Get(key: K) returns (value: Option<V>)
      ensures value == if key in State().values then Some(State().values[key]) else None
    {
      value := if key in values then Some(values[key]) else None;
    }
  }
}
