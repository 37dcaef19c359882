/** What the duplicate cache answers, told from the calls made on it and nothing else. */
module CacheHistory {
  import opened TimeCache

  /** One call of `insert`: the clock reading it took, its arguments and what it was told. */
  datatype Call<K, V> = Call(now: nat, key: K, value: V, added: bool)

  ghost predicate ClockNeverRunsBack<K, V>(calls: seq<Call<K, V>>) {
    forall i, j :: 0 <= i < j < |calls| ==> calls[i].now <= calls[j].now
  }

  function LastReading<K, V>(calls: seq<Call<K, V>>): nat {
    if calls == [] then 0 else calls[|calls| - 1].now
  }

  ghost function After<K, V>(ttl: nat, calls: seq<Call<K, V>>): (c: Cache<K, V>)
    ensures Consistent(c) && c.ttl == ttl
  {
    if calls == [] then Cache(0, map[], [], ttl)
    else
      var call := calls[|calls| - 1];
      Inserted(After(ttl, calls[..|calls| - 1]), call.now, call.key, call.value).0
  }

  /** Each call was told what the cache tells it in the state the earlier calls leave. */
  ghost predicate Happened<K, V>(ttl: nat, calls: seq<Call<K, V>>) {
    calls != [] ==>
      var before, call := calls[..|calls| - 1], calls[|calls| - 1];
      Happened(ttl, before) && call.added == Inserted(After(ttl, before), call.now, call.key, call.value).1
  }

  ghost predicate SortedByExpiration<K>(list: seq<Entry<K>>) {
    forall i, j :: 0 <= i < j < |list| ==> list[i].expiration <= list[j].expiration
  }

  /** The effect of an insertion on which entries are in the list and what they map to. */
  ghost predicate InsertEffect<K(!new), V>(c: Cache<K, V>, now: nat, key: K, value: V, c': Cache<K, V>, added: bool) {
    && c'.ttl == c.ttl
    && (forall e :: e in c'.list <==> (e in c.list && e.expiration > now) || (added && e == Entry(key, now + c.ttl)))
    && (added <==> forall e :: e in c.list && e.key == key ==> e.expiration <= now)
    && (forall k :: k in c'.values ==>
                      if added && k == key then c'.values[k] == value
                      else k in c.values && c'.values[k] == c.values[k])
    && c'.values.Keys == KeysOf(c'.list)
  }

  /** On a sorted list, purging keeps exactly the entries that outlive the reading. */
  lemma {:induction false} PurgedKeeps<K(!new), V>(c: Cache<K, V>, now: nat)
    requires Consistent(c) && SortedByExpiration(c.list)
    ensures SortedByExpiration(Purged(c, now).list)
    ensures forall e :: e in Purged(c, now).list <==> e in c.list && e.expiration > now
    ensures forall k :: k in Purged(c, now).values ==> k in c.values && Purged(c, now).values[k] == c.values[k]
    decreases |c.list|
  {
    hide Consistent, Purged, SortedByExpiration;
    if c.list == [] {
      PurgedNothing(c, now);
    } else {
      PopStep(c, now);
      SortedParts(c.list);
      if c.list[0].expiration <= now {
        PurgedKeeps(Popped(c), now);
      }
    }
  }

  lemma PurgedNothing<K, V>(c: Cache<K, V>, now: nat)
    requires Consistent(c) && c.list == []
    ensures Purged(c, now) == c && SortedByExpiration(c.list)
  {}

  lemma SortedParts<K(!new)>(list: seq<Entry<K>>)
    requires SortedByExpiration(list) && list != []
    ensures SortedByExpiration(list[1..])
    ensures forall e :: e in list <==> e == list[0] || e in list[1..]
    ensures forall e :: e in list ==> e.expiration >= list[0].expiration
  {
    assert list == [list[0]] + list[1..];
  }

  lemma InsertedHasEffect<K(!new), V>(c: Cache<K, V>, now: nat, key: K, value: V)
    requires Consistent(c) && SortedByExpiration(c.list)
    requires forall e :: e in c.list ==> e.expiration <= now + c.ttl
    ensures var (c', added) := Inserted(c, now, key, value);
            && InsertEffect(c, now, key, value, c', added)
            && SortedByExpiration(c'.list)
            && forall e :: e in c'.list ==> e.expiration <= now + c.ttl
  {
    hide Purged, DistinctKeys;
    PurgedKeeps(c, now);
    var p := Purged(c, now);
    var (c', added) := Inserted(c, now, key, value);
    if added {
      PushedHasEffect(c, p, now, key, value);
    } else {
      var e :| e in p.list && e.key == key;
    }
  }

  lemma PushedHasEffect<K(!new), V>(c: Cache<K, V>, p: Cache<K, V>, now: nat, key: K, value: V)
    requires Consistent(p) && SortedByExpiration(p.list) && key !in p.values && p.ttl == c.ttl
    requires forall e :: e in p.list <==> e in c.list && e.expiration > now
    requires forall k :: k in p.values ==> k in c.values && p.values[k] == c.values[k]
    requires forall e :: e in c.list ==> e.expiration <= now + c.ttl
    ensures var c' := Pushed(p, key, value, now + c.ttl);
            InsertEffect(c, now, key, value, c', true) && SortedByExpiration(c'.list) && forall e :: e in c'.list ==>
                e.expiration <= now + c.ttl
  {
    hide DistinctKeys, Purged, KeysOf, SortedByExpiration;
    var entry := Entry(key, now + c.ttl);
    PushConsistent(p, key, value, now + c.ttl);
    SortedPush(p.list, entry);
    OthersExpired(c, p, now, key);
    forall e
      ensures e in p.list + [entry] <==> e in p.list || e == entry
    {}
  }

  lemma SortedPush<K(!new)>(list: seq<Entry<K>>, entry: Entry<K>)
    requires SortedByExpiration(list) && forall e :: e in list ==> e.expiration <= entry.expiration
    ensures SortedByExpiration(list + [entry])
  {
    assert forall i :: 0 <= i < |list| ==> list[i] in list;
  }

  lemma OthersExpired<K(!new), V>(c: Cache<K, V>, p: Cache<K, V>, now: nat, key: K)
    requires p.values.Keys == KeysOf(p.list) && key !in p.values
    requires forall e :: e in p.list <==> e in c.list && e.expiration > now
    ensures forall e :: e in c.list && e.key == key ==> e.expiration <= now
  {
    assert forall e :: e in p.list ==> e.key in KeysOf(p.list);
  }

  /** Call `j` added its key, and the entry it made is still in the list: alive at the last
      reading, or just made. */
  ghost predicate Held<K, V>(ttl: nat, calls: seq<Call<K, V>>, j: nat) {
    j < |calls| && calls[j].added && (calls[j].now + ttl > LastReading(calls) || j == |calls| - 1)
  }

  ghost predicate FromCall<K, V>(c: Cache<K, V>, calls: seq<Call<K, V>>, e: Entry<K>) {
    exists j: nat :: Held(c.ttl, calls, j) && e == Entry(calls[j].key, calls[j].now + c.ttl)
                  && e.key in c.values && c.values[e.key] == calls[j].value
  }

  /** The list holds exactly the entries of the calls still held, with the values they came with. */
  ghost predicate TellsHistory<K(!new), V>(c: Cache<K, V>, calls: seq<Call<K, V>>) {
    && (forall e {:trigger FromCall(c, calls, e)} :: e in c.list ==> FromCall(c, calls, e))
    && (forall j: nat :: Held(c.ttl, calls, j) ==> Entry(calls[j].key, calls[j].now + c.ttl) in c.list)
  }

  lemma HeldGrows<K(!new), V>(ttl: nat, calls: seq<Call<K, V>>, call: Call<K, V>, j: nat)
    requires LastReading(calls) <= call.now && j < |calls|
    ensures (calls + [call])[j] == calls[j]
    ensures Held(ttl, calls + [call], j) ==> Held(ttl, calls, j)
    ensures Held(ttl, calls, j) && calls[j].now + ttl > call.now ==> Held(ttl, calls + [call], j)
  {
    assert LastReading(calls + [call]) == call.now;
  }

  lemma EffectFromCall<K(!new), V>(c: Cache<K, V>, calls: seq<Call<K, V>>, call: Call<K, V>, c': Cache<K, V>,
                                   e: Entry<K>)
    requires TellsHistory(c, calls) && LastReading(calls) <= call.now
    requires InsertEffect(c, call.now, call.key, call.value, c', call.added)
    requires e in c'.list
    ensures FromCall(c', calls + [call], e)
  {
    if e in c.list && e.expiration > call.now {
      assert FromCall(c, calls, e);
      var j: nat :| Held(c.ttl, calls, j) && e == Entry(calls[j].key, calls[j].now + c.ttl)
                 && e.key in c.values && c.values[e.key] == calls[j].value;
      HeldGrows(c.ttl, calls, call, j);
      assert e.key in c'.values;
    } else {
      assert (calls + [call])[|calls|] == call && Held(c.ttl, calls + [call], |calls|);
    }
  }

  lemma EffectListsHeld<K(!new), V>(c: Cache<K, V>, calls: seq<Call<K, V>>, call: Call<K, V>, c': Cache<K, V>, j: nat)
    requires TellsHistory(c, calls) && LastReading(calls) <= call.now
    requires InsertEffect(c, call.now, call.key, call.value, c', call.added)
    requires Held(c.ttl, calls + [call], j)
    ensures Entry((calls + [call])[j].key, (calls + [call])[j].now + c.ttl) in c'.list
  {
    if j < |calls| {
      HeldGrows(c.ttl, calls, call, j);
    }
  }

  lemma EffectTellsHistory<K(!new), V>(c: Cache<K, V>, calls: seq<Call<K, V>>, call: Call<K, V>, c': Cache<K, V>)
    requires TellsHistory(c, calls) && LastReading(calls) <= call.now
    requires InsertEffect(c, call.now, call.key, call.value, c', call.added)
    ensures TellsHistory(c', calls + [call])
  {
    forall e {:trigger FromCall(c', calls + [call], e)} | e in c'.list
      ensures FromCall(c', calls + [call], e)
    {
      EffectFromCall(c, calls, call, c', e);
    }
    forall j: nat | Held(c.ttl, calls + [call], j)
      ensures Entry((calls + [call])[j].key, (calls + [call])[j].now + c.ttl) in c'.list
    {
      EffectListsHeld(c, calls, call, c', j);
    }
  }

  /** Call `i` was told "new" exactly when no earlier call that was told "new" for the same key
      still has time to live. */
  ghost predicate Agrees<K, V>(ttl: nat, calls: seq<Call<K, V>>, i: nat)
    requires i < |calls|
  {
    calls[i].added <==> forall j :: 0 <= j < i && calls[j].added && calls[j].key == calls[i].key ==>
                                      calls[j].now + ttl <= calls[i].now
  }

  lemma EffectAgrees<K(!new), V>(c: Cache<K, V>, calls: seq<Call<K, V>>, call: Call<K, V>, c': Cache<K, V>)
    requires TellsHistory(c, calls) && LastReading(calls) <= call.now
    requires InsertEffect(c, call.now, call.key, call.value, c', call.added)
    ensures Agrees(c.ttl, calls + [call], |calls|)
  {
    if call.added {
      forall j | 0 <= j < |calls| && calls[j].added && calls[j].key == call.key
        ensures calls[j].now + c.ttl <= call.now
      {
        assert Held(c.ttl, calls, j) || calls[j].now + c.ttl <= call.now;
      }
    } else {
      var e :| e in c.list && e.key == call.key && e.expiration > call.now;
      assert FromCall(c, calls, e);
      var j: nat :| Held(c.ttl, calls, j) && e == Entry(calls[j].key, calls[j].now + c.ttl);
      assert (calls + [call])[j] == calls[j];
    }
  }

  ghost predicate Told<K(!new), V>(ttl: nat, calls: seq<Call<K, V>>) {
    var c := After(ttl, calls);
    && TellsHistory(c, calls)
    && SortedByExpiration(c.list)
    && forall e :: e in c.list ==> e.expiration <= LastReading(calls) + ttl
  }

  lemma OneMoreCall<K(!new), V>(ttl: nat, before: seq<Call<K, V>>, call: Call<K, V>)
    requires Told(ttl, before) && Happened(ttl, before + [call]) && LastReading(before) <= call.now
    ensures Told(ttl, before + [call]) && Agrees(ttl, before + [call], |before|)
  {
    var calls := before + [call];
    assert calls[..|before|] == before && calls[|before|] == call;
    var c := After(ttl, before);
    InsertedHasEffect(c, call.now, call.key, call.value);
    assert After(ttl, calls) == Inserted(c, call.now, call.key, call.value).0;
    EffectTellsHistory(c, before, call, After(ttl, calls));
    EffectAgrees(c, before, call, After(ttl, calls));
  }

  lemma AgreesGrows<K, V>(ttl: nat, before: seq<Call<K, V>>, call: Call<K, V>, i: nat)
    requires i < |before| && Agrees(ttl, before, i)
    ensures Agrees(ttl, before + [call], i)
  {
    assert forall j :: 0 <= j < |before| ==> (before + [call])[j] == before[j];
  }

  lemma LastCall<K(!new), V>(ttl: nat, calls: seq<Call<K, V>>)
    requires ClockNeverRunsBack(calls) && Happened(ttl, calls) && calls != []
    ensures var before, call := calls[..|calls| - 1], calls[|calls| - 1];
            && calls == before + [call] && ClockNeverRunsBack(before) && Happened(ttl, before)
            && LastReading(before) <= call.now
  {
    hide After;
  }

  lemma {:induction false} HistoryIsTold<K(!new), V>(ttl: nat, calls: seq<Call<K, V>>)
    requires ClockNeverRunsBack(calls) && Happened(ttl, calls)
    ensures Told(ttl, calls)
  {
    if calls != [] {
      hide After, Told, Agrees, Happened, ClockNeverRunsBack, LastReading;
      var before, call := calls[..|calls| - 1], calls[|calls| - 1];
      LastCall(ttl, calls);
      HistoryIsTold(ttl, before);
      OneMoreCall(ttl, before, call);
    }
  }

  lemma {:induction false} EveryCallAgrees<K(!new), V>(ttl: nat, calls: seq<Call<K, V>>, i: nat)
    requires ClockNeverRunsBack(calls) && Happened(ttl, calls) && i < |calls|
    ensures Agrees(ttl, calls, i)
    decreases |calls|
  {
    hide After, Told, Agrees, Happened, ClockNeverRunsBack, LastReading;
    var before, call := calls[..|calls| - 1], calls[|calls| - 1];
    LastCall(ttl, calls);
    if i < |before| {
      EveryCallAgrees(ttl, before, i);
      AgreesGrows(ttl, before, call, i);
    } else {
      HistoryIsTold(ttl, before);
      OneMoreCall(ttl, before, call);
    }
  }

  /** For a clock that never runs back, every call of `insert` is told "new" exactly when no
      earlier call that was told "new" for the same key still has time to live. */
  lemma CacheAgreesWithHistory<K(!new), V>(ttl: nat, calls: seq<Call<K, V>>, i: nat)
    requires ClockNeverRunsBack(calls) && Happened(ttl, calls) && i < |calls|
    ensures calls[i].added <==>
            forall j :: 0 <= j < i && calls[j].added && calls[j].key == calls[i].key ==>
                          calls[j].now + ttl <= calls[i].now
  {
    EveryCallAgrees(ttl, calls, i);
  }

  /** What `contains` and `get` see: they do not purge, so they answer for the reading of the last
      insertion, not for the present. The value is the one the key was added with. */
  lemma LookupSeesLastInsertion<K(!new), V>(ttl: nat, calls: seq<Call<K, V>>, key: K)
    requires ClockNeverRunsBack(calls) && Happened(ttl, calls)
    ensures var c := After(ttl, calls);
            && (key in c.values <==> exists j: nat :: Held(ttl, calls, j) && calls[j].key == key)
            && (key in c.values ==> exists j: nat ::
                Held(ttl, calls, j) && calls[j].key == key && c.values[key] == calls[j].value)
  {
    HistoryIsTold(ttl, calls);
    var c := After(ttl, calls);
    assert key in c.values ==> exists e :: e in c.list && e.key == key;
    if e :| e in c.list && e.key == key {
      assert FromCall(c, calls, e);
    }
    if j: nat :| Held(ttl, calls, j) && calls[j].key == key {
      assert Entry(key, calls[j].now + ttl) in c.list;
    }
  }
}
