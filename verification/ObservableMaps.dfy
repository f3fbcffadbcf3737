/** The observable hash map: a map from keys to observables of an optional
    value, behind which a plain map can be seen. A key stays in the map without
    a value as long as somebody observes it. */
module ObservableMaps {
  import opened Results
  import opened Observables

  // ------------------------------------------------------ as values

  type ObsMap<K, C, V> = map<K, Obs<C, Option<V>>>

  /** The plain map: the keys that hold a value. */
  function Plain<K, C, V>(m: ObsMap<K, C, V>): map<K, V> {
    map k | k in m && m[k].value.Some? :: m[k].value.value
  }

  function Lookup<K, V>(m: map<K, V>, k: K): Option<V> {
    if k in m then Some(m[k]) else None
  }

  function Observed<K, C, V>(m: ObsMap<K, C, V>, k: K, id: C): ObsMap<K, C, V> {
    m[k := (if k in m then m[k] else Obs(None, [])).Observe(id)]
  }

  function Inserted<K, C, V(==)>(m: ObsMap<K, C, V>, k: K, v: V): ObsMap<K, C, V> {
    m[k := if k in m then Replaced(m[k], Some(v)) else Obs(Some(v), [])]
  }

  function Removed<K, C, V(==)>(m: ObsMap<K, C, V>, k: K): ObsMap<K, C, V> {
    if k !in m then m
    else if m[k].Purge().lines == [] then m - {k}
    else m[k := Replaced(m[k].Purge(), None)]
  }

  function InsertedAll<K, C, V(==)>(m: ObsMap<K, C, V>, entries: seq<(K, V)>): ObsMap<K, C, V> {
    if entries == [] then m
    else
      var last := entries[|entries| - 1];
      Inserted(InsertedAll(m, entries[..|entries| - 1]), last.0, last.1)
  }

  /** Removing a set of keys; each key is treated on its own. */
  function RemovedAll<K, C, V(==)>(m: ObsMap<K, C, V>, keys: set<K>): ObsMap<K, C, V> {
    map k | k in m && (k !in keys || m[k].Purge().lines != []) ::
      if k in keys then Replaced(m[k].Purge(), None) else m[k]
  }

  /** One observer drops its stream. Its sender is noticed and forgotten later. */
  function HungUp<K, C(==), V>(m: ObsMap<K, C, V>, id: C): ObsMap<K, C, V> {
    map k | k in m :: Obs(m[k].value, Closed(m[k].lines, id))
  }

  function KeysOf<K, V>(entries: seq<(K, V)>): (r: set<K>)
    ensures forall i :: 0 <= i < |entries| ==> entries[i].0 in r
  {
    set i | 0 <= i < |entries| :: entries[i].0
  }

  function Synced<K, C, V(==)>(m: ObsMap<K, C, V>, entries: seq<(K, V)>): ObsMap<K, C, V> {
    RemovedAll(InsertedAll(m, entries), m.Keys - KeysOf(entries))
  }

  lemma KeysOfStep<K, V>(entries: seq<(K, V)>, i: nat)
    requires i < |entries|
    ensures KeysOf(entries[..i + 1]) == KeysOf(entries[..i]) + {entries[i].0}
  {
    assert entries[..i + 1] == entries[..i] + [entries[i]];
    forall k ensures k in KeysOf(entries[..i + 1]) <==> k in KeysOf(entries[..i]) + {entries[i].0} {
      if k in KeysOf(entries[..i]) {
        var j :| 0 <= j < i && entries[..i][j].0 == k;
        assert entries[..i + 1][j].0 == k;
      }
      if k == entries[i].0 {
        assert entries[..i + 1][i].0 == k;
      }
    }
  }

  lemma NothingRemoved<K, C, V>(m: ObsMap<K, C, V>)
    ensures RemovedAll(m, {}) == m
  {
  }

  /** Removing one more key. */
  lemma RemovedStep<K, C, V>(m: ObsMap<K, C, V>, keys: set<K>, k: K)
    requires k !in keys
    ensures RemovedAll(m, keys + {k}) == Removed(RemovedAll(m, keys), k)
  {
    hide Open, Replaced;
  }

  // ------------------------------------------------------ as an object

  class ObservableHashMap<K(==), V(==)> {
    var entries: map<K, Observable<Option<V>>>

    /** The observables and their channels are separate objects. */
    ghost predicate Valid()
      reads this, entries.Values
    {
      && (forall k :: k in entries ==> entries[k].Valid())
      && (forall k, l :: k in entries && l in entries && k != l ==> Apart(entries[k], entries[l]))
    }

    ghost function Channels(): set<Channel<Option<V>>>
      reads this, entries.Values
    {
      set k, c | k in entries && c in entries[k].Channels() :: c
    }

    ghost function Abs(): ObsMap<K, Channel<Option<V>>, V>
      reads this, entries.Values, Channels()
    {
      map k | k in entries :: entries[k].Abs()
    }

    lemma OneEntry()
      requires Valid()
      ensures Abs().Keys == entries.Keys && forall l :: l in entries ==> Abs()[l] == entries[l].Abs()
    {
    }

    /** When only the entry at k may have changed, the rest of the abstract map is the same. */
    lemma OnlyAt(before: ObsMap<K, Channel<Option<V>>, V>, k: K)
      requires Valid() && k in entries
      requires entries.Keys == before.Keys + {k}
      requires forall l :: l in entries && l != k ==> l in before && entries[l].Abs() == before[l]
      ensures Abs() == before[k := entries[k].Abs()]
    {
    }

    lemma AbsIs(m: ObsMap<K, Channel<Option<V>>, V>)
      requires Valid() && m.Keys == entries.Keys
      requires forall l :: l in entries ==> entries[l].Abs() == m[l]
      ensures Abs() == m
    {
    }

    constructor ()
      ensures Valid() && entries == map[] && Abs() == map[]
    {
      entries := map[];
    }

    // What can happen to a single entry.

    method Add(k: K, v: Option<V>)
      requires Valid() && k !in entries
      modifies this
      ensures Valid() && k in entries && fresh(entries[k]) && entries == old(entries)[k := entries[k]]
      ensures Channels() <= old(Channels())
      ensures Abs() == old(Abs())[k := Obs(v, [])]
    {
      hide Lines, Abs, Observable.Valid;
      OneEntry();
      ghost var before := Abs();
      var o := new Observable(v);
      entries := entries[k := o];
      OnlyAt(before, k);
    }

    method ObserveAt(k: K) returns (stream: Channel<Option<V>>)
      requires Valid() && k in entries
      modifies entries[k]
      ensures Valid() && fresh(stream)
      ensures Channels() <= old(Channels()) + {stream}
      ensures Abs() == old(Abs())[k := old(Abs())[k].Observe(stream)]
    {
      hide Lines, Abs, Observable.Valid;
      OneEntry();
      ghost var before := Abs();
      stream := entries[k].Observe();
      OnlyAt(before, k);
    }

    method ReplaceAt(k: K, v: Option<V>) returns (oldValue: Option<V>)
      requires Valid() && k in entries
      modifies entries[k], entries[k].Channels()
      ensures Valid() && oldValue == old(entries[k].value)
      ensures Channels() <= old(Channels())
      ensures Abs() == old(Abs())[k := Replaced(old(Abs())[k], v)]
    {
      hide Lines, Abs, Replaced, Observable.Valid;
      OneEntry();
      ghost var before := Abs();
      oldValue := entries[k].Replace(v);
      OnlyAt(before, k);
    }

    method PurgeAt(k: K) returns (unobserved: Option<Option<V>>)
      requires Valid() && k in entries
      modifies entries[k]
      ensures Valid() && entries[k].value == old(entries[k].value)
      ensures Channels() <= old(Channels())
      ensures Abs() == old(Abs())[k := old(Abs())[k].Purge()]
      ensures unobserved == if Abs()[k].lines == [] then Some(entries[k].value) else None
    {
      hide Lines, Abs, Open, Observable.Valid;
      OneEntry();
      ghost var before := Abs();
      unobserved := entries[k].TryIntoUnobserved();
      OnlyAt(before, k);
    }

    method Delete(k: K)
      requires Valid() && k in entries
      modifies this
      ensures Valid() && entries == old(entries) - {k}
      ensures Channels() <= old(Channels())
      ensures Abs() == old(Abs()) - {k}
    {
      hide Lines, Abs, Observable.Valid;
      OneEntry();
      ghost var before := Abs();
      entries := entries - {k};
      AbsIs(before - {k});
    }

    // The operations of the map.

    method Observe(k: K) returns (stream: Channel<Option<V>>)
      requires Valid()
      modifies this, entries.Values
      ensures Valid() && fresh(stream) && fresh(entries.Values - old(entries.Values))
      ensures Channels() <= old(Channels()) + {stream}
      ensures Abs() == Observed(old(Abs()), k, stream)
    {
      hide Abs, Valid, Channels;
      KeysMatch();
      if k !in entries {
        Add(k, None);
      }
      stream := ObserveAt(k);
    }

    method Insert(k: K, v: V) returns (oldValue: Option<V>)
      requires Valid()
      modifies this, entries.Values, Channels()
      ensures Valid() && fresh(entries.Values - old(entries.Values)) && Channels() <= old(Channels())
      ensures Abs() == Inserted(old(Abs()), k, v)
      ensures oldValue == Lookup(Plain(old(Abs())), k)
    {
      hide Abs, Valid, Channels, Replaced;
      KeysMatch();
      if k in entries {
        ChannelsAt(k);
        oldValue := ReplaceAt(k, Some(v));
      } else {
        Add(k, Some(v));
        oldValue := None;
      }
    }

    method Remove(k: K) returns (oldValue: Option<V>)
      requires Valid()
      modifies this, entries.Values, Channels()
      ensures Valid() && entries.Values <= old(entries.Values) && Channels() <= old(Channels())
      ensures Abs() == Removed(old(Abs()), k)
      ensures oldValue == Lookup(Plain(old(Abs())), k)
    {
      hide Abs, Valid, Channels, Replaced, Open;
      KeysMatch();
      if k !in entries {
        return None;
      }
      var unobserved := PurgeAt(k);
      if unobserved.Some? {
        oldValue := unobserved.value;
        Delete(k);
      } else {
        ChannelsAt(k);
        oldValue := ReplaceAt(k, None);
      }
    }

    /** Makes the map hold exactly the listed entries, a later entry overriding an
        earlier one; the keys left over are removed in any order. */
    method Sync(list: seq<(K, V)>)
      requires Valid()
      modifies this, entries.Values, Channels()
      ensures Valid() && fresh(entries.Values - old(entries.Values)) && Channels() <= old(Channels())
      ensures Abs() == Synced(old(Abs()), list)
    {
      hide Abs, Valid, Channels, Inserted, Removed, RemovedAll;
      KeysMatch();
      var remaining := entries.Keys;
      for i := 0 to |list|
        invariant Valid() && fresh(entries.Values - old(entries.Values)) && Channels() <= old(Channels())
        invariant Abs() == InsertedAll(old(Abs()), list[..i])
        invariant remaining == old(entries.Keys) - KeysOf(list[..i])
      {
        assert list[..i + 1][..i] == list[..i];
        KeysOfStep(list, i);
        remaining := remaining - {list[i].0};
        var _ := Insert(list[i].0, list[i].1);
      }
      assert list[..|list|] == list;
      ghost var left, listed := remaining, Abs();
      NothingRemoved(listed);
      assert left - remaining == {};
      while remaining != {}
        invariant Valid() && fresh(entries.Values - old(entries.Values)) && Channels() <= old(Channels())
        invariant remaining <= left
        invariant Abs() == RemovedAll(listed, left - remaining)
      {
        var k :| k in remaining;
        RemovedStep(listed, left - remaining, k);
        assert left - (remaining - {k}) == left - remaining + {k};
        remaining := remaining - {k};
        var _ := Remove(k);
      }
      assert left - remaining == left;
    }

    /** An observer drops a stream it got from this map, at any time. */
    method HangUp(stream: Channel<Option<V>>)
      requires Valid()
      modifies stream
      ensures Valid() && Channels() == old(Channels())
      ensures Abs() == HungUp(old(Abs()), stream)
    {
      hide Lines, Abs, Observable.Valid, Closed;
      OneEntry();
      ghost var before := Abs();
      stream.Drop();
      forall k | k in entries ensures entries[k].Abs() == Obs(before[k].value, Closed(before[k].lines, stream)) {
        LinesClosed(entries[k].senders, stream, before[k].lines);
      }
      AbsIs(HungUp(before, stream));
    }

    lemma KeysMatch()
      requires Valid()
      ensures Abs().Keys == entries.Keys
      ensures forall l :: l in entries ==> Abs()[l].value == entries[l].value
    {
    }

    lemma ChannelsAt(k: K)
      requires k in entries
      ensures entries[k].Channels() <= Channels()
    {
    }
  }

  /** The same senders, of which one is closed now. */
  lemma LinesClosed<T>(senders: seq<Channel<T>>, stream: Channel<T>, before: seq<Line<Channel<T>, T>>)
    requires |before| == |senders| && !stream.open
    requires forall i :: 0 <= i < |senders| ==>
               senders[i].Abs() == if senders[i] == stream then before[i].(open := false) else before[i]
    requires forall i :: 0 <= i < |senders| ==> before[i].id == senders[i]
    ensures Lines(senders) == Closed(before, stream)
  {
    hide Lines;
    forall i | 0 <= i < |senders| ensures Lines(senders)[i] == Closed(before, stream)[i] {
      assert Lines(senders)[i] == senders[i].Abs();
    }
  }

  ghost predicate Apart<T>(a: Observable<T>, b: Observable<T>)
    reads a, b
  {
    a != b && a.Channels() !! b.Channels()
  }
}
