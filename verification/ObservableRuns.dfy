/** What the observable map means: it is a plain map, syncing makes that map the
    given list whatever the order, and over every run each stream carries the
    history of its key with repetitions left out. */
module ObservableRuns {
  import opened Results
  import opened Observables
  import opened ObservableMaps

  // ---------------------------------------------------------- the plain map

  /** Every operation of the observable map is the same operation of the plain map. */
  lemma PlainOperations<K(!new), C, V>(m: ObsMap<K, C, V>, k: K, v: V, id: C)
    ensures Plain(Inserted(m, k, v)) == Plain(m)[k := v]
    ensures Plain(Removed(m, k)) == Plain(m) - {k}
    ensures Plain(Observed(m, k, id)) == Plain(m)
  {
    hide Open, Broadcast, Plain;
    PlainWith(m, k, if k in m then Replaced(m[k], Some(v)) else Obs(Some(v), []));
    PlainWith(m, k, (if k in m then m[k] else Obs(None, [])).Observe(id));
    PlainLookup(m, k);
    if k in m {
      PlainWith(m, k, Replaced(m[k].Purge(), None));
      PlainWithout(m, k);
    }
  }

  lemma PlainWith<K(!new), C, V>(m: ObsMap<K, C, V>, k: K, o: Obs<C, Option<V>>)
    ensures Plain(m[k := o]) == if o.value.Some? then Plain(m)[k := o.value.value] else Plain(m) - {k}
  {
  }

  lemma PlainWithout<K(!new), C, V>(m: ObsMap<K, C, V>, k: K)
    ensures Plain(m - {k}) == Plain(m) - {k}
  {
  }

  lemma PlainLookup<K(!new), C, V>(m: ObsMap<K, C, V>, k: K)
    ensures Lookup(Plain(m), k) == if k in m then m[k].value else None
    ensures Lookup(Plain(m), k).Some? ==> Plain(m)[k := Lookup(Plain(m), k).value] == Plain(m)
    ensures Lookup(Plain(m), k).None? ==> Plain(m) - {k} == Plain(m)
  {
  }

  function LastWins<K, V>(entries: seq<(K, V)>): map<K, V> {
    if entries == [] then map[]
    else
      var last := entries[|entries| - 1];
      LastWins(entries[..|entries| - 1])[last.0 := last.1]
  }

  lemma {:induction false} InsertedAllIs<K(!new), C, V>(m: ObsMap<K, C, V>, entries: seq<(K, V)>)
    ensures LastWins(entries).Keys == KeysOf(entries)
    ensures Plain(InsertedAll(m, entries)) == Plain(m) + LastWins(entries)
    ensures InsertedAll(m, entries).Keys == m.Keys + KeysOf(entries)
    ensures forall k :: k in m && k !in KeysOf(entries) ==> InsertedAll(m, entries)[k] == m[k]
  {
    hide Inserted, KeysOf, Plain;
    if entries == [] {
      NoKeys<K, V>();
      PlusNothing(Plain(m));
    } else {
      var init, last := entries[..|entries| - 1], entries[|entries| - 1];
      InsertedAllIs(m, init);
      KeysOfStep(entries, |entries| - 1);
      assert entries[..|entries| - 1 + 1] == entries;
      InsertedIs(InsertedAll(m, init), last.0, last.1);
      PlusOne(Plain(m), LastWins(init), last.0, last.1);
    }
  }

  lemma NoKeys<K(!new), V>()
    ensures KeysOf<K, V>([]) == {}
  {
  }

  lemma PlusNothing<K(!new), V>(p: map<K, V>)
    ensures p + map[] == p
  {
  }

  lemma PlusOne<K(!new), V>(p: map<K, V>, q: map<K, V>, k: K, v: V)
    ensures (p + q)[k := v] == p + q[k := v]
  {
  }

  lemma InsertedIs<K(!new), C, V>(m: ObsMap<K, C, V>, k: K, v: V)
    ensures Plain(Inserted(m, k, v)) == Plain(m)[k := v]
    ensures Inserted(m, k, v).Keys == m.Keys + {k}
    ensures forall l :: l in m && l != k ==> Inserted(m, k, v)[l] == m[l]
  {
    hide Open, Broadcast;
    PlainWith(m, k, if k in m then Replaced(m[k], Some(v)) else Obs(Some(v), []));
  }

  /** After a sync the plain map is the list, a later entry overriding an earlier
      one; the keys kept inside are the listed ones and the absent ones that
      somebody still observes. */
  lemma SyncIsAssignment<K(!new), C, V>(m: ObsMap<K, C, V>, entries: seq<(K, V)>)
    ensures Plain(Synced(m, entries)) == LastWins(entries)
    ensures forall k :: k in Synced(m, entries) <==> k in KeysOf(entries) || (k in m && Open(m[k].lines) != [])
  {
    hide Open, Broadcast, InsertedAll, KeysOf, LastWins;
    InsertedAllIs(m, entries);
    var m1, r := InsertedAll(m, entries), Synced(m, entries);
    forall k ensures Lookup(Plain(r), k) == Lookup(LastWins(entries), k) {
      assert Lookup(Plain(m1), k) == Lookup(Plain(m) + LastWins(entries), k);
    }
    SameMap(Plain(r), LastWins(entries));
  }

  lemma SameMap<K(!new), V>(p: map<K, V>, q: map<K, V>)
    requires forall k :: Lookup(p, k) == Lookup(q, k)
    ensures p == q
  {
    forall k ensures k in p <==> k in q {
      assert Lookup(p, k) == Lookup(q, k);
    }
    forall k | k in p ensures p[k] == q[k] {
      assert Lookup(p, k) == Lookup(q, k);
    }
  }

  // ---------------------------------------------------------- syncing

  ghost predicate DistinctKeys<K, V>(entries: seq<(K, V)>) {
    forall i, j :: 0 <= i < j < |entries| ==> entries[i].0 != entries[j].0
  }

  /** What a listed key becomes. */
  ghost function Listed<K, C, V>(m: ObsMap<K, C, V>, k: K, v: V): Obs<C, Option<V>> {
    if k in m then Replaced(m[k], Some(v)) else Obs(Some(v), [])
  }

  lemma {:induction false} InsertedAllAt<K(!new), C, V>(m: ObsMap<K, C, V>, entries: seq<(K, V)>, k: K)
    requires DistinctKeys(entries) && k in KeysOf(entries)
    ensures k in LastWins(entries) && k in InsertedAll(m, entries)
    ensures InsertedAll(m, entries)[k] == Listed(m, k, LastWins(entries)[k])
  {
    hide KeysOf, Plain, Replaced;
    var n := |entries| - 1;
    if n < 0 {
      NoKeys<K, V>();
    } else {
      var init := entries[..n];
      KeysOfStep(entries, n);
      assert entries[..n + 1] == entries;
      InsertedAllIs(m, init);
      if k == entries[n].0 {
        DistinctLast(entries);
      } else {
        InsertedAllAt(m, init, k);
      }
    }
  }

  lemma DistinctLast<K(!new), V>(entries: seq<(K, V)>)
    requires DistinctKeys(entries) && entries != []
    ensures entries[|entries| - 1].0 !in KeysOf(entries[..|entries| - 1])
  {
  }

  /** Each key of a synced map, given a list without repeated keys. */
  lemma SyncedAt<K(!new), C, V>(m: ObsMap<K, C, V>, entries: seq<(K, V)>, k: K)
    requires DistinctKeys(entries)
    ensures k in KeysOf(entries) ==> k in LastWins(entries) && k in Synced(m, entries) &&
                                     Synced(m, entries)[k] == Listed(m, k, LastWins(entries)[k])
    ensures k !in KeysOf(entries) && k in m && Open(m[k].lines) != [] ==>
              k in Synced(m, entries) && Synced(m, entries)[k] == Replaced(m[k].Purge(), None)
  {
    hide Open, InsertedAll, KeysOf, LastWins, Replaced, Plain, Listed;
    InsertedAllIs(m, entries);
    if k in KeysOf(entries) {
      InsertedAllAt(m, entries, k);
    }
  }

  lemma KeptKey<K(!new), C, V>(m: ObsMap<K, C, V>, entries: seq<(K, V)>, k: K)
    ensures k in Synced(m, entries) <==> k in KeysOf(entries) || (k in m && Open(m[k].lines) != [])
  {
    SyncIsAssignment(m, entries);
  }

  /** The order of the list is irrelevant, to the streams as well. */
  lemma SyncIgnoresOrder<K(!new), C, V>(m: ObsMap<K, C, V>, entries: seq<(K, V)>, entries': seq<(K, V)>)
    requires DistinctKeys(entries) && DistinctKeys(entries')
    requires LastWins(entries) == LastWins(entries')
    ensures Synced(m, entries) == Synced(m, entries')
  {
    hide Open, Synced, KeysOf, LastWins, Replaced, Listed, DistinctKeys, Plain;
    InsertedAllIs(m, entries);
    InsertedAllIs(m, entries');
    var r, r' := Synced(m, entries), Synced(m, entries');
    assert KeysOf(entries) == KeysOf(entries');
    forall k ensures k in r <==> k in r' {
      KeptKey(m, entries, k);
      KeptKey(m, entries', k);
    }
    forall k | k in r ensures r[k] == r'[k] {
      SyncedAt(m, entries, k);
      SyncedAt(m, entries', k);
      KeptKey(m, entries, k);
    }
  }

  ghost function Changed<V>(before: Option<V>, after: Option<V>): seq<Option<V>> {
    if before == after then [] else [after]
  }

  lemma ReplacedLines<C, V>(o: Obs<C, Option<V>>, v: Option<V>, i: nat)
    requires i < |o.lines| && o.lines[i].open
    ensures o.lines[i].(log := o.lines[i].log + Changed(o.value, v)) in Replaced(o, v).lines
  {
    assert o.lines[i].log + [] == o.lines[i].log;
    var open := Open(o.lines);
    assert o.lines[i] in open;
    var j :| 0 <= j < |open| && open[j] == o.lines[i];
    assert o.value != v ==> Replaced(o, v).lines[j] == o.lines[i].(log := o.lines[i].log + [v]);
  }

  lemma ReplacedPurged<C, V>(o: Obs<C, Option<V>>, v: Option<V>, i: nat)
    requires i < |o.lines| && o.lines[i].open
    ensures Open(o.lines) != []
    ensures o.lines[i].(log := o.lines[i].log + Changed(o.value, v)) in Replaced(o.Purge(), v).lines
  {
    var j :| 0 <= j < |o.Purge().lines| && o.Purge().lines[j] == o.lines[i];
    ReplacedLines(o.Purge(), v, j);
  }

  /** A sync sends each listening observer one item, the new value of its key,
      exactly when that value changed, and disconnects none. */
  lemma SyncStreams<K(!new), C, V>(m: ObsMap<K, C, V>, entries: seq<(K, V)>, k: K, i: nat)
    requires DistinctKeys(entries)
    requires k in m && i < |m[k].lines| && m[k].lines[i].open
    ensures k in Synced(m, entries)
    ensures
      var line := m[k].lines[i];
      var news := Changed(Lookup(Plain(m), k), Lookup(LastWins(entries), k));
      line.(log := line.log + news) in Synced(m, entries)[k].lines
  {
    hide Open, Synced, KeysOf, LastWins, Replaced, DistinctKeys, Plain, Changed;
    InsertedAllIs(m, entries);
    SyncedAt(m, entries, k);
    PlainLookup(m, k);
    if k in KeysOf(entries) {
      ReplacedLines(m[k], Some(LastWins(entries)[k]), i);
    } else {
      ReplacedPurged(m[k], None, i);
    }
  }

  // ---------------------------------------------------------- whole runs

  /** An observer is named by the position of its Watch in the run. */
  datatype Op<K, V> = Watch(key: K) | Put(key: K, value: V) | Delete(key: K) | HangUp(observer: nat)

  function Exec<K, V(==)>(m: ObsMap<K, nat, V>, op: Op<K, V>, now: nat): ObsMap<K, nat, V> {
    match op
    case Watch(k) => Observed(m, k, now)
    case Put(k, v) => Inserted(m, k, v)
    case Delete(k) => Removed(m, k)
    case HangUp(id) => HungUp(m, id)
  }

  function Run<K, V(==)>(ops: seq<Op<K, V>>): ObsMap<K, nat, V> {
    if ops == [] then map[] else Exec(Run(ops[..|ops| - 1]), ops[|ops| - 1], |ops| - 1)
  }

  /** The plain map after the same operations. */
  function PlainRun<K(==), V>(ops: seq<Op<K, V>>): map<K, V> {
    if ops == [] then map[]
    else
      var p := PlainRun(ops[..|ops| - 1]);
      match ops[|ops| - 1]
      case Put(k, v) => p[k := v]
      case Delete(k) => p - {k}
      case _ => p
  }

  /** The value of a key after each of the operations from the given one on. */
  function History<K(==), V>(ops: seq<Op<K, V>>, from: nat, k: K): (r: seq<Option<V>>)
    ensures |r| == if from < |ops| then |ops| - from else 0
  {
    if |ops| <= from then []
    else History(ops[..|ops| - 1], from, k) + [Lookup(PlainRun(ops), k)]
  }

  /** Leaves out every item equal to the one before it. */
  function Dedup<T(==)>(s: seq<T>): (r: seq<T>)
    ensures s != [] ==> r != [] && r[|r| - 1] == s[|s| - 1]
    ensures forall i :: 0 < i < |r| ==> r[i - 1] != r[i]
  {
    if |s| <= 1 then s
    else
      var n := |s| - 1;
      Dedup(s[..n]) + if s[n - 1] == s[n] then [] else [s[n]]
  }

  lemma {:induction false} RunIsPlain<K(!new), V>(ops: seq<Op<K, V>>)
    ensures Plain(Run(ops)) == PlainRun(ops)
  {
    if ops == [] {
    } else {
      var n: nat := |ops| - 1;
      RunIsPlain(ops[..n]);
      ExecIsPlain(Run(ops[..n]), ops[n], n);
    }
  }

  lemma ExecIsPlain<K(!new), V>(m: ObsMap<K, nat, V>, op: Op<K, V>, now: nat)
    ensures Plain(Exec(m, op, now)) ==
            match op
            case Put(k, v) => Plain(m)[k := v]
            case Delete(k) => Plain(m) - {k}
            case _ => Plain(m)
  {
    hide Inserted, Removed, Observed, Closed;
    match op
    case Watch(k) => WatchIsPlain(m, k, now);
    case Put(k, v) => PlainOperations(m, k, v, now);
    case Delete(k) => DeleteIsPlain(m, k);
    case HangUp(id) =>
  }

  lemma WatchIsPlain<K(!new), V>(m: ObsMap<K, nat, V>, k: K, now: nat)
    ensures Plain(Observed(m, k, now)) == Plain(m)
  {
    hide Plain;
    PlainWith(m, k, (if k in m then m[k] else Obs(None, [])).Observe(now));
    PlainLookup(m, k);
  }

  lemma DeleteIsPlain<K(!new), V>(m: ObsMap<K, nat, V>, k: K)
    ensures Plain(Removed(m, k)) == Plain(m) - {k}
  {
    hide Plain, Open, Broadcast;
    PlainLookup(m, k);
    if k in m {
      PlainWith(m, k, Replaced(m[k].Purge(), None));
      PlainWithout(m, k);
    }
  }

  // ---------------------------------------------------------- syncs within runs

  /** A sync is a run of insertions, one for each entry in order, and of removals,
      one for each key the list leaves out: what holds of all runs of the single
      operations holds of runs with syncs in them. */
  lemma SyncIsRun<K(!new), V>(ops: seq<Op<K, V>>, entries: seq<(K, V)>)
    returns (puts: seq<Op<K, V>>, deletes: seq<Op<K, V>>)
    ensures Run(ops + puts + deletes) == Synced(Run(ops), entries)
    ensures |puts| == |entries| && forall i :: 0 <= i < |puts| ==> puts[i] == Put(entries[i].0, entries[i].1)
    ensures |deletes| == |Run(ops).Keys - KeysOf(entries)|
    ensures forall i :: 0 <= i < |deletes| ==> deletes[i].Delete? && deletes[i].key in Run(ops).Keys - KeysOf(entries)
  {
    hide Run, InsertedAll, RemovedAll, KeysOf;
    puts := PutsAre(ops, entries);
    deletes := DeletesAre(ops + puts, Run(ops).Keys - KeysOf(entries));
  }

  lemma RunOneMore<K(!new), V>(ops: seq<Op<K, V>>, op: Op<K, V>)
    ensures Run(ops + [op]) == Exec(Run(ops), op, |ops|)
  {
    assert (ops + [op])[..|ops|] == ops;
  }

  lemma {:induction false} PutsAre<K(!new), V>(ops: seq<Op<K, V>>, entries: seq<(K, V)>) returns (puts: seq<Op<K, V>>)
    ensures Run(ops + puts) == InsertedAll(Run(ops), entries)
    ensures |puts| == |entries| && forall i :: 0 <= i < |puts| ==> puts[i] == Put(entries[i].0, entries[i].1)
  {
    hide Run, Inserted;
    if entries == [] {
      puts := [];
      assert ops + puts == ops;
    } else {
      var n := |entries| - 1;
      var before := PutsAre(ops, entries[..n]);
      var last: Op<K, V> := Put(entries[n].0, entries[n].1);
      puts := before + [last];
      assert ops + puts == (ops + before) + [last];
      RunOneMore(ops + before, last);
    }
  }

  lemma {:induction false} DeletesAre<K(!new), V>(ops: seq<Op<K, V>>, keys: set<K>) returns (deletes: seq<Op<K, V>>)
    ensures Run(ops + deletes) == RemovedAll(Run(ops), keys)
    ensures |deletes| == |keys| && forall i :: 0 <= i < |deletes| ==> deletes[i].Delete? && deletes[i].key in keys
    decreases |keys|
  {
    hide Run, Removed, RemovedAll;
    if keys == {} {
      deletes := [];
      assert ops + deletes == ops;
      NothingRemoved(Run(ops));
    } else {
      var k :| k in keys;
      var before := DeletesAre(ops, keys - {k});
      var last: Op<K, V> := Delete(k);
      deletes := before + [last];
      assert ops + deletes == (ops + before) + [last];
      RunOneMore(ops + before, last);
      RemovedStep(Run(ops), keys - {k}, k);
      assert keys - {k} + {k} == keys;
    }
  }

  // ---------------------------------------------------------- what the streams carry

  /** A listening observer is at its key, and was sent the history of the key. */
  ghost predicate Tracks<K, V>(ops: seq<Op<K, V>>, k: K, line: Line<nat, Option<V>>) {
    && line.id < |ops| && ops[line.id] == Watch(k)
    && line.log == Dedup(History(ops, line.id, k))
  }

  ghost predicate AllTrack<K(!new), V>(m: ObsMap<K, nat, V>, ops: seq<Op<K, V>>) {
    forall k, i :: k in m && 0 <= i < |m[k].lines| && m[k].lines[i].open ==> Tracks(ops, k, m[k].lines[i])
  }

  /** How a log has to grow when one more operation is done. */
  lemma TrackStep<K(!new), V>(ops: seq<Op<K, V>>, op: Op<K, V>, k: K, line: Line<nat, Option<V>>)
    requires Tracks(ops, k, line)
    ensures
      var before, after := Lookup(PlainRun(ops), k), Lookup(PlainRun(ops + [op]), k);
      Tracks(ops + [op], k, line.(log := line.log + Changed(before, after)))
  {
    var ops' := ops + [op];
    assert ops'[..|ops|] == ops;
    var h := History(ops, line.id, k);
    assert History(ops', line.id, k) == h + [Lookup(PlainRun(ops'), k)];
    LastOfHistory(ops, line.id, k);
    assert (h + [Lookup(PlainRun(ops'), k)])[..|h|] == h;
  }

  lemma LastOfHistory<K(!new), V>(ops: seq<Op<K, V>>, from: nat, k: K)
    requires from < |ops|
    ensures var h := History(ops, from, k); h != [] && h[|h| - 1] == Lookup(PlainRun(ops), k)
  {
  }

  lemma ReplacedLineFrom<C, V>(o: Obs<C, Option<V>>, v: Option<V>, i: nat) returns (j: nat)
    requires i < |Replaced(o, v).lines| && Replaced(o, v).lines[i].open
    ensures j < |o.lines| && o.lines[j].open
    ensures Replaced(o, v).lines[i] == o.lines[j].(log := o.lines[j].log + Changed(o.value, v))
  {
    var line := Open(o.lines)[i];
    j :| 0 <= j < |o.lines| && o.lines[j] == line;
    assert line.log + [] == line.log;
  }

  /** Where a listening line comes from: an operation extends each listening line
      of a key by the change of the key's value, and only Watch adds one. */
  lemma ExecLines<K(!new), V>(m: ObsMap<K, nat, V>, op: Op<K, V>, now: nat, k: K, i: nat) returns (j: Option<nat>)
    requires k in Exec(m, op, now) && i < |Exec(m, op, now)[k].lines| && Exec(m, op, now)[k].lines[i].open
    ensures
      var m' := Exec(m, op, now);
      var line := m'[k].lines[i];
      match j
      case None => op == Watch(k) && line == Line(now, true, [Lookup(Plain(m), k)])
      case Some(j) =>
        && k in m && j < |m[k].lines| && m[k].lines[j].open
        && line == m[k].lines[j].(log := m[k].lines[j].log + Changed(Lookup(Plain(m), k), Lookup(Plain(m'), k)))
  {
    hide Open, Broadcast, Plain, Replaced;
    var m' := Exec(m, op, now);
    PlainLookup(m, k);
    PlainLookup(m', k);
    var line := m'[k].lines[i];
    assert line.log + [] == line.log;
    match op {
      case Watch(key) =>
        j := if key == k && i == |m'[k].lines| - 1 then None else Some(i);
        assert j.Some? ==> line == m[k].lines[i] && m'[k].value == m[k].value;
      case Put(key, v) =>
        if key == k {
          var r := ReplacedLineFrom(m[key], Some(v), i);
          j := Some(r);
          assert line == m[k].lines[j.value].(log := m[k].lines[j.value].log + Changed(m[k].value, m'[k].value));
        } else {
          j := Some(i);
          assert m'[k] == m[k];
        }
      case Delete(key) =>
        if key == k {
          var r := ReplacedLineFrom(m[key].Purge(), None, i);
          assert m[key].Purge().lines[r] in m[key].lines;
          var r' :| 0 <= r' < |m[key].lines| && m[key].lines[r'] == m[key].Purge().lines[r];
          j := Some(r');
          assert line == m[k].lines[j.value].(log := m[k].lines[j.value].log + Changed(m[k].value, m'[k].value));
        } else {
          j := Some(i);
          assert m'[k] == m[k];
        }
      case HangUp(id) =>
        j := Some(i);
        assert line == m[k].lines[i] && m'[k].value == m[k].value;
    }
  }

  lemma {:induction false} RunTracks<K(!new), V>(ops: seq<Op<K, V>>)
    ensures AllTrack(Run(ops), ops)
  {
    if ops == [] {
    } else {
      var n: nat := |ops| - 1;
      var init, op := ops[..n], ops[n];
      assert init + [op] == ops;
      var m, m' := Run(init), Run(ops);
      RunTracks(init);
      RunIsPlain(init);
      RunIsPlain(ops);
      forall k, i | k in m' && 0 <= i < |m'[k].lines| && m'[k].lines[i].open
        ensures Tracks(ops, k, m'[k].lines[i])
      {
        hide Tracks, Exec, Run, Plain, PlainRun;
        var j := Origin(ops, k, i);
        if j.Some? {
          assert Tracks(init, k, m[k].lines[j.value]);
          TrackStep(init, op, k, m[k].lines[j.value]);
        } else {
          FirstTrack(ops, k);
        }
      }
    }
  }

  lemma Origin<K(!new), V>(ops: seq<Op<K, V>>, k: K, i: nat) returns (j: Option<nat>)
    requires ops != []
    requires k in Run(ops) && i < |Run(ops)[k].lines| && Run(ops)[k].lines[i].open
    ensures
      var n: nat := |ops| - 1;
      var m, line := Run(ops[..n]), Run(ops)[k].lines[i];
      match j
      case None => ops[n] == Watch(k) && line == Line(n, true, [Lookup(PlainRun(ops[..n]), k)])
      case Some(j) =>
        && k in m && j < |m[k].lines| && m[k].lines[j].open
        && var before, after := Lookup(PlainRun(ops[..n]), k), Lookup(PlainRun(ops), k);
        line == m[k].lines[j].(log := m[k].lines[j].log + Changed(before, after))
  {
    hide Exec, Plain, PlainRun;
    var n: nat := |ops| - 1;
    RunIsPlain(ops[..n]);
    RunIsPlain(ops);
    j := ExecLines(Run(ops[..n]), ops[n], n, k, i);
  }

  lemma FirstTrack<K(!new), V>(ops: seq<Op<K, V>>, k: K)
    requires ops != [] && ops[|ops| - 1] == Watch(k)
    ensures Tracks(ops, k, Line(|ops| - 1, true, [Lookup(PlainRun(ops[..|ops| - 1]), k)]))
  {
    var n: nat := |ops| - 1;
    assert History(ops[..n], n, k) == [];
    assert History(ops, n, k) == [Lookup(PlainRun(ops), k)];
  }

  /** Over every run of watching, putting, deleting and hanging up, each stream
      that is still listened to was sent exactly the history of its key since it
      was opened, without repetitions, through removal and reinsertion of the key,
      and its last item is the key's value. */
  lemma StreamHistory<K(!new), V>(ops: seq<Op<K, V>>, k: K, i: nat)
    requires k in Run(ops) && i < |Run(ops)[k].lines| && Run(ops)[k].lines[i].open
    ensures
      var line := Run(ops)[k].lines[i];
      && line.id < |ops| && ops[line.id] == Watch(k)
      && line.log == Dedup(History(ops, line.id, k))
      && line.log != [] && line.log[|line.log| - 1] == Lookup(PlainRun(ops), k)
  {
    RunTracks(ops);
    var line := Run(ops)[k].lines[i];
    assert Tracks(ops, k, line);
    LastOfHistory(ops, line.id, k);
  }

  ghost predicate Listening<K, V>(m: ObsMap<K, nat, V>, k: K, id: nat) {
    k in m && exists i :: 0 <= i < |m[k].lines| && m[k].lines[i].open && m[k].lines[i].id == id
  }

  /** One operation disconnects nobody who did not hang up. */
  lemma ExecKeepsListening<K(!new), V>(m: ObsMap<K, nat, V>, op: Op<K, V>, now: nat, k: K, id: nat)
    requires Listening(m, k, id) && op != HangUp(id)
    ensures Listening(Exec(m, op, now), k, id)
  {
    hide Open, Broadcast, Replaced;
    var i :| 0 <= i < |m[k].lines| && m[k].lines[i].open && m[k].lines[i].id == id;
    var m' := Exec(m, op, now);
    match op
    case Watch(key) => assert m'[k].lines[i] == m[k].lines[i];
    case Put(key, v) =>
      if key == k {
        ReplacedLines(m[k], Some(v), i);
      } else {
        assert m'[k].lines[i] == m[k].lines[i];
      }
    case Delete(key) =>
      if key == k {
        ReplacedPurged(m[k], None, i);
      } else {
        assert m'[k].lines[i] == m[k].lines[i];
      }
    case HangUp(other) => assert m'[k].lines[i] == m[k].lines[i];
  }

  /** An observer that never hangs up is never disconnected. */
  lemma {:induction false} NeverDisconnected<K(!new), V>(ops: seq<Op<K, V>>, k: K, id: nat)
    requires id < |ops| && ops[id] == Watch(k) && HangUp(id) !in ops[id..]
    ensures Listening(Run(ops), k, id)
  {
    var n: nat := |ops| - 1;
    var m := Run(ops[..n]);
    if n == id {
      var o := (if k in m then m[k] else Obs(None, [])).Observe(n);
      assert Run(ops)[k] == o && o.lines[|o.lines| - 1] == Line(n, true, [o.value]);
    } else {
      assert ops[id..] == ops[..n][id..] + [ops[n]];
      assert ops[id..][n - id] == ops[n];
      NeverDisconnected(ops[..n], k, id);
      ExecKeepsListening(m, ops[n], n, k, id);
    }
  }
}
