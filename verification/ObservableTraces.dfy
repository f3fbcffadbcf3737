/** Sequences of calls on the observable map as an object, in which channels name
    the observers, are the runs of ObservableRuns, in which positions name them. */
module ObservableTraces {
  import opened Results
  import opened Observables
  import opened ObservableMaps
  import opened ObservableRuns

  /** What the object's methods say a call does to the map; name is the observer
      that a Watch makes, names those of all calls. */
  ghost function Called<K, C, V>(m: ObsMap<K, C, V>, op: Op<K, V>, name: C, names: seq<C>): ObsMap<K, C, V> {
    match op
    case Watch(k) => Observed(m, k, name)
    case Put(k, v) => Inserted(m, k, v)
    case Delete(k) => Removed(m, k)
    case HangUp(j) => if j < |names| then HungUp(m, names[j]) else m
  }

  /** The object's map, empty at first, before and after each call. Each Watch makes
      a new channel, and only channels so made are dropped. */
  ghost predicate Trace<K, C, V>(states: seq<ObsMap<K, C, V>>, ops: seq<Op<K, V>>, names: seq<C>) {
    && |states| == |ops| + 1 && |names| == |ops| && states[0] == map[]
    && (forall i :: 0 <= i < |ops| ==> states[i + 1] == Called(states[i], ops[i], names[i], names))
    && (forall i, j :: 0 <= i < j < |ops| && ops[i].Watch? && ops[j].Watch? ==> names[i] != names[j])
    && (forall i :: 0 <= i < |ops| && ops[i].HangUp? ==> ops[i].observer < i && ops[ops[i].observer].Watch?)
  }

  /** The names among the first n calls that are those of observers, each of one. */
  ghost predicate Naming<K, C, V>(ops: seq<Op<K, V>>, names: seq<C>, n: nat) {
    && n <= |ops| == |names|
    && forall i, j :: 0 <= i < j < |ops| && ops[i].Watch? && ops[j].Watch? ==> names[i] != names[j]
  }

  ghost predicate SameLine<K, C, V, T>(l: Line<nat, T>, l': Line<C, T>, ops: seq<Op<K, V>>, names: seq<C>, n: nat)
    requires Naming(ops, names, n)
  {
    l.id < n && ops[l.id].Watch? && l'.id == names[l.id] && l'.open == l.open && l'.log == l.log
  }

  ghost predicate SameLines<K, C, V, T>(s: seq<Line<nat, T>>, t: seq<Line<C, T>>, ops: seq<Op<K, V>>, names: seq<C>,
                                        n: nat)
    requires Naming(ops, names, n)
  {
    |s| == |t| && forall i :: 0 <= i < |s| ==> SameLine(s[i], t[i], ops, names, n)
  }

  ghost predicate SameObs<K, C, V, T>(o: Obs<nat, T>, p: Obs<C, T>, ops: seq<Op<K, V>>, names: seq<C>, n: nat)
    requires Naming(ops, names, n)
  {
    o.value == p.value && SameLines(o.lines, p.lines, ops, names, n)
  }

  ghost predicate SameMaps<K(!new), C, V>(m: ObsMap<K, nat, V>, p: ObsMap<K, C, V>, ops: seq<Op<K, V>>,
                                          names: seq<C>, n: nat)
    requires Naming(ops, names, n)
  {
    m.Keys == p.Keys && forall k :: k in m ==> SameObs(m[k], p[k], ops, names, n)
  }

  lemma {:induction false} SameOpen<K, C, V, T>(s: seq<Line<nat, T>>, t: seq<Line<C, T>>, ops: seq<Op<K, V>>,
                                                names: seq<C>, n: nat)
    requires Naming(ops, names, n) && SameLines(s, t, ops, names, n)
    ensures SameLines(Open(s), Open(t), ops, names, n)
  {
    hide Naming;
    if s == [] {
    } else {
      var k := |s| - 1;
      SameOpen(s[..k], t[..k], ops, names, n);
      assert SameLine(s[k], t[k], ops, names, n);
    }
  }

  lemma SameReplaced<K, C, V, T>(o: Obs<nat, T>, p: Obs<C, T>, v: T, ops: seq<Op<K, V>>, names: seq<C>, n: nat)
    requires Naming(ops, names, n) && SameObs(o, p, ops, names, n)
    ensures SameObs(o.Purge(), p.Purge(), ops, names, n)
    ensures SameObs(Replaced(o, v), Replaced(p, v), ops, names, n)
  {
    SameOpen(o.lines, p.lines, ops, names, n);
    hide Naming, Open;
    forall i | 0 <= i < |Broadcast(o.lines, v)| && o.value != v
      ensures SameLine(Broadcast(o.lines, v)[i], Broadcast(p.lines, v)[i], ops, names, n)
    {
      assert SameLine(Open(o.lines)[i], Open(p.lines)[i], ops, names, n);
    }
  }

  /** Lines of the first n calls are lines of the first n + 1. */
  lemma SameLater<K(!new), C, V>(m: ObsMap<K, nat, V>, p: ObsMap<K, C, V>, ops: seq<Op<K, V>>, names: seq<C>, n: nat)
    requires n < |ops| && Naming(ops, names, n) && SameMaps(m, p, ops, names, n)
    ensures Naming(ops, names, n + 1) && SameMaps(m, p, ops, names, n + 1)
  {
    forall k | k in m ensures SameObs(m[k], p[k], ops, names, n + 1) {
      assert SameObs(m[k], p[k], ops, names, n);
      forall i | 0 <= i < |m[k].lines| ensures SameLine(m[k].lines[i], p[k].lines[i], ops, names, n + 1) {
        assert SameLine(m[k].lines[i], p[k].lines[i], ops, names, n);
      }
    }
  }

  lemma SameWatch<K(!new), C, V>(m: ObsMap<K, nat, V>, p: ObsMap<K, C, V>, k: K, ops: seq<Op<K, V>>,
                                 names: seq<C>, n: nat)
    requires n < |ops| && ops[n].Watch? && Naming(ops, names, n + 1) && SameMaps(m, p, ops, names, n + 1)
    ensures SameMaps(Observed(m, k, n), Observed(p, k, names[n]), ops, names, n + 1)
  {
    assert n < |names|;
    hide Naming;
    var o := if k in m then m[k] else Obs(None, []);
    var q := if k in p then p[k] else Obs(None, []);
    assert SameObs(o, q, ops, names, n + 1);
    assert SameObs(o.Observe(n), q.Observe(names[n]), ops, names, n + 1);
  }

  lemma SamePut<K(!new), C, V>(m: ObsMap<K, nat, V>, p: ObsMap<K, C, V>, k: K, v: V, ops: seq<Op<K, V>>,
                               names: seq<C>, n: nat)
    requires Naming(ops, names, n) && SameMaps(m, p, ops, names, n)
    ensures SameMaps(Inserted(m, k, v), Inserted(p, k, v), ops, names, n)
  {
    hide Naming, Replaced, SameObs;
    if k in m {
      SameReplaced(m[k], p[k], Some(v), ops, names, n);
    } else {
      SameNew(Some(v), ops, names, n);
    }
  }

  lemma SameNew<K, C, V, T>(v: T, ops: seq<Op<K, V>>, names: seq<C>, n: nat)
    requires Naming(ops, names, n)
    ensures
      var o: Obs<nat, T>, p: Obs<C, T> := Obs(v, []), Obs(v, []);
      SameObs(o, p, ops, names, n)
  {
  }

  lemma SameDelete<K(!new), C, V>(m: ObsMap<K, nat, V>, p: ObsMap<K, C, V>, k: K, ops: seq<Op<K, V>>,
                                  names: seq<C>, n: nat)
    requires Naming(ops, names, n) && SameMaps(m, p, ops, names, n)
    ensures SameMaps(Removed(m, k), Removed(p, k), ops, names, n)
  {
    hide Naming, Replaced, Open;
    if k in m {
      SameReplaced(m[k], p[k], None, ops, names, n);
      SameReplaced(m[k].Purge(), p[k].Purge(), None, ops, names, n);
    }
  }

  /** An observer's own line, and no other, carries its name. */
  lemma SameHangUp<K(!new), C, V>(m: ObsMap<K, nat, V>, p: ObsMap<K, C, V>, j: nat, ops: seq<Op<K, V>>,
                                  names: seq<C>, n: nat)
    requires Naming(ops, names, n) && SameMaps(m, p, ops, names, n) && j < n && ops[j].Watch?
    ensures SameMaps(HungUp(m, j), HungUp(p, names[j]), ops, names, n)
  {
    forall k | k in m ensures SameObs(HungUp(m, j)[k], HungUp(p, names[j])[k], ops, names, n) {
      assert SameObs(m[k], p[k], ops, names, n);
      forall i | 0 <= i < |m[k].lines|
        ensures SameLine(Closed(m[k].lines, j)[i], Closed(p[k].lines, names[j])[i], ops, names, n)
      {
        assert SameLine(m[k].lines[i], p[k].lines[i], ops, names, n);
      }
    }
  }

  /** After each call the object's map is that of the run, up to the names. */
  lemma {:induction false} TraceIsRun<K(!new), C, V>(states: seq<ObsMap<K, C, V>>, ops: seq<Op<K, V>>,
                                                     names: seq<C>, n: nat)
    requires Trace(states, ops, names) && n <= |ops|
    ensures Naming(ops, names, n) && SameMaps(Run(ops[..n]), states[n], ops, names, n)
  {
    if n > 0 {
      TraceIsRun(states, ops, names, n - 1);
      assert ops[..n][..n - 1] == ops[..n - 1];
      var m, p, op := Run(ops[..n - 1]), states[n - 1], ops[n - 1];
      assert states[n - 1 + 1] == Called(p, op, names[n - 1], names);
      SameLater(m, p, ops, names, n - 1);
      assert op.HangUp? ==> op.observer < n && ops[op.observer].Watch?;
      hide SameMaps, Trace, Run, Observed, Inserted, Removed, HungUp;
      assert Run(ops[..n]) == Exec(m, op, n - 1) by {
        LastOfRun(ops[..n]);
      }
      match op
      case Watch(k) => SameWatch(m, p, k, ops, names, n - 1);
      case Put(k, v) => SamePut(m, p, k, v, ops, names, n);
      case Delete(k) => SameDelete(m, p, k, ops, names, n);
      case HangUp(j) => SameHangUp(m, p, j, ops, names, n);
    }
  }

  lemma LastOfRun<K(!new), V>(ops: seq<Op<K, V>>)
    requires ops != []
    ensures Run(ops) == Exec(Run(ops[..|ops| - 1]), ops[|ops| - 1], |ops| - 1)
  {
  }

  /** The channel that the call at w made carries, as long as it is listened to, the
      history of its key since that call without repetitions, and it stays connected
      unless it is dropped. */
  lemma ChannelHistory<K(!new), C, V>(states: seq<ObsMap<K, C, V>>, ops: seq<Op<K, V>>, names: seq<C>, k: K, i: nat)
    returns (w: nat)
    requires Trace(states, ops, names)
    requires k in states[|ops|] && i < |states[|ops|][k].lines| && states[|ops|][k].lines[i].open
    ensures
      var line := states[|ops|][k].lines[i];
      && w < |ops| && ops[w] == Watch(k) && line.id == names[w]
      && line.log == Dedup(History(ops, w, k))
      && line.log != [] && line.log[|line.log| - 1] == Lookup(PlainRun(ops), k)
      && Plain(states[|ops|]) == PlainRun(ops)
  {
    TraceIsRun(states, ops, names, |ops|);
    assert ops[..|ops|] == ops;
    RunIsPlain(ops);
    SamePlain(Run(ops), states[|ops|], ops, names, |ops|);
    hide Trace, Run, History, Dedup;
    assert SameObs(Run(ops)[k], states[|ops|][k], ops, names, |ops|);
    assert SameLine(Run(ops)[k].lines[i], states[|ops|][k].lines[i], ops, names, |ops|);
    StreamHistory(ops, k, i);
    w := Run(ops)[k].lines[i].id;
  }

  lemma SamePlain<K(!new), C, V>(m: ObsMap<K, nat, V>, p: ObsMap<K, C, V>, ops: seq<Op<K, V>>, names: seq<C>, n: nat)
    requires Naming(ops, names, n) && SameMaps(m, p, ops, names, n)
    ensures Plain(m) == Plain(p)
  {
    forall k | k in m ensures m[k].value == p[k].value {
      assert SameObs(m[k], p[k], ops, names, n);
    }
  }

  /** The channel made by the call at w, if it is never dropped. */
  lemma ChannelStays<K(!new), C, V>(states: seq<ObsMap<K, C, V>>, ops: seq<Op<K, V>>, names: seq<C>, k: K, w: nat)
    returns (i: nat)
    requires Trace(states, ops, names)
    requires w < |ops| && ops[w] == Watch(k) && HangUp(w) !in ops[w..]
    ensures k in states[|ops|] && i < |states[|ops|][k].lines|
    ensures states[|ops|][k].lines[i].open && states[|ops|][k].lines[i].id == names[w]
  {
    TraceIsRun(states, ops, names, |ops|);
    assert ops[..|ops|] == ops;
    hide Trace, Run;
    NeverDisconnected(ops, k, w);
    i :| 0 <= i < |Run(ops)[k].lines| && Run(ops)[k].lines[i].open && Run(ops)[k].lines[i].id == w;
    assert SameObs(Run(ops)[k], states[|ops|][k], ops, names, |ops|);
    assert SameLine(Run(ops)[k].lines[i], states[|ops|][k].lines[i], ops, names, |ops|);
  }
}
