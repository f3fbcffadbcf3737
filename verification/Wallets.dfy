/** The confidence cache of the wallet service: an observable map that is synced
    with the wallet's transactions. */
module Wallets {
  import opened Results
  import opened Observables
  import opened ObservableMaps
  import opened ObservableRuns

  type Txid = nat

  const U32: int := 0x1_0000_0000

  type Height = n: int | 0 <= n < U32 - 1

  datatype Position = Confirmed(height: Height) | Unconfirmed

  datatype WalletTx = WalletTx(txid: Txid, position: Position)

  datatype TxConfidence = TxConfidence(tx: WalletTx, confirmations: nat)

  datatype Wallet = Wallet(tip: Height, txs: seq<WalletTx>)

  /** The subtraction is one of unsigned 32-bit numbers. */
  function Confidence(tip: Height, tx: WalletTx): TxConfidence {
    var next := tip + 1;
    var height := if tx.position.Confirmed? then tx.position.height else next;
    TxConfidence(tx, (next - height) % U32)
  }

  function Entries(w: Wallet): seq<(Txid, TxConfidence)> {
    seq(|w.txs|, i requires 0 <= i < |w.txs| => (w.txs[i].txid, Confidence(w.tip, w.txs[i])))
  }

  /** A wallet lists a transaction once. */
  ghost predicate DistinctTxids(w: Wallet) {
    forall i, j :: 0 <= i < j < |w.txs| ==> w.txs[i].txid != w.txs[j].txid
  }

  /** The number of confirmations counts the blocks from the confirming one to the
      tip, so it is positive exactly for confirmed transactions, unless a
      transaction claims to be confirmed in the very next block. */
  lemma ConfirmationCount(tip: Height, tx: WalletTx)
    ensures tx.position.Unconfirmed? ==> Confidence(tip, tx).confirmations == 0
    ensures tx.position.Confirmed? && tx.position.height <= tip + 1 ==>
              tx.position.height + Confidence(tip, tx).confirmations == tip + 1
    ensures (Confidence(tip, tx).confirmations >= 1 <==> tx.position.Confirmed?) <==>
            !(tx.position.Confirmed? && tx.position.height == tip + 1)
  {
    if tx.position.Confirmed? {
      var d := tip + 1 - tx.position.height;
      if d >= 0 {
        assert d % U32 == d;
      } else {
        assert d % U32 == d + U32;
      }
    }
  }

  // The cache always tells each listening observer the current value.

  ghost predicate Current<K(!new), C, V>(m: ObsMap<K, C, V>) {
    forall k, i :: k in m && 0 <= i < |m[k].lines| && m[k].lines[i].open ==> UpToDate(m[k], i)
  }

  ghost predicate UpToDate<C, T>(o: Obs<C, T>, i: nat)
    requires i < |o.lines|
  {
    var log := o.lines[i].log;
    log != [] && log[|log| - 1] == o.value
  }

  lemma ReplacedCurrent<C, V>(o: Obs<C, Option<V>>, v: Option<V>)
    requires forall i :: 0 <= i < |o.lines| && o.lines[i].open ==> UpToDate(o, i)
    ensures forall i :: 0 <= i < |Replaced(o, v).lines| ==> UpToDate(Replaced(o, v), i)
  {
    var r := Replaced(o, v);
    forall i | 0 <= i < |r.lines| ensures UpToDate(r, i) {
      var line := Open(o.lines)[i];
      var j :| 0 <= j < |o.lines| && o.lines[j] == line;
      assert UpToDate(o, j);
    }
  }

  lemma PurgedCurrent<C, V>(o: Obs<C, Option<V>>)
    requires forall i :: 0 <= i < |o.lines| && o.lines[i].open ==> UpToDate(o, i)
    ensures forall i :: 0 <= i < |o.Purge().lines| ==> UpToDate(o.Purge(), i)
  {
    forall i | 0 <= i < |o.Purge().lines| ensures UpToDate(o.Purge(), i) {
      var line := Open(o.lines)[i];
      var j :| 0 <= j < |o.lines| && o.lines[j] == line;
      assert UpToDate(o, j);
    }
  }

  lemma InsertedCurrent<K(!new), C, V>(m: ObsMap<K, C, V>, k: K, v: V)
    requires Current(m)
    ensures Current(Inserted(m, k, v))
  {
    hide Replaced, UpToDate;
    if k in m {
      ReplacedCurrent(m[k], Some(v));
    }
  }

  lemma ObservedCurrent<K(!new), C, V>(m: ObsMap<K, C, V>, k: K, id: C)
    requires Current(m)
    ensures Current(Observed(m, k, id))
  {
    var r := Observed(m, k, id);
    forall l, i | l in r && 0 <= i < |r[l].lines| && r[l].lines[i].open ensures UpToDate(r[l], i) {
      if l in m && i < |m[l].lines| {
        assert r[l].lines[i] == m[l].lines[i];
        assert UpToDate(m[l], i);
      }
    }
  }

  lemma {:induction false} InsertedAllCurrent<K(!new), C, V>(m: ObsMap<K, C, V>, entries: seq<(K, V)>)
    requires Current(m)
    ensures Current(InsertedAll(m, entries))
  {
    hide Inserted, Current;
    if entries == [] {
    } else {
      var n := |entries| - 1;
      InsertedAllCurrent(m, entries[..n]);
      InsertedCurrent(InsertedAll(m, entries[..n]), entries[n].0, entries[n].1);
    }
  }

  lemma SyncedCurrent<K(!new), C, V>(m: ObsMap<K, C, V>, entries: seq<(K, V)>)
    requires Current(m)
    ensures Current(Synced(m, entries))
  {
    hide UpToDate, Replaced, Open, InsertedAll;
    InsertedAllCurrent(m, entries);
    var m1, r := InsertedAll(m, entries), Synced(m, entries);
    forall k, i | k in r && 0 <= i < |r[k].lines| && r[k].lines[i].open ensures UpToDate(r[k], i) {
      if r[k] != m1[k] {
        PurgedCurrent(m1[k]);
        ReplacedCurrent(m1[k].Purge(), None);
      }
    }
  }

  /** What each stream of a synced cache last said is the wallet's entry. */
  lemma SyncedSaysEntry<K(!new), C, V>(m: ObsMap<K, C, V>, entries: seq<(K, V)>, k: K, i: nat)
    requires Current(m)
    requires k in Synced(m, entries) && i < |Synced(m, entries)[k].lines| && Synced(m, entries)[k].lines[i].open
    ensures
      var log := Synced(m, entries)[k].lines[i].log;
      log != [] && log[|log| - 1] == Lookup(LastWins(entries), k)
  {
    hide Synced, LastWins, Plain, Open;
    SyncedCurrent(m, entries);
    SyncIsAssignment(m, entries);
    PlainLookup(Synced(m, entries), k);
    assert UpToDate(Synced(m, entries)[k], i);
  }

  /** A wallet's entries as a map, when it lists each transaction once. */
  lemma EntriesOfWallet(w: Wallet, i: nat)
    requires DistinctTxids(w) && i < |w.txs|
    ensures DistinctKeys(Entries(w))
    ensures Lookup(LastWins(Entries(w)), w.txs[i].txid) == Some(Confidence(w.tip, w.txs[i]))
  {
    LastWinsAt(Entries(w), i);
  }

  lemma {:induction false} LastWinsAt<K(!new), V>(entries: seq<(K, V)>, i: nat)
    requires DistinctKeys(entries) && i < |entries|
    ensures Lookup(LastWins(entries), entries[i].0) == Some(entries[i].1)
  {
    var n := |entries| - 1;
    if i < n {
      LastWinsAt(entries[..n], i);
    }
  }

  class WalletService {
    var wallet: Wallet
    const cache: ObservableHashMap<Txid, TxConfidence>

    ghost predicate Valid()
      reads this, cache, cache.entries.Values, cache.Channels()
    {
      cache.Valid() && Current(cache.Abs())
    }

    /** The plain map is the wallet's list of transactions with their confirmations. */
    ghost predicate InSync()
      reads this, cache, cache.entries.Values, cache.Channels()
    {
      && Plain(cache.Abs()) == LastWins(Entries(wallet))
      && forall txid, i ::
           txid in cache.Abs() && 0 <= i < |cache.Abs()[txid].lines| && cache.Abs()[txid].lines[i].open ==>
           Says(cache.Abs()[txid].lines[i].log, Lookup(LastWins(Entries(wallet)), txid))
    }

    constructor (wallet: Wallet)
      ensures Valid() && InSync() && this.wallet == wallet
    {
      this.wallet := wallet;
      cache := new ObservableHashMap();
      new;
      SyncTxConfidenceMap();
    }

    /** Blocks and mempool transactions arrive; the cache is not told yet. */
    method UpdateWallet(wallet: Wallet)
      requires Valid()
      modifies this`wallet
      ensures Valid() && this.wallet == wallet && cache.Abs() == old(cache.Abs())
    {
      hide Current, Plain, InSync, ObservableHashMap.Valid, ObservableHashMap.Abs, ObservableHashMap.Channels;
      ghost var before := cache.Abs();
      ghost var channels := cache.Channels(); // of another type than this object
      assert cache.Valid() && Current(before);
      this.wallet := wallet;
      assert cache.Valid() && cache.Abs() == before;
    }

    method SyncTxConfidenceMap()
      requires Valid()
      modifies cache, cache.entries.Values, cache.Channels()
      ensures Valid() && InSync() && wallet == old(wallet)
      ensures cache.Abs() == Synced(old(cache.Abs()), Entries(wallet))
    {
      hide Current, Plain, LastWins, Synced, Lookup;
      ghost var before := cache.Abs();
      cache.Sync(Entries(wallet));
      SyncedCurrent(before, Entries(wallet));
      SyncIsAssignment(before, Entries(wallet));
      forall txid, i | txid in cache.Abs() && 0 <= i < |cache.Abs()[txid].lines| && cache.Abs()[txid].lines[i].open
        ensures Says(cache.Abs()[txid].lines[i].log, Lookup(LastWins(Entries(wallet)), txid))
      {
        SyncedSaysEntry(before, Entries(wallet), txid, i);
      }
    }

    /** One round of polling: the wallet takes in new blocks and then the mempool,
        and once it has, the cache follows, sending each observer at most one item. */
    method Poll(updates: seq<Wallet>)
      requires Valid() && updates != []
      modifies this`wallet, cache, cache.entries.Values, cache.Channels()
      ensures Valid() && InSync() && wallet == updates[|updates| - 1]
      ensures cache.Abs() == Synced(old(cache.Abs()), Entries(wallet))
    {
      hide Current, Plain, InSync, Synced, ObservableHashMap.Valid, ObservableHashMap.Abs, ObservableHashMap.Channels;
      for i := 0 to |updates|
        modifies this`wallet
        invariant Valid() && cache.Abs() == old(cache.Abs())
        invariant i > 0 ==> wallet == updates[i - 1]
      {
        UpdateWallet(updates[i]);
      }
      SyncTxConfidenceMap();
    }

    method GetTxConfidenceStream(txid: Txid) returns (stream: Channel<Option<TxConfidence>>)
      requires Valid()
      modifies cache, cache.entries.Values
      ensures Valid() && fresh(stream) && wallet == old(wallet)
      ensures cache.Abs() == Observed(old(cache.Abs()), txid, stream)
    {
      hide Current, Plain, Observed;
      ghost var before := cache.Abs();
      stream := cache.Observe(txid);
      ObservedCurrent(before, txid, stream);
    }
  }

  ghost predicate Says<T>(log: seq<T>, v: T) {
    log != [] && log[|log| - 1] == v
  }
}
