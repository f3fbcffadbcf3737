/** Transactions, their identifiers and signature messages, and the lookups in
    them that the protocol makes. */
module Transactions {
  import opened Results
  import opened Scalars
  import opened Musig

  type U32 = n: int | 0 <= n < 0x1_0000_0000

  /** An amount in satoshis. */
  type Amount = n: int | 0 <= n < 0x1_0000_0000_0000_0000

  /** A taproot output names its output key by the x coordinate, held here as the even point. */
  datatype Script = P2tr(key: Point) | OtherScript(id: nat)

  datatype OutPoint = OutPoint(txid: nat, vout: U32)

  datatype Witness = Unsigned | KeySpend(sig: LiftedSig) | WalletWitness(id: nat)

  datatype TxIn = TxIn(prev: OutPoint, sequence: U32, wit: Witness)

  datatype TxOut = TxOut(value: Amount, script: Script)

  datatype Tx = Tx(inputs: seq<TxIn>, outputs: seq<TxOut>)

  const SEQUENCE_MAX: U32 := 0xFFFF_FFFF

  function Bare(i: TxIn): TxIn {
    i.(wit := Unsigned)
  }

  /** A transaction without its witnesses. */
  function Strip(tx: Tx): (r: Tx)
    ensures |r.inputs| == |tx.inputs| && r.outputs == tx.outputs
    ensures forall i :: 0 <= i < |tx.inputs| ==> r.inputs[i] == Bare(tx.inputs[i])
  {
    Tx(seq(|tx.inputs|, i requires 0 <= i < |tx.inputs| => Bare(tx.inputs[i])), tx.outputs)
  }

  /** What the byte encodings and hash functions give: identifiers and messages
      from transactions without witnesses, and how keys and scripts compare; and
      the two receivers of redirected funds. */
  datatype Encoding = Encoding(
    h: Hashes<nat>,
    txidOf: Tx -> nat,
    sighashOf: (nat, seq<TxOut>, Tx) -> nat,
    pointRank: Point -> int,
    scriptRank: Script -> int,
    dao60: Script,
    dao40: Script
  ) {
    function Txid(tx: Tx): nat {
      txidOf(Strip(tx))
    }

    /** BIP 341, section "Common signature message": it covers all spent outputs and no witness. */
    function Sighash(index: nat, prevouts: seq<TxOut>, tx: Tx): nat {
      sighashOf(index, prevouts, Strip(tx))
    }

    /** The script of the address that a single internal key gives. */
    function KeyScript(p: Point): Script {
      P2tr(h.Even(TapOutputKey(h, p)))
    }
  }

  predicate Resolves(env: Encoding, tx: Tx, input: TxIn) {
    input.prev.txid == env.Txid(tx) && input.prev.vout < |tx.outputs|
  }

  function Referenced(tx: Tx, inputs: seq<TxIn>): seq<TxOut>
    requires forall i :: 0 <= i < |inputs| ==> inputs[i].prev.vout < |tx.outputs|
  {
    seq(|inputs|, i requires 0 <= i < |inputs| => tx.outputs[inputs[i].prev.vout])
  }

  function Prevouts(env: Encoding, tx: Tx, inputs: seq<TxIn>): Option<seq<TxOut>> {
    if forall i :: 0 <= i < |inputs| ==> Resolves(env, tx, inputs[i]) then Some(Referenced(tx, inputs)) else None
  }

  /** One output per input, in order, and only if every input spends tx. */
  method CalcPrevouts(env: Encoding, tx: Tx, inputs: seq<TxIn>) returns (r: Option<seq<TxOut>>)
    ensures r == Prevouts(env, tx, inputs)
    ensures r.Some? <==> forall i :: 0 <= i < |inputs| ==>
              inputs[i].prev.txid == env.txidOf(Strip(tx)) && inputs[i].prev.vout < |tx.outputs|
    ensures r.Some? ==>
              |r.value| == |inputs| && forall i :: 0 <= i < |inputs| ==> r.value[i] == tx.outputs[inputs[i].prev.vout]
  {
    var prevouts: seq<TxOut> := [];
    for n := 0 to |inputs|
      invariant |prevouts| == n
      invariant forall i ::
                  0 <= i < n ==> Resolves(env, tx, inputs[i]) && prevouts[i] == tx.outputs[inputs[i].prev.vout]
    {
      var outpoint := inputs[n].prev;
      if env.Txid(tx) == outpoint.txid {
        if outpoint.vout < |tx.outputs| {
          prevouts := prevouts + [tx.outputs[outpoint.vout]];
        } else {
          return None;
        }
      } else {
        return None;
      }
    }
    assert prevouts == Referenced(tx, inputs);
    return Some(prevouts);
  }

  /** The position of the first output with this script. */
  function OutputIndex(outputs: seq<TxOut>, script: Script): (r: Option<nat>)
    ensures r.Some? <==> exists i :: 0 <= i < |outputs| && outputs[i].script == script
    ensures r.Some? ==> r.value < |outputs| && outputs[r.value].script == script
    ensures r.Some? ==> forall i :: 0 <= i < r.value ==> outputs[i].script != script
  {
    if outputs == [] then None
    else
      var n := |outputs| - 1;
      var r := OutputIndex(outputs[..n], script);
      if r.Some? then assert outputs[r.value].script == script; r
      else if outputs[n].script == script then Some(n)
      else None
  }

  /** Witnesses change neither the identifier nor any message. */
  lemma WitnessesDoNotCount(env: Encoding, tx: Tx, signed: Tx)
    requires Strip(signed) == Strip(tx)
    ensures env.Txid(signed) == env.Txid(tx)
    ensures forall i, prevouts :: env.Sighash(i, prevouts, signed) == env.Sighash(i, prevouts, tx)
    ensures forall inputs :: Prevouts(env, signed, inputs) == Prevouts(env, tx, inputs)
  {
    forall inputs ensures Prevouts(env, signed, inputs) == Prevouts(env, tx, inputs) {
      forall i | 0 <= i < |inputs| ensures Resolves(env, signed, inputs[i]) == Resolves(env, tx, inputs[i]) {
      }
    }
  }

  /** What a transaction spends does not depend on its witnesses. */
  lemma PrevoutsOfBare(env: Encoding, prev: Tx, tx: Tx, tx': Tx)
    requires Strip(tx) == Strip(tx')
    ensures Prevouts(env, prev, tx.inputs) == Prevouts(env, prev, tx'.inputs)
  {
    assert |tx.inputs| == |Strip(tx).inputs| == |Strip(tx').inputs| == |tx'.inputs|;
    forall i | 0 <= i < |tx.inputs| ensures tx.inputs[i].prev == tx'.inputs[i].prev {
      assert Strip(tx).inputs[i] == Strip(tx').inputs[i];
    }
    var a, b := Prevouts(env, prev, tx.inputs), Prevouts(env, prev, tx'.inputs);
    if a.Some? {
      assert forall i ::
               0 <= i < |tx'.inputs| ==> Resolves(env, prev, tx.inputs[i]) && Resolves(env, prev, tx'.inputs[i]);
      assert a.value == b.value;
    } else {
      var i :| 0 <= i < |tx.inputs| && !Resolves(env, prev, tx.inputs[i]);
      assert !Resolves(env, prev, tx'.inputs[i]);
    }
  }

  /** Putting a signature into input i. */
  function WithWitness(tx: Tx, i: nat, w: Witness): (r: Tx)
    requires i < |tx.inputs|
    ensures Strip(r) == Strip(tx)
  {
    var r := tx.(inputs := tx.inputs[i := tx.inputs[i].(wit := w)]);
    assert Strip(r).inputs == Strip(tx).inputs;
    r
  }

  function Total(outputs: seq<TxOut>): nat {
    if outputs == [] then 0 else Total(outputs[..|outputs| - 1]) + outputs[|outputs| - 1].value
  }
}
