/** The deposit transaction: the partial transactions of both traders are merged,
    ordered and signed by each trader separately, and the signatures exchanged. */
module Deposits {
  import opened Results
  import opened Scalars
  import opened Musig
  import opened Sorting
  import opened Transactions
  import opened AggKeys

  const U64: int := 0x1_0000_0000_0000_0000
  const I64_LIMIT: int := 0x8000_0000_0000_0000

  /** Two's complement: what a 64-bit signed integer holds after arithmetic. */
  function Wrapped(x: int): int {
    (x + I64_LIMIT) % U64 - I64_LIMIT
  }

  function AsUnsigned(x: int): Amount {
    x % U64
  }

  lemma WrappedRange(x: int) returns (k: int)
    ensures x == Wrapped(x) + k * U64
    ensures -I64_LIMIT <= Wrapped(x) < I64_LIMIT
  {
    k := (x + I64_LIMIT) / U64;
  }

  lemma WrappedUnique(x: int, y: int, k: int)
    requires x == y + k * U64
    ensures Wrapped(x) == Wrapped(y)
    ensures AsUnsigned(x) == AsUnsigned(y)
  {
  }

  lemma WrappedFits(x: int)
    ensures -I64_LIMIT <= x < I64_LIMIT <==> Wrapped(x) == x
    ensures 0 <= x < U64 <==> AsUnsigned(x) == x
  {
  }

  // ------------------------------------------------------ partially signed transactions

  datatype PsbtIn = PsbtIn(utxo: Option<TxOut>, wit: Option<Witness>)

  /** The output's annotation: whether it is the signing wallet's own. */
  datatype PsbtOut = PsbtOut(own: bool)

  datatype PsbtData = PsbtData(inputs: seq<PsbtIn>, outputs: seq<PsbtOut>, tx: Tx)

  /** One entry per input and output of the transaction (BIP 174, section "Specification"). */
  type Psbt = p: PsbtData | |p.inputs| == |p.tx.inputs| && |p.outputs| == |p.tx.outputs|
    witness PsbtData([], [], Tx([], []))

  /** The transaction with the witnesses collected so far. */
  function Extract(p: Psbt): (r: Tx)
    ensures |r.inputs| == |p.tx.inputs|
  {
    Tx(seq(|p.tx.inputs|, i requires 0 <= i < |p.tx.inputs| => WithFinal(p.tx.inputs[i], p.inputs[i].wit)),
       p.tx.outputs)
  }

  function WithFinal(i: TxIn, w: Option<Witness>): TxIn {
    if w.Some? then i.(wit := w.value) else i
  }

  lemma ExtractKeepsTx(p: Psbt)
    ensures Strip(Extract(p)) == Strip(p.tx)
  {
    assert Strip(Extract(p)).inputs == Strip(p.tx).inputs;
  }

  datatype Wallet = Wallet(
    mine: Script -> bool,
    utxos: map<OutPoint, TxOut>,
    change: Script,
    sign: (OutPoint, Tx) -> nat)

  /** The wallet signs the inputs that spend its own outputs. */
  function SignedBy(w: Wallet, p: Psbt): (r: Psbt)
    ensures r.tx == p.tx
  {
    p.(inputs := seq(|p.inputs|, i requires 0 <= i < |p.inputs| =>
                     if p.inputs[i].utxo.Some? && w.mine(p.inputs[i].utxo.value.script)
                     then p.inputs[i].(wit := Some(WalletWitness(w.sign(p.tx.inputs[i].prev, Strip(p.tx)))))
                     else p.inputs[i]))
  }

  /** Inputs by outpoint, outputs by script, each with its entry. */
  function SortedPsbt(env: Encoding, p: Psbt): Psbt {
    var ins := Sort(Zip(p.inputs, p.tx.inputs), OnSecond(InputRank));
    var outs := Sort(Zip(p.outputs, p.tx.outputs), OnSecond(OutputRank(env)));
    PsbtData(Firsts(ins), Firsts(outs), Tx(Seconds(ins), Seconds(outs)))
  }

  /** Outpoints compare by transaction identifier, then by index. */
  function InputRank(i: TxIn): int {
    i.prev.txid * 0x1_0000_0000 + i.prev.vout
  }

  function OutputRank(env: Encoding): TxOut -> int {
    (o: TxOut) => env.scriptRank(o.script)
  }

  /** Ordering keeps every entry with its input or output. */
  lemma SortKeepsPairs(env: Encoding, p: Psbt)
    ensures
      var r := SortedPsbt(env, p);
      && multiset(Zip(r.inputs, r.tx.inputs)) == multiset(Zip(p.inputs, p.tx.inputs))
      && multiset(Zip(r.outputs, r.tx.outputs)) == multiset(Zip(p.outputs, p.tx.outputs))
      && Ascending(r.tx.inputs, InputRank) && Ascending(r.tx.outputs, OutputRank(env))
      && r.tx == Tx(Sort(p.tx.inputs, InputRank), Sort(p.tx.outputs, OutputRank(env)))
  {
    hide Sort, Ascending;
    var ins := Sort(Zip(p.inputs, p.tx.inputs), OnSecond(InputRank));
    var outs := Sort(Zip(p.outputs, p.tx.outputs), OnSecond(OutputRank(env)));
    SortIs(Zip(p.inputs, p.tx.inputs), OnSecond(InputRank));
    SortIs(Zip(p.outputs, p.tx.outputs), OnSecond(OutputRank(env)));
    SortIs(p.tx.inputs, InputRank);
    SortIs(p.tx.outputs, OutputRank(env));
    SortSecond(Zip(p.inputs, p.tx.inputs), InputRank);
    SortSecond(Zip(p.outputs, p.tx.outputs), OutputRank(env));
    assert Zip(Firsts(ins), Seconds(ins)) == ins;
    assert Zip(Firsts(outs), Seconds(outs)) == outs;
  }

  // ------------------------------------------------------ amounts

  function InputValue(i: PsbtIn): Amount {
    if i.utxo.Some? then i.utxo.value.value else 0
  }

  function InputTotal(inputs: seq<PsbtIn>): nat {
    if inputs == [] then 0 else InputTotal(inputs[..|inputs| - 1]) + InputValue(inputs[|inputs| - 1])
  }

  /** The outputs whose script is not on the list. */
  function Kept(outputs: seq<TxOut>, disregard: seq<Script>): seq<TxOut> {
    if outputs == [] then []
    else
      var n := |outputs| - 1;
      Kept(outputs[..n], disregard) + if outputs[n].script in disregard then [] else [outputs[n]]
  }

  // ------------------------------------------------------ the builder

  type Utxo = (OutPoint, PsbtIn)

  const DUST: Amount := 330

  predicate Mergeable(w: Wallet, psbt: Psbt, foreign: bool) {
    forall i :: 0 <= i < |psbt.inputs| ==>
      psbt.inputs[i].utxo.Some? && (foreign || psbt.tx.inputs[i].prev in w.utxos)
  }

  function UtxoOf(w: Wallet, i: PsbtIn, prev: OutPoint, foreign: bool): Utxo {
    (prev, if foreign || prev !in w.utxos then i else PsbtIn(Some(w.utxos[prev]), None))
  }

  function UtxosOf(w: Wallet, psbt: Psbt, foreign: bool): seq<Utxo> {
    seq(|psbt.inputs|, i requires 0 <= i < |psbt.inputs| => UtxoOf(w, psbt.inputs[i], psbt.tx.inputs[i].prev, foreign))
  }

  /** The builder's random choice of an order. */
  datatype Shuffles = Shuffles(ins: seq<Utxo> -> seq<Utxo>, outs: seq<TxOut> -> seq<TxOut>)

  ghost predicate Fair(s: Shuffles) {
    && (forall u :: multiset(s.ins(u)) == multiset(u))
    && (forall o :: multiset(s.outs(o)) == multiset(o))
  }

  function Change(w: Wallet, rest: Amount): seq<TxOut> {
    if rest >= DUST then [TxOut(rest, w.change)] else []
  }

  /** The merged transaction in the builder's order: what remains above the fee
      would become a change output. */
  function Finished(w: Wallet, utxos: seq<Utxo>, recipients: seq<TxOut>, fee: Amount, s: Shuffles)
    : Result<Psbt, Fault> {
    var funds, needed := InputTotal(Seconds(utxos)), Total(recipients) + fee;
    if funds >= U64 || needed >= U64 then Err(AmountOverflow)
    else if funds < needed then Err(InsufficientFunds)
    else
      var ins, outs := s.ins(utxos), s.outs(recipients + Change(w, funds - needed));
      Ok(PsbtData(Seconds(ins), seq(|outs|, i requires 0 <= i < |outs| => PsbtOut(w.mine(outs[i].script))),
                  Tx(seq(|ins|, i requires 0 <= i < |ins| => TxIn(ins[i].0, SEQUENCE_MAX, Unsigned)), outs)))
  }

  class TxBuilder {
    const wallet: Wallet
    var recipients: seq<TxOut>
    var utxos: seq<Utxo>
    var fee: Amount

    constructor (wallet: Wallet)
      ensures this.wallet == wallet && recipients == [] && utxos == []
    {
      this.wallet, recipients, utxos, fee := wallet, [], [], 0;
    }

    method AddRecipient(script: Script, value: Amount)
      modifies this`recipients
      ensures recipients == old(recipients) + [TxOut(value, script)]
    {
      recipients := recipients + [TxOut(value, script)];
    }

    method AddUtxo(op: OutPoint) returns (ok: bool)
      modifies this`utxos
      ensures ok <==> op in wallet.utxos
      ensures utxos == if ok then old(utxos) + [(op, PsbtIn(Some(wallet.utxos[op]), None))] else old(utxos)
    {
      ok := op in wallet.utxos;
      if ok {
        utxos := utxos + [(op, PsbtIn(Some(wallet.utxos[op]), None))];
      }
    }

    method AddForeignUtxo(op: OutPoint, input: PsbtIn) returns (ok: bool)
      modifies this`utxos
      ensures ok <==> input.utxo.Some?
      ensures utxos == if ok then old(utxos) + [(op, input)] else old(utxos)
    {
      ok := input.utxo.Some?;
      if ok {
        utxos := utxos + [(op, input)];
      }
    }

    /** Takes over the inputs of a partial transaction, and its outputs that are
        not on the list, and counts the difference of their values into total. */
    method Merge(psbt: Psbt, foreign: bool, start: int, disregard: seq<Script>) returns (r: Result<int, Fault>)
      modifies this`utxos, this`recipients
      ensures r.Ok? <==> Mergeable(wallet, psbt, foreign)
      ensures r.Ok? ==> utxos == old(utxos) + UtxosOf(wallet, psbt, foreign)
      ensures r.Ok? && !foreign ==> forall i :: 0 <= i < |psbt.inputs| ==>
                var op := psbt.tx.inputs[i].prev;
                op in wallet.utxos && utxos[|old(utxos)| + i] == (op, PsbtIn(Some(wallet.utxos[op]), None))
      ensures r.Ok? && foreign ==> forall i :: 0 <= i < |psbt.inputs| ==>
                utxos[|old(utxos)| + i] == (psbt.tx.inputs[i].prev, psbt.inputs[i])
      ensures r.Ok? ==> recipients == old(recipients) + Kept(psbt.tx.outputs, disregard)
      ensures r.Ok? ==>
                Wrapped(r.value) == Wrapped(start + InputTotal(psbt.inputs) - Total(Kept(psbt.tx.outputs, disregard)))
      ensures r.Ok? && Wrapped(start) == start ==> Wrapped(r.value) == r.value
      ensures r.Err? ==> r.error.UnknownUtxo? || r.error.MissingUtxo?
    {
      hide Wrapped, Total, Kept, InputTotal;
      var total := start;
      ghost var added: seq<Utxo> := [];
      assert InputTotal(psbt.inputs[..0]) == 0 by { EmptyTotals(disregard); }
      for n := 0 to |psbt.inputs|
        invariant |added| == n && utxos == old(utxos) + added && recipients == old(recipients)
        invariant forall i :: 0 <= i < n ==> added[i] == UtxosOf(wallet, psbt, foreign)[i]
        invariant forall i ::
                    0 <= i < n ==> psbt.inputs[i].utxo.Some? && (foreign || psbt.tx.inputs[i].prev in wallet.utxos)
        invariant Wrapped(total) == Wrapped(start + InputTotal(psbt.inputs[..n]))
        invariant Wrapped(start) == start ==> Wrapped(total) == total
      {
        var op, input := psbt.tx.inputs[n].prev, psbt.inputs[n];
        var ok: bool;
        if foreign {
          ok := AddForeignUtxo(op, input);
        } else {
          ok := AddUtxo(op);
        }
        if !ok {
          return Err(if foreign then MissingUtxo else UnknownUtxo);
        }
        if input.utxo.None? {
          return Err(MissingUtxo);
        }
        added := added + [UtxoOf(wallet, input, op, foreign)];
        InputTotalStep(psbt.inputs, n);
        AddStep(total, start + InputTotal(psbt.inputs[..n]), input.utxo.value.value);
        total := Wrapped(total + Wrapped(input.utxo.value.value));
      }
      assert added == UtxosOf(wallet, psbt, foreign);
      assert utxos == old(utxos) + UtxosOf(wallet, psbt, foreign);
      assert psbt.inputs[..|psbt.inputs|] == psbt.inputs;
      var taken: int := InputTotal(psbt.inputs);
      EmptyTotals(disregard);
      assert psbt.tx.outputs[..0] == [];
      assert recipients == old(recipients) + [];
      for n := 0 to |psbt.tx.outputs|
        invariant utxos == old(utxos) + UtxosOf(wallet, psbt, foreign)
        invariant recipients == old(recipients) + Kept(psbt.tx.outputs[..n], disregard)
        invariant Wrapped(total) == Wrapped(start + taken - Total(Kept(psbt.tx.outputs[..n], disregard)))
        invariant Wrapped(start) == start ==> Wrapped(total) == total
      {
        var txout := psbt.tx.outputs[n];
        KeptStep(psbt.tx.outputs, n, disregard);
        if txout.script !in disregard {
          AddRecipient(txout.script, txout.value);
          AddStep(total, start + taken - Total(Kept(psbt.tx.outputs[..n], disregard)), txout.value);
          total := Wrapped(total - Wrapped(txout.value));
        }
      }
      assert psbt.tx.outputs[..|psbt.tx.outputs|] == psbt.tx.outputs;
      r := Ok(total);
    }

    method Finish(s: Shuffles) returns (r: Result<Psbt, Fault>)
      ensures r == Finished(wallet, utxos, recipients, fee, s)
    {
      r := Finished(wallet, utxos, recipients, fee, s);
    }
  }

  lemma EmptyTotals(disregard: seq<Script>)
    ensures InputTotal([]) == 0 && Total([]) == 0 && Kept([], disregard) == []
  {
  }

  lemma InputTotalStep(inputs: seq<PsbtIn>, n: nat)
    requires n < |inputs|
    ensures InputTotal(inputs[..n + 1]) == InputTotal(inputs[..n]) + InputValue(inputs[n])
  {
    assert inputs[..n + 1][..n] == inputs[..n];
  }

  lemma TotalStep(outputs: seq<TxOut>, o: TxOut)
    ensures Total(outputs + [o]) == Total(outputs) + o.value
  {
    assert (outputs + [o])[..|outputs|] == outputs;
  }

  lemma KeptStep(outputs: seq<TxOut>, n: nat, disregard: seq<Script>)
    requires n < |outputs|
    ensures
      var before, after := Kept(outputs[..n], disregard), Kept(outputs[..n + 1], disregard);
      if outputs[n].script in disregard then after == before
      else after == before + [outputs[n]] && Total(after) == Total(before) + outputs[n].value
  {
    assert outputs[..n + 1][..n] == outputs[..n];
    TotalStep(Kept(outputs[..n], disregard), outputs[n]);
  }

  /** A step of a wrapped running total stays the wrapped exact total. */
  lemma AddStep(total: int, exact: int, value: int)
    requires Wrapped(total) == Wrapped(exact)
    ensures Wrapped(Wrapped(total + Wrapped(value))) == Wrapped(exact + value)
    ensures Wrapped(Wrapped(total - Wrapped(value))) == Wrapped(exact - value)
    ensures Wrapped(Wrapped(total + Wrapped(value))) == Wrapped(total + Wrapped(value))
    ensures Wrapped(Wrapped(total - Wrapped(value))) == Wrapped(total - Wrapped(value))
  {
    hide Wrapped;
    var a := WrappedRange(total);
    var b := WrappedRange(exact);
    var c := WrappedRange(value);
    var d := WrappedRange(total + Wrapped(value));
    var e := WrappedRange(total - Wrapped(value));
    WrappedUnique(exact + value, Wrapped(total + Wrapped(value)), b - a + c + d);
    WrappedUnique(exact - value, Wrapped(total - Wrapped(value)), b - a - c + e);
    WrappedUnique(Wrapped(total + Wrapped(value)), total + Wrapped(value), 0 - d);
    WrappedUnique(Wrapped(total - Wrapped(value)), total - Wrapped(value), 0 - e);
  }
}

/** Building the deposit from two partial transactions and completing it with
    the other trader's signatures. */
module DepositTxs {
  import opened Results
  import opened Scalars
  import opened Musig
  import opened Sorting
  import opened Transactions
  import opened AggKeys
  import opened Deposits

  datatype DepositTx = DepositTx(partPsbt: Option<Psbt>, signedPsbt: Option<Psbt>, tx: Option<Tx>)

  /** What a deposit pays for. */
  datatype Amounts = Amounts(seller: Amount, buyer: Amount)

  /** The addresses of the single keys and of the aggregated points. */
  function Disregarded(env: Encoding, p: AggKey, q: AggKey): Option<seq<Script>> {
    if p.otherPoint.None? || q.otherPoint.None? || p.agg.None? || q.agg.None? then None
    else Some([env.KeyScript(p.PubPoint()), env.KeyScript(q.PubPoint()),
               env.KeyScript(p.otherPoint.value), env.KeyScript(q.otherPoint.value),
               env.KeyScript(p.agg.value.pubkey), env.KeyScript(q.agg.value.pubkey)])
  }

  /** No input of the other trader spends an output of this wallet. */
  predicate NotMine(w: Wallet, other: Psbt) {
    forall i :: 0 <= i < |other.inputs| ==> other.inputs[i].utxo.Some? && !w.mine(other.inputs[i].utxo.value.script)
  }

  /** The two deposit outputs, then the change outputs of both. */
  function Recipients(env: Encoding, my: Psbt, other: Psbt, p: AggKey, q: AggKey, pay: Amounts): seq<TxOut>
    requires Disregarded(env, p, q).Some?
  {
    var list := Disregarded(env, p, q).value;
    [TxOut(pay.seller, p.AggScript(env).value), TxOut(pay.buyer, q.AggScript(env).value)]
    + Kept(my.tx.outputs, list) + Kept(other.tx.outputs, list)
  }

  function AllUtxos(w: Wallet, my: Psbt, other: Psbt): seq<Utxo> {
    UtxosOf(w, my, false) + UtxosOf(w, other, true)
  }

  /** What the inputs bring in beyond all outputs; negative when they do not suffice. */
  function Surplus(env: Encoding, my: Psbt, other: Psbt, p: AggKey, q: AggKey, pay: Amounts): int
    requires Disregarded(env, p, q).Some?
  {
    InputTotal(my.inputs) + InputTotal(other.inputs) - Total(Recipients(env, my, other, p, q, pay))
  }

  function Merged(env: Encoding, w: Wallet, my: Psbt, other: Psbt, p: AggKey, q: AggKey, pay: Amounts, s: Shuffles)
    : Option<Psbt> {
    if || Disregarded(env, p, q).None? || !NotMine(w, other)
       || !Mergeable(w, my, false) || !Mergeable(w, other, true) then None
    else
      var built := Finished(w, AllUtxos(w, my, other), Recipients(env, my, other, p, q, pay),
                            AsUnsigned(Surplus(env, my, other, p, q, pay)), s);
      if built.Err? then None else Some(SignedBy(w, SortedPsbt(env, built.value)))
  }

  /** The other trader must not spend an output of this wallet. */
  method CheckNotMine(w: Wallet, other: Psbt) returns (fault: Option<Fault>)
    ensures fault == None <==> NotMine(w, other)
  {
    for n := 0 to |other.inputs|
      invariant forall i :: 0 <= i < n ==> other.inputs[i].utxo.Some? && !w.mine(other.inputs[i].utxo.value.script)
    {
      if other.inputs[n].utxo.None? {
        return Some(MissingUtxo);
      }
      if w.mine(other.inputs[n].utxo.value.script) {
        return Some(OwnUtxo);
      }
    }
    return None;
  }

  /** A builder with the two deposit outputs, and the running total they leave. */
  method DepositOutputs(w: Wallet, scriptP: Script, scriptQ: Script, pay: Amounts)
    returns (builder: TxBuilder, total: int)
    ensures fresh(builder) && builder.wallet == w && builder.utxos == []
    ensures builder.recipients == [TxOut(pay.seller, scriptP), TxOut(pay.buyer, scriptQ)]
    ensures Wrapped(total) == total && Wrapped(total) == Wrapped(0 - pay.seller - pay.buyer)
  {
    builder := new TxBuilder(w);
    builder.AddRecipient(scriptP, pay.seller);
    total := Wrapped(0 - Wrapped(pay.seller));
    builder.AddRecipient(scriptQ, pay.buyer);
    hide Wrapped;
    AddStep(0, 0, pay.seller);
    AddStep(total, 0 - pay.seller, pay.buyer);
    total := Wrapped(total - Wrapped(pay.buyer));
  }

  lemma RebuildParts(env: Encoding, w: Wallet, my: Psbt, other: Psbt, p: AggKey, q: AggKey, pay: Amounts,
                     list: seq<Script>)
    requires Disregarded(env, p, q) == Some(list)
    ensures p.AggScript(env).Some? && q.AggScript(env).Some?
    ensures
      var kept, keptOther := Kept(my.tx.outputs, list), Kept(other.tx.outputs, list);
      && Recipients(env, my, other, p, q, pay)
         == [TxOut(pay.seller, p.AggScript(env).value), TxOut(pay.buyer, q.AggScript(env).value)] + kept + keptOther
      && Surplus(env, my, other, p, q, pay)
         == 0 - pay.seller - pay.buyer + (InputTotal(my.inputs) - Total(kept))
            + (InputTotal(other.inputs) - Total(keptOther))
    ensures AllUtxos(w, my, other) == UtxosOf(w, my, false) + UtxosOf(w, other, true)
  {
    RecipientsTotal(env, my, other, p, q, pay);
    hide Kept, Total, InputTotal;
  }

  /** Recreates the combined transaction from scratch, keeping track of the fee. */
  method Rebuild(env: Encoding, w: Wallet, my: Psbt, other: Psbt, p: AggKey, q: AggKey, pay: Amounts,
                 list: seq<Script>, s: Shuffles)
    returns (r: Result<Psbt, Fault>)
    requires Disregarded(env, p, q) == Some(list)
    ensures
      if Mergeable(w, my, false) && Mergeable(w, other, true) then
        r == Finished(w, AllUtxos(w, my, other), Recipients(env, my, other, p, q, pay),
                      AsUnsigned(Surplus(env, my, other, p, q, pay)), s)
      else r.Err?
  {
    hide *;
    ghost var kept, keptOther := Kept(my.tx.outputs, list), Kept(other.tx.outputs, list);
    ghost var gain, gainOther := InputTotal(my.inputs) - Total(kept), InputTotal(other.inputs) - Total(keptOther);
    RebuildParts(env, w, my, other, p, q, pay, list);
    var scriptP, scriptQ := p.AggScript(env).value, q.AggScript(env).value;
    var builder, total := DepositOutputs(w, scriptP, scriptQ, pay);
    var mine := builder.Merge(my, false, total, list);
    if mine.Err? {
      return Err(mine.error);
    }
    assert builder.utxos == UtxosOf(w, my, false);
    var both := builder.Merge(other, true, mine.value, list);
    if both.Err? {
      return Err(both.error);
    }
    SameWrap(total, 0 - pay.seller - pay.buyer, mine.value, both.value, gain, gainOther);
    assert builder.utxos == UtxosOf(w, my, false) + UtxosOf(w, other, true);
    assert builder.recipients == [TxOut(pay.seller, scriptP), TxOut(pay.buyer, scriptQ)] + kept + keptOther;
    builder.fee := AsUnsigned(both.value);
    r := builder.Finish(s);
  }

  method BuildAndMergeTx(env: Encoding, w: Wallet, d: DepositTx, other: Psbt, p: AggKey, q: AggKey, pay: Amounts,
                         s: Shuffles)
    returns (d': DepositTx, r: Result<Psbt, Fault>)
    ensures
      match if d.partPsbt.None? then None else Merged(env, w, d.partPsbt.value, other, p, q, pay, s)
      case None => r.Err? && d' == d
      case Some(m) => r == Ok(m) && d' == DepositTx(None, Some(m), Some(Extract(m)))
  {
    d' := d;
    if d.partPsbt.None? {
      return d', Err(Unset);
    }
    var fraud := CheckNotMine(w, other);
    if fraud.Some? {
      return d', Err(fraud.value);
    }
    var list := Disregarded(env, p, q);
    if list.None? {
      return d', Err(Unset);
    }
    var built := Rebuild(env, w, d.partPsbt.value, other, p, q, pay, list.value, s);
    if built.Err? {
      return d', Err(built.error);
    }
    var merged := SignedBy(w, SortedPsbt(env, built.value));
    d' := DepositTx(None, Some(merged), Some(Extract(merged)));
    r := Ok(merged);
  }

  lemma SameWrap(total: int, exact: int, mine: int, both: int, x: int, y: int)
    requires Wrapped(total) == Wrapped(exact)
    requires Wrapped(mine) == Wrapped(total + x) && Wrapped(both) == Wrapped(mine + y)
    ensures AsUnsigned(both) == AsUnsigned(exact + x + y)
  {
    hide Wrapped, AsUnsigned;
    var a := WrappedRange(total);
    var b := WrappedRange(exact);
    var c := WrappedRange(mine);
    var d := WrappedRange(total + x);
    var e := WrappedRange(both);
    var f := WrappedRange(mine + y);
    WrappedUnique(both, exact + x + y, a - b + c - d + e - f);
  }

  lemma {:induction false} TotalConcat(a: seq<TxOut>, b: seq<TxOut>)
    ensures Total(a + b) == Total(a) + Total(b)
  {
    if b == [] {
      assert a + b == a;
    } else {
      var n := |b| - 1;
      TotalConcat(a, b[..n]);
      assert (a + b)[..|a| + n] == a + b[..n];
    }
  }

  lemma RecipientsTotal(env: Encoding, my: Psbt, other: Psbt, p: AggKey, q: AggKey, pay: Amounts)
    requires Disregarded(env, p, q).Some?
    ensures
      var list := Disregarded(env, p, q).value;
      Total(Recipients(env, my, other, p, q, pay))
      == pay.seller + pay.buyer + Total(Kept(my.tx.outputs, list)) + Total(Kept(other.tx.outputs, list))
  {
    hide Kept;
    var list := Disregarded(env, p, q).value;
    var first, second := TxOut(pay.seller, p.AggScript(env).value), TxOut(pay.buyer, q.AggScript(env).value);
    TotalConcat([first, second] + Kept(my.tx.outputs, list), Kept(other.tx.outputs, list));
    TotalConcat([first, second], Kept(my.tx.outputs, list));
    TotalConcat([first], [second]);
    assert [first] + [second] == [first, second];
    TotalStep([], first);
    TotalStep([], second);
    assert [] + [first] == [first] && [] + [second] == [second];
  }

  // ------------------------------------------------------ conservation

  /** The wallet made this partial transaction from its own outputs. */
  ghost predicate OwnPart(w: Wallet, my: Psbt) {
    && Mergeable(w, my, false)
    && forall i :: 0 <= i < |my.inputs| ==> my.inputs[i].utxo == Some(w.utxos[my.tx.inputs[i].prev])
  }

  lemma {:induction false} SameInputTotal(a: seq<PsbtIn>, b: seq<PsbtIn>)
    requires |a| == |b|
    requires forall i :: 0 <= i < |a| ==> a[i].utxo == b[i].utxo
    ensures InputTotal(a) == InputTotal(b)
  {
    if a == [] {
    } else {
      SameInputTotal(a[..|a| - 1], b[..|b| - 1]);
    }
  }

  lemma {:induction false} InputTotalConcat(a: seq<PsbtIn>, b: seq<PsbtIn>)
    ensures InputTotal(a + b) == InputTotal(a) + InputTotal(b)
  {
    if b == [] {
      assert a + b == a;
    } else {
      var n := |b| - 1;
      InputTotalConcat(a, b[..n]);
      assert (a + b)[..|a| + n] == a + b[..n];
    }
  }

  lemma FundsOfBoth(w: Wallet, my: Psbt, other: Psbt)
    requires OwnPart(w, my)
    ensures InputTotal(Seconds(AllUtxos(w, my, other))) == InputTotal(my.inputs) + InputTotal(other.inputs)
  {
    hide InputTotal;
    var a, b := Seconds(UtxosOf(w, my, false)), Seconds(UtxosOf(w, other, true));
    assert Seconds(AllUtxos(w, my, other)) == a + b;
    InputTotalConcat(a, b);
    SameInputTotal(a, my.inputs);
    assert b == other.inputs;
  }

  /** A transaction whose fee is the 64-bit image of what is left is built exactly
      when something is left, and then has no change output. */
  lemma ExactFee(w: Wallet, utxos: seq<Utxo>, recipients: seq<TxOut>, s: Shuffles)
    ensures
      var funds := InputTotal(Seconds(utxos));
      var fee := AsUnsigned(funds - Total(recipients));
      var built := Finished(w, utxos, recipients, fee, s);
      && (built.Ok? <==> Total(recipients) <= funds < U64)
      && (built.Ok? ==>
            && fee == funds - Total(recipients)
            && built.value.tx.outputs == s.outs(recipients)
            && built.value.inputs == Seconds(s.ins(utxos)) && |built.value.tx.inputs| == |s.ins(utxos)|
            && forall i :: 0 <= i < |s.ins(utxos)| ==>
                 built.value.tx.inputs[i] == TxIn(s.ins(utxos)[i].0, SEQUENCE_MAX, Unsigned))
  {
    hide Total, InputTotal;
    var funds, spent := InputTotal(Seconds(utxos)), Total(recipients);
    if funds < U64 && spent < U64 {
      assert AsUnsigned(funds - spent) == if funds >= spent then funds - spent else funds - spent + U64;
    }
    assert recipients + [] == recipients;
  }

  function PlainIn(u: Utxo): TxIn {
    TxIn(u.0, SEQUENCE_MAX, Unsigned)
  }

  function PlainIns(utxos: seq<Utxo>): (r: seq<TxIn>)
    ensures |r| == |utxos|
  {
    seq(|utxos|, i requires 0 <= i < |utxos| => PlainIn(utxos[i]))
  }

  /** The merged transaction, written without the builder: sorted inputs and outputs. */
  lemma MergedIs(env: Encoding, w: Wallet, my: Psbt, other: Psbt, p: AggKey, q: AggKey, pay: Amounts, s: Shuffles)
    requires OwnPart(w, my)
    ensures
      var m := Merged(env, w, my, other, p, q, pay, s);
      (m.Some? <==>
        && Disregarded(env, p, q).Some? && NotMine(w, other)
        && 0 <= Surplus(env, my, other, p, q, pay)
        && InputTotal(my.inputs) + InputTotal(other.inputs) < U64)
    ensures
      var m := Merged(env, w, my, other, p, q, pay, s);
      m.Some? ==>
        m.value.tx == Tx(Sort(PlainIns(s.ins(AllUtxos(w, my, other))), InputRank),
                         Sort(s.outs(Recipients(env, my, other, p, q, pay)), OutputRank(env)))
  {
    hide InputTotal, Total, SignedBy, SortedPsbt, Sort, Finished, Recipients;
    if Disregarded(env, p, q).Some? && NotMine(w, other) {
      assert Mergeable(w, other, true);
      FundsOfBoth(w, my, other);
      var utxos, recipients := AllUtxos(w, my, other), Recipients(env, my, other, p, q, pay);
      ExactFee(w, utxos, recipients, s);
      var m := Merged(env, w, my, other, p, q, pay, s);
      if m.Some? {
        var built := Finished(w, utxos, recipients, AsUnsigned(Surplus(env, my, other, p, q, pay)), s).value;
        SortKeepsPairs(env, built);
        assert built.tx.inputs == PlainIns(s.ins(utxos));
      }
    }
  }

  /** The merged transaction lists its inputs by transaction identifier and then by
      output number, and its outputs by script, both ascending. */
  lemma MergedInOrder(env: Encoding, w: Wallet, my: Psbt, other: Psbt, p: AggKey, q: AggKey, pay: Amounts, s: Shuffles)
    requires OwnPart(w, my) && Merged(env, w, my, other, p, q, pay, s).Some?
    ensures
      var tx := Merged(env, w, my, other, p, q, pay, s).value.tx;
      && (forall i, j :: 0 <= i < j < |tx.inputs| ==>
            var a, b := tx.inputs[i].prev, tx.inputs[j].prev;
            a.txid < b.txid || (a.txid == b.txid && a.vout <= b.vout))
      && forall i, j :: 0 <= i < j < |tx.outputs| ==>
           env.scriptRank(tx.outputs[i].script) <= env.scriptRank(tx.outputs[j].script)
  {
    hide Merged, Sort, Recipients, AllUtxos, PlainIns;
    MergedIs(env, w, my, other, p, q, pay, s);
    var tx := Merged(env, w, my, other, p, q, pay, s).value.tx;
    SortIs(PlainIns(s.ins(AllUtxos(w, my, other))), InputRank);
    SortIs(s.outs(Recipients(env, my, other, p, q, pay)), OutputRank(env));
    forall i, j | 0 <= i < j < |tx.inputs|
      ensures
        var a, b := tx.inputs[i].prev, tx.inputs[j].prev;
        a.txid < b.txid || (a.txid == b.txid && a.vout <= b.vout)
    {
      assert InputRank(tx.inputs[i]) <= InputRank(tx.inputs[j]);
    }
    forall i, j | 0 <= i < j < |tx.outputs|
      ensures env.scriptRank(tx.outputs[i].script) <= env.scriptRank(tx.outputs[j].script)
    {
      assert OutputRank(env)(tx.outputs[i]) <= OutputRank(env)(tx.outputs[j]);
    }
  }

  /** Where the merged transaction spends an output of the wallet's own, it carries
      the wallet's signature over the transaction in its final order, without witnesses. */
  lemma MergedIsSigned(env: Encoding, w: Wallet, my: Psbt, other: Psbt, p: AggKey, q: AggKey, pay: Amounts, s: Shuffles,
                       i: nat)
    requires Merged(env, w, my, other, p, q, pay, s).Some?
    requires i < |Merged(env, w, my, other, p, q, pay, s).value.inputs|
    ensures
      var m := Merged(env, w, my, other, p, q, pay, s).value;
      m.inputs[i].utxo.Some? && w.mine(m.inputs[i].utxo.value.script) ==>
        m.inputs[i].wit == Some(WalletWitness(w.sign(m.tx.inputs[i].prev, Strip(m.tx))))
  {
    hide Finished, SortedPsbt, Recipients, AllUtxos, Surplus;
  }

  lemma {:induction false} TotalPermuted(s: seq<TxOut>, t: seq<TxOut>)
    requires multiset(s) == multiset(t)
    ensures Total(s) == Total(t)
  {
    if s == [] {
      assert |multiset(t)| == 0;
    } else {
      var n := |s| - 1;
      var i := FindLast(s, t);
      var rest := t[..i] + t[i + 1..];
      TotalPermuted(s[..n], rest);
      TotalConcat(t[..i] + [t[i]], t[i + 1..]);
      TotalConcat(t[..i], t[i + 1..]);
      TotalStep(t[..i], t[i]);
    }
  }

  /** Value conservation: the deposit pays both amounts and all kept change, and
      leaves exactly the running total as fee. */
  lemma DepositBalances(env: Encoding, w: Wallet, my: Psbt, other: Psbt, p: AggKey, q: AggKey, pay: Amounts,
                        s: Shuffles)
    requires OwnPart(w, my) && Fair(s)
    requires Merged(env, w, my, other, p, q, pay, s).Some?
    ensures
      var tx := Merged(env, w, my, other, p, q, pay, s).value.tx;
      && multiset(tx.outputs) == multiset(Recipients(env, my, other, p, q, pay))
      && multiset(tx.inputs) == multiset(PlainIns(AllUtxos(w, my, other)))
      && Total(tx.outputs) + Surplus(env, my, other, p, q, pay) == InputTotal(my.inputs) + InputTotal(other.inputs)
      && AsUnsigned(Surplus(env, my, other, p, q, pay)) == Surplus(env, my, other, p, q, pay)
  {
    hide InputTotal, Total, Sort, Merged, Recipients, AllUtxos;
    MergedIs(env, w, my, other, p, q, pay, s);
    var utxos, recipients := AllUtxos(w, my, other), Recipients(env, my, other, p, q, pay);
    SortIs(s.outs(recipients), OutputRank(env));
    SortIs(PlainIns(s.ins(utxos)), InputRank);
    PlainInsPermuted(s.ins(utxos), utxos);
    TotalPermuted(Merged(env, w, my, other, p, q, pay, s).value.tx.outputs, recipients);
  }

  lemma {:induction false} PlainInsPermuted(s: seq<Utxo>, t: seq<Utxo>)
    requires multiset(s) == multiset(t)
    ensures multiset(PlainIns(s)) == multiset(PlainIns(t))
  {
    if s == [] {
      assert |multiset(t)| == 0;
    } else {
      var n := |s| - 1;
      var i := FindLast(s, t);
      var rest := t[..i] + t[i + 1..];
      PlainInsPermuted(s[..n], rest);
      assert PlainIns(s) == PlainIns(s[..n]) + [PlainIn(s[n])];
      assert PlainIns(t) == PlainIns(t[..i]) + [PlainIn(t[i])] + PlainIns(t[i + 1..]);
      assert PlainIns(rest) == PlainIns(t[..i]) + PlainIns(t[i + 1..]);
      hide PlainIns;
      assert multiset(PlainIns(t)) == multiset(PlainIns(rest)) + multiset{PlainIn(t[i])};
    }
  }

  // ------------------------------------------------------ the two traders

  /** One key as its two holders see it. */
  ghost predicate Mirrored(mine: AggKey, theirs: AggKey) {
    && mine.agg.Some? && mine.agg == theirs.agg
    && mine.otherPoint == Some(theirs.PubPoint()) && theirs.otherPoint == Some(mine.PubPoint())
  }

  lemma {:induction false} KeptSameScripts(outputs: seq<TxOut>, list: seq<Script>, list': seq<Script>)
    requires forall script :: script in list <==> script in list'
    ensures Kept(outputs, list) == Kept(outputs, list')
  {
    if outputs == [] {
    } else {
      KeptSameScripts(outputs[..|outputs| - 1], list, list');
    }
  }

  lemma KeptOnBothSides(env: Encoding, outputs: seq<TxOut>, p: AggKey, q: AggKey, p': AggKey, q': AggKey)
    requires Mirrored(p, p') && Mirrored(q, q')
    ensures Disregarded(env, p, q).Some? && Disregarded(env, p', q').Some?
    ensures Kept(outputs, Disregarded(env, p, q).value) == Kept(outputs, Disregarded(env, p', q').value)
  {
    var list, list' := Disregarded(env, p, q).value, Disregarded(env, p', q').value;
    assert list' == [list[2], list[3], list[0], list[1], list[4], list[5]];
    KeptSameScripts(outputs, list, list');
  }

  /** Both traders keep the same outputs and compute the same total, hence the same fee. */
  lemma SameTotals(env: Encoding, my: Psbt, other: Psbt, p: AggKey, q: AggKey, p': AggKey, q': AggKey, pay: Amounts)
    requires Mirrored(p, p') && Mirrored(q, q')
    ensures Disregarded(env, p, q).Some? && Disregarded(env, p', q').Some?
    ensures multiset(Recipients(env, my, other, p, q, pay)) == multiset(Recipients(env, other, my, p', q', pay))
    ensures Surplus(env, my, other, p, q, pay) == Surplus(env, other, my, p', q', pay)
  {
    KeptOnBothSides(env, my.tx.outputs, p, q, p', q');
    KeptOnBothSides(env, other.tx.outputs, p, q, p', q');
    hide Kept, Total, InputTotal, Disregarded, Encoding.KeyScript, Untweaked;
    var first := [TxOut(pay.seller, p.AggScript(env).value), TxOut(pay.buyer, q.AggScript(env).value)];
    var list := Disregarded(env, p, q).value;
    var kept, kept' := Kept(my.tx.outputs, list), Kept(other.tx.outputs, list);
    assert Recipients(env, my, other, p, q, pay) == first + kept + kept';
    assert Recipients(env, other, my, p', q', pay) == first + kept' + kept;
    Swapped(first, kept, kept');
    TotalPermuted(first + kept + kept', first + kept' + kept);
  }

  lemma Swapped<T>(a: seq<T>, b: seq<T>, c: seq<T>)
    ensures multiset(a + b + c) == multiset(a + c + b)
  {
  }

  lemma InputsOnBothSides(w: Wallet, w': Wallet, my: Psbt, other: Psbt)
    ensures multiset(PlainIns(AllUtxos(w, my, other))) == multiset(PlainIns(AllUtxos(w', other, my)))
  {
    var a, b := PlainIns(UtxosOf(w, my, false)), PlainIns(UtxosOf(w, other, true));
    assert a == PlainIns(UtxosOf(w', my, true)) && b == PlainIns(UtxosOf(w', other, false));
    assert PlainIns(AllUtxos(w, my, other)) == a + b;
    assert PlainIns(AllUtxos(w', other, my)) == b + a;
  }

  /** Equal outpoints make equal inputs. */
  lemma OutpointsDecide(utxos: seq<Utxo>)
    ensures KeyDecides(PlainIns(utxos), InputRank)
  {
  }

  /** Both traders end with the identical transaction, whatever orders their
      builders drew, when outputs with the same script are the same. */
  lemma CanonicalDeposit(env: Encoding, w: Wallet, w': Wallet, my: Psbt, other: Psbt,
                         p: AggKey, q: AggKey, p': AggKey, q': AggKey, pay: Amounts, s: Shuffles, s': Shuffles)
    requires OwnPart(w, my) && OwnPart(w', other)
    requires Mirrored(p, p') && Mirrored(q, q')
    requires NotMine(w, other) && NotMine(w', my)
    requires Fair(s) && Fair(s')
    ensures Merged(env, w, my, other, p, q, pay, s).Some? <==> Merged(env, w', other, my, p', q', pay, s').Some?
    ensures
      var m, m' := Merged(env, w, my, other, p, q, pay, s), Merged(env, w', other, my, p', q', pay, s');
      m.Some? && KeyDecides(Recipients(env, my, other, p, q, pay), OutputRank(env)) ==> m.value.tx == m'.value.tx
  {
    hide Recipients, Merged, Sort, AllUtxos, PlainIns, KeyDecides, Disregarded, NotMine, OwnPart;
    SameTotals(env, my, other, p, q, p', q', pay);
    var recipients, recipients' := Recipients(env, my, other, p, q, pay), Recipients(env, other, my, p', q', pay);
    MergedIs(env, w, my, other, p, q, pay, s);
    MergedIs(env, w', other, my, p', q', pay, s');
    if Merged(env, w, my, other, p, q, pay, s).Some? && KeyDecides(recipients, OutputRank(env)) {
      DecidesForPermutation(recipients, s.outs(recipients), OutputRank(env));
      SortIgnoresOrder(s.outs(recipients), s'.outs(recipients'), OutputRank(env));
      InputsOnBothSides(w, w', my, other);
      var utxos, utxos' := AllUtxos(w, my, other), AllUtxos(w', other, my);
      PlainInsPermuted(s.ins(utxos), utxos);
      PlainInsPermuted(s'.ins(utxos'), utxos');
      OutpointsDecide(s.ins(utxos));
      SortIgnoresOrder(PlainIns(s.ins(utxos)), PlainIns(s'.ins(utxos')), InputRank);
    }
  }

  /** Exactly then: if two recipients share a script but differ, the traders'
      builders can draw orders that end in different transactions. */
  lemma CanonicalExactly(env: Encoding, w: Wallet, w': Wallet, my: Psbt, other: Psbt,
                         p: AggKey, q: AggKey, p': AggKey, q': AggKey, pay: Amounts, s: Shuffles)
    requires OwnPart(w, my) && OwnPart(w', other)
    requires Mirrored(p, p') && Mirrored(q, q')
    requires NotMine(w, other) && NotMine(w', my)
    requires Fair(s) && Merged(env, w, my, other, p, q, pay, s).Some?
    ensures Disregarded(env, p, q).Some?
    ensures
      (forall s' :: Fair(s') ==>
         var m' := Merged(env, w', other, my, p', q', pay, s');
         m'.Some? && m'.value.tx == Merged(env, w, my, other, p, q, pay, s).value.tx)
      <==> KeyDecides(Recipients(env, my, other, p, q, pay), OutputRank(env))
  {
    hide Recipients, Merged, Sort, AllUtxos, PlainIns, KeyDecides, Disregarded, NotMine, OwnPart;
    MergedIs(env, w, my, other, p, q, pay, s);
    forall s' | Fair(s') ensures Merged(env, w', other, my, p', q', pay, s').Some? {
      CanonicalDeposit(env, w, w', my, other, p, q, p', q', pay, s, s');
    }
    var recipients := Recipients(env, my, other, p, q, pay);
    if KeyDecides(recipients, OutputRank(env)) {
      forall s' | Fair(s')
        ensures Merged(env, w', other, my, p', q', pay, s').value.tx == Merged(env, w, my, other, p, q, pay, s).value.tx
      {
        CanonicalDeposit(env, w, w', my, other, p, q, p', q', pay, s, s');
      }
    } else {
      SameTotals(env, my, other, p, q, p', q', pay);
      var recipients' := Recipients(env, other, my, p', q', pay);
      var order := OtherOrder(recipients, recipients', OutputRank(env), s.outs(recipients));
      var s' := Shuffles(s.ins, o => if o == recipients' then order else o);
      assert Fair(s');
      MergedIs(env, w', other, my, p', q', pay, s');
    }
  }

  /** When the key does not decide, some order sorts differently from a given one. */
  lemma OtherOrder<T(!new)>(s: seq<T>, s': seq<T>, key: T -> int, t: seq<T>) returns (u: seq<T>)
    requires multiset(s) == multiset(s') == multiset(t)
    requires !KeyDecides(s, key)
    ensures multiset(u) == multiset(s') && Sort(u, key) != Sort(t, key)
  {
    hide Sort, KeyDecides;
    if KeyDecides(t, key) {
      DecidesForPermutation(t, s, key);
    }
    OrderIndependence(t, key);
    u :| multiset(u) == multiset(t) && Sort(u, key) != Sort(t, key);
  }

  // ------------------------------------------------------ finding an output again

  /** The output that a search by script finds in the merged transaction. */
  function Picked(env: Encoding, w: Wallet, my: Psbt, other: Psbt, p: AggKey, q: AggKey, pay: Amounts, s: Shuffles,
                  script: Script): Option<TxOut> {
    var m := Merged(env, w, my, other, p, q, pay, s);
    if m.None? || OutputIndex(m.value.tx.outputs, script).None? then None
    else Some(m.value.tx.outputs[OutputIndex(m.value.tx.outputs, script).value])
  }

  /** Recipients with its script are the only ones a search can find. */
  lemma PickedIsRecipient(env: Encoding, w: Wallet, my: Psbt, other: Psbt, p: AggKey, q: AggKey, pay: Amounts,
                          s: Shuffles, n: nat) returns (k: nat)
    requires OwnPart(w, my) && Fair(s) && Merged(env, w, my, other, p, q, pay, s).Some?
    requires Disregarded(env, p, q).Some? && n < |Recipients(env, my, other, p, q, pay)|
    ensures
      var r := Recipients(env, my, other, p, q, pay);
      && k < |r| && r[k].script == r[n].script
      && Picked(env, w, my, other, p, q, pay, s, r[n].script) == Some(r[k])
  {
    hide Recipients, Merged, AllUtxos, PlainIns, OwnPart, Disregarded, Total, InputTotal;
    DepositBalances(env, w, my, other, p, q, pay, s);
    var r := Recipients(env, my, other, p, q, pay);
    var outputs := Merged(env, w, my, other, p, q, pay, s).value.tx.outputs;
    assert r[n] in multiset(outputs);
    assert r[n] in outputs;
    var found := outputs[OutputIndex(outputs, r[n].script).value];
    assert found in multiset(r);
    k :| 0 <= k < |r| && r[k] == found;
  }

  lemma PutFirst<T>(s: seq<T>, k: nat) returns (rest: seq<T>)
    requires k < |s|
    ensures multiset([s[k]] + rest) == multiset(s)
  {
    rest := s[..k] + s[k + 1..];
    assert s == s[..k] + [s[k]] + s[k + 1..];
  }

  /** Every recipient is found by its script under some order of the recipients. */
  lemma PickedInSomeOrder(env: Encoding, w: Wallet, my: Psbt, other: Psbt, p: AggKey, q: AggKey, pay: Amounts,
                          s: Shuffles, k: nat) returns (s': Shuffles)
    requires OwnPart(w, my) && Merged(env, w, my, other, p, q, pay, s).Some?
    requires Disregarded(env, p, q).Some? && k < |Recipients(env, my, other, p, q, pay)|
    ensures Fair(s')
    ensures
      var r := Recipients(env, my, other, p, q, pay);
      Picked(env, w, my, other, p, q, pay, s', r[k].script) == Some(r[k])
  {
    hide Recipients, Merged, AllUtxos, PlainIns, OwnPart, Disregarded, Surplus, InputTotal, Sort, NotMine;
    var r := Recipients(env, my, other, p, q, pay);
    var rest := PutFirst(r, k);
    s' := Shuffles(u => u, o => if o == r then [r[k]] + rest else o);
    AnyOrderMerges(env, w, my, other, p, q, pay, s, s');
    MergedIs(env, w, my, other, p, q, pay, s');
    var i := FrontOfKey(r[k], rest, OutputRank(env));
    var outputs := Merged(env, w, my, other, p, q, pay, s').value.tx.outputs;
    assert outputs[i] == r[k];
  }

  /** A recipient is the one its script finds, whatever orders the builders draw,
      exactly when all recipients with its script are the same. */
  lemma PickedExactly(env: Encoding, w: Wallet, my: Psbt, other: Psbt, p: AggKey, q: AggKey, pay: Amounts, s: Shuffles,
                      n: nat)
    requires OwnPart(w, my) && Merged(env, w, my, other, p, q, pay, s).Some?
    requires Disregarded(env, p, q).Some? && n < |Recipients(env, my, other, p, q, pay)|
    ensures
      var r := Recipients(env, my, other, p, q, pay);
      (forall s' :: Fair(s') ==> Picked(env, w, my, other, p, q, pay, s', r[n].script) == Some(r[n]))
      <==> (forall k :: 0 <= k < |r| && r[k].script == r[n].script ==> r[k] == r[n])
  {
    hide Recipients, Merged, OwnPart, Disregarded, Fair, Picked;
    var r := Recipients(env, my, other, p, q, pay);
    if forall k :: 0 <= k < |r| && r[k].script == r[n].script ==> r[k] == r[n] {
      forall s' | Fair(s') ensures Picked(env, w, my, other, p, q, pay, s', r[n].script) == Some(r[n]) {
        AnyOrderMerges(env, w, my, other, p, q, pay, s, s');
        var k := PickedIsRecipient(env, w, my, other, p, q, pay, s', n);
      }
    } else {
      var k :| 0 <= k < |r| && r[k].script == r[n].script && r[k] != r[n];
      var s' := PickedInSomeOrder(env, w, my, other, p, q, pay, s, k);
    }
  }

  lemma AnyOrderMerges(env: Encoding, w: Wallet, my: Psbt, other: Psbt, p: AggKey, q: AggKey, pay: Amounts, s: Shuffles,
                       s': Shuffles)
    requires OwnPart(w, my) && Merged(env, w, my, other, p, q, pay, s).Some?
    ensures Merged(env, w, my, other, p, q, pay, s').Some?
  {
    hide Merged, OwnPart, Disregarded, Surplus, InputTotal, NotMine;
    MergedIs(env, w, my, other, p, q, pay, s);
    MergedIs(env, w, my, other, p, q, pay, s');
  }

  // ------------------------------------------------------ the fee and its arithmetic

  function PartFee(psbt: Psbt): int {
    InputTotal(psbt.inputs) - Total(psbt.tx.outputs)
  }

  /** One output goes to a listed script, with the owner's amount; the rest is change. */
  ghost predicate FundsOnly(psbt: Psbt, list: seq<Script>, amount: Amount) {
    exists i ::
      && 0 <= i < |psbt.tx.outputs| && psbt.tx.outputs[i].script in list && psbt.tx.outputs[i].value == amount
      && forall j :: 0 <= j < |psbt.tx.outputs| && psbt.tx.outputs[j].script in list ==> j == i
  }

  lemma {:induction false} KeptAll(outputs: seq<TxOut>, list: seq<Script>)
    requires forall j :: 0 <= j < |outputs| ==> outputs[j].script !in list
    ensures Kept(outputs, list) == outputs
  {
    if outputs == [] {
    } else {
      KeptAll(outputs[..|outputs| - 1], list);
    }
  }

  lemma {:induction false} KeptAllButOne(outputs: seq<TxOut>, list: seq<Script>, i: nat)
    requires i < |outputs| && outputs[i].script in list
    requires forall j :: 0 <= j < |outputs| && outputs[j].script in list ==> j == i
    ensures Total(Kept(outputs, list)) + outputs[i].value == Total(outputs)
  {
    var n := |outputs| - 1;
    if i == n {
      KeptAll(outputs[..n], list);
      assert Kept(outputs, list) == outputs[..n];
    } else {
      KeptAllButOne(outputs[..n], list, i);
      TotalStep(Kept(outputs[..n], list), outputs[n]);
    }
  }

  /** The fee of the combined transaction is the sum of the two parts' fees. */
  lemma FeeIsSumOfParts(env: Encoding, my: Psbt, other: Psbt, p: AggKey, q: AggKey, pay: Amounts, mine: Amount,
                        theirs: Amount)
    requires Disregarded(env, p, q).Some?
    requires (mine, theirs) == (pay.seller, pay.buyer) || (mine, theirs) == (pay.buyer, pay.seller)
    requires FundsOnly(my, Disregarded(env, p, q).value, mine)
    requires FundsOnly(other, Disregarded(env, p, q).value, theirs)
    ensures Surplus(env, my, other, p, q, pay) == PartFee(my) + PartFee(other)
  {
    var list := Disregarded(env, p, q).value;
    hide Total, InputTotal, Kept, Recipients, Disregarded;
    RecipientsTotal(env, my, other, p, q, pay);
    var i :| 0 <= i < |my.tx.outputs| && my.tx.outputs[i].script in list && my.tx.outputs[i].value == mine
             && forall j :: 0 <= j < |my.tx.outputs| && my.tx.outputs[j].script in list ==> j == i;
    KeptAllButOne(my.tx.outputs, list, i);
    var k :| 0 <= k < |other.tx.outputs| && other.tx.outputs[k].script in list && other.tx.outputs[k].value == theirs
             && forall j :: 0 <= j < |other.tx.outputs| && other.tx.outputs[j].script in list ==> j == k;
    KeptAllButOne(other.tx.outputs, list, k);
  }

  const MAX_MONEY: Amount := 2_100_000_000_000_000
  const MAX_ENTRIES: nat := 4392

  /** No amount exceeds 21 million bitcoins. */
  ghost predicate Capped(psbt: Psbt) {
    && (forall i :: 0 <= i < |psbt.inputs| ==> InputValue(psbt.inputs[i]) <= MAX_MONEY)
    && (forall i :: 0 <= i < |psbt.tx.outputs| ==> psbt.tx.outputs[i].value <= MAX_MONEY)
  }

  lemma {:induction false} InputsBound(psbt: Psbt, n: nat)
    requires Capped(psbt) && n <= |psbt.inputs|
    ensures InputTotal(psbt.inputs[..n]) <= MAX_MONEY * n
  {
    if n == 0 {
    } else {
      InputsBound(psbt, n - 1);
      InputTotalStep(psbt.inputs, n - 1);
    }
  }

  lemma {:induction false} KeptBound(psbt: Psbt, list: seq<Script>, n: nat)
    requires Capped(psbt) && n <= |psbt.tx.outputs|
    ensures Total(Kept(psbt.tx.outputs[..n], list)) <= MAX_MONEY * n
  {
    if n == 0 {
    } else {
      hide Kept, Total;
      KeptBound(psbt, list, n - 1);
      KeptStep(psbt.tx.outputs, n - 1, list);
    }
  }

  /** Where the running total is: after n inputs and k outputs of a merged part. */
  function Running(start: int, psbt: Psbt, list: seq<Script>, n: nat, k: nat): int
    requires n <= |psbt.inputs| && k <= |psbt.tx.outputs|
  {
    start + InputTotal(psbt.inputs[..n]) - Total(Kept(psbt.tx.outputs[..k], list))
  }

  ghost predicate FitsI64(x: int) {
    -I64_LIMIT <= x < I64_LIMIT
  }

  ghost predicate NeverWraps(start: int, psbt: Psbt, list: seq<Script>) {
    forall n, k :: 0 <= n <= |psbt.inputs| && 0 <= k <= |psbt.tx.outputs| ==> FitsI64(Running(start, psbt, list, n, k))
  }

  /** Every value the running total takes during both merges fits in 64 bits, so
      no step wraps; and with parts that each pay for one trader's share and for
      themselves it ends non-negative, so the cast to an unsigned fee keeps it. */
  lemma NoOverflow(env: Encoding, my: Psbt, other: Psbt, p: AggKey, q: AggKey, pay: Amounts)
    requires Disregarded(env, p, q).Some?
    requires Capped(my) && Capped(other) && pay.seller <= MAX_MONEY && pay.buyer <= MAX_MONEY
    requires |my.inputs| + |my.tx.outputs| + |other.inputs| + |other.tx.outputs| + 2 <= MAX_ENTRIES
    ensures
      var list := Disregarded(env, p, q).value;
      var start := 0 - pay.seller - pay.buyer;
      var middle := Running(start, my, list, |my.inputs|, |my.tx.outputs|);
      && NeverWraps(start, my, list) && NeverWraps(middle, other, list)
      && Running(middle, other, list, |other.inputs|, |other.tx.outputs|) == Surplus(env, my, other, p, q, pay)
      && Wrapped(Surplus(env, my, other, p, q, pay)) == Surplus(env, my, other, p, q, pay)
    ensures
      var list := Disregarded(env, p, q).value;
      || (FundsOnly(my, list, pay.seller) && FundsOnly(other, list, pay.buyer))
      || (FundsOnly(my, list, pay.buyer) && FundsOnly(other, list, pay.seller))
      ==>
        && Surplus(env, my, other, p, q, pay) == PartFee(my) + PartFee(other)
        && (PartFee(my) >= 0 && PartFee(other) >= 0 ==>
              0 <= Surplus(env, my, other, p, q, pay) == AsUnsigned(Surplus(env, my, other, p, q, pay)))
  {
    hide Running, NeverWraps, Wrapped, Surplus, Disregarded, Capped, FundsOnly, PartFee;
    var list := Disregarded(env, p, q).value;
    var start := 0 - pay.seller - pay.buyer;
    var middle := Running(start, my, list, |my.inputs|, |my.tx.outputs|);
    RunningFits(start, my, list);
    RunningFits(middle, other, list);
    RunningIsSurplus(env, my, other, p, q, pay, list);
    FitsWrapped(Surplus(env, my, other, p, q, pay));
    if FundsOnly(my, list, pay.seller) && FundsOnly(other, list, pay.buyer) {
      FeeIsSumOfParts(env, my, other, p, q, pay, pay.seller, pay.buyer);
    } else if FundsOnly(my, list, pay.buyer) && FundsOnly(other, list, pay.seller) {
      FeeIsSumOfParts(env, my, other, p, q, pay, pay.buyer, pay.seller);
    }
  }

  lemma RunningIsSurplus(env: Encoding, my: Psbt, other: Psbt, p: AggKey, q: AggKey, pay: Amounts, list: seq<Script>)
    requires Disregarded(env, p, q) == Some(list)
    ensures
      var middle := Running(0 - pay.seller - pay.buyer, my, list, |my.inputs|, |my.tx.outputs|);
      Running(middle, other, list, |other.inputs|, |other.tx.outputs|) == Surplus(env, my, other, p, q, pay)
  {
    hide Total, InputTotal, Kept, Recipients, Disregarded;
    var start := 0 - pay.seller - pay.buyer;
    RunningEnd(start, my, list);
    RunningEnd(Running(start, my, list, |my.inputs|, |my.tx.outputs|), other, list);
    RecipientsTotal(env, my, other, p, q, pay);
  }

  lemma InRange(x: int)
    requires -(MAX_MONEY * MAX_ENTRIES) <= x <= MAX_MONEY * MAX_ENTRIES
    ensures FitsI64(x)
  {
  }

  lemma FitsWrapped(x: int)
    requires FitsI64(x)
    ensures Wrapped(x) == x
  {
    WrappedFits(x);
  }

  lemma RunningFits(start: int, psbt: Psbt, list: seq<Script>)
    requires Capped(psbt)
    requires MAX_MONEY * (|psbt.tx.outputs| - MAX_ENTRIES) <= start <= MAX_MONEY * (MAX_ENTRIES - |psbt.inputs|)
    ensures NeverWraps(start, psbt, list)
    ensures
      var end := Running(start, psbt, list, |psbt.inputs|, |psbt.tx.outputs|);
      && start - MAX_MONEY * |psbt.tx.outputs| <= end <= start + MAX_MONEY * |psbt.inputs|
      && FitsI64(end)
  {
    hide Total, InputTotal, Kept, Capped;
    forall n, k | 0 <= n <= |psbt.inputs| && 0 <= k <= |psbt.tx.outputs|
      ensures start - MAX_MONEY * |psbt.tx.outputs|
              <= Running(start, psbt, list, n, k) <= start + MAX_MONEY * |psbt.inputs|
      ensures FitsI64(Running(start, psbt, list, n, k))
    {
      InputsBound(psbt, n);
      KeptBound(psbt, list, k);
      InRange(Running(start, psbt, list, n, k));
    }
  }

  lemma RunningEnd(start: int, psbt: Psbt, list: seq<Script>)
    ensures Running(start, psbt, list, |psbt.inputs|, |psbt.tx.outputs|)
            == start + InputTotal(psbt.inputs) - Total(Kept(psbt.tx.outputs, list))
  {
    assert psbt.inputs[..|psbt.inputs|] == psbt.inputs;
    assert psbt.tx.outputs[..|psbt.tx.outputs|] == psbt.tx.outputs;
  }

  // ------------------------------------------------------ the list of scripts

  /** The points whose addresses are disregarded. */
  function DisregardedPoints(p: AggKey, q: AggKey): seq<Point>
    requires p.otherPoint.Some? && q.otherPoint.Some? && p.agg.Some? && q.agg.Some?
  {
    [p.PubPoint(), q.PubPoint(), p.otherPoint.value, q.otherPoint.value, p.agg.value.pubkey, q.agg.value.pubkey]
  }

  /** Tweaked once more, as an address does it, the point is this one up to its sign. */
  ghost predicate TweaksTo(env: Encoding, point: Point, target: Point) {
    var again := TapOutputKey(env.h, point);
    again == target || again == PNeg(target)
  }

  lemma SameAddress(env: Encoding, point: Point, target: Point)
    ensures env.KeyScript(point) == P2tr(env.h.Even(target)) <==> TweaksTo(env, point, target)
  {
    var again := TapOutputKey(env.h, point);
    env.h.EvenOfNeg(target);
    env.h.EvenOfNeg(again);
  }

  /** An aggregated point, tweaked again, is itself only for these two tweaks. */
  lemma OwnTweak(env: Encoding, point: Point)
    ensures
      var e := env.h.Even(point);
      var t := env.h.tapTweak(e);
      TweaksTo(env, point, point) <==> t == 0 || BaseMul(t) == PNeg(PAdd(e, e))
  {
    var e := env.h.Even(point);
    var t := env.h.tapTweak(e);
    assert Add(e.log, t) == e.log <==> t == 0;
    assert Add(e.log, t) == Neg(e.log) <==> t == Neg(Add(e.log, e.log));
  }

  /** The list is meant to hold the two deposit scripts, but the aggregated points
      in it are tweaked already and get tweaked once more. A deposit script is in
      the list exactly when one of the six points, tweaked again, hits its key by
      chance; for the key's own entry that depends on the tweak alone. */
  lemma DepositScriptNotListed(env: Encoding, p: AggKey, q: AggKey, theirs: Point)
    requires p.AggregateKey(env, theirs).Ok? && q.otherPoint.Some? && q.agg.Some?
    ensures
      var k := p.AggregateKey(env, theirs).value;
      var key := k.agg.value.pubkey;
      var e := env.h.Even(key);
      var t := env.h.tapTweak(e);
      && Disregarded(env, k, q).Some? && Disregarded(env, q, k).Some?
      && (forall script :: script in Disregarded(env, k, q).value <==> script in Disregarded(env, q, k).value)
      && (k.AggScript(env).value in Disregarded(env, k, q).value
          <==> exists i :: 0 <= i < 6 && TweaksTo(env, DisregardedPoints(k, q)[i], key))
      && DisregardedPoints(k, q)[4] == key
      && (TweaksTo(env, key, key) <==> t == 0 || BaseMul(t) == PNeg(PAdd(e, e)))
  {
    hide AggKey.AggregateKey, TweaksTo, Encoding.KeyScript;
    ScriptLocksAggregate(env, p, theirs);
    AggregateSets(env, p, theirs);
    var k := p.AggregateKey(env, theirs).value;
    var key, points := k.agg.value.pubkey, DisregardedPoints(k, q);
    var list := Disregarded(env, k, q).value;
    forall i | 0 <= i < 6 ensures list[i] == k.AggScript(env).value <==> TweaksTo(env, points[i], key) {
      assert list[i] == env.KeyScript(points[i]);
      SameAddress(env, points[i], key);
    }
    OwnTweak(env, key);
  }

  lemma AggregateSets(env: Encoding, p: AggKey, theirs: Point)
    requires p.AggregateKey(env, theirs).Ok?
    ensures p.AggregateKey(env, theirs).value.agg.Some? && p.AggregateKey(env, theirs).value.otherPoint == Some(theirs)
  {
  }

  lemma {:induction false} KeptHas(outputs: seq<TxOut>, list: seq<Script>, i: nat)
    requires i < |outputs| && outputs[i].script !in list
    ensures outputs[i] in Kept(outputs, list)
  {
    var n := |outputs| - 1;
    if i < n {
      KeptHas(outputs[..n], list, i);
    }
  }

  /** So an output of the other trader that pays to an unlisted deposit script is
      kept, and under some order of the recipients a search for the deposit's
      output finds that one, with its value. */
  lemma UnlistedIsPicked(env: Encoding, w: Wallet, my: Psbt, other: Psbt, p: AggKey, q: AggKey, pay: Amounts,
                         s: Shuffles, i: nat) returns (s': Shuffles)
    requires OwnPart(w, my) && Merged(env, w, my, other, p, q, pay, s).Some? && Disregarded(env, p, q).Some?
    requires i < |other.tx.outputs| && other.tx.outputs[i].script !in Disregarded(env, p, q).value
    requires other.tx.outputs[i].script in {p.AggScript(env).value, q.AggScript(env).value}
    ensures Fair(s')
    ensures Picked(env, w, my, other, p, q, pay, s', other.tx.outputs[i].script) == Some(other.tx.outputs[i])
  {
    hide Fair, Picked, Merged, OwnPart, Kept, Disregarded, AggKey.AggScript;
    KeptHas(other.tx.outputs, Disregarded(env, p, q).value, i);
    var r := Recipients(env, my, other, p, q, pay);
    assert other.tx.outputs[i] in r;
    var k :| 0 <= k < |r| && r[k] == other.tx.outputs[i];
    s' := PickedInSomeOrder(env, w, my, other, p, q, pay, s, k);
  }

  // ------------------------------------------------------ the other trader's signatures

  /** Inputs that are still unsigned take the other's witness. */
  function Completed(mine: Psbt, theirs: Psbt): Option<Psbt> {
    if || mine.tx != theirs.tx
       || exists i :: 0 <= i < |mine.inputs| && mine.inputs[i].wit.None? && theirs.inputs[i].wit.None? then None
    else Some(mine.(inputs := seq(|mine.inputs|,
                                  i requires 0 <= i < |mine.inputs| => Filled(mine.inputs[i], theirs.inputs[i]))))
  }

  function Filled(mine: PsbtIn, theirs: PsbtIn): PsbtIn {
    if mine.wit.None? then mine.(wit := theirs.wit) else mine
  }

  /** Completes the deposit; broadcasting it may still fail. */
  method TransferSig(d: DepositTx, theirs: Psbt, broadcast: bool) returns (d': DepositTx, r: Result<Tx, Fault>)
    ensures
      match if d.signedPsbt.None? then None else Completed(d.signedPsbt.value, theirs)
      case None => r.Err? && d' == d
      case Some(done) =>
        && d' == d.(signedPsbt := None, tx := Some(Extract(done)))
        && r == if broadcast then Ok(Extract(done)) else Err(NotBroadcast)
    ensures d.signedPsbt.Some? && theirs.tx != d.signedPsbt.value.tx ==> r.Err? && d' == d
    ensures r.Ok? ==> d.signedPsbt.Some? && Strip(r.value) == Strip(theirs.tx) == Strip(d.signedPsbt.value.tx)
  {
    d' := d;
    if d.signedPsbt.None? {
      return d', Err(Unset);
    }
    var mine := d.signedPsbt.value;
    if mine.tx != theirs.tx {
      return d', Err(DifferentTx);
    }
    var inputs := mine.inputs;
    for n := 0 to |inputs|
      invariant |inputs| == |mine.inputs|
      invariant forall i :: 0 <= i < n ==> inputs[i] == Filled(mine.inputs[i], theirs.inputs[i]) && inputs[i].wit.Some?
      invariant forall i :: n <= i < |inputs| ==> inputs[i] == mine.inputs[i]
    {
      if inputs[n].wit.None? {
        if theirs.inputs[n].wit.None? {
          return d', Err(MissingWitness);
        }
        inputs := inputs[n := inputs[n].(wit := theirs.inputs[n].wit)];
      }
    }
    var done: Psbt := mine.(inputs := inputs);
    assert Completed(mine, theirs).value.inputs == inputs;
    ExtractKeepsTx(done);
    d' := d.(signedPsbt := None, tx := Some(Extract(done)));
    r := if broadcast then Ok(Extract(done)) else Err(NotBroadcast);
  }

  /** Completion succeeds exactly when the other's is the same transaction and no
      input is unsigned on both sides. Then every input gets a witness, no own one is
      replaced, each taken one is from the input of the other's transaction that
      spends the same output, and the transaction and its identifier stay. */
  lemma CompletedIs(env: Encoding, mine: Psbt, theirs: Psbt)
    ensures Completed(mine, theirs).Some? <==>
            && mine.tx == theirs.tx
            && forall i :: 0 <= i < |mine.inputs| ==> mine.inputs[i].wit.Some? || theirs.inputs[i].wit.Some?
    ensures Completed(mine, theirs).Some? ==>
              var done := Completed(mine, theirs).value;
              && done.tx == mine.tx && env.Txid(Extract(done)) == env.Txid(Extract(mine)) == env.Txid(theirs.tx)
              && Strip(Extract(done)) == Strip(Extract(mine))
              && forall i :: 0 <= i < |mine.inputs| ==>
                   && done.inputs[i].wit.Some?
                   && Extract(done).inputs[i] == mine.tx.inputs[i].(wit := done.inputs[i].wit.value)
                   && (mine.inputs[i].wit.Some? ==> done.inputs[i].wit == mine.inputs[i].wit)
                   && (mine.inputs[i].wit.None? ==>
                         && done.inputs[i].wit == theirs.inputs[i].wit
                         && theirs.tx.inputs[i].prev == done.tx.inputs[i].prev)
  {
    ExtractKeepsTx(mine);
    ExtractKeepsTx(theirs);
    if Completed(mine, theirs).Some? {
      ExtractKeepsTx(Completed(mine, theirs).value);
    }
  }

  /** Exactly one of the two has signed each input. */
  ghost predicate EachSignedOnce(mine: Psbt, theirs: Psbt) {
    && mine.tx == theirs.tx
    && forall i :: 0 <= i < |mine.inputs| ==> mine.inputs[i].wit.Some? != theirs.inputs[i].wit.Some?
  }

  /** Then both complete it, and to the same signed transaction. */
  lemma CompletionConverges(mine: Psbt, theirs: Psbt)
    requires EachSignedOnce(mine, theirs)
    ensures Completed(mine, theirs).Some? && Completed(theirs, mine).Some?
    ensures Extract(Completed(mine, theirs).value) == Extract(Completed(theirs, mine).value)
  {
    var a, b := Completed(mine, theirs).value, Completed(theirs, mine).value;
    assert Extract(a).inputs == Extract(b).inputs;
  }

  /** If each trader's wallet signs just the inputs it brought, each input of the
      merged transactions is signed once. */
  lemma SignedOnce(env: Encoding, w: Wallet, w': Wallet, my: Psbt, other: Psbt,
                   p: AggKey, q: AggKey, p': AggKey, q': AggKey, pay: Amounts, s: Shuffles, s': Shuffles)
    requires OwnPart(w, my) && OwnPart(w', other) && Fair(s) && Fair(s')
    requires SignsOwn(w, my) && SignsOwn(w', other) && NotMine(w, other) && NotMine(w', my)
    requires DistinctOutpoints(my, other)
    requires Merged(env, w, my, other, p, q, pay, s).Some? && Merged(env, w', other, my, p', q', pay, s').Some?
    requires Merged(env, w, my, other, p, q, pay, s).value.tx == Merged(env, w', other, my, p', q', pay, s').value.tx
    ensures EachSignedOnce(Merged(env, w, my, other, p, q, pay, s).value,
                           Merged(env, w', other, my, p', q', pay, s').value)
  {
    var m, m' := Merged(env, w, my, other, p, q, pay, s).value, Merged(env, w', other, my, p', q', pay, s').value;
    forall i | 0 <= i < |m.inputs| ensures m.inputs[i].wit.Some? != m'.inputs[i].wit.Some? {
      hide Merged, NotMine, SignsOwn, OwnPart, DistinctOutpoints;
      var mine := SignedIffOwn(env, w, my, other, p, q, pay, s, i);
      var theirs := SignedIffOwn(env, w', other, my, p', q', pay, s', i);
      OneOwner(my, other, m.tx.inputs[i].prev, mine, theirs);
    }
  }

  /** The wallet knows the scripts of its inputs, and they come unsigned. */
  ghost predicate SignsOwn(w: Wallet, my: Psbt) {
    forall i :: 0 <= i < |my.inputs| ==>
      my.inputs[i].wit.None? && (my.inputs[i].utxo.Some? ==> w.mine(my.inputs[i].utxo.value.script))
  }

  ghost predicate Spends(psbt: Psbt, op: OutPoint) {
    exists i :: 0 <= i < |psbt.tx.inputs| && psbt.tx.inputs[i].prev == op
  }

  ghost predicate DistinctOutpoints(my: Psbt, other: Psbt) {
    forall i, j ::
      0 <= i < |my.tx.inputs| && 0 <= j < |other.tx.inputs| ==> my.tx.inputs[i].prev != other.tx.inputs[j].prev
  }

  lemma OneOwner(my: Psbt, other: Psbt, op: OutPoint, mine: bool, theirs: bool)
    requires DistinctOutpoints(my, other)
    requires if mine then Spends(my, op) else Spends(other, op)
    requires if theirs then Spends(other, op) else Spends(my, op)
    ensures mine != theirs
  {
  }

  ghost predicate NoWitness(psbt: Psbt) {
    forall i :: 0 <= i < |psbt.inputs| ==> psbt.inputs[i].wit.None?
  }

  lemma BuiltInOrder(env: Encoding, w: Wallet, my: Psbt, other: Psbt, p: AggKey, q: AggKey, pay: Amounts, s: Shuffles)
    returns (built: Psbt)
    requires OwnPart(w, my)
    requires Merged(env, w, my, other, p, q, pay, s).Some?
    ensures Merged(env, w, my, other, p, q, pay, s) == Some(SignedBy(w, SortedPsbt(env, built)))
    ensures built.inputs == Seconds(s.ins(AllUtxos(w, my, other)))
    ensures built.tx.inputs == PlainIns(s.ins(AllUtxos(w, my, other)))
  {
    hide Finished, Recipients, SortedPsbt, SignedBy, InputTotal, Total, AllUtxos, AsUnsigned;
    var recipients, utxos := Recipients(env, my, other, p, q, pay), AllUtxos(w, my, other);
    FundsOfBoth(w, my, other);
    ExactFee(w, utxos, recipients, s);
    built := Finished(w, utxos, recipients, AsUnsigned(Surplus(env, my, other, p, q, pay)), s).value;
  }

  /** Input i of a merged transaction is one of the two parts', with its entry. */
  lemma MergedEntry(env: Encoding, w: Wallet, my: Psbt, other: Psbt, p: AggKey, q: AggKey, pay: Amounts, s: Shuffles,
                    i: nat)
    returns (u: Utxo)
    requires OwnPart(w, my) && Fair(s)
    requires Merged(env, w, my, other, p, q, pay, s).Some?
    requires i < |Merged(env, w, my, other, p, q, pay, s).value.inputs|
    ensures u in AllUtxos(w, my, other)
    ensures
      var m := Merged(env, w, my, other, p, q, pay, s).value;
      && m.tx.inputs[i] == PlainIn(u)
      && m.inputs[i] == if u.1.utxo.Some? && w.mine(u.1.utxo.value.script)
                        then u.1.(wit := Some(WalletWitness(w.sign(u.0, Strip(m.tx)))))
                        else u.1
  {
    hide Merged, SortedPsbt, AllUtxos;
    var utxos := AllUtxos(w, my, other);
    var built := BuiltInOrder(env, w, my, other, p, q, pay, s);
    var sorted := SortedPsbt(env, built);
    SortKeepsPairs(env, built);
    var pairs, ordered := Zip(built.inputs, built.tx.inputs), Zip(sorted.inputs, sorted.tx.inputs);
    assert ordered[i] in multiset(ordered);
    assert ordered[i] in multiset(pairs);
    var j :| 0 <= j < |pairs| && pairs[j] == ordered[i];
    u := s.ins(utxos)[j];
    assert u in multiset(s.ins(utxos));
    assert u in multiset(utxos);
  }

  /** Whether the wallet signed input i of its merged transaction, which is
      whether the input is from its own part. */
  lemma SignedIffOwn(env: Encoding, w: Wallet, my: Psbt, other: Psbt, p: AggKey, q: AggKey, pay: Amounts, s: Shuffles,
                     i: nat)
    returns (mine: bool)
    requires OwnPart(w, my) && SignsOwn(w, my) && NotMine(w, other) && NoWitness(other) && Fair(s)
    requires Merged(env, w, my, other, p, q, pay, s).Some?
    requires i < |Merged(env, w, my, other, p, q, pay, s).value.inputs|
    ensures
      var m := Merged(env, w, my, other, p, q, pay, s).value;
      && mine == m.inputs[i].wit.Some?
      && if mine then Spends(my, m.tx.inputs[i].prev) else Spends(other, m.tx.inputs[i].prev)
  {
    hide Merged;
    var m := Merged(env, w, my, other, p, q, pay, s).value;
    var u := MergedEntry(env, w, my, other, p, q, pay, s, i);
    var a, b := UtxosOf(w, my, false), UtxosOf(w, other, true);
    var j :| 0 <= j < |a + b| && (a + b)[j] == u;
    mine := j < |a|;
    if mine {
      assert u == UtxoOf(w, my.inputs[j], my.tx.inputs[j].prev, false);
    } else {
      assert u == UtxoOf(w, other.inputs[j - |a|], other.tx.inputs[j - |a|].prev, true);
    }
  }
}
