/** Numbers that tell transactions apart: identifiers without collisions exist. */
module TxNumbers {
  import opened Scalars
  import opened Transactions

  /** 2^a * (2 * b + 1). */
  function Pair(a: nat, b: nat): nat {
    if a == 0 then 2 * b + 1 else 2 * Pair(a - 1, b)
  }

  function NumberAll<A(!new)>(s: seq<A>, number: A -> nat): nat {
    if s == [] then 0 else Pair(number(s[|s| - 1]), NumberAll(s[..|s| - 1], number))
  }

  function ScriptNumber(s: Script): nat {
    match s
    case P2tr(key) => 2 * key.log
    case OtherScript(id) => 2 * id + 1
  }

  function OutNumber(o: TxOut): nat {
    Pair(o.value, ScriptNumber(o.script))
  }

  /** Of an input without its witness. */
  function InNumber(i: TxIn): nat {
    Pair(Pair(i.prev.txid, i.prev.vout), i.sequence)
  }

  /** At least 3; the smaller numbers are left for other things. */
  function TxNumber(tx: Tx): nat {
    3 + Pair(NumberAll(tx.inputs, InNumber), NumberAll(tx.outputs, OutNumber))
  }

  lemma {:induction false} PairDiffers(a: nat, b: nat, c: nat, d: nat)
    requires Pair(a, b) == Pair(c, d)
    ensures a == c && b == d
  {
    if a > 0 && c > 0 {
      PairDiffers(a - 1, b, c - 1, d);
    }
  }

  lemma {:induction false} PairPositive(a: nat, b: nat)
    ensures Pair(a, b) > 0
  {
    if a > 0 {
      PairPositive(a - 1, b);
    }
  }

  /** Equal numbers of lists mean equal numbers of their elements. */
  lemma {:induction false} AllDiffer<A(!new)>(s: seq<A>, t: seq<A>, number: A -> nat)
    requires NumberAll(s, number) == NumberAll(t, number)
    ensures |s| == |t| && forall i :: 0 <= i < |s| ==> number(s[i]) == number(t[i])
  {
    if s == [] || t == [] {
      if s != [] {
        PairPositive(number(s[|s| - 1]), NumberAll(s[..|s| - 1], number));
      }
      if t != [] {
        PairPositive(number(t[|t| - 1]), NumberAll(t[..|t| - 1], number));
      }
    } else {
      var m, n := |s| - 1, |t| - 1;
      PairDiffers(number(s[m]), NumberAll(s[..m], number), number(t[n]), NumberAll(t[..n], number));
      AllDiffer(s[..m], t[..n], number);
    }
  }

  lemma OutsDiffer(o: TxOut, o': TxOut)
    requires OutNumber(o) == OutNumber(o')
    ensures o == o'
  {
    PairDiffers(o.value, ScriptNumber(o.script), o'.value, ScriptNumber(o'.script));
  }

  lemma InsDiffer(i: TxIn, i': TxIn)
    requires InNumber(i) == InNumber(i')
    ensures Bare(i) == Bare(i')
  {
    PairDiffers(Pair(i.prev.txid, i.prev.vout), i.sequence, Pair(i'.prev.txid, i'.prev.vout), i'.sequence);
    PairDiffers(i.prev.txid, i.prev.vout, i'.prev.txid, i'.prev.vout);
  }

  /** Transactions with one number are the same but for their witnesses. */
  lemma TxsDiffer(tx: Tx, tx': Tx)
    requires TxNumber(tx) == TxNumber(tx')
    ensures Strip(tx) == Strip(tx')
  {
    hide Pair, NumberAll, InNumber, OutNumber;
    PairDiffers(NumberAll(tx.inputs, InNumber), NumberAll(tx.outputs, OutNumber),
                NumberAll(tx'.inputs, InNumber), NumberAll(tx'.outputs, OutNumber));
    AllDiffer(tx.inputs, tx'.inputs, InNumber);
    AllDiffer(tx.outputs, tx'.outputs, OutNumber);
    forall i | 0 <= i < |tx.inputs| ensures Strip(tx).inputs[i] == Strip(tx').inputs[i] {
      InsDiffer(tx.inputs[i], tx'.inputs[i]);
    }
    forall i | 0 <= i < |tx.outputs| ensures tx.outputs[i] == tx'.outputs[i] {
      OutsDiffer(tx.outputs[i], tx'.outputs[i]);
    }
    assert Strip(tx).inputs == Strip(tx').inputs && Strip(tx).outputs == Strip(tx').outputs;
  }
}
