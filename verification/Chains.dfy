/** A chain of blocks as a set of unspent outputs: blocks are added, coins are
    minted, and any transactions whatever are confirmed, within the rules on
    double spending, values and relative lock times (BIP 68, section "Specification"). */
module Chains {
  import opened Results
  import opened Transactions

  datatype Coin = Coin(out: TxOut, height: nat)

  datatype Entry = Entry(tx: Tx, height: nat, fee: nat)

  /** height is that of the block being filled; mints holds the heights of minted
      coins, spent ones included; log lists what was confirmed. */
  datatype Chain = Chain(
    height: nat, coins: map<OutPoint, Coin>, mints: map<OutPoint, nat>, spent: set<OutPoint>, log: seq<Entry>,
    fees: nat, minted: nat)

  /** The number of blocks that must lie between the coin and its spending. Bit 22,
      which makes the lower bits a time, is not looked at: locks of this kind, which
      the protocol does not use, count as numbers of blocks. */
  function RelativeHeight(sequence: U32): nat {
    if sequence >= 0x8000_0000 then 0 else sequence % 0x1_0000
  }

  /** Small numbers are heights, bit 31 switches the lock off, and of other numbers
      the lower 16 bits count (BIP 68, section "Specification"). */
  lemma LockIs(sequence: U32)
    ensures sequence < 65536 ==> RelativeHeight(sequence) == sequence
    ensures sequence >= 2147483648 ==> RelativeHeight(sequence) == 0
    ensures sequence < 2147483648 ==>
              RelativeHeight(sequence) < 65536 && (sequence - RelativeHeight(sequence)) % 65536 == 0
  {
  }

  function SpentBy(tx: Tx): set<OutPoint> {
    set i | 0 <= i < |tx.inputs| :: tx.inputs[i].prev
  }

  /** Coins minus the outpoints these inputs name. */
  function Without(coins: map<OutPoint, Coin>, inputs: seq<TxIn>): map<OutPoint, Coin> {
    if inputs == [] then coins
    else Without(coins, inputs[..|inputs| - 1]) - {inputs[|inputs| - 1].prev}
  }

  function InValue(coins: map<OutPoint, Coin>, inputs: seq<TxIn>): nat {
    if inputs == [] then 0
    else
      var last := inputs[|inputs| - 1].prev;
      InValue(coins, inputs[..|inputs| - 1]) + if last in coins then coins[last].out.value else 0
  }

  /** Coins plus these outputs of the transaction with this identifier. */
  function With(coins: map<OutPoint, Coin>, txid: nat, outputs: seq<TxOut>, height: nat): map<OutPoint, Coin>
    requires |outputs| <= 0x1_0000_0000
  {
    if outputs == [] then coins
    else
      var n := |outputs| - 1;
      With(coins, txid, outputs[..n], height)[OutPoint(txid, n) := Coin(outputs[n], height)]
  }

  predicate Mature(c: Chain, i: TxIn) {
    i.prev in c.coins && c.height >= c.coins[i.prev].height + RelativeHeight(i.sequence)
  }

  predicate Confirmable(c: Chain, tx: Tx) {
    && 0 < |tx.inputs| && |tx.outputs| < 0x1_0000_0000
    && (forall i, j :: 0 <= i < j < |tx.inputs| ==> tx.inputs[i].prev != tx.inputs[j].prev)
    && (forall i :: 0 <= i < |tx.inputs| ==> Mature(c, tx.inputs[i]))
    && Total(tx.outputs) <= InValue(c.coins, tx.inputs)
  }

  function Fee(c: Chain, tx: Tx): nat
    requires Confirmable(c, tx)
  {
    InValue(c.coins, tx.inputs) - Total(tx.outputs)
  }

  function Confirmed(env: Encoding, c: Chain, tx: Tx): Chain
    requires Confirmable(c, tx)
  {
    c.(coins := With(Without(c.coins, tx.inputs), env.Txid(tx), tx.outputs, c.height),
       spent := c.spent + SpentBy(tx),
       log := c.log + [Entry(tx, c.height, Fee(c, tx))],
       fees := c.fees + Fee(c, tx))
  }

  datatype Step = NextBlock | Mint(op: OutPoint, out: TxOut) | Confirm(tx: Tx)

  /** The identifier of a minting transaction is not that of one with inputs. */
  ghost predicate Minting(env: Encoding, txid: nat) {
    forall tx: Tx :: tx.inputs != [] ==> env.Txid(tx) != txid
  }

  ghost predicate Mintable(env: Encoding, c: Chain, op: OutPoint) {
    Minting(env, op.txid) && op !in c.mints && op !in c.coins && op !in c.spent
  }

  function Minted(c: Chain, op: OutPoint, out: TxOut): Chain {
    c.(coins := c.coins[op := Coin(out, c.height)], mints := c.mints[op := c.height], minted := c.minted + out.value)
  }

  ghost function Apply(env: Encoding, c: Chain, step: Step): Chain {
    match step
    case NextBlock => c.(height := c.height + 1)
    case Mint(op, out) => if Mintable(env, c, op) then Minted(c, op, out) else c
    case Confirm(tx) => if Confirmable(c, tx) then Confirmed(env, c, tx) else c
  }

  ghost function Run(env: Encoding, start: Chain, steps: seq<Step>): Chain {
    if steps == [] then start
    else Apply(env, Run(env, start, steps[..|steps| - 1]), steps[|steps| - 1])
  }

  /** No two transactions without witnesses share an identifier. */
  ghost predicate CollisionFree(env: Encoding) {
    forall tx, tx' :: env.Txid(tx) == env.Txid(tx') ==> Strip(tx) == Strip(tx')
  }

  // ------------------------------------------------------ what every chain keeps

  predicate Creates(env: Encoding, e: Entry, op: OutPoint) {
    env.Txid(e.tx) == op.txid
  }

  ghost predicate Origin(env: Encoding, c: Chain, op: OutPoint) {
    op in c.mints || exists i :: 0 <= i < |c.log| && Creates(env, c.log[i], op)
  }

  /** The confirmed transaction made the coin, in its block. */
  ghost predicate Made(env: Encoding, e: Entry, op: OutPoint, coin: Coin) {
    && Creates(env, e, op) && coin.height == e.height
    && op.vout < |e.tx.outputs| && coin.out == e.tx.outputs[op.vout]
  }

  /** The coin was minted, or made by a confirmed transaction, in the block it names. */
  ghost predicate Rooted(env: Encoding, c: Chain, op: OutPoint)
    requires op in c.coins
  {
    && c.coins[op].height <= c.height
    && (|| (op in c.mints && c.coins[op].height == c.mints[op])
        || exists i :: 0 <= i < |c.log| && Made(env, c.log[i], op, c.coins[op]))
  }

  /** Input k of the j-th transaction was mature: the coin it spends was minted, or
      made by an earlier transaction, at least its lock time of blocks before. */
  ghost predicate SpentMature(env: Encoding, c: Chain, j: nat, k: nat)
    requires j < |c.log| && k < |c.log[j].tx.inputs|
  {
    var input := c.log[j].tx.inputs[k];
    || (input.prev in c.mints && c.log[j].height >= c.mints[input.prev] + RelativeHeight(input.sequence))
    || exists i :: 0 <= i < j && Creates(env, c.log[i], input.prev)
                   && c.log[j].height >= c.log[i].height + RelativeHeight(input.sequence)
  }

  ghost predicate NoDoubleSpend(c: Chain) {
    forall i, j :: 0 <= i < j < |c.log| ==> SpentBy(c.log[i].tx) !! SpentBy(c.log[j].tx)
  }

  ghost predicate Sound(env: Encoding, c: Chain) {
    && c.coins.Keys !! c.spent
    && (forall i :: 0 <= i < |c.log| ==> c.log[i].tx.inputs != [] && SpentBy(c.log[i].tx) <= c.spent)
    && (forall op :: op in c.mints ==> Minting(env, op.txid))
    && (forall op :: op in c.spent ==> Origin(env, c, op))
    && (forall op :: op in c.coins ==> Rooted(env, c, op))
    && NoDoubleSpend(c)
  }

  /** From position from of the log on. */
  ghost predicate LocksKept(env: Encoding, c: Chain, from: nat) {
    forall j, k :: from <= j < |c.log| && 0 <= k < |c.log[j].tx.inputs| ==> SpentMature(env, c, j, k)
  }

  lemma {:induction false} WithoutKeys(coins: map<OutPoint, Coin>, inputs: seq<TxIn>)
    ensures forall op :: op in Without(coins, inputs) <==>
              op in coins && forall i :: 0 <= i < |inputs| ==> inputs[i].prev != op
    ensures forall op :: op in Without(coins, inputs) ==> Without(coins, inputs)[op] == coins[op]
  {
    if inputs == [] {
    } else {
      WithoutKeys(coins, inputs[..|inputs| - 1]);
    }
  }

  lemma {:induction false} WithKeys(coins: map<OutPoint, Coin>, txid: nat, outputs: seq<TxOut>, height: nat)
    requires |outputs| <= 0x1_0000_0000
    ensures forall op :: op in With(coins, txid, outputs, height) <==>
              op in coins || (op.txid == txid && op.vout < |outputs|)
    ensures forall op :: op in With(coins, txid, outputs, height) && !(op.txid == txid && op.vout < |outputs|) ==>
              With(coins, txid, outputs, height)[op] == coins[op]
    ensures forall op :: op in With(coins, txid, outputs, height) && op.txid == txid && op.vout < |outputs| ==>
              With(coins, txid, outputs, height)[op] == Coin(outputs[op.vout], height)
  {
    if outputs == [] {
    } else {
      WithKeys(coins, txid, outputs[..|outputs| - 1], height);
    }
  }

  /** A transaction that can be confirmed was not confirmed before. */
  lemma NewTransaction(env: Encoding, c: Chain, tx: Tx, i: nat)
    requires CollisionFree(env) && Sound(env, c) && Confirmable(c, tx) && i < |c.log|
    ensures env.Txid(c.log[i].tx) != env.Txid(tx)
  {
    var before := c.log[i].tx;
    assert before.inputs[0].prev in SpentBy(before);
    assert Mature(c, tx.inputs[0]);
    assert before.inputs[0].prev != tx.inputs[0].prev;
    assert Strip(before).inputs[0].prev == before.inputs[0].prev && Strip(tx).inputs[0].prev == tx.inputs[0].prev;
    assert Strip(before) != Strip(tx);
  }

  /** So its outpoints never existed. */
  lemma NewOutpoints(env: Encoding, c: Chain, tx: Tx, op: OutPoint)
    requires CollisionFree(env) && Sound(env, c) && Confirmable(c, tx) && op.txid == env.Txid(tx)
    ensures op !in c.coins && op !in c.spent
  {
    forall i | 0 <= i < |c.log| ensures !Creates(env, c.log[i], op) {
      NewTransaction(env, c, tx, i);
    }
    assert !Minting(env, op.txid);
    assert op !in c.mints;
    assert !Origin(env, c, op);
    assert op in c.coins ==> !Rooted(env, c, op);
  }

  lemma SpendsCoins(c: Chain, tx: Tx)
    requires Confirmable(c, tx)
    ensures SpentBy(tx) <= c.coins.Keys
  {
    forall op | op in SpentBy(tx) ensures op in c.coins {
      var i :| 0 <= i < |tx.inputs| && tx.inputs[i].prev == op;
      assert Mature(c, tx.inputs[i]);
    }
  }

  lemma MintKeepsSound(env: Encoding, c: Chain, op: OutPoint, out: TxOut)
    requires Sound(env, c) && Mintable(env, c, op)
    ensures Sound(env, Minted(c, op, out))
  {
    var c' := Minted(c, op, out);
    forall o | o in c.spent ensures Origin(env, c', o) {
      assert Origin(env, c, o);
    }
    forall o | o in c'.coins ensures Rooted(env, c', o) {
      if o != op && o !in c.mints {
        assert Rooted(env, c, o);
        var i :| 0 <= i < |c.log| && Made(env, c.log[i], o, c.coins[o]);
        assert Made(env, c'.log[i], o, c'.coins[o]);
      } else if o != op {
        KeepsRoot(env, c, c', o);
      }
    }
    hide Minting, Made, Origin, SpentBy;
  }

  /** A coin keeps its root when mints and log only grow. */
  lemma KeepsRoot(env: Encoding, c: Chain, c': Chain, op: OutPoint)
    requires op in c.coins && op in c'.coins && c'.coins[op] == c.coins[op] && Rooted(env, c, op)
    requires c.height <= c'.height && |c.log| <= |c'.log| && forall i :: 0 <= i < |c.log| ==> c'.log[i] == c.log[i]
    requires forall o :: o in c.mints ==> o in c'.mints && c'.mints[o] == c.mints[o]
    ensures Rooted(env, c', op)
  {
    if !(op in c.mints && c.coins[op].height == c.mints[op]) {
      var i :| 0 <= i < |c.log| && Made(env, c.log[i], op, c.coins[op]);
      assert Made(env, c'.log[i], op, c'.coins[op]);
    }
  }

  lemma ConfirmKeepsOrigins(env: Encoding, c: Chain, tx: Tx)
    requires CollisionFree(env) && Sound(env, c) && Confirmable(c, tx)
    ensures
      var c' := Confirmed(env, c, tx);
      && (forall op :: op in c'.spent ==> Origin(env, c', op))
      && (forall op :: op in c'.coins ==> Rooted(env, c', op))
  {
    var c' := Confirmed(env, c, tx);
    var n := |c.log|;
    WithoutKeys(c.coins, tx.inputs);
    WithKeys(Without(c.coins, tx.inputs), env.Txid(tx), tx.outputs, c.height);
    SpendsCoins(c, tx);
    hide Without, With, Confirmable, SpentBy, NoDoubleSpend, Minting;
    assert forall i :: 0 <= i < n ==> c'.log[i] == c.log[i];
    forall op | op in c'.spent ensures Origin(env, c', op) {
      if op in c.spent {
        assert Origin(env, c, op);
        if op !in c.mints {
          var i :| 0 <= i < n && Creates(env, c.log[i], op);
          assert Creates(env, c'.log[i], op);
        }
      } else if op !in c.mints {
        assert Rooted(env, c, op);
        var i :| 0 <= i < n && Made(env, c.log[i], op, c.coins[op]);
        assert Creates(env, c'.log[i], op);
      }
    }
    forall op | op in c'.coins ensures Rooted(env, c', op) {
      if op.txid == env.Txid(tx) && op.vout < |tx.outputs| {
        assert Made(env, c'.log[n], op, c'.coins[op]);
      } else {
        KeepsRoot(env, c, c', op);
      }
    }
  }

  lemma ConfirmKeepsDisjoint(env: Encoding, c: Chain, tx: Tx)
    requires CollisionFree(env) && Sound(env, c) && Confirmable(c, tx)
    ensures Confirmed(env, c, tx).coins.Keys !! Confirmed(env, c, tx).spent
  {
    var c' := Confirmed(env, c, tx);
    SpendsCoins(c, tx);
    WithoutKeys(c.coins, tx.inputs);
    WithKeys(Without(c.coins, tx.inputs), env.Txid(tx), tx.outputs, c.height);
    forall op | op in c'.coins ensures op !in c'.spent {
      if op.txid == env.Txid(tx) {
        NewOutpoints(env, c, tx, op);
      }
      hide Without, With, Sound, Confirmable;
    }
  }

  lemma ConfirmDoubleSpendsNothing(env: Encoding, c: Chain, tx: Tx)
    requires Sound(env, c) && Confirmable(c, tx)
    ensures NoDoubleSpend(Confirmed(env, c, tx))
  {
    var c' := Confirmed(env, c, tx);
    var n := |c.log|;
    SpendsCoins(c, tx);
    hide Without, With, Origin, Rooted, Minting, SpentBy, Confirmable;
    forall i, j | 0 <= i < j < |c'.log| ensures SpentBy(c'.log[i].tx) !! SpentBy(c'.log[j].tx) {
      assert c'.log[i] == c.log[i] && SpentBy(c.log[i].tx) <= c.spent;
      if j < n {
        assert c'.log[j] == c.log[j];
      } else {
        assert c'.log[j].tx == tx;
      }
    }
  }

  lemma ConfirmKeepsSound(env: Encoding, c: Chain, tx: Tx)
    requires CollisionFree(env) && Sound(env, c) && Confirmable(c, tx)
    ensures Sound(env, Confirmed(env, c, tx))
  {
    ConfirmKeepsOrigins(env, c, tx);
    ConfirmKeepsDisjoint(env, c, tx);
    ConfirmDoubleSpendsNothing(env, c, tx);
    hide Without, With, Origin, Rooted, Minting, NoDoubleSpend, SpentBy;
  }

  lemma ConfirmKeepsLocks(env: Encoding, c: Chain, tx: Tx, from: nat)
    requires Sound(env, c) && LocksKept(env, c, from) && Confirmable(c, tx)
    ensures LocksKept(env, Confirmed(env, c, tx), from)
  {
    var c' := Confirmed(env, c, tx);
    var n := |c.log|;
    hide Without, With, Minting, NoDoubleSpend, SpentBy;
    forall j, k | from <= j < |c'.log| && 0 <= k < |c'.log[j].tx.inputs| ensures SpentMature(env, c', j, k) {
      if j < n {
        assert c'.log[j] == c.log[j] && SpentMature(env, c, j, k);
        var input := c.log[j].tx.inputs[k];
        if !(input.prev in c.mints && c.log[j].height >= c.mints[input.prev] + RelativeHeight(input.sequence)) {
          var i :| 0 <= i < j && Creates(env, c.log[i], input.prev)
                   && c.log[j].height >= c.log[i].height + RelativeHeight(input.sequence);
          assert Creates(env, c'.log[i], c'.log[j].tx.inputs[k].prev);
        }
      } else {
        var input := tx.inputs[k];
        assert Mature(c, input) && Rooted(env, c, input.prev);
        if !(input.prev in c.mints && c.coins[input.prev].height == c.mints[input.prev]) {
          var i :| 0 <= i < n && Made(env, c.log[i], input.prev, c.coins[input.prev]);
          assert Creates(env, c'.log[i], c'.log[j].tx.inputs[k].prev);
        }
      }
    }
  }

  /** In every run, whoever broadcasts whatever: no output is spent twice, and no
      input is confirmed before its relative lock time has passed. */
  lemma {:induction false} RunsAreSound(env: Encoding, start: Chain, steps: seq<Step>)
    requires CollisionFree(env) && Sound(env, start)
    ensures Sound(env, Run(env, start, steps)) && LocksKept(env, Run(env, start, steps), |start.log|)
  {
    if steps == [] {
    } else {
      var n := |steps| - 1;
      RunsAreSound(env, start, steps[..n]);
      StepKeepsSound(env, Run(env, start, steps[..n]), steps[n], |start.log|);
    }
  }

  lemma StepKeepsSound(env: Encoding, c: Chain, step: Step, from: nat)
    requires CollisionFree(env) && Sound(env, c) && LocksKept(env, c, from)
    ensures Sound(env, Apply(env, c, step)) && LocksKept(env, Apply(env, c, step), from)
  {
    match step
    case NextBlock =>
      SameLog(env, c, c.(height := c.height + 1), from);
    case Mint(op, out) =>
      if Mintable(env, c, op) {
        MintKeepsSound(env, c, op, out);
        SameLog(env, c, Apply(env, c, step), from);
      }
    case Confirm(tx) =>
      if Confirmable(c, tx) {
        ConfirmKeepsSound(env, c, tx);
        ConfirmKeepsLocks(env, c, tx, from);
      }
      hide Sound, LocksKept, Confirmable, Confirmed;
  }

  lemma SameLog(env: Encoding, c: Chain, c': Chain, from: nat)
    requires c'.log == c.log && c.height <= c'.height
    requires forall op :: op in c.mints ==> op in c'.mints && c'.mints[op] == c.mints[op]
    ensures LocksKept(env, c, from) ==> LocksKept(env, c', from)
    ensures c'.coins == c.coins && c'.spent == c.spent && c'.mints == c.mints && Sound(env, c) ==> Sound(env, c')
  {
    if LocksKept(env, c, from) {
      forall j, k | from <= j < |c'.log| && 0 <= k < |c'.log[j].tx.inputs| ensures SpentMature(env, c', j, k) {
        assert SpentMature(env, c, j, k);
      }
    }
    if c'.coins == c.coins && c'.spent == c.spent && c'.mints == c.mints && Sound(env, c) {
      forall op | op in c'.spent ensures Origin(env, c', op) {
        assert Origin(env, c, op);
      }
      forall op | op in c'.coins ensures Rooted(env, c', op) {
        KeepsRoot(env, c, c', op);
      }
    }
  }

  // ------------------------------------------------------ value

  /** The value of all unspent outputs. */
  ghost function Value(coins: map<OutPoint, Coin>): nat {
    if coins == map[] then 0
    else
      var op :| op in coins;
      coins[op].out.value + Value(coins - {op})
  }

  lemma {:induction false} ValueWithout(coins: map<OutPoint, Coin>, op: OutPoint)
    requires op in coins
    ensures Value(coins) == coins[op].out.value + Value(coins - {op})
    decreases |coins|
  {
    var first :| first in coins && Value(coins) == coins[first].out.value + Value(coins - {first});
    if first != op {
      ValueWithout(coins - {first}, op);
      ValueWithout(coins - {op}, first);
      assert coins - {first} - {op} == coins - {op} - {first};
    }
  }

  lemma ValueWith(coins: map<OutPoint, Coin>, op: OutPoint, coin: Coin)
    requires op !in coins
    ensures Value(coins[op := coin]) == Value(coins) + coin.out.value
  {
    hide Value;
    ValueWithout(coins[op := coin], op);
    assert coins[op := coin] - {op} == coins;
  }

  lemma {:induction false} ValueSpent(coins: map<OutPoint, Coin>, inputs: seq<TxIn>)
    requires forall i, j :: 0 <= i < j < |inputs| ==> inputs[i].prev != inputs[j].prev
    requires forall i :: 0 <= i < |inputs| ==> inputs[i].prev in coins
    ensures Value(Without(coins, inputs)) + InValue(coins, inputs) == Value(coins)
  {
    if inputs == [] {
    } else {
      var n := |inputs| - 1;
      ValueSpent(coins, inputs[..n]);
      WithoutKeys(coins, inputs[..n]);
      ValueWithout(Without(coins, inputs[..n]), inputs[n].prev);
    }
  }

  lemma {:induction false} ValueMade(coins: map<OutPoint, Coin>, txid: nat, outputs: seq<TxOut>, height: nat)
    requires |outputs| <= 0x1_0000_0000
    requires forall op :: op in coins ==> op.txid != txid
    ensures Value(With(coins, txid, outputs, height)) == Value(coins) + Total(outputs)
  {
    if outputs == [] {
    } else {
      var n := |outputs| - 1;
      ValueMade(coins, txid, outputs[..n], height);
      WithKeys(coins, txid, outputs[..n], height);
      hide Value;
      ValueWith(With(coins, txid, outputs[..n], height), OutPoint(txid, n), Coin(outputs[n], height));
    }
  }

  ghost predicate Conserved(c: Chain) {
    Value(c.coins) + c.fees == c.minted
  }

  lemma ConfirmConserves(env: Encoding, c: Chain, tx: Tx)
    requires CollisionFree(env) && Sound(env, c) && Confirmable(c, tx)
    ensures Conserved(c) <==> Conserved(Confirmed(env, c, tx))
  {
    forall i | 0 <= i < |tx.inputs| ensures tx.inputs[i].prev in c.coins {
      assert Mature(c, tx.inputs[i]);
    }
    ValueSpent(c.coins, tx.inputs);
    LeftIsOlder(env, c, tx);
    ValueMade(Without(c.coins, tx.inputs), env.Txid(tx), tx.outputs, c.height);
    hide Value, Without, With, InValue, Total, Sound;
  }

  /** Unspent value and fees always add up to what was minted. */
  lemma {:induction false} RunsConserve(env: Encoding, start: Chain, steps: seq<Step>)
    requires CollisionFree(env) && Sound(env, start) && Conserved(start)
    ensures Conserved(Run(env, start, steps))
  {
    if steps == [] {
    } else {
      var n := |steps| - 1;
      RunsConserve(env, start, steps[..n]);
      RunsAreSound(env, start, steps[..n]);
      var c := Run(env, start, steps[..n]);
      match steps[n]
      case NextBlock =>
      case Mint(op, out) =>
        if Mintable(env, c, op) {
          ValueWith(c.coins, op, Coin(out, c.height));
        }
        hide Sound, LocksKept, Value;
      case Confirm(tx) =>
        if Confirmable(c, tx) {
          ConfirmConserves(env, c, tx);
        }
        hide Sound, LocksKept, Value, Confirmed, Confirmable, Conserved;
    }
  }

  // ------------------------------------------------------ value behind chosen outpoints

  /** The unspent ones among these outpoints. */
  function Within(coins: map<OutPoint, Coin>, ops: set<OutPoint>): map<OutPoint, Coin> {
    map op | op in coins && op in ops :: coins[op]
  }

  /** The value of those outputs of a transaction that are among these outpoints. */
  function Landing(ops: set<OutPoint>, txid: nat, outputs: seq<TxOut>): nat
    requires |outputs| <= 0x1_0000_0000
  {
    if outputs == [] then 0
    else
      var n := |outputs| - 1;
      Landing(ops, txid, outputs[..n]) + if OutPoint(txid, n) in ops then outputs[n].value else 0
  }

  /** A transaction that spends none of the outpoints and makes none leaves their value alone. */
  lemma OutsideStep(env: Encoding, c: Chain, tx: Tx, ops: set<OutPoint>)
    requires Confirmable(c, tx) && SpentBy(tx) * ops == {}
    requires forall op :: op in ops ==> op.txid != env.Txid(tx)
    ensures Within(Confirmed(env, c, tx).coins, ops) == Within(c.coins, ops)
  {
    WithoutKeys(c.coins, tx.inputs);
    WithKeys(Without(c.coins, tx.inputs), env.Txid(tx), tx.outputs, c.height);
    forall i | 0 <= i < |tx.inputs| ensures tx.inputs[i].prev !in ops {
      var op := tx.inputs[i].prev;
      assert op in SpentBy(tx) && op !in SpentBy(tx) * ops;
    }
    hide Without, With, Confirmable, SpentBy;
  }

  lemma {:induction false} InValueWithin(coins: map<OutPoint, Coin>, inputs: seq<TxIn>, ops: set<OutPoint>)
    requires forall i :: 0 <= i < |inputs| ==> inputs[i].prev in ops
    ensures InValue(Within(coins, ops), inputs) == InValue(coins, inputs)
  {
    if inputs == [] {
    } else {
      InValueWithin(coins, inputs[..|inputs| - 1], ops);
    }
  }

  lemma {:induction false} ValueLanded(coins: map<OutPoint, Coin>, ops: set<OutPoint>, txid: nat, outputs: seq<TxOut>,
                                       height: nat)
    requires |outputs| <= 0x1_0000_0000
    requires forall op :: op in coins ==> op.txid != txid
    ensures Value(Within(With(coins, txid, outputs, height), ops))
            == Value(Within(coins, ops)) + Landing(ops, txid, outputs)
  {
    if outputs == [] {
    } else {
      var n := |outputs| - 1;
      ValueLanded(coins, ops, txid, outputs[..n], height);
      WithKeys(coins, txid, outputs[..n], height);
      hide Value, Within;
      var before, op := With(coins, txid, outputs[..n], height), OutPoint(txid, n);
      WithinPut(before, ops, op, Coin(outputs[n], height));
      if op in ops {
        ValueWith(Within(before, ops), op, Coin(outputs[n], height));
      }
    }
  }

  lemma WithinPut(coins: map<OutPoint, Coin>, ops: set<OutPoint>, op: OutPoint, coin: Coin)
    requires op !in coins
    ensures op !in Within(coins, ops)
    ensures Within(coins[op := coin], ops) == if op in ops then Within(coins, ops)[op := coin] else Within(coins, ops)
  {
  }

  lemma WithinSpent(coins: map<OutPoint, Coin>, inputs: seq<TxIn>, ops: set<OutPoint>)
    requires forall i, j :: 0 <= i < j < |inputs| ==> inputs[i].prev != inputs[j].prev
    requires forall i :: 0 <= i < |inputs| ==> inputs[i].prev in coins && inputs[i].prev in ops
    ensures Value(Within(Without(coins, inputs), ops)) + InValue(coins, inputs) == Value(Within(coins, ops))
  {
    ValueSpent(Within(coins, ops), inputs);
    InValueWithin(coins, inputs, ops);
    WithinWithout(coins, inputs, ops);
  }

  lemma {:induction false} WithinWithout(coins: map<OutPoint, Coin>, inputs: seq<TxIn>, ops: set<OutPoint>)
    ensures Within(Without(coins, inputs), ops) == Without(Within(coins, ops), inputs)
  {
    if inputs == [] {
    } else {
      WithinWithout(coins, inputs[..|inputs| - 1], ops);
    }
  }

  lemma LeftIsOlder(env: Encoding, c: Chain, tx: Tx)
    requires CollisionFree(env) && Sound(env, c) && Confirmable(c, tx)
    ensures forall op :: op in Without(c.coins, tx.inputs) ==> op.txid != env.Txid(tx)
  {
    WithoutKeys(c.coins, tx.inputs);
    hide Without, Sound, Confirmable;
    forall op | op in c.coins ensures op.txid != env.Txid(tx) {
      if op.txid == env.Txid(tx) {
        NewOutpoints(env, c, tx, op);
        assert false;
      }
    }
  }

  /** A transaction that spends these outpoints only pays its inputs out again:
      to some of them, to other outputs, and as fee. */
  lemma InsideStep(env: Encoding, c: Chain, tx: Tx, ops: set<OutPoint>)
    requires CollisionFree(env) && Sound(env, c) && Confirmable(c, tx) && SpentBy(tx) <= ops
    ensures Value(Within(Confirmed(env, c, tx).coins, ops)) + Total(tx.outputs) + Fee(c, tx)
            == Value(Within(c.coins, ops)) + Landing(ops, env.Txid(tx), tx.outputs)
  {
    hide Value, Without, With, InValue, Total, Sound, Within;
    forall i | 0 <= i < |tx.inputs| ensures tx.inputs[i].prev in c.coins && tx.inputs[i].prev in ops {
      assert Mature(c, tx.inputs[i]) && tx.inputs[i].prev in SpentBy(tx);
    }
    WithinSpent(c.coins, tx.inputs, ops);
    LeftIsOlder(env, c, tx);
    ValueLanded(Without(c.coins, tx.inputs), ops, env.Txid(tx), tx.outputs, c.height);
  }

  lemma {:induction false} NothingLands(ops: set<OutPoint>, txid: nat, outputs: seq<TxOut>)
    requires |outputs| <= 0x1_0000_0000
    requires forall op :: op in ops ==> op.txid != txid
    ensures Landing(ops, txid, outputs) == 0
  {
    if outputs == [] {
    } else {
      NothingLands(ops, txid, outputs[..|outputs| - 1]);
    }
  }

  /** A transaction that spends one of the outpoints, and others' coins besides,
      takes away the value of that one. */
  lemma TakingStep(env: Encoding, c: Chain, tx: Tx, ops: set<OutPoint>, op: OutPoint)
    requires Confirmable(c, tx) && op in c.coins && SpentBy(tx) * ops == {op}
    requires forall o :: o in ops ==> o.txid != env.Txid(tx)
    ensures Value(Within(Confirmed(env, c, tx).coins, ops)) + c.coins[op].out.value == Value(Within(c.coins, ops))
  {
    hide Value, Within, Confirmed, Confirmable, SpentBy;
    var after := Confirmed(env, c, tx).coins;
    assert op in SpentBy(tx) * ops;
    assert SpentBy(tx) * (ops - {op}) == {};
    OutsideStep(env, c, tx, ops - {op});
    SpentIsGone(env, c, tx, op);
    WithinButOne(c.coins, ops, op);
    WithinButOne(after, ops, op);
    WithinAt(c.coins, ops, op);
    ValueWithout(Within(c.coins, ops), op);
  }

  lemma WithinAt(coins: map<OutPoint, Coin>, ops: set<OutPoint>, op: OutPoint)
    requires op in coins && op in ops
    ensures op in Within(coins, ops) && Within(coins, ops)[op] == coins[op]
  {
  }

  lemma WithinButOne(coins: map<OutPoint, Coin>, ops: set<OutPoint>, op: OutPoint)
    ensures Within(coins, ops - {op}) == Within(coins, ops) - {op}
    ensures op !in coins ==> Within(coins, ops) - {op} == Within(coins, ops)
  {
  }

  lemma SpentIsGone(env: Encoding, c: Chain, tx: Tx, op: OutPoint)
    requires Confirmable(c, tx) && op in SpentBy(tx) && op.txid != env.Txid(tx)
    ensures op !in Confirmed(env, c, tx).coins
  {
    WithoutKeys(c.coins, tx.inputs);
    WithKeys(Without(c.coins, tx.inputs), env.Txid(tx), tx.outputs, c.height);
    hide Without, With, Confirmable;
  }

  /** A coin stays as it is until it is spent, and is never made again. */
  lemma {:induction false} CoinStays(env: Encoding, start: Chain, steps: seq<Step>, op: OutPoint, coin: Coin)
    requires CollisionFree(env) && Sound(env, start)
    requires (op in start.coins && start.coins[op] == coin) || op in start.spent
    ensures
      var c := Run(env, start, steps);
      (op in c.coins && c.coins[op] == coin) || op in c.spent
  {
    if steps == [] {
    } else {
      var n := |steps| - 1;
      CoinStays(env, start, steps[..n], op, coin);
      RunsAreSound(env, start, steps[..n]);
      CoinStaysOnce(env, Run(env, start, steps[..n]), steps[n], op);
      hide Sound, LocksKept, Apply;
    }
  }

  lemma CoinStaysOnce(env: Encoding, c: Chain, step: Step, op: OutPoint)
    requires CollisionFree(env) && Sound(env, c) && (op in c.coins || op in c.spent)
    ensures
      var c' := Apply(env, c, step);
      (op in c.coins && op in c'.coins && c'.coins[op] == c.coins[op]) || op in c'.spent
  {
    hide Sound;
    if step.Confirm? && Confirmable(c, step.tx) {
      var tx := step.tx;
      WithoutKeys(c.coins, tx.inputs);
      WithKeys(Without(c.coins, tx.inputs), env.Txid(tx), tx.outputs, c.height);
      if op.txid == env.Txid(tx) {
        NewOutpoints(env, c, tx, op);
      }
    }
    hide With, Without, Confirmable;
  }

  /** The log only grows. */
  lemma {:induction false} LogGrows(env: Encoding, start: Chain, steps: seq<Step>)
    ensures start.log <= Run(env, start, steps).log
  {
    if steps == [] {
    } else {
      LogGrows(env, start, steps[..|steps| - 1]);
      hide With, Without, Confirmable;
    }
  }

  /** What is spent was so at the start, or is spent by a transaction of the run. */
  lemma {:induction false} SpentInRun(env: Encoding, start: Chain, steps: seq<Step>, op: OutPoint) returns (j: nat)
    requires op in Run(env, start, steps).spent && op !in start.spent
    ensures |start.log| <= j < |Run(env, start, steps).log| && op in SpentBy(Run(env, start, steps).log[j].tx)
  {
    hide With, Without, Confirmable, SpentBy;
    assert steps != [];
    var n := |steps| - 1;
    var c := Run(env, start, steps[..n]);
    LogGrows(env, start, steps[..n]);
    if op in c.spent {
      j := SpentInRun(env, start, steps[..n], op);
    } else {
      j := |c.log|;
    }
  }

  /** A run spends nothing that was spent before it. */
  lemma {:induction false} SpentAnew(env: Encoding, start: Chain, steps: seq<Step>, j: nat)
    requires CollisionFree(env) && Sound(env, start) && |start.log| <= j < |Run(env, start, steps).log|
    ensures SpentBy(Run(env, start, steps).log[j].tx) !! start.spent
  {
    assert steps != [];
    hide Sound, LocksKept, Apply, SpentBy, Confirmable;
    var n := |steps| - 1;
    var before := Run(env, start, steps[..n]);
    RunsAreSound(env, start, steps[..n]);
    SpentStays(env, start, steps[..n]);
    StepOfLog(env, before, steps[n]);
    if j < |before.log| {
      SpentAnew(env, start, steps[..n], j);
    } else {
      SpendsCoins(before, steps[n].tx);
      CoinsAreUnspent(env, before);
    }
  }

  lemma CoinsAreUnspent(env: Encoding, c: Chain)
    requires Sound(env, c)
    ensures c.coins.Keys !! c.spent
  {
  }

  lemma {:induction false} SpentStays(env: Encoding, start: Chain, steps: seq<Step>)
    ensures start.spent <= Run(env, start, steps).spent
  {
    if steps == [] {
    } else {
      SpentStays(env, start, steps[..|steps| - 1]);
      hide With, Without, Confirmable, SpentBy;
    }
  }

  /** What a transaction of the run made is unspent or spent at its end. */
  lemma {:induction false} MadeInRun(env: Encoding, start: Chain, steps: seq<Step>, j: nat, vout: U32)
    requires CollisionFree(env) && Sound(env, start)
    requires |start.log| <= j < |Run(env, start, steps).log| && vout < |Run(env, start, steps).log[j].tx.outputs|
    ensures
      var c := Run(env, start, steps);
      var op := OutPoint(env.Txid(c.log[j].tx), vout);
      op in c.coins || op in c.spent
  {
    if steps == [] {
      assert false;
    } else {
      hide Sound, LocksKept, Apply;
      var n := |steps| - 1;
      var before := Run(env, start, steps[..n]);
      var op := OutPoint(env.Txid(Run(env, start, steps).log[j].tx), vout);
      RunsAreSound(env, start, steps[..n]);
      StepOfLog(env, before, steps[n]);
      if j < |before.log| {
        MadeInRun(env, start, steps[..n], j, vout);
        CoinStaysOnce(env, before, steps[n], op);
      } else {
        MadeNow(env, before, steps[n].tx, vout);
      }
    }
  }

  /** A step adds nothing to the log, or the transaction it confirms. */
  lemma StepOfLog(env: Encoding, c: Chain, step: Step)
    ensures
      var c' := Apply(env, c, step);
      if step.Confirm? && Confirmable(c, step.tx) then c' == Confirmed(env, c, step.tx)
      else c'.log == c.log && c'.spent == c.spent
  {
    hide Confirmable;
  }

  lemma MadeNow(env: Encoding, c: Chain, tx: Tx, vout: U32)
    requires Confirmable(c, tx) && vout < |tx.outputs|
    ensures
      var op, c' := OutPoint(env.Txid(tx), vout), Confirmed(env, c, tx);
      op in c'.coins && c'.coins[op] == Coin(tx.outputs[vout], c.height)
  {
    WithKeys(Without(c.coins, tx.inputs), env.Txid(tx), tx.outputs, c.height);
    hide Without, With, Confirmable;
  }

  /** A confirmed transaction and a run after it, together. */
  lemma ConfirmOnward(env: Encoding, c: Chain, tx: Tx, steps: seq<Step>)
    requires CollisionFree(env) && Sound(env, c) && Confirmable(c, tx)
    ensures
      var end := Run(env, Confirmed(env, c, tx), steps);
      Sound(env, end) && c.log <= end.log && SpentBy(tx) <= end.spent
  {
    hide Run, Confirmable, With, Without, SpentBy, Sound, LocksKept;
    var after := Confirmed(env, c, tx);
    ConfirmKeepsSound(env, c, tx);
    RunsAreSound(env, after, steps);
    SpentStays(env, after, steps);
    LogGrows(env, after, steps);
  }
}
