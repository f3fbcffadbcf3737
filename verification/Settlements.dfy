/** The contract on the chain: which of its transactions can be confirmed, when,
    and where the deposited value goes. */
module Settlements {
  import opened Results
  import opened Scalars
  import opened Musig
  import opened Transactions
  import opened AggKeys
  import opened Deposits
  import opened DepositTxs
  import opened Contracts
  import opened FiveRoundDeal
  import opened Chains
  import R = Redirects

  /** The confirmed transaction is this one, with some witnesses. */
  ghost predicate Is(e: Entry, tx: Tx) {
    Strip(e.tx) == Strip(tx)
  }

  /** The ways to spend the deposit: the swap and the two warnings. */
  ghost predicate SpendsDeposit(d: Deal, e: Entry)
    requires GoodAmounts(d.pay)
  {
    Is(e, Swap(d)) || Is(e, Warning(d, Seller)) || Is(e, Warning(d, Buyer))
  }

  /** The ways to spend a warning of this trader: its claim, and the other's redirect. */
  ghost predicate SpendsWarning(d: Deal, owner: Role, e: Entry)
    requires GoodAmounts(d.pay)
  {
    Is(e, Claim(d, owner)) || Is(e, Redirect(d, owner.Other()))
  }

  lemma BareInputs(e: Entry, tx: Tx, i: nat)
    requires Is(e, tx) && i < |tx.inputs|
    ensures |e.tx.inputs| == |tx.inputs| && e.tx.inputs[i].prev == tx.inputs[i].prev
    ensures e.tx.inputs[i].sequence == tx.inputs[i].sequence
    ensures tx.inputs[i].prev in SpentBy(e.tx)
  {
    assert |e.tx.inputs| == |Strip(e.tx).inputs| == |Strip(tx).inputs| == |tx.inputs|;
    assert Strip(e.tx).inputs[i] == Bare(e.tx.inputs[i]) && Strip(tx).inputs[i] == Bare(tx.inputs[i]);
    assert e.tx.inputs[i].prev == tx.inputs[i].prev;
  }

  /** On any chain, however it came about and whoever broadcasts what: at most
      one of the swap and the two warnings is confirmed, and at most one of the
      claim and the redirect that spend the same warning. */
  lemma AtMostOne(env: Encoding, d: Deal, start: Chain, steps: seq<Step>, i: nat, j: nat)
    requires d.env == env && GoodAmounts(d.pay) && CollisionFree(env) && Sound(env, start)
    requires i < j < |Run(env, start, steps).log|
    ensures
      var log := Run(env, start, steps).log;
      && !(SpendsDeposit(d, log[i]) && SpendsDeposit(d, log[j]))
      && forall owner: Role :: !(SpendsWarning(d, owner, log[i]) && SpendsWarning(d, owner, log[j]))
  {
    RunsAreSound(env, start, steps);
    var log := Run(env, start, steps).log;
    assert SpentBy(log[i].tx) !! SpentBy(log[j].tx);
    hide Run, Sound, SpentBy, Is, InputOf;
    SpendsInput(d, log[i]);
    SpendsInput(d, log[j]);
  }

  lemma SpendsInput(d: Deal, e: Entry)
    requires GoodAmounts(d.pay)
    ensures SpendsDeposit(d, e) ==> InputOf(d, QKey(d, Seller)).prev in SpentBy(e.tx)
    ensures forall owner: Role ::
              SpendsWarning(d, owner, e) ==> FundsOutPoint(d.env, Warning(d, owner)) in SpentBy(e.tx)
  {
    hide InputOf, SpentBy, Is;
    if Is(e, Swap(d)) {
      BareInputs(e, Swap(d), 0);
    } else if Is(e, Warning(d, Seller)) {
      BareInputs(e, Warning(d, Seller), 1);
    } else if Is(e, Warning(d, Buyer)) {
      BareInputs(e, Warning(d, Buyer), 1);
    }
    forall owner: Role | SpendsWarning(d, owner, e) ensures FundsOutPoint(d.env, Warning(d, owner)) in SpentBy(e.tx) {
      if Is(e, Claim(d, owner)) {
        BareInputs(e, Claim(d, owner), 0);
      } else {
        BareInputs(e, Redirect(d, owner.Other()), 0);
      }
    }
  }

  /** A claim or a redirect is confirmed only after the warning it spends, the
      redirect at least one block later and the claim at least two. */
  lemma SpentAfterWarning(d: Deal, start: Chain, steps: seq<Step>, owner: Role, j: nat) returns (i: nat)
    requires GoodAmounts(d.pay) && CollisionFree(d.env) && Sound(d.env, start)
    requires |start.log| <= j < |Run(d.env, start, steps).log|
    requires SpendsWarning(d, owner, Run(d.env, start, steps).log[j])
    ensures
      var log := Run(d.env, start, steps).log;
      && i < j && Is(log[i], Warning(d, owner))
      && log[j].height >= log[i].height + (if Is(log[j], Claim(d, owner)) then T2 else T1)
  {
    RunsAreSound(d.env, start, steps);
    var c := Run(d.env, start, steps);
    var e := c.log[j];
    var tx := if Is(e, Claim(d, owner)) then Claim(d, owner) else Redirect(d, owner.Other());
    BareInputs(e, tx, 0);
    assert SpentMature(d.env, c, j, 0);
    NotMinting(d, owner);
    assert e.tx.inputs[0].prev !in c.mints;
    hide Run, Sound, Warning, Is, Minting;
    i :| 0 <= i < j && Creates(d.env, c.log[i], e.tx.inputs[0].prev)
         && c.log[j].height >= c.log[i].height + RelativeHeight(e.tx.inputs[0].sequence);
    SameId(d, c.log[i], owner);
  }

  lemma NotMinting(d: Deal, owner: Role)
    requires GoodAmounts(d.pay)
    ensures !Minting(d.env, d.env.Txid(Warning(d, owner)))
  {
    assert Warning(d, owner).inputs != [];
  }

  lemma SameId(d: Deal, e: Entry, owner: Role)
    requires GoodAmounts(d.pay) && CollisionFree(d.env) && d.env.Txid(e.tx) == d.env.Txid(Warning(d, owner))
    ensures Is(e, Warning(d, owner))
  {
  }

  // ------------------------------------------------------ when they are valid

  /** The output of this trader's warning is unspent since a block at this height. */
  ghost predicate WarningStands(d: Deal, c: Chain, owner: Role, height: nat)
    requires GoodAmounts(d.pay)
  {
    var op := FundsOutPoint(d.env, Warning(d, owner));
    op in c.coins && c.coins[op] == Coin(Warning(d, owner).outputs[0], height)
  }

  lemma OneInput(c: Chain, tx: Tx)
    requires |tx.inputs| == 1 && tx.inputs[0].prev in c.coins && |tx.outputs| < 0x1_0000_0000
    ensures Confirmable(c, tx) <==>
              && c.height >= c.coins[tx.inputs[0].prev].height + RelativeHeight(tx.inputs[0].sequence)
              && Total(tx.outputs) <= c.coins[tx.inputs[0].prev].out.value
  {
    assert tx.inputs[..0] == [];
    assert InValue(c.coins, tx.inputs) == InValue(c.coins, []) + c.coins[tx.inputs[0].prev].out.value;
  }

  lemma TotalOfOne(a: TxOut)
    ensures Total([a]) == a.value
  {
  }

  lemma TotalOfThree(a: TxOut, b: TxOut, c: TxOut)
    ensures Total([a, b, c]) == a.value + b.value + c.value
  {
    TotalStep([a, b], c);
    TotalStep([a], b);
    TotalOfOne(a);
    assert [a, b] + [c] == [a, b, c] && [a] + [b] == [a, b];
  }

  /** What the two transactions that spend a warning pay out, and when they may. */
  lemma WarningSpends(d: Deal, c: Chain, owner: Role, height: nat)
    requires GoodAmounts(d.pay) && WarningStands(d, c, owner, height)
    ensures Confirmable(c, Redirect(d, owner.Other())) <==>
            c.height >= height + 1 && R.Shares(Funds(d.pay) - FEE) + R.ANCHOR <= Funds(d.pay)
    ensures Confirmable(c, Claim(d, owner)) <==> c.height >= height + 2
  {
    hide Confirmable, R.Share60, R.Share40, Total, ScriptOf, InputOf, KeySpentBy;
    SharesSmall(Funds(d.pay) - FEE);
    var redirect, claim := Redirect(d, owner.Other()), Claim(d, owner);
    OneInput(c, redirect);
    OneInput(c, claim);
    TotalOfThree(redirect.outputs[0], redirect.outputs[1], redirect.outputs[2]);
    TotalOfOne(claim.outputs[0]);
  }

  /** The claim becomes valid two blocks after the warning, and the redirect, as
      long as its shares can be paid, one block after: so at the next height the
      redirect is valid and the claim is not. */
  lemma RedirectFirst(d: Deal, c: Chain, owner: Role, height: nat)
    requires GoodAmounts(d.pay) && WarningStands(d, c, owner, height)
    requires Funds(d.pay) <= FEE + R.LARGEST_SAFE
    ensures Confirmable(c, Redirect(d, owner.Other())) <==> c.height >= height + 1
    ensures Confirmable(c, Claim(d, owner)) <==> c.height >= height + 2
    ensures c.height == height + 1 ==> Confirmable(c, Redirect(d, owner.Other())) && !Confirmable(c, Claim(d, owner))
  {
    hide Confirmable, R.Share60, R.Share40, WarningStands, Redirect, Claim;
    R.SharesFit(Funds(d.pay) - FEE);
    WarningSpends(d, c, owner, height);
  }

  /** When the shares exceed the funds no height makes the redirect valid, and
      the claim goes through unopposed. */
  lemma RedirectNever(d: Deal, c: Chain, owner: Role, height: nat)
    requires GoodAmounts(d.pay) && WarningStands(d, c, owner, height)
    requires R.Shares(Funds(d.pay) - FEE) + R.ANCHOR > Funds(d.pay)
    ensures !Confirmable(c, Redirect(d, owner.Other()))
    ensures Confirmable(c, Claim(d, owner)) <==> c.height >= height + 2
  {
    hide Confirmable, R.Shares, R.Share60, R.Share40, WarningStands, Redirect, Claim;
    WarningSpends(d, c, owner, height);
  }

  lemma SharesSmall(amount: nat)
    requires amount <= MAX_AMOUNT
    ensures R.Share60(amount) <= MAX_AMOUNT && R.Share40(amount) <= MAX_AMOUNT
  {
    var r := R.Rounded(amount);
    R.RoundedNear(amount);
    R.RoundedNear(r * R.SIXTY);
    R.RoundedNear(r * R.FORTY);
    hide R.Rounded;
  }

  /** Such amounts exist: 71.58 bitcoins and a few satoshis in all. */
  lemma RedirectCanBeInvalid(d: Deal, c: Chain, owner: Role, height: nat)
    requires d.pay.buyer + d.pay.seller == R.LARGEST_SAFE + 1 + R.ANCHOR + 2 * R.FEE && GoodAmounts(d.pay)
    requires WarningStands(d, c, owner, height)
    ensures !Confirmable(c, Redirect(d, owner.Other()))
  {
    R.SharesCanExceed();
    hide R.Shares;
    RedirectNever(d, c, owner, height);
  }

  // ------------------------------------------------------ where the value goes

  /** The deposit's two outputs: the swap spends the second. */
  function OutP(d: Deal): OutPoint {
    InputOf(d, PKey(d, Seller)).prev
  }

  function OutQ(d: Deal): OutPoint {
    InputOf(d, QKey(d, Seller)).prev
  }

  function OutW(d: Deal, owner: Role): OutPoint
    requires GoodAmounts(d.pay)
  {
    FundsOutPoint(d.env, Warning(d, owner))
  }

  /** The outputs under keys of both: the deposit's two and each warning's first. */
  function ContractOuts(d: Deal): set<OutPoint>
    requires GoodAmounts(d.pay)
  {
    {OutP(d), OutQ(d), OutW(d, Seller), OutW(d, Buyer)}
  }

  /** This unspent output is the deposit's. */
  ghost predicate IsDeposited(d: Deal, c: Chain, op: OutPoint) {
    op in c.coins && op.vout < |Base(d).outputs| && c.coins[op].out == Base(d).outputs[op.vout]
  }

  /** Both deposit outputs are unspent on the chain. */
  ghost predicate DepositStands(d: Deal, c: Chain) {
    IsDeposited(d, c, OutP(d)) && IsDeposited(d, c, OutQ(d))
  }

  ghost predicate Ends(d: Deal, e: Entry)
    requires GoodAmounts(d.pay)
  {
    Is(e, Swap(d)) || SpendsWarning(d, Seller, e) || SpendsWarning(d, Buyer, e)
  }

  ghost predicate Warns(d: Deal, e: Entry)
    requires GoodAmounts(d.pay)
  {
    Is(e, Warning(d, Seller)) || Is(e, Warning(d, Buyer))
  }

  /** This output of the contract is spent, without the others and by none of
      the transactions above. */
  ghost predicate TakesOut(d: Deal, e: Entry, op: OutPoint)
    requires GoodAmounts(d.pay)
  {
    !Warns(d, e) && !Ends(d, e) && SpentBy(e.tx) * ContractOuts(d) == {op}
  }

  /** The key P' of the deposit's first output is also that of the buyer's
      warning: its secret spends either, with no other signature. */
  ghost predicate Takes(d: Deal, e: Entry)
    requires GoodAmounts(d.pay)
  {
    TakesOut(d, e, OutP(d)) || TakesOut(d, e, OutW(d, Buyer))
  }

  /** What leaves the contract in this transaction: the outputs of a swap, claim or
      redirect, the anchor of a warning, the output itself when it is taken with P'. */
  ghost function Payout(d: Deal, e: Entry): nat
    requires GoodAmounts(d.pay)
  {
    if Warns(d, e) then ANCHOR
    else if Ends(d, e) then Total(e.tx.outputs)
    else if TakesOut(d, e, OutP(d)) then d.pay.seller
    else if TakesOut(d, e, OutW(d, Buyer)) then Funds(d.pay)
    else 0
  }

  ghost function ContractFee(d: Deal, e: Entry): nat
    requires GoodAmounts(d.pay)
  {
    if Warns(d, e) || Ends(d, e) then e.fee else 0
  }

  /** Payouts and fees of the contract's transactions, from a position of the log on. */
  ghost function PaidOut(d: Deal, log: seq<Entry>, from: nat): nat
    requires GoodAmounts(d.pay)
  {
    if |log| <= from then 0 else PaidOut(d, log[..|log| - 1], from) + Payout(d, log[|log| - 1])
  }

  ghost function FeesPaid(d: Deal, log: seq<Entry>, from: nat): nat
    requires GoodAmounts(d.pay)
  {
    if |log| <= from then 0 else FeesPaid(d, log[..|log| - 1], from) + ContractFee(d, log[|log| - 1])
  }

  /** What is left in the contract. */
  ghost function Held(d: Deal, c: Chain): nat
    requires GoodAmounts(d.pay)
  {
    Value(Within(c.coins, ContractOuts(d)))
  }

  /** Only what both signed in advance spends the contract's outputs, and what the
      secret of P' signs spends the two that pay to P'. Round five gives it to the buyer. */
  ghost predicate AsAgreed(d: Deal, log: seq<Entry>, from: nat)
    requires GoodAmounts(d.pay)
  {
    forall i :: from <= i < |log| && SpentBy(log[i].tx) * ContractOuts(d) != {} ==>
      Warns(d, log[i]) || Ends(d, log[i]) || Takes(d, log[i])
  }

  /** Each of the deposit's outputs is still there or was spent. */
  ghost predicate Accounted(d: Deal, c: Chain) {
    && ((OutP(d) in c.coins && c.coins[OutP(d)].out.value == d.pay.seller) || OutP(d) in c.spent)
    && (OutQ(d) in c.coins || OutQ(d) in c.spent)
  }

  lemma BareTx(e: Entry, tx: Tx)
    requires Is(e, tx)
    ensures |e.tx.inputs| == |tx.inputs| && e.tx.outputs == tx.outputs
    ensures forall i :: 0 <= i < |tx.inputs| ==> e.tx.inputs[i].prev == tx.inputs[i].prev
    ensures SpentBy(e.tx) == SpentBy(tx)
  {
    assert |e.tx.inputs| == |Strip(e.tx).inputs| == |Strip(tx).inputs| == |tx.inputs|;
    assert e.tx.outputs == Strip(e.tx).outputs == Strip(tx).outputs == tx.outputs;
    forall i | 0 <= i < |tx.inputs| ensures e.tx.inputs[i].prev == tx.inputs[i].prev {
      BareInputs(e, tx, i);
    }
    hide Strip;
  }

  lemma SpentByOne(tx: Tx)
    requires |tx.inputs| == 1
    ensures SpentBy(tx) == {tx.inputs[0].prev}
  {
  }

  lemma SpentByTwo(tx: Tx)
    requires |tx.inputs| == 2
    ensures SpentBy(tx) == {tx.inputs[0].prev, tx.inputs[1].prev}
  {
  }

  /** The contract's transactions spend its outputs only; warnings have two inputs, the others one. */
  lemma ContractSpends(d: Deal, e: Entry)
    requires GoodAmounts(d.pay)
    ensures Warns(d, e) ==> |e.tx.inputs| == 2 && SpentBy(e.tx) == {OutP(d), OutQ(d)} && |e.tx.outputs| == 2
    ensures Is(e, Swap(d)) ==> |e.tx.inputs| == 1 && SpentBy(e.tx) == {OutQ(d)}
    ensures forall owner: Role :: SpendsWarning(d, owner, e) ==> |e.tx.inputs| == 1 && SpentBy(e.tx) == {OutW(d, owner)}
  {
    hide Is, SpentBy, InputOf, ScriptOf, KeySpentBy;
    forall owner: Role | Is(e, Warning(d, owner))
      ensures |e.tx.inputs| == 2 && SpentBy(e.tx) == {OutP(d), OutQ(d)} && |e.tx.outputs| == 2
    {
      BareTx(e, Warning(d, owner));
      SpentByTwo(Warning(d, owner));
    }
    if Is(e, Swap(d)) {
      BareTx(e, Swap(d));
      SpentByOne(Swap(d));
    }
    forall owner: Role | SpendsWarning(d, owner, e) ensures |e.tx.inputs| == 1 && SpentBy(e.tx) == {OutW(d, owner)} {
      var tx := if Is(e, Claim(d, owner)) then Claim(d, owner) else Redirect(d, owner.Other());
      BareTx(e, tx);
      SpentByOne(tx);
    }
  }

  /** A transaction with the identifier of a warning is the warning. */
  lemma WarningById(d: Deal, e: Entry, owner: Role)
    requires GoodAmounts(d.pay) && CollisionFree(d.env) && d.env.Txid(e.tx) == OutW(d, owner).txid
    ensures Is(e, Warning(d, owner)) && Warns(d, e)
  {
    SameId(d, e, owner);
  }

  /** What a confirmed transaction puts back into the contract: a warning its
      first output, others nothing. */
  lemma ContractLanding(d: Deal, c: Chain, tx: Tx)
    requires GoodAmounts(d.pay) && CollisionFree(d.env) && Sound(d.env, c) && Confirmable(c, tx) && Accounted(d, c)
    ensures
      var e := Entry(tx, c.height, Fee(c, tx));
      && (Warns(d, e) ==> Total(tx.outputs) == Landing(ContractOuts(d), d.env.Txid(tx), tx.outputs) + ANCHOR)
      && (!Warns(d, e) ==> forall op :: op in ContractOuts(d) ==> op.txid != d.env.Txid(tx))
  {
    var e := Entry(tx, c.height, Fee(c, tx));
    DepositIsOlder(d, c, tx);
    assert |tx.outputs| <= 0x1_0000_0000;
    assert Is(e, Warning(d, Seller)) ==> Strip(tx) == Strip(Warning(d, Seller));
    assert Is(e, Warning(d, Buyer)) ==> Strip(tx) == Strip(Warning(d, Buyer));
    hide Sound, Accounted, Confirmable, OutP, OutQ, Landing, Warning, Strip, Total, ContractOuts, Is, Fee, SpentBy;
    if Is(e, Warning(d, Seller)) {
      BareTx(e, Warning(d, Seller));
      WarningLanding(d, tx, Seller);
    } else if Is(e, Warning(d, Buyer)) {
      BareTx(e, Warning(d, Buyer));
      WarningLanding(d, tx, Buyer);
    } else {
      NoWarningLands(d, e);
    }
  }

  lemma NoWarningLands(d: Deal, e: Entry)
    requires GoodAmounts(d.pay) && CollisionFree(d.env) && !Warns(d, e)
    requires OutP(d).txid != d.env.Txid(e.tx) && OutQ(d).txid != d.env.Txid(e.tx)
    ensures forall op :: op in ContractOuts(d) ==> op.txid != d.env.Txid(e.tx)
  {
    hide OutP, OutQ, Warning, Is;
    if OutW(d, Seller).txid == d.env.Txid(e.tx) {
      WarningById(d, e, Seller);
      assert false;
    }
    if OutW(d, Buyer).txid == d.env.Txid(e.tx) {
      WarningById(d, e, Buyer);
      assert false;
    }
  }

  lemma DepositIsOlder(d: Deal, c: Chain, tx: Tx)
    requires CollisionFree(d.env) && Sound(d.env, c) && Confirmable(c, tx) && Accounted(d, c)
    ensures OutP(d).txid != d.env.Txid(tx) && OutQ(d).txid != d.env.Txid(tx)
  {
    hide Sound, Confirmable, OutP, OutQ;
    forall op: OutPoint | op in c.coins || op in c.spent ensures op.txid != d.env.Txid(tx) {
      if op.txid == d.env.Txid(tx) {
        NewOutpoints(d.env, c, tx, op);
        assert false;
      }
    }
  }

  lemma WarningLanding(d: Deal, tx: Tx, owner: Role)
    requires GoodAmounts(d.pay) && Strip(tx) == Strip(Warning(d, owner)) && tx.outputs == Warning(d, owner).outputs
    requires OutP(d).txid != d.env.Txid(tx) && OutQ(d).txid != d.env.Txid(tx)
    ensures Total(tx.outputs) == Landing(ContractOuts(d), d.env.Txid(tx), tx.outputs) + ANCHOR
  {
    hide OutP, OutQ, InputOf, ScriptOf, KeySpentBy, Strip;
    var txid, ops := d.env.Txid(tx), ContractOuts(d);
    assert txid == OutW(d, owner).txid;
    var first, anchor := tx.outputs[0], tx.outputs[1];
    assert tx.outputs == [first, anchor];
    assert [first, anchor][..1] == [first] && [first][..0] == [];
    assert OutPoint(txid, 0) in ops && OutPoint(txid, 1) !in ops;
    assert Landing(ops, txid, [first]) == Landing(ops, txid, []) + first.value;
    assert Total([first]) == Total([]) + first.value;
  }

  /** One more confirmed transaction moves value between what is held, what is
      paid out and the fees. */
  lemma ContractStep(d: Deal, c: Chain, tx: Tx)
    requires GoodAmounts(d.pay) && CollisionFree(d.env) && Sound(d.env, c) && Confirmable(c, tx) && Accounted(d, c)
    requires
      var e := Entry(tx, c.height, Fee(c, tx));
      SpentBy(tx) * ContractOuts(d) != {} ==> Warns(d, e) || Ends(d, e) || Takes(d, e)
    ensures
      var e := Entry(tx, c.height, Fee(c, tx));
      Held(d, Confirmed(d.env, c, tx)) + Payout(d, e) + ContractFee(d, e) == Held(d, c)
  {
    assert c.coins.Keys !! c.spent;
    hide Sound, Confirmable, Warns, Ends, Takes, ContractOuts, Total, Accounted, SpentBy, Confirmed, Fee, Held;
    var e := Entry(tx, c.height, Fee(c, tx));
    ContractLanding(d, c, tx);
    if Warns(d, e) || Ends(d, e) {
      SignedStep(d, c, tx);
    } else if Takes(d, e) {
      TakenStep(d, c, tx);
    } else {
      ForeignStep(d, c, tx);
    }
  }

  lemma SignedStep(d: Deal, c: Chain, tx: Tx)
    requires GoodAmounts(d.pay) && CollisionFree(d.env) && Sound(d.env, c) && Confirmable(c, tx)
    requires var e := Entry(tx, c.height, Fee(c, tx)); Warns(d, e) || Ends(d, e)
    requires
      var e := Entry(tx, c.height, Fee(c, tx));
      && (Warns(d, e) ==> Total(tx.outputs) == Landing(ContractOuts(d), d.env.Txid(tx), tx.outputs) + ANCHOR)
      && (!Warns(d, e) ==> forall op :: op in ContractOuts(d) ==> op.txid != d.env.Txid(tx))
    ensures
      var e := Entry(tx, c.height, Fee(c, tx));
      Held(d, Confirmed(d.env, c, tx)) + Payout(d, e) + Fee(c, tx) == Held(d, c)
  {
    assert |tx.outputs| <= 0x1_0000_0000;
    hide Sound, Confirmable, Warns, Ends, ContractOuts, Value, Within, Landing, Total, SpentBy, Confirmed, Fee;
    var e := Entry(tx, c.height, Fee(c, tx));
    EndsAndWarns(d, e);
    InsideStep(d.env, c, tx, ContractOuts(d));
    if !Warns(d, e) {
      NothingLands(ContractOuts(d), d.env.Txid(tx), tx.outputs);
    }
  }

  lemma ForeignStep(d: Deal, c: Chain, tx: Tx)
    requires GoodAmounts(d.pay) && Confirmable(c, tx) && SpentBy(tx) * ContractOuts(d) == {}
    requires forall op :: op in ContractOuts(d) ==> op.txid != d.env.Txid(tx)
    ensures Held(d, Confirmed(d.env, c, tx)) == Held(d, c)
  {
    hide Confirmable, ContractOuts, Value, SpentBy, Confirmed, Within;
    OutsideStep(d.env, c, tx, ContractOuts(d));
  }

  /** An output with the identifier of a warning is the warning's own. */
  lemma WarningCoin(d: Deal, c: Chain, owner: Role)
    requires GoodAmounts(d.pay) && CollisionFree(d.env) && Sound(d.env, c) && OutW(d, owner) in c.coins
    ensures c.coins[OutW(d, owner)].out == Warning(d, owner).outputs[0]
    ensures exists i :: 0 <= i < |c.log| && Is(c.log[i], Warning(d, owner))
  {
    var op := OutW(d, owner);
    NotMinting(d, owner);
    assert Rooted(d.env, c, op) && op !in c.mints;
    hide Sound, Warning, Minting;
    var i :| 0 <= i < |c.log| && Made(d.env, c.log[i], op, c.coins[op]);
    WarningById(d, c.log[i], owner);
    BareTx(c.log[i], Warning(d, owner));
  }

  lemma TakenStep(d: Deal, c: Chain, tx: Tx)
    requires GoodAmounts(d.pay) && CollisionFree(d.env) && Sound(d.env, c) && Accounted(d, c) && Confirmable(c, tx)
    requires Takes(d, Entry(tx, c.height, Fee(c, tx)))
    requires forall op :: op in ContractOuts(d) ==> op.txid != d.env.Txid(tx)
    ensures Held(d, Confirmed(d.env, c, tx)) + Payout(d, Entry(tx, c.height, Fee(c, tx))) == Held(d, c)
  {
    assert c.coins.Keys !! c.spent;
    SpendsCoins(c, tx);
    hide Sound, Confirmable, Warns, Ends, OutP, OutQ, OutW, Value, Within, SpentBy, Confirmed, Fee, Warning;
    var ops := ContractOuts(d);
    var op := if TakesOut(d, Entry(tx, c.height, Fee(c, tx)), OutP(d)) then OutP(d) else OutW(d, Buyer);
    assert op in SpentBy(tx) * ops;
    TakingStep(d.env, c, tx, ops, op);
    if op != OutP(d) {
      WarningFunds(d, c);
    }
  }

  lemma WarningFunds(d: Deal, c: Chain)
    requires GoodAmounts(d.pay) && CollisionFree(d.env) && Sound(d.env, c) && OutW(d, Buyer) in c.coins
    ensures c.coins[OutW(d, Buyer)].out.value == Funds(d.pay)
  {
    hide Sound, InputOf, ScriptOf, KeySpentBy, OutW;
    WarningCoin(d, c, Buyer);
  }

  lemma EndsAndWarns(d: Deal, e: Entry)
    requires GoodAmounts(d.pay) && (Warns(d, e) || Ends(d, e))
    ensures SpentBy(e.tx) <= ContractOuts(d)
  {
    hide Is, SpentBy, OutP, OutQ, OutW;
    ContractSpends(d, e);
  }

  lemma AgreedPrefix(d: Deal, log: seq<Entry>, longer: seq<Entry>, from: nat)
    requires GoodAmounts(d.pay) && log <= longer && AsAgreed(d, longer, from)
    ensures AsAgreed(d, log, from)
  {
    hide Warns, Ends, ContractOuts, SpentBy;
    forall i | from <= i < |log| && SpentBy(log[i].tx) * ContractOuts(d) != {}
      ensures Warns(d, log[i]) || Ends(d, log[i]) || Takes(d, log[i])
    {
      assert log[i] == longer[i];
    }
  }

  lemma OneMore(d: Deal, log: seq<Entry>, e: Entry, from: nat)
    requires GoodAmounts(d.pay) && from <= |log|
    ensures PaidOut(d, log + [e], from) == PaidOut(d, log, from) + Payout(d, e)
    ensures FeesPaid(d, log + [e], from) == FeesPaid(d, log, from) + ContractFee(d, e)
  {
    hide Payout, ContractFee;
    assert (log + [e])[..|log|] == log;
  }

  lemma {:induction false} ContractRun(d: Deal, c: Chain, steps: seq<Step>)
    requires GoodAmounts(d.pay) && CollisionFree(d.env) && Sound(d.env, c) && Accounted(d, c)
    requires AsAgreed(d, Run(d.env, c, steps).log, |c.log|)
    ensures
      var end := Run(d.env, c, steps);
      Held(d, end) + PaidOut(d, end.log, |c.log|) + FeesPaid(d, end.log, |c.log|) == Held(d, c)
  {
    hide Payout, ContractFee, Held, AsAgreed, Sound, Accounted, LocksKept;
    if steps == [] {
    } else {
      var n := |steps| - 1;
      var before, step := Run(d.env, c, steps[..n]), steps[n];
      RunsAreSound(d.env, c, steps[..n]);
      LogGrows(d.env, c, steps[..n]);
      StaysAccounted(d, c, steps[..n]);
      LogGrowsOnce(d.env, before, step);
      AgreedPrefix(d, before.log, Run(d.env, c, steps).log, |c.log|);
      ContractRun(d, c, steps[..n]);
      StepAccounts(d, before, step, |c.log|);
    }
  }

  lemma LogGrowsOnce(env: Encoding, c: Chain, step: Step)
    ensures c.log <= Apply(env, c, step).log
  {
    hide With, Without, Confirmable;
  }

  lemma StaysAccounted(d: Deal, c: Chain, steps: seq<Step>)
    requires CollisionFree(d.env) && Sound(d.env, c) && Accounted(d, c)
    ensures Accounted(d, Run(d.env, c, steps))
  {
    hide Run, OutP, OutQ, Sound;
    var p, q := OutP(d), OutQ(d);
    CoinStays(d.env, c, steps, p, if p in c.spent then Coin(TxOut(d.pay.seller, OtherScript(0)), 0) else c.coins[p]);
    CoinStays(d.env, c, steps, q, if q in c.spent then Coin(TxOut(0, OtherScript(0)), 0) else c.coins[q]);
  }

  lemma StepAccounts(d: Deal, c: Chain, step: Step, from: nat)
    requires GoodAmounts(d.pay) && CollisionFree(d.env) && Sound(d.env, c) && Accounted(d, c) && from <= |c.log|
    requires AsAgreed(d, Apply(d.env, c, step).log, from)
    ensures
      var c' := Apply(d.env, c, step);
      Held(d, c') + PaidOut(d, c'.log, from) + FeesPaid(d, c'.log, from)
      == Held(d, c) + PaidOut(d, c.log, from) + FeesPaid(d, c.log, from)
  {
    hide Payout, ContractFee, Sound, Warns, Ends, Takes, Held, Accounted, ContractOuts, PaidOut, FeesPaid,
         SpentBy, Confirmable, Mintable, Fee;
    match step
    case NextBlock =>
      SameHeld(d, c, Apply(d.env, c, step));
    case Mint(op, out) =>
      if Mintable(d.env, c, op) {
        MintStep(d, c, op, out);
      }
    case Confirm(tx) =>
      if Confirmable(c, tx) {
        var e := Entry(tx, c.height, Fee(c, tx));
        assert Apply(d.env, c, step).log[|c.log|] == e;
        ContractStep(d, c, tx);
        OneMore(d, c.log, e, from);
      }
  }

  lemma SameHeld(d: Deal, c: Chain, c': Chain)
    requires GoodAmounts(d.pay) && Within(c'.coins, ContractOuts(d)) == Within(c.coins, ContractOuts(d))
    ensures Held(d, c') == Held(d, c)
  {
  }

  lemma MintStep(d: Deal, c: Chain, op: OutPoint, out: TxOut)
    requires GoodAmounts(d.pay) && Accounted(d, c) && Mintable(d.env, c, op)
    ensures Held(d, Minted(c, op, out)) == Held(d, c)
  {
    assert op !in c.coins;
    hide ContractOuts, Value, Within, Accounted, Mintable;
    MintsOutside(d, c, op);
    WithinPut(c.coins, ContractOuts(d), op, Coin(out, c.height));
  }

  lemma MintsOutside(d: Deal, c: Chain, op: OutPoint)
    requires GoodAmounts(d.pay) && Accounted(d, c) && Mintable(d.env, c, op)
    ensures op !in ContractOuts(d)
  {
    hide Minting, OutP, OutQ, Warning, Confirmable;
    NotMinting(d, Seller);
    NotMinting(d, Buyer);
    assert Minting(d.env, op.txid);
    assert op != OutP(d) && op != OutQ(d);
    assert OutW(d, Seller).txid == d.env.Txid(Warning(d, Seller));
    assert OutW(d, Buyer).txid == d.env.Txid(Warning(d, Buyer));
  }

  // ------------------------------------------------------ from the deposit to a warning

  /** Once the deposit transaction is confirmed, whatever its witnesses, its two outputs stand. */
  lemma DepositConfirmed(d: Deal, c: Chain, tx: Tx)
    requires Honest(d) && Confirmable(c, tx) && Strip(tx) == Strip(Base(d))
    ensures DepositStands(d, Confirmed(d.env, c, tx))
  {
    OutputsFound(d, Seller);
    WithKeys(Without(c.coins, tx.inputs), d.env.Txid(tx), tx.outputs, c.height);
    assert tx.outputs == Strip(tx).outputs == Base(d).outputs;
    hide Honest, PKey, QKey, Base, Confirmable, With, Without, Strip;
  }

  /** Output keys with different scripts are behind different outputs. */
  lemma DepositOutsDiffer(d: Deal)
    requires Honest(d) && ScriptOf(d, PKey(d, Seller)) != ScriptOf(d, QKey(d, Seller))
    ensures OutP(d) != OutQ(d)
  {
    OutputsFound(d, Seller);
    hide PKey, QKey, Base, GoodKeys, GoodDeposit, AggKey.AggScript;
  }

  /** While the deposit stands the swap and both warnings can be confirmed at once,
      and a confirmed warning stands from then on. */
  lemma DepositSpendable(d: Deal, c: Chain, owner: Role)
    requires Honest(d) && Sound(d.env, c) && DepositStands(d, c)
    requires ScriptOf(d, PKey(d, Seller)) != ScriptOf(d, QKey(d, Seller))
    ensures Confirmable(c, Swap(d)) && Confirmable(c, Warning(d, owner))
    ensures WarningStands(d, Confirmed(d.env, c, Warning(d, owner)), owner, c.height)
  {
    hide PKey, QKey, Base, Honest, Sound, InputOf, ScriptOf, DepositStands, Confirmable, Confirmed, Mature;
    DepositOutsDiffer(d);
    DepositMature(d, c);
    assert GoodAmounts(d.pay);
    SwapFits(d, c);
    WarningFits(d, c, owner);
    WarningConfirmed(d, c, owner);
  }

  /** The deposit's outputs can be spent at once, with their amounts. */
  lemma DepositMature(d: Deal, c: Chain)
    requires Honest(d) && Sound(d.env, c) && DepositStands(d, c)
    ensures GoodAmounts(d.pay)
    ensures
      var p, q := InputOf(d, PKey(d, Seller)), InputOf(d, QKey(d, Seller));
      && Mature(c, p) && c.coins[p.prev].out.value == d.pay.seller
      && Mature(c, q) && c.coins[q.prev].out.value == d.pay.buyer
  {
    OutputsFound(d, Seller);
    var p, q := InputOf(d, PKey(d, Seller)), InputOf(d, QKey(d, Seller));
    assert p.sequence == q.sequence == SEQUENCE_MAX;
    assert Rooted(d.env, c, p.prev) && Rooted(d.env, c, q.prev);
  }

  lemma SwapFits(d: Deal, c: Chain)
    requires GoodAmounts(d.pay)
    requires var q := InputOf(d, QKey(d, Seller)); Mature(c, q) && c.coins[q.prev].out.value == d.pay.buyer
    ensures Confirmable(c, Swap(d))
  {
    hide PKey, QKey, InputOf, ScriptOf;
    var swap := Swap(d);
    OneInput(c, swap);
    TotalOfOne(swap.outputs[0]);
  }

  lemma WarningFits(d: Deal, c: Chain, owner: Role)
    requires GoodAmounts(d.pay) && OutP(d) != OutQ(d)
    requires var p := InputOf(d, PKey(d, Seller)); Mature(c, p) && c.coins[p.prev].out.value == d.pay.seller
    requires var q := InputOf(d, QKey(d, Seller)); Mature(c, q) && c.coins[q.prev].out.value == d.pay.buyer
    ensures Confirmable(c, Warning(d, owner))
  {
    hide PKey, QKey, InputOf, ScriptOf, Confirmable, Mature, Total, InValue, KeySpentBy;
    var warning := Warning(d, owner);
    TwoInputs(c, warning);
    TotalStep([warning.outputs[0]], warning.outputs[1]);
    TotalOfOne(warning.outputs[0]);
    assert [warning.outputs[0]] + [warning.outputs[1]] == warning.outputs;
  }

  lemma WarningConfirmed(d: Deal, c: Chain, owner: Role)
    requires GoodAmounts(d.pay) && Confirmable(c, Warning(d, owner))
    ensures WarningStands(d, Confirmed(d.env, c, Warning(d, owner)), owner, c.height)
  {
    hide Confirmable, With, Without, ScriptOf, InputOf, KeySpentBy;
    var warning := Warning(d, owner);
    WithKeys(Without(c.coins, warning.inputs), d.env.Txid(warning), warning.outputs, c.height);
  }

  lemma TwoInputs(c: Chain, tx: Tx)
    requires |tx.inputs| == 2 && |tx.outputs| < 0x1_0000_0000 && tx.inputs[0].prev != tx.inputs[1].prev
    requires Mature(c, tx.inputs[0]) && Mature(c, tx.inputs[1])
    ensures InValue(c.coins, tx.inputs) == c.coins[tx.inputs[0].prev].out.value + c.coins[tx.inputs[1].prev].out.value
    ensures Confirmable(c, tx) <==> Total(tx.outputs) <= InValue(c.coins, tx.inputs)
  {
    assert tx.inputs[..1][..0] == [];
    assert InValue(c.coins, tx.inputs[..1]) == InValue(c.coins, []) + c.coins[tx.inputs[0].prev].out.value;
  }

  // ------------------------------------------------------ the whole account

  lemma TwoCoins(p: OutPoint, q: OutPoint, a: Coin, b: Coin)
    requires p != q
    ensures Value(map[p := a, q := b]) == a.out.value + b.out.value
  {
    var m := map[p := a, q := b];
    ValueWithout(m, p);
    ValueWithout(m - {p}, q);
    assert m - {p} - {q} == map[];
  }

  /** As long as the deposit is unspent no warning was confirmed. */
  lemma NoWarningYet(d: Deal, c: Chain, owner: Role)
    requires GoodAmounts(d.pay) && CollisionFree(d.env) && Sound(d.env, c) && OutP(d) in c.coins
    ensures OutW(d, owner) !in c.coins
  {
    NotMinting(d, owner);
    var op := OutW(d, owner);
    forall i | 0 <= i < |c.log| ensures !Creates(d.env, c.log[i], op) {
      assert SpentBy(c.log[i].tx) <= c.spent && OutP(d) !in c.spent;
      hide Sound, OutP, Warning, SpentBy, Is;
      if Creates(d.env, c.log[i], op) {
        ContractSpends(d, c.log[i]);
        WarningById(d, c.log[i], owner);
        assert false;
      }
    }
    assert op in c.coins ==> Rooted(d.env, c, op);
  }

  lemma HeldAtFirst(d: Deal, c: Chain)
    requires Honest(d) && CollisionFree(d.env) && Sound(d.env, c) && DepositStands(d, c)
    requires ScriptOf(d, PKey(d, Seller)) != ScriptOf(d, QKey(d, Seller))
    ensures Held(d, c) == d.pay.seller + d.pay.buyer
  {
    hide PKey, QKey, Base, GoodKeys, GoodDeposit, Sound, TxInFor, Value, InputOf, ScriptOf, OutW;
    OutputsFound(d, Seller);
    DepositOutsDiffer(d);
    NoWarningYet(d, c, Seller);
    NoWarningYet(d, c, Buyer);
    var p, q := OutP(d), OutQ(d);
    assert Within(c.coins, ContractOuts(d)) == map[p := c.coins[p], q := c.coins[q]];
    TwoCoins(p, q, c.coins[p], c.coins[q]);
  }

  /** On any chain on which the deposit stands, in every run from there, with
      minting and foreign transactions of any kind, as long as what spends the
      contract's outputs is what the traders agreed on: what the swap, claim and
      redirect transactions pay, the anchors of the warnings, the fees of all of
      them, the output the buyer takes, and what is unspent of the deposit and the
      warnings add up to the two deposited amounts. */
  lemma ContractConserves(d: Deal, c: Chain, steps: seq<Step>)
    requires Honest(d) && CollisionFree(d.env) && Sound(d.env, c) && DepositStands(d, c)
    requires ScriptOf(d, PKey(d, Seller)) != ScriptOf(d, QKey(d, Seller))
    requires AsAgreed(d, Run(d.env, c, steps).log, |c.log|)
    ensures
      var end := Run(d.env, c, steps);
      PaidOut(d, end.log, |c.log|) + FeesPaid(d, end.log, |c.log|) + Held(d, end) == d.pay.seller + d.pay.buyer
  {
    HeldAtFirst(d, c);
    OutputsFound(d, Seller);
    assert GoodAmounts(d.pay) && Accounted(d, c);
    hide Run, Sound, Honest, Held, PaidOut, FeesPaid, OutP, OutQ, PKey, QKey, ScriptOf, Accounted, AsAgreed;
    ContractRun(d, c, steps);
  }
}
