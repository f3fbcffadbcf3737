/** What the secret of P' opens on the chain. The swap signature shows it to the
    buyer, and two outputs of the contract pay to P': the deposit's first, and the
    first of the buyer's own warning. */
module BuyersKey {
  import opened Results
  import opened Scalars
  import opened Musig
  import opened Transactions
  import opened AggKeys
  import opened DepositTxs
  import opened Contracts
  import opened FiveRounds
  import opened FiveRoundKeys
  import opened HonestSigning
  import opened FiveRoundDeal
  import opened FiveRoundCompletion
  import opened Chains
  import opened Settlements

  // ------------------------------------------------------ the signature

  /** Spends one output by itself, without a lock time. */
  function Taking(op: OutPoint, outputs: seq<TxOut>, wit: Witness): Tx {
    Tx([TxIn(op, SEQUENCE_MAX, wit)], outputs)
  }

  /** All that the theorems about completed deals suppose. */
  ghost predicate Completes(d: Deal) {
    && Honest(d)
    && PKey(d, Seller).agg.Some? && QKey(d, Seller).agg.Some? && PKey(d, Buyer).agg.Some? && QKey(d, Buyer).agg.Some?
    && NoncesAddUp(d, Seller) && NoncesAddUp(d, Buyer)
  }

  /** What the secret that round five leaves with the buyer signs for a transaction
      that spends an output of prev alone. */
  function TakingSig(d: Deal, prev: Tx, tx: Tx, nonce: Scalar): LiftedSig {
    var secret := d.After5(Buyer).0.pTik.aggSec;
    SignAlone(d.env.h, if secret.Some? then secret.value else 0, nonce, HonestSigning.MessageOf(d.env, prev, tx, 0))
  }

  /** Both outputs that pay to P' can be spent to anywhere with a signature by that
      secret, whatever witnesses the transactions came with. */
  lemma TakingIsSigned(d: Deal, outputs: seq<TxOut>, nonce: Scalar, deposit: Tx, warning: Tx)
    requires Completes(d) && nonce != 0
    requires Strip(deposit) == Strip(Base(d)) && Strip(warning) == Strip(Warning(d, Buyer))
    ensures
      var tx := Taking(OutP(d), outputs, Unsigned);
      ValidKeySpend(d.env, deposit, Taking(OutP(d), outputs, KeySpend(TakingSig(d, Base(d), tx, nonce))), 0)
    ensures
      var tx := Taking(OutW(d, Buyer), outputs, Unsigned);
      ValidKeySpend(d.env, warning,
                    Taking(OutW(d, Buyer), outputs, KeySpend(TakingSig(d, Warning(d, Buyer), tx, nonce))), 0)
  {
    Completion(d);
    TakingUnlocks(d, outputs);
    hide Honest, PKey, QKey, Base, Warning, NoncesAddUp, Unlocks, Verify, SignAlone, Deal.After5, Deal.After4, Strip,
         SwapSigned, HoldsAll, HonestSigning.MessageOf;
    var secret, key := d.After5(Buyer).0.pTik.aggSec.value, PKey(d, Seller);
    TakingOne(d.env, Base(d), deposit, OutP(d), outputs, key, secret, nonce);
    TakingOne(d.env, Warning(d, Buyer), warning, OutW(d, Buyer), outputs, key, secret, nonce);
  }

  lemma TakingOne(env: Encoding, prev: Tx, prev': Tx, op: OutPoint, outputs: seq<TxOut>, key: AggKey, secret: Scalar,
                  nonce: Scalar)
    requires key.agg.Some? && BaseMul(secret) == key.agg.value.pubkey && nonce != 0
    requires Strip(prev') == Strip(prev) && Unlocks(env, prev, Taking(op, outputs, Unsigned), 0, key)
    ensures
      var sig := SignAlone(env.h, secret, nonce, HonestSigning.MessageOf(env, prev, Taking(op, outputs, Unsigned), 0));
      ValidKeySpend(env, prev', Taking(op, outputs, KeySpend(sig)), 0)
  {
    hide SignAlone, Verify, Unlocks, ValidKeySpend, HonestSigning.MessageOf;
    var bare := Taking(op, outputs, Unsigned);
    var msg := HonestSigning.MessageOf(env, prev, bare, 0);
    var sig := SignAlone(env.h, secret, nonce, msg);
    SignAloneVerifies(env.h, secret, nonce, msg);
    assert Strip(Taking(op, outputs, KeySpend(sig))) == Strip(bare);
    hide Strip;
    SignatureSpends(env, prev, prev', bare, Taking(op, outputs, KeySpend(sig)), 0, key, sig);
  }

  lemma TakingUnlocks(d: Deal, outputs: seq<TxOut>)
    requires Honest(d)
    ensures Unlocks(d.env, Base(d), Taking(OutP(d), outputs, Unsigned), 0, PKey(d, Seller))
    ensures Unlocks(d.env, Warning(d, Buyer), Taking(OutW(d, Buyer), outputs, Unsigned), 0, PKey(d, Seller))
  {
    OutputsFound(d, Seller);
    KeysArePartners(d, Seller);
    hide PKey, QKey, Base, GoodKeys, GoodDeposit, Partners, Lockable, ScriptOf, Warning, Prevouts, KeySpentBy;
    assert InputOf(d, PKey(d, Seller)) == TxIn(OutP(d), SEQUENCE_MAX, Unsigned);
    hide InputOf, TxInFor, Unlocks;
    OneUnlocks(d.env, Base(d), PKey(d, Seller), InputOf(d, PKey(d, Seller)), Taking(OutP(d), outputs, Unsigned));
    OneFundUnlocks(d, outputs);
  }

  lemma OneFundUnlocks(d: Deal, outputs: seq<TxOut>)
    requires Honest(d)
    ensures Unlocks(d.env, Warning(d, Buyer), Taking(OutW(d, Buyer), outputs, Unsigned), 0, PKey(d, Seller))
  {
    WarningOutputLock(d, Buyer, PKey(d, Seller));
    FundsResolve(d.env, Warning(d, Buyer), SEQUENCE_MAX);
    hide PKey, QKey, Base, GoodKeys, GoodDeposit, Warning, Prevouts, KeySpentBy;
  }

  // ------------------------------------------------------ when it can be confirmed

  /** Where the buyer's warning stands, its output can be taken at once, already in
      the warning's own block, for outputs up to the whole funds. The claim has to
      wait two blocks and the redirect one. */
  lemma TakingFits(d: Deal, c: Chain, height: nat, outputs: seq<TxOut>, wit: Witness)
    requires GoodAmounts(d.pay) && Sound(d.env, c) && WarningStands(d, c, Buyer, height)
    requires |outputs| < 0x1_0000_0000
    ensures Confirmable(c, Taking(OutW(d, Buyer), outputs, wit)) <==> Total(outputs) <= Funds(d.pay)
  {
    assert Rooted(d.env, c, OutW(d, Buyer));
    hide Confirmable, Sound, Rooted, ScriptOf, InputOf, KeySpentBy;
    OneInput(c, Taking(OutW(d, Buyer), outputs, wit));
  }

  /** This transaction is one of the contract's, with some witnesses. */
  ghost predicate OfContract(d: Deal, tx: Tx)
    requires GoodAmounts(d.pay)
  {
    || Strip(tx) == Strip(Swap(d))
    || exists role: Role ::
         || Strip(tx) == Strip(Warning(d, role))
         || Strip(tx) == Strip(Claim(d, role))
         || Strip(tx) == Strip(Redirect(d, role))
  }

  /** Whatever spends the first output of the buyer's warning, no transaction of the
      contract can be confirmed from then on, in any run. */
  lemma NothingAfter(d: Deal, c: Chain, tx: Tx, steps: seq<Step>, next: Tx)
    requires GoodAmounts(d.pay) && CollisionFree(d.env) && Sound(d.env, c) && Confirmable(c, tx)
    requires OutW(d, Buyer) in SpentBy(tx) && OfContract(d, next)
    ensures !Confirmable(Run(d.env, Confirmed(d.env, c, tx), steps), next)
  {
    hide Run, Confirmed, Confirmable, SpentBy, Sound, OutW, OfContract, Is;
    SpendsCoins(c, tx);
    ConfirmOnward(d.env, c, tx, steps);
    WarningCoin(d, c, Buyer);
    var i :| 0 <= i < |c.log| && Is(c.log[i], Warning(d, Buyer));
    NothingLeft(d, Run(d.env, Confirmed(d.env, c, tx), steps), i, next);
  }

  /** A chain that has the buyer's warning, with its first output spent. */
  lemma NothingLeft(d: Deal, c: Chain, i: nat, next: Tx)
    requires GoodAmounts(d.pay) && CollisionFree(d.env) && Sound(d.env, c) && OfContract(d, next)
    requires i < |c.log| && Is(c.log[i], Warning(d, Buyer)) && OutW(d, Buyer) in c.spent
    ensures !Confirmable(c, next)
  {
    assert c.coins.Keys !! c.spent && SpentBy(c.log[i].tx) <= c.spent;
    hide Sound, Is, SpentBy, OutP, OutQ, OutW, Confirmable, Swap, Warning, Claim, Redirect, Strip;
    ContractSpends(d, c.log[i]);
    if Confirmable(c, next) {
      SpendsCoins(c, next);
      var e := Entry(next, 0, 0);
      ContractSpends(d, e);
      ContractIs(d, e);
      NoSellersWarning(d, c, i);
      assert false;
    }
  }

  lemma ContractIs(d: Deal, e: Entry)
    requires GoodAmounts(d.pay) && OfContract(d, e.tx)
    ensures Warns(d, e) || Ends(d, e)
  {
    hide Strip, Swap, Warning, Claim, Redirect;
    if Strip(e.tx) != Strip(Swap(d)) {
      var role: Role :| Strip(e.tx) == Strip(Warning(d, role)) || Strip(e.tx) == Strip(Claim(d, role))
                        || Strip(e.tx) == Strip(Redirect(d, role));
      assert role.Seller? || role.Buyer?;
      assert role.Other().Other() == role;
    }
  }

  /** The buyer's warning excludes the seller's. */
  lemma NoSellersWarning(d: Deal, c: Chain, i: nat)
    requires GoodAmounts(d.pay) && CollisionFree(d.env) && Sound(d.env, c)
    requires i < |c.log| && Is(c.log[i], Warning(d, Buyer)) && OutW(d, Buyer) in c.spent
    ensures OutW(d, Seller) !in c.coins
  {
    if OutW(d, Seller) in c.coins {
      assert c.coins.Keys !! c.spent;
      WarningCoin(d, c, Seller);
      hide Sound, Is, OutW;
      var j :| 0 <= j < |c.log| && Is(c.log[j], Warning(d, Seller));
      OneWarning(d, c, i, j);
      assert false;
    }
  }

  /** Confirmed warnings of both traders could only be one transaction. */
  lemma OneWarning(d: Deal, c: Chain, i: nat, j: nat)
    requires GoodAmounts(d.pay) && Sound(d.env, c) && i < |c.log| && j < |c.log|
    requires Is(c.log[i], Warning(d, Buyer)) && Is(c.log[j], Warning(d, Seller))
    ensures i == j && OutW(d, Seller) == OutW(d, Buyer)
  {
    assert NoDoubleSpend(c);
    hide Sound, Warning, SpentBy, OutP, OutQ;
    ContractSpends(d, c.log[i]);
    ContractSpends(d, c.log[j]);
    assert OutP(d) in SpentBy(c.log[i].tx) && OutP(d) in SpentBy(c.log[j].tx);
    WitnessesDoNotCount(d.env, Warning(d, Seller), c.log[j].tx);
    WitnessesDoNotCount(d.env, Warning(d, Buyer), c.log[i].tx);
  }

  // ------------------------------------------------------ how long the way stays open

  /** Some continuation leaves the first output of the buyer's warning unspent. */
  ghost predicate StaysOpen(d: Deal, c: Chain)
    requires GoodAmounts(d.pay)
  {
    exists steps :: OutW(d, Buyer) in Run(d.env, c, steps).coins
  }

  /** What a run of the chain starts from: the confirmed deposit of an honest deal. */
  ghost predicate Deposited(d: Deal, c: Chain) {
    && Honest(d) && CollisionFree(d.env) && Sound(d.env, c) && DepositStands(d, c)
    && ScriptOf(d, PKey(d, Seller)) != ScriptOf(d, QKey(d, Seller))
  }

  ghost predicate Unspent(d: Deal, c: Chain) {
    OutP(d) in c.coins && OutQ(d) in c.coins
  }

  /** These end the way: the swap, the seller's warning, and whatever spends the
      deposit's first output or that of the buyer's warning. */
  ghost predicate Closes(d: Deal, e: Entry)
    requires GoodAmounts(d.pay)
  {
    Is(e, Swap(d)) || Is(e, Warning(d, Seller)) || SpendsWarning(d, Buyer, e) || Takes(d, e)
  }

  /** The deposit, as a run from it leaves it. */
  lemma DepositOnward(d: Deal, c: Chain, steps: seq<Step>)
    requires Deposited(d, c)
    ensures
      var end := Run(d.env, c, steps);
      && Sound(d.env, end) && c.log <= end.log && c.spent <= end.spent
      && (OutP(d) in end.coins || OutP(d) in end.spent) && (OutQ(d) in end.coins || OutQ(d) in end.spent)
      && (Unspent(d, end) ==> DepositStands(d, end))
  {
    hide Run, Honest, OutP, OutQ, ScriptOf, LocksKept, Sound, Base;
    RunsAreSound(d.env, c, steps);
    LogGrows(d.env, c, steps);
    SpentStays(d.env, c, steps);
    CoinOnward(d, c, steps, OutP(d));
    CoinOnward(d, c, steps, OutQ(d));
  }

  lemma CoinOnward(d: Deal, c: Chain, steps: seq<Step>, op: OutPoint)
    requires CollisionFree(d.env) && Sound(d.env, c) && IsDeposited(d, c, op)
    ensures IsDeposited(d, Run(d.env, c, steps), op) || op in Run(d.env, c, steps).spent
    ensures op in Run(d.env, c, steps).coins ==> IsDeposited(d, Run(d.env, c, steps), op)
  {
    hide Run, Sound, Base, LocksKept;
    RunsAreSound(d.env, c, steps);
    CoinsAreUnspent(d.env, Run(d.env, c, steps));
    CoinStays(d.env, c, steps, op, c.coins[op]);
  }

  /** Before the run there was no warning, spent or not. */
  lemma NothingBefore(d: Deal, c: Chain, owner: Role)
    requires Deposited(d, c)
    ensures OutW(d, owner) !in c.coins && OutW(d, owner) !in c.spent
    ensures OutW(d, owner) != OutP(d) && OutW(d, owner) != OutQ(d)
    ensures OutP(d) !in c.spent && OutQ(d) !in c.spent
    ensures forall i :: 0 <= i < |c.log| ==> !Is(c.log[i], Warning(d, owner))
  {
    assert c.coins.Keys !! c.spent;
    hide Honest, OutP, OutQ, ScriptOf, Is, Warning, OutW;
    NoWarningYet(d, c, owner);
    forall i | 0 <= i < |c.log| ensures !Is(c.log[i], Warning(d, owner)) {
      assert SpentBy(c.log[i].tx) <= c.spent;
      ContractSpends(d, c.log[i]);
    }
    SpentWarningIs(d, c, owner);
  }

  /** A warning's output that was spent had been made by the warning. */
  lemma SpentWarningIs(d: Deal, c: Chain, owner: Role)
    requires GoodAmounts(d.pay) && CollisionFree(d.env) && Sound(d.env, c)
    ensures OutW(d, owner) in c.spent ==> exists i :: 0 <= i < |c.log| && Is(c.log[i], Warning(d, owner))
  {
    var op := OutW(d, owner);
    if op in c.spent {
      NotMinting(d, owner);
      assert Origin(d.env, c, op) && op !in c.mints;
      hide Sound, Warning, Minting, Is;
      var i :| 0 <= i < |c.log| && Creates(d.env, c.log[i], op);
      WarningById(d, c.log[i], owner);
    }
  }

  /** The buyer's warning can come to stand exactly while it does, or while both
      outputs of the deposit are unspent. */
  lemma OpenInCoins(d: Deal, start: Chain, steps: seq<Step>)
    requires Deposited(d, start)
    ensures
      var c := Run(d.env, start, steps);
      StaysOpen(d, c) <==> OutW(d, Buyer) in c.coins || Unspent(d, c)
  {
    var c := Run(d.env, start, steps);
    DepositOnward(d, start, steps);
    hide Run, Sound, DepositStands, OutP, OutQ, OutW, ScriptOf, Warning, Confirmable, Confirmed;
    if Unspent(d, c) {
      DepositSpendable(d, c, Buyer);
      ThenStands(d, c);
    } else if OutW(d, Buyer) in c.coins {
      RunOfNone(d.env, c);
    } else if StaysOpen(d, c) {
      var more :| OutW(d, Buyer) in Run(d.env, c, more).coins;
      NeverStands(d, start, steps, more);
      assert false;
    }
  }

  lemma RunOfNone(env: Encoding, c: Chain)
    ensures Run(env, c, []) == c
  {
  }

  lemma ThenStands(d: Deal, c: Chain)
    requires GoodAmounts(d.pay) && Confirmable(c, Warning(d, Buyer))
    ensures StaysOpen(d, c)
  {
    hide Confirmable, Confirmed, Warning;
    var steps := [Confirm(Warning(d, Buyer))];
    assert steps[..0] == [];
    RunOfNone(d.env, c);
    assert Run(d.env, c, steps) == Confirmed(d.env, c, Warning(d, Buyer));
    WarningConfirmed(d, c, Buyer);
  }

  /** A warning confirmed in the run leaves its first output, unspent or spent. */
  lemma WarningLeaves(d: Deal, start: Chain, steps: seq<Step>, j: nat)
    requires GoodAmounts(d.pay) && CollisionFree(d.env) && Sound(d.env, start)
    requires |start.log| <= j < |Run(d.env, start, steps).log|
    requires Is(Run(d.env, start, steps).log[j], Warning(d, Buyer))
    ensures
      var c := Run(d.env, start, steps);
      OutW(d, Buyer) in c.coins || OutW(d, Buyer) in c.spent
  {
    hide Run, Sound, InputOf, ScriptOf, KeySpentBy;
    var e := Run(d.env, start, steps).log[j];
    BareTx(e, Warning(d, Buyer));
    WitnessesDoNotCount(d.env, Warning(d, Buyer), e.tx);
    MadeInRun(d.env, start, steps, j, 0);
  }

  lemma NeverStands(d: Deal, start: Chain, steps: seq<Step>, more: seq<Step>)
    requires Deposited(d, start)
    requires
      var c := Run(d.env, start, steps);
      !Unspent(d, c) && OutW(d, Buyer) !in c.coins
    ensures OutW(d, Buyer) !in Run(d.env, Run(d.env, start, steps), more).coins
  {
    var c := Run(d.env, start, steps);
    var end := Run(d.env, c, more);
    DepositOnward(d, start, steps);
    if OutW(d, Buyer) in end.coins {
      RunsAreSound(d.env, c, more);
      LogGrows(d.env, c, more);
      SpentStays(d.env, c, more);
      assert end.coins.Keys !! end.spent;
      hide Run, Sound, DepositStands, OutP, OutQ, OutW, ScriptOf, Warning, LocksKept, Honest, SpentBy, Is;
      assert GoodAmounts(d.pay);
      WarningCoin(d, end, Buyer);
      var j :| 0 <= j < |end.log| && Is(end.log[j], Warning(d, Buyer));
      ContractSpends(d, end.log[j]);
      if j < |c.log| {
        NothingBefore(d, start, Buyer);
        WarningLeaves(d, start, steps, j);
        assert false;
      } else {
        SpentAnew(d.env, c, more, j);
        assert false;
      }
    }
  }

  /** In a run from the deposit in which the contract's outputs are spent as agreed,
      the way stays open exactly as long as none of these was confirmed: the swap,
      the seller's warning, the claim or redirect on the buyer's warning, or a
      transaction that took one of the two outputs. */
  lemma OpenExactly(d: Deal, start: Chain, steps: seq<Step>)
    requires Deposited(d, start) && AsAgreed(d, Run(d.env, start, steps).log, |start.log|)
    ensures
      var c := Run(d.env, start, steps);
      StaysOpen(d, c) <==> forall i :: |start.log| <= i < |c.log| ==> !Closes(d, c.log[i])
  {
    var c, n := Run(d.env, start, steps), |start.log|;
    DepositOnward(d, start, steps);
    OpenInCoins(d, start, steps);
    hide Run, Sound, DepositStands, OutP, OutQ, OutW, ScriptOf, Honest, Closes, StaysOpen, AsAgreed;
    if forall i :: n <= i < |c.log| ==> !Closes(d, c.log[i]) {
      if !Unspent(d, c) {
        var op := if OutP(d) in c.coins then OutQ(d) else OutP(d);
        var j := WarningSpent(d, start, steps, op);
        BuyersOutputUnspent(d, start, steps, j);
      }
    } else {
      var i :| n <= i < |c.log| && Closes(d, c.log[i]);
      ClosedFor(d, start, c, i);
    }
  }

  /** Without a closing transaction, only the buyer's warning spends the deposit. */
  lemma WarningSpent(d: Deal, start: Chain, steps: seq<Step>, op: OutPoint) returns (j: nat)
    requires Deposited(d, start) && AsAgreed(d, Run(d.env, start, steps).log, |start.log|)
    requires op in {OutP(d), OutQ(d)} && op in Run(d.env, start, steps).spent
    requires
      var log := Run(d.env, start, steps).log;
      forall i :: |start.log| <= i < |log| ==> !Closes(d, log[i])
    ensures |start.log| <= j < |Run(d.env, start, steps).log|
    ensures Is(Run(d.env, start, steps).log[j], Warning(d, Buyer))
  {
    hide Run, Sound, DepositStands, OutP, OutQ, OutW, ScriptOf, Honest, Is, Warning, SpentBy, AsAgreed;
    j := DepositSpender(d, start, steps, op);
  }

  /** Without a closing transaction, nothing spends the warning's output. */
  lemma BuyersOutputUnspent(d: Deal, start: Chain, steps: seq<Step>, j: nat)
    requires Deposited(d, start) && AsAgreed(d, Run(d.env, start, steps).log, |start.log|)
    requires |start.log| <= j < |Run(d.env, start, steps).log| && Is(Run(d.env, start, steps).log[j], Warning(d, Buyer))
    requires
      var log := Run(d.env, start, steps).log;
      forall i :: |start.log| <= i < |log| ==> !Closes(d, log[i])
    ensures OutW(d, Buyer) in Run(d.env, start, steps).coins
  {
    assert GoodAmounts(d.pay);
    hide Run, Sound, DepositStands, OutP, OutQ, OutW, ScriptOf, Honest, Is, Warning, SpentBy, Closes;
    var c, op := Run(d.env, start, steps), OutW(d, Buyer);
    WarningLeaves(d, start, steps, j);
    NothingBefore(d, start, Buyer);
    WarningOutsDiffer(d);
    if op in c.spent {
      var k := SpentInRun(d.env, start, steps, op);
      WarningSpender(d, c.log[k]);
    }
  }

  /** What spends the first output of the buyer's warning, as agreed. */
  lemma WarningSpender(d: Deal, e: Entry)
    requires GoodAmounts(d.pay) && OutW(d, Buyer) !in {OutP(d), OutQ(d), OutW(d, Seller)}
    requires OutW(d, Buyer) in SpentBy(e.tx)
    requires SpentBy(e.tx) * ContractOuts(d) != {} ==> Warns(d, e) || Ends(d, e) || Takes(d, e)
    ensures Closes(d, e)
  {
    hide OutP, OutQ, OutW, Is, SpentBy, Takes;
    assert OutW(d, Buyer) in SpentBy(e.tx) * ContractOuts(d);
    ContractSpends(d, e);
  }

  /** Warnings that pay to different scripts are different transactions. */
  lemma WarningOutsDiffer(d: Deal)
    requires GoodAmounts(d.pay) && CollisionFree(d.env) && ScriptOf(d, PKey(d, Seller)) != ScriptOf(d, QKey(d, Seller))
    ensures OutW(d, Seller) != OutW(d, Buyer)
  {
    hide InputOf, ScriptOf, PKey, QKey;
    assert Strip(Warning(d, Seller)).outputs[0] != Strip(Warning(d, Buyer)).outputs[0];
  }

  /** After a closing transaction neither can be: the deposit unspent, or the
      first output of the buyer's warning. */
  lemma ClosedFor(d: Deal, start: Chain, c: Chain, i: nat)
    requires Deposited(d, start) && Sound(d.env, c) && i < |c.log| && Closes(d, c.log[i])
    ensures !Unspent(d, c) && OutW(d, Buyer) !in c.coins
  {
    var e := c.log[i];
    CoinsAreUnspent(d.env, c);
    assert SpentBy(e.tx) <= c.spent;
    hide Sound, DepositStands, OutP, OutQ, OutW, ScriptOf, Honest, Is, Warning, SpentBy;
    ContractSpends(d, e);
    if Takes(d, e) {
      TakenIsSpent(d, e);
    }
    SpentWarningTakesP(d, c);
    if OutW(d, Buyer) !in SpentBy(e.tx) {
      OtherSpender(d, c, i);
    }
  }

  /** What spends an output of the deposit keeps the buyer's warning out. */
  lemma OtherSpender(d: Deal, c: Chain, i: nat)
    requires GoodAmounts(d.pay) && CollisionFree(d.env) && Sound(d.env, c) && i < |c.log|
    requires ScriptOf(d, PKey(d, Seller)) != ScriptOf(d, QKey(d, Seller))
    requires Closes(d, c.log[i]) && (OutP(d) in SpentBy(c.log[i].tx) || OutQ(d) in SpentBy(c.log[i].tx))
    ensures OutW(d, Buyer) !in c.coins
  {
    assert NoDoubleSpend(c);
    if OutW(d, Buyer) in c.coins {
      WarningCoin(d, c, Buyer);
    }
    WarningOutsDiffer(d);
    hide Sound, OutP, OutQ, ScriptOf, SpentBy, Warning;
    forall j | 0 <= j < |c.log| ensures !Is(c.log[j], Warning(d, Buyer)) {
      BothSpend(d, c, i, j);
    }
  }

  lemma BothSpend(d: Deal, c: Chain, i: nat, j: nat)
    requires GoodAmounts(d.pay) && Sound(d.env, c) && i < |c.log| && j < |c.log|
    requires OutW(d, Seller) != OutW(d, Buyer)
    requires Closes(d, c.log[i]) && (OutP(d) in SpentBy(c.log[i].tx) || OutQ(d) in SpentBy(c.log[i].tx))
    ensures !Is(c.log[j], Warning(d, Buyer))
  {
    if Is(c.log[j], Warning(d, Buyer)) && Is(c.log[i], Warning(d, Seller)) {
      OneWarning(d, c, j, i);
      assert false;
    }
    assert NoDoubleSpend(c);
    hide Sound, OutP, OutQ, OutW, SpentBy, Warning, Is;
    ContractSpends(d, c.log[i]);
    ContractSpends(d, c.log[j]);
    assert Takes(d, c.log[i]) ==> !Warns(d, c.log[i]);
    assert i != j ==> SpentBy(c.log[i].tx) !! SpentBy(c.log[j].tx);
  }

  lemma TakenIsSpent(d: Deal, e: Entry)
    requires GoodAmounts(d.pay) && Takes(d, e)
    ensures !Warns(d, e) && (OutP(d) in SpentBy(e.tx) || OutW(d, Buyer) in SpentBy(e.tx))
  {
    hide Warns, Ends, OutP, OutW, SpentBy;
    if TakesOut(d, e, OutP(d)) {
      assert OutP(d) in SpentBy(e.tx) * ContractOuts(d);
    } else {
      assert OutW(d, Buyer) in SpentBy(e.tx) * ContractOuts(d);
    }
  }

  lemma SpentWarningTakesP(d: Deal, c: Chain)
    requires GoodAmounts(d.pay) && CollisionFree(d.env) && Sound(d.env, c)
    ensures OutW(d, Buyer) in c.spent ==> OutP(d) in c.spent
  {
    SpentWarningIs(d, c, Buyer);
    if OutW(d, Buyer) in c.spent {
      var i :| 0 <= i < |c.log| && Is(c.log[i], Warning(d, Buyer));
      assert SpentBy(c.log[i].tx) <= c.spent;
      hide Sound, Is, OutP, OutQ, SpentBy;
      ContractSpends(d, c.log[i]);
    }
  }

  // ------------------------------------------------------ how long warnings are possible

  ghost predicate WarningPossible(d: Deal, c: Chain, owner: Role)
    requires GoodAmounts(d.pay)
  {
    exists steps :: Confirmable(Run(d.env, c, steps), Warning(d, owner))
  }

  /** A warning can still be confirmed exactly until the swap or a warning is, or the
      deposit's first output is taken. That the swap's signature was seen somewhere
      else, and with it the secret of P', makes no difference. */
  lemma SafeExactly(d: Deal, start: Chain, steps: seq<Step>, owner: Role)
    requires Deposited(d, start) && AsAgreed(d, Run(d.env, start, steps).log, |start.log|)
    ensures
      var c := Run(d.env, start, steps);
      !WarningPossible(d, c, owner)
      <==> exists i :: |start.log| <= i < |c.log|
                       && (Is(c.log[i], Swap(d)) || Warns(d, c.log[i]) || TakesOut(d, c.log[i], OutP(d)))
  {
    var c, n := Run(d.env, start, steps), |start.log|;
    DepositOnward(d, start, steps);
    PossibleInCoins(d, start, steps, owner);
    hide Run, DepositStands, OutP, OutQ, OutW, ScriptOf, Honest, Is, Warning, SpentBy, WarningPossible, TakesOut;
    if exists i :: n <= i < |c.log| && (Is(c.log[i], Swap(d)) || Warns(d, c.log[i]) || TakesOut(d, c.log[i], OutP(d))) {
      var i :| n <= i < |c.log| && (Is(c.log[i], Swap(d)) || Warns(d, c.log[i]) || TakesOut(d, c.log[i], OutP(d)));
      DepositGone(d, c, i);
    } else if !Unspent(d, c) {
      var op := if OutP(d) in c.coins then OutQ(d) else OutP(d);
      var j := DepositSpender(d, start, steps, op);
      assert false;
    }
  }

  lemma DepositGone(d: Deal, c: Chain, i: nat)
    requires GoodAmounts(d.pay) && Sound(d.env, c) && i < |c.log|
    requires Is(c.log[i], Swap(d)) || Warns(d, c.log[i]) || TakesOut(d, c.log[i], OutP(d))
    ensures !Unspent(d, c)
  {
    CoinsAreUnspent(d.env, c);
    assert SpentBy(c.log[i].tx) <= c.spent;
    hide Sound, Is, OutP, OutQ, OutW, SpentBy;
    ContractSpends(d, c.log[i]);
    assert TakesOut(d, c.log[i], OutP(d)) ==> OutP(d) in SpentBy(c.log[i].tx) * ContractOuts(d);
  }

  /** What spends an output of the deposit, as agreed. */
  lemma DepositSpender(d: Deal, start: Chain, steps: seq<Step>, op: OutPoint) returns (j: nat)
    requires Deposited(d, start) && AsAgreed(d, Run(d.env, start, steps).log, |start.log|)
    requires op in {OutP(d), OutQ(d)} && op in Run(d.env, start, steps).spent
    ensures
      var log := Run(d.env, start, steps).log;
      && |start.log| <= j < |log|
      && (Is(log[j], Swap(d)) || Warns(d, log[j]) || TakesOut(d, log[j], OutP(d)))
  {
    assert GoodAmounts(d.pay);
    hide Run, Sound, DepositStands, OutP, OutQ, OutW, ScriptOf, Honest, Is, Warning, SpentBy;
    NothingBefore(d, start, Seller);
    NothingBefore(d, start, Buyer);
    j := SpentInRun(d.env, start, steps, op);
    DepositSpenderIs(d, Run(d.env, start, steps).log[j], op);
  }

  lemma DepositSpenderIs(d: Deal, e: Entry, op: OutPoint)
    requires GoodAmounts(d.pay) && op in {OutP(d), OutQ(d)} && op !in {OutW(d, Seller), OutW(d, Buyer)}
    requires op in SpentBy(e.tx)
    requires SpentBy(e.tx) * ContractOuts(d) != {} ==> Warns(d, e) || Ends(d, e) || Takes(d, e)
    ensures Is(e, Swap(d)) || Warns(d, e) || TakesOut(d, e, OutP(d))
  {
    hide OutP, OutQ, OutW, Is, SpentBy;
    assert op in SpentBy(e.tx) * ContractOuts(d);
    ContractSpends(d, e);
  }

  lemma PossibleInCoins(d: Deal, start: Chain, steps: seq<Step>, owner: Role)
    requires Deposited(d, start)
    ensures
      var c := Run(d.env, start, steps);
      WarningPossible(d, c, owner) <==> Unspent(d, c)
  {
    var c := Run(d.env, start, steps);
    DepositOnward(d, start, steps);
    RunOfNone(d.env, c);
    hide Run, Sound, DepositStands, OutP, OutQ, ScriptOf, Warning, Confirmable;
    if Unspent(d, c) {
      DepositSpendable(d, c, owner);
      assert Confirmable(Run(d.env, c, []), Warning(d, owner));
    } else if WarningPossible(d, c, owner) {
      var more :| Confirmable(Run(d.env, c, more), Warning(d, owner));
      RunsAreSound(d.env, c, more);
      SpentStays(d.env, c, more);
      CoinsAreUnspent(d.env, Run(d.env, c, more));
      SpendsCoins(Run(d.env, c, more), Warning(d, owner));
      ContractSpends(d, Entry(Warning(d, owner), 0, 0));
      assert false;
    }
  }

  /** The way itself. As long as the deposit's outputs are unspent the buyer's
      warning can be confirmed, and in the same block a transaction that takes its
      whole first output to anywhere, with a valid signature by the secret that
      round five leaves with the buyer. No swap, warning, claim or redirect can be
      confirmed afterwards. */
  lemma OneBlock(d: Deal, start: Chain, steps: seq<Step>, outputs: seq<TxOut>, nonce: Scalar, more: seq<Step>, next: Tx)
    requires Completes(d) && Deposited(d, start) && Unspent(d, Run(d.env, start, steps))
    requires |outputs| < 0x1_0000_0000 && Total(outputs) <= Funds(d.pay) && nonce != 0 && OfContract(d, next)
    ensures
      var c, bare := Run(d.env, start, steps), Taking(OutW(d, Buyer), outputs, Unsigned);
      var tx := bare.(inputs := [bare.inputs[0].(wit := KeySpend(TakingSig(d, Warning(d, Buyer), bare, nonce)))]);
      && Confirmable(c, Warning(d, Buyer))
      && var warned := Confirmed(d.env, c, Warning(d, Buyer));
      && warned.height == c.height && Confirmable(warned, tx) && ValidKeySpend(d.env, Warning(d, Buyer), tx, 0)
      && !Confirmable(Run(d.env, Confirmed(d.env, warned, tx), more), next)
  {
    assert GoodAmounts(d.pay);
    hide Run, Honest, NoncesAddUp, PKey, QKey, DepositStands, ScriptOf, Sound, TakingSig, ValidKeySpend, Confirmable,
         Warning, WarningStands, OfContract, OutP, OutQ, OutW, Base;
    var c := Run(d.env, start, steps);
    DepositOnward(d, start, steps);
    DepositSpendable(d, c, Buyer);
    var warned := Confirmed(d.env, c, Warning(d, Buyer));
    ConfirmKeepsSound(d.env, c, Warning(d, Buyer));
    TakingIsSigned(d, outputs, nonce, Base(d), Warning(d, Buyer));
    var sig := TakingSig(d, Warning(d, Buyer), Taking(OutW(d, Buyer), outputs, Unsigned), nonce);
    var tx := Taking(OutW(d, Buyer), outputs, KeySpend(sig));
    TakingFits(d, warned, c.height, outputs, KeySpend(sig));
    SpentByOne(tx);
    NothingAfter(d, warned, tx, more, next);
  }
}
