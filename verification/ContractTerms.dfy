/** The terms of an honest deal, output by output, as both traders hold them after
    the second round. Amounts are in satoshis: a transaction fee is 1000, an
    anchor 330. */
module ContractTerms {
  import opened Results
  import opened Scalars
  import opened Musig
  import opened Sorting
  import opened Transactions
  import opened AggKeys
  import opened Deposits
  import opened DepositTxs
  import opened Contracts
  import opened FiveRounds
  import opened FiveRoundKeys
  import opened HonestSigning
  import opened FiveRoundDeal
  import opened FiveRoundCompletion
  import R = Redirects

  /** The script that pays to an aggregated key. */
  ghost predicate PaysKey(env: Encoding, out: TxOut, key: AggKey) {
    key.agg.Some? && out.script == P2tr(env.h.Even(key.agg.value.pubkey))
  }

  /** An input, unsigned as yet, that spends an output of prev with this value and
      key, under this sequence number. */
  ghost predicate Spends(env: Encoding, input: TxIn, prev: Tx, value: int, key: AggKey, sequence: nat) {
    && input.prev.txid == env.Txid(prev) && input.prev.vout < |prev.outputs|
    && prev.outputs[input.prev.vout].value == value && PaysKey(env, prev.outputs[input.prev.vout], key)
    && input.sequence == sequence && input.wit == Unsigned
  }

  ghost predicate AllBuilt(d: Deal, s: Party) {
    && s.deposit.tx.Some? && s.swap.tx.Some? && s.warnMe.tx.Some? && s.warnPeer.tx.Some?
    && s.claimMe.tx.Some? && s.claimPeer.tx.Some? && s.redirectMe.tx.Some? && s.redirectPeer.tx.Some?
    && 2330 <= d.pay.seller + d.pay.buyer <= MAX_AMOUNT && 1000 <= d.pay.buyer
  }

  /** The state after the second round, in the terms of the deal. */
  lemma AfterTwo(d: Deal, role: Role)
    requires Honest(d)
    ensures AllBuilt(d, d.After2(role).0)
    ensures
      var s := d.After2(role).0;
      && s.pTik == PKey(d, role) && s.qTik == QKey(d, role)
      && s.swap.tx.value == Swap(d)
      && s.warnMe.tx.value == Warning(d, role) && s.warnPeer.tx.value == Warning(d, role.Other())
      && s.claimMe.tx.value == Claim(d, role) && s.claimPeer.tx.value == Claim(d, role.Other())
      && s.redirectMe.tx.value == Redirect(d, role) && s.redirectPeer.tx.value == Redirect(d, role.Other())
      && Strip(s.deposit.tx.value) == Strip(Base(d))
  {
    hide PKey, QKey, Base, GoodKeys, GoodDeposit, Deal.After2, Strip, Extract, MergedOf, Swap, Warning, Claim, Redirect,
         Built;
    SecondRoundBuilds(d, role);
    MergedBoth(d, role);
    BuiltIs(d, role);
  }

  lemma BuiltIs(d: Deal, role: Role)
    requires GoodAmounts(d.pay) && MergedOf(d, role).Some?
    ensures
      var s := Built(d, role);
      && s.pTik == PKey(d, role) && s.qTik == QKey(d, role) && s.swap.tx == Some(Swap(d))
      && s.warnMe.tx == Some(Warning(d, role)) && s.warnPeer.tx == Some(Warning(d, role.Other()))
      && s.claimMe.tx == Some(Claim(d, role)) && s.claimPeer.tx == Some(Claim(d, role.Other()))
      && s.redirectMe.tx == Some(Redirect(d, role)) && s.redirectPeer.tx == Some(Redirect(d, role.Other()))
      && s.deposit.tx == Some(Extract(MergedOf(d, role).value))
  {
    hide PKey, QKey, Extract, MergedOf, Swap, Warning, Claim, Redirect, TikOf, OtherTikOf;
  }

  /** What the inputs on the deposit spend. */
  lemma DepositInputs(d: Deal, role: Role, deposit: Tx)
    requires Honest(d) && Strip(deposit) == Strip(Base(d))
    ensures Spends(d.env, InputOf(d, PKey(d, Seller)), deposit, d.pay.seller, PKey(d, role), 0xFFFF_FFFF)
    ensures Spends(d.env, InputOf(d, QKey(d, Seller)), deposit, d.pay.buyer, QKey(d, role), 0xFFFF_FFFF)
  {
    OutputsFound(d, role);
    KeysArePartners(d, role);
    assert deposit.outputs == Strip(deposit).outputs == Strip(Base(d)).outputs == Base(d).outputs;
    hide PKey, QKey, Base, Honest, Strip, InputOf, Partners, Lockable, AggKey.AggScript;
    InputsFound(d, role, deposit);
    FoundInput(d.env, deposit, PKey(d, role));
    FoundInput(d.env, deposit, QKey(d, role));
  }

  lemma FoundInput(env: Encoding, tx: Tx, key: AggKey)
    requires TxInFor(env, tx, key).Some? && Lockable(env, key)
    ensures
      var input := TxInFor(env, tx, key).value;
      && input.prev.vout < |tx.outputs|
      && Spends(env, input, tx, tx.outputs[input.prev.vout].value, key, 0xFFFF_FFFF)
  {
  }

  /** The swap spends the deposit's output of the buyer's amount, and pays it to the
      seller, less one fee. */
  lemma SwapTerms(d: Deal, role: Role)
    requires Honest(d)
    ensures AllBuilt(d, d.After2(role).0)
    ensures
      var s := d.After2(role).0;
      var swap := s.swap.tx.value;
      && |swap.inputs| == 1 && Spends(d.env, swap.inputs[0], s.deposit.tx.value, d.pay.buyer, s.qTik, 0xFFFF_FFFF)
      && swap.outputs == [TxOut(d.pay.buyer - 1000, d.seller.addresses.swap)]
  {
    hide PKey, QKey, Base, Honest, Deal.After2, Strip, InputOf, Spends;
    AfterTwo(d, role);
    DepositInputs(d, role, d.After2(role).0.deposit.tx.value);
  }

  /** A warning spends both outputs of the deposit, and pays all of it, less one fee
      and one anchor: the seller's to the key of the buyer's amount, the buyer's to
      the other. The anchor is for the trader whose warning it is. */
  lemma WarningTerms(d: Deal, role: Role)
    requires Honest(d)
    ensures AllBuilt(d, d.After2(role).0)
    ensures
      var s := d.After2(role).0;
      var warning, anchor := s.warnMe.tx.value, d.Of(role).addresses.warnAnchor;
      && |warning.inputs| == 2
      && Spends(d.env, warning.inputs[0], s.deposit.tx.value, d.pay.seller, s.pTik, 0xFFFF_FFFF)
      && Spends(d.env, warning.inputs[1], s.deposit.tx.value, d.pay.buyer, s.qTik, 0xFFFF_FFFF)
      && |warning.outputs| == 2 && warning.outputs[1] == TxOut(330, anchor)
      && warning.outputs[0].value == d.pay.seller + d.pay.buyer - 1330
      && PaysKey(d.env, warning.outputs[0], if role.Seller? then s.qTik else s.pTik)
  {
    hide PKey, QKey, Base, Honest, Deal.After2, Strip, InputOf, Spends, PaysKey;
    AfterTwo(d, role);
    DepositInputs(d, role, d.After2(role).0.deposit.tx.value);
    WarningPaysKey(d, role, role);
  }

  lemma WarningPaysKey(d: Deal, role: Role, owner: Role)
    requires Honest(d)
    ensures Warning(d, owner).outputs != []
    ensures PaysKey(d.env, Warning(d, owner).outputs[0], if owner.Seller? then QKey(d, role) else PKey(d, role))
  {
    var key := if owner.Seller? then QKey(d, role) else PKey(d, role);
    PartnerKeys(d, role);
    hide Warning, PKey, QKey, GoodKeys, GoodDeposit;
    WarningOutputLock(d, owner, key);
  }

  /** The claim spends the own warning's first output after two blocks, and pays it
      to its owner, less one fee. */
  lemma ClaimTerms(d: Deal, role: Role)
    requires Honest(d)
    ensures AllBuilt(d, d.After2(role).0)
    ensures
      var s := d.After2(role).0;
      var claim, funds := s.claimMe.tx.value, d.pay.seller + d.pay.buyer - 1330;
      && |claim.inputs| == 1 && claim.inputs[0].prev.vout == 0
      && Spends(d.env, claim.inputs[0], s.warnMe.tx.value, funds, if role.Seller? then s.qTik else s.pTik, 2)
      && claim.outputs == [TxOut(d.pay.seller + d.pay.buyer - 2330, d.Of(role).addresses.claim)]
  {
    hide PKey, QKey, Base, Honest, Deal.After2, Strip, InputOf, ScriptOf, KeySpentBy, PaysKey;
    AfterTwo(d, role);
    WarningPaysKey(d, role, role);
  }

  /** The redirect spends the other's warning's first output after one block, and
      pays it, less one fee and one anchor, to the two receivers: six tenths of the
      amount to the first and four tenths to the second, each to within three parts
      in 2^24 and one satoshi. */
  lemma RedirectTerms(d: Deal, role: Role)
    requires Honest(d)
    ensures AllBuilt(d, d.After2(role).0)
    ensures
      var s := d.After2(role).0;
      var redirect, funds := s.redirectMe.tx.value, d.pay.seller + d.pay.buyer - 1330;
      && |redirect.inputs| == 1 && redirect.inputs[0].prev.vout == 0
      && Spends(d.env, redirect.inputs[0], s.warnPeer.tx.value, funds, if role.Seller? then s.pTik else s.qTik, 1)
    ensures
      var outputs, amount := d.After2(role).0.redirectMe.tx.value.outputs, d.pay.seller + d.pay.buyer - 2330;
      && |outputs| == 3 && outputs[2] == TxOut(330, d.Of(role).addresses.redirectAnchor)
      && outputs[0].script == d.env.dao60 && R.Near(10 * outputs[0].value, 6 * amount, 10)
      && outputs[1].script == d.env.dao40 && R.Near(10 * outputs[1].value, 4 * amount, 10)
  {
    hide PKey, QKey, Base, Honest, Deal.After2, Strip, InputOf, ScriptOf, KeySpentBy, PaysKey, R.Share60, R.Share40,
         R.Near;
    AfterTwo(d, role);
    WarningPaysKey(d, role, role.Other());
    R.SharesNear(Funds(d.pay) - FEE);
  }

  // ------------------------------------------------------ what is refused

  /** A first round that cannot fund the deposit counts as done, and only the seller
      says where the swap is to pay. */
  lemma FirstRoundGives(s: Party, part: Option<Psbt>, a: Addresses)
    requires s.round == 0
    ensures
      var (s', r) := s.Round1(part, a);
      && (part.None? ==> r.Err? && s' == s.(round := 1))
      && (part.Some? ==>
            && s'.round == 1 && s'.deposit.partPsbt == part && r.Ok? && r.value.depPartPsbt == part.value
            && r.value.pA == BaseMul(s.pTik.sec) && r.value.qA == BaseMul(s.qTik.sec)
            && r.value.swapScript == (if s.role.Seller? then Some(a.swap) else None)
            && r.value.warnAnchorSpend == a.warnAnchor && r.value.claimSpend == a.claim
            && r.value.redirectAnchorSpend == a.redirectAnchor)
  {
  }

  /** A second round stops before it builds anything when the two points that arrive
      are one, or one of them is the trader's own for that key. */
  lemma SecondRoundRefuses(env: Encoding, s: Party, bob: Round1Parameter, n: Nonces, shuffles: Shuffles)
    requires s.round == 1
    requires bob.pA == bob.qA || bob.pA == BaseMul(s.pTik.sec) || bob.qA == BaseMul(s.qTik.sec)
    ensures
      var (s', r) := s.Round2(env, bob, n, shuffles);
      r.Err? && s' == s.(round := 2, pTik := s'.pTik, qTik := s'.qTik)
  {
    hide NewKeyAgg, TapTweaked;
  }

  /** A third round stops before it signs anything when the other's aggregated keys
      differ, or the other's deposit is another transaction or not fully signed;
      and it fails, with the deposit completed, when that cannot be broadcast. */
  lemma ThirdRoundRefuses(env: Encoding, s: Party, bob: Round2Parameter, broadcast: bool)
    requires s.round == 2 && s.pTik.agg.Some? && s.qTik.agg.Some? && s.deposit.signedPsbt.Some?
    ensures
      var mine, theirs := s.deposit.signedPsbt.value, bob.depositTxSigned;
      var (s', r) := s.Round3(env, bob, broadcast);
      && (|| bob.pAgg != s.pTik.agg.value.pubkey || bob.qAgg != s.qTik.agg.value.pubkey || theirs.tx != mine.tx
          || (exists i :: 0 <= i < |mine.inputs| && mine.inputs[i].wit.None? && theirs.inputs[i].wit.None?)
          ==> r.Err? && s' == s.(round := 3))
      && (!broadcast ==> r.Err? && s' == s.(round := 3, deposit := s'.deposit))
  {
    hide Party.SignSwap, Party.SignWarnings, Party.SignClaims, Party.SignRedirects;
    var mine, theirs := s.deposit.signedPsbt.value, bob.depositTxSigned;
    CompletedIs(env, mine, theirs);
  }

  /** A buyer's fifth round succeeds only with a secret that is not zero and that
      makes up the secret of P' together with the own one; a seller's changes nothing. */
  lemma FifthRoundTakes(env: Encoding, s: Party, bob: Round4Parameter)
    requires s.round == 4
    ensures
      var (s', fault) := s.Round5(env, bob);
      && s' == s.(round := 5, pTik := s'.pTik)
      && (s.role.Seller? ==> fault.None? && s'.pTik == s.pTik)
      && (s.role.Buyer? && fault.None? ==>
            && s'.pTik.otherSec.Some? && s'.pTik.otherSec.value != 0
            && s'.pTik.agg.Some? && s'.pTik.agg == s.pTik.agg
            && s'.pTik.aggSec.Some? && BaseMul(s'.pTik.aggSec.value) == s.pTik.agg.value.pubkey)
      && (fault.Some? ==> s'.pTik.aggSec == s.pTik.aggSec)
  {
    hide Reveal, AggKey.WithOtherSecret, AggSecKey, TMuSig2.RevealSecret;
    if s.role.Buyer? && bob.swapOnchain.Some? && KeyPathSignature(bob.swapOnchain.value, 0).Some? && s.swap.sig.Some? {
      var final := KeyPathSignature(bob.swapOnchain.value, 0).value;
      OnlyRealSecret(s.swap.sig.value, final);
      var secret := s.swap.sig.value.RevealSecret(final);
      if secret.Ok? {
        OnlyFittingSecret(env, s.pTik, secret.value);
      }
    }
  }
}
