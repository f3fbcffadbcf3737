/** In every run of the five-round protocol, each signing context of a trader
    holds the key that locks the output its input spends. */
module FiveRoundKeys {
  import opened Results
  import opened Scalars
  import opened Musig
  import opened Transactions
  import opened AggKeys
  import opened Deposits
  import opened DepositTxs
  import opened Contracts
  import opened FiveRounds
  import opened FiveRoundRuns

  /** The script of an output that a signature by this key spends. */
  function LockOf(env: Encoding, key: AggKey): Option<Script> {
    if key.agg.None? then None else Some(P2tr(env.h.Even(key.agg.value.pubkey)))
  }

  /** All inputs of tx spend outputs of prev, and the output that input i spends is locked by the key. */
  predicate Locked(env: Encoding, prev: Option<Tx>, tx: Tx, i: nat, sig: Option<TMuSig2>) {
    && prev.Some? && sig.Some?
    && var prevouts := Prevouts(env, prev.value, tx.inputs);
    && prevouts.Some? && i < |prevouts.value|
    && Some(prevouts.value[i].script) == LockOf(env, sig.value.aggKey)
  }

  predicate SpendLocked(env: Encoding, prev: Option<Tx>, x: SpendTx) {
    x.tx.Some? ==> |x.tx.value.inputs| == 1 && Locked(env, prev, x.tx.value, 0, x.sig)
  }

  predicate WarningLocked(env: Encoding, deposit: Option<Tx>, w: WarningTx) {
    w.tx.Some? ==>
      |w.tx.value.inputs| == 2
      && Locked(env, deposit, w.tx.value, 0, w.sigP)
      && Locked(env, deposit, w.tx.value, 1, w.sigQ)
  }

  /** The deposit's outputs unlock for the warning and swap transactions, a
      warning's first output for the claim and the redirect that spend it. */
  predicate KeysMatch(env: Encoding, s: Party) {
    && SpendLocked(env, s.deposit.tx, s.swap)
    && WarningLocked(env, s.deposit.tx, s.warnMe) && WarningLocked(env, s.deposit.tx, s.warnPeer)
    && SpendLocked(env, s.warnMe.tx, s.claimMe) && SpendLocked(env, s.warnPeer.tx, s.claimPeer)
    && SpendLocked(env, s.warnPeer.tx, s.redirectMe) && SpendLocked(env, s.warnMe.tx, s.redirectPeer)
    && (s.deposit.signedPsbt.Some? ==> s.deposit.tx == Some(Extract(s.deposit.signedPsbt.value)))
  }

  // ------------------------------------------------------ witnesses do not matter

  predicate SameBare(a: Option<Tx>, b: Option<Tx>) {
    a.Some? == b.Some? && (a.Some? ==> Strip(a.value) == Strip(b.value))
  }

  predicate SameKey(a: Option<TMuSig2>, b: Option<TMuSig2>) {
    a.Some? ==> b.Some? && a.value.aggKey == b.value.aggKey
  }

  lemma LockedBare(env: Encoding, prev: Option<Tx>, prev': Option<Tx>, tx: Tx, tx': Tx, i: nat, sig: Option<TMuSig2>,
                   sig': Option<TMuSig2>)
    requires Locked(env, prev, tx, i, sig)
    requires SameBare(prev, prev') && Strip(tx) == Strip(tx') && SameKey(sig, sig')
    ensures Locked(env, prev', tx', i, sig')
    ensures |tx'.inputs| == |tx.inputs|
  {
    hide Prevouts;
    WitnessesDoNotCount(env, prev.value, prev'.value);
    WitnessesDoNotCount(env, tx, tx');
    assert |Strip(tx').inputs| == |tx'.inputs|;
    PrevoutsOfBare(env, prev.value, tx, tx');
  }

  lemma SpendBare(env: Encoding, prev: Option<Tx>, prev': Option<Tx>, x: SpendTx, x': SpendTx)
    requires SpendLocked(env, prev, x)
    requires SameBare(prev, prev') && SameBare(x.tx, x'.tx) && SameKey(x.sig, x'.sig)
    ensures SpendLocked(env, prev', x')
  {
    hide Locked, SameKey, Strip;
    if x.tx.Some? {
      LockedBare(env, prev, prev', x.tx.value, x'.tx.value, 0, x.sig, x'.sig);
    }
  }

  lemma WarningBare(env: Encoding, prev: Option<Tx>, prev': Option<Tx>, w: WarningTx, w': WarningTx)
    requires WarningLocked(env, prev, w)
    requires SameBare(prev, prev') && SameBare(w.tx, w'.tx) && SameKey(w.sigP, w'.sigP) && SameKey(w.sigQ, w'.sigQ)
    ensures WarningLocked(env, prev', w')
  {
    hide Locked, SameKey, Strip;
    if w.tx.Some? {
      LockedBare(env, prev, prev', w.tx.value, w'.tx.value, 0, w.sigP, w'.sigP);
      LockedBare(env, prev, prev', w.tx.value, w'.tx.value, 1, w.sigQ, w'.sigQ);
    }
  }

  /** The states differ only in witnesses and in the progress of signatures. */
  predicate OnlySigned(s: Party, t: Party) {
    && SameBare(s.deposit.tx, t.deposit.tx)
    && SameBare(s.swap.tx, t.swap.tx) && SameKey(s.swap.sig, t.swap.sig)
    && SameBare(s.warnMe.tx, t.warnMe.tx)
    && SameKey(s.warnMe.sigP, t.warnMe.sigP) && SameKey(s.warnMe.sigQ, t.warnMe.sigQ)
    && SameBare(s.warnPeer.tx, t.warnPeer.tx)
    && SameKey(s.warnPeer.sigP, t.warnPeer.sigP) && SameKey(s.warnPeer.sigQ, t.warnPeer.sigQ)
    && SameBare(s.claimMe.tx, t.claimMe.tx) && SameKey(s.claimMe.sig, t.claimMe.sig)
    && SameBare(s.claimPeer.tx, t.claimPeer.tx) && SameKey(s.claimPeer.sig, t.claimPeer.sig)
    && SameBare(s.redirectMe.tx, t.redirectMe.tx) && SameKey(s.redirectMe.sig, t.redirectMe.sig)
    && SameBare(s.redirectPeer.tx, t.redirectPeer.tx) && SameKey(s.redirectPeer.sig, t.redirectPeer.sig)
    && (t.deposit.signedPsbt.Some? ==> t.deposit == s.deposit)
  }

  lemma OnlySignedKeeps(env: Encoding, s: Party, t: Party)
    requires KeysMatch(env, s) && OnlySigned(s, t)
    ensures KeysMatch(env, t)
  {
    hide SpendLocked, WarningLocked, SameBare, SameKey, Extract;
    SpendBare(env, s.deposit.tx, t.deposit.tx, s.swap, t.swap);
    WarningBare(env, s.deposit.tx, t.deposit.tx, s.warnMe, t.warnMe);
    WarningBare(env, s.deposit.tx, t.deposit.tx, s.warnPeer, t.warnPeer);
    SpendBare(env, s.warnMe.tx, t.warnMe.tx, s.claimMe, t.claimMe);
    SpendBare(env, s.warnPeer.tx, t.warnPeer.tx, s.claimPeer, t.claimPeer);
    SpendBare(env, s.warnPeer.tx, t.warnPeer.tx, s.redirectMe, t.redirectMe);
    SpendBare(env, s.warnMe.tx, t.warnMe.tx, s.redirectPeer, t.redirectPeer);
  }

  // ------------------------------------------------------ signing steps

  lemma SharesOnlySign(env: Encoding, x: SpendTx, w: WarningTx)
    ensures forall prev, point, other ::
              var x' := x.BuildPartialSig(env, prev, point, other).0;
              SameBare(x.tx, x'.tx) && SameKey(x.sig, x'.sig)
    ensures forall prev, other, other' ::
              var w' := w.BuildPartialSig(env, prev, other, other').0;
              SameBare(w.tx, w'.tx) && SameKey(w.sigP, w'.sigP) && SameKey(w.sigQ, w'.sigQ)
  {
    hide SignPartial, Prevouts, Strip;
  }

  lemma SpendAggregatesOnlySign(env: Encoding, x: SpendTx)
    ensures forall part ::
              var x' := x.Aggregate(env, part).0;
              SameBare(x.tx, x'.tx) && SameKey(x.sig, x'.sig)
    ensures forall part ::
              var x' := x.AggregateSigs(env, part).0;
              SameBare(x.tx, x'.tx) && SameKey(x.sig, x'.sig)
    ensures forall t ::
              var x' := x.Complete(env, t).0;
              SameBare(x.tx, x'.tx) && SameKey(x.sig, x'.sig)
  {
    hide VerifyPartial, AggregatePartials, VerifyAdaptor, Adapt, Verify, Strip, WithWitness;
  }

  lemma WarningAggregatesOnlySign(env: Encoding, w: WarningTx)
    ensures forall p, q ::
              var w' := w.AggregateSigs(env, p, q).0;
              SameBare(w.tx, w'.tx) && SameKey(w.sigP, w'.sigP) && SameKey(w.sigQ, w'.sigQ)
  {
    hide VerifyPartial, AggregatePartials, VerifyAdaptor, Adapt, Verify, Strip, WithWitness;
  }

  lemma OnlySignedTwice(s: Party, t: Party, u: Party)
    requires OnlySigned(s, t) && OnlySigned(t, u)
    ensures OnlySigned(s, u)
  {
    hide Strip;
  }

  lemma NothingSigned(s: Party)
    ensures OnlySigned(s, s)
  {
    hide Strip;
  }

  lemma SpendStep(s: Party, x: SpendTx, x': SpendTx)
    requires SameBare(x.tx, x'.tx) && SameKey(x.sig, x'.sig)
    ensures x == s.swap ==> OnlySigned(s, s.(swap := x'))
    ensures x == s.claimMe ==> OnlySigned(s, s.(claimMe := x'))
    ensures x == s.claimPeer ==> OnlySigned(s, s.(claimPeer := x'))
    ensures x == s.redirectMe ==> OnlySigned(s, s.(redirectMe := x'))
    ensures x == s.redirectPeer ==> OnlySigned(s, s.(redirectPeer := x'))
  {
    hide Strip;
  }

  lemma WarningStep(s: Party, w: WarningTx, w': WarningTx)
    requires SameBare(w.tx, w'.tx) && SameKey(w.sigP, w'.sigP) && SameKey(w.sigQ, w'.sigQ)
    ensures w == s.warnMe ==> OnlySigned(s, s.(warnMe := w'))
    ensures w == s.warnPeer ==> OnlySigned(s, s.(warnPeer := w'))
  {
    hide Strip;
  }

  lemma TakeDepositOnlySigns(env: Encoding, s: Party, bob: Round2Parameter, broadcast: bool)
    requires s.deposit.signedPsbt.Some? ==> s.deposit.tx == Some(Extract(s.deposit.signedPsbt.value))
    ensures OnlySigned(s, s.TakeDeposit(bob, broadcast).0)
  {
    NothingSigned(s);
    if s.deposit.signedPsbt.Some? && Completed(s.deposit.signedPsbt.value, bob.depositTxSigned).Some? {
      CompletedIs(env, s.deposit.signedPsbt.value, bob.depositTxSigned);
    }
    hide Completed, Extract, Strip;
  }

  lemma SignSwapOnlySigns(env: Encoding, s: Party, bob: Round2Parameter)
    ensures OnlySigned(s, s.SignSwap(env, bob).0)
  {
    hide OnlySigned, SameBare, SameKey, SpendTx.BuildPartialSig;
    NothingSigned(s);
    SharesOnlySign(env, s.swap, s.warnMe);
    if s.AdaptorPoint().Some? {
      SpendStep(s, s.swap, s.swap.BuildPartialSig(env, s.deposit.tx, s.AdaptorPoint().value, bob.swap).0);
    }
  }

  lemma SignWarningsOnlySigns(env: Encoding, s: Party, bob: Round2Parameter)
    ensures OnlySigned(s, s.SignWarnings(env, bob).0)
  {
    hide OnlySigned, SameBare, SameKey, WarningTx.BuildPartialSig;
    SharesOnlySign(env, s.swap, s.warnMe);
    SharesOnlySign(env, s.swap, s.warnPeer);
    var me := s.warnMe.BuildPartialSig(env, s.deposit.tx, bob.warnBobP, bob.warnBobQ).0;
    var peer := s.warnPeer.BuildPartialSig(env, s.deposit.tx, bob.warnAliceP, bob.warnAliceQ).0;
    var t := s.(warnMe := me);
    WarningStep(s, s.warnMe, me);
    WarningStep(t, t.warnPeer, peer);
    OnlySignedTwice(s, t, t.(warnPeer := peer));
  }

  lemma SignClaimsOnlySigns(env: Encoding, s: Party, bob: Round2Parameter)
    ensures OnlySigned(s, s.SignClaims(env, bob).0)
  {
    hide OnlySigned, SameBare, SameKey, SpendTx.BuildPartialSig;
    SharesOnlySign(env, s.claimMe, s.warnMe);
    SharesOnlySign(env, s.claimPeer, s.warnMe);
    var me := s.claimMe.BuildPartialSig(env, s.warnMe.tx, Infinity, bob.claimBob).0;
    var peer := s.claimPeer.BuildPartialSig(env, s.warnPeer.tx, Infinity, bob.claimAlice).0;
    var t := s.(claimMe := me);
    SpendStep(s, s.claimMe, me);
    SpendStep(t, t.claimPeer, peer);
    OnlySignedTwice(s, t, t.(claimPeer := peer));
  }

  lemma SignRedirectsOnlySigns(env: Encoding, s: Party, bob: Round2Parameter)
    ensures OnlySigned(s, s.SignRedirects(env, bob).0)
  {
    hide OnlySigned, SameBare, SameKey, SpendTx.BuildPartialSig;
    SharesOnlySign(env, s.redirectMe, s.warnMe);
    SharesOnlySign(env, s.redirectPeer, s.warnMe);
    var me := s.redirectMe.BuildPartialSig(env, s.warnPeer.tx, Infinity, bob.redirectBob).0;
    var peer := s.redirectPeer.BuildPartialSig(env, s.warnMe.tx, Infinity, bob.redirectAlice).0;
    var t := s.(redirectMe := me);
    SpendStep(s, s.redirectMe, me);
    SpendStep(t, t.redirectPeer, peer);
    OnlySignedTwice(s, t, t.(redirectPeer := peer));
  }

  /** The third round, step by step: every state it can stop in. */
  lemma ThirdRoundOnlySigns(env: Encoding, s: Party, bob: Round2Parameter, broadcast: bool)
    requires s.deposit.signedPsbt.Some? ==> s.deposit.tx == Some(Extract(s.deposit.signedPsbt.value))
    ensures OnlySigned(s, s.Round3(env, bob, broadcast).0)
  {
    hide OnlySigned, Extract, Party.TakeDeposit, Party.SignSwap, Party.SignWarnings, Party.SignClaims,
         Party.SignRedirects;
    NothingSigned(s);
    var s0 := s.(round := 3);
    var (s1, r1) := s0.TakeDeposit(bob, broadcast);
    var (s2, r2) := s1.SignSwap(env, bob);
    var (s3, r3) := s2.SignWarnings(env, bob);
    var (s4, r4) := s3.SignClaims(env, bob);
    TakeDepositOnlySigns(env, s0, bob, broadcast);
    SignSwapOnlySigns(env, s1, bob);
    SignWarningsOnlySigns(env, s2, bob);
    SignClaimsOnlySigns(env, s3, bob);
    SignRedirectsOnlySigns(env, s4, bob);
    OnlyRound(s, 3);
    OnlySignedTwice(s, s0, s1);
    OnlySignedTwice(s, s1, s2);
    OnlySignedTwice(s, s2, s3);
    OnlySignedTwice(s, s3, s4);
    OnlySignedTwice(s, s4, s4.SignRedirects(env, bob).0);
  }

  lemma OnlyRound(s: Party, round: nat)
    ensures OnlySigned(s, s.(round := round))
  {
    hide Strip;
  }

  lemma FourthRoundOnlySigns(env: Encoding, s: Party, bob: Round3Parameter)
    ensures OnlySigned(s, s.Round4(env, bob).0)
  {
    hide OnlySigned, SameBare, SameKey, SpendTx.Aggregate, SpendTx.AggregateSigs, SpendTx.Complete,
         WarningTx.AggregateSigs;
    NothingSigned(s);
    var s0 := s.(round := 4);
    OnlyRound(s, 4);
    var s1 := s0.(swap := s.swap.Aggregate(env, bob.swapPartSig).0);
    SpendAggregatesOnlySign(env, s.swap);
    SpendStep(s0, s0.swap, s1.swap);
    OnlySignedTwice(s, s0, s1);
    var s2 := s1.(warnMe := s.warnMe.AggregateSigs(env, bob.pPartPeer, bob.qPartPeer).0);
    WarningAggregatesOnlySign(env, s.warnMe);
    WarningStep(s1, s1.warnMe, s2.warnMe);
    OnlySignedTwice(s, s1, s2);
    var s3 := s2.(claimMe := s.claimMe.AggregateSigs(env, bob.claimPartSig).0);
    SpendAggregatesOnlySign(env, s.claimMe);
    SpendStep(s2, s2.claimMe, s3.claimMe);
    OnlySignedTwice(s, s2, s3);
    var s4 := s3.(redirectMe := s.redirectMe.AggregateSigs(env, bob.redirectPartSig).0);
    SpendAggregatesOnlySign(env, s.redirectMe);
    SpendStep(s3, s3.redirectMe, s4.redirectMe);
    OnlySignedTwice(s, s3, s4);
    var s5 := s4.(swap := s1.swap.Complete(env, s.pTik.sec).0);
    SpendAggregatesOnlySign(env, s1.swap);
    SpendStep(s4, s4.swap, s5.swap);
    OnlySignedTwice(s, s4, s5);
  }

  // ------------------------------------------------------ the second round

  predicate Lockable(env: Encoding, key: AggKey) {
    key.agg.Some? && key.AggScript(env) == LockOf(env, key)
  }

  predicate PaysTo(env: Encoding, tx: Option<Tx>, key: AggKey) {
    tx.Some? && tx.value.outputs != [] ==> Some(tx.value.outputs[0].script) == LockOf(env, key)
  }

  lemma AggregateLockable(env: Encoding, key: AggKey, theirs: Point)
    requires key.AggregateKey(env, theirs).Ok?
    ensures Lockable(env, key.AggregateKey(env, theirs).value)
  {
    ScriptLocksAggregate(env, key, theirs);
  }

  lemma TxInResolves(env: Encoding, tx: Tx, key: AggKey)
    requires Lockable(env, key) && TxInFor(env, tx, key).Some?
    ensures
      var input := TxInFor(env, tx, key).value;
      Resolves(env, tx, input) && Some(tx.outputs[input.prev.vout].script) == LockOf(env, key)
  {
  }

  lemma TwoInputs(env: Encoding, deposit: Tx, p: AggKey, q: AggKey, inP: TxIn, inQ: TxIn)
    requires Lockable(env, p) && Lockable(env, q)
    requires TxInFor(env, deposit, p) == Some(inP) && TxInFor(env, deposit, q) == Some(inQ)
    ensures
      var prevouts := Prevouts(env, deposit, [inP, inQ]);
      && prevouts.Some? && |prevouts.value| == 2
      && Some(prevouts.value[0].script) == LockOf(env, p) && Some(prevouts.value[1].script) == LockOf(env, q)
  {
    TxInResolves(env, deposit, p);
    TxInResolves(env, deposit, q);
    hide TxInFor, LockOf, Lockable, Encoding.Txid;
    var inputs := [inP, inQ];
    assert forall i :: 0 <= i < |inputs| ==> Resolves(env, deposit, inputs[i]);
    assert Prevouts(env, deposit, inputs) == Some(Referenced(deposit, inputs));
  }

  lemma WarningBuilt(env: Encoding, w: WarningTx, a: Amount, b: Amount, p: AggKey, q: AggKey, deposit: Option<Tx>,
                     n: SecNonce, n': SecNonce)
    requires w.tx.None? && Lockable(env, p) && Lockable(env, q)
    ensures
      var w' := w.Build(env, a, b, p, q, deposit, n, n').0;
      WarningLocked(env, deposit, w') && PaysTo(env, w'.tx, w.KeySpent(p, q)) && w'.role == w.role
  {
    if deposit.Some? && TxInFor(env, deposit.value, p).Some? && TxInFor(env, deposit.value, q).Some? {
      TwoInputs(env, deposit.value, p, q, TxInFor(env, deposit.value, p).value, TxInFor(env, deposit.value, q).value);
    }
    hide TxInFor, Prevouts, LockOf, AggKey.AggScript;
  }

  lemma FundsResolve(env: Encoding, warning: Tx, sequence: U32)
    requires warning.outputs != []
    ensures Prevouts(env, warning, [TxIn(FundsOutPoint(env, warning), sequence, Unsigned)])
            == Some([warning.outputs[0]])
  {
    var inputs := [TxIn(FundsOutPoint(env, warning), sequence, Unsigned)];
    assert forall i :: 0 <= i < |inputs| ==> Resolves(env, warning, inputs[i]);
    assert Referenced(warning, inputs) == [warning.outputs[0]];
  }

  lemma ClaimBuilt(env: Encoding, x: SpendTx, tik: AggKey, warning: Option<Tx>, n: SecNonce)
    requires x.tx.None? && PaysTo(env, warning, tik)
    ensures SpendLocked(env, warning, x.BuildClaim(env, tik, warning, n).0)
  {
    if warning.Some? && warning.value.outputs != [] {
      FundsResolve(env, warning.value, T2);
    }
    hide Prevouts;
  }

  lemma RedirectBuilt(env: Encoding, x: SpendTx, tik: AggKey, warning: Option<Tx>, n: SecNonce)
    requires x.tx.None? && PaysTo(env, warning, tik)
    ensures SpendLocked(env, warning, x.BuildRedirect(env, tik, warning, n).0)
  {
    if warning.Some? && warning.value.outputs != [] {
      FundsResolve(env, warning.value, T1);
    }
    hide Prevouts;
  }

  lemma SwapBuilt(env: Encoding, x: SpendTx, role: Role, q: AggKey, deposit: Tx, extracted: Tx, peers: Option<Script>,
                  n: SecNonce)
    requires x.tx.None? && Lockable(env, q) && Strip(extracted) == Strip(deposit)
    ensures SpendLocked(env, Some(extracted), x.BuildSwap(env, role, q, deposit, peers, n).0)
  {
    if TxInFor(env, deposit, q).Some? {
      TxInResolves(env, deposit, q);
      var input := TxInFor(env, deposit, q).value;
      assert Resolves(env, extracted, input);
      assert forall i :: 0 <= i < |[input]| ==> Resolves(env, extracted, [input][i]);
      assert Prevouts(env, extracted, [input]) == Some(Referenced(extracted, [input]));
    }
    hide TxInFor, AggKey.AggScript, Prevouts, Strip;
  }

  predicate RolesSet(s: Party) {
    s.warnMe.role == s.role && s.warnPeer.role == s.role.Other()
  }

  lemma NothingBuilt(env: Encoding, s: Party)
    requires NoneYet(s)
    ensures KeysMatch(env, s)
  {
  }

  lemma KeysAggregated(env: Encoding, s: Party, bob: Round1Parameter)
    ensures
      var (s', fault) := s.AggregateKeys(env, bob);
      && s' == s.(pTik := s'.pTik, qTik := s'.qTik)
      && (fault == None ==> Lockable(env, s'.pTik) && Lockable(env, s'.qTik))
  {
    hide AggKey.AggregateKey, Lockable;
    forall key: AggKey | key.AggregateKey(env, bob.pA).Ok? ensures Lockable(env, key.AggregateKey(env, bob.pA).value) {
      AggregateLockable(env, key, bob.pA);
    }
    forall key: AggKey | key.AggregateKey(env, bob.qA).Ok? ensures Lockable(env, key.AggregateKey(env, bob.qA).value) {
      AggregateLockable(env, key, bob.qA);
    }
  }

  lemma DepositBuilt(env: Encoding, s: Party, bob: Round1Parameter, shuffles: Shuffles)
    requires NoneYet(s)
    ensures
      var (s', merged) := s.BuildDeposit(env, bob, shuffles);
      && s' == s.(deposit := s'.deposit)
      && (merged.Err? ==> s' == s)
      && (merged.Ok? ==> s'.deposit == DepositTx(None, Some(merged.value), Some(Extract(merged.value)))
                         && Strip(Extract(merged.value)) == Strip(merged.value.tx))
  {
    hide Merged, Extract;
    var m := s.BuildDeposit(env, bob, shuffles).1;
    if m.Ok? {
      ExtractKeepsTx(m.value);
    }
  }

  lemma WarningsBuilt(env: Encoding, s: Party, bob: Round1Parameter, n: Nonces)
    requires s.warnMe.tx.None? && s.warnPeer.tx.None? && RolesSet(s)
    requires Lockable(env, s.pTik) && Lockable(env, s.qTik)
    ensures
      var s' := s.BuildWarnings(env, bob, n).0;
      && s' == s.(warnMe := s'.warnMe, warnPeer := s'.warnPeer)
      && WarningLocked(env, s.deposit.tx, s'.warnMe) && WarningLocked(env, s.deposit.tx, s'.warnPeer)
      && PaysTo(env, s'.warnMe.tx, s.Tik()) && PaysTo(env, s'.warnPeer.tx, s.OtherTik())
  {
    hide WarningTx.Build, WarningLocked, Lockable;
    WarningBuilt(env, s.warnMe, s.pay.seller, s.pay.buyer, s.pTik, s.qTik, s.deposit.tx, n.warnMeP, n.warnMeQ);
    WarningBuilt(env, s.warnPeer.(anchor := Some(bob.warnAnchorSpend)), s.pay.seller, s.pay.buyer, s.pTik, s.qTik,
                 s.deposit.tx, n.warnPeerP, n.warnPeerQ);
    NoTxLocked(env, s.deposit.tx, s.warnPeer);
  }

  lemma NoTxLocked(env: Encoding, prev: Option<Tx>, w: WarningTx)
    ensures w.tx.None? ==> WarningLocked(env, prev, w)
  {
  }

  lemma SpendsBuilt(env: Encoding, s: Party, bob: Round1Parameter, n: Nonces, merged: Psbt)
    requires s.claimMe.tx.None? && s.claimPeer.tx.None? && s.redirectMe.tx.None? && s.redirectPeer.tx.None?
    requires PaysTo(env, s.warnMe.tx, s.Tik()) && PaysTo(env, s.warnPeer.tx, s.OtherTik())
    ensures
      var s' := s.SpendWarnings(env, bob, n, merged).0;
      && s'
         == s.(claimMe := s'.claimMe, claimPeer := s'.claimPeer, redirectMe := s'.redirectMe,
               redirectPeer := s'.redirectPeer)
      && SpendLocked(env, s.warnMe.tx, s'.claimMe) && SpendLocked(env, s.warnPeer.tx, s'.claimPeer)
      && SpendLocked(env, s.warnPeer.tx, s'.redirectMe) && SpendLocked(env, s.warnMe.tx, s'.redirectPeer)
  {
    forall prev, x: SpendTx | x.tx.None? ensures SpendLocked(env, prev, x) {
    }
    hide SpendLocked, PaysTo, SpendTx.BuildClaim, SpendTx.BuildRedirect;
    ClaimBuilt(env, s.claimMe, s.Tik(), s.warnMe.tx, n.claimMe);
    ClaimBuilt(env, s.claimPeer.(spend := Some(bob.claimSpend)), s.OtherTik(), s.warnPeer.tx, n.claimPeer);
    RedirectBuilt(env, s.redirectMe, s.OtherTik(), s.warnPeer.tx, n.redirectMe);
    RedirectBuilt(env, s.redirectPeer.(spend := Some(bob.redirectAnchorSpend)), s.Tik(), s.warnMe.tx, n.redirectPeer);
  }

  lemma SecondRoundIs(env: Encoding, s: Party, bob: Round1Parameter, n: Nonces, shuffles: Shuffles)
    requires s.round == 1
    ensures
      var (s1, fault) := s.(round := 2).AggregateKeys(env, bob);
      s.Round2(env, bob, n, shuffles).0 == if fault.Some? then s1 else FromDeposit(env, s1, bob, n, shuffles)
  {
    hide Party.AggregateKeys, Party.BuildDeposit, Party.BuildWarnings, Party.BuildSwap, Party.SpendWarnings;
  }

  lemma SecondRoundMatches(env: Encoding, s: Party, bob: Round1Parameter, n: Nonces, shuffles: Shuffles)
    requires s.round == 1 && NoneYet(s) && RolesSet(s)
    ensures KeysMatch(env, s.Round2(env, bob, n, shuffles).0)
  {
    hide Party.Round2, Party.AggregateKeys, FromDeposit, KeysMatch, Lockable;
    KeysAggregated(env, s.(round := 2), bob);
    var (s1, fault) := s.(round := 2).AggregateKeys(env, bob);
    SecondRoundIs(env, s, bob, n, shuffles);
    NothingBuilt(env, s1);
    if fault == None {
      AfterKeys(env, s1, bob, n, shuffles);
    }
  }

  function FromDeposit(env: Encoding, s1: Party, bob: Round1Parameter, n: Nonces, shuffles: Shuffles): Party {
    var (s2, merged) := s1.BuildDeposit(env, bob, shuffles);
    if merged.Err? then s2
    else
      var (s3, fault) := s2.BuildWarnings(env, bob, n);
      if fault.Some? then s3
      else
        var (s4, fault) := s3.BuildSwap(env, bob, merged.value.tx, n);
        if fault.Some? then s4 else s4.SpendWarnings(env, bob, n, merged.value).0
  }

  lemma AfterKeys(env: Encoding, s1: Party, bob: Round1Parameter, n: Nonces, shuffles: Shuffles)
    requires NoneYet(s1) && RolesSet(s1) && Lockable(env, s1.pTik) && Lockable(env, s1.qTik)
    ensures KeysMatch(env, FromDeposit(env, s1, bob, n, shuffles))
  {
    hide Party.BuildDeposit, Party.BuildWarnings, Party.SpendWarnings, Lockable, PaysTo, SpendTx.BuildSwap;
    NothingBuilt(env, s1);
    DepositBuilt(env, s1, bob, shuffles);
    var (s2, merged) := s1.BuildDeposit(env, bob, shuffles);
    if merged.Ok? {
      WarningsBuilt(env, s2, bob, n);
      var (s3, fault3) := s2.BuildWarnings(env, bob, n);
      SwapBuilt(env, s3.swap, s3.role, s3.qTik, merged.value.tx, Extract(merged.value), bob.swapScript, n.swap);
      var (s4, fault4) := s3.BuildSwap(env, bob, merged.value.tx, n);
      SpendsBuilt(env, s4, bob, n, merged.value);
      hide Locked, Extract;
    }
  }

  ghost predicate KeyState(env: Encoding, s: Party) {
    && (s.round <= 1 ==> NoneYet(s) && RolesSet(s))
    && KeysMatch(env, s)
  }

  /** In every run, with any messages from the other side: whenever a contract
      transaction and its signing context exist, the context's key locks the
      output that the input spends. */
  lemma {:induction false} KeysLockPrevouts(env: Encoding, role: Role, pay: Amounts, w: Wallet, p: SecKey, q: SecKey,
                                            calls: seq<Call>)
    ensures KeyState(env, Run(env, NewParty(role, pay, w, p, q), calls))
  {
    var start := NewParty(role, pay, w, p, q);
    if calls == [] {
    } else {
      var k := |calls| - 1;
      KeysLockPrevouts(env, role, pay, w, p, q, calls[..k]);
      KeyStep(env, Run(env, start, calls[..k]), calls[k]);
    }
  }

  lemma KeyStep(env: Encoding, s: Party, c: Call)
    requires KeyState(env, s)
    ensures KeyState(env, Exec(env, s, c))
  {
    match c
    case Call1(part, a) =>
      FirstRound(part, a, s);
      if s.round == 0 {
        NothingBuilt(env, s.Round1(part, a).0);
      }
      hide KeysMatch, NoneYet;
    case Call2(bob, n, shuffles) =>
      hide Party.Round2, KeysMatch, NoneYet;
      if s.round == 1 {
        SecondRoundMatches(env, s, bob, n, shuffles);
        SecondRound(env, s, bob, n, shuffles);
      }
      WrongRoundKeeps2(env, s, bob, n, shuffles);
    case Call3(bob, broadcast) =>
      hide Party.Round3, OnlySigned, NoneYet;
      if s.round == 2 {
        ThirdRoundOnlySigns(env, s, bob, broadcast);
        OnlySignedKeeps(env, s, s.Round3(env, bob, broadcast).0);
        ThirdRoundCounter(env, s, bob, broadcast);
      }
      WrongRoundKeeps3(env, s, bob, broadcast);
      hide KeysMatch;
    case Call4(bob) =>
      hide Party.Round4, OnlySigned, NoneYet, KeysMatch;
      if s.round == 3 {
        FourthRoundOnlySigns(env, s, bob);
        OnlySignedKeeps(env, s, s.Round4(env, bob).0);
        FourthRoundCounter(env, s, bob);
      }
      WrongRoundKeeps4(env, s, bob);
    case Call5(bob) =>
      FifthRound(env, s, bob);
      OnlyKeyChanges(env, s, s.Round5(env, bob).0);
      hide KeysMatch, NoneYet, Party.Round5;
  }

  lemma OnlyKeyChanges(env: Encoding, s: Party, t: Party)
    requires t == s.(round := t.round, pTik := t.pTik)
    ensures KeysMatch(env, s) ==> KeysMatch(env, t)
  {
    hide SpendLocked, WarningLocked, Extract;
  }

  lemma ThirdRoundCounter(env: Encoding, s: Party, bob: Round2Parameter, broadcast: bool)
    requires s.round == 2
    ensures s.Round3(env, bob, broadcast).0.round == 3
  {
    hide Completed, Extract, SpendTx.BuildPartialSig, WarningTx.BuildPartialSig;
  }

  lemma FourthRoundCounter(env: Encoding, s: Party, bob: Round3Parameter)
    requires s.round == 3
    ensures s.Round4(env, bob).0.round == 4
  {
    hide SpendTx.Aggregate, SpendTx.AggregateSigs, SpendTx.Complete, WarningTx.AggregateSigs;
  }
}
