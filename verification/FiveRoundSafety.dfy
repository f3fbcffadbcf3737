/** What a trader completes is valid, whatever the other side sends: in every run,
    if the fourth round succeeds, the own warning, claim and redirect transactions,
    and the seller's swap, carry valid signatures for the outputs they spend. */
module FiveRoundSafety {
  import opened Results
  import opened Scalars
  import opened Musig
  import opened Transactions
  import opened AggKeys
  import opened Deposits
  import opened DepositTxs
  import opened Contracts
  import opened FiveRounds
  import opened FiveRoundRuns
  import opened FiveRoundKeys
  import opened HonestSigning

  /** A context that has signed did so for this input of tx, spending outputs of prev. */
  ghost predicate Pledged(env: Encoding, prev: Option<Tx>, tx: Option<Tx>, t: Option<TMuSig2>, index: nat) {
    t.Some? && t.value.adaptor.Some? ==>
      && prev.Some? && tx.Some? && t.value.adaptor.value.inputIndex == index
      && t.value.adaptor.value.msg == MessageOf(env, prev.value, tx.value, index)
  }

  /** The contexts of the trader's own transactions. */
  ghost predicate Pledges(env: Encoding, s: Party) {
    && Pledged(env, s.deposit.tx, s.swap.tx, s.swap.sig, 0)
    && Pledged(env, s.deposit.tx, s.warnMe.tx, s.warnMe.sigP, 0)
    && Pledged(env, s.deposit.tx, s.warnMe.tx, s.warnMe.sigQ, 1)
    && Pledged(env, s.warnMe.tx, s.claimMe.tx, s.claimMe.sig, 0)
    && Pledged(env, s.warnPeer.tx, s.redirectMe.tx, s.redirectMe.sig, 0)
  }

  predicate Fresh(t: Option<TMuSig2>) {
    t.Some? ==> t.value.adaptor.None?
  }

  // ------------------------------------------------------ the third round

  lemma SpendPledges(env: Encoding, prev: Option<Tx>, point: Point, other: PubNonce, x: SpendTx)
    requires Fresh(x.sig)
    ensures
      var x' := x.BuildPartialSig(env, prev, point, other).0;
      x' == x.(sig := x'.sig) && Pledged(env, prev, x.tx, x'.sig, 0)
  {
    hide SignPartial;
  }

  lemma WarningPledges(env: Encoding, prev: Option<Tx>, other: PubNonce, other': PubNonce, w: WarningTx)
    requires Fresh(w.sigP) && Fresh(w.sigQ)
    ensures
      var w' := w.BuildPartialSig(env, prev, other, other').0;
      && w' == w.(sigP := w'.sigP, sigQ := w'.sigQ)
      && Pledged(env, prev, w.tx, w'.sigP, 0) && Pledged(env, prev, w.tx, w'.sigQ, 1)
  {
    hide SignPartial;
  }

  lemma FreshPledged(env: Encoding, prev: Option<Tx>, tx: Option<Tx>, t: Option<TMuSig2>, index: nat)
    requires Fresh(t)
    ensures Pledged(env, prev, tx, t, index)
  {
  }

  ghost predicate AllFresh(s: Party) {
    && Fresh(s.swap.sig) && Fresh(s.warnMe.sigP) && Fresh(s.warnMe.sigQ)
    && Fresh(s.claimMe.sig) && Fresh(s.redirectMe.sig)
  }

  /** Wherever the third round stops. */
  lemma ThirdRoundPledges(env: Encoding, s: Party, bob: Round2Parameter, broadcast: bool)
    requires s.round == 2 && AllFresh(s)
    ensures
      var s' := s.Round3(env, bob, broadcast).0;
      s'.round == 3 && Pledges(env, s')
  {
    hide Pledged, Fresh, SpendTx.BuildPartialSig, WarningTx.BuildPartialSig;
    var s0 := s.(round := 3);
    var s1 := s0.TakeDeposit(bob, broadcast).0;
    assert s1 == s0.(deposit := s1.deposit);
    AllFreshPledged(env, s1);
    SwapPledges(env, s1, bob);
    var s2 := s1.SignSwap(env, bob).0;
    WarningPledges(env, s2.deposit.tx, bob.warnBobP, bob.warnBobQ, s2.warnMe);
    var s3 := s2.SignWarnings(env, bob).0;
    PeersApart(env, s2, bob);
    SpendPledges(env, s3.warnMe.tx, Infinity, bob.claimBob, s3.claimMe);
    var s4 := s3.SignClaims(env, bob).0;
    PeersApart(env, s3, bob);
    SpendPledges(env, s4.warnPeer.tx, Infinity, bob.redirectBob, s4.redirectMe);
    var s5 := s4.SignRedirects(env, bob).0;
    PeersApart(env, s4, bob);
    hide Party.SignSwap, Party.SignWarnings, Party.SignClaims, Party.SignRedirects, Party.TakeDeposit;
    assert Pledges(env, s1) && Pledges(env, s2) && Pledges(env, s3) && Pledges(env, s4) && Pledges(env, s5);
  }

  lemma AllFreshPledged(env: Encoding, s: Party)
    requires AllFresh(s)
    ensures Pledges(env, s)
  {
  }

  lemma SwapPledges(env: Encoding, s: Party, bob: Round2Parameter)
    requires Fresh(s.swap.sig)
    ensures
      var s' := s.SignSwap(env, bob).0;
      s' == s.(swap := s.swap.(sig := s'.swap.sig)) && Pledged(env, s.deposit.tx, s.swap.tx, s'.swap.sig, 0)
  {
    hide SpendTx.BuildPartialSig;
    FreshPledged(env, s.deposit.tx, s.swap.tx, s.swap.sig, 0);
    if s.AdaptorPoint().Some? {
      SpendPledges(env, s.deposit.tx, s.AdaptorPoint().value, bob.swap, s.swap);
    }
  }

  /** What the signing steps leave alone. */
  lemma PeersApart(env: Encoding, s: Party, bob: Round2Parameter)
    ensures
      var s' := s.SignWarnings(env, bob).0;
      && s' == s.(warnMe := s'.warnMe, warnPeer := s'.warnPeer) && s'.warnPeer.tx == s.warnPeer.tx
      && s'.warnMe == s.warnMe.BuildPartialSig(env, s.deposit.tx, bob.warnBobP, bob.warnBobQ).0
    ensures
      var s' := s.SignClaims(env, bob).0;
      && s' == s.(claimMe := s'.claimMe, claimPeer := s'.claimPeer)
      && s'.claimMe == s.claimMe.BuildPartialSig(env, s.warnMe.tx, Infinity, bob.claimBob).0
    ensures
      var s' := s.SignRedirects(env, bob).0;
      && s' == s.(redirectMe := s'.redirectMe, redirectPeer := s'.redirectPeer)
      && s'.redirectMe == s.redirectMe.BuildPartialSig(env, s.warnPeer.tx, Infinity, bob.redirectBob).0
  {
    WarningKeepsTx(env, s.deposit.tx, bob.warnAliceP, bob.warnAliceQ, s.warnPeer);
    hide SpendTx.BuildPartialSig, WarningTx.BuildPartialSig;
  }

  lemma WarningKeepsTx(env: Encoding, prev: Option<Tx>, other: PubNonce, other': PubNonce, w: WarningTx)
    ensures w.BuildPartialSig(env, prev, other, other').0.tx == w.tx
  {
    hide SignPartial, Prevouts;
  }

  // ------------------------------------------------------ the fourth round

  /** A witness made by a pledged context is valid for the output it spends. */
  lemma WitnessIsValid(env: Encoding, prev: Tx, prev': Tx, tx: Tx, tx': Tx, i: nat, t: TMuSig2)
    requires Locked(env, Some(prev), tx, i, Some(t)) && i < |tx.inputs|
    requires Strip(prev') == Strip(prev) && Strip(tx') == Strip(tx) && |tx'.inputs| == |tx.inputs|
    requires t.aggKey.agg.Some? && tx'.inputs[i].wit.KeySpend?
    requires Verify(env.h, t.aggKey.agg.value.pubkey, tx'.inputs[i].wit.sig, MessageOf(env, prev, tx, i))
    ensures ValidKeySpend(env, prev', tx', i)
  {
    hide Verify, Strip, ValidKeySpend;
    assert Unlocks(env, prev, tx, i, t.aggKey) by {
      PrevoutsLength(env, prev, tx);
    }
    SignatureSpends(env, prev, prev', tx, tx', i, t.aggKey, tx'.inputs[i].wit.sig);
  }

  lemma PrevoutsLength(env: Encoding, prev: Tx, tx: Tx)
    ensures Prevouts(env, prev, tx.inputs).Some? ==> |Prevouts(env, prev, tx.inputs).value| == |tx.inputs|
  {
  }

  /** A transaction with one input, aggregated and then completed with any secret. */
  lemma SpendIsValid(env: Encoding, prev: Option<Tx>, prev': Tx, x: SpendTx, otherSig: Scalar, secret: Scalar)
    requires SpendLocked(env, prev, x) && Pledged(env, prev, x.tx, x.sig, 0)
    requires prev.Some? ==> Strip(prev') == Strip(prev.value)
    ensures
      var (a, fault) := x.Aggregate(env, otherSig);
      var (c, fault') := a.Complete(env, secret);
      && a.tx == x.tx
      && (fault.None? && fault'.None? ==>
            && prev.Some? && x.tx.Some? && c.tx.Some? && Strip(c.tx.value) == Strip(x.tx.value)
            && ValidKeySpend(env, prev', c.tx.value, 0))
  {
    hide VerifyPartial, VerifyAdaptor, Verify, Adapt, Prevouts, ValidKeySpend, Strip, TMuSig2.AggregateSigs,
         TMuSig2.Sign, MessageOf, Locked;
    var (a, fault) := x.Aggregate(env, otherSig);
    var (c, fault') := a.Complete(env, secret);
    if fault.None? && fault'.None? {
      OnlyValidAggregate(x.sig.value, env, otherSig);
      OnlyValidWitness(a.sig.value, env, secret, a.tx.value);
      SameLock(env, prev, x.tx.value, 0, x.sig.value, a.sig.value);
      WitnessIsValid(env, prev.value, prev', x.tx.value, c.tx.value, 0, a.sig.value);
    }
  }

  lemma AggregatedIsValid(env: Encoding, prev: Option<Tx>, prev': Tx, x: SpendTx, otherSig: Scalar)
    requires SpendLocked(env, prev, x) && Pledged(env, prev, x.tx, x.sig, 0)
    requires prev.Some? ==> Strip(prev') == Strip(prev.value)
    ensures
      var (x', fault) := x.AggregateSigs(env, otherSig);
      fault.None? ==> prev.Some? && x'.tx.Some? && ValidKeySpend(env, prev', x'.tx.value, 0)
  {
    SpendIsValid(env, prev, prev', x, otherSig, 0);
    hide SpendLocked, Pledged, ValidKeySpend, SpendTx.Aggregate, SpendTx.Complete, Strip;
  }

  lemma SameLock(env: Encoding, prev: Option<Tx>, tx: Tx, i: nat, t: TMuSig2, t': TMuSig2)
    requires Locked(env, prev, tx, i, Some(t)) && t'.aggKey == t.aggKey
    ensures prev.Some? && Locked(env, prev, tx, i, Some(t'))
  {
  }

  lemma WarningIsValid(env: Encoding, prev: Option<Tx>, w: WarningTx, otherP: Scalar, otherQ: Scalar)
    requires WarningLocked(env, prev, w) && Pledged(env, prev, w.tx, w.sigP, 0) && Pledged(env, prev, w.tx, w.sigQ, 1)
    ensures
      var (w', fault) := w.AggregateSigs(env, otherP, otherQ);
      && (w.tx.Some? <==> w'.tx.Some?) && (w.tx.Some? ==> Strip(w'.tx.value) == Strip(w.tx.value))
      && (fault.None? ==>
            && prev.Some? && w'.tx.Some?
            && ValidKeySpend(env, prev.value, w'.tx.value, 0) && ValidKeySpend(env, prev.value, w'.tx.value, 1))
  {
    hide VerifyPartial, VerifyAdaptor, Verify, Adapt, Prevouts, ValidKeySpend, Strip, TMuSig2.AggregateSigs,
         TMuSig2.Sign, MessageOf, Locked;
    var (w', fault) := w.AggregateSigs(env, otherP, otherQ);
    if fault.None? {
      var p, q := w.sigP.value.AggregateSigs(env, otherP).0, w.sigQ.value.AggregateSigs(env, otherQ).0;
      var tx := w.tx.value;
      var first := p.Sign(env, 0, tx).value;
      OnlyValidAggregate(w.sigP.value, env, otherP);
      OnlyValidAggregate(w.sigQ.value, env, otherQ);
      OnlyValidWitness(p, env, 0, tx);
      OnlyValidWitness(q, env, 0, first);
      SameLock(env, prev, tx, 0, w.sigP.value, p);
      SameLock(env, prev, tx, 1, w.sigQ.value, q);
      WitnessIsValid(env, prev.value, prev.value, tx, w'.tx.value, 0, p);
      WitnessIsValid(env, prev.value, prev.value, tx, w'.tx.value, 1, q);
    }
  }

  /** The fourth round from any such state, with any message. */
  lemma FourthRoundIsValid(env: Encoding, s: Party, bob: Round3Parameter)
    requires s.round == 3 && Pledges(env, s) && KeysMatch(env, s)
    ensures var (s', r) := s.Round4(env, bob); r.Ok? ==> AllValid(env, s', r.value)
  {
    hide Pledged, SpendLocked, WarningLocked, ValidKeySpend, SpendTx.Aggregate, SpendTx.AggregateSigs, SpendTx.Complete,
         WarningTx.AggregateSigs, Strip, Party.Round4;
    var w := s.warnMe.AggregateSigs(env, bob.pPartPeer, bob.qPartPeer).0;
    WarningIsValid(env, s.deposit.tx, s.warnMe, bob.pPartPeer, bob.qPartPeer);
    AggregatedIsValid(env, s.warnMe.tx, if w.tx.Some? then w.tx.value else Tx([], []), s.claimMe, bob.claimPartSig);
    AggregatedIsValid(env, s.warnPeer.tx, if s.warnPeer.tx.Some? then s.warnPeer.tx.value else Tx([], []), s.redirectMe,
                      bob.redirectPartSig);
    SpendIsValid(env, s.deposit.tx, if s.deposit.tx.Some? then s.deposit.tx.value else Tx([], []), s.swap,
                 bob.swapPartSig, s.pTik.sec);
    if s.Round4(env, bob).1.Ok? {
      FourthRoundParts(env, s, bob);
    }
  }

  /** What a successful fourth round consists of. */
  lemma FourthRoundParts(env: Encoding, s: Party, bob: Round3Parameter)
    requires s.round == 3 && s.Round4(env, bob).1.Ok?
    ensures
      var (s', r) := s.Round4(env, bob);
      var swap := s.swap.Aggregate(env, bob.swapPartSig);
      var warn := s.warnMe.AggregateSigs(env, bob.pPartPeer, bob.qPartPeer);
      var claim := s.claimMe.AggregateSigs(env, bob.claimPartSig);
      var redirect := s.redirectMe.AggregateSigs(env, bob.redirectPartSig);
      var done := swap.0.Complete(env, s.pTik.sec);
      && swap.1.None? && warn.1.None? && claim.1.None? && redirect.1.None? && (s.role.Seller? ==> done.1.None?)
      && s' == s.(round := 4, swap := if s.role.Seller? then done.0 else swap.0, warnMe := warn.0, claimMe := claim.0,
                  redirectMe := redirect.0)
      && r.value.swapOnchain == if s.role.Seller? then done.0.tx else None
  {
    hide SpendTx.Aggregate, SpendTx.AggregateSigs, SpendTx.Complete, WarningTx.AggregateSigs;
  }

  /** The own transactions are valid, and the seller's answer is its swap transaction. */
  ghost predicate AllValid(env: Encoding, s: Party, m: Round4Parameter) {
    && s.deposit.tx.Some? && s.warnMe.tx.Some? && s.warnPeer.tx.Some? && s.claimMe.tx.Some? && s.redirectMe.tx.Some?
    && ValidKeySpend(env, s.deposit.tx.value, s.warnMe.tx.value, 0)
    && ValidKeySpend(env, s.deposit.tx.value, s.warnMe.tx.value, 1)
    && ValidKeySpend(env, s.warnMe.tx.value, s.claimMe.tx.value, 0)
    && ValidKeySpend(env, s.warnPeer.tx.value, s.redirectMe.tx.value, 0)
    && (if s.role.Buyer? then m.swapOnchain.None?
        else s.swap.tx.Some? && m.swapOnchain == s.swap.tx
             && ValidKeySpend(env, s.deposit.tx.value, s.swap.tx.value, 0))
  }

  // ------------------------------------------------------ every run

  ghost predicate PledgeState(env: Encoding, s: Party) {
    && (s.round <= 1 ==> NoneYet(s)) && (s.round == 2 ==> AllFresh(s)) && (s.round == 3 ==> Pledges(env, s))
  }

  lemma {:induction false} RunPledges(env: Encoding, role: Role, pay: Amounts, w: Wallet, p: SecKey, q: SecKey,
                                      calls: seq<Call>)
    ensures PledgeState(env, Run(env, NewParty(role, pay, w, p, q), calls))
  {
    var start := NewParty(role, pay, w, p, q);
    if calls == [] {
    } else {
      var k := |calls| - 1;
      RunPledges(env, role, pay, w, p, q, calls[..k]);
      RoundGuardedNonces(env, role, pay, w, p, q, calls[..k]);
      RoundGuardedNonces(env, role, pay, w, p, q, calls);
      hide Drawn;
      PledgeStep(env, Run(env, start, calls[..k]), calls[k], Drawn(env, start, calls[..k]), Drawn(env, start, calls));
    }
  }

  lemma PledgeStep(env: Encoding, s: Party, c: Call, drawn: Option<Nonces>, drawn': Option<Nonces>)
    requires PledgeState(env, s) && NonceState(s, drawn) && NonceState(Exec(env, s, c), drawn')
    ensures PledgeState(env, Exec(env, s, c))
  {
    var s' := Exec(env, s, c);
    if s'.round == 2 {
      FreshWhenUnused(s', drawn'.value);
    } else if s'.round == 3 {
      if c.Call3? && s.round == 2 {
        FreshWhenUnused(s, drawn.value);
        ThirdRoundPledges(env, s, c.bob2, c.broadcast);
      } else {
        hide Pledges, NoneYet, EachOnce;
        StaysInThree(env, s, c);
      }
    }
    hide Exec, Pledges, EachOnce;
  }

  lemma FreshWhenUnused(s: Party, n: Nonces)
    requires EachOnce(s, n, false)
    ensures AllFresh(s)
  {
  }

  lemma StaysInThree(env: Encoding, s: Party, c: Call)
    requires Exec(env, s, c).round == 3 && !(c.Call3? && s.round == 2) && s.round <= 5
    ensures Exec(env, s, c) == s
  {
    match c
    case Call1(part, a) =>
    case Call2(bob, n, shuffles) =>
      WrongRoundKeeps2(env, s, bob, n, shuffles);
      if s.round == 1 {
        SecondRoundCounter(env, s, bob, n, shuffles);
      }
      hide Party.Round2;
    case Call3(bob, broadcast) =>
      WrongRoundKeeps3(env, s, bob, broadcast);
      hide Party.Round3;
    case Call4(bob) =>
      WrongRoundKeeps4(env, s, bob);
      if s.round == 3 {
        FourthRoundCounter(env, s, bob);
      }
      hide Party.Round4;
    case Call5(bob) =>
      FifthRound(env, s, bob);
      hide Party.Round5;
  }

  lemma SecondRoundCounter(env: Encoding, s: Party, bob: Round1Parameter, n: Nonces, shuffles: Shuffles)
    requires s.round == 1
    ensures s.Round2(env, bob, n, shuffles).0.round == 2
  {
    hide Merged, AggKey.AggregateKey, WarningTx.Build, SpendTx.BuildSwap, SpendTx.BuildClaim, SpendTx.BuildRedirect,
         Extract;
  }

  /** In every run, with any messages from the other side: if the fourth round then
      succeeds, everything the trader completed is valid. */
  lemma CompletedIsValid(env: Encoding, role: Role, pay: Amounts, w: Wallet, p: SecKey, q: SecKey, calls: seq<Call>,
                         bob: Round3Parameter)
    ensures
      var (s, r) := Run(env, NewParty(role, pay, w, p, q), calls).Round4(env, bob);
      r.Ok? ==> AllValid(env, s, r.value)
  {
    RunPledges(env, role, pay, w, p, q, calls);
    KeysLockPrevouts(env, role, pay, w, p, q, calls);
    var s := Run(env, NewParty(role, pay, w, p, q), calls);
    WrongRoundKeeps4(env, s, bob);
    hide Run, AllValid, Pledges, KeysMatch, Party.Round4, NoneYet, AllFresh;
    if s.round == 3 {
      FourthRoundIsValid(env, s, bob);
    }
  }
}
