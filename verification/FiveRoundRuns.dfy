/** What holds of one trader in every run of the five-round protocol, whatever
    messages arrive and however often a round is attempted: each signature is
    made at most once, with the nonce drawn for it, and each signing key is the
    one that locks the output being spent. */
module FiveRoundRuns {
  import opened Results
  import opened Scalars
  import opened Musig
  import opened Transactions
  import opened AggKeys
  import opened Deposits
  import opened DepositTxs
  import opened Contracts
  import opened FiveRounds

  datatype Call =
    | Call1(part: Option<Psbt>, addresses: Addresses)
    | Call2(bob1: Round1Parameter, nonces: Nonces, shuffles: Shuffles)
    | Call3(bob2: Round2Parameter, broadcast: bool)
    | Call4(bob3: Round3Parameter)
    | Call5(bob4: Round4Parameter)

  function Exec(env: Encoding, s: Party, c: Call): Party {
    match c
    case Call1(part, a) => s.Round1(part, a).0
    case Call2(bob, n, shuffles) => s.Round2(env, bob, n, shuffles).0
    case Call3(bob, broadcast) => s.Round3(env, bob, broadcast).0
    case Call4(bob) => s.Round4(env, bob).0
    case Call5(bob) => s.Round5(env, bob).0
  }

  function Run(env: Encoding, start: Party, calls: seq<Call>): Party {
    if calls == [] then start
    else Exec(env, Run(env, start, calls[..|calls| - 1]), calls[|calls| - 1])
  }

  /** The nonces of the second-round call that the round counter let through. */
  function Drawn(env: Encoding, start: Party, calls: seq<Call>): Option<Nonces> {
    if calls == [] then None
    else
      var init, last := calls[..|calls| - 1], calls[|calls| - 1];
      if last.Call2? && Run(env, start, init).round == 1 then Some(last.nonces) else Drawn(env, start, init)
  }

  // ------------------------------------------------------ nonces

  predicate Unused(t: TMuSig2, n: SecNonce) {
    t.signed == [] && t.adaptor.None? && t.secNonce == n && t.pubNonce == n.Public()
  }

  predicate UsedOnce(t: TMuSig2, n: SecNonce) {
    t.signed == [n.tag] && t.secNonce.tag == Placeholder && t.pubNonce == n.Public()
  }

  predicate Once(t: Option<TMuSig2>, n: SecNonce, mayBeUsed: bool) {
    t.Some? ==> Unused(t.value, n) || (mayBeUsed && UsedOnce(t.value, n))
  }

  predicate EachOnce(s: Party, n: Nonces, mayBeUsed: bool) {
    && Once(s.swap.sig, n.swap, mayBeUsed)
    && Once(s.warnMe.sigP, n.warnMeP, mayBeUsed) && Once(s.warnMe.sigQ, n.warnMeQ, mayBeUsed)
    && Once(s.warnPeer.sigP, n.warnPeerP, mayBeUsed) && Once(s.warnPeer.sigQ, n.warnPeerQ, mayBeUsed)
    && Once(s.claimMe.sig, n.claimMe, mayBeUsed) && Once(s.claimPeer.sig, n.claimPeer, mayBeUsed)
    && Once(s.redirectMe.sig, n.redirectMe, mayBeUsed) && Once(s.redirectPeer.sig, n.redirectPeer, mayBeUsed)
  }

  predicate NoneYet(s: Party) {
    && s.swap.sig.None? && s.warnMe.sigP.None? && s.warnMe.sigQ.None? && s.warnPeer.sigP.None? && s.warnPeer.sigQ.None?
    && s.claimMe.sig.None? && s.claimPeer.sig.None? && s.redirectMe.sig.None? && s.redirectPeer.sig.None?
    && s.swap.tx.None? && s.warnMe.tx.None? && s.warnPeer.tx.None?
    && s.claimMe.tx.None? && s.claimPeer.tx.None? && s.redirectMe.tx.None? && s.redirectPeer.tx.None?
    && s.deposit.signedPsbt.None?
  }

  lemma SpendOnce(env: Encoding, x: SpendTx, n: SecNonce)
    requires Once(x.sig, n, false)
    ensures forall prev, point, other :: Once(x.BuildPartialSig(env, prev, point, other).0.sig, n, true)
  {
    hide SignPartial, Prevouts;
  }

  lemma WarningOnce(env: Encoding, x: WarningTx, n: SecNonce, n': SecNonce)
    requires Once(x.sigP, n, false) && Once(x.sigQ, n', false)
    ensures forall prev, other, other' :: Once(x.BuildPartialSig(env, prev, other, other').0.sigP, n, true)
    ensures forall prev, other, other' :: Once(x.BuildPartialSig(env, prev, other, other').0.sigQ, n', true)
  {
    hide SignPartial, Prevouts;
  }

  lemma AggregationKeepsNonce(env: Encoding, x: SpendTx, w: WarningTx)
    ensures forall n, part :: Once(x.sig, n, true) ==> Once(x.Aggregate(env, part).0.sig, n, true)
    ensures forall n, part :: Once(x.sig, n, true) ==> Once(x.AggregateSigs(env, part).0.sig, n, true)
    ensures forall n, t :: Once(x.sig, n, true) ==> Once(x.Complete(env, t).0.sig, n, true)
    ensures forall n, p, q :: Once(w.sigP, n, true) ==> Once(w.AggregateSigs(env, p, q).0.sigP, n, true)
    ensures forall n, p, q :: Once(w.sigQ, n, true) ==> Once(w.AggregateSigs(env, p, q).0.sigQ, n, true)
  {
    hide VerifyPartial, AggregatePartials, VerifyAdaptor, Adapt, Verify;
  }

  lemma FirstRound(part: Option<Psbt>, a: Addresses, s: Party)
    ensures s.Round1(part, a).0.round == (if s.round == 0 then 1 else s.round)
    ensures NoneYet(s) ==> NoneYet(s.Round1(part, a).0)
    ensures s.round != 0 ==> s.Round1(part, a).0 == s
  {
  }

  lemma BuiltUnused(env: Encoding, x: SpendTx, w: WarningTx)
    requires x.sig.None? && w.sigP.None? && w.sigQ.None?
    ensures forall role, q, deposit, peers, n :: Once(x.BuildSwap(env, role, q, deposit, peers, n).0.sig, n, false)
    ensures forall tik, warning, n :: Once(x.BuildClaim(env, tik, warning, n).0.sig, n, false)
    ensures forall tik, warning, n :: Once(x.BuildRedirect(env, tik, warning, n).0.sig, n, false)
    ensures forall a, b, p, q, deposit, n, n' :: Once(w.Build(env, a, b, p, q, deposit, n, n').0.sigP, n, false)
    ensures forall a, b, p, q, deposit, n, n' :: Once(w.Build(env, a, b, p, q, deposit, n, n').0.sigQ, n', false)
  {
    hide TxInFor, AggKey.AggScript;
  }

  lemma SecondRound(env: Encoding, s: Party, bob: Round1Parameter, n: Nonces, shuffles: Shuffles)
    requires s.round == 1 && NoneYet(s)
    ensures
      var s' := s.Round2(env, bob, n, shuffles).0;
      s'.round == 2 && EachOnce(s', n, false)
  {
    hide AggKey.AggregateKey, Merged, Extract, Once, SpendTx.BuildSwap, SpendTx.BuildClaim, SpendTx.BuildRedirect,
         WarningTx.Build;
    forall m: SecNonce ensures Once(None, m, false) {
      NothingOnce(m);
    }
    BuiltUnused(env, s.swap, s.warnMe);
    BuiltUnused(env, s.claimMe, s.warnPeer.(anchor := Some(bob.warnAnchorSpend)));
    BuiltUnused(env, s.claimPeer.(spend := Some(bob.claimSpend)), s.warnMe);
    BuiltUnused(env, s.redirectMe, s.warnMe);
    BuiltUnused(env, s.redirectPeer.(spend := Some(bob.redirectAnchorSpend)), s.warnMe);
  }

  lemma NothingOnce(n: SecNonce)
    ensures Once(None, n, false)
  {
  }

  lemma TakeDepositKeeps(s: Party, bob: Round2Parameter, broadcast: bool)
    ensures s.TakeDeposit(bob, broadcast).0 == s.(deposit := s.TakeDeposit(bob, broadcast).0.deposit)
  {
    hide Completed, Extract;
  }

  lemma SwapSignedOnce(env: Encoding, s: Party, n: Nonces, bob: Round2Parameter)
    requires Once(s.swap.sig, n.swap, false)
    ensures
      var s' := s.SignSwap(env, bob).0;
      s' == s.(swap := s'.swap) && Once(s'.swap.sig, n.swap, true)
  {
    SpendOnce(env, s.swap, n.swap);
    hide SpendTx.BuildPartialSig;
  }

  lemma WarningsSignedOnce(env: Encoding, s: Party, n: Nonces, bob: Round2Parameter)
    requires Once(s.warnMe.sigP, n.warnMeP, false) && Once(s.warnMe.sigQ, n.warnMeQ, false)
    requires Once(s.warnPeer.sigP, n.warnPeerP, false) && Once(s.warnPeer.sigQ, n.warnPeerQ, false)
    ensures
      var s' := s.SignWarnings(env, bob).0;
      && s' == s.(warnMe := s'.warnMe, warnPeer := s'.warnPeer)
      && Once(s'.warnMe.sigP, n.warnMeP, true) && Once(s'.warnMe.sigQ, n.warnMeQ, true)
      && Once(s'.warnPeer.sigP, n.warnPeerP, true) && Once(s'.warnPeer.sigQ, n.warnPeerQ, true)
  {
    WarningOnce(env, s.warnMe, n.warnMeP, n.warnMeQ);
    WarningOnce(env, s.warnPeer, n.warnPeerP, n.warnPeerQ);
    hide WarningTx.BuildPartialSig;
  }

  lemma ClaimsSignedOnce(env: Encoding, s: Party, n: Nonces, bob: Round2Parameter)
    requires Once(s.claimMe.sig, n.claimMe, false) && Once(s.claimPeer.sig, n.claimPeer, false)
    ensures
      var s' := s.SignClaims(env, bob).0;
      && s' == s.(claimMe := s'.claimMe, claimPeer := s'.claimPeer)
      && Once(s'.claimMe.sig, n.claimMe, true) && Once(s'.claimPeer.sig, n.claimPeer, true)
  {
    SpendOnce(env, s.claimMe, n.claimMe);
    SpendOnce(env, s.claimPeer, n.claimPeer);
    hide SpendTx.BuildPartialSig;
  }

  lemma RedirectsSignedOnce(env: Encoding, s: Party, n: Nonces, bob: Round2Parameter)
    requires Once(s.redirectMe.sig, n.redirectMe, false) && Once(s.redirectPeer.sig, n.redirectPeer, false)
    ensures
      var s' := s.SignRedirects(env, bob).0;
      && s' == s.(redirectMe := s'.redirectMe, redirectPeer := s'.redirectPeer)
      && Once(s'.redirectMe.sig, n.redirectMe, true) && Once(s'.redirectPeer.sig, n.redirectPeer, true)
  {
    SpendOnce(env, s.redirectMe, n.redirectMe);
    SpendOnce(env, s.redirectPeer, n.redirectPeer);
    hide SpendTx.BuildPartialSig;
  }

  lemma ThirdRound(env: Encoding, s: Party, n: Nonces, bob: Round2Parameter, broadcast: bool)
    requires s.round == 2 && EachOnce(s, n, false)
    ensures
      var s' := s.Round3(env, bob, broadcast).0;
      s'.round == 3 && EachOnce(s', n, true)
  {
    hide Once, Party.TakeDeposit, Party.SignSwap, Party.SignWarnings, Party.SignClaims, Party.SignRedirects;
    OnceIsMaybe(s, n);
    var s0 := s.(round := 3);
    var s1 := s0.TakeDeposit(bob, broadcast).0;
    var s2 := s1.SignSwap(env, bob).0;
    var s3 := s2.SignWarnings(env, bob).0;
    var s4 := s3.SignClaims(env, bob).0;
    TakeDepositKeeps(s0, bob, broadcast);
    SwapSignedOnce(env, s1, n, bob);
    WarningsSignedOnce(env, s2, n, bob);
    ClaimsSignedOnce(env, s3, n, bob);
    RedirectsSignedOnce(env, s4, n, bob);
  }

  lemma OnceIsMaybe(s: Party, n: Nonces)
    requires EachOnce(s, n, false)
    ensures EachOnce(s, n, true)
  {
  }

  lemma FourthRound(env: Encoding, s: Party, n: Nonces, bob: Round3Parameter)
    requires s.round == 3 && EachOnce(s, n, true)
    ensures
      var s' := s.Round4(env, bob).0;
      s'.round == 4 && EachOnce(s', n, true)
  {
    var swap' := s.swap.Aggregate(env, bob.swapPartSig).0;
    AggregationKeepsNonce(env, s.swap, s.warnMe);
    AggregationKeepsNonce(env, swap', s.warnMe);
    AggregationKeepsNonce(env, s.claimMe, s.warnMe);
    AggregationKeepsNonce(env, s.redirectMe, s.warnMe);
    FourthRoundPeers(env, s, bob);
    hide Once, SpendTx.Aggregate, SpendTx.AggregateSigs, SpendTx.Complete, WarningTx.AggregateSigs;
  }

  lemma FourthRoundPeers(env: Encoding, s: Party, bob: Round3Parameter)
    ensures
      var s' := s.Round4(env, bob).0;
      && s'.deposit == s.deposit && s'.pTik == s.pTik && s'.qTik == s.qTik
      && s'.warnPeer == s.warnPeer && s'.claimPeer == s.claimPeer && s'.redirectPeer == s.redirectPeer
  {
    hide SpendTx.Aggregate, SpendTx.AggregateSigs, SpendTx.Complete, WarningTx.AggregateSigs;
  }

  lemma FifthRound(env: Encoding, s: Party, bob: Round4Parameter)
    ensures
      var s' := s.Round5(env, bob).0;
      s' == s.(round := s'.round, pTik := s'.pTik) && s'.round == (if s.round == 4 then 5 else s.round)
  {
    hide TMuSig2.RevealSecret, AggKey.WithOtherSecret;
  }

  ghost predicate NonceState(s: Party, drawn: Option<Nonces>) {
    && s.round <= 5
    && (s.round <= 1 ==> NoneYet(s) && drawn == None)
    && (s.round >= 2 ==> drawn.Some? && EachOnce(s, drawn.value, s.round >= 3))
  }

  /** In every run each of the nine signatures of a trader is made at most once,
      not before the third round, and with the nonce drawn for it in the second. */
  lemma {:induction false} RoundGuardedNonces(env: Encoding, role: Role, pay: Amounts, w: Wallet, p: SecKey,
                                              q: SecKey, calls: seq<Call>)
    ensures
      var start := NewParty(role, pay, w, p, q);
      NonceState(Run(env, start, calls), Drawn(env, start, calls))
  {
    var start := NewParty(role, pay, w, p, q);
    if calls == [] {
    } else {
      var k := |calls| - 1;
      RoundGuardedNonces(env, role, pay, w, p, q, calls[..k]);
      NonceStep(env, Run(env, start, calls[..k]), Drawn(env, start, calls[..k]), calls[k]);
    }
  }

  /** The nine signing contexts, and the nonces drawn for them, in one order. */
  function ContextsOf(s: Party): seq<Option<TMuSig2>> {
    [s.swap.sig, s.warnMe.sigP, s.warnMe.sigQ, s.warnPeer.sigP, s.warnPeer.sigQ,
     s.claimMe.sig, s.claimPeer.sig, s.redirectMe.sig, s.redirectPeer.sig]
  }

  function Nine(n: Nonces): seq<SecNonce> {
    [n.swap, n.warnMeP, n.warnMeQ, n.warnPeerP, n.warnPeerQ, n.claimMe, n.claimPeer, n.redirectMe, n.redirectPeer]
  }

  /** Each comes from a draw of its own. */
  ghost predicate OwnDraws(n: Nonces) {
    && (forall i :: 0 <= i < 9 ==> Nine(n)[i].tag.Draw?)
    && forall i, j :: 0 <= i < j < 9 ==> Nine(n)[i].tag != Nine(n)[j].tag
  }

  /** What a context has signed with. */
  function SignedWith(t: Option<TMuSig2>): seq<NonceTag> {
    if t.Some? then t.value.signed else []
  }

  /** If the draws differ, two signatures of a run were never made with one nonce,
      in one context or in two, and none with the constant. */
  lemma NoSharedNonce(env: Encoding, role: Role, pay: Amounts, w: Wallet, p: SecKey, q: SecKey, calls: seq<Call>,
                      a: nat, i: nat, b: nat, j: nat)
    requires
      var drawn := Drawn(env, NewParty(role, pay, w, p, q), calls);
      drawn.Some? ==> OwnDraws(drawn.value)
    requires
      var contexts := ContextsOf(Run(env, NewParty(role, pay, w, p, q), calls));
      a < 9 && b < 9 && i < |SignedWith(contexts[a])| && j < |SignedWith(contexts[b])|
    ensures
      var contexts := ContextsOf(Run(env, NewParty(role, pay, w, p, q), calls));
      && SignedWith(contexts[a])[i].Draw?
      && (SignedWith(contexts[a])[i] == SignedWith(contexts[b])[j] ==> a == b && i == j)
  {
    RoundGuardedNonces(env, role, pay, w, p, q, calls);
    hide Run, Drawn;
    var start := NewParty(role, pay, w, p, q);
    SignedOwn(Run(env, start, calls), Drawn(env, start, calls), a);
    SignedOwn(Run(env, start, calls), Drawn(env, start, calls), b);
  }

  lemma SignedOwn(s: Party, drawn: Option<Nonces>, a: nat)
    requires NonceState(s, drawn) && a < 9
    ensures
      var signed := SignedWith(ContextsOf(s)[a]);
      signed == [] || (drawn.Some? && signed == [Nine(drawn.value)[a].tag])
  {
  }

  lemma NonceStep(env: Encoding, s: Party, drawn: Option<Nonces>, c: Call)
    requires NonceState(s, drawn)
    ensures NonceState(Exec(env, s, c), if c.Call2? && s.round == 1 then Some(c.nonces) else drawn)
  {
    match c
    case Call1(part, a) =>
      FirstRound(part, a, s);
      hide Party.Round1, EachOnce, NoneYet;
    case Call2(bob, n, shuffles) =>
      if s.round == 1 {
        SecondRound(env, s, bob, n, shuffles);
      }
      WrongRoundKeeps2(env, s, bob, n, shuffles);
      hide Party.Round2, EachOnce, NoneYet;
    case Call3(bob, broadcast) =>
      if s.round == 2 {
        ThirdRound(env, s, drawn.value, bob, broadcast);
      }
      WrongRoundKeeps3(env, s, bob, broadcast);
      hide Party.Round3, EachOnce, NoneYet;
    case Call4(bob) =>
      if s.round == 3 {
        FourthRound(env, s, drawn.value, bob);
      }
      WrongRoundKeeps4(env, s, bob);
      hide Party.Round4, EachOnce, NoneYet;
    case Call5(bob) =>
      FifthRound(env, s, bob);
      hide Party.Round5, NoneYet;
  }

  lemma WrongRoundKeeps2(env: Encoding, s: Party, bob: Round1Parameter, n: Nonces, shuffles: Shuffles)
    ensures s.round != 1 ==> s.Round2(env, bob, n, shuffles) == (s, Err(()))
  {
    hide Party.AggregateKeys, Party.BuildDeposit, Party.BuildWarnings, Party.BuildSwap, Party.SpendWarnings;
  }

  lemma WrongRoundKeeps3(env: Encoding, s: Party, bob: Round2Parameter, broadcast: bool)
    ensures s.round != 2 ==> s.Round3(env, bob, broadcast) == (s, Err(()))
  {
    hide Party.TakeDeposit, Party.SignSwap, Party.SignWarnings, Party.SignClaims, Party.SignRedirects;
  }

  lemma WrongRoundKeeps4(env: Encoding, s: Party, bob: Round3Parameter)
    ensures s.round != 3 ==> s.Round4(env, bob) == (s, Err(WrongRound))
  {
    hide SpendTx.Aggregate, SpendTx.AggregateSigs, SpendTx.Complete, WarningTx.AggregateSigs;
  }
}
