/** Two honest traders through rounds three to five: matching nonces and
    messages, valid signatures on every transaction, and the buyer's knowledge
    of the seller's key at the end. */
module FiveRoundCompletion {
  import opened Results
  import opened Scalars
  import opened Musig
  import opened Transactions
  import opened AggKeys
  import opened Deposits
  import opened DepositTxs
  import opened Contracts
  import opened FiveRounds
  import opened FiveRoundKeys
  import opened HonestSigning
  import opened FiveRoundDeal

  // ------------------------------------------------------ which key unlocks what

  lemma PartnerKeys(d: Deal, role: Role)
    requires GoodKeys(d)
    ensures Partners(TikOf(d, role), OtherTikOf(d, role.Other()))
            && Partners(OtherTikOf(d, role), TikOf(d, role.Other()))
    ensures PKey(d, role).agg == PKey(d, Seller).agg && QKey(d, role).agg == QKey(d, Seller).agg
    ensures TikOf(d, role).agg == KeySpentBy(d, role).agg && OtherTikOf(d, role).agg == KeySpentBy(d, role.Other()).agg
  {
    KeysArePartners(d, Seller);
    KeysArePartners(d, Buyer);
    hide PKey, QKey, GoodKeys, KeysOf, Lockable;
  }

  lemma TwoUnlock(env: Encoding, prev: Tx, p: AggKey, q: AggKey, inP: TxIn, inQ: TxIn, tx: Tx)
    requires Lockable(env, p) && Lockable(env, q)
    requires TxInFor(env, prev, p) == Some(inP) && TxInFor(env, prev, q) == Some(inQ)
    requires tx.inputs == [inP, inQ]
    ensures Unlocks(env, prev, tx, 0, p) && Unlocks(env, prev, tx, 1, q)
  {
    TxInResolves(env, prev, p);
    TxInResolves(env, prev, q);
    hide TxInFor, AggKey.AggScript, Encoding.Txid;
    assert forall i :: 0 <= i < |tx.inputs| ==> Resolves(env, prev, tx.inputs[i]);
    assert Prevouts(env, prev, tx.inputs) == Some(Referenced(prev, tx.inputs));
  }

  lemma OneUnlocks(env: Encoding, prev: Tx, q: AggKey, inQ: TxIn, tx: Tx)
    requires Lockable(env, q) && TxInFor(env, prev, q) == Some(inQ) && tx.inputs == [inQ]
    ensures Unlocks(env, prev, tx, 0, q)
  {
    TxInResolves(env, prev, q);
    hide TxInFor, AggKey.AggScript, Encoding.Txid;
    assert forall i :: 0 <= i < |tx.inputs| ==> Resolves(env, prev, tx.inputs[i]);
    assert Prevouts(env, prev, tx.inputs) == Some(Referenced(prev, tx.inputs));
  }

  lemma WarningUnlocks(d: Deal, role: Role, owner: Role)
    requires Honest(d)
    ensures Unlocks(d.env, Base(d), Warning(d, owner), 0, PKey(d, role))
    ensures Unlocks(d.env, Base(d), Warning(d, owner), 1, QKey(d, role))
  {
    OutputsFound(d, role);
    KeysArePartners(d, role);
    hide PKey, QKey, Base, GoodKeys, GoodDeposit, Partners, Lockable, TxInFor, InputOf, ScriptOf, KeySpentBy, Unlocks;
    TwoUnlock(d.env, Base(d), PKey(d, role), QKey(d, role), InputOf(d, PKey(d, Seller)), InputOf(d, QKey(d, Seller)),
              Warning(d, owner));
  }

  lemma SwapUnlocks(d: Deal, role: Role)
    requires Honest(d)
    ensures Unlocks(d.env, Base(d), Swap(d), 0, QKey(d, role)) && |Swap(d).inputs| == 1
  {
    OutputsFound(d, role);
    KeysArePartners(d, role);
    hide PKey, QKey, Base, GoodKeys, GoodDeposit, Partners, Lockable, TxInFor, InputOf, Unlocks;
    OneUnlocks(d.env, Base(d), QKey(d, role), InputOf(d, QKey(d, Seller)), Swap(d));
  }

  lemma WarningOutputLock(d: Deal, role: Role, key: AggKey)
    requires Honest(d) && key.agg == KeySpentBy(d, role).agg
    ensures key.agg.Some? && Warning(d, role).outputs != []
    ensures Warning(d, role).outputs[0].script == P2tr(d.env.h.Even(key.agg.value.pubkey))
  {
    KeysArePartners(d, Seller);
    hide PKey, QKey, GoodKeys, GoodDeposit, KeysOf, InputOf, AggKey.AggScript;
  }

  /** The claim of one trader, and the redirect of the other, spend the first one's warning. */
  lemma SpendsUnlock(d: Deal, role: Role, key: AggKey)
    requires Honest(d) && key.agg == KeySpentBy(d, role).agg
    ensures Unlocks(d.env, Warning(d, role), Claim(d, role), 0, key) && |Claim(d, role).inputs| == 1
    ensures Unlocks(d.env, Warning(d, role), Redirect(d, role.Other()), 0, key)
            && |Redirect(d, role.Other()).inputs| == 1
  {
    WarningOutputLock(d, role, key);
    FundsResolve(d.env, Warning(d, role), T1);
    FundsResolve(d.env, Warning(d, role), T2);
    hide Prevouts, Warning, GoodKeys, GoodDeposit, KeySpentBy;
  }

  // ------------------------------------------------------ the third round

  function SwapMessage(d: Deal): nat
    requires GoodAmounts(d.pay)
  {
    MessageOf(d.env, Base(d), Swap(d), 0)
  }

  function WarnMessage(d: Deal, owner: Role, i: nat): nat
    requires GoodAmounts(d.pay)
  {
    MessageOf(d.env, Base(d), Warning(d, owner), i)
  }

  function ClaimMessage(d: Deal, owner: Role): nat
    requires GoodAmounts(d.pay)
  {
    MessageOf(d.env, Warning(d, owner), Claim(d, owner), 0)
  }

  function RedirectMessage(d: Deal, owner: Role): nat
    requires GoodAmounts(d.pay)
  {
    MessageOf(d.env, Warning(d, owner.Other()), Redirect(d, owner), 0)
  }

  /** The deposit with all witnesses. */
  function FullDeposit(d: Deal, role: Role): Tx {
    if MergedOf(d, role).None? || MergedOf(d, role.Other()).None? then Tx([], [])
    else
      var done := Completed(MergedOf(d, role).value, MergedOf(d, role.Other()).value);
      if done.None? then Tx([], []) else Extract(done.value)
  }

  lemma DepositCompletes(d: Deal, role: Role)
    requires Honest(d)
    ensures MergedOf(d, role).Some? && MergedOf(d, role.Other()).Some?
    ensures Completed(MergedOf(d, role).value, MergedOf(d, role.Other()).value).Some?
    ensures FullDeposit(d, role) == FullDeposit(d, role.Other())
    ensures FullDeposit(d, role) == Extract(Completed(MergedOf(d, role).value, MergedOf(d, role.Other()).value).value)
    ensures Strip(FullDeposit(d, role)) == Strip(Base(d))
  {
    MergedBoth(d, role);
    MergedBoth(d, role.Other());
    var mine, theirs := MergedOf(d, role).value, MergedOf(d, role.Other()).value;
    CompletionConverges(mine, theirs);
    CompletedIs(d.env, mine, theirs);
    hide MergedOf, Base, Completed, Extract, Honest, Strip, EachSignedOnce;
  }

  /** The keys of the partners behind each context. */
  ghost predicate Ready(d: Deal, role: Role) {
    && Partners(PKey(d, role), PKey(d, role.Other())) && Partners(QKey(d, role), QKey(d, role.Other()))
    && Partners(TikOf(d, role), OtherTikOf(d, role.Other())) && Partners(OtherTikOf(d, role), TikOf(d, role.Other()))
  }

  lemma BothReady(d: Deal, role: Role)
    requires GoodKeys(d)
    ensures Ready(d, role) && Ready(d, role.Other())
  {
    KeysArePartners(d, role);
    KeysArePartners(d, role.Other());
    PartnerKeys(d, role);
    PartnerKeys(d, role.Other());
    hide Partners, GoodKeys, PKey, QKey;
  }

  /** The state of a trader after the third round. */
  function Signed(d: Deal, role: Role): Party
    requires GoodAmounts(d.pay) && MergedOf(d, role).Some?
    requires PKey(d, role).agg.Some? && QKey(d, role).agg.Some?
  {
    var s, env, n, n', other := Built(d, role), d.env, d.Of(role).nonces, d.Of(role.Other()).nonces, role.Other();
    var p, q, tik, otherTik := PKey(d, role), QKey(d, role), TikOf(d, role), OtherTikOf(d, role);
    s.(round := 3,
       deposit := DepositTx(None, None, Some(FullDeposit(d, role))),
       swap := s.swap.(sig := Some(Shared(env, q, n.swap, n'.swap, 0, BaseMul(d.seller.p), SwapMessage(d)))),
       warnMe := s.warnMe.(sigP := Some(Shared(env, p, n.warnMeP, n'.warnPeerP, 0, Infinity, WarnMessage(d, role, 0))),
                           sigQ := Some(Shared(env, q, n.warnMeQ, n'.warnPeerQ, 1, Infinity, WarnMessage(d, role, 1)))),
       warnPeer := s.warnPeer.(sigP := Some(Shared(env, p, n.warnPeerP, n'.warnMeP, 0, Infinity,
                                                   WarnMessage(d, other, 0))),
                               sigQ := Some(Shared(env, q, n.warnPeerQ, n'.warnMeQ, 1, Infinity,
                                                   WarnMessage(d, other, 1)))),
       claimMe := s.claimMe.(sig := Some(Shared(env, tik, n.claimMe, n'.claimPeer, 0, Infinity,
                                                ClaimMessage(d, role)))),
       claimPeer := s.claimPeer.(sig := Some(Shared(env, otherTik, n.claimPeer, n'.claimMe, 0, Infinity,
                                                    ClaimMessage(d, other)))),
       redirectMe := s.redirectMe.(sig := Some(Shared(env, otherTik, n.redirectMe, n'.redirectPeer, 0, Infinity,
                                                      RedirectMessage(d, role)))),
       redirectPeer := s.redirectPeer.(sig := Some(Shared(env, tik, n.redirectPeer, n'.redirectMe, 0, Infinity,
                                                          RedirectMessage(d, other)))))
  }

  /** And the shares it sends: those on the other trader's transactions. */
  function Message3(d: Deal, role: Role): Round3Parameter
    requires GoodAmounts(d.pay) && PKey(d, role).agg.Some? && QKey(d, role).agg.Some?
  {
    var env, n, n', other := d.env, d.Of(role).nonces, d.Of(role.Other()).nonces, role.Other();
    Round3Parameter(env.Txid(FullDeposit(d, role)),
                    Part(env, QKey(d, role), n.swap, n'.swap, BaseMul(d.seller.p), SwapMessage(d)),
                    Part(env, PKey(d, role), n.warnPeerP, n'.warnMeP, Infinity, WarnMessage(d, other, 0)),
                    Part(env, QKey(d, role), n.warnPeerQ, n'.warnMeQ, Infinity, WarnMessage(d, other, 1)),
                    Part(env, OtherTikOf(d, role), n.claimPeer, n'.claimMe, Infinity, ClaimMessage(d, other)),
                    Part(env, TikOf(d, role), n.redirectPeer, n'.redirectMe, Infinity, RedirectMessage(d, other)))
  }

  lemma TakeDepositRound(d: Deal, role: Role, s: Party)
    requires Honest(d)
    requires s.pTik == PKey(d, role) && s.qTik == QKey(d, role)
    requires MergedOf(d, role).Some?
             && s.deposit.signedPsbt == Some(MergedOf(d, role).value)
             && s.deposit.partPsbt == None
    ensures PKey(d, role.Other()).agg.Some? && QKey(d, role.Other()).agg.Some? && MergedOf(d, role.Other()).Some?
    ensures s.TakeDeposit(Message2(d, role.Other()), true)
            == (s.(deposit := DepositTx(None, None, Some(FullDeposit(d, role)))), Ok(FullDeposit(d, role)))
  {
    DepositCompletes(d, role);
    PartnerKeys(d, role);
    PartnerKeys(d, role.Other());
    KeysArePartners(d, role);
    hide MergedOf, Base, Completed, Extract, Honest, Strip, PKey, QKey, KeysOf, TikOf, OtherTikOf, KeySpentBy,
         FullDeposit, Lockable;
  }

  lemma SwapShareRound(d: Deal, role: Role, s: Party, deposit: Tx)
    requires Honest(d)
    requires s.role == role
             && s.pTik == PKey(d, role)
             && s.deposit.tx == Some(deposit)
             && Strip(deposit) == Strip(Base(d))
    requires s.swap.tx == Some(Swap(d)) && s.swap.sig == Some(NewSigning(QKey(d, role), d.Of(role).nonces.swap))
    ensures MergedOf(d, role.Other()).Some? && PKey(d, role.Other()).agg.Some? && QKey(d, role.Other()).agg.Some?
    ensures QKey(d, role).agg.Some?
    ensures
      var n, n' := d.Of(role).nonces.swap, d.Of(role.Other()).nonces.swap;
      s.SignSwap(d.env, Message2(d, role.Other()))
      == (s.(swap := s.swap.(sig := Some(Shared(d.env, QKey(d, role), n, n', 0, BaseMul(d.seller.p), SwapMessage(d))))),
          Ok(Part(d.env, QKey(d, role), n, n', BaseMul(d.seller.p), SwapMessage(d))))
  {
    MergedBoth(d, role.Other());
    KeysArePartners(d, role);
    KeysArePartners(d, role.Other());
    SwapUnlocks(d, role);
    assert s.AdaptorPoint() == Some(BaseMul(d.seller.p));
    hide MergedOf, Base, Honest, Strip, PKey, QKey, Partners, Lockable, Swap, Unlocks, SpendTx.BuildPartialSig;
    SpendShares(d.env, QKey(d, role), QKey(d, role.Other()), d.Of(role).nonces.swap, d.Of(role.Other()).nonces.swap,
                BaseMul(d.seller.p), s.swap, Base(d), deposit);
  }

  lemma WarningSharesRound(d: Deal, role: Role, s: Party, deposit: Tx)
    requires Honest(d)
    requires s.deposit.tx == Some(deposit) && Strip(deposit) == Strip(Base(d))
    requires MergedOf(d, role).Some? && s.warnMe == Built(d, role).warnMe && s.warnPeer == Built(d, role).warnPeer
    ensures MergedOf(d, role.Other()).Some? && PKey(d, role.Other()).agg.Some? && QKey(d, role.Other()).agg.Some?
    ensures PKey(d, role).agg.Some? && QKey(d, role).agg.Some?
    ensures
      s.SignWarnings(d.env, Message2(d, role.Other()))
      == (s.(warnMe := Signed(d, role).warnMe, warnPeer := Signed(d, role).warnPeer),
          Ok((Message3(d, role).pPartPeer, Message3(d, role).qPartPeer)))
  {
    MergedBoth(d, role.Other());
    KeysArePartners(d, role);
    KeysArePartners(d, role.Other());
    WarningUnlocks(d, role, role);
    WarningUnlocks(d, role, role.Other());
    hide MergedOf, Base, Honest, Strip, PKey, QKey, Partners, Lockable, Warning, Claim, Redirect, Swap, Unlocks,
         Part, Shared, WarningTx.BuildPartialSig, FullDeposit;
    var n, n' := d.Of(role).nonces, d.Of(role.Other()).nonces;
    var p, p', q, q' := PKey(d, role), PKey(d, role.Other()), QKey(d, role), QKey(d, role.Other());
    WarningShares(d.env, p, p', q, q', n.warnMeP, n'.warnPeerP, n.warnMeQ, n'.warnPeerQ, s.warnMe, Base(d), deposit);
    WarningShares(d.env, p, p', q, q', n.warnPeerP, n'.warnMeP, n.warnPeerQ, n'.warnMeQ, s.warnPeer, Base(d), deposit);
  }

  lemma ClaimSharesRound(d: Deal, role: Role, s: Party)
    requires Honest(d)
    requires s.warnMe.tx == Some(Warning(d, role)) && s.warnPeer.tx == Some(Warning(d, role.Other()))
    requires MergedOf(d, role).Some? && s.claimMe == Built(d, role).claimMe && s.claimPeer == Built(d, role).claimPeer
    ensures MergedOf(d, role.Other()).Some? && PKey(d, role.Other()).agg.Some? && QKey(d, role.Other()).agg.Some?
    ensures PKey(d, role).agg.Some? && QKey(d, role).agg.Some?
    ensures
      s.SignClaims(d.env, Message2(d, role.Other()))
      == (s.(claimMe := Signed(d, role).claimMe, claimPeer := Signed(d, role).claimPeer),
          Ok(Message3(d, role).claimPartSig))
  {
    MergedBoth(d, role.Other());
    KeysArePartners(d, role);
    KeysArePartners(d, role.Other());
    PartnerKeys(d, role);
    SpendsUnlock(d, role, TikOf(d, role));
    SpendsUnlock(d, role.Other(), OtherTikOf(d, role));
    var n, n', other := d.Of(role).nonces, d.Of(role.Other()).nonces, role.Other();
    hide MergedOf, Base, Honest, Strip, PKey, QKey, Partners, Lockable, Warning, Claim, Redirect, Swap, Unlocks,
         Part, Shared, SpendTx.BuildPartialSig, FullDeposit, KeySpentBy;
    SpendShares(d.env, TikOf(d, role), OtherTikOf(d, other), n.claimMe, n'.claimPeer, Infinity, s.claimMe,
                Warning(d, role), Warning(d, role));
    SpendShares(d.env, OtherTikOf(d, role), TikOf(d, other), n.claimPeer, n'.claimMe, Infinity, s.claimPeer,
                Warning(d, other), Warning(d, other));
  }

  lemma RedirectSharesRound(d: Deal, role: Role, s: Party)
    requires Honest(d)
    requires s.warnMe.tx == Some(Warning(d, role)) && s.warnPeer.tx == Some(Warning(d, role.Other()))
    requires MergedOf(d, role).Some?
             && s.redirectMe == Built(d, role).redirectMe
             && s.redirectPeer == Built(d, role).redirectPeer
    ensures MergedOf(d, role.Other()).Some? && PKey(d, role.Other()).agg.Some? && QKey(d, role.Other()).agg.Some?
    ensures PKey(d, role).agg.Some? && QKey(d, role).agg.Some?
    ensures
      s.SignRedirects(d.env, Message2(d, role.Other()))
      == (s.(redirectMe := Signed(d, role).redirectMe, redirectPeer := Signed(d, role).redirectPeer),
          Ok(Message3(d, role).redirectPartSig))
  {
    MergedBoth(d, role.Other());
    KeysArePartners(d, role);
    KeysArePartners(d, role.Other());
    PartnerKeys(d, role);
    SpendsUnlock(d, role.Other(), OtherTikOf(d, role));
    SpendsUnlock(d, role, TikOf(d, role));
    var n, n', other := d.Of(role).nonces, d.Of(role.Other()).nonces, role.Other();
    assert other.Other() == role;
    hide MergedOf, Base, Honest, Strip, PKey, QKey, Partners, Lockable, Warning, Claim, Redirect, Swap, Unlocks,
         Part, Shared, SpendTx.BuildPartialSig, FullDeposit, KeySpentBy;
    SpendShares(d.env, OtherTikOf(d, role), TikOf(d, other), n.redirectMe, n'.redirectPeer, Infinity, s.redirectMe,
                Warning(d, other), Warning(d, other));
    SpendShares(d.env, TikOf(d, role), OtherTikOf(d, other), n.redirectPeer, n'.redirectMe, Infinity, s.redirectPeer,
                Warning(d, role), Warning(d, role));
  }

  lemma ThirdRoundSteps(env: Encoding, s: Party, bob: Round2Parameter, s1: Party, s2: Party, s3: Party, s4: Party,
                        s5: Party, deposit: Tx, m: Round3Parameter)
    requires s.round == 2
    requires s.(round := 3).TakeDeposit(bob, true) == (s1, Ok(deposit)) && m.depositTxid == env.Txid(deposit)
    requires s1.SignSwap(env, bob) == (s2, Ok(m.swapPartSig))
    requires s2.SignWarnings(env, bob) == (s3, Ok((m.pPartPeer, m.qPartPeer)))
    requires s3.SignClaims(env, bob) == (s4, Ok(m.claimPartSig))
    requires s4.SignRedirects(env, bob) == (s5, Ok(m.redirectPartSig))
    ensures s.Round3(env, bob, true) == (s5, Ok(m))
  {
    hide Party.TakeDeposit, Party.SignSwap, Party.SignWarnings, Party.SignClaims, Party.SignRedirects;
  }

  /** Both traders get through the third round: each pair of contexts holds the
      same aggregated nonce and the same message. */
  lemma ThirdRoundSigns(d: Deal, role: Role)
    requires Honest(d)
    ensures MergedOf(d, role).Some? && PKey(d, role).agg.Some? && QKey(d, role).agg.Some?
    ensures d.After3(role) == (Signed(d, role), Ok(Message3(d, role)))
  {
    SecondRoundBuilds(d, role);
    SecondRoundBuilds(d, role.Other());
    DepositCompletes(d, role);
    var full := FullDeposit(d, role);
    var s := Built(d, role);
    var s1 := s.(round := 3, deposit := DepositTx(None, None, Some(full)));
    var s2 := s1.(swap := Signed(d, role).swap);
    var s3 := s2.(warnMe := Signed(d, role).warnMe, warnPeer := Signed(d, role).warnPeer);
    var s4 := s3.(claimMe := Signed(d, role).claimMe, claimPeer := Signed(d, role).claimPeer);
    var s5 := s4.(redirectMe := Signed(d, role).redirectMe, redirectPeer := Signed(d, role).redirectPeer);
    assert s5 == Signed(d, role);
    hide MergedOf, Base, Honest, Strip, PKey, QKey, Warning, Claim, Redirect, Swap, Part, Shared, FullDeposit,
         Completed, Extract, Party.TakeDeposit, Party.SignSwap, Party.SignWarnings, Party.SignClaims,
         Party.SignRedirects, Party.Round3, Deal.After2;
    TakeDepositRound(d, role, s.(round := 3));
    SwapShareRound(d, role, s1, full);
    WarningSharesRound(d, role, s2, full);
    ClaimSharesRound(d, role, s3);
    RedirectSharesRound(d, role, s4);
    ThirdRoundSteps(d.env, s, Message2(d, role.Other()), s1, s2, s3, s4, s5, full, Message3(d, role));
  }

  /** Both contexts sign the same message for the same key, under the same aggregated nonce. */
  ghost predicate SameSession(a: Option<TMuSig2>, b: Option<TMuSig2>) {
    && a.Some? && b.Some?
    && a.value.aggNonce.Some? && a.value.aggNonce == b.value.aggNonce
    && a.value.aggKey.agg.Some? && a.value.aggKey.agg == b.value.aggKey.agg
    && a.value.adaptor.Some? && b.value.adaptor.Some?
    && a.value.adaptor.value.msg == b.value.adaptor.value.msg
    && a.value.adaptor.value.inputIndex == b.value.adaptor.value.inputIndex
    && a.value.adaptor.value.pubAdaptor == b.value.adaptor.value.pubAdaptor
  }

  lemma SharedMatch(env: Encoding, a: AggKey, b: AggKey, n: SecNonce, n': SecNonce, i: nat, point: Point, msg: nat)
    requires Partners(a, b)
    ensures SameSession(Some(Shared(env, a, n, n', i, point, msg)), Some(Shared(env, b, n', n, i, point, msg)))
  {
    PartnersAgg(a, b);
    PartsFit(env, a, b, n, n', point, msg);
    hide Part, Partners, SumOf, AggregatePartials, VerifyPartial, SignPartial;
  }

  /** After the third round the nonces routed into each mirrored pair of contexts
      have given both sides the same session. */
  lemma MatchedContexts(d: Deal)
    requires Honest(d)
    ensures
      var s, b := d.After3(Seller).0, d.After3(Buyer).0;
      && SameSession(s.swap.sig, b.swap.sig)
      && SameSession(s.warnMe.sigP, b.warnPeer.sigP) && SameSession(s.warnMe.sigQ, b.warnPeer.sigQ)
      && SameSession(s.warnPeer.sigP, b.warnMe.sigP) && SameSession(s.warnPeer.sigQ, b.warnMe.sigQ)
      && SameSession(s.claimMe.sig, b.claimPeer.sig) && SameSession(s.claimPeer.sig, b.claimMe.sig)
      && SameSession(s.redirectMe.sig, b.redirectPeer.sig) && SameSession(s.redirectPeer.sig, b.redirectMe.sig)
  {
    assert GoodKeys(d) && GoodAmounts(d.pay);
    hide MergedOf, Honest, GoodKeys, PKey, QKey, Partners, Shared, FullDeposit, Built, SameSession, Deal.After3,
         SwapMessage, WarnMessage, ClaimMessage, RedirectMessage;
    ThirdRoundSigns(d, Seller);
    ThirdRoundSigns(d, Buyer);
    BothReady(d, Seller);
    var env, n, n' := d.env, d.seller.nonces, d.buyer.nonces;
    var p, p', q, q' := PKey(d, Seller), PKey(d, Buyer), QKey(d, Seller), QKey(d, Buyer);
    SharedMatch(env, q, q', n.swap, n'.swap, 0, BaseMul(d.seller.p), SwapMessage(d));
    SharedMatch(env, p, p', n.warnMeP, n'.warnPeerP, 0, Infinity, WarnMessage(d, Seller, 0));
    SharedMatch(env, q, q', n.warnMeQ, n'.warnPeerQ, 1, Infinity, WarnMessage(d, Seller, 1));
    SharedMatch(env, p, p', n.warnPeerP, n'.warnMeP, 0, Infinity, WarnMessage(d, Buyer, 0));
    SharedMatch(env, q, q', n.warnPeerQ, n'.warnMeQ, 1, Infinity, WarnMessage(d, Buyer, 1));
    SharedMatch(env, q, q', n.claimMe, n'.claimPeer, 0, Infinity, ClaimMessage(d, Seller));
    SharedMatch(env, p, p', n.claimPeer, n'.claimMe, 0, Infinity, ClaimMessage(d, Buyer));
    SharedMatch(env, p, p', n.redirectMe, n'.redirectPeer, 0, Infinity, RedirectMessage(d, Seller));
    SharedMatch(env, q, q', n.redirectPeer, n'.redirectMe, 0, Infinity, RedirectMessage(d, Buyer));
  }

  // ------------------------------------------------------ the fourth round

  function SwapSum(d: Deal, role: Role): Point
    requires GoodAmounts(d.pay) && QKey(d, role).agg.Some?
  {
    SumOf(d.env, QKey(d, role), d.Of(role).nonces.swap, d.Of(role.Other()).nonces.swap, SwapMessage(d))
  }

  /** The nonces of the signatures this trader completes do not cancel out. */
  ghost predicate NoncesAddUp(d: Deal, role: Role)
    requires GoodAmounts(d.pay) && PKey(d, role).agg.Some? && QKey(d, role).agg.Some?
  {
    var env, n, n' := d.env, d.Of(role).nonces, d.Of(role.Other()).nonces;
    && SwapSum(d, role) != Infinity
    && (role.Seller? ==> PAdd(SwapSum(d, role), BaseMul(d.seller.p)) != Infinity)
    && SumOf(env, PKey(d, role), n.warnMeP, n'.warnPeerP, WarnMessage(d, role, 0)) != Infinity
    && SumOf(env, QKey(d, role), n.warnMeQ, n'.warnPeerQ, WarnMessage(d, role, 1)) != Infinity
    && SumOf(env, TikOf(d, role), n.claimMe, n'.claimPeer, ClaimMessage(d, role)) != Infinity
    && SumOf(env, OtherTikOf(d, role), n.redirectMe, n'.redirectPeer, RedirectMessage(d, role)) != Infinity
  }

  lemma FourthRoundSteps(env: Encoding, s: Party, bob: Round3Parameter)
    requires s.round == 3
    ensures
      var (x, f0) := s.swap.Aggregate(env, bob.swapPartSig);
      var (w, f1) := s.warnMe.AggregateSigs(env, bob.pPartPeer, bob.qPartPeer);
      var (c, f2) := s.claimMe.AggregateSigs(env, bob.claimPartSig);
      var (r, f3) := s.redirectMe.AggregateSigs(env, bob.redirectPartSig);
      var (x', f4) := x.Complete(env, s.pTik.sec);
      var (s', m) := s.Round4(env, bob);
      && (m.Ok? <==> f0 == f1 == f2 == f3 == None && (s.role.Seller? ==> f4 == None))
      && (m.Ok? ==>
            && s'
               == s.(round := 4, swap := if s.role.Seller? then x' else x, warnMe := w, claimMe := c, redirectMe := r)
            && m.value.swapOnchain == if s.role.Seller? then x'.tx else None)
  {
    hide SpendTx.Aggregate, SpendTx.AggregateSigs, SpendTx.Complete, WarningTx.AggregateSigs;
  }

  /** Every input of the transaction carries a valid signature. */
  ghost predicate FullySigned(env: Encoding, prev: Tx, tx: Tx) {
    forall i :: 0 <= i < |tx.inputs| ==> ValidKeySpend(env, prev, tx, i)
  }

  ghost predicate Carries(tx: Option<Tx>, bare: Tx) {
    tx.Some? && Strip(tx.value) == Strip(bare) && |tx.value.inputs| == |bare.inputs|
  }

  lemma WarningFinishes(env: Encoding, p: AggKey, p': AggKey, q: AggKey, q': AggKey, n: SecNonce, n': SecNonce,
                        m: SecNonce, m': SecNonce, w: WarningTx, deposit: Tx, prev: Tx, msg: nat, msg': nat)
    requires Partners(p, p') && Partners(q, q') && Strip(prev) == Strip(deposit)
    requires w.tx.Some? && |w.tx.value.inputs| == 2
    requires Unlocks(env, deposit, w.tx.value, 0, p) && Unlocks(env, deposit, w.tx.value, 1, q)
    requires msg == MessageOf(env, deposit, w.tx.value, 0) && msg' == MessageOf(env, deposit, w.tx.value, 1)
    requires w.sigP == Some(Shared(env, p, n, n', 0, Infinity, msg))
             && w.sigQ == Some(Shared(env, q, m, m', 1, Infinity, msg'))
    ensures
      var (w', fault) := w.AggregateSigs(env, Part(env, p', n', n, Infinity, msg),
                                         Part(env, q', m', m, Infinity, msg'));
      && (fault == None <==> SumOf(env, p, n, n', msg) != Infinity && SumOf(env, q, m, m', msg') != Infinity)
      && (fault == None ==> Carries(w'.tx, w.tx.value) && FullySigned(env, prev, w'.tx.value))
  {
    hide Strip, Partners, Unlocks, Part, Shared, SumOf, MessageOf, WarningTx.AggregateSigs, ValidKeySpend;
    WarningAggregatesToValid(env, p, p', q, q', n, n', m, m', w, deposit);
  }

  /** Claim and redirect transactions alike. */
  lemma SpendFinishes(env: Encoding, a: AggKey, b: AggKey, n: SecNonce, n': SecNonce, x: SpendTx, warning: Tx, msg: nat)
    requires Partners(a, b)
    requires x.tx.Some? && |x.tx.value.inputs| == 1 && Unlocks(env, warning, x.tx.value, 0, a)
    requires msg == MessageOf(env, warning, x.tx.value, 0)
    requires x.sig == Some(Shared(env, a, n, n', 0, Infinity, msg))
    ensures
      var (x', fault) := x.AggregateSigs(env, Part(env, b, n', n, Infinity, msg));
      && (fault == None <==> SumOf(env, a, n, n', msg) != Infinity)
      && (fault == None ==>
            && Carries(x'.tx, x.tx.value)
            && forall prev :: Strip(prev) == Strip(warning) ==> FullySigned(env, prev, x'.tx.value))
  {
    hide Strip, Partners, Unlocks, Part, Shared, SumOf, MessageOf, SpendTx.AggregateSigs, ValidKeySpend;
    SpendAggregatesToValid(env, a, b, n, n', x, warning);
  }

  /** The swap signature: joint on both sides, and for the seller completed with
      the secret of its share of the other output. */
  lemma SwapFinishes(env: Encoding, a: AggKey, b: AggKey, n: SecNonce, n': SecNonce, t: Scalar, x: SpendTx,
                     deposit: Tx, prev: Tx, msg: nat)
    requires Partners(a, b) && Strip(prev) == Strip(deposit)
    requires x.tx.Some? && |x.tx.value.inputs| == 1 && Unlocks(env, deposit, x.tx.value, 0, a)
    requires msg == MessageOf(env, deposit, x.tx.value, 0)
    requires x.sig == Some(Shared(env, a, n, n', 0, BaseMul(t), msg))
    ensures
      var joint := Joint(env, a, b, n, n', BaseMul(t), msg);
      var (x', fault) := x.Aggregate(env, Part(env, b, n', n, BaseMul(t), msg));
      && (fault == None <==> SumOf(env, a, n, n', msg) != Infinity)
      && (fault == None ==>
            && x' == x.(sig := Some(Done(env, a, b, n, n', 0, BaseMul(t), msg)))
            && var (x'', fault') := x'.Complete(env, t);
            && (fault' == None <==> PAdd(SumOf(env, a, n, n', msg), BaseMul(t)) != Infinity)
            && (fault' == None ==>
                  && x'' == x'.(tx := x''.tx) && Carries(x''.tx, x.tx.value) && FullySigned(env, prev, x''.tx.value)
                  && Adapt(env.h, joint, t).Some? && KeyPathSignature(x''.tx.value, 0) == Adapt(env.h, joint, t)))
  {
    hide Strip, Partners, Unlocks, Part, Shared, Done, Joint, SumOf, MessageOf, SpendTx.Aggregate, SpendTx.Complete,
         ValidKeySpend, Adapt, Verify, FullySigned, Carries, KeyPathSignature, WithWitness, PAdd, BaseMul;
    PartnersAgg(a, b);
    SpendAggregates(env, a, b, n, n', t, x, msg);
    if SumOf(env, a, n, n', msg) != Infinity {
      var x' := x.Aggregate(env, Part(env, b, n', n, BaseMul(t), msg)).0;
      SpendCompletes(env, a, b, n, n', t, x', msg);
      if PAdd(SumOf(env, a, n, n', msg), BaseMul(t)) != Infinity {
        var final := Adapt(env.h, Joint(env, a, b, n, n', BaseMul(t), msg), t).value;
        SignedIn(env, deposit, prev, x.tx.value, a, final);
      }
    }
  }

  /** The only input with a valid signature. */
  lemma SignedIn(env: Encoding, deposit: Tx, prev: Tx, tx: Tx, key: AggKey, final: LiftedSig)
    requires |tx.inputs| == 1 && Unlocks(env, deposit, tx, 0, key) && Strip(prev) == Strip(deposit)
    requires Verify(env.h, key.agg.value.pubkey, final, MessageOf(env, deposit, tx, 0))
    ensures
      var signed := WithWitness(tx, 0, KeySpend(final));
      Carries(Some(signed), tx) && FullySigned(env, prev, signed) && KeyPathSignature(signed, 0) == Some(final)
  {
    hide Strip, Unlocks, MessageOf, ValidKeySpend, Verify;
    SignatureSpends(env, deposit, prev, tx, WithWitness(tx, 0, KeySpend(final)), 0, key, final);
  }

  /** What the five own signatures of a trader start from. */
  lemma FourthRoundInputs(d: Deal, role: Role)
    requires Honest(d)
    ensures MergedOf(d, role).Some? && PKey(d, role).agg.Some? && QKey(d, role).agg.Some?
    ensures PKey(d, role.Other()).agg.Some? && QKey(d, role.Other()).agg.Some? && Ready(d, role)
    ensures
      var s, m, env := Signed(d, role), Message3(d, role.Other()), d.env;
      var n, n', other := d.Of(role).nonces, d.Of(role.Other()).nonces, role.Other();
      && s.round == 3 && s.role == role && s.pTik == PKey(d, role) && s.deposit.tx == Some(FullDeposit(d, role))
      && s.swap.tx == Some(Swap(d))
      && s.swap.sig == Some(Shared(env, QKey(d, role), n.swap, n'.swap, 0, BaseMul(d.seller.p), SwapMessage(d)))
      && m.swapPartSig == Part(env, QKey(d, other), n'.swap, n.swap, BaseMul(d.seller.p), SwapMessage(d))
      && s.warnMe.tx == Some(Warning(d, role)) && s.warnPeer.tx == Some(Warning(d, other))
      && s.warnMe.sigP
         == Some(Shared(env, PKey(d, role), n.warnMeP, n'.warnPeerP, 0, Infinity, WarnMessage(d, role, 0)))
      && s.warnMe.sigQ
         == Some(Shared(env, QKey(d, role), n.warnMeQ, n'.warnPeerQ, 1, Infinity, WarnMessage(d, role, 1)))
      && m.pPartPeer == Part(env, PKey(d, other), n'.warnPeerP, n.warnMeP, Infinity, WarnMessage(d, role, 0))
      && m.qPartPeer == Part(env, QKey(d, other), n'.warnPeerQ, n.warnMeQ, Infinity, WarnMessage(d, role, 1))
      && s.claimMe.tx == Some(Claim(d, role))
      && s.claimMe.sig == Some(Shared(env, TikOf(d, role), n.claimMe, n'.claimPeer, 0, Infinity, ClaimMessage(d, role)))
      && m.claimPartSig == Part(env, OtherTikOf(d, other), n'.claimPeer, n.claimMe, Infinity, ClaimMessage(d, role))
      && s.redirectMe.tx == Some(Redirect(d, role))
      && s.redirectMe.sig
         == Some(Shared(env, OtherTikOf(d, role), n.redirectMe, n'.redirectPeer, 0, Infinity,
                        RedirectMessage(d, role)))
      && m.redirectPartSig
         == Part(env, TikOf(d, other), n'.redirectPeer, n.redirectMe, Infinity, RedirectMessage(d, role))
  {
    MergedBoth(d, role);
    KeysArePartners(d, role);
    KeysArePartners(d, role.Other());
    BothReady(d, role);
    assert role.Other().Other() == role;
    hide MergedOf, Base, Honest, Strip, PKey, QKey, Partners, Lockable, Warning, Claim, Redirect, Swap, Part,
         Shared, FullDeposit, SwapMessage, WarnMessage, ClaimMessage, RedirectMessage, Extract;
  }

  /** Everything a trader holds after the fourth round. */
  ghost predicate HoldsAll(d: Deal, role: Role, s: Party)
    requires GoodAmounts(d.pay) && QKey(d, role).agg.Some? && QKey(d, role.Other()).agg.Some?
  {
    && s.round == 4 && s.role == role && s.pTik == PKey(d, role) && s.deposit.tx == Some(FullDeposit(d, role))
    && s.swap.sig
       == Some(Done(d.env, QKey(d, role), QKey(d, role.Other()), d.Of(role).nonces.swap,
                    d.Of(role.Other()).nonces.swap, 0, BaseMul(d.seller.p), SwapMessage(d)))
    && Carries(s.warnMe.tx, Warning(d, role)) && FullySigned(d.env, FullDeposit(d, role), s.warnMe.tx.value)
    && Carries(s.claimMe.tx, Claim(d, role)) && SignedFor(d.env, Warning(d, role), s.claimMe.tx.value)
    && Carries(s.redirectMe.tx, Redirect(d, role)) && SignedFor(d.env, Warning(d, role.Other()), s.redirectMe.tx.value)
  }

  /** Fully signed whatever witnesses the spent transaction has. */
  ghost predicate SignedFor(env: Encoding, spent: Tx, tx: Tx) {
    forall prev :: Strip(prev) == Strip(spent) ==> FullySigned(env, prev, tx)
  }

  /** The seller's swap transaction, and the signature in it. */
  ghost predicate SwapSigned(d: Deal, tx: Tx)
    requires GoodAmounts(d.pay) && QKey(d, Seller).agg.Some? && QKey(d, Buyer).agg.Some?
  {
    var final := Adapt(d.env.h, Joint(d.env, QKey(d, Seller), QKey(d, Buyer), d.seller.nonces.swap, d.buyer.nonces.swap,
                                      BaseMul(d.seller.p), SwapMessage(d)), d.seller.p);
    && Carries(Some(tx), Swap(d)) && FullySigned(d.env, FullDeposit(d, Seller), tx)
    && final.Some? && KeyPathSignature(tx, 0) == final
  }

  lemma OwnSignatures(d: Deal, role: Role)
    requires Honest(d)
    ensures MergedOf(d, role).Some? && PKey(d, role).agg.Some? && QKey(d, role).agg.Some?
    ensures PKey(d, role.Other()).agg.Some? && QKey(d, role.Other()).agg.Some?
    ensures
      var s, m, env := Signed(d, role), Message3(d, role.Other()), d.env;
      var n, n' := d.Of(role).nonces, d.Of(role.Other()).nonces;
      var (w, f1) := s.warnMe.AggregateSigs(env, m.pPartPeer, m.qPartPeer);
      var (c, f2) := s.claimMe.AggregateSigs(env, m.claimPartSig);
      var (r, f3) := s.redirectMe.AggregateSigs(env, m.redirectPartSig);
      && (f1 == None <==>
            && SumOf(env, PKey(d, role), n.warnMeP, n'.warnPeerP, WarnMessage(d, role, 0)) != Infinity
            && SumOf(env, QKey(d, role), n.warnMeQ, n'.warnPeerQ, WarnMessage(d, role, 1)) != Infinity)
      && (f1 == None ==> Carries(w.tx, Warning(d, role)) && FullySigned(env, FullDeposit(d, role), w.tx.value))
      && (f2 == None <==> SumOf(env, TikOf(d, role), n.claimMe, n'.claimPeer, ClaimMessage(d, role)) != Infinity)
      && (f2 == None ==> Carries(c.tx, Claim(d, role)) && SignedFor(env, Warning(d, role), c.tx.value))
      && (f3 == None <==>
            SumOf(env, OtherTikOf(d, role), n.redirectMe, n'.redirectPeer, RedirectMessage(d, role)) != Infinity)
      && (f3 == None ==> Carries(r.tx, Redirect(d, role)) && SignedFor(env, Warning(d, role.Other()), r.tx.value))
  {
    FourthRoundInputs(d, role);
    DepositCompletes(d, role);
    PartnerKeys(d, role);
    WarningUnlocks(d, role, role);
    SpendsUnlock(d, role, TikOf(d, role));
    SpendsUnlock(d, role.Other(), OtherTikOf(d, role));
    var s, n, n', other := Signed(d, role), d.Of(role).nonces, d.Of(role.Other()).nonces, role.Other();
    assert |Warning(d, role).inputs| == 2 && other.Other() == role;
    hide MergedOf, Base, Honest, Strip, PKey, QKey, Partners, Warning, Claim, Redirect, Swap, Unlocks, Part, Shared,
         SumOf, MessageOf, SpendTx.AggregateSigs, WarningTx.AggregateSigs, FullDeposit, FullySigned, Carries,
         KeySpentBy, Signed, Message3, Completed, Extract, TikOf, OtherTikOf;
    WarningFinishes(d.env, PKey(d, role), PKey(d, other), QKey(d, role), QKey(d, other), n.warnMeP, n'.warnPeerP,
                    n.warnMeQ, n'.warnPeerQ, s.warnMe, Base(d), FullDeposit(d, role), WarnMessage(d, role, 0),
                    WarnMessage(d, role, 1));
    SpendFinishes(d.env, TikOf(d, role), OtherTikOf(d, other), n.claimMe, n'.claimPeer, s.claimMe, Warning(d, role),
                  ClaimMessage(d, role));
    SpendFinishes(d.env, OtherTikOf(d, role), TikOf(d, other), n.redirectMe, n'.redirectPeer, s.redirectMe,
                  Warning(d, other), RedirectMessage(d, role));
  }

  lemma SwapSignature(d: Deal, role: Role)
    requires Honest(d)
    ensures MergedOf(d, role).Some? && PKey(d, role).agg.Some? && QKey(d, role).agg.Some?
    ensures PKey(d, role.Other()).agg.Some? && QKey(d, role.Other()).agg.Some?
    ensures
      var (x, f0) := Signed(d, role).swap.Aggregate(d.env, Message3(d, role.Other()).swapPartSig);
      var (x', f4) := x.Complete(d.env, d.seller.p);
      && (f0 == None <==> SwapSum(d, role) != Infinity)
      && (f0 == None ==>
            && x.sig
               == Some(Done(d.env, QKey(d, role), QKey(d, role.Other()), d.Of(role).nonces.swap,
                            d.Of(role.Other()).nonces.swap, 0, BaseMul(d.seller.p), SwapMessage(d)))
            && (f4 == None <==> PAdd(SwapSum(d, role), BaseMul(d.seller.p)) != Infinity)
            && (f4 == None ==> x'.sig == x.sig && x'.tx.Some? && (role.Seller? ==> SwapSigned(d, x'.tx.value))))
  {
    FourthRoundInputs(d, role);
    DepositCompletes(d, role);
    SwapUnlocks(d, role);
    var s, n, n', other := Signed(d, role), d.Of(role).nonces.swap, d.Of(role.Other()).nonces.swap, role.Other();
    hide MergedOf, Base, Honest, Strip, PKey, QKey, Partners, Warning, Claim, Redirect, Swap, Unlocks, Part, Shared,
         Done, Joint, SumOf, MessageOf, SpendTx.Aggregate, SpendTx.Complete, FullDeposit, FullySigned, Carries,
         KeySpentBy, Signed, Message3, Completed, Extract, Adapt, KeyPathSignature;
    SwapFinishes(d.env, QKey(d, role), QKey(d, other), n, n', d.seller.p, s.swap, Base(d), FullDeposit(d, role),
                 SwapMessage(d));
    CarriesSome(d);
  }

  lemma CarriesSome(d: Deal)
    requires GoodAmounts(d.pay)
    ensures forall tx: Option<Tx> :: Carries(tx, Swap(d)) ==> tx.Some?
  {
  }

  lemma SignedBasics(d: Deal, role: Role)
    requires Honest(d)
    ensures MergedOf(d, role).Some? && PKey(d, role).agg.Some? && QKey(d, role).agg.Some?
    ensures PKey(d, role.Other()).agg.Some? && QKey(d, role.Other()).agg.Some?
    ensures
      var s := Signed(d, role);
      s.round == 3
      && s.role == role
      && s.pTik == PKey(d, role)
      && s.pTik.sec == d.Of(role).p
      && s.deposit.tx == Some(FullDeposit(d, role))
    ensures d.After4(role) == Signed(d, role).Round4(d.env, Message3(d, role.Other()))
  {
    ThirdRoundSigns(d, role);
    ThirdRoundSigns(d, role.Other());
    FourthRoundInputs(d, role);
    KeysArePartners(d, role);
    hide MergedOf, Honest, PKey, QKey, Partners, Lockable, Signed, Message3, FullDeposit, Party.Round4, Deal.After3,
         Part, Shared, Ready, Warning, Claim, Redirect, Swap;
  }

  /** The fourth round succeeds for a trader exactly when the nonces of the
      signatures it completes add up, and then all its own transactions are valid. */
  lemma FourthRoundCompletes(d: Deal, role: Role)
    requires Honest(d)
    ensures PKey(d, role).agg.Some? && QKey(d, role).agg.Some? && QKey(d, role.Other()).agg.Some?
    ensures QKey(d, Seller).agg.Some? && QKey(d, Buyer).agg.Some?
    ensures
      var (s, m) := d.After4(role);
      && (m.Ok? <==> NoncesAddUp(d, role))
      && (m.Ok? ==>
            && HoldsAll(d, role, s)
            && (role.Seller? ==> s.swap.tx.Some? && m.value.swapOnchain == s.swap.tx && SwapSigned(d, s.swap.tx.value)))
  {
    SignedBasics(d, role);
    OwnSignatures(d, role);
    SwapSignature(d, role);
    hide MergedOf, Honest, Strip, PKey, QKey, Warning, Claim, Redirect, Swap, Done, SumOf, SpendTx.Aggregate,
         SpendTx.AggregateSigs, SpendTx.Complete, WarningTx.AggregateSigs, FullDeposit, FullySigned, SignedFor,
         Carries, Signed, Message3, TikOf, OtherTikOf, SwapSigned, Party.Round4, Deal.After4, SwapSum, WarnMessage,
         ClaimMessage, RedirectMessage, SwapMessage;
    FourthRoundSteps(d.env, Signed(d, role), Message3(d, role.Other()));
  }

  // ------------------------------------------------------ the fifth round

  lemma BuyersFifthRound(env: Encoding, s: Party, m: Round4Parameter, final: LiftedSig, t: Scalar, p: AggKey)
    requires s.round == 4 && s.role == Buyer && m.swapOnchain.Some? && s.swap.sig.Some?
    requires KeyPathSignature(m.swapOnchain.value, 0) == Some(final)
    requires s.swap.sig.value.RevealSecret(final) == Ok(t)
    requires s.pTik.WithOtherSecret(env, t) == (p, None)
    ensures s.Round5(env, m) == (s.(round := 5, pTik := p), None)
  {
    hide TMuSig2.RevealSecret, AggKey.WithOtherSecret, KeyPathSignature;
  }

  lemma DoneReveals(env: Encoding, a: AggKey, b: AggKey, n: SecNonce, n': SecNonce, t: SecKey, msg: nat)
    requires Partners(a, b)
    requires SumOf(env, a, n, n', msg) != Infinity
    ensures a.agg.Some? && b.agg.Some?
    ensures
      var final := Adapt(env.h, Joint(env, a, b, n, n', BaseMul(t), msg), t);
      final.Some? ==> Done(env, b, a, n', n, 0, BaseMul(t), msg).RevealSecret(final.value) == Ok(t)
  {
    PartnersAgg(a, b);
    JointIs(env, a, b, n, n', t, msg);
    hide Part, Joint, Adapt, Reveal, Verify, VerifyAdaptor, SumOf, Partners;
  }

  lemma FifthRoundReveals(d: Deal, s: Party, m: Round4Parameter)
    requires Honest(d)
    requires QKey(d, Buyer).agg.Some? && QKey(d, Seller).agg.Some? && NoncesSum(d)
    requires s.round == 4 && s.role == Buyer && s.pTik == PKey(d, Buyer)
    requires s.swap.sig == Some(Done(d.env, QKey(d, Buyer), QKey(d, Seller), d.buyer.nonces.swap, d.seller.nonces.swap,
                                     0, BaseMul(d.seller.p), SwapMessage(d)))
    requires m.swapOnchain.Some? && SwapSigned(d, m.swapOnchain.value)
    ensures PKey(d, Buyer).agg.Some?
    ensures
      var p := PKey(d, Buyer);
      s.Round5(d.env, m)
      == (s.(round := 5, pTik := p.(otherSec := Some(d.seller.p), aggSec := Some(p.agg.value.pubkey.log))), None)
  {
    KeysArePartners(d, Buyer);
    KeysArePartners(d, Seller);
    var t, msg, n, n' := d.seller.p, SwapMessage(d), d.seller.nonces.swap, d.buyer.nonces.swap;
    DoneReveals(d.env, QKey(d, Seller), QKey(d, Buyer), n, n', t, msg);
    SecretOfAggregate(d.env, FreshKey(d.buyer.p), t);
    var p := PKey(d, Buyer);
    hide Honest, PKey, QKey, Partners, Lockable, Joint, Adapt, KeyPathSignature, FullySigned, Carries, SumOf, Done,
         SwapMessage, FullDeposit, Swap, AggKey.WithOtherSecret, AggKey.AggregateKey, TMuSig2.RevealSecret,
         Party.Round5;
    BuyersFifthRound(d.env, s, m, KeyPathSignature(m.swapOnchain.value, 0).value, t,
                     p.(otherSec := Some(t), aggSec := Some(p.agg.value.pubkey.log)));
  }

  ghost predicate NoncesSum(d: Deal)
    requires GoodAmounts(d.pay) && QKey(d, Seller).agg.Some?
  {
    SumOf(d.env, QKey(d, Seller), d.seller.nonces.swap, d.buyer.nonces.swap, SwapMessage(d)) != Infinity
  }

  /** Five-round completion. With honest messages both traders pass every round;
      both hold the same fully signed deposit; the seller's swap transaction and
      both traders' warning, claim and redirect transactions are valid spends of
      what they name; and the buyer ends with the seller's secret and the secret
      key of the seller's deposit output. */
  lemma Completion(d: Deal)
    requires Honest(d)
    requires PKey(d, Seller).agg.Some? && QKey(d, Seller).agg.Some?
    requires PKey(d, Buyer).agg.Some? && QKey(d, Buyer).agg.Some?
    requires NoncesAddUp(d, Seller) && NoncesAddUp(d, Buyer)
    ensures d.After5(Seller).1 == None && d.After5(Buyer).1 == None
    ensures HoldsAll(d, Seller, d.After4(Seller).0) && HoldsAll(d, Buyer, d.After4(Buyer).0)
    ensures
      var s, b := d.After4(Seller).0, d.After5(Buyer).0;
      && s.swap.tx.Some? && SwapSigned(d, s.swap.tx.value)
      && s.deposit.tx == b.deposit.tx
      && b.pTik.otherSec == Some(d.seller.p)
      && b.pTik.aggSec.Some? && BaseMul(b.pTik.aggSec.value) == PKey(d, Seller).agg.value.pubkey
  {
    FourthRoundCompletes(d, Seller);
    FourthRoundCompletes(d, Buyer);
    DepositCompletes(d, Seller);
    PartnerKeys(d, Buyer);
    assert NoncesSum(d);
    hide MergedOf, Base, Honest, Strip, PKey, QKey, Partners, Lockable, Warning, Claim, Redirect, Swap, Done, SumOf,
         FullDeposit, FullySigned, SignedFor, Carries, SwapSigned, Deal.After4, WarnMessage, ClaimMessage,
         RedirectMessage, SwapMessage, NoncesAddUp, Completed, Extract, TikOf, OtherTikOf, KeySpentBy;
    FifthRoundReveals(d, d.After4(Buyer).0, d.After4(Seller).1.value);
    SellersFifthRound(d.env, d.After4(Seller).0, d.After4(Buyer).1.value);
  }

  lemma SellersFifthRound(env: Encoding, s: Party, m: Round4Parameter)
    requires s.round == 4 && s.role.Seller?
    ensures s.Round5(env, m) == (s.(round := 5), None)
  {
  }
}
