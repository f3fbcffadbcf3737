/** Whatever a peer sends, in whatever order: a trade stores only secrets that
    belong to their points, and only aggregates that are valid. */
module TradeSecrets {
  import opened Results
  import opened Scalars
  import opened Musig
  import opened TradeContexts
  import opened TradeModels
  import opened TradeRuns

  /** Each stored secret belongs to its point, and the aggregated point is that of
      the key that was aggregated. */
  ghost predicate SecretsFit(k: KeyState) {
    && (k.peers.Some? && k.peers.value.prv.Some? ==> BaseMul(k.peers.value.prv.value) == k.peers.value.pub)
    && (k.aggregated.Some? <==> k.keyAgg.Some?)
    && (k.aggregated.Some? ==>
          && k.aggregated.value.pub == k.keyAgg.value.pubkey
          && (k.aggregated.value.prv.Some? ==> BaseMul(k.aggregated.value.prv.value) == k.aggregated.value.pub))
  }

  /** A nonce was drawn only after the key of its input was aggregated. */
  ghost predicate NoncesFit(t: Trade) {
    && (t.sigs.buyersWarnBuyerIn.mine.Some? || t.sigs.sellersWarnBuyerIn.mine.Some? || t.sigs.buyersRedirect.mine.Some?
        ==> t.buyerOut.aggregated.Some?)
    && (t.sigs.swap.mine.Some? || t.sigs.buyersWarnSellerIn.mine.Some? || t.sigs.sellersWarnSellerIn.mine.Some?
        || t.sigs.sellersRedirect.mine.Some?
        ==> t.sellerOut.aggregated.Some?)
  }

  ghost predicate Fits(t: Trade) {
    SecretsFit(t.buyerOut) && SecretsFit(t.sellerOut) && NoncesFit(t)
  }

  lemma OnFits(s: Step, h: Hashes<Message>, id: SigId, op: SigOp)
    requires Fits(s.trade)
    ensures
      var t := s.On(h, id, op).trade;
      Fits(t) && t.buyerOut == s.trade.buyerOut && t.sellerOut == s.trade.sellerOut
  {
    hide SecretsFit;
    var t := s.On(h, id, op).trade;
    if s.err.None? {
      NonceOfOne(s.trade, h, id, op);
      assert t.sigs == Put(s.trade.sigs, id, s.trade.Apply(h, id, op).0);
    }
  }

  lemma NonceOfOne(t: Trade, h: Hashes<Message>, id: SigId, op: SigOp)
    ensures t.Apply(h, id, op).0.mine.Some? ==> t.sigs.Get(id).mine.Some? || t.KeyFor(id).aggregated.Some?
  {
  }

  lemma {:induction false} ChainFits(s: Step, h: Hashes<Message>, ids: seq<SigId>, op: SigOp)
    requires Fits(s.trade)
    ensures Fits(Chain(s, h, ids, op).trade)
    decreases |ids|
  {
    if ids == [] {
    } else {
      hide Fits, Step.On;
      OnFits(s, h, ids[0], op);
      ChainFits(s.On(h, ids[0], op), h, ids[1..], op);
    }
  }

  lemma AggregatedFits(h: Hashes<Message>, k: KeyState)
    requires SecretsFit(k)
    ensures
      var (k', err) := k.AggregateKeyShares(h);
      SecretsFit(k') && (k.aggregated.Some? ==> k'.aggregated.Some?) && (err.Some? ==> k' == k)
  {
  }

  /** A secret is taken exactly if it belongs to the peer's point. */
  lemma GivenSecretFits(k: KeyState, secret: Scalar)
    requires SecretsFit(k)
    ensures
      var (k', err) := k.SetPeersPrvKey(secret);
      && SecretsFit(k') && k'.aggregated == k.aggregated && (err.Some? ==> k' == k)
      && (err.None? <==> k.peers.Some? && k.peers.value.pub == BaseMul(secret))
  {
  }

  lemma WholeSecretFits(k: KeyState)
    requires SecretsFit(k)
    ensures SecretsFit(k.AggregatePrvKeyShares().0)
    ensures k.aggregated.Some? ==> k.AggregatePrvKeyShares().0.aggregated.Some?
  {
  }

  lemma ExecFits(h: Hashes<Message>, w: World, call: Call)
    requires Fits(w.trade)
    ensures Fits(Exec(h, w, call).0.trade)
  {
    var t, s := w.trade, Step(w.trade, None);
    match call
    case DrawNonces(secrets) =>
      hide Fits;
      ChainFits(s, h, BY_KEY, InitNonce(Drawn(secrets, w.draws)));
    case SumNonces =>
      hide Fits;
      ChainFits(s, h, BY_TX, AggregateNonces);
    case SignAll =>
      hide Fits;
      ChainFits(s, h, BY_KEY, Sign);
    case AggregateAll =>
      hide Fits;
      ChainFits(s, h, if t.amBuyer then BUYERS else SELLERS, AggregateSigs);
    case AggregateKeys =>
      hide SecretsFit, KeyState.AggregateKeyShares;
      AggregatedFits(h, t.buyerOut);
      AggregatedFits(h, t.sellerOut);
    case SetPeerPrvKey(k) =>
      hide SecretsFit, KeyState.SetPeersPrvKey;
      GivenSecretFits(t.buyerOut, k);
      GivenSecretFits(t.sellerOut, k);
    case Recover(final) =>
      hide SecretsFit, KeyState.SetPeersPrvKey, Reveal;
      var agg := t.sigs.swap.aggregatedSig;
      if agg.Some? && Reveal(agg.value, final).Some? {
        GivenSecretFits(t.buyerOut, Reveal(agg.value, final).value);
      }
    case AggregatePrvKeys =>
      hide SecretsFit, KeyState.AggregatePrvKeyShares;
      WholeSecretFits(t.buyerOut);
      WholeSecretFits(t.sellerOut);
    case _ =>
  }

  /** Over every run, with any messages. */
  lemma {:induction false} StoredSecretsFit(h: Hashes<Message>, amBuyer: bool, calls: seq<Call>)
    ensures Fits(Run(h, World(NewTrade(amBuyer), 0), calls).trade)
  {
    RunFits(h, World(NewTrade(amBuyer), 0), calls);
  }

  lemma {:induction false} RunFits(h: Hashes<Message>, w: World, calls: seq<Call>)
    requires Fits(w.trade)
    ensures Fits(Run(h, w, calls).trade)
    decreases |calls|
  {
    if calls == [] {
    } else {
      hide Fits, Exec;
      ExecFits(h, w, calls[0]);
      RunFits(h, Exec(h, w, calls[0]).0, calls[1..]);
    }
  }

  /** A context stores an aggregate only if it is a valid adaptor signature for its
      message under the given key, whatever share the peer sent; else nothing changes. */
  lemma OnlyValidAggregates(s: SigState, h: Hashes<Message>, key: KeyState)
    ensures
      var (c, err) := s.AggregatePartialSignatures(h, key);
      && (err.None? ==>
            && key.keyAgg.Some? && s.message.Some? && c.aggregatedSig.Some? && c == s.(aggregatedSig := c.aggregatedSig)
            && VerifyAdaptor(h, key.keyAgg.value.pubkey, c.aggregatedSig.value, s.message.value, s.adaptor))
      && (err.Some? ==> c == s)
  {
    hide VerifyAdaptor;
  }

  /** Two nonces that cancel in both parts are refused; any others are summed. */
  lemma OnlyLiveNonces(s: SigState)
    ensures
      var (c, err) := s.AggregateNonceShares();
      && (err.None? <==> s.mine.Some? && s.peersNonce.Some?
                         && !(PAdd(s.mine.value.pub.r1, s.peersNonce.value.r1) == Infinity
                              && PAdd(s.mine.value.pub.r2, s.peersNonce.value.r2) == Infinity))
      && (err.Some? ==> c == s)
  {
  }
}
