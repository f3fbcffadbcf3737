/** The request handlers of the trade service and a whole trade between a buyer
    and a seller whose messages reach each other in protocol order. */
module TradeProtocol {
  import opened Results
  import opened Scalars
  import opened Musig
  import opened TradeContexts
  import opened TradeModels
  import opened TradeRuns

  // ---------------------------------------------------------------- handlers

  function GetNonceShares(h: Hashes<Message>, t: Trade, buyerOutput: Point, sellerOutput: Point,
                          nonces: Seven<SecNonce>): Step {
    var s := t.SetPeerKeyShares(buyerOutput, sellerOutput).AggregateKeyShares(h);
    if s.err.Some? then s else s.trade.InitMyNonceShares(h, nonces)
  }

  function GetPartialSignatures(h: Hashes<Message>, t: Trade, peerNonces: Seven<PubNonce>): Step {
    var s := t.SetPeerNonceShares(peerNonces).AggregateNonceShares(h);
    if s.err.Some? then s else s.trade.SignPartial(h)
  }

  function SignDepositTx(h: Hashes<Message>, t: Trade, sigs: ExchangedSigs): Step {
    t.SetPeerPartialSignaturesOnMyTxs(sigs).AggregatePartialSignatures(h)
  }

  /** The finished swap signature, and our key share for the peer's output. */
  function SignSwapTx(h: Hashes<Message>, t: Trade, partial: Scalar): (Step, Option<(LiftedSig, SecKey)>) {
    var s := t.SetSwapPeersPartial(partial).AggregateSwapPartials(h);
    if s.err.Some? then (s, None)
    else
      var sig := s.trade.ComputeSwapSignature(h);
      var share := s.trade.MyPrvKeyShareForPeerOutput();
      if sig.Err? then (Step(s.trade, Some(sig.error)), None)
      else if share.None? then (Step(s.trade, Some(MissingKeyShare)), None)
      else (s, Some((sig.value, share.value)))
  }

  /** A key share from a cooperative peer, or else the published swap signature,
      or else nothing when the seller force-closes. Answers with our own share. */
  function CloseTrade(t: Trade, peersShare: Option<SecKey>, swapSig: Option<LiftedSig>): (Step, Option<SecKey>) {
    var s :=
      if peersShare.Some? then t.SetPeerPrvKeyShareForMyOutput(peersShare.value)
      else if swapSig.Some? then t.RecoverSellersPrvKeyShare(swapSig.value)
      else Step(t, None);
    var s' := if s.err.Some? || (peersShare.None? && swapSig.None?) then s else s.trade.AggregatePrvKeysForMyOutput();
    var share := s'.trade.MyPrvKeyShareForPeerOutput();
    if s'.err.Some? then (s', None)
    else if share.None? then (Step(s'.trade, Some(MissingKeyShare)), None)
    else (s', share)
  }

  /** What the nonce request answers with: our seven nonce shares, if all are there. */
  function NonceAnswer(s: Step): (Step, Option<Seven<PubNonce>>) {
    if s.err.Some? then (s, None)
    else if s.trade.MyNonceShares().None? then (Step(s.trade, Some(MissingNonceShare)), None)
    else (s, s.trade.MyNonceShares())
  }

  /** What the signature request answers with: our shares on the peer's
      transactions, the one on the swap transaction included. */
  function SigsAnswer(s: Step): (Step, Option<ExchangedSigs>) {
    if s.err.Some? then (s, None)
    else if s.trade.MyPartialSignaturesOnPeerTxs().None? then (Step(s.trade, Some(MissingPartialSig)), None)
    else (s, s.trade.MyPartialSignaturesOnPeerTxs())
  }

  /** A new trade, and the public points of the two shares drawn for it. */
  method HandleInitTrade(amBuyer: bool, buyerShare: SecKey, sellerShare: SecKey)
    returns (m: TradeModel, answer: Option<(Point, Point)>)
    ensures m.Valid() && fresh(m) && fresh(m.Keys) && fresh(m.Sigs)
    ensures m.Value() == NewTrade(amBuyer).InitMyKeyShares(buyerShare, sellerShare)
    ensures answer == Some((BaseMul(buyerShare), BaseMul(sellerShare)))
  {
    m := new TradeModel(amBuyer);
    m.InitMyKeyShares(buyerShare, sellerShare);
    answer := m.MyKeyShares();
  }

  method HandleGetNonceShares(h: Hashes<Message>, m: TradeModel, buyerOutput: Point, sellerOutput: Point,
                              nonces: Seven<SecNonce>)
    returns (err: Option<Failure>, answer: Option<Seven<PubNonce>>)
    requires m.Valid()
    modifies m.Keys, m.Sigs
    ensures (Step(m.Value(), err), answer)
            == NonceAnswer(GetNonceShares(h, old(m.Value()), buyerOutput, sellerOutput, nonces))
  {
    answer := None;
    m.SetPeerKeyShares(buyerOutput, sellerOutput);
    err := m.AggregateKeyShares(h);
    if err.Some? {
      return;
    }
    err := m.InitMyNonceShares(h, nonces);
    if err.Some? {
      return;
    }
    answer := m.MyNonceShares();
    if answer.None? {
      err := Some(MissingNonceShare);
    }
  }

  /** The request may lack the peer's nonces; then nothing is changed. */
  method HandleGetPartialSignatures(h: Hashes<Message>, m: TradeModel, peerNonces: Option<Seven<PubNonce>>)
    returns (err: Option<Failure>, answer: Option<ExchangedSigs>)
    requires m.Valid()
    modifies m.Sigs
    ensures
      (Step(m.Value(), err), answer)
      == if peerNonces.None? then (Step(old(m.Value()), Some(MissingField)), None)
         else SigsAnswer(GetPartialSignatures(h, old(m.Value()), peerNonces.value))
  {
    answer := None;
    if peerNonces.None? {
      return Some(MissingField), None;
    }
    m.SetPeerNonceShares(peerNonces.value);
    err := m.AggregateNonceShares(h);
    if err.Some? {
      return;
    }
    err := m.SignPartial(h);
    if err.Some? {
      return;
    }
    answer := m.MyPartialSignaturesOnPeerTxs();
    if answer.None? {
      err := Some(MissingPartialSig);
    }
  }

  method HandleSignDepositTx(h: Hashes<Message>, m: TradeModel, sigs: Option<ExchangedSigs>)
    returns (err: Option<Failure>)
    requires m.Valid()
    modifies m.Sigs
    ensures
      Step(m.Value(), err)
      == if sigs.None? then Step(old(m.Value()), Some(MissingField))
         else SignDepositTx(h, old(m.Value()), sigs.value)
  {
    if sigs.None? {
      return Some(MissingField);
    }
    m.SetPeerPartialSignaturesOnMyTxs(sigs.value);
    err := m.AggregatePartialSignatures(h);
  }

  method HandleSignSwapTx(h: Hashes<Message>, m: TradeModel, partial: Scalar)
    returns (err: Option<Failure>, answer: Option<(LiftedSig, SecKey)>)
    requires m.Valid()
    modifies m.swap
    ensures (Step(m.Value(), err), answer) == SignSwapTx(h, old(m.Value()), partial)
    ensures m.Value() == old(m.Value()).(sigs := old(m.Value()).sigs.(swap := m.Value().sigs.swap))
    ensures m.Value().sigs.swap.peersPartial == Some(partial)
    ensures err.None? <==> answer.Some?
    ensures answer.Some? ==>
              var t := m.Value();
              var agg, key := t.sigs.swap.aggregatedSig, t.buyerOut;
              && agg.Some?
              && (if key.amBuyer then
                    && key.peers.Some? && key.peers.value.prv.Some?
                    && Adapt(h, agg.value, key.peers.value.prv.value) == Some(answer.value.0)
                  else
                    key.mine.Some? && Adapt(h, agg.value, key.mine.value) == Some(answer.value.0))
              && Some(answer.value.1) == if m.amBuyer then t.sellerOut.mine else t.buyerOut.mine
  {
    answer := None;
    m.SetSwapPeersPartial(partial);
    err := m.AggregateSwapPartials(h);
    if err.Some? {
      return;
    }
    var sig := m.ComputeSwapSignature(h);
    var share := if m.amBuyer then m.sellerOut.mine else m.buyerOut.mine;
    if sig.Err? {
      err := Some(sig.error);
    } else if share.None? {
      err := Some(MissingKeyShare);
    } else {
      answer := Some((sig.value, share.value));
    }
  }

  method HandleCloseTrade(m: TradeModel, peersShare: Option<SecKey>, swapSig: Option<LiftedSig>)
    returns (err: Option<Failure>, answer: Option<SecKey>)
    requires m.Valid()
    modifies m.Keys
    ensures (Step(m.Value(), err), answer) == CloseTrade(old(m.Value()), peersShare, swapSig)
    ensures peersShare.None? && swapSig.None? ==>
              && m.Value() == old(m.Value())
              && answer == (if m.amBuyer then m.Value().sellerOut.mine else m.Value().buyerOut.mine)
              && err == if answer.None? then Some(MissingKeyShare) else None
    ensures peersShare.Some? ==>
              var was, now := old(m.Value()), m.Value();
              var (told, e) := (if m.amBuyer then was.buyerOut else was.sellerOut).SetPeersPrvKey(peersShare.value);
              var (whole, e') := if e.Some? then (told, e) else told.AggregatePrvKeyShares();
              && now == (if m.amBuyer then was.(buyerOut := whole) else was.(sellerOut := whole))
              && answer == (if e'.Some? then None else if m.amBuyer then now.sellerOut.mine else now.buyerOut.mine)
              && err == if e'.None? && answer.None? then Some(MissingKeyShare) else e'
  {
    err, answer := None, None;
    if peersShare.Some? {
      err := m.SetPeerPrvKeyShareForMyOutput(peersShare.value);
      if err.None? {
        err := m.AggregatePrvKeysForMyOutput();
      }
    } else if swapSig.Some? {
      err := m.RecoverSellersPrvKeyShare(swapSig.value);
      if err.None? {
        err := m.AggregatePrvKeysForMyOutput();
      }
    }
    if err.None? {
      answer := if m.amBuyer then m.sellerOut.mine else m.buyerOut.mine;
      if answer.None? {
        err := Some(MissingKeyShare);
      }
    }
  }

  // ---------------------------------------------------------- an honest trade

  /** What a party draws at random: its two key shares and its seven nonces. */
  datatype Secrets = Secrets(buyerShare: SecKey, sellerShare: SecKey, nonces: Seven<SecNonce>) {
    function Share(id: SigId): SecKey {
      if UsesBuyerOutput(id) then buyerShare else sellerShare
    }
  }

  function InitTrade(amBuyer: bool, x: Secrets): Trade {
    NewTrade(amBuyer).InitMyKeyShares(x.buyerShare, x.sellerShare)
  }

  /** Both parties initialise the trade and answer the other's key shares with nonces. */
  function ExchangeKeys(h: Hashes<Message>, b: Secrets, s: Secrets): Result<(Trade, Trade), Failure> {
    var s1 := GetNonceShares(h, InitTrade(false, s), BaseMul(b.buyerShare), BaseMul(b.sellerShare), s.nonces);
    var b1 := GetNonceShares(h, InitTrade(true, b), BaseMul(s.buyerShare), BaseMul(s.sellerShare), b.nonces);
    if s1.err.Some? then Err(s1.err.value) else if b1.err.Some? then Err(b1.err.value) else Ok((b1.trade, s1.trade))
  }

  /** Both parties answer the other's nonces with partial signatures. */
  function ExchangeNonces(h: Hashes<Message>, buyer: Trade, seller: Trade): Result<(Trade, Trade), Failure> {
    if seller.MyNonceShares().None? || buyer.MyNonceShares().None? then Err(MissingNonceShare)
    else
      var b2 := GetPartialSignatures(h, buyer, seller.MyNonceShares().value);
      var s2 := GetPartialSignatures(h, seller, buyer.MyNonceShares().value);
      if b2.err.Some? then Err(b2.err.value) else if s2.err.Some? then Err(s2.err.value) else Ok((b2.trade, s2.trade))
  }

  /** Both parties complete their own transactions with the other's partial
      signatures. The service's answer holds the buyer's share on the swap
      transaction too; the buyer's client strikes it out before passing it on. */
  function ExchangeSigs(h: Hashes<Message>, buyer: Trade, seller: Trade): Result<(Trade, Trade), Failure> {
    if || buyer.MyPartialSignaturesOnPeerTxs().None?
       || seller.MyPartialSignaturesOnPeerTxs().None? then Err(MissingPartialSig)
    else
      var s3 := SignDepositTx(h, seller, buyer.MyPartialSignaturesOnPeerTxs().value.(swap := None));
      var b3 := SignDepositTx(h, buyer, seller.MyPartialSignaturesOnPeerTxs().value);
      if s3.err.Some? then Err(s3.err.value) else if b3.err.Some? then Err(b3.err.value) else Ok((b3.trade, s3.trade))
  }

  /** Messages A to D of a trade. */
  function HonestSetup(h: Hashes<Message>, b: Secrets, s: Secrets): Result<(Trade, Trade), Failure> {
    var r1 := ExchangeKeys(h, b, s);
    if r1.Err? then r1
    else
      var r2 := ExchangeNonces(h, r1.value.0, r1.value.1);
      if r2.Err? then r2 else ExchangeSigs(h, r2.value.0, r2.value.1)
  }

  /** The aggregate of the two shares behind the output that an input spends. */
  function KeyOf(h: Hashes<Message>, b: Secrets, s: Secrets, id: SigId): Result<KeyAggCtx, SigError> {
    NewKeyAgg(h, BaseMul(b.Share(id)), BaseMul(s.Share(id)))
  }

  function NonceOf(b: Secrets, s: Secrets, id: SigId): PubNonce {
    AggNonce(b.nonces.Get(id).Public(), s.nonces.Get(id).Public())
  }

  /** The seller's share for the buyer output is the adaptor secret of the swap input. */
  function AdaptorOf(s: Secrets, id: SigId): Point {
    if id == Swap then BaseMul(s.buyerShare) else Infinity
  }

  ghost predicate KeysExist(h: Hashes<Message>, b: Secrets, s: Secrets) {
    KeyOf(h, b, s, BuyersRedirect).Ok? && KeyOf(h, b, s, Swap).Ok?
  }

  ghost predicate NonceSumExists(h: Hashes<Message>, b: Secrets, s: Secrets, id: SigId)
    requires KeyOf(h, b, s, id).Ok?
  {
    NonceSum(h, KeyOf(h, b, s, id).value.pubkey, NonceOf(b, s, id), MessageOf(id)) != Infinity
  }

  /** No aggregate of the random values is the point at infinity. */
  ghost predicate NonDegenerate(h: Hashes<Message>, b: Secrets, s: Secrets) {
    && KeysExist(h, b, s)
    && forall id: SigId :: KeyOf(h, b, s, id).Ok? && NonceSumExists(h, b, s, id)
  }

  lemma KeyExistsFor(h: Hashes<Message>, b: Secrets, s: Secrets, id: SigId)
    ensures KeyOf(h, b, s, id) == KeyOf(h, b, s, if UsesBuyerOutput(id) then BuyersRedirect else Swap)
    ensures KeyOf(h, b, s, id).Ok? ==> KeysOf(KeyOf(h, b, s, id).value, b.Share(id), s.Share(id))
  {
    KeysOfAggregate(h, b.Share(id), s.Share(id));
  }

  /** One operation, on its own context only. */
  lemma OnOne(s: Step, h: Hashes<Message>, id: SigId, op: SigOp)
    requires s.err.None?
    ensures
      var s' := s.On(h, id, op);
      && s'.err == s.trade.Apply(h, id, op).1
      && s'.trade == s.trade.(sigs := s'.trade.sigs)
      && (forall other ::
            s'.trade.sigs.Get(other) == if other == id then s.trade.Apply(h, id, op).0 else s.trade.sigs.Get(other))
      && (forall other :: other != id ==> s'.trade.Apply(h, other, op) == s.trade.Apply(h, other, op))
  {
    hide Put, SigState.InitMyNonceShare, SigState.AggregateNonceShares, SigState.SignPartial,
         SigState.AggregatePartialSignatures;
  }

  /** A chain over distinct contexts works on each of them alone, and succeeds
      exactly when each single operation does. */
  lemma {:induction false} ChainResult(s: Step, h: Hashes<Message>, ids: seq<SigId>, op: SigOp)
    requires s.err.None?
    requires forall i, j :: 0 <= i < j < |ids| ==> ids[i] != ids[j]
    ensures
      var r := Chain(s, h, ids, op);
      && (r.err.None? <==> forall id :: id in ids ==> s.trade.Apply(h, id, op).1.None?)
      && r.trade == s.trade.(sigs := r.trade.sigs)
      && (r.err.None? ==> forall id ::
            r.trade.sigs.Get(id) == if id in ids then s.trade.Apply(h, id, op).0 else s.trade.sigs.Get(id))
    decreases |ids|
  {
    if ids == [] {
    } else {
      var s', rest := s.On(h, ids[0], op), ids[1..];
      OnOne(s, h, ids[0], op);
      assert ids == [ids[0]] + rest;
      assert Chain(s, h, ids, op) == Chain(s', h, rest, op);
      hide Step.On, Trade.Apply, Chain;
      if s'.err.None? {
        ChainResult(s', h, rest, op);
      } else {
        StoppedChain(s', h, rest, op);
        assert ids[0] in ids;
      }
    }
  }

  lemma {:induction false} StoppedChain(s: Step, h: Hashes<Message>, ids: seq<SigId>, op: SigOp)
    requires s.err.Some?
    ensures Chain(s, h, ids, op) == s
    decreases |ids|
  {
    if ids == [] {
    } else {
      StoppedChain(s, h, ids[1..], op);
    }
  }

  lemma AllInByKey(id: SigId)
    ensures id in BY_KEY && id in BY_TX
  {
    assert BY_KEY[0] == BuyersWarnBuyerIn && BY_KEY[1] == SellersWarnBuyerIn && BY_KEY[2] == BuyersRedirect
        && BY_KEY[3] == Swap && BY_KEY[4] == BuyersWarnSellerIn && BY_KEY[5] == SellersWarnSellerIn
        && BY_KEY[6] == SellersRedirect;
    assert BY_TX[0] == Swap && BY_TX[1] == BuyersWarnBuyerIn && BY_TX[2] == BuyersWarnSellerIn
        && BY_TX[3] == SellersWarnBuyerIn && BY_TX[4] == SellersWarnSellerIn && BY_TX[5] == BuyersRedirect
        && BY_TX[6] == SellersRedirect;
  }

  /** r is what remains when the operation ran on each context of t by itself. */
  ghost predicate Pointwise(t: Trade, h: Hashes<Message>, op: SigOp, r: Step) {
    && (r.err.None? <==> forall id :: t.Apply(h, id, op).1.None?)
    && r.trade == t.(sigs := r.trade.sigs)
    && (r.err.None? ==> forall id :: r.trade.sigs.Get(id) == t.Apply(h, id, op).0)
  }

  lemma ChainIsPointwise(t: Trade, h: Hashes<Message>, ids: seq<SigId>, op: SigOp)
    requires ids == BY_KEY || ids == BY_TX
    ensures Pointwise(t, h, op, Chain(Step(t, None), h, ids, op))
  {
    ChainResult(Step(t, None), h, ids, op);
    forall id: SigId ensures id in ids {
      AllInByKey(id);
    }
  }

  lemma DrawingIsPointwise(t: Trade, h: Hashes<Message>, nonces: Seven<SecNonce>)
    ensures Pointwise(t, h, InitNonce(nonces), t.InitMyNonceShares(h, nonces))
  {
    ChainIsPointwise(t, h, BY_KEY, InitNonce(nonces));
  }

  lemma SummingIsPointwise(t: Trade, h: Hashes<Message>)
    ensures Pointwise(t, h, AggregateNonces, t.AggregateNonceShares(h))
  {
    ChainIsPointwise(t, h, BY_TX, AggregateNonces);
  }

  lemma SigningIsPointwise(t: Trade, h: Hashes<Message>)
    ensures Pointwise(t, h, Sign, t.SignPartial(h))
  {
    ChainIsPointwise(t, h, BY_KEY, Sign);
  }

  /** Without an error the nonce request always has its answer: the public parts of
      the nonces just drawn. */
  lemma NonceAnswerIs(h: Hashes<Message>, t: Trade, buyerOutput: Point, sellerOutput: Point, nonces: Seven<SecNonce>)
    ensures
      var s := GetNonceShares(h, t, buyerOutput, sellerOutput, nonces);
      var (s', answer) := NonceAnswer(s);
      && s' == s && (answer.Some? <==> s.err.None?)
      && (answer.Some? ==> forall id :: answer.value.Get(id) == nonces.Get(id).Public())
  {
    var keyed := t.SetPeerKeyShares(buyerOutput, sellerOutput).AggregateKeyShares(h);
    var s := GetNonceShares(h, t, buyerOutput, sellerOutput, nonces);
    if s.err.None? {
      DrawingIsPointwise(keyed.trade, h, nonces);
      hide Trade.SetPeerKeyShares, Trade.AggregateKeyShares, Trade.InitMyNonceShares;
      forall id: SigId
        ensures s.trade.sigs.Get(id).mine == Some(NoncePair(nonces.Get(id).Public(), Some(nonces.Get(id))))
      {
        assert keyed.trade.Apply(h, id, InitNonce(nonces)).1.None?;
      }
      PubOfNonces(s.trade, nonces);
    }
  }

  lemma PubOfNonces(t: Trade, nonces: Seven<SecNonce>)
    requires forall id: SigId ::
               t.sigs.Get(id).mine == Some(NoncePair(nonces.Get(id).Public(), Some(nonces.Get(id))))
    ensures t.MyNonceShares().Some? && forall id :: t.MyNonceShares().value.Get(id) == nonces.Get(id).Public()
  {
    var s := t.sigs;
    assert s.swap == s.Get(Swap);
    assert s.buyersWarnBuyerIn == s.Get(BuyersWarnBuyerIn) && s.buyersWarnSellerIn == s.Get(BuyersWarnSellerIn);
    assert s.sellersWarnBuyerIn == s.Get(SellersWarnBuyerIn) && s.sellersWarnSellerIn == s.Get(SellersWarnSellerIn);
    assert s.buyersRedirect == s.Get(BuyersRedirect) && s.sellersRedirect == s.Get(SellersRedirect);
  }

  /** Our shares on the peer's transactions, read from the contexts. */
  ghost predicate SharesFor(t: Trade, sigs: ExchangedSigs) {
    && sigs.swap.Some? && sigs.swap == t.sigs.swap.myPartial
    && Some(sigs.warnBuyerIn) == t.sigs.Get(if t.amBuyer then SellersWarnBuyerIn else BuyersWarnBuyerIn).myPartial
    && Some(sigs.warnSellerIn) == t.sigs.Get(if t.amBuyer then SellersWarnSellerIn else BuyersWarnSellerIn).myPartial
    && Some(sigs.redirect) == t.sigs.Get(if t.amBuyer then SellersRedirect else BuyersRedirect).myPartial
  }

  /** Without an error the signature request always has its answer: our share on
      each of the peer's transactions and, for either role, our share on the swap
      transaction. The service itself holds nothing back. */
  lemma SigsAnswerHasSwap(h: Hashes<Message>, t: Trade, peerNonces: Seven<PubNonce>)
    ensures
      var s := GetPartialSignatures(h, t, peerNonces);
      var (s', answer) := SigsAnswer(s);
      && s' == s && (answer.Some? <==> s.err.None?)
      && (answer.Some? ==> SharesFor(s.trade, answer.value))
  {
    hide Trade.SetPeerNonceShares, Trade.AggregateNonceShares, Trade.SignPartial,
         Trade.MyPartialSignaturesOnPeerTxs, SharesFor, Trade.Apply;
    var told := t.SetPeerNonceShares(peerNonces);
    var s := GetPartialSignatures(h, t, peerNonces);
    if s.err.None? {
      SignedAll(h, told.AggregateNonceShares(h).trade);
      PartialsOf(s.trade);
    }
  }

  lemma SignedAll(h: Hashes<Message>, t: Trade)
    requires t.SignPartial(h).err.None?
    ensures forall id: SigId :: t.SignPartial(h).trade.sigs.Get(id).myPartial.Some?
  {
    SigningIsPointwise(t, h);
    hide Trade.SignPartial;
    forall id: SigId ensures t.SignPartial(h).trade.sigs.Get(id).myPartial.Some? {
      assert t.Apply(h, id, Sign).1.None?;
    }
  }

  lemma PartialsOf(t: Trade)
    requires forall id: SigId :: t.sigs.Get(id).myPartial.Some?
    ensures t.MyPartialSignaturesOnPeerTxs().Some? && SharesFor(t, t.MyPartialSignaturesOnPeerTxs().value)
  {
    var s := t.sigs;
    assert s.swap == s.Get(Swap);
    assert s.buyersWarnBuyerIn == s.Get(BuyersWarnBuyerIn) && s.buyersWarnSellerIn == s.Get(BuyersWarnSellerIn);
    assert s.sellersWarnBuyerIn == s.Get(SellersWarnBuyerIn) && s.sellersWarnSellerIn == s.Get(SellersWarnSellerIn);
    assert s.buyersRedirect == s.Get(BuyersRedirect) && s.sellersRedirect == s.Get(SellersRedirect);
  }

  // The three stages of a signing context in an honest trade, seen from one side.

  function Mine(amBuyer: bool, b: Secrets, s: Secrets): Secrets {
    if amBuyer then b else s
  }

  ghost function SharedKey(h: Hashes<Message>, amBuyer: bool, b: Secrets, s: Secrets, id: SigId): KeyState
    requires KeyOf(h, b, s, id).Ok?
  {
    var ctx := KeyOf(h, b, s, id).value;
    KeyState(amBuyer, Some(Mine(amBuyer, b, s).Share(id)), Some(KeyPair(BaseMul(Mine(!amBuyer, b, s).Share(id)), None)),
             Some(KeyPair(ctx.pubkey, None)), Some(ctx))
  }

  ghost function FreshCtx(amBuyer: bool, b: Secrets, s: Secrets, id: SigId): SigState {
    var nonce := Mine(amBuyer, b, s).nonces.Get(id);
    NEW_SIG.(amBuyer := amBuyer, adaptor := AdaptorOf(s, id), mine := Some(NoncePair(nonce.Public(), Some(nonce))))
  }

  ghost function PartialOf(h: Hashes<Message>, amBuyer: bool, b: Secrets, s: Secrets, id: SigId): Scalar
    requires KeyOf(h, b, s, id).Ok?
  {
    var x := Mine(amBuyer, b, s);
    KeyExistsFor(h, b, s, id);
    SigningSucceeds(h, KeyOf(h, b, s, id).value, x.Share(id), x.nonces.Get(id), NonceOf(b, s, id), AdaptorOf(s, id),
                    MessageOf(id));
    Musig.SignPartial(h, KeyOf(h, b, s, id).value, x.Share(id), x.nonces.Get(id),
                      NonceOf(b, s, id), AdaptorOf(s, id), MessageOf(id)).value
  }

  ghost function SignedCtx(h: Hashes<Message>, amBuyer: bool, b: Secrets, s: Secrets, id: SigId): SigState
    requires KeyOf(h, b, s, id).Ok?
  {
    var nonce := Mine(amBuyer, b, s).nonces.Get(id);
    NEW_SIG.(amBuyer := amBuyer, adaptor := AdaptorOf(s, id), mine := Some(NoncePair(nonce.Public(), None)),
             peersNonce := Some(Mine(!amBuyer, b, s).nonces.Get(id).Public()),
             aggregatedNonce := Some(NonceOf(b, s, id)), message := Some(MessageOf(id)),
             myPartial := Some(PartialOf(h, amBuyer, b, s, id)), spent := [nonce])
  }

  /** The signature both parties' partial signatures on this input add up to, if they do. */
  ghost function AggregateOf(h: Hashes<Message>, b: Secrets, s: Secrets, id: SigId): Result<AdaptorSig, SigError>
    requires KeyOf(h, b, s, id).Ok?
  {
    AggregatePartials(h, KeyOf(h, b, s, id).value, NonceOf(b, s, id), AdaptorOf(s, id),
                      PartialOf(h, true, b, s, id), PartialOf(h, false, b, s, id), MessageOf(id))
  }

  /** After drawing nonces: the keys agree on both sides and are the aggregates. */
  lemma AfterNonces(h: Hashes<Message>, amBuyer: bool, b: Secrets, s: Secrets)
    ensures
      var me, peer := Mine(amBuyer, b, s), Mine(!amBuyer, b, s);
      var r := GetNonceShares(h, InitTrade(amBuyer, me), BaseMul(peer.buyerShare), BaseMul(peer.sellerShare),
                              me.nonces);
      && (r.err.None? <==> KeysExist(h, b, s))
      && (r.err.None? ==>
            && r.trade.amBuyer == amBuyer
            && r.trade.buyerOut == SharedKey(h, amBuyer, b, s, BuyersRedirect)
            && r.trade.sellerOut == SharedKey(h, amBuyer, b, s, Swap)
            && forall id :: r.trade.sigs.Get(id) == FreshCtx(amBuyer, b, s, id))
  {
    var me, peer := Mine(amBuyer, b, s), Mine(!amBuyer, b, s);
    var t := InitTrade(amBuyer, me).SetPeerKeyShares(BaseMul(peer.buyerShare), BaseMul(peer.sellerShare));
    var k := t.AggregateKeyShares(h);
    assert k.err.None? <==> KeysExist(h, b, s);
    if k.err.None? {
      DrawingIsPointwise(k.trade, h, me.nonces);
      forall id ensures k.trade.Apply(h, id, InitNonce(me.nonces)) == (FreshCtx(amBuyer, b, s, id), None) {
      }
    }
  }

  ghost predicate NoncesAdd(b: Secrets, s: Secrets) {
    forall id: SigId :: NonceOf(b, s, id) != PubNonce(Infinity, Infinity)
  }

  ghost predicate HasKeys(h: Hashes<Message>, amBuyer: bool, b: Secrets, s: Secrets, t: Trade) {
    && KeysExist(h, b, s)
    && t.amBuyer == amBuyer
    && t.buyerOut == SharedKey(h, amBuyer, b, s, BuyersRedirect)
    && t.sellerOut == SharedKey(h, amBuyer, b, s, Swap)
  }

  ghost function SummedCtx(amBuyer: bool, b: Secrets, s: Secrets, id: SigId): SigState {
    FreshCtx(amBuyer, b, s, id).(peersNonce := Some(Mine(!amBuyer, b, s).nonces.Get(id).Public()),
                                 aggregatedNonce := Some(NonceOf(b, s, id)))
  }

  lemma SummingStage(h: Hashes<Message>, amBuyer: bool, b: Secrets, s: Secrets, t: Trade, r: Step)
    requires forall id :: t.sigs.Get(id) ==
               FreshCtx(amBuyer, b, s, id).(peersNonce := Some(Mine(!amBuyer, b, s).nonces.Get(id).Public()))
    requires Pointwise(t, h, AggregateNonces, r)
    ensures r.err.None? <==> NoncesAdd(b, s)
    ensures r.err.None? ==> forall id :: r.trade.sigs.Get(id) == SummedCtx(amBuyer, b, s, id)
  {
    forall id
      ensures t.Apply(h, id, AggregateNonces).1.None? <==> NonceOf(b, s, id) != PubNonce(Infinity, Infinity)
      ensures t.Apply(h, id, AggregateNonces).1.None? ==>
                t.Apply(h, id, AggregateNonces).0 == SummedCtx(amBuyer, b, s, id)
    {
    }
  }

  lemma SigningStage(h: Hashes<Message>, amBuyer: bool, b: Secrets, s: Secrets, t: Trade, r: Step)
    requires HasKeys(h, amBuyer, b, s, t)
    requires forall id :: t.sigs.Get(id) == SummedCtx(amBuyer, b, s, id)
    requires Pointwise(t, h, Sign, r)
    ensures r.err.None?
    ensures forall id :: KeyOf(h, b, s, id).Ok? && r.trade.sigs.Get(id) == SignedCtx(h, amBuyer, b, s, id)
  {
    forall id
      ensures KeyOf(h, b, s, id).Ok? && t.Apply(h, id, Sign) == (SignedCtx(h, amBuyer, b, s, id), None)
    {
      KeyExistsFor(h, b, s, id);
      SignOne(h, amBuyer, b, s, id);
    }
  }

  lemma SignOne(h: Hashes<Message>, amBuyer: bool, b: Secrets, s: Secrets, id: SigId)
    requires KeyOf(h, b, s, id).Ok?
    ensures SummedCtx(amBuyer, b, s, id).SignPartial(h, SharedKey(h, amBuyer, b, s, id), MessageOf(id))
            == (SignedCtx(h, amBuyer, b, s, id), None)
  {
    var me := Mine(amBuyer, b, s);
    KeyExistsFor(h, b, s, id);
    SigningSucceeds(h, KeyOf(h, b, s, id).value, me.Share(id), me.nonces.Get(id),
                    NonceOf(b, s, id), AdaptorOf(s, id), MessageOf(id));
    var none: seq<SecNonce> := [];
    assert none + [me.nonces.Get(id)] == [me.nonces.Get(id)];
  }

  /** After signing. Signing itself never fails; summing the nonces may. */
  lemma AfterSigning(h: Hashes<Message>, amBuyer: bool, b: Secrets, s: Secrets, t: Trade, peerNonces: Seven<PubNonce>)
    requires HasKeys(h, amBuyer, b, s, t)
    requires forall id :: t.sigs.Get(id) == FreshCtx(amBuyer, b, s, id)
    requires forall id :: peerNonces.Get(id) == Mine(!amBuyer, b, s).nonces.Get(id).Public()
    ensures
      var r := GetPartialSignatures(h, t, peerNonces);
      && (r.err.None? <==> NoncesAdd(b, s))
      && (r.err.None? ==>
            && HasKeys(h, amBuyer, b, s, r.trade)
            && forall id :: KeyOf(h, b, s, id).Ok? && r.trade.sigs.Get(id) == SignedCtx(h, amBuyer, b, s, id))
  {
    hide PartialOf, NewKeyAgg, Trade.Apply, Trade.AggregateNonceShares, Trade.SignPartial, SummedCtx, SignedCtx,
         AdaptorOf, MessageOf, NoncesAdd, SharedKey;
    var t1 := t.SetPeerNonceShares(peerNonces);
    forall id ensures t1.sigs.Get(id) == t.sigs.Get(id).(peersNonce := Some(peerNonces.Get(id))) {
    }
    SummingIsPointwise(t1, h);
    var r1 := t1.AggregateNonceShares(h);
    SummingStage(h, amBuyer, b, s, t1, r1);
    if r1.err.None? {
      SigningIsPointwise(r1.trade, h);
      SigningStage(h, amBuyer, b, s, r1.trade, r1.trade.SignPartial(h));
    }
  }

  ghost function Completes(amBuyer: bool): seq<SigId> {
    if amBuyer then BUYERS else SELLERS
  }

  ghost function WithPeers(h: Hashes<Message>, amBuyer: bool, b: Secrets, s: Secrets, id: SigId): SigState
    requires KeyOf(h, b, s, id).Ok?
  {
    SignedCtx(h, amBuyer, b, s, id).(peersPartial := Some(PartialOf(h, !amBuyer, b, s, id)))
  }

  /** Two honest partial signatures on one input complete exactly when the nonce sum exists. */
  lemma CompleteOne(h: Hashes<Message>, amBuyer: bool, b: Secrets, s: Secrets, id: SigId)
    requires KeyOf(h, b, s, id).Ok?
    ensures AggregateOf(h, b, s, id).Ok? <==> NonceSumExists(h, b, s, id)
    ensures WithPeers(h, amBuyer, b, s, id).AggregatePartialSignatures(h, SharedKey(h, amBuyer, b, s, id)) ==
            if AggregateOf(h, b, s, id).Ok? then
              (WithPeers(h, amBuyer, b, s, id).(aggregatedSig := Some(AggregateOf(h, b, s, id).value)), None)
            else (WithPeers(h, amBuyer, b, s, id), Some(Crypto(AggregateOf(h, b, s, id).error)))
  {
    AggregateExists(h, b, s, id);
    hide NonceSumExists, PartialOf, AggregatePartials, NewKeyAgg, NonceOf, MessageOf, UsesBuyerOutput;
  }

  lemma AggregateExists(h: Hashes<Message>, b: Secrets, s: Secrets, id: SigId)
    requires KeyOf(h, b, s, id).Ok?
    ensures AggregateOf(h, b, s, id).Ok? <==> NonceSumExists(h, b, s, id)
    ensures AggregateOf(h, b, s, id)
            == AggregatePartials(h, KeyOf(h, b, s, id).value, NonceOf(b, s, id), AdaptorOf(s, id),
                                 PartialOf(h, false, b, s, id), PartialOf(h, true, b, s, id), MessageOf(id))
  {
    KeyExistsFor(h, b, s, id);
    hide NonceSum, AggregatePartials, SignPartial, KeysOf, NewKeyAgg, AggNonce, AdaptorOf, MessageOf;
    HonestAggregation(h, KeyOf(h, b, s, id).value, b.Share(id), s.Share(id), b.nonces.Get(id), s.nonces.Get(id),
                      AdaptorOf(s, id), MessageOf(id));
  }

  ghost function FinishedCtx(h: Hashes<Message>, amBuyer: bool, b: Secrets, s: Secrets, id: SigId): SigState
    requires KeyOf(h, b, s, id).Ok?
  {
    var agg := AggregateOf(h, b, s, id);
    WithPeers(h, amBuyer, b, s, id).(aggregatedSig := if agg.Ok? then Some(agg.value) else None)
  }

  ghost predicate PointwiseOn(t: Trade, h: Hashes<Message>, ids: seq<SigId>, op: SigOp, r: Step) {
    && (r.err.None? <==> forall id :: id in ids ==> t.Apply(h, id, op).1.None?)
    && r.trade == t.(sigs := r.trade.sigs)
    && (r.err.None? ==> forall id ::
          r.trade.sigs.Get(id) == if id in ids then t.Apply(h, id, op).0 else t.sigs.Get(id))
  }

  lemma CompletingIsPointwise(t: Trade, h: Hashes<Message>)
    ensures PointwiseOn(t, h, Completes(t.amBuyer), AggregateSigs, t.AggregatePartialSignatures(h))
  {
    ChainResult(Step(t, None), h, Completes(t.amBuyer), AggregateSigs);
  }

  lemma CompletingStage(h: Hashes<Message>, amBuyer: bool, b: Secrets, s: Secrets, t: Trade, r: Step)
    requires HasKeys(h, amBuyer, b, s, t)
    requires forall id ::
               id in Completes(amBuyer) ==>
                 KeyOf(h, b, s, id).Ok? && t.sigs.Get(id) == WithPeers(h, amBuyer, b, s, id)
    requires PointwiseOn(t, h, Completes(amBuyer), AggregateSigs, r)
    ensures r.err.None? <==> forall id :: id in Completes(amBuyer) ==> NonceSumExists(h, b, s, id)
    ensures r.err.None? ==> forall id ::
              r.trade.sigs.Get(id)
              == if id in Completes(amBuyer) then FinishedCtx(h, amBuyer, b, s, id) else t.sigs.Get(id)
  {
    hide PartialOf, AggregateOf, NonceSumExists, NewKeyAgg;
    forall id | id in Completes(amBuyer)
      ensures t.Apply(h, id, AggregateSigs).1.None? <==> NonceSumExists(h, b, s, id)
      ensures t.Apply(h, id, AggregateSigs).1.None? ==>
                t.Apply(h, id, AggregateSigs).0 == FinishedCtx(h, amBuyer, b, s, id)
    {
      CompleteOne(h, amBuyer, b, s, id);
      KeyExistsFor(h, b, s, id);
      assert t.KeyFor(id) == SharedKey(h, amBuyer, b, s, id);
    }
  }

  ghost predicate Signed(h: Hashes<Message>, amBuyer: bool, b: Secrets, s: Secrets, t: Trade) {
    && HasKeys(h, amBuyer, b, s, t)
    && forall id :: KeyOf(h, b, s, id).Ok? && t.sigs.Get(id) == SignedCtx(h, amBuyer, b, s, id)
  }

  /** The state of a party when the trade is set up: its own inputs completed, the others signed. */
  ghost predicate SetUp(h: Hashes<Message>, amBuyer: bool, b: Secrets, s: Secrets, t: Trade) {
    && HasKeys(h, amBuyer, b, s, t)
    && forall id :: KeyOf(h, b, s, id).Ok? && t.sigs.Get(id) ==
         if id in Completes(amBuyer) then FinishedCtx(h, amBuyer, b, s, id) else SignedCtx(h, amBuyer, b, s, id)
  }

  /** What the other party's GetPartialSignatures answers, and what the client passes on of it. */
  ghost function SigsFor(h: Hashes<Message>, amBuyer: bool, b: Secrets, s: Secrets): ExchangedSigs
    requires KeysExist(h, b, s)
  {
    forall id ensures KeyOf(h, b, s, id).Ok? {
      KeyExistsFor(h, b, s, id);
    }
    if amBuyer then
      ExchangedSigs(PartialOf(h, false, b, s, BuyersWarnBuyerIn), PartialOf(h, false, b, s, BuyersWarnSellerIn),
                    PartialOf(h, false, b, s, BuyersRedirect), Some(PartialOf(h, false, b, s, Swap)))
    else
      ExchangedSigs(PartialOf(h, true, b, s, SellersWarnBuyerIn), PartialOf(h, true, b, s, SellersWarnSellerIn),
                    PartialOf(h, true, b, s, SellersRedirect), None)
  }

  lemma AfterDeposit(h: Hashes<Message>, amBuyer: bool, b: Secrets, s: Secrets, t: Trade)
    requires Signed(h, amBuyer, b, s, t)
    ensures
      var r := SignDepositTx(h, t, SigsFor(h, amBuyer, b, s));
      && (r.err.None? <==> forall id :: id in Completes(amBuyer) ==> NonceSumExists(h, b, s, id))
      && (r.err.None? ==> SetUp(h, amBuyer, b, s, r.trade))
  {
    var t1 := t.SetPeerPartialSignaturesOnMyTxs(SigsFor(h, amBuyer, b, s));
    forall id
      ensures t1.sigs.Get(id)
              == if id in Completes(amBuyer) then WithPeers(h, amBuyer, b, s, id) else SignedCtx(h, amBuyer, b, s, id)
    {
      InCompletes(id);
      assert t.sigs.Get(id) == SignedCtx(h, amBuyer, b, s, id);
      assert t.sigs.Get(Swap) == SignedCtx(h, amBuyer, b, s, Swap);
    }
    CompletingIsPointwise(t1, h);
    CompletingStage(h, amBuyer, b, s, t1, t1.AggregatePartialSignatures(h));
  }

  lemma InCompletes(id: SigId)
    ensures id in Completes(true) <==> id in {BuyersWarnBuyerIn, BuyersWarnSellerIn, BuyersRedirect, Swap}
    ensures id in Completes(false) <==> id in {SellersWarnBuyerIn, SellersWarnSellerIn, SellersRedirect}
  {
    assert BUYERS[0] == BuyersWarnBuyerIn
           && BUYERS[1] == BuyersWarnSellerIn
           && BUYERS[2] == BuyersRedirect
           && BUYERS[3] == Swap;
    assert SELLERS[0] == SellersWarnBuyerIn && SELLERS[1] == SellersWarnSellerIn && SELLERS[2] == SellersRedirect;
  }

  ghost predicate NoncesDrawn(h: Hashes<Message>, amBuyer: bool, b: Secrets, s: Secrets, t: Trade) {
    && HasKeys(h, amBuyer, b, s, t)
    && forall id :: t.sigs.Get(id) == FreshCtx(amBuyer, b, s, id)
  }

  lemma KeysExchanged(h: Hashes<Message>, b: Secrets, s: Secrets)
    ensures
      var r := ExchangeKeys(h, b, s);
      && (r.Ok? <==> KeysExist(h, b, s))
      && (r.Ok? ==> NoncesDrawn(h, true, b, s, r.value.0) && NoncesDrawn(h, false, b, s, r.value.1))
  {
    AfterNonces(h, true, b, s);
    AfterNonces(h, false, b, s);
  }

  lemma NoncesExchanged(h: Hashes<Message>, b: Secrets, s: Secrets, buyer: Trade, seller: Trade)
    requires NoncesDrawn(h, true, b, s, buyer) && NoncesDrawn(h, false, b, s, seller)
    ensures
      var r := ExchangeNonces(h, buyer, seller);
      && (r.Ok? <==> NoncesAdd(b, s))
      && (r.Ok? ==> Signed(h, true, b, s, r.value.0) && Signed(h, false, b, s, r.value.1))
  {
    hide PartialOf, NewKeyAgg;
    NoncesSent(true, b, s, buyer);
    NoncesSent(false, b, s, seller);
    AfterSigning(h, true, b, s, buyer, seller.MyNonceShares().value);
    AfterSigning(h, false, b, s, seller, buyer.MyNonceShares().value);
  }

  lemma SigsExchanged(h: Hashes<Message>, b: Secrets, s: Secrets, buyer: Trade, seller: Trade)
    requires Signed(h, true, b, s, buyer) && Signed(h, false, b, s, seller)
    ensures
      var r := ExchangeSigs(h, buyer, seller);
      && (r.Ok? <==> forall id :: NonceSumExists(h, b, s, id))
      && (r.Ok? ==> SetUp(h, true, b, s, r.value.0) && SetUp(h, false, b, s, r.value.1))
  {
    hide PartialOf, SignDepositTx;
    BuyersSigsSent(h, b, s, buyer);
    SellersSigsSent(h, b, s, seller);
    DepositsSigned(h, b, s, buyer, seller, SignDepositTx(h, buyer, SigsFor(h, true, b, s)),
                   SignDepositTx(h, seller, SigsFor(h, false, b, s)));
  }

  lemma DepositsSigned(h: Hashes<Message>, b: Secrets, s: Secrets, buyer: Trade, seller: Trade, b3: Step, s3: Step)
    requires Signed(h, true, b, s, buyer) && Signed(h, false, b, s, seller)
    requires b3 == SignDepositTx(h, buyer, SigsFor(h, true, b, s))
    requires s3 == SignDepositTx(h, seller, SigsFor(h, false, b, s))
    ensures b3.err.None? && s3.err.None? <==> forall id :: NonceSumExists(h, b, s, id)
    ensures b3.err.None? ==> SetUp(h, true, b, s, b3.trade)
    ensures s3.err.None? ==> SetUp(h, false, b, s, s3.trade)
  {
    AfterDeposit(h, true, b, s, buyer);
    AfterDeposit(h, false, b, s, seller);
    EitherCompletes();
  }

  lemma EitherCompletes()
    ensures forall id :: id in Completes(true) || id in Completes(false)
  {
    forall id: SigId ensures id in Completes(true) || id in Completes(false) {
      InCompletes(id);
      match id
      case Swap =>
      case _ =>
    }
  }

  /** The set-up succeeds on both sides exactly when no aggregate degenerates, and
      then both sides are in the expected states. */
  lemma HonestSetupResult(h: Hashes<Message>, b: Secrets, s: Secrets)
    ensures HonestSetup(h, b, s).Ok? <==> NonDegenerate(h, b, s)
    ensures HonestSetup(h, b, s).Ok? ==>
              SetUp(h, true, b, s, HonestSetup(h, b, s).value.0) && SetUp(h, false, b, s, HonestSetup(h, b, s).value.1)
  {
    hide *;
    KeysExchanged(h, b, s);
    NonDegenerateParts(h, b, s);
    var r1 := ExchangeKeys(h, b, s);
    if r1.Ok? {
      NoncesExchanged(h, b, s, r1.value.0, r1.value.1);
      var r2 := ExchangeNonces(h, r1.value.0, r1.value.1);
      if r2.Ok? {
        SigsExchanged(h, b, s, r2.value.0, r2.value.1);
        SetupIs(h, b, s, r1, r2);
      } else {
        SetupIs(h, b, s, r1, r2);
      }
    } else {
      SetupIs(h, b, s, r1, r1);
    }
  }

  lemma SetupIs(h: Hashes<Message>, b: Secrets, s: Secrets, r1: Result<(Trade, Trade), Failure>,
                r2: Result<(Trade, Trade), Failure>)
    requires r1 == ExchangeKeys(h, b, s)
    requires r1.Ok? ==> r2 == ExchangeNonces(h, r1.value.0, r1.value.1)
    ensures HonestSetup(h, b, s) ==
            if r1.Err? then r1 else if r2.Err? then r2 else ExchangeSigs(h, r2.value.0, r2.value.1)
  {
    hide ExchangeKeys, ExchangeNonces, ExchangeSigs;
  }

  /** The three conditions of NonDegenerate in the order in which the stages meet them. */
  lemma NonDegenerateParts(h: Hashes<Message>, b: Secrets, s: Secrets)
    ensures NonDegenerate(h, b, s) ==> KeysExist(h, b, s) && NoncesAdd(b, s)
    ensures KeysExist(h, b, s) ==> forall id :: KeyOf(h, b, s, id).Ok?
    ensures KeysExist(h, b, s) ==> (NonDegenerate(h, b, s) <==> forall id :: NonceSumExists(h, b, s, id))
  {
    if KeysExist(h, b, s) {
      forall id ensures KeyOf(h, b, s, id).Ok? {
        KeyExistsFor(h, b, s, id);
      }
      SumNeedsNonces(h, b, s);
    }
  }

  lemma SumNeedsNonces(h: Hashes<Message>, b: Secrets, s: Secrets)
    requires forall id :: KeyOf(h, b, s, id).Ok?
    ensures NonDegenerate(h, b, s) ==> NoncesAdd(b, s)
  {
    forall id | NonceOf(b, s, id) == PubNonce(Infinity, Infinity) ensures !NonceSumExists(h, b, s, id) {
      MulZero(h.nonceCoef(NonceOf(b, s, id), h.Even(KeyOf(h, b, s, id).value.pubkey), MessageOf(id)));
    }
  }

  lemma NoncesSent(amBuyer: bool, b: Secrets, s: Secrets, t: Trade)
    requires forall id :: t.sigs.Get(id) == FreshCtx(amBuyer, b, s, id)
    ensures t.MyNonceShares().Some?
    ensures forall id :: t.MyNonceShares().value.Get(id) == Mine(amBuyer, b, s).nonces.Get(id).Public()
  {
    var nonces := Mine(amBuyer, b, s).nonces;
    forall id ensures t.sigs.Get(id).mine == Some(NoncePair(nonces.Get(id).Public(), Some(nonces.Get(id)))) {
    }
    PubOfNonces(t, nonces);
  }

  lemma BuyersSigsSent(h: Hashes<Message>, b: Secrets, s: Secrets, t: Trade)
    requires Signed(h, true, b, s, t)
    ensures t.MyPartialSignaturesOnPeerTxs().Some?
    ensures t.MyPartialSignaturesOnPeerTxs().value
            == SigsFor(h, false, b, s).(swap := Some(PartialOf(h, true, b, s, Swap)))
  {
    hide PartialOf;
    var sigs := t.sigs;
    assert sigs.Get(Swap) == SignedCtx(h, true, b, s, Swap);
    assert sigs.Get(SellersWarnBuyerIn) == SignedCtx(h, true, b, s, SellersWarnBuyerIn);
    assert sigs.Get(SellersWarnSellerIn) == SignedCtx(h, true, b, s, SellersWarnSellerIn);
    assert sigs.Get(SellersRedirect) == SignedCtx(h, true, b, s, SellersRedirect);
  }

  lemma SellersSigsSent(h: Hashes<Message>, b: Secrets, s: Secrets, t: Trade)
    requires Signed(h, false, b, s, t)
    ensures t.MyPartialSignaturesOnPeerTxs() == Some(SigsFor(h, true, b, s))
  {
    hide PartialOf;
    var sigs := t.sigs;
    assert sigs.Get(Swap) == SignedCtx(h, false, b, s, Swap);
    assert sigs.Get(BuyersWarnBuyerIn) == SignedCtx(h, false, b, s, BuyersWarnBuyerIn);
    assert sigs.Get(BuyersWarnSellerIn) == SignedCtx(h, false, b, s, BuyersWarnSellerIn);
    assert sigs.Get(BuyersRedirect) == SignedCtx(h, false, b, s, BuyersRedirect);
  }

  // ------------------------------------------------------------ main results

  /** sig is complete without an adaptor secret and verifies under q. */
  ghost predicate IsPlainSignature(h: Hashes<Message>, q: Point, sig: AdaptorSig, m: Message) {
    Adapt(h, sig, 0).Some? && Verify(h, q, Adapt(h, sig, 0).value, m)
  }

  ghost predicate ContextsAgree(h: Hashes<Message>, tb: Trade, ts: Trade, id: SigId) {
    var cb, cs := tb.sigs.Get(id), ts.sigs.Get(id);
    && cb.aggregatedNonce.Some? && cb.aggregatedNonce == cs.aggregatedNonce
    && cb.adaptor == cs.adaptor
    && cb.message == cs.message == Some(MessageOf(id))
  }

  /** What messages A to D leave behind: the same aggregated keys, nonces,
      messages and adaptor points on both sides, the swap's adaptor point being
      the seller's share for the buyer output; plain signatures on each party's
      own warning and redirect inputs; and, for the buyer alone, an adaptor
      signature on the swap input. */
  lemma SetupAgreement(h: Hashes<Message>, b: Secrets, s: Secrets)
    requires NonDegenerate(h, b, s)
    ensures HonestSetup(h, b, s).Ok?
    ensures
      var (tb, ts) := HonestSetup(h, b, s).value;
      && tb.buyerOut.keyAgg.Some? && tb.buyerOut.keyAgg == ts.buyerOut.keyAgg
      && tb.buyerOut.aggregated.Some? && tb.buyerOut.aggregated == ts.buyerOut.aggregated
      && tb.sellerOut.keyAgg.Some? && tb.sellerOut.keyAgg == ts.sellerOut.keyAgg
      && tb.sellerOut.aggregated.Some? && tb.sellerOut.aggregated == ts.sellerOut.aggregated
      && (forall id :: ContextsAgree(h, tb, ts, id))
      && tb.sigs.swap.adaptor == BaseMul(s.buyerShare)
      && (forall id :: id in [BuyersWarnBuyerIn, BuyersWarnSellerIn, BuyersRedirect] ==>
            tb.sigs.Get(id).aggregatedSig.Some? && tb.KeyFor(id).aggregated.Some? &&
            IsPlainSignature(h, tb.KeyFor(id).aggregated.value.pub, tb.sigs.Get(id).aggregatedSig.value, MessageOf(id)))
      && (forall id :: id in [SellersWarnBuyerIn, SellersWarnSellerIn, SellersRedirect] ==>
            ts.sigs.Get(id).aggregatedSig.Some? && ts.KeyFor(id).aggregated.Some? &&
            IsPlainSignature(h, ts.KeyFor(id).aggregated.value.pub, ts.sigs.Get(id).aggregatedSig.value, MessageOf(id)))
      && tb.sigs.swap.aggregatedSig.Some?
      && VerifyAdaptor(h, tb.sellerOut.aggregated.value.pub, tb.sigs.swap.aggregatedSig.value,
                       MessageOf(Swap), BaseMul(s.buyerShare))
      && ts.sigs.swap.aggregatedSig.None? && ts.sigs.swap.peersPartial.None?
  {
    hide *;
    HonestSetupResult(h, b, s);
    NonDegenerateParts(h, b, s);
    var (tb, ts) := HonestSetup(h, b, s).value;
    SetUpKeys(h, true, b, s, tb);
    SetUpKeys(h, false, b, s, ts);
    forall id ensures ContextsAgree(h, tb, ts, id) {
      SetUpsAgree(h, b, s, tb, ts, id);
    }
    SetUpCtx(h, true, b, s, tb, Swap);
    SetUpCtx(h, false, b, s, ts, Swap);
    SwapIsAdaptor(h, b, s);
    forall id | id in [BuyersWarnBuyerIn, BuyersWarnSellerIn, BuyersRedirect]
      ensures tb.sigs.Get(id).aggregatedSig.Some? && tb.KeyFor(id).aggregated.Some?
      ensures IsPlainSignature(h, tb.KeyFor(id).aggregated.value.pub, tb.sigs.Get(id).aggregatedSig.value,
                               MessageOf(id))
    {
      SetUpCtx(h, true, b, s, tb, id);
      CompletedIsPlain(h, b, s, id);
    }
    forall id | id in [SellersWarnBuyerIn, SellersWarnSellerIn, SellersRedirect]
      ensures ts.sigs.Get(id).aggregatedSig.Some? && ts.KeyFor(id).aggregated.Some?
      ensures IsPlainSignature(h, ts.KeyFor(id).aggregated.value.pub, ts.sigs.Get(id).aggregatedSig.value,
                               MessageOf(id))
    {
      SetUpCtx(h, false, b, s, ts, id);
      CompletedIsPlain(h, b, s, id);
    }
    SwapField(tb);
    SwapField(ts);
  }

  lemma SwapField(t: Trade)
    ensures t.sigs.Get(Swap) == t.sigs.swap
  {
  }

  /** A finished signature on one of the party's own inputs. */
  ghost predicate SignedPlainly(h: Hashes<Message>, c: SigState, key: KeyState, m: Message) {
    && c.aggregatedSig.Some? && key.aggregated.Some?
    && IsPlainSignature(h, key.aggregated.value.pub, c.aggregatedSig.value, m)
  }

  /** The nonce, message and adaptor point of one input on both sides. */
  ghost predicate Prepared(c: SigState, n: SecNonce, n': SecNonce, m: Message, adaptor: Point) {
    c.aggregatedNonce == Some(AggNonce(n.Public(), n'.Public())) && c.message == Some(m) && c.adaptor == adaptor
  }

  /** The set-up, field by field: the buyer output's key is made of the two shares
      for it, the buyer's first, and so is the seller output's; every input is
      prepared with its own two nonces and its own message; the buyer input of a
      warning and the buyer's redirect are signed with the buyer output's key, the
      seller input and the seller's redirect with the seller output's; and the swap
      carries an adaptor signature under the seller output's key. */
  lemma SetupByField(h: Hashes<Message>, b: Secrets, s: Secrets)
    requires HonestSetup(h, b, s).Ok?
    ensures
      var (tb, ts) := HonestSetup(h, b, s).value;
      && tb.buyerOut.keyAgg.Some? && tb.sellerOut.keyAgg.Some?
      && var kb, ks := tb.buyerOut.keyAgg.value, tb.sellerOut.keyAgg.value;
      && kb.pk1 == BaseMul(b.buyerShare) && kb.pk2 == BaseMul(s.buyerShare)
      && ks.pk1 == BaseMul(b.sellerShare) && ks.pk2 == BaseMul(s.sellerShare)
      && tb.buyerOut.aggregated == ts.buyerOut.aggregated == Some(KeyPair(kb.pubkey, None))
      && tb.sellerOut.aggregated == ts.sellerOut.aggregated == Some(KeyPair(ks.pubkey, None))
    ensures
      var (tb, ts) := HonestSetup(h, b, s).value;
      && SignedPlainly(h, tb.sigs.buyersWarnBuyerIn, tb.buyerOut, "buyer's warning tx buyer input")
      && SignedPlainly(h, tb.sigs.buyersWarnSellerIn, tb.sellerOut, "buyer's warning tx seller input")
      && SignedPlainly(h, tb.sigs.buyersRedirect, tb.buyerOut, "buyer's redirect tx input")
      && SignedPlainly(h, ts.sigs.sellersWarnBuyerIn, ts.buyerOut, "seller's warning tx buyer input")
      && SignedPlainly(h, ts.sigs.sellersWarnSellerIn, ts.sellerOut, "seller's warning tx seller input")
      && SignedPlainly(h, ts.sigs.sellersRedirect, ts.sellerOut, "seller's redirect tx input")
      && tb.sigs.swap.aggregatedSig.Some? && tb.sellerOut.aggregated.Some?
      && VerifyAdaptor(h, tb.sellerOut.aggregated.value.pub, tb.sigs.swap.aggregatedSig.value, "swap tx input",
                       BaseMul(s.buyerShare))
    ensures
      var (tb, ts) := HonestSetup(h, b, s).value;
      forall t :: t in [tb, ts] ==>
        && Prepared(t.sigs.swap, b.nonces.swap, s.nonces.swap, "swap tx input", BaseMul(s.buyerShare))
        && Prepared(t.sigs.buyersWarnBuyerIn, b.nonces.buyersWarnBuyerIn, s.nonces.buyersWarnBuyerIn,
                    "buyer's warning tx buyer input", Infinity)
        && Prepared(t.sigs.buyersWarnSellerIn, b.nonces.buyersWarnSellerIn, s.nonces.buyersWarnSellerIn,
                    "buyer's warning tx seller input", Infinity)
        && Prepared(t.sigs.sellersWarnBuyerIn, b.nonces.sellersWarnBuyerIn, s.nonces.sellersWarnBuyerIn,
                    "seller's warning tx buyer input", Infinity)
        && Prepared(t.sigs.sellersWarnSellerIn, b.nonces.sellersWarnSellerIn, s.nonces.sellersWarnSellerIn,
                    "seller's warning tx seller input", Infinity)
        && Prepared(t.sigs.buyersRedirect, b.nonces.buyersRedirect, s.nonces.buyersRedirect,
                    "buyer's redirect tx input", Infinity)
        && Prepared(t.sigs.sellersRedirect, b.nonces.sellersRedirect, s.nonces.sellersRedirect,
                    "seller's redirect tx input", Infinity)
  {
    hide *;
    HonestSetupResult(h, b, s);
    var (tb, ts) := HonestSetup(h, b, s).value;
    SetupKeys(h, b, s, tb, ts);
    SignedByField(h, b, s, tb, ts);
    PreparedByField(h, true, b, s, tb);
    PreparedByField(h, false, b, s, ts);
  }

  lemma SetupKeys(h: Hashes<Message>, b: Secrets, s: Secrets, tb: Trade, ts: Trade)
    requires SetUp(h, true, b, s, tb) && SetUp(h, false, b, s, ts)
    ensures tb.buyerOut.keyAgg.Some? && tb.sellerOut.keyAgg.Some?
    ensures
      var kb, ks := tb.buyerOut.keyAgg.value, tb.sellerOut.keyAgg.value;
      && kb.pk1 == BaseMul(b.buyerShare) && kb.pk2 == BaseMul(s.buyerShare)
      && ks.pk1 == BaseMul(b.sellerShare) && ks.pk2 == BaseMul(s.sellerShare)
      && tb.buyerOut.aggregated == ts.buyerOut.aggregated == Some(KeyPair(kb.pubkey, None))
      && tb.sellerOut.aggregated == ts.sellerOut.aggregated == Some(KeyPair(ks.pubkey, None))
  {
    SetUpKeys(h, true, b, s, tb);
    SetUpKeys(h, false, b, s, ts);
    hide SetUp;
  }

  lemma SignedByField(h: Hashes<Message>, b: Secrets, s: Secrets, tb: Trade, ts: Trade)
    requires NonDegenerate(h, b, s) && SetUp(h, true, b, s, tb) && SetUp(h, false, b, s, ts)
    ensures SignedPlainly(h, tb.sigs.buyersWarnBuyerIn, tb.buyerOut, "buyer's warning tx buyer input")
    ensures SignedPlainly(h, tb.sigs.buyersWarnSellerIn, tb.sellerOut, "buyer's warning tx seller input")
    ensures SignedPlainly(h, tb.sigs.buyersRedirect, tb.buyerOut, "buyer's redirect tx input")
    ensures SignedPlainly(h, ts.sigs.sellersWarnBuyerIn, ts.buyerOut, "seller's warning tx buyer input")
    ensures SignedPlainly(h, ts.sigs.sellersWarnSellerIn, ts.sellerOut, "seller's warning tx seller input")
    ensures SignedPlainly(h, ts.sigs.sellersRedirect, ts.sellerOut, "seller's redirect tx input")
    ensures tb.sigs.swap.aggregatedSig.Some? && tb.sellerOut.aggregated.Some?
    ensures VerifyAdaptor(h, tb.sellerOut.aggregated.value.pub, tb.sigs.swap.aggregatedSig.value, "swap tx input",
                          BaseMul(s.buyerShare))
  {
    hide SetUp, KeyOf, PartialOf, AggregateOf, NonDegenerate, IsPlainSignature, VerifyAdaptor, NonceOf, Completes;
    OwnInput(h, true, b, s, tb, BuyersWarnBuyerIn);
    OwnInput(h, true, b, s, tb, BuyersWarnSellerIn);
    OwnInput(h, true, b, s, tb, BuyersRedirect);
    OwnInput(h, false, b, s, ts, SellersWarnBuyerIn);
    OwnInput(h, false, b, s, ts, SellersWarnSellerIn);
    OwnInput(h, false, b, s, ts, SellersRedirect);
    SetUpCtx(h, true, b, s, tb, Swap);
    SetUpKeys(h, true, b, s, tb);
    SwapIsAdaptor(h, b, s);
    SwapField(tb);
  }

  lemma OwnInput(h: Hashes<Message>, amBuyer: bool, b: Secrets, s: Secrets, t: Trade, id: SigId)
    requires NonDegenerate(h, b, s) && SetUp(h, amBuyer, b, s, t)
    requires id in if amBuyer then [BuyersWarnBuyerIn, BuyersWarnSellerIn, BuyersRedirect]
                   else [SellersWarnBuyerIn, SellersWarnSellerIn, SellersRedirect]
    ensures SignedPlainly(h, t.sigs.Get(id), t.KeyFor(id), MessageOf(id))
  {
    hide SetUp, KeyOf, PartialOf, AggregateOf, NonDegenerate, IsPlainSignature, NonceOf;
    SetUpCtx(h, amBuyer, b, s, t, id);
    CompletedIsPlain(h, b, s, id);
  }

  lemma PreparedByField(h: Hashes<Message>, amBuyer: bool, b: Secrets, s: Secrets, t: Trade)
    requires SetUp(h, amBuyer, b, s, t)
    ensures Prepared(t.sigs.swap, b.nonces.swap, s.nonces.swap, "swap tx input", BaseMul(s.buyerShare))
    ensures Prepared(t.sigs.buyersWarnBuyerIn, b.nonces.buyersWarnBuyerIn, s.nonces.buyersWarnBuyerIn,
                     "buyer's warning tx buyer input", Infinity)
    ensures Prepared(t.sigs.buyersWarnSellerIn, b.nonces.buyersWarnSellerIn, s.nonces.buyersWarnSellerIn,
                     "buyer's warning tx seller input", Infinity)
    ensures Prepared(t.sigs.sellersWarnBuyerIn, b.nonces.sellersWarnBuyerIn, s.nonces.sellersWarnBuyerIn,
                     "seller's warning tx buyer input", Infinity)
    ensures Prepared(t.sigs.sellersWarnSellerIn, b.nonces.sellersWarnSellerIn, s.nonces.sellersWarnSellerIn,
                     "seller's warning tx seller input", Infinity)
    ensures Prepared(t.sigs.buyersRedirect, b.nonces.buyersRedirect, s.nonces.buyersRedirect,
                     "buyer's redirect tx input", Infinity)
    ensures Prepared(t.sigs.sellersRedirect, b.nonces.sellersRedirect, s.nonces.sellersRedirect,
                     "seller's redirect tx input", Infinity)
  {
    hide SetUp, KeyOf, PartialOf, AggregateOf, AggNonce;
    SetUpCtx(h, amBuyer, b, s, t, Swap);
    SetUpCtx(h, amBuyer, b, s, t, BuyersWarnBuyerIn);
    SetUpCtx(h, amBuyer, b, s, t, BuyersWarnSellerIn);
    SetUpCtx(h, amBuyer, b, s, t, SellersWarnBuyerIn);
    SetUpCtx(h, amBuyer, b, s, t, SellersWarnSellerIn);
    SetUpCtx(h, amBuyer, b, s, t, BuyersRedirect);
    SetUpCtx(h, amBuyer, b, s, t, SellersRedirect);
  }

  lemma SetUpKeys(h: Hashes<Message>, amBuyer: bool, b: Secrets, s: Secrets, t: Trade)
    requires SetUp(h, amBuyer, b, s, t)
    ensures t.amBuyer == amBuyer
    ensures KeyOf(h, b, s, BuyersRedirect).Ok? && KeyOf(h, b, s, Swap).Ok?
    ensures t.buyerOut.keyAgg == Some(KeyOf(h, b, s, BuyersRedirect).value)
    ensures t.buyerOut.aggregated == Some(KeyPair(KeyOf(h, b, s, BuyersRedirect).value.pubkey, None))
    ensures t.sellerOut.keyAgg == Some(KeyOf(h, b, s, Swap).value)
    ensures t.sellerOut.aggregated == Some(KeyPair(KeyOf(h, b, s, Swap).value.pubkey, None))
  {
  }

  lemma SetUpCtx(h: Hashes<Message>, amBuyer: bool, b: Secrets, s: Secrets, t: Trade, id: SigId)
    requires SetUp(h, amBuyer, b, s, t)
    ensures KeyOf(h, b, s, id).Ok?
    ensures t.KeyFor(id).aggregated == Some(KeyPair(KeyOf(h, b, s, id).value.pubkey, None))
    ensures
      var c := t.sigs.Get(id);
      && c.aggregatedNonce == Some(NonceOf(b, s, id))
      && c.adaptor == AdaptorOf(s, id) && c.message == Some(MessageOf(id))
      && c.myPartial == Some(PartialOf(h, amBuyer, b, s, id))
    ensures id in Completes(amBuyer) ==> AggregateOf(h, b, s, id).Ok? ==>
              t.sigs.Get(id).aggregatedSig == Some(AggregateOf(h, b, s, id).value)
    ensures id !in Completes(amBuyer) ==> t.sigs.Get(id).aggregatedSig.None? && t.sigs.Get(id).peersPartial.None?
    ensures id in Completes(amBuyer) <==>
            id in if amBuyer then [BuyersWarnBuyerIn, BuyersWarnSellerIn, BuyersRedirect, Swap]
                  else [SellersWarnBuyerIn, SellersWarnSellerIn, SellersRedirect]
    ensures AdaptorOf(s, Swap) == BaseMul(s.buyerShare)
  {
    hide AggregateOf, PartialOf, KeyOf;
    KeyExistsFor(h, b, s, id);
  }

  lemma SetUpsAgree(h: Hashes<Message>, b: Secrets, s: Secrets, tb: Trade, ts: Trade, id: SigId)
    requires SetUp(h, true, b, s, tb) && SetUp(h, false, b, s, ts)
    ensures ContextsAgree(h, tb, ts, id)
  {
    hide SetUp;
    SetUpCtx(h, true, b, s, tb, id);
    SetUpCtx(h, false, b, s, ts, id);
  }

  lemma CompletedIsPlain(h: Hashes<Message>, b: Secrets, s: Secrets, id: SigId)
    requires NonDegenerate(h, b, s) && id != Swap
    ensures KeyOf(h, b, s, id).Ok? && AggregateOf(h, b, s, id).Ok?
    ensures IsPlainSignature(h, KeyOf(h, b, s, id).value.pubkey, AggregateOf(h, b, s, id).value, MessageOf(id))
  {
    hide PartialOf;
    CompleteOne(h, true, b, s, id);
    var q := KeyOf(h, b, s, id).value;
    AggregateVerifies(h, q, NonceOf(b, s, id), Infinity, PartialOf(h, true, b, s, id), PartialOf(h, false, b, s, id),
                      MessageOf(id));
    AdaptVerifies(h, q.pubkey, AggregateOf(h, b, s, id).value, MessageOf(id), 0);
  }

  lemma SwapIsAdaptor(h: Hashes<Message>, b: Secrets, s: Secrets)
    requires NonDegenerate(h, b, s)
    ensures KeyOf(h, b, s, Swap).Ok? && AggregateOf(h, b, s, Swap).Ok?
    ensures AggregateOf(h, b, s, Swap).value.r
            == NonceSum(h, KeyOf(h, b, s, Swap).value.pubkey, NonceOf(b, s, Swap), MessageOf(Swap))
    ensures AggregateOf(h, b, s, Swap).value.r != Infinity
    ensures VerifyAdaptor(h, KeyOf(h, b, s, Swap).value.pubkey, AggregateOf(h, b, s, Swap).value, MessageOf(Swap),
                          BaseMul(s.buyerShare))
  {
    hide PartialOf;
    CompleteOne(h, true, b, s, Swap);
  }

  /** The buyer's end of a trade, however it learns the seller's share: it then
      holds the secret key of the buyer output. */
  ghost predicate HoldsBuyerOutput(t: Trade, sellersShare: SecKey) {
    && t.buyerOut.peers.Some? && t.buyerOut.peers.value.prv == Some(sellersShare)
    && t.buyerOut.aggregated.Some? && t.buyerOut.aggregated.value.prv.Some?
    && BaseMul(t.buyerOut.aggregated.value.prv.value) == t.buyerOut.aggregated.value.pub
  }

  /** The swap aggregate the seller forms from the buyer's partial signature is
      the one the buyer formed during set-up, and completing it only needs the
      adapted nonce to exist. */
  lemma SellerCompletesSwap(h: Hashes<Message>, b: Secrets, s: Secrets, ts: Trade)
    requires NonDegenerate(h, b, s) && SetUp(h, false, b, s, ts)
    ensures KeyOf(h, b, s, Swap).Ok? && AggregateOf(h, b, s, Swap).Ok?
    ensures
      var agg := AggregateOf(h, b, s, Swap).value;
      var (step, answer) := SignSwapTx(h, ts, PartialOf(h, true, b, s, Swap));
      && step.trade == ts.(sigs := ts.sigs.(swap := WithPeers(h, false, b, s, Swap).(aggregatedSig := Some(agg))))
      && step.err == (if Adapt(h, agg, s.buyerShare).None? then Some(ZeroNonce) else None)
      && answer
         == (if Adapt(h, agg, s.buyerShare).None? then None
             else Some((Adapt(h, agg, s.buyerShare).value, s.buyerShare)))
  {
    hide PartialOf, AggregateOf;
    SwapIsAdaptor(h, b, s);
    CompleteOne(h, false, b, s, Swap);
    assert ts.sigs.Get(Swap) == SignedCtx(h, false, b, s, Swap);
  }

  /** From any plain signature on the adapted nonce the buyer recovers exactly the
      seller's share, and with it the secret key of the buyer output. */
  lemma BuyerRecovers(h: Hashes<Message>, b: Secrets, s: Secrets, tb: Trade, final: LiftedSig)
    requires NonDegenerate(h, b, s) && SetUp(h, true, b, s, tb)
    requires KeyOf(h, b, s, Swap).Ok? && AggregateOf(h, b, s, Swap).Ok?
    requires final.r == h.Even(PAdd(AggregateOf(h, b, s, Swap).value.r, BaseMul(s.buyerShare)))
    requires Verify(h, KeyOf(h, b, s, Swap).value.pubkey, final, MessageOf(Swap))
    ensures
      var (step, answer) := CloseTrade(tb, None, Some(final));
      && step.err.None? && answer == Some(b.sellerShare)
      && HoldsBuyerOutput(step.trade, s.buyerShare)
      && CloseTrade(tb, Some(s.buyerShare), None) == (step, answer)
  {
    hide PartialOf, AggregateOf, Reveal, VerifyAdaptor, Verify;
    SwapIsAdaptor(h, b, s);
    RevealFromSignature(h, KeyOf(h, b, s, Swap).value.pubkey, AggregateOf(h, b, s, Swap).value, MessageOf(Swap),
                        s.buyerShare, final);
    SetUpCtx(h, true, b, s, tb, Swap);
    SwapField(tb);
    KeyExistsFor(h, b, s, BuyersRedirect);
    AggregatedLog(KeyOf(h, b, s, BuyersRedirect).value, b.buyerShare, s.buyerShare);
  }

  /** In any state at all, a buyer who supplies a signature that reveals a secret
      ends as if told that secret; one that reveals nothing changes nothing. A seller
      learns nothing from it. */
  lemma CloseBySignature(t: Trade, final: LiftedSig)
    ensures
      var (step, answer) := CloseTrade(t, None, Some(final));
      var agg := t.sigs.swap.aggregatedSig;
      var secret := if agg.None? then None else Reveal(agg.value, final);
      && (secret.None? || secret.value == 0 ==> step.err.Some? && step.trade == t && answer.None?)
      && (secret.Some? && secret.value != 0 && t.amBuyer && t.buyerOut.amBuyer ==>
            (step, answer) == CloseTrade(t, Some(secret.value), None))
      && (secret.Some? && secret.value != 0 && !t.amBuyer && !t.buyerOut.amBuyer ==>
            var (key, err) := t.sellerOut.AggregatePrvKeyShares();
            && step.trade == t.(sellerOut := key) && answer == (if err.None? then t.buyerOut.mine else None)
            && step.err == if err.None? && answer.None? then Some(MissingKeyShare) else err)
  {
    hide Reveal, KeyState.AggregatePrvKeyShares;
  }

  /** Once the buyer answers with its share, the seller holds the secret key of the seller output. */
  lemma SellerCloses(h: Hashes<Message>, b: Secrets, s: Secrets, t: Trade)
    requires HasKeys(h, false, b, s, t)
    ensures
      var (step, answer) := CloseTrade(t, Some(b.sellerShare), None);
      && step.err.None?
      && step.trade.sellerOut.aggregated.Some? && step.trade.sellerOut.aggregated.value.prv.Some?
      && BaseMul(step.trade.sellerOut.aggregated.value.prv.value) == step.trade.sellerOut.aggregated.value.pub
  {
    KeyExistsFor(h, b, s, Swap);
    AggregatedLog(KeyOf(h, b, s, Swap).value, b.sellerShare, s.sellerShare);
  }

  /** The exchange at the end of the trade is atomic. After any set-up, the
      seller finishes the swap signature unless the adapted nonce is infinity; the
      result is valid under the seller output's key; and every valid signature on
      that nonce, the seller's own included, hands the buyer the seller's share
      and the secret key of the buyer output, just as receiving the share would.
      The buyer's answer then gives the seller the key of the seller output. */
  lemma SwapAtomicity(h: Hashes<Message>, b: Secrets, s: Secrets, final: LiftedSig)
    requires HonestSetup(h, b, s).Ok?
    ensures
      var (tb, ts) := HonestSetup(h, b, s).value;
      && tb.sigs.swap.myPartial.Some? && tb.sellerOut.aggregated.Some? && tb.sigs.swap.aggregatedSig.Some?
      && var (step, answer) := SignSwapTx(h, ts, tb.sigs.swap.myPartial.value);
         var q := tb.sellerOut.aggregated.value.pub;
         var nonce := PAdd(tb.sigs.swap.aggregatedSig.value.r, BaseMul(s.buyerShare));
         && (answer.None? <==> nonce == Infinity)
         && (answer.Some? ==> answer.value.1 == s.buyerShare && Verify(h, q, answer.value.0, MessageOf(Swap)))
         && (answer.Some? && final.r == answer.value.0.r && Verify(h, q, final, MessageOf(Swap)) ==>
               var (closed, share) := CloseTrade(tb, None, Some(final));
               && closed.err.None? && HoldsBuyerOutput(closed.trade, s.buyerShare)
               && CloseTrade(tb, Some(answer.value.1), None) == (closed, share)
               && share == Some(b.sellerShare)
               && CloseTrade(step.trade, share, None).0.err.None?)
  {
    hide *;
    HonestSetupResult(h, b, s);
    var (tb, ts) := HonestSetup(h, b, s).value;
    SwapOutcome(h, b, s, tb, ts, final);
  }

  lemma SwapOutcome(h: Hashes<Message>, b: Secrets, s: Secrets, tb: Trade, ts: Trade, final: LiftedSig)
    requires NonDegenerate(h, b, s) && SetUp(h, true, b, s, tb) && SetUp(h, false, b, s, ts)
    ensures
      && tb.sigs.swap.myPartial.Some? && tb.sellerOut.aggregated.Some? && tb.sigs.swap.aggregatedSig.Some?
      && var (step, answer) := SignSwapTx(h, ts, tb.sigs.swap.myPartial.value);
         var q := tb.sellerOut.aggregated.value.pub;
         var nonce := PAdd(tb.sigs.swap.aggregatedSig.value.r, BaseMul(s.buyerShare));
         && (answer.None? <==> nonce == Infinity)
         && (answer.Some? ==> answer.value.1 == s.buyerShare && Verify(h, q, answer.value.0, MessageOf(Swap)))
         && (answer.Some? && final.r == answer.value.0.r && Verify(h, q, final, MessageOf(Swap)) ==>
               var (closed, share) := CloseTrade(tb, None, Some(final));
               && closed.err.None? && HoldsBuyerOutput(closed.trade, s.buyerShare)
               && CloseTrade(tb, Some(answer.value.1), None) == (closed, share)
               && share == Some(b.sellerShare)
               && CloseTrade(step.trade, share, None).0.err.None?)
  {
    hide PartialOf, AggregateOf, Verify, VerifyAdaptor, SignSwapTx, CloseTrade, KeyOf, SetUp, NonDegenerate;
    SetUpKeys(h, true, b, s, tb);
    SetUpCtx(h, true, b, s, tb, Swap);
    SwapField(tb);
    SwapIsAdaptor(h, b, s);
    SellerCompletesSwap(h, b, s, ts);
    var agg, q := AggregateOf(h, b, s, Swap).value, KeyOf(h, b, s, Swap).value.pubkey;
    AdaptVerifies(h, q, agg, MessageOf(Swap), s.buyerShare);
    var (step, answer) := SignSwapTx(h, ts, tb.sigs.swap.myPartial.value);
    if answer.Some? && final.r == answer.value.0.r && Verify(h, q, final, MessageOf(Swap)) {
      BuyerRecovers(h, b, s, tb, final);
      SetUpHasKeys(h, b, s, ts);
      SellerCloses(h, b, s, step.trade);
    }
  }

  lemma SetUpHasKeys(h: Hashes<Message>, b: Secrets, s: Secrets, t: Trade)
    requires SetUp(h, false, b, s, t)
    ensures HasKeys(h, false, b, s, t)
    ensures forall sigs :: HasKeys(h, false, b, s, t.(sigs := sigs))
  {
  }

  // ------------------------------------------- the swap aggregate at the buyer

  /** The point a signature with these nonces and this adaptor must have under key q. */
  ghost function Target(h: Hashes<Message>, q: Point, agg: PubNonce, adaptor: Point, m: Message): Point {
    var s := SessionOf(h, q, agg, adaptor, m);
    PAdd(PNegIf(s.odd, s.final), PMul(s.e, h.Even(q)))
  }

  /** AggregateSwapPartials takes the key of the caller's own output, but both
      partial signatures were made under the seller output's key. Called by the
      buyer of an honest trade it succeeds exactly when the two keys ask for the
      same signature point. */
  lemma BuyersSwapAggregation(h: Hashes<Message>, b: Secrets, s: Secrets)
    requires HonestSetup(h, b, s).Ok?
    ensures
      var tb := HonestSetup(h, b, s).value.0;
      && tb.buyerOut.aggregated.Some? && tb.sellerOut.aggregated.Some?
      && (tb.AggregateSwapPartials(h).err.None? <==>
          Target(h, tb.buyerOut.aggregated.value.pub, NonceOf(b, s, Swap), BaseMul(s.buyerShare), MessageOf(Swap))
          == Target(h, tb.sellerOut.aggregated.value.pub, NonceOf(b, s, Swap), BaseMul(s.buyerShare), MessageOf(Swap)))
  {
    hide *;
    HonestSetupResult(h, b, s);
    BuyersSwapOutcome(h, b, s, HonestSetup(h, b, s).value.0);
  }

  lemma BuyersSwapOutcome(h: Hashes<Message>, b: Secrets, s: Secrets, tb: Trade)
    requires NonDegenerate(h, b, s) && SetUp(h, true, b, s, tb)
    ensures
      && tb.buyerOut.aggregated.Some? && tb.sellerOut.aggregated.Some?
      && (tb.AggregateSwapPartials(h).err.None? <==>
          Target(h, tb.buyerOut.aggregated.value.pub, NonceOf(b, s, Swap), BaseMul(s.buyerShare), MessageOf(Swap))
          == Target(h, tb.sellerOut.aggregated.value.pub, NonceOf(b, s, Swap), BaseMul(s.buyerShare), MessageOf(Swap)))
  {
    hide SetUp, NonDegenerate, KeyOf, PartialOf, NonceSum, SessionOf, PMul, Target, AggregatePartials;
    SetUpKeys(h, true, b, s, tb);
    SwapIsAdaptor(h, b, s);
    SwapCtx(h, b, s, tb);
    SwapTargetMet(h, b, s);
    KeysAreUntweaked(h, b, s);
    UnderOtherKey(h, KeyOf(h, b, s, BuyersRedirect).value, NonceOf(b, s, Swap), BaseMul(s.buyerShare),
                  PartialOf(h, true, b, s, Swap), PartialOf(h, false, b, s, Swap), MessageOf(Swap));
  }

  lemma SwapCtx(h: Hashes<Message>, b: Secrets, s: Secrets, tb: Trade)
    requires SetUp(h, true, b, s, tb)
    ensures KeyOf(h, b, s, Swap).Ok? && tb.sigs.swap == FinishedCtx(h, true, b, s, Swap)
  {
    hide FinishedCtx, SignedCtx;
    assert tb.sigs.Get(Swap) == FinishedCtx(h, true, b, s, Swap) by {
      InCompletes(Swap);
    }
  }

  lemma KeysAreUntweaked(h: Hashes<Message>, b: Secrets, s: Secrets)
    requires KeyOf(h, b, s, BuyersRedirect).Ok?
    ensures KeyOf(h, b, s, BuyersRedirect).value.tweak == 0
  {
  }

  lemma UnderOtherKey(h: Hashes<Message>, ctx: KeyAggCtx, agg: PubNonce, adaptor: Point, s1: Scalar, s2: Scalar,
                      m: Message)
    requires ctx.tweak == 0
    ensures AggregatePartials(h, ctx, agg, adaptor, s1, s2, m).Ok? <==>
            BaseMul(Add(s1, s2)) == Target(h, ctx.pubkey, agg, adaptor, m)
  {
    MulZero(SessionOf(h, ctx.pubkey, agg, adaptor, m).e);
  }

  lemma SwapTargetMet(h: Hashes<Message>, b: Secrets, s: Secrets)
    requires NonDegenerate(h, b, s)
    ensures KeyOf(h, b, s, Swap).Ok?
    ensures BaseMul(Add(PartialOf(h, true, b, s, Swap), PartialOf(h, false, b, s, Swap)))
            == Target(h, KeyOf(h, b, s, Swap).value.pubkey, NonceOf(b, s, Swap), BaseMul(s.buyerShare), MessageOf(Swap))
  {
    hide PartialOf;
    SwapIsAdaptor(h, b, s);
    UnderOtherKey(h, KeyOf(h, b, s, Swap).value, NonceOf(b, s, Swap), BaseMul(s.buyerShare),
                  PartialOf(h, true, b, s, Swap), PartialOf(h, false, b, s, Swap), MessageOf(Swap));
  }

  // A group of order at least 7, constant hashes, and keys 2 and 3: the buyer's call fails.
  function SampleHashes(): Hashes<Message> {
    Hashes((p: Point, q: Point, r: Point) => 1, (n: PubNonce, q: Point, m: Message) => 0,
           (r: Point, q: Point, m: Message) => 1, (q: Point) => 0, (q: Point) => false)
  }

  function SampleSecrets(sellerShare: SecKey): Secrets {
    var n := SecNonce(Placeholder, 1, 1);
    Secrets(1, sellerShare, Seven(n, n, n, n, n, n, n))
  }

  lemma SampleNonces(id: SigId)
    requires N >= 7
    ensures NonceOf(SampleSecrets(1), SampleSecrets(2), id) == PubNonce(Point(2), Point(2))
  {
  }

  lemma SampleProducts(k: Scalar)
    ensures Mul(1, k) == k && Mul(0, k) == 0
  {
    assert Mul(1, k) == Add(k, Mul(0, k));
  }

  lemma SampleKeys()
    requires N >= 7
    ensures
      var h, b, s := SampleHashes(), SampleSecrets(1), SampleSecrets(2);
      && KeyOf(h, b, s, Swap).Ok? && KeyOf(h, b, s, Swap).value.pubkey == Point(3)
      && KeyOf(h, b, s, BuyersRedirect).Ok? && KeyOf(h, b, s, BuyersRedirect).value.pubkey == Point(2)
  {
    SampleProducts(1);
    SampleProducts(2);
  }

  lemma SampleTargets()
    requires N >= 7
    ensures
      var h, nonces := SampleHashes(), PubNonce(Point(2), Point(2));
      Target(h, Point(2), nonces, Point(1), MessageOf(Swap)) != Target(h, Point(3), nonces, Point(1), MessageOf(Swap))
  {
    SampleProducts(2);
    SampleProducts(3);
  }

  lemma SampleSums(id: SigId)
    requires N >= 7
    ensures KeyOf(SampleHashes(), SampleSecrets(1), SampleSecrets(2), id).Ok?
    ensures NonceSumExists(SampleHashes(), SampleSecrets(1), SampleSecrets(2), id)
  {
    SampleKeys();
    KeyExistsFor(SampleHashes(), SampleSecrets(1), SampleSecrets(2), id);
    SampleNonces(id);
    SampleProducts(2);
    hide KeyOf, NonceOf;
  }

  lemma BuyersSwapAggregationCanFail()
    requires N >= 7
    ensures
      var h, b, s := SampleHashes(), SampleSecrets(1), SampleSecrets(2);
      && HonestSetup(h, b, s).Ok?
      && HonestSetup(h, b, s).value.0.AggregateSwapPartials(h).err.Some?
  {
    hide HonestSetup, KeyOf, NonceOf, NonceSumExists, Target, SetUp, Trade.AggregateSwapPartials;
    var h, b, s := SampleHashes(), SampleSecrets(1), SampleSecrets(2);
    SampleKeys();
    forall id ensures KeyOf(h, b, s, id).Ok? && NonceSumExists(h, b, s, id) {
      SampleSums(id);
    }
    HonestSetupResult(h, b, s);
    SampleNonces(Swap);
    SampleTargets();
    BuyersSwapAggregation(h, b, s);
    SetUpKeys(h, true, b, s, HonestSetup(h, b, s).value.0);
  }
}
