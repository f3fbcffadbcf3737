/** One party's view of a trade: two output keys, seven inputs to sign, and the
    calls that advance them. Trade is the state as a value, TradeModel the object. */
module TradeModels {
  import opened Results
  import opened Scalars
  import opened Musig
  import opened TradeContexts

  datatype SigId =
    | Swap
    | BuyersWarnBuyerIn | BuyersWarnSellerIn
    | SellersWarnBuyerIn | SellersWarnSellerIn
    | BuyersRedirect | SellersRedirect

  datatype Seven<+T> = Seven(
    swap: T,
    buyersWarnBuyerIn: T, buyersWarnSellerIn: T,
    sellersWarnBuyerIn: T, sellersWarnSellerIn: T,
    buyersRedirect: T, sellersRedirect: T
  ) {
    function Get(id: SigId): T {
      match id
      case Swap => swap
      case BuyersWarnBuyerIn => buyersWarnBuyerIn
      case BuyersWarnSellerIn => buyersWarnSellerIn
      case SellersWarnBuyerIn => sellersWarnBuyerIn
      case SellersWarnSellerIn => sellersWarnSellerIn
      case BuyersRedirect => buyersRedirect
      case SellersRedirect => sellersRedirect
    }
  }

  function Put<T>(s: Seven<T>, id: SigId, value: T): (r: Seven<T>)
    ensures forall other :: r.Get(other) == if other == id then value else s.Get(other)
  {
    match id
    case Swap => s.(swap := value)
    case BuyersWarnBuyerIn => s.(buyersWarnBuyerIn := value)
    case BuyersWarnSellerIn => s.(buyersWarnSellerIn := value)
    case SellersWarnBuyerIn => s.(sellersWarnBuyerIn := value)
    case SellersWarnSellerIn => s.(sellersWarnSellerIn := value)
    case BuyersRedirect => s.(buyersRedirect := value)
    case SellersRedirect => s.(sellersRedirect := value)
  }

  lemma OnlyAt<T>(s: Seven<T>, r: Seven<T>, id: SigId)
    requires forall other :: other != id ==> r.Get(other) == s.Get(other)
    ensures r == Put(s, id, r.Get(id))
  {
    var p := Put(s, id, r.Get(id));
    assert forall other :: p.Get(other) == r.Get(other);
    SameEverywhere(p, r);
  }

  lemma SameEverywhere<T>(s: Seven<T>, r: Seven<T>)
    requires forall id :: s.Get(id) == r.Get(id)
    ensures s == r
  {
    assert s.Get(Swap) == r.Get(Swap);
    assert s.Get(BuyersWarnBuyerIn) == r.Get(BuyersWarnBuyerIn)
           && s.Get(BuyersWarnSellerIn) == r.Get(BuyersWarnSellerIn);
    assert s.Get(SellersWarnBuyerIn) == r.Get(SellersWarnBuyerIn)
           && s.Get(SellersWarnSellerIn) == r.Get(SellersWarnSellerIn);
    assert s.Get(BuyersRedirect) == r.Get(BuyersRedirect) && s.Get(SellersRedirect) == r.Get(SellersRedirect);
  }

  /** Which of the two aggregated keys locks the output this input spends. */
  predicate UsesBuyerOutput(id: SigId) {
    id.BuyersWarnBuyerIn? || id.SellersWarnBuyerIn? || id.BuyersRedirect?
  }

  function MessageOf(id: SigId): Message {
    match id
    case Swap => "swap tx input"
    case BuyersWarnBuyerIn => "buyer's warning tx buyer input"
    case BuyersWarnSellerIn => "buyer's warning tx seller input"
    case SellersWarnBuyerIn => "seller's warning tx buyer input"
    case SellersWarnSellerIn => "seller's warning tx seller input"
    case BuyersRedirect => "buyer's redirect tx input"
    case SellersRedirect => "seller's redirect tx input"
  }

  /** Partial signatures on the receiver's own transactions. The one on the swap
      transaction may have been held back on the way. */
  datatype ExchangedSigs = ExchangedSigs(
    warnBuyerIn: Scalar, warnSellerIn: Scalar, redirect: Scalar, swap: Option<Scalar>)

  datatype SigOp = InitNonce(nonces: Seven<SecNonce>) | AggregateNonces | Sign | AggregateSigs

  datatype Trade = Trade(amBuyer: bool, buyerOut: KeyState, sellerOut: KeyState, sigs: Seven<SigState>) {
    function KeyFor(id: SigId): KeyState {
      if UsesBuyerOutput(id) then buyerOut else sellerOut
    }

    function Apply(h: Hashes<Message>, id: SigId, op: SigOp): (SigState, Option<Failure>) {
      match op
      case InitNonce(nonces) => sigs.Get(id).InitMyNonceShare(KeyFor(id), nonces.Get(id))
      case AggregateNonces => sigs.Get(id).AggregateNonceShares()
      case Sign => sigs.Get(id).SignPartial(h, KeyFor(id), MessageOf(id))
      case AggregateSigs => sigs.Get(id).AggregatePartialSignatures(h, KeyFor(id))
    }

    function InitMyKeyShares(buyerShare: SecKey, sellerShare: SecKey): Trade {
      this.(buyerOut := buyerOut.(mine := Some(buyerShare)),
            sellerOut := sellerOut.(mine := Some(sellerShare)),
            sigs := if amBuyer then sigs else sigs.(swap := sigs.swap.(adaptor := BaseMul(buyerShare))))
    }

    function MyKeyShares(): Option<(Point, Point)> {
      if buyerOut.mine.None? || sellerOut.mine.None? then None
      else Some((BaseMul(buyerOut.mine.value), BaseMul(sellerOut.mine.value)))
    }

    function SetPeerKeyShares(buyerOutput: Point, sellerOutput: Point): Trade {
      this.(buyerOut := buyerOut.(peers := Some(KeyPair(buyerOutput, None))),
            sellerOut := sellerOut.(peers := Some(KeyPair(sellerOutput, None))),
            sigs := if amBuyer then sigs.(swap := sigs.swap.(adaptor := buyerOutput)) else sigs)
    }

    function AggregateKeyShares(h: Hashes<Message>): Step {
      var (b, err) := buyerOut.AggregateKeyShares(h);
      if err.Some? then Step(this.(buyerOut := b), err)
      else
        var (s, err') := sellerOut.AggregateKeyShares(h);
        Step(this.(buyerOut := b, sellerOut := s), err')
    }

    function InitMyNonceShares(h: Hashes<Message>, nonces: Seven<SecNonce>): Step {
      Chain(Step(this, None), h, BY_KEY, InitNonce(nonces))
    }

    function MyNonceShares(): Option<Seven<PubNonce>> {
      if || sigs.swap.mine.None?
         || sigs.buyersWarnBuyerIn.mine.None? || sigs.buyersWarnSellerIn.mine.None?
         || sigs.sellersWarnBuyerIn.mine.None? || sigs.sellersWarnSellerIn.mine.None?
         || sigs.buyersRedirect.mine.None? || sigs.sellersRedirect.mine.None?
      then None
      else Some(Seven(sigs.swap.mine.value.pub,
                      sigs.buyersWarnBuyerIn.mine.value.pub, sigs.buyersWarnSellerIn.mine.value.pub,
                      sigs.sellersWarnBuyerIn.mine.value.pub, sigs.sellersWarnSellerIn.mine.value.pub,
                      sigs.buyersRedirect.mine.value.pub, sigs.sellersRedirect.mine.value.pub))
    }

    function SetPeerNonceShares(n: Seven<PubNonce>): Trade {
      this.(sigs := Seven(sigs.swap.(peersNonce := Some(n.swap)),
                          sigs.buyersWarnBuyerIn.(peersNonce := Some(n.buyersWarnBuyerIn)),
                          sigs.buyersWarnSellerIn.(peersNonce := Some(n.buyersWarnSellerIn)),
                          sigs.sellersWarnBuyerIn.(peersNonce := Some(n.sellersWarnBuyerIn)),
                          sigs.sellersWarnSellerIn.(peersNonce := Some(n.sellersWarnSellerIn)),
                          sigs.buyersRedirect.(peersNonce := Some(n.buyersRedirect)),
                          sigs.sellersRedirect.(peersNonce := Some(n.sellersRedirect))))
    }

    function AggregateNonceShares(h: Hashes<Message>): Step {
      Chain(Step(this, None), h, BY_TX, AggregateNonces)
    }

    function SignPartial(h: Hashes<Message>): Step {
      Chain(Step(this, None), h, BY_KEY, Sign)
    }

    function MyPartialSignaturesOnPeerTxs(): Option<ExchangedSigs> {
      var w1 := if amBuyer then sigs.sellersWarnBuyerIn.myPartial else sigs.buyersWarnBuyerIn.myPartial;
      var w2 := if amBuyer then sigs.sellersWarnSellerIn.myPartial else sigs.buyersWarnSellerIn.myPartial;
      var r := if amBuyer then sigs.sellersRedirect.myPartial else sigs.buyersRedirect.myPartial;
      if w1.None? || w2.None? || r.None? || sigs.swap.myPartial.None? then None
      else Some(ExchangedSigs(w1.value, w2.value, r.value, sigs.swap.myPartial))
    }

    function SetPeerPartialSignaturesOnMyTxs(p: ExchangedSigs): Trade {
      this.(sigs :=
        if amBuyer then
          sigs.(buyersWarnBuyerIn := sigs.buyersWarnBuyerIn.(peersPartial := Some(p.warnBuyerIn)),
                buyersWarnSellerIn := sigs.buyersWarnSellerIn.(peersPartial := Some(p.warnSellerIn)),
                buyersRedirect := sigs.buyersRedirect.(peersPartial := Some(p.redirect)),
                swap := sigs.swap.(peersPartial := p.swap))
        else
          sigs.(sellersWarnBuyerIn := sigs.sellersWarnBuyerIn.(peersPartial := Some(p.warnBuyerIn)),
                sellersWarnSellerIn := sigs.sellersWarnSellerIn.(peersPartial := Some(p.warnSellerIn)),
                sellersRedirect := sigs.sellersRedirect.(peersPartial := Some(p.redirect)),
                swap := sigs.swap.(peersPartial := p.swap)))
    }

    /** The buyer also forms the adaptor signature on the swap transaction; the seller does not. */
    function AggregatePartialSignatures(h: Hashes<Message>): Step {
      Chain(Step(this, None), h, if amBuyer then BUYERS else SELLERS, AggregateSigs)
    }

    function SetSwapPeersPartial(sig: Scalar): Trade {
      this.(sigs := sigs.(swap := sigs.swap.(peersPartial := Some(sig))))
    }

    /** The key context is the one of the caller's own output. The swap input was
        signed under the seller output's key, so this is meant for the seller. */
    function AggregateSwapPartials(h: Hashes<Message>): Step {
      var (c, err) := sigs.swap.AggregatePartialSignatures(h, if amBuyer then buyerOut else sellerOut);
      Step(this.(sigs := sigs.(swap := c)), err)
    }

    function MyPrvKeyShareForPeerOutput(): Option<SecKey> {
      if amBuyer then sellerOut.mine else buyerOut.mine
    }

    function SetPeerPrvKeyShareForMyOutput(prvKey: Scalar): Step {
      if amBuyer then
        var (k, err) := buyerOut.SetPeersPrvKey(prvKey);
        Step(this.(buyerOut := k), err)
      else
        var (k, err) := sellerOut.SetPeersPrvKey(prvKey);
        Step(this.(sellerOut := k), err)
    }

    function AggregatePrvKeysForMyOutput(): Step {
      if amBuyer then
        var (k, err) := buyerOut.AggregatePrvKeyShares();
        Step(this.(buyerOut := k), err)
      else
        var (k, err) := sellerOut.AggregatePrvKeyShares();
        Step(this.(sellerOut := k), err)
    }

    function ComputeSwapSignature(h: Hashes<Message>): Result<LiftedSig, Failure> {
      if sigs.swap.aggregatedSig.None? then Err(MissingAggSig)
      else
        var secret := buyerOut.SellersPrvKey();
        if secret.None? then Err(MissingKeyShare)
        else
          var sig := Adapt(h, sigs.swap.aggregatedSig.value, secret.value);
          if sig.None? then Err(ZeroNonce) else Ok(sig.value)
    }

    function RecoverSellersPrvKeyShare(final: LiftedSig): Step {
      if sigs.swap.aggregatedSig.None? then Step(this, Some(MissingAggSig))
      else
        var secret := Reveal(sigs.swap.aggregatedSig.value, final);
        if secret.None? then Step(this, Some(MismatchedSigs))
        else if secret.value == 0 then Step(this, Some(ZeroScalar))
        else
          var (k, err) := buyerOut.SetSellersPrvKeyIfBuyer(secret.value);
          Step(this.(buyerOut := k), err)
    }
  }

  /** A state, and the error that stops all further work of the call. */
  datatype Step = Step(trade: Trade, err: Option<Failure>) {
    function On(h: Hashes<Message>, id: SigId, op: SigOp): Step {
      if err.Some? then this
      else
        var (c, e) := trade.Apply(h, id, op);
        Step(trade.(sigs := Put(trade.sigs, id, c)), e)
    }
  }

  /** The same operation on one context after the other. */
  function Chain(s: Step, h: Hashes<Message>, ids: seq<SigId>, op: SigOp): Step
    decreases |ids|, s
  {
    if ids == [] then s else Chain(s.On(h, ids[0], op), h, ids[1..], op)
  }

  lemma ChainOfSeven(s: Step, h: Hashes<Message>, ids: seq<SigId>, op: SigOp)
    requires |ids| == 7
    ensures Chain(s, h, ids, op)
         == s.On(h, ids[0], op).On(h, ids[1], op).On(h, ids[2], op).On(h, ids[3], op)
             .On(h, ids[4], op).On(h, ids[5], op).On(h, ids[6], op)
  {
    var s1 := s.On(h, ids[0], op);
    var s2 := s1.On(h, ids[1], op);
    var s3 := s2.On(h, ids[2], op);
    var s4 := s3.On(h, ids[3], op);
    var s5 := s4.On(h, ids[4], op);
    assert Chain(s, h, ids, op) == Chain(s1, h, ids[1..], op);
    assert ids[1..][1..] == ids[2..] && ids[2..][1..] == ids[3..] && ids[3..][1..] == ids[4..];
    assert ids[4..][1..] == ids[5..] && ids[5..][1..] == ids[6..] && ids[6..][1..] == [];
    assert Chain(s2, h, ids[2..], op) == Chain(s3, h, ids[3..], op) == Chain(s4, h, ids[4..], op);
    var s6 := s5.On(h, ids[5], op);
    assert Chain(s4, h, ids[4..], op) == Chain(s5, h, ids[5..], op) == Chain(s6, h, ids[6..], op);
    assert Chain(s6, h, ids[6..], op) == Chain(s6.On(h, ids[6], op), h, [], op);
  }

  // The order of drawing and of signing: first the inputs locked by the buyer output's key.
  const BY_KEY: seq<SigId> :=
    [BuyersWarnBuyerIn, SellersWarnBuyerIn, BuyersRedirect, Swap, BuyersWarnSellerIn, SellersWarnSellerIn,
     SellersRedirect]

  const BY_TX: seq<SigId> :=
    [Swap, BuyersWarnBuyerIn, BuyersWarnSellerIn, SellersWarnBuyerIn, SellersWarnSellerIn, BuyersRedirect,
     SellersRedirect]

  // The inputs whose signatures each party completes before the deposit.
  const BUYERS: seq<SigId> := [BuyersWarnBuyerIn, BuyersWarnSellerIn, BuyersRedirect, Swap]
  const SELLERS: seq<SigId> := [SellersWarnBuyerIn, SellersWarnSellerIn, SellersRedirect]

  lemma ChainOfMine(s: Step, h: Hashes<Message>, op: SigOp)
    ensures Chain(s, h, BUYERS, op)
         == s.On(h, BuyersWarnBuyerIn, op).On(h, BuyersWarnSellerIn, op).On(h, BuyersRedirect, op).On(h, Swap, op)
    ensures Chain(s, h, SELLERS, op)
         == s.On(h, SellersWarnBuyerIn, op).On(h, SellersWarnSellerIn, op).On(h, SellersRedirect, op)
  {
    {
      var s1 := s.On(h, BUYERS[0], op);
      var s2 := s1.On(h, BUYERS[1], op);
      var s3 := s2.On(h, BUYERS[2], op);
      assert BUYERS[1..] == [BuyersWarnSellerIn, BuyersRedirect, Swap];
      assert BUYERS[1..][1..] == [BuyersRedirect, Swap] && BUYERS[1..][1..][1..] == [Swap];
      assert Chain(s1, h, BUYERS[1..], op) == Chain(s2, h, [BuyersRedirect, Swap], op) == Chain(s3, h, [Swap], op);
      assert Chain(s3, h, [Swap], op) == Chain(s3.On(h, Swap, op), h, [], op);
    }
    {
      var s1 := s.On(h, SELLERS[0], op);
      var s2 := s1.On(h, SELLERS[1], op);
      assert SELLERS[1..] == [SellersWarnSellerIn, SellersRedirect];
      assert SELLERS[1..][1..] == [SellersRedirect];
      assert Chain(s1, h, SELLERS[1..], op) == Chain(s2, h, [SellersRedirect], op);
      assert Chain(s2, h, [SellersRedirect], op) == Chain(s2.On(h, SellersRedirect, op), h, [], op);
    }
  }

  /** The order of the single calls: the buyer output's key is aggregated first;
      drawing and signing go through the inputs locked by it and then through the
      others, summing goes through the transactions, and each stops at the first
      failure. */
  lemma InSourceOrder(t: Trade, h: Hashes<Message>, nonces: Seven<SecNonce>)
    ensures
      var s := t.AggregateKeyShares(h);
      var b, other := t.buyerOut.AggregateKeyShares(h), t.sellerOut.AggregateKeyShares(h);
      && s.trade.buyerOut == b.0 && s.trade.sigs == t.sigs && s.trade.amBuyer == t.amBuyer
      && (b.1.Some? ==> s.err == b.1 && s.trade.sellerOut == t.sellerOut)
      && (b.1.None? ==> s.err == other.1 && s.trade.sellerOut == other.0)
    ensures
      var draw := InitNonce(nonces);
      t.InitMyNonceShares(h, nonces)
      == Step(t, None).On(h, BuyersWarnBuyerIn, draw).On(h, SellersWarnBuyerIn, draw).On(h, BuyersRedirect, draw)
                      .On(h, Swap, draw).On(h, BuyersWarnSellerIn, draw).On(h, SellersWarnSellerIn, draw)
                      .On(h, SellersRedirect, draw)
    ensures
      t.SignPartial(h)
      == Step(t, None).On(h, BuyersWarnBuyerIn, Sign).On(h, SellersWarnBuyerIn, Sign).On(h, BuyersRedirect, Sign)
                      .On(h, Swap, Sign).On(h, BuyersWarnSellerIn, Sign).On(h, SellersWarnSellerIn, Sign)
                      .On(h, SellersRedirect, Sign)
    ensures
      var sum := AggregateNonces;
      t.AggregateNonceShares(h)
      == Step(t, None).On(h, Swap, sum).On(h, BuyersWarnBuyerIn, sum).On(h, BuyersWarnSellerIn, sum)
                      .On(h, SellersWarnBuyerIn, sum).On(h, SellersWarnSellerIn, sum).On(h, BuyersRedirect, sum)
                      .On(h, SellersRedirect, sum)
    ensures
      var join := AggregateSigs;
      t.AggregatePartialSignatures(h)
      == if t.amBuyer then
           Step(t, None).On(h, BuyersWarnBuyerIn, join).On(h, BuyersWarnSellerIn, join).On(h, BuyersRedirect, join)
                        .On(h, Swap, join)
         else
           Step(t, None).On(h, SellersWarnBuyerIn, join).On(h, SellersWarnSellerIn, join).On(h, SellersRedirect, join)
  {
    hide Step.On;
    ChainOfSeven(Step(t, None), h, BY_KEY, InitNonce(nonces));
    ChainOfSeven(Step(t, None), h, BY_KEY, Sign);
    ChainOfSeven(Step(t, None), h, BY_TX, AggregateNonces);
    ChainOfMine(Step(t, None), h, AggregateSigs);
  }

  function NewTrade(amBuyer: bool): Trade {
    var key := NEW_KEY.(amBuyer := amBuyer);
    var sig := NEW_SIG.(amBuyer := amBuyer);
    Trade(amBuyer, key, key, Seven(sig, sig, sig, sig, sig, sig, sig))
  }

  class TradeModel {
    const amBuyer: bool
    const buyerOut: KeyCtx
    const sellerOut: KeyCtx
    const swap: SigCtx
    const buyersWarnBuyerIn: SigCtx
    const buyersWarnSellerIn: SigCtx
    const sellersWarnBuyerIn: SigCtx
    const sellersWarnSellerIn: SigCtx
    const buyersRedirect: SigCtx
    const sellersRedirect: SigCtx

    ghost const Keys: set<KeyCtx> := {buyerOut, sellerOut}
    ghost const Sigs: set<SigCtx> :=
      {swap, buyersWarnBuyerIn, buyersWarnSellerIn, sellersWarnBuyerIn, sellersWarnSellerIn, buyersRedirect,
       sellersRedirect}

    function At(id: SigId): SigCtx {
      match id
      case Swap => swap
      case BuyersWarnBuyerIn => buyersWarnBuyerIn
      case BuyersWarnSellerIn => buyersWarnSellerIn
      case SellersWarnBuyerIn => sellersWarnBuyerIn
      case SellersWarnSellerIn => sellersWarnSellerIn
      case BuyersRedirect => buyersRedirect
      case SellersRedirect => sellersRedirect
    }

    /** The nine contexts are separate objects. */
    ghost predicate Valid() {
      && buyerOut != sellerOut
      && swap !in {buyersWarnBuyerIn, buyersWarnSellerIn, sellersWarnBuyerIn, sellersWarnSellerIn, buyersRedirect,
                   sellersRedirect}
      && buyersWarnBuyerIn !in {buyersWarnSellerIn, sellersWarnBuyerIn, sellersWarnSellerIn, buyersRedirect,
                                sellersRedirect}
      && buyersWarnSellerIn !in {sellersWarnBuyerIn, sellersWarnSellerIn, buyersRedirect, sellersRedirect}
      && sellersWarnBuyerIn !in {sellersWarnSellerIn, buyersRedirect, sellersRedirect}
      && sellersWarnSellerIn !in {buyersRedirect, sellersRedirect}
      && buyersRedirect != sellersRedirect
    }

    ghost function Value(): Trade
      reads Keys, Sigs
    {
      Trade(amBuyer, buyerOut.Value(), sellerOut.Value(),
            Seven(swap.Value(), buyersWarnBuyerIn.Value(), buyersWarnSellerIn.Value(),
                  sellersWarnBuyerIn.Value(), sellersWarnSellerIn.Value(),
                  buyersRedirect.Value(), sellersRedirect.Value()))
    }

    constructor (amBuyer: bool)
      ensures Valid() && fresh(Keys) && fresh(Sigs)
      ensures Value() == NewTrade(amBuyer)
    {
      this.amBuyer := amBuyer;
      buyerOut := new KeyCtx(amBuyer);
      sellerOut := new KeyCtx(amBuyer);
      swap := new SigCtx(amBuyer);
      buyersWarnBuyerIn := new SigCtx(amBuyer);
      buyersWarnSellerIn := new SigCtx(amBuyer);
      sellersWarnBuyerIn := new SigCtx(amBuyer);
      sellersWarnSellerIn := new SigCtx(amBuyer);
      buyersRedirect := new SigCtx(amBuyer);
      sellersRedirect := new SigCtx(amBuyer);
    }

    method InitMyKeyShares(buyerShare: SecKey, sellerShare: SecKey)
      requires Valid()
      modifies Keys, swap
      ensures Value() == old(Value()).InitMyKeyShares(buyerShare, sellerShare)
    {
      var buyerPub := buyerOut.InitMyKeyShare(buyerShare);
      var _ := sellerOut.InitMyKeyShare(sellerShare);
      if !amBuyer {
        swap.adaptor := buyerPub;
      }
    }

    method MyKeyShares() returns (r: Option<(Point, Point)>)
      requires Valid()
      ensures r == Value().MyKeyShares()
    {
      if buyerOut.mine.None? || sellerOut.mine.None? {
        return None;
      }
      r := Some((BaseMul(buyerOut.mine.value), BaseMul(sellerOut.mine.value)));
    }

    method SetPeerKeyShares(buyerOutput: Point, sellerOutput: Point)
      requires Valid()
      modifies Keys, swap
      ensures Value() == old(Value()).SetPeerKeyShares(buyerOutput, sellerOutput)
    {
      buyerOut.SetPeersKeyShare(buyerOutput);
      sellerOut.SetPeersKeyShare(sellerOutput);
      if amBuyer {
        swap.adaptor := buyerOutput;
      }
    }

    method AggregateKeyShares(h: Hashes<Message>) returns (err: Option<Failure>)
      requires Valid()
      modifies Keys
      ensures Step(Value(), err) == old(Value()).AggregateKeyShares(h)
    {
      err := buyerOut.AggregateKeyShares(h);
      if err.None? {
        err := sellerOut.AggregateKeyShares(h);
      }
    }

    /** One operation on one signing context, with the key that locks its input. */
    method On(h: Hashes<Message>, id: SigId, op: SigOp) returns (err: Option<Failure>)
      requires Valid()
      modifies Sigs
      ensures Step(Value(), err) == Step(old(Value()), None).On(h, id, op)
    {
      hide SigState.InitMyNonceShare, SigState.AggregateNonceShares, SigState.SignPartial,
           SigState.AggregatePartialSignatures;
      GetIsAt();
      ghost var before := Value().sigs;
      var ctx, key := At(id), if UsesBuyerOutput(id) then buyerOut else sellerOut;
      match op {
        case InitNonce(nonces) => err := ctx.InitMyNonceShare(key, nonces.Get(id));
        case AggregateNonces => err := ctx.AggregateNonceShares();
        case Sign => err := ctx.SignPartial(h, key, MessageOf(id));
        case AggregateSigs => err := ctx.AggregatePartialSignatures(h, key);
      }
      GetIsAt();
      forall other | other != id ensures Value().sigs.Get(other) == before.Get(other) {
        assert At(other) != ctx && At(other).Value() == old(At(other).Value());
      }
      OnlyAt(before, Value().sigs, id);
    }

    lemma GetIsAt()
      requires Valid()
      ensures forall id :: Value().sigs.Get(id) == At(id).Value()
      ensures forall id, other :: id != other ==> At(id) != At(other)
    {
    }

    method InitMyNonceShares(h: Hashes<Message>, nonces: Seven<SecNonce>) returns (err: Option<Failure>)
      requires Valid()
      modifies Sigs
      ensures Step(Value(), err) == old(Value()).InitMyNonceShares(h, nonces)
    {
      ChainOfSeven(Step(Value(), None), h, BY_KEY, InitNonce(nonces));
      err := On(h, BuyersWarnBuyerIn, InitNonce(nonces));
      if err.Some? { return; }
      err := On(h, SellersWarnBuyerIn, InitNonce(nonces));
      if err.Some? { return; }
      err := On(h, BuyersRedirect, InitNonce(nonces));
      if err.Some? { return; }
      err := On(h, Swap, InitNonce(nonces));
      if err.Some? { return; }
      err := On(h, BuyersWarnSellerIn, InitNonce(nonces));
      if err.Some? { return; }
      err := On(h, SellersWarnSellerIn, InitNonce(nonces));
      if err.Some? { return; }
      err := On(h, SellersRedirect, InitNonce(nonces));
    }

    method MyNonceShares() returns (r: Option<Seven<PubNonce>>)
      requires Valid()
      ensures r == Value().MyNonceShares()
    {
      if || swap.mine.None?
         || buyersWarnBuyerIn.mine.None? || buyersWarnSellerIn.mine.None?
         || sellersWarnBuyerIn.mine.None? || sellersWarnSellerIn.mine.None?
         || buyersRedirect.mine.None? || sellersRedirect.mine.None?
      {
        return None;
      }
      r := Some(Seven(swap.mine.value.pub,
                      buyersWarnBuyerIn.mine.value.pub, buyersWarnSellerIn.mine.value.pub,
                      sellersWarnBuyerIn.mine.value.pub, sellersWarnSellerIn.mine.value.pub,
                      buyersRedirect.mine.value.pub, sellersRedirect.mine.value.pub));
    }

    method SetPeerNonceShares(n: Seven<PubNonce>)
      requires Valid()
      modifies Sigs
      ensures Value() == old(Value()).SetPeerNonceShares(n)
    {
      swap.peersNonce := Some(n.swap);
      buyersWarnBuyerIn.peersNonce := Some(n.buyersWarnBuyerIn);
      buyersWarnSellerIn.peersNonce := Some(n.buyersWarnSellerIn);
      sellersWarnBuyerIn.peersNonce := Some(n.sellersWarnBuyerIn);
      sellersWarnSellerIn.peersNonce := Some(n.sellersWarnSellerIn);
      buyersRedirect.peersNonce := Some(n.buyersRedirect);
      sellersRedirect.peersNonce := Some(n.sellersRedirect);
    }

    method AggregateNonceShares(h: Hashes<Message>) returns (err: Option<Failure>)
      requires Valid()
      modifies Sigs
      ensures Step(Value(), err) == old(Value()).AggregateNonceShares(h)
    {
      ChainOfSeven(Step(Value(), None), h, BY_TX, AggregateNonces);
      err := On(h, Swap, AggregateNonces);
      if err.Some? { return; }
      err := On(h, BuyersWarnBuyerIn, AggregateNonces);
      if err.Some? { return; }
      err := On(h, BuyersWarnSellerIn, AggregateNonces);
      if err.Some? { return; }
      err := On(h, SellersWarnBuyerIn, AggregateNonces);
      if err.Some? { return; }
      err := On(h, SellersWarnSellerIn, AggregateNonces);
      if err.Some? { return; }
      err := On(h, BuyersRedirect, AggregateNonces);
      if err.Some? { return; }
      err := On(h, SellersRedirect, AggregateNonces);
    }

    method SignPartial(h: Hashes<Message>) returns (err: Option<Failure>)
      requires Valid()
      modifies Sigs
      ensures Step(Value(), err) == old(Value()).SignPartial(h)
    {
      ChainOfSeven(Step(Value(), None), h, BY_KEY, Sign);
      err := On(h, BuyersWarnBuyerIn, Sign);
      if err.Some? { return; }
      err := On(h, SellersWarnBuyerIn, Sign);
      if err.Some? { return; }
      err := On(h, BuyersRedirect, Sign);
      if err.Some? { return; }
      err := On(h, Swap, Sign);
      if err.Some? { return; }
      err := On(h, BuyersWarnSellerIn, Sign);
      if err.Some? { return; }
      err := On(h, SellersWarnSellerIn, Sign);
      if err.Some? { return; }
      err := On(h, SellersRedirect, Sign);
    }

    /** The swap input is the same for both, so our share on it is always among them. */
    method MyPartialSignaturesOnPeerTxs() returns (r: Option<ExchangedSigs>)
      requires Valid()
      ensures r == Value().MyPartialSignaturesOnPeerTxs()
    {
      var w1 := if amBuyer then sellersWarnBuyerIn else buyersWarnBuyerIn;
      var w2 := if amBuyer then sellersWarnSellerIn else buyersWarnSellerIn;
      var redirect := if amBuyer then sellersRedirect else buyersRedirect;
      if w1.myPartial.None? || w2.myPartial.None? || redirect.myPartial.None? || swap.myPartial.None? {
        return None;
      }
      r := Some(ExchangedSigs(w1.myPartial.value, w2.myPartial.value, redirect.myPartial.value, swap.myPartial));
    }

    method SetPeerPartialSignaturesOnMyTxs(p: ExchangedSigs)
      requires Valid()
      modifies Sigs
      ensures Value() == old(Value()).SetPeerPartialSignaturesOnMyTxs(p)
    {
      if amBuyer {
        buyersWarnBuyerIn.peersPartial := Some(p.warnBuyerIn);
        buyersWarnSellerIn.peersPartial := Some(p.warnSellerIn);
        buyersRedirect.peersPartial := Some(p.redirect);
      } else {
        sellersWarnBuyerIn.peersPartial := Some(p.warnBuyerIn);
        sellersWarnSellerIn.peersPartial := Some(p.warnSellerIn);
        sellersRedirect.peersPartial := Some(p.redirect);
      }
      swap.peersPartial := p.swap;
    }

    method AggregatePartialSignatures(h: Hashes<Message>) returns (err: Option<Failure>)
      requires Valid()
      modifies Sigs
      ensures Step(Value(), err) == old(Value()).AggregatePartialSignatures(h)
    {
      ChainOfMine(Step(Value(), None), h, AggregateSigs);
      if amBuyer {
        err := On(h, BuyersWarnBuyerIn, AggregateSigs);
        if err.Some? { return; }
        err := On(h, BuyersWarnSellerIn, AggregateSigs);
        if err.Some? { return; }
        err := On(h, BuyersRedirect, AggregateSigs);
        if err.Some? { return; }
        err := On(h, Swap, AggregateSigs);
      } else {
        err := On(h, SellersWarnBuyerIn, AggregateSigs);
        if err.Some? { return; }
        err := On(h, SellersWarnSellerIn, AggregateSigs);
        if err.Some? { return; }
        err := On(h, SellersRedirect, AggregateSigs);
      }
    }

    method SetSwapPeersPartial(sig: Scalar)
      requires Valid()
      modifies swap
      ensures Value() == old(Value()).SetSwapPeersPartial(sig)
    {
      swap.peersPartial := Some(sig);
    }

    method AggregateSwapPartials(h: Hashes<Message>) returns (err: Option<Failure>)
      requires Valid()
      modifies swap
      ensures Step(Value(), err) == old(Value()).AggregateSwapPartials(h)
    {
      var myKey := if amBuyer then buyerOut else sellerOut;
      err := swap.AggregatePartialSignatures(h, myKey);
    }

    method SetPeerPrvKeyShareForMyOutput(prvKey: Scalar) returns (err: Option<Failure>)
      requires Valid()
      modifies Keys
      ensures Step(Value(), err) == old(Value()).SetPeerPrvKeyShareForMyOutput(prvKey)
    {
      var myKey := if amBuyer then buyerOut else sellerOut;
      err := myKey.SetPeersPrvKey(prvKey);
    }

    method AggregatePrvKeysForMyOutput() returns (err: Option<Failure>)
      requires Valid()
      modifies Keys
      ensures Step(Value(), err) == old(Value()).AggregatePrvKeysForMyOutput()
    {
      var myKey := if amBuyer then buyerOut else sellerOut;
      err := myKey.AggregatePrvKeyShares();
    }

    method ComputeSwapSignature(h: Hashes<Message>) returns (r: Result<LiftedSig, Failure>)
      requires Valid()
      ensures r == Value().ComputeSwapSignature(h)
    {
      if swap.aggregatedSig.None? {
        return Err(MissingAggSig);
      }
      var secret := buyerOut.Value().SellersPrvKey();
      if secret.None? {
        return Err(MissingKeyShare);
      }
      var sig := Adapt(h, swap.aggregatedSig.value, secret.value);
      r := if sig.None? then Err(ZeroNonce) else Ok(sig.value);
    }

    method RecoverSellersPrvKeyShare(final: LiftedSig) returns (err: Option<Failure>)
      requires Valid()
      modifies buyerOut
      ensures Step(Value(), err) == old(Value()).RecoverSellersPrvKeyShare(final)
    {
      if swap.aggregatedSig.None? {
        return Some(MissingAggSig);
      }
      var secret := Reveal(swap.aggregatedSig.value, final);
      if secret.None? {
        return Some(MismatchedSigs);
      }
      if secret.value == 0 {
        return Some(ZeroScalar);
      }
      err := buyerOut.SetSellersPrvKeyIfBuyer(secret.value);
    }
  }
}
