/** Two signers of a 2-of-2 key exchange keys, nonces and partial signatures in
    memory, after which the second learns the first one's adaptor secret from
    the published signature. */
module AdaptorExchange {
  import opened Results
  import opened Scalars
  import opened Musig

  type Message = string

  datatype Panic = Unset | Failed(error: SigError) | NotAdapted | NotRevealed

  /** How public keys compare. */
  type PointOrder = Point -> int

  /** The two keys in the order both signers use: the larger first. */
  function Ordered(rank: PointOrder, mine: Point, theirs: Point): (Point, Point) {
    if rank(theirs) < rank(mine) then (mine, theirs) else (theirs, mine)
  }

  lemma OrderedSymmetric(rank: PointOrder, p: Point, q: Point)
    requires rank(p) == rank(q) ==> p == q
    ensures Ordered(rank, p, q) == Ordered(rank, q, p)
  {
  }

  function Aggregated(h: Hashes<Message>, rank: PointOrder, mine: Point, theirs: Point): Result<KeyAggCtx, SigError> {
    var keys := Ordered(rank, mine, theirs);
    NewKeyAgg(h, keys.0, keys.1)
  }

  class M2a {
    var ctx: Option<KeyAggCtx>
    var secAdaptor: Option<Scalar>
    var pubAdaptor: Option<Point>
    const secKey: SecKey
    var otherPubkey: Option<Point>
    var message: Option<Message>
    var secNonce: Option<SecNonce>
    var aggNonce: Option<PubNonce>
    var adaptorSig: Option<AdaptorSig>

    constructor (k: SecKey)
      ensures secKey == k
      ensures ctx == None && secAdaptor == None && pubAdaptor == None && otherPubkey == None
      ensures message == None && secNonce == None && aggNonce == None && adaptorSig == None
    {
      secKey := k;
      ctx, secAdaptor, pubAdaptor, otherPubkey := None, None, None, None;
      message, secNonce, aggNonce, adaptorSig := None, None, None, None;
    }

    function PubKey(): Point {
      BaseMul(secKey)
    }

    method ExchangePubkey(h: Hashes<Message>, rank: PointOrder, opub: Point) returns (r: Result<Point, Panic>)
      modifies this`otherPubkey, this`ctx
      ensures
        match Aggregated(h, rank, PubKey(), opub)
        case Ok(key) =>
          && r == Ok(PubKey()) && otherPubkey == Some(opub) && ctx == Some(key)
          && rank(key.pk1) >= rank(key.pk2) && {key.pk1, key.pk2} == {PubKey(), opub}
        case Err(e) => r == Err(Failed(e)) && ctx == old(ctx)
    {
      otherPubkey := Some(opub);
      var key := Aggregated(h, rank, PubKey(), opub);
      if key.Err? {
        return Err(Failed(key.error));
      }
      ctx := Some(key.value);
      return Ok(PubKey());
    }

    method AgreeOnMessage(msg: Message, nonce: SecNonce) returns (r: Result<(), Panic>)
      modifies this`message, this`secNonce
      ensures message == Some(msg)
      ensures if ctx.None? then r == Err(Unset) && secNonce == old(secNonce) else r == Ok(()) && secNonce == Some(nonce)
    {
      message := Some(msg);
      if ctx.None? {
        return Err(Unset);
      }
      secNonce := Some(nonce);
      return Ok(());
    }

    method ExchangeNonce(otherNonce: PubNonce) returns (r: Result<PubNonce, Panic>)
      modifies this`aggNonce
      ensures
        match secNonce
        case Some(mine) => r == Ok(mine.Public()) && aggNonce == Some(AggNonce(mine.Public(), otherNonce))
        case None => r == Err(Unset) && aggNonce == old(aggNonce)
    {
      if secNonce.None? {
        return Err(Unset);
      }
      aggNonce := Some(AggNonce(secNonce.value.Public(), otherNonce));
      return Ok(secNonce.value.Public());
    }

    /** Reading the nonce leaves it in place, so a second call makes the same signature again. */
    function AdaptedPartSign(h: Hashes<Message>): Result<Scalar, Panic>
      reads this
    {
      if ctx.None? || secNonce.None? || aggNonce.None? || pubAdaptor.None? || message.None? then Err(Unset)
      else
        var sig := SignPartial(h, ctx.value, secKey, secNonce.value, aggNonce.value, pubAdaptor.value, message.value);
        if sig.Err? then Err(Failed(sig.error)) else Ok(sig.value)
    }

    /** Gives away the own partial signature only if both make a valid adaptor signature. */
    method ExchangePartSig(h: Hashes<Message>, otherSig: Scalar) returns (r: Result<Scalar, Panic>)
      modifies this`adaptorSig
      ensures r.Ok? ==> r == old(AdaptedPartSign(h))
      ensures r.Ok? <==>
              && old(AdaptedPartSign(h)).Ok?
              && AggregatePartials(h, ctx.value, aggNonce.value, pubAdaptor.value, otherSig,
                                   old(AdaptedPartSign(h)).value, message.value).Ok?
      ensures r.Ok? ==>
                && adaptorSig.Some?
                && AggregatePartials(h, ctx.value, aggNonce.value, pubAdaptor.value, otherSig, r.value, message.value)
                   == Ok(adaptorSig.value)
                && VerifyAdaptor(h, ctx.value.pubkey, adaptorSig.value, message.value, pubAdaptor.value)
      ensures r.Err? ==> adaptorSig == old(adaptorSig)
    {
      var mine := AdaptedPartSign(h);
      if mine.Err? {
        return mine;
      }
      var sig := AggregatePartials(h, ctx.value, aggNonce.value, pubAdaptor.value, otherSig, mine.value, message.value);
      if sig.Err? {
        return Err(Failed(sig.error));
      }
      adaptorSig := Some(sig.value);
      if !VerifyAdaptor(h, ctx.value.pubkey, sig.value, message.value, pubAdaptor.value) {
        return Err(Failed(BadSignature));
      }
      return mine;
    }

    method SignAndPublish(h: Hashes<Message>) returns (r: Result<LiftedSig, Panic>)
      ensures r.Ok? ==>
                && adaptorSig.Some? && secAdaptor.Some? && ctx.Some? && message.Some?
                && Adapt(h, adaptorSig.value, secAdaptor.value) == Some(r.value)
                && Verify(h, ctx.value.pubkey, r.value, message.value)
      ensures r.Err? ==>
                || adaptorSig.None? || secAdaptor.None? || ctx.None? || message.None?
                || Adapt(h, adaptorSig.value, secAdaptor.value).None?
                || !Verify(h, ctx.value.pubkey, Adapt(h, adaptorSig.value, secAdaptor.value).value, message.value)
    {
      if adaptorSig.None? || secAdaptor.None? {
        return Err(Unset);
      }
      var sig := Adapt(h, adaptorSig.value, secAdaptor.value);
      if sig.None? {
        return Err(NotAdapted);
      }
      if ctx.None? || message.None? {
        return Err(Unset);
      }
      if !Verify(h, ctx.value.pubkey, sig.value, message.value) {
        return Err(Failed(BadSignature));
      }
      return Ok(sig.value);
    }

    method LearnSecret(sig: LiftedSig) returns (r: Result<Scalar, Panic>)
      modifies this`secAdaptor
      ensures
        if adaptorSig.Some? && Reveal(adaptorSig.value, sig).Some? && Reveal(adaptorSig.value, sig).value != 0
        then r == Ok(Reveal(adaptorSig.value, sig).value) && secAdaptor == Some(r.value)
        else r.Err? && secAdaptor == old(secAdaptor)
    {
      if adaptorSig.None? {
        return Err(Unset);
      }
      var secret := Reveal(adaptorSig.value, sig);
      if secret.None? || secret.value == 0 {
        return Err(NotRevealed);
      }
      secAdaptor := secret;
      return Ok(secret.value);
    }

    /** The whole exchange. It fails only in the three degenerate cases, and then
        the other side has learned nothing; otherwise the other side learns
        exactly this side's adaptor secret. */
    method MsAdaptor(h: Hashes<Message>, rank: PointOrder, other: M2a, msg: Message, mine: SecNonce, theirs: SecNonce)
      returns (r: Result<Scalar, Panic>)
      requires other != this
      requires secAdaptor.Some? && secAdaptor.value != 0
      requires pubAdaptor == other.pubAdaptor == Some(BaseMul(secAdaptor.value))
      requires rank(PubKey()) == rank(other.PubKey()) ==> PubKey() == other.PubKey()
      modifies this, other
      ensures secAdaptor == old(secAdaptor)
      ensures r.Ok? <==> NonDegenerate(h, rank, secKey, other.secKey, mine, theirs, old(secAdaptor.value), msg)
      ensures r.Ok? ==> Some(r.value) == secAdaptor == other.secAdaptor
      ensures r.Err? ==> other.secAdaptor == old(other.secAdaptor)
    {
      hide SignPartial, AggregatePartials, VerifyAdaptor, Adapt, Reveal, Verify, NonceSum, NewKeyAgg, AggNonce, PAdd;
      var theirKey := other.ExchangePubkey(h, rank, PubKey());
      OrderedSymmetric(rank, PubKey(), other.PubKey());
      if theirKey.Err? {
        return Err(theirKey.error);
      }
      var exchanged := ExchangePubkey(h, rank, theirKey.value);
      assert exchanged.Ok? && ctx == other.ctx;
      var agreed := AgreeOnMessage(msg, mine);
      var otherAgreed := other.AgreeOnMessage(msg, theirs);
      var theirNonce := other.ExchangeNonce(mine.Public());
      var myNonce := ExchangeNonce(theirNonce.value);
      ExchangeReveals(h, rank, secKey, other.secKey, mine, theirs, secAdaptor.value, msg);
      assert aggNonce == other.aggNonce;

      var mySig := AdaptedPartSign(h);
      var theirSig := other.ExchangePartSig(h, mySig.value);
      if theirSig.Err? {
        return Err(theirSig.error);
      }
      var sent := ExchangePartSig(h, theirSig.value);
      assert sent.Ok? && adaptorSig == other.adaptorSig;
      var published := SignAndPublish(h);
      if published.Err? {
        return Err(published.error);
      }
      r := other.LearnSecret(published.value);
    }
  }

  /** None of the three sums of random points is infinity. */
  ghost predicate NonDegenerate(h: Hashes<Message>, rank: PointOrder, sk1: SecKey, sk2: SecKey, n1: SecNonce,
                                n2: SecNonce, t: Scalar, m: Message)
  {
    var key := Aggregated(h, rank, BaseMul(sk1), BaseMul(sk2));
    && key.Ok?
    && var sum := NonceSum(h, key.value.pubkey, AggNonce(n1.Public(), n2.Public()), m);
    && sum != Infinity
    && PAdd(sum, BaseMul(t)) != Infinity
  }

  /** Whichever key comes first, the two partial signatures make one adaptor
      signature, whose adapted form is valid and reveals the secret. */
  lemma ExchangeReveals(h: Hashes<Message>, rank: PointOrder, sk1: SecKey, sk2: SecKey, n1: SecNonce, n2: SecNonce,
                        t: Scalar, m: Message)
    requires Aggregated(h, rank, BaseMul(sk1), BaseMul(sk2)).Ok?
    ensures
      var key := Aggregated(h, rank, BaseMul(sk1), BaseMul(sk2)).value;
      var agg := AggNonce(n1.Public(), n2.Public());
      var p1 := SignPartial(h, key, sk1, n1, agg, BaseMul(t), m);
      var p2 := SignPartial(h, key, sk2, n2, agg, BaseMul(t), m);
      && AggNonce(n2.Public(), n1.Public()) == agg
      && p1.Ok? && p2.Ok?
      && var sig := AggregatePartials(h, key, agg, BaseMul(t), p1.value, p2.value, m);
      && sig == AggregatePartials(h, key, agg, BaseMul(t), p2.value, p1.value, m)
      && (sig.Ok? <==> NonceSum(h, key.pubkey, agg, m) != Infinity)
      && (sig.Ok? ==>
            && sig.value.r == NonceSum(h, key.pubkey, agg, m)
            && (Adapt(h, sig.value, t).Some? <==> PAdd(sig.value.r, BaseMul(t)) != Infinity)
            && (Adapt(h, sig.value, t).Some? ==>
                  && Verify(h, key.pubkey, Adapt(h, sig.value, t).value, m)
                  && Reveal(sig.value, Adapt(h, sig.value, t).value) == Some(t)))
  {
    hide NonceSum, Verify, Reveal, VerifyAdaptor;
    var key := Aggregated(h, rank, BaseMul(sk1), BaseMul(sk2)).value;
    var agg := AggNonce(n1.Public(), n2.Public());
    var p1, p2 := SignPartial(h, key, sk1, n1, agg, BaseMul(t), m), SignPartial(h, key, sk2, n2, agg, BaseMul(t), m);
    EitherOrder(h, rank, key, sk1, sk2, n1, n2, t, m);
    var sig := AggregatePartials(h, key, agg, BaseMul(t), p1.value, p2.value, m);
    if sig.Ok? {
      AggregateVerifies(h, key, agg, BaseMul(t), p1.value, p2.value, m);
      AdaptVerifies(h, key.pubkey, sig.value, m, t);
      if Adapt(h, sig.value, t).Some? {
        RevealInvertsAdapt(h, sig.value, t);
      }
    }
  }

  lemma EitherOrder(h: Hashes<Message>, rank: PointOrder, key: KeyAggCtx, sk1: SecKey, sk2: SecKey, n1: SecNonce,
                    n2: SecNonce, t: Scalar, m: Message)
    requires Aggregated(h, rank, BaseMul(sk1), BaseMul(sk2)) == Ok(key)
    ensures
      var agg := AggNonce(n1.Public(), n2.Public());
      var p1 := SignPartial(h, key, sk1, n1, agg, BaseMul(t), m);
      var p2 := SignPartial(h, key, sk2, n2, agg, BaseMul(t), m);
      && p1.Ok? && p2.Ok?
      && var sig := AggregatePartials(h, key, agg, BaseMul(t), p1.value, p2.value, m);
      && sig == AggregatePartials(h, key, agg, BaseMul(t), p2.value, p1.value, m)
      && (sig.Ok? <==> NonceSum(h, key.pubkey, agg, m) != Infinity)
  {
    hide NonceSum, SignPartial, AggregatePartials;
    if rank(BaseMul(sk2)) < rank(BaseMul(sk1)) {
      KeysOfAggregate(h, sk1, sk2);
      HonestAggregation(h, key, sk1, sk2, n1, n2, BaseMul(t), m);
    } else {
      KeysOfAggregate(h, sk2, sk1);
      HonestAggregation(h, key, sk2, sk1, n2, n1, BaseMul(t), m);
      assert AggNonce(n1.Public(), n2.Public()) == AggNonce(n2.Public(), n1.Public());
    }
  }
}
