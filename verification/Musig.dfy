/** Two-party MuSig2 with adaptor points: key aggregation and taproot tweaking
    (BIP 327, sections "Key Generation and Aggregation" and "Tweaking the
    Aggregate Public Key"), partial signing, aggregation, adaption and reveal,
    and plain verification (BIP 340, section "Verification"). Hash functions and
    the parity of a point are parameters. */
module Musig {
  import opened Results
  import opened Scalars

  /** The two public nonce points of a signer, or the two sums of an aggregated nonce. */
  datatype PubNonce = PubNonce(r1: Point, r2: Point)

  /** Which random draw produced a secret nonce. Placeholder is the constant
      nonce written over a used one. */
  datatype NonceTag = Draw(id: nat) | Placeholder

  datatype SecNonce = SecNonce(tag: NonceTag, k1: SecKey, k2: SecKey) {
    function Public(): PubNonce {
      PubNonce(BaseMul(k1), BaseMul(k2))
    }
  }

  datatype Hashes<!M> = Hashes(
    keyCoef: (Point, Point, Point) -> Scalar,
    nonceCoef: (PubNonce, Point, M) -> Scalar,
    challenge: (Point, Point, M) -> Scalar,
    tapTweak: Point -> Scalar,
    lowerOdd: Point -> bool
  ) {
    /** Whether the y coordinate is odd. It is free on one of each pair P, -P
        and the opposite on the other; infinity counts as even. */
    predicate Odd(p: Point) {
      if p == Infinity then false
      else if 2 * p.log < N then lowerOdd(p)
      else !lowerOdd(PNeg(p))
    }

    /** The point with the same x coordinate and an even y coordinate. */
    function Even(p: Point): (e: Point)
      ensures !Odd(e)
      ensures e == p || e == PNeg(p)
    {
      PNegIf(Odd(p), p)
    }

    lemma EvenOfNeg(p: Point)
      ensures Even(PNeg(p)) == Even(p)
      ensures p != Infinity ==> Odd(PNeg(p)) != Odd(p)
    {
    }
  }

  datatype SigError = KeyAggError | TweakError | UnknownKey | BadSignature | InvalidSecretKeys

  /** An aggregated key: the two keys in order, their coefficients, the sum after
      tweaking, and the accumulated sign and tweak. */
  datatype KeyAggCtx = KeyAggCtx(
    pk1: Point, pk2: Point, c1: Scalar, c2: Scalar,
    pubkey: Point, flip: bool, tweak: Scalar)

  /** pubkey is the aggregate of the two secrets behind pk1 and pk2. */
  ghost predicate Consistent(ctx: KeyAggCtx) {
    && ctx.pubkey != Infinity
    && ctx.pubkey == PAdd(PNegIf(ctx.flip, PAdd(PMul(ctx.c1, ctx.pk1), PMul(ctx.c2, ctx.pk2))), BaseMul(ctx.tweak))
  }

  function NewKeyAgg<M>(h: Hashes<M>, pk1: Point, pk2: Point): (r: Result<KeyAggCtx, SigError>)
    ensures r.Ok? ==> Consistent(r.value) && r.value.pk1 == pk1 && r.value.pk2 == pk2
  {
    var c1 := h.keyCoef(pk1, pk2, pk1);
    var c2 := h.keyCoef(pk1, pk2, pk2);
    var q := PAdd(PMul(c1, pk1), PMul(c2, pk2));
    if q == Infinity then Err(KeyAggError) else Ok(KeyAggCtx(pk1, pk2, c1, c2, q, false, 0))
  }

  /** The taproot tweak that commits to no script. */
  function TapTweaked<M>(h: Hashes<M>, ctx: KeyAggCtx): (r: Result<KeyAggCtx, SigError>)
    ensures r.Ok? <==> TapOutputKey(h, ctx.pubkey) != Infinity
    ensures r.Ok? ==> r.value.pubkey == TapOutputKey(h, ctx.pubkey)
  {
    var odd := h.Odd(ctx.pubkey);
    var t := h.tapTweak(h.Even(ctx.pubkey));
    var q := PAdd(PNegIf(odd, ctx.pubkey), BaseMul(t));
    if q == Infinity then Err(TweakError)
    else Ok(ctx.(pubkey := q, flip := ctx.flip != odd, tweak := Add(NegIf(odd, ctx.tweak), t)))
  }

  /** The key a taproot output commits to when its internal key is p and it has no script. */
  function TapOutputKey<M>(h: Hashes<M>, p: Point): Point {
    PAdd(h.Even(p), BaseMul(h.tapTweak(h.Even(p))))
  }

  function Untweaked(ctx: KeyAggCtx): Point {
    PNegIf(ctx.flip, PAdd(ctx.pubkey, PNeg(BaseMul(ctx.tweak))))
  }

  function KeyCoefOf(ctx: KeyAggCtx, pk: Point): Option<Scalar> {
    if pk == ctx.pk1 then Some(ctx.c1) else if pk == ctx.pk2 then Some(ctx.c2) else None
  }

  function AggSecKey(ctx: KeyAggCtx, sk1: Scalar, sk2: Scalar): Result<Scalar, SigError> {
    var d := Add(NegIf(ctx.flip, Add(Mul(ctx.c1, sk1), Mul(ctx.c2, sk2))), ctx.tweak);
    if BaseMul(d) == ctx.pubkey then Ok(d) else Err(InvalidSecretKeys)
  }

  function AggNonce(n1: PubNonce, n2: PubNonce): PubNonce {
    PubNonce(PAdd(n1.r1, n2.r1), PAdd(n1.r2, n2.r2))
  }

  /** What signers and verifiers derive from the key, the nonces, the adaptor point and the message. */
  datatype Session = Session(b: Scalar, final: Point, odd: bool, e: Scalar)

  /** R1 + b * R2, before the replacement of infinity by the generator. */
  function NonceSum<M>(h: Hashes<M>, q: Point, agg: PubNonce, m: M): Point {
    PAdd(agg.r1, PMul(h.nonceCoef(agg, h.Even(q), m), agg.r2))
  }

  function SessionOf<M>(h: Hashes<M>, q: Point, agg: PubNonce, adaptor: Point, m: M): Session {
    var sum := NonceSum(h, q, agg, m);
    var final := if sum == Infinity then Generator else sum;
    var adapted := PAdd(final, adaptor);
    Session(h.nonceCoef(agg, h.Even(q), m), final, h.Odd(adapted), h.challenge(h.Even(adapted), h.Even(q), m))
  }

  function PartialValue(s: Session, coef: Scalar, negateKey: bool, sk: Scalar, k1: Scalar, k2: Scalar): Scalar {
    Add(NegIf(s.odd, Add(k1, Mul(s.b, k2))), Mul(Mul(s.e, coef), NegIf(negateKey, sk)))
  }

  function VerifyPartial<M>(h: Hashes<M>, ctx: KeyAggCtx, sig: Scalar, agg: PubNonce, adaptor: Point,
                            pk: Point, nonce: PubNonce, m: M): Result<(), SigError>
  {
    var s := SessionOf(h, ctx.pubkey, agg, adaptor, m);
    var coef := KeyCoefOf(ctx, pk);
    if coef.None? then Err(UnknownKey)
    else if BaseMul(sig) == PAdd(PNegIf(s.odd, PAdd(nonce.r1, PMul(s.b, nonce.r2))),
                                 PMul(Mul(s.e, coef.value), PNegIf(h.Odd(ctx.pubkey) != ctx.flip, pk)))
    then Ok(())
    else Err(BadSignature)
  }

  function SignPartial<M>(h: Hashes<M>, ctx: KeyAggCtx, sk: SecKey, nonce: SecNonce, agg: PubNonce,
                          adaptor: Point, m: M): Result<Scalar, SigError>
  {
    var s := SessionOf(h, ctx.pubkey, agg, adaptor, m);
    var coef := KeyCoefOf(ctx, BaseMul(sk));
    if coef.None? then Err(UnknownKey)
    else
      var sig := PartialValue(s, coef.value, h.Odd(ctx.pubkey) != ctx.flip, sk, nonce.k1, nonce.k2);
      var check := VerifyPartial(h, ctx, sig, agg, adaptor, BaseMul(sk), nonce.Public(), m);
      if check.Err? then Err(check.error) else Ok(sig)
  }

  /** A signature that becomes valid once the logarithm of the adaptor point is added. */
  datatype AdaptorSig = AdaptorSig(r: Point, s: Scalar)

  datatype LiftedSig = LiftedSig(r: Point, s: Scalar)

  predicate VerifyAdaptor<M>(h: Hashes<M>, q: Point, sig: AdaptorSig, m: M, adaptor: Point) {
    var adapted := PAdd(sig.r, adaptor);
    var e := h.challenge(h.Even(adapted), h.Even(q), m);
    BaseMul(sig.s) == PAdd(PNegIf(h.Odd(adapted), sig.r), PMul(e, h.Even(q)))
  }

  function AggregatePartials<M>(h: Hashes<M>, ctx: KeyAggCtx, agg: PubNonce, adaptor: Point,
                                s1: Scalar, s2: Scalar, m: M): Result<AdaptorSig, SigError>
  {
    var s := SessionOf(h, ctx.pubkey, agg, adaptor, m);
    var sum := Add(Add(s1, s2), NegIf(h.Odd(ctx.pubkey), Mul(s.e, ctx.tweak)));
    var sig := AdaptorSig(s.final, sum);
    if VerifyAdaptor(h, ctx.pubkey, sig, m, adaptor) then Ok(sig) else Err(BadSignature)
  }

  function Adapt<M>(h: Hashes<M>, sig: AdaptorSig, t: Scalar): Option<LiftedSig> {
    var adapted := PAdd(sig.r, BaseMul(t));
    if adapted == Infinity then None
    else Some(LiftedSig(h.Even(adapted), Add(sig.s, NegIf(h.Odd(adapted), t))))
  }

  function Reveal(sig: AdaptorSig, final: LiftedSig): Option<Scalar> {
    var t := Sub(final.s, sig.s);
    if BaseMul(t) == PAdd(final.r, PNeg(sig.r)) then Some(t)
    else if BaseMul(t) == PAdd(final.r, sig.r) then Some(Neg(t))
    else None
  }

  /** BIP 340 verification against the x coordinate of q. */
  predicate Verify<M>(h: Hashes<M>, q: Point, sig: LiftedSig, m: M) {
    && sig.r != Infinity
    && !h.Odd(sig.r)
    && BaseMul(sig.s) == PAdd(sig.r, PMul(h.challenge(sig.r, h.Even(q), m), h.Even(q)))
  }

  /** Signing alone, with one secret key (BIP 340, section "Default Signing"). */
  function SignAlone<M>(h: Hashes<M>, secret: Scalar, nonce: Scalar, m: M): LiftedSig {
    var r, q := BaseMul(nonce), BaseMul(secret);
    var e := h.challenge(h.Even(r), h.Even(q), m);
    LiftedSig(h.Even(r), Add(NegIf(h.Odd(r), nonce), Mul(e, NegIf(h.Odd(q), secret))))
  }

  // ------------------------------------------------------------ properties

  lemma SignAloneVerifies<M>(h: Hashes<M>, secret: Scalar, nonce: Scalar, m: M)
    requires nonce != 0
    ensures Verify(h, BaseMul(secret), SignAlone(h, secret, nonce, m), m)
  {
  }

  lemma TweakTerms(flip: bool, odd: bool, u: Scalar, w: Scalar, t: Scalar)
    ensures Add(NegIf(odd, Add(NegIf(flip, u), w)), t) == Add(NegIf(flip != odd, u), Add(NegIf(odd, w), t))
  {
    NegSum(NegIf(flip, u), w);
    AddAssoc(NegIf(flip != odd, u), NegIf(odd, w), t);
  }

  lemma UntweakTerms(flip: bool, odd: bool, q: Scalar, w: Scalar, t: Scalar)
    ensures NegIf(flip != odd, Add(Add(NegIf(odd, q), t), Neg(Add(NegIf(odd, w), t)))) == NegIf(flip, Add(q, Neg(w)))
  {
    CancelCommon(NegIf(odd, q), NegIf(odd, w), t);
    NegSum(q, Neg(w));
  }

  /** Tweaking keeps the aggregate consistent with the two keys and remembers the untweaked key. */
  lemma TweakKeepsKeys<M>(h: Hashes<M>, ctx: KeyAggCtx)
    requires Consistent(ctx)
    requires TapTweaked(h, ctx).Ok?
    ensures
      var t := TapTweaked(h, ctx).value;
      Consistent(t) && Untweaked(t) == Untweaked(ctx) && t.pk1 == ctx.pk1 && t.pk2 == ctx.pk2
  {
    var odd := h.Odd(ctx.pubkey);
    var t := h.tapTweak(h.Even(ctx.pubkey));
    TweakTerms(ctx.flip, odd, Add(Mul(ctx.c1, ctx.pk1.log), Mul(ctx.c2, ctx.pk2.log)), ctx.tweak, t);
    UntweakTerms(ctx.flip, odd, ctx.pubkey.log, ctx.tweak, t);
  }

  lemma MulNegIf(flip: bool, k: nat, a: Scalar)
    ensures Mul(k, NegIf(flip, a)) == NegIf(flip, Mul(k, a))
  {
    MulNeg(k, a);
  }

  /** A partial signature made with a key of the aggregate always passes its own
      verification, so signing fails only on a key that is not part of it. */
  lemma SigningSucceeds<M>(h: Hashes<M>, ctx: KeyAggCtx, sk: SecKey, nonce: SecNonce, agg: PubNonce, adaptor: Point,
                           m: M)
    ensures SignPartial(h, ctx, sk, nonce, agg, adaptor, m).Ok? <==> BaseMul(sk) in {ctx.pk1, ctx.pk2}
    ensures SignPartial(h, ctx, sk, nonce, agg, adaptor, m).Err? ==>
              SignPartial(h, ctx, sk, nonce, agg, adaptor, m).error == UnknownKey
    ensures SignPartial(h, ctx, sk, nonce, agg, adaptor, m).Ok? ==>
              VerifyPartial(h, ctx, SignPartial(h, ctx, sk, nonce, agg, adaptor, m).value, agg, adaptor,
                            BaseMul(sk), nonce.Public(), m).Ok?
  {
  }

  lemma WeightedKey(e: Scalar, c: Scalar, flip: bool, sk: Scalar)
    ensures Mul(Mul(e, c), NegIf(flip, sk)) == Mul(e, NegIf(flip, Mul(c, sk)))
  {
    MulAssoc(e, c, NegIf(flip, sk));
    MulNegIf(flip, c, sk);
  }

  /** The key terms of two partial signatures and the tweak add up to e times the even key. */
  lemma KeyTerms(e: Scalar, c1: Scalar, c2: Scalar, sk1: Scalar, sk2: Scalar, flip: bool, odd: bool, tweak: Scalar)
    ensures
      var u := Add(Mul(c1, sk1), Mul(c2, sk2));
      Add(Add(Mul(Mul(e, c1), NegIf(odd != flip, sk1)), Mul(Mul(e, c2), NegIf(odd != flip, sk2))),
          NegIf(odd, Mul(e, tweak)))
      == Mul(e, NegIf(odd, Add(NegIf(flip, u), tweak)))
  {
    var u1, u2 := Mul(c1, sk1), Mul(c2, sk2);
    var u := Add(u1, u2);
    var f := odd != flip;
    WeightedKey(e, c1, f, sk1);
    WeightedKey(e, c2, f, sk2);
    MulAdd(e, NegIf(f, u1), NegIf(f, u2));
    MulNegIf(odd, e, tweak);
    MulAdd(e, NegIf(f, u), NegIf(odd, tweak));
    assert Add(NegIf(f, u1), NegIf(f, u2)) == NegIf(f, u);
    assert Add(NegIf(f, u), NegIf(odd, tweak)) == NegIf(odd, Add(NegIf(flip, u), tweak));
  }

  lemma NonceTerms(b: Scalar, odd: bool, k1: Scalar, k2: Scalar, l1: Scalar, l2: Scalar)
    ensures Add(NegIf(odd, Add(k1, Mul(b, k2))), NegIf(odd, Add(l1, Mul(b, l2))))
            == NegIf(odd, Add(Add(k1, l1), Mul(b, Add(k2, l2))))
  {
    MulAdd(b, k2, l2);
    var x, y := Mul(b, k2), Mul(b, l2);
    NegSum(Add(k1, x), Add(l1, y));
    Exchange(k1, x, l1, y);
  }

  lemma Regroup(a: Scalar, b: Scalar, x: Scalar, y: Scalar, t: Scalar)
    ensures Add(Add(Add(a, x), Add(b, y)), t) == Add(Add(a, b), Add(Add(x, y), t))
  {
    Exchange(a, x, b, y);
    AddAssoc(Add(a, b), Add(x, y), t);
  }

  /** Both secret keys of the aggregate, each public key being the one with the other's coefficient. */
  ghost predicate KeysOf(ctx: KeyAggCtx, sk1: SecKey, sk2: SecKey) {
    Consistent(ctx) && ctx.pk1 == BaseMul(sk1) && ctx.pk2 == BaseMul(sk2) && (sk1 == sk2 ==> ctx.c1 == ctx.c2)
  }

  /** Aggregating and tweaking the public keys of two secrets. */
  lemma KeysOfAggregate<M>(h: Hashes<M>, sk1: SecKey, sk2: SecKey)
    ensures
      var r := NewKeyAgg(h, BaseMul(sk1), BaseMul(sk2));
      && (r.Ok? ==> KeysOf(r.value, sk1, sk2))
      && (r.Ok? && TapTweaked(h, r.value).Ok? ==> KeysOf(TapTweaked(h, r.value).value, sk1, sk2))
  {
    var r := NewKeyAgg(h, BaseMul(sk1), BaseMul(sk2));
    if r.Ok? && TapTweaked(h, r.value).Ok? {
      TweakKeepsKeys(h, r.value);
    }
  }

  /** The aggregated key of two secrets: each point weighted with its hash, taken
      over both points in order and the point itself; and its taproot tweak, taken of
      the point with even y coordinate and added to it. */
  lemma AggregateOfSecrets<M>(h: Hashes<M>, sk1: SecKey, sk2: SecKey)
    ensures
      var (p, q) := (BaseMul(sk1), BaseMul(sk2));
      var log := Add(Mul(h.keyCoef(p, q, p), sk1), Mul(h.keyCoef(p, q, q), sk2));
      var r := NewKeyAgg(h, p, q);
      && (r.Ok? <==> log != 0) && (r.Ok? ==> r.value.pubkey == BaseMul(log))
      && (r.Ok? && TapTweaked(h, r.value).Ok? ==>
            var e := h.Even(BaseMul(log));
            TapTweaked(h, r.value).value.pubkey == BaseMul(Add(e.log, h.tapTweak(e))))
  {
  }

  /** A share verifies exactly if it is the one that the holder of the key makes with
      this nonce. */
  lemma OnlyOneShare<M>(h: Hashes<M>, ctx: KeyAggCtx, sk: SecKey, n: SecNonce, agg: PubNonce, adaptor: Point, m: M,
                        share: Scalar)
    ensures VerifyPartial(h, ctx, share, agg, adaptor, BaseMul(sk), n.Public(), m).Ok?
            <==> SignPartial(h, ctx, sk, n, agg, adaptor, m) == Ok(share)
  {
    hide SessionOf;
    SigningSucceeds(h, ctx, sk, n, agg, adaptor, m);
    var made := SignPartial(h, ctx, sk, n, agg, adaptor, m);
    if made.Ok? {
      hide SignPartial;
    }
  }

  lemma AggregatedLog(ctx: KeyAggCtx, sk1: SecKey, sk2: SecKey)
    requires KeysOf(ctx, sk1, sk2)
    ensures AggSecKey(ctx, sk1, sk2) == Ok(ctx.pubkey.log)
  {
  }

  /** The sum of two honest partial signatures. */
  lemma HonestSum<M>(h: Hashes<M>, ctx: KeyAggCtx, sk1: SecKey, sk2: SecKey, n1: SecNonce, n2: SecNonce,
                     adaptor: Point, m: M)
    requires KeysOf(ctx, sk1, sk2)
    ensures
      var agg := AggNonce(n1.Public(), n2.Public());
      var s := SessionOf(h, ctx.pubkey, agg, adaptor, m);
      var neg := h.Odd(ctx.pubkey) != ctx.flip;
      Add(Add(PartialValue(s, ctx.c1, neg, sk1, n1.k1, n1.k2), PartialValue(s, ctx.c2, neg, sk2, n2.k1, n2.k2)),
          NegIf(h.Odd(ctx.pubkey), Mul(s.e, ctx.tweak)))
      == Add(NegIf(s.odd, NonceSum(h, ctx.pubkey, agg, m).log), Mul(s.e, h.Even(ctx.pubkey).log))
  {
    var agg := AggNonce(n1.Public(), n2.Public());
    var s := SessionOf(h, ctx.pubkey, agg, adaptor, m);
    var odd := h.Odd(ctx.pubkey);
    var neg := odd != ctx.flip;
    NonceTerms(s.b, s.odd, n1.k1, n1.k2, n2.k1, n2.k2);
    KeyTerms(s.e, ctx.c1, ctx.c2, sk1, sk2, ctx.flip, odd, ctx.tweak);
    Regroup(NegIf(s.odd, Add(n1.k1, Mul(s.b, n1.k2))), NegIf(s.odd, Add(n2.k1, Mul(s.b, n2.k2))),
            Mul(Mul(s.e, ctx.c1), NegIf(neg, sk1)), Mul(Mul(s.e, ctx.c2), NegIf(neg, sk2)),
            NegIf(odd, Mul(s.e, ctx.tweak)));
  }

  /** Two honest partial signatures aggregate exactly when R1 + b * R2 is not
      infinity: the generator that replaces it then was never part of the nonces. */
  lemma HonestAggregation<M>(h: Hashes<M>, ctx: KeyAggCtx, sk1: SecKey, sk2: SecKey, n1: SecNonce, n2: SecNonce,
                             adaptor: Point, m: M)
    requires KeysOf(ctx, sk1, sk2)
    ensures
      var agg := AggNonce(n1.Public(), n2.Public());
      var p1 := SignPartial(h, ctx, sk1, n1, agg, adaptor, m);
      var p2 := SignPartial(h, ctx, sk2, n2, agg, adaptor, m);
      && p1.Ok? && p2.Ok?
      && AggregatePartials(h, ctx, agg, adaptor, p1.value, p2.value, m)
         == AggregatePartials(h, ctx, agg, adaptor, p2.value, p1.value, m)
      && (AggregatePartials(h, ctx, agg, adaptor, p1.value, p2.value, m).Ok? <==>
          NonceSum(h, ctx.pubkey, agg, m) != Infinity)
  {
    var agg := AggNonce(n1.Public(), n2.Public());
    SigningSucceeds(h, ctx, sk1, n1, agg, adaptor, m);
    SigningSucceeds(h, ctx, sk2, n2, agg, adaptor, m);
    HonestSum(h, ctx, sk1, sk2, n1, n2, adaptor, m);
  }

  lemma AggregateVerifies<M>(h: Hashes<M>, ctx: KeyAggCtx, agg: PubNonce, adaptor: Point, s1: Scalar, s2: Scalar, m: M)
    requires AggregatePartials(h, ctx, agg, adaptor, s1, s2, m).Ok?
    ensures
      var sig := AggregatePartials(h, ctx, agg, adaptor, s1, s2, m).value;
      sig.r != Infinity && VerifyAdaptor(h, ctx.pubkey, sig, m, adaptor)
  {
  }

  /** Adding the adaptor secret to an adaptor signature gives a plain signature. */
  lemma AdaptVerifies<M>(h: Hashes<M>, q: Point, sig: AdaptorSig, m: M, t: Scalar)
    requires VerifyAdaptor(h, q, sig, m, BaseMul(t))
    ensures Adapt(h, sig, t).Some? <==> PAdd(sig.r, BaseMul(t)) != Infinity
    ensures Adapt(h, sig, t).Some? ==> Verify(h, q, Adapt(h, sig, t).value, m)
  {
    var r, e := Add(sig.r.log, t), Mul(h.challenge(h.Even(PAdd(sig.r, BaseMul(t))), h.Even(q), m), h.Even(q).log);
    var odd := h.Odd(Point(r));
    Exchange(NegIf(odd, sig.r.log), e, NegIf(odd, t), 0);
    NegSum(sig.r.log, t);
  }

  /** Whoever holds the adaptor signature learns the adaptor secret from any
      plain signature on the adapted nonce, whoever made it. */
  lemma RevealFromSignature<M>(h: Hashes<M>, q: Point, sig: AdaptorSig, m: M, t: Scalar, final: LiftedSig)
    requires sig.r != Infinity
    requires VerifyAdaptor(h, q, sig, m, BaseMul(t))
    requires final.r == h.Even(PAdd(sig.r, BaseMul(t)))
    requires Verify(h, q, final, m)
    ensures Reveal(sig, final) == Some(t)
  {
    var adapted := PAdd(sig.r, BaseMul(t));
    var e := Mul(h.challenge(h.Even(adapted), h.Even(q), m), h.Even(q).log);
    var odd := h.Odd(adapted);
    NegSum(sig.r.log, t);
    CancelCommon(final.r.log, NegIf(odd, sig.r.log), e);
    assert Sub(final.s, sig.s) == Add(final.r.log, Neg(NegIf(odd, sig.r.log)));
    RevealTerms(sig.r.log, t, odd);
  }

  /** The difference of the two signatures is the adaptor secret up to sign, and
      the points tell the sign because 2 * r is never zero. */
  lemma RevealTerms(r: Scalar, t: Scalar, odd: bool)
    requires r != 0
    ensures
      var final := NegIf(odd, Add(r, t));
      && Add(final, Neg(NegIf(odd, r))) == NegIf(odd, t)
      && (!odd ==> t == Add(final, Neg(r)))
      && (odd ==> Neg(t) == Add(final, r) && Neg(t) != Add(final, Neg(r)))
  {
    DoubleIsZero(r);
  }

  lemma DoubleIsZero(a: Scalar)
    ensures Add(a, a) == 0 ==> a == 0
  {
  }

  lemma RevealInvertsAdapt<M>(h: Hashes<M>, sig: AdaptorSig, t: Scalar)
    requires sig.r != Infinity
    requires Adapt(h, sig, t).Some?
    ensures Reveal(sig, Adapt(h, sig, t).value) == Some(t)
  {
    var odd := h.Odd(PAdd(sig.r, BaseMul(t)));
    RevealTerms(sig.r.log, t, odd);
    CancelCommon(NegIf(odd, t), 0, sig.s);
  }
}
