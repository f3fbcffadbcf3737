/** The per-output key context and the per-input signing context of a trade:
    the states they can be in, what each call makes of a state, and the
    classes that hold them. */
module TradeContexts {
  import opened Results
  import opened Scalars
  import opened Musig

  type Message = string

  datatype Failure =
    | MissingKeyShare | MissingNonceShare | MissingPartialSig | MissingAggPubKey
    | MissingAggSig | MissingAggNonce | NonceReuse | ZeroNonce
    | MismatchedKeyPair | MismatchedSigs | ZeroScalar | MissingField | Crypto(error: SigError)

  /** A public key whose secret may become known later. */
  datatype KeyPair = KeyPair(pub: Point, prv: Option<Scalar>) {
    function SetPrvKey(prvKey: Scalar): (KeyPair, Option<Failure>) {
      if pub != BaseMul(prvKey) then (this, Some(MismatchedKeyPair))
      else (this.(prv := Some(prvKey)), None)
    }
  }

  datatype KeyState = KeyState(
    amBuyer: bool,
    mine: Option<SecKey>,
    peers: Option<KeyPair>,
    aggregated: Option<KeyPair>,
    keyAgg: Option<KeyAggCtx>
  ) {
    /** The two public key shares, the buyer's first on both sides. */
    function KeyShares(): Option<(Point, Point)> {
      if mine.None? || peers.None? then None
      else if amBuyer then Some((BaseMul(mine.value), peers.value.pub))
      else Some((peers.value.pub, BaseMul(mine.value)))
    }

    function AggregateKeyShares(h: Hashes<Message>): (KeyState, Option<Failure>) {
      var shares := KeyShares();
      if shares.None? then (this, Some(MissingKeyShare))
      else
        var agg := NewKeyAgg(h, shares.value.0, shares.value.1);
        if agg.Err? then (this, Some(Crypto(agg.error)))
        else (this.(aggregated := Some(KeyPair(agg.value.pubkey, None)), keyAgg := Some(agg.value)), None)
    }

    /** The two secret key shares, the buyer's first. */
    function PrvKeyShares(): Option<(Scalar, Scalar)> {
      if mine.None? || peers.None? || peers.value.prv.None? then None
      else if amBuyer then Some((mine.value, peers.value.prv.value))
      else Some((peers.value.prv.value, mine.value))
    }

    function AggregatePrvKeyShares(): (KeyState, Option<Failure>) {
      var shares := PrvKeyShares();
      if shares.None? then (this, Some(MissingKeyShare))
      else if keyAgg.None? || aggregated.None? then (this, Some(MissingAggPubKey))
      else
        var sk := AggSecKey(keyAgg.value, shares.value.0, shares.value.1);
        if sk.Err? then (this, Some(Crypto(sk.error)))
        else
          var (pair, err) := aggregated.value.SetPrvKey(sk.value);
          (this.(aggregated := Some(pair)), err)
    }

    function SetPeersPrvKey(prvKey: Scalar): (KeyState, Option<Failure>) {
      if peers.None? then (this, Some(MissingKeyShare))
      else
        var (pair, err) := peers.value.SetPrvKey(prvKey);
        (this.(peers := Some(pair)), err)
    }

    function SetSellersPrvKeyIfBuyer(prvKey: Scalar): (KeyState, Option<Failure>) {
      if amBuyer then SetPeersPrvKey(prvKey) else (this, None)
    }

    function SellersPrvKey(): Option<Scalar> {
      if amBuyer then (if peers.None? then None else peers.value.prv)
      else if mine.None? then None else Some(mine.value)
    }
  }

  /** Our nonce: the public half stays, the secret half goes when it is used. */
  datatype NoncePair = NoncePair(pub: PubNonce, sec: Option<SecNonce>)

  /** spent is a history: the secret nonces handed to the signing function, in order. */
  datatype SigState = SigState(
    amBuyer: bool,
    adaptor: Point,
    mine: Option<NoncePair>,
    peersNonce: Option<PubNonce>,
    aggregatedNonce: Option<PubNonce>,
    message: Option<Message>,
    myPartial: Option<Scalar>,
    peersPartial: Option<Scalar>,
    aggregatedSig: Option<AdaptorSig>,
    spent: seq<SecNonce>
  ) {
    function InitMyNonceShare(key: KeyState, nonce: SecNonce): (SigState, Option<Failure>) {
      if key.aggregated.None? then (this, Some(MissingAggPubKey))
      else (this.(mine := Some(NoncePair(nonce.Public(), Some(nonce)))), None)
    }

    function NonceShares(): Option<(PubNonce, PubNonce)> {
      if mine.None? || peersNonce.None? then None
      else if amBuyer then Some((mine.value.pub, peersNonce.value))
      else Some((peersNonce.value, mine.value.pub))
    }

    function AggregateNonceShares(): (SigState, Option<Failure>) {
      var shares := NonceShares();
      if shares.None? then (this, Some(MissingKeyShare))
      else
        var agg := AggNonce(shares.value.0, shares.value.1);
        if agg == PubNonce(Infinity, Infinity) then (this, Some(ZeroNonce))
        else (this.(aggregatedNonce := Some(agg)), None)
    }

    /** The secret nonce is taken before the aggregated nonce is looked for, so a
        call that fails there has lost it. */
    function SignPartial(h: Hashes<Message>, key: KeyState, msg: Message): (SigState, Option<Failure>) {
      if key.keyAgg.None? then (this, Some(MissingAggPubKey))
      else if key.mine.None? then (this, Some(MissingKeyShare))
      else if mine.None? then (this, Some(MissingNonceShare))
      else if mine.value.sec.None? then (this, Some(NonceReuse))
      else
        var nonce := mine.value.sec.value;
        var taken := this.(mine := Some(mine.value.(sec := None)));
        if aggregatedNonce.None? then (taken, Some(MissingAggNonce))
        else
          var used := taken.(spent := spent + [nonce]);
          var sig := Musig.SignPartial(h, key.keyAgg.value, key.mine.value, nonce, aggregatedNonce.value, adaptor, msg);
          if sig.Err? then (used, Some(Crypto(sig.error)))
          else (used.(message := Some(msg), myPartial := Some(sig.value)), None)
    }

    function PartialSignatures(): Option<(Scalar, Scalar)> {
      if myPartial.None? || peersPartial.None? then None
      else if amBuyer then Some((myPartial.value, peersPartial.value))
      else Some((peersPartial.value, myPartial.value))
    }

    function AggregatePartialSignatures(h: Hashes<Message>, key: KeyState): (SigState, Option<Failure>) {
      if key.keyAgg.None? then (this, Some(MissingAggPubKey))
      else if aggregatedNonce.None? then (this, Some(MissingAggNonce))
      else
        var sigs := PartialSignatures();
        if sigs.None? || message.None? then (this, Some(MissingPartialSig))
        else
          var sig := AggregatePartials(h, key.keyAgg.value, aggregatedNonce.value, adaptor,
                                       sigs.value.0, sigs.value.1, message.value);
          if sig.Err? then (this, Some(Crypto(sig.error)))
          else (this.(aggregatedSig := Some(sig.value)), None)
    }
  }

  const NEW_SIG := SigState(false, Infinity, None, None, None, None, None, None, None, [])
  const NEW_KEY := KeyState(false, None, None, None, None)

  class KeyCtx {
    const amBuyer: bool
    var mine: Option<SecKey>
    var peers: Option<KeyPair>
    var aggregated: Option<KeyPair>
    var keyAgg: Option<KeyAggCtx>

    function Value(): KeyState
      reads this
    {
      KeyState(amBuyer, mine, peers, aggregated, keyAgg)
    }

    constructor (amBuyer: bool)
      ensures Value() == NEW_KEY.(amBuyer := amBuyer)
    {
      this.amBuyer := amBuyer;
      mine, peers, aggregated, keyAgg := None, None, None, None;
    }

    method InitMyKeyShare(share: SecKey) returns (pub: Point)
      modifies this
      ensures Value() == old(Value()).(mine := Some(share))
      ensures pub == BaseMul(share)
    {
      mine := Some(share);
      pub := BaseMul(share);
    }

    method SetPeersKeyShare(pub: Point)
      modifies this
      ensures Value() == old(Value()).(peers := Some(KeyPair(pub, None)))
    {
      peers := Some(KeyPair(pub, None));
    }

    method AggregateKeyShares(h: Hashes<Message>) returns (err: Option<Failure>)
      modifies this
      ensures (Value(), err) == old(Value()).AggregateKeyShares(h)
    {
      var shares := Value().KeyShares();
      if shares.None? {
        return Some(MissingKeyShare);
      }
      var agg := NewKeyAgg(h, shares.value.0, shares.value.1);
      if agg.Err? {
        return Some(Crypto(agg.error));
      }
      aggregated := Some(KeyPair(agg.value.pubkey, None));
      keyAgg := Some(agg.value);
      err := None;
    }

    method AggregatePrvKeyShares() returns (err: Option<Failure>)
      modifies this
      ensures (Value(), err) == old(Value()).AggregatePrvKeyShares()
    {
      var shares := Value().PrvKeyShares();
      if shares.None? {
        return Some(MissingKeyShare);
      }
      if keyAgg.None? || aggregated.None? {
        return Some(MissingAggPubKey);
      }
      var sk := AggSecKey(keyAgg.value, shares.value.0, shares.value.1);
      if sk.Err? {
        return Some(Crypto(sk.error));
      }
      var (pair, e) := aggregated.value.SetPrvKey(sk.value);
      aggregated := Some(pair);
      err := e;
    }

    method SetPeersPrvKey(prvKey: Scalar) returns (err: Option<Failure>)
      modifies this
      ensures (Value(), err) == old(Value()).SetPeersPrvKey(prvKey)
    {
      if peers.None? {
        return Some(MissingKeyShare);
      }
      var (pair, e) := peers.value.SetPrvKey(prvKey);
      peers := Some(pair);
      err := e;
    }

    method SetSellersPrvKeyIfBuyer(prvKey: Scalar) returns (err: Option<Failure>)
      modifies this
      ensures (Value(), err) == old(Value()).SetSellersPrvKeyIfBuyer(prvKey)
    {
      err := None;
      if amBuyer {
        err := SetPeersPrvKey(prvKey);
      }
    }
  }

  class SigCtx {
    const amBuyer: bool
    var adaptor: Point
    var mine: Option<NoncePair>
    var peersNonce: Option<PubNonce>
    var aggregatedNonce: Option<PubNonce>
    var message: Option<Message>
    var myPartial: Option<Scalar>
    var peersPartial: Option<Scalar>
    var aggregatedSig: Option<AdaptorSig>
    ghost var spent: seq<SecNonce>

    ghost function Value(): SigState
      reads this
    {
      SigState(amBuyer, adaptor, mine, peersNonce, aggregatedNonce, message, myPartial, peersPartial, aggregatedSig,
               spent)
    }

    constructor (amBuyer: bool)
      ensures Value() == NEW_SIG.(amBuyer := amBuyer)
    {
      this.amBuyer := amBuyer;
      adaptor := Infinity;
      mine, peersNonce, aggregatedNonce, message := None, None, None, None;
      myPartial, peersPartial, aggregatedSig, spent := None, None, None, [];
    }

    method InitMyNonceShare(key: KeyCtx, nonce: SecNonce) returns (err: Option<Failure>)
      modifies this
      ensures (Value(), err) == old(Value()).InitMyNonceShare(old(key.Value()), nonce)
    {
      if key.aggregated.None? {
        return Some(MissingAggPubKey);
      }
      mine := Some(NoncePair(nonce.Public(), Some(nonce)));
      err := None;
    }

    method AggregateNonceShares() returns (err: Option<Failure>)
      modifies this
      ensures (Value(), err) == old(Value()).AggregateNonceShares()
    {
      if mine.None? || peersNonce.None? {
        return Some(MissingKeyShare);
      }
      var agg := if amBuyer then AggNonce(mine.value.pub, peersNonce.value)
                 else AggNonce(peersNonce.value, mine.value.pub);
      if agg.r1 == Infinity && agg.r2 == Infinity {
        return Some(ZeroNonce);
      }
      aggregatedNonce := Some(agg);
      err := None;
    }

    method SignPartial(h: Hashes<Message>, key: KeyCtx, msg: Message) returns (err: Option<Failure>)
      modifies this
      ensures (Value(), err) == old(Value()).SignPartial(h, old(key.Value()), msg)
    {
      if key.keyAgg.None? {
        return Some(MissingAggPubKey);
      }
      if key.mine.None? {
        return Some(MissingKeyShare);
      }
      if mine.None? {
        return Some(MissingNonceShare);
      }
      var secNonce := mine.value.sec;
      mine := Some(mine.value.(sec := None));
      if secNonce.None? {
        return Some(NonceReuse);
      }
      if aggregatedNonce.None? {
        return Some(MissingAggNonce);
      }
      spent := spent + [secNonce.value];
      var sig := Musig.SignPartial(h, key.keyAgg.value, key.mine.value, secNonce.value, aggregatedNonce.value, adaptor,
                                   msg);
      if sig.Err? {
        return Some(Crypto(sig.error));
      }
      message := Some(msg);
      myPartial := Some(sig.value);
      err := None;
    }

    method AggregatePartialSignatures(h: Hashes<Message>, key: KeyCtx) returns (err: Option<Failure>)
      modifies this
      ensures (Value(), err) == old(Value()).AggregatePartialSignatures(h, old(key.Value()))
    {
      if key.keyAgg.None? {
        return Some(MissingAggPubKey);
      }
      if aggregatedNonce.None? {
        return Some(MissingAggNonce);
      }
      if myPartial.None? || peersPartial.None? || message.None? {
        return Some(MissingPartialSig);
      }
      var s1, s2 := myPartial.value, peersPartial.value;
      if !amBuyer {
        s1, s2 := s2, s1;
      }
      var sig := AggregatePartials(h, key.keyAgg.value, aggregatedNonce.value, adaptor, s1, s2, message.value);
      if sig.Err? {
        return Some(Crypto(sig.error));
      }
      aggregatedSig := Some(sig.value);
      err := None;
    }
  }
}
