/** Two honest signers on one input: their contexts agree on the nonce and the
    message, the shares aggregate unless the nonces cancel, and the signature is
    valid for the output being spent. */
module HonestSigning {
  import opened Results
  import opened Scalars
  import opened Musig
  import opened Transactions
  import opened AggKeys
  import opened DepositTxs
  import opened Contracts

  /** The two views of one key, by the holders of its two secrets. */
  ghost predicate Partners(a: AggKey, b: AggKey) {
    && Mirrored(a, b)
    && (KeysOf(a.agg.value, a.sec, b.sec) || KeysOf(a.agg.value, b.sec, a.sec))
  }

  lemma AggregatedPartners(env: Encoding, a: AggKey, b: AggKey)
    requires Comparable(env, a.PubPoint(), b.PubPoint())
    requires a.AggregateKey(env, b.PubPoint()).Ok?
    ensures b.AggregateKey(env, a.PubPoint()).Ok?
    ensures Partners(a.AggregateKey(env, b.PubPoint()).value, b.AggregateKey(env, a.PubPoint()).value)
    ensures Partners(b.AggregateKey(env, a.PubPoint()).value, a.AggregateKey(env, b.PubPoint()).value)
  {
    AggregateAgrees(env, a, b);
    KeysOfAggregate(env.h, a.sec, b.sec);
    KeysOfAggregate(env.h, b.sec, a.sec);
    hide NewKeyAgg, TapTweaked, KeysOf;
  }

  lemma PartnersAgg(a: AggKey, b: AggKey)
    requires Partners(a, b)
    ensures a.agg.Some? && a.agg == b.agg && a.otherPoint == Some(BaseMul(b.sec)) && Partners(b, a)
  {
    hide KeysOf;
  }

  /** The message both sign, and the aggregate of their nonces. */
  function SumOf(env: Encoding, key: AggKey, mine: SecNonce, theirs: SecNonce, msg: nat): Point
    requires key.agg.Some?
  {
    NonceSum(env.h, key.agg.value.pubkey, AggNonce(mine.Public(), theirs.Public()), msg)
  }

  function NoncesOf(n: SecNonce, n': SecNonce): PubNonce {
    AggNonce(n.Public(), n'.Public())
  }

  /** The share of key's holder, who drew n. */
  function Part(env: Encoding, key: AggKey, n: SecNonce, n': SecNonce, point: Point, msg: nat): Scalar
    requires key.agg.Some?
  {
    var sig := SignPartial(env.h, key.agg.value, key.sec, n, NoncesOf(n, n'), point, msg);
    if sig.Ok? then sig.value else 0
  }

  /** What the two shares make together. */
  function Joint(env: Encoding, a: AggKey, b: AggKey, n: SecNonce, n': SecNonce, point: Point, msg: nat): AdaptorSig
    requires a.agg.Some? && b.agg.Some?
  {
    var sig := AggregatePartials(env.h, a.agg.value, NoncesOf(n, n'), point,
                                 Part(env, a, n, n', point, msg), Part(env, b, n', n, point, msg), msg);
    if sig.Ok? then sig.value else AdaptorSig(Infinity, 0)
  }

  /** The shares of two partners. */
  lemma PartsFit(env: Encoding, a: AggKey, b: AggKey, n: SecNonce, n': SecNonce, point: Point, msg: nat)
    requires Partners(a, b)
    ensures
      var ctx, agg := a.agg.value, NoncesOf(n, n');
      var mine, theirs := Part(env, a, n, n', point, msg), Part(env, b, n', n, point, msg);
      && NoncesOf(n', n) == agg
      && SignPartial(env.h, ctx, a.sec, n, agg, point, msg) == Ok(mine)
      && VerifyPartial(env.h, ctx, theirs, agg, point, BaseMul(b.sec), n'.Public(), msg).Ok?
      && var sig := AggregatePartials(env.h, ctx, agg, point, mine, theirs, msg);
      && sig == AggregatePartials(env.h, ctx, agg, point, theirs, mine, msg)
      && (sig.Ok? <==> SumOf(env, a, n, n', msg) != Infinity)
  {
    hide NonceSum, SignPartial, VerifyPartial, VerifyAdaptor, AggregatePartials;
    var ctx, agg := a.agg.value, NoncesOf(n, n');
    assert NoncesOf(n', n) == agg;
    hide AggNonce;
    SigningSucceeds(env.h, ctx, b.sec, n', agg, point, msg);
    if KeysOf(ctx, a.sec, b.sec) {
      HonestAggregation(env.h, ctx, a.sec, b.sec, n, n', point, msg);
    } else {
      HonestAggregation(env.h, ctx, b.sec, a.sec, n', n, point, msg);
    }
  }

  /** Both sides get the same joint signature, and adapting it by the secret
      behind the adaptor point makes it valid and shows that secret. */
  lemma JointIs(env: Encoding, a: AggKey, b: AggKey, n: SecNonce, n': SecNonce, t: Scalar, msg: nat)
    requires Partners(a, b)
    requires SumOf(env, a, n, n', msg) != Infinity
    ensures
      var sig := Joint(env, a, b, n, n', BaseMul(t), msg);
      && sig == Joint(env, b, a, n', n, BaseMul(t), msg)
      && sig.r == SumOf(env, a, n, n', msg)
      && VerifyAdaptor(env.h, a.agg.value.pubkey, sig, msg, BaseMul(t))
      && (Adapt(env.h, sig, t).Some? <==> PAdd(sig.r, BaseMul(t)) != Infinity)
      && (Adapt(env.h, sig, t).Some? ==>
            && Verify(env.h, a.agg.value.pubkey, Adapt(env.h, sig, t).value, msg)
            && Reveal(sig, Adapt(env.h, sig, t).value) == Some(t))
  {
    PartsFit(env, a, b, n, n', BaseMul(t), msg);
    PartnersAgg(a, b);
    hide Part, SignPartial, VerifyPartial, NonceSum, Partners, Reveal, Verify, VerifyAdaptor, Adapt;
    var mine, theirs := Part(env, a, n, n', BaseMul(t), msg), Part(env, b, n', n, BaseMul(t), msg);
    AggregateVerifies(env.h, a.agg.value, NoncesOf(n, n'), BaseMul(t), mine, theirs, msg);
    var sig := Joint(env, a, b, n, n', BaseMul(t), msg);
    SumAsFirst(env, a, n, n', BaseMul(t), mine, theirs, msg);
    AdaptVerifies(env.h, a.agg.value.pubkey, sig, msg, t);
    if Adapt(env.h, sig, t).Some? {
      RevealInvertsAdapt(env.h, sig, t);
    }
  }

  lemma SumAsFirst(env: Encoding, a: AggKey, n: SecNonce, n': SecNonce, point: Point, s1: Scalar, s2: Scalar, msg: nat)
    requires a.agg.Some? && SumOf(env, a, n, n', msg) != Infinity
    requires AggregatePartials(env.h, a.agg.value, NoncesOf(n, n'), point, s1, s2, msg).Ok?
    ensures AggregatePartials(env.h, a.agg.value, NoncesOf(n, n'), point, s1, s2, msg).value.r
            == SumOf(env, a, n, n', msg)
  {
    hide VerifyAdaptor, NonceSum;
  }

  // ------------------------------------------------------ contexts

  /** A context after its own share was made over msg. */
  function Shared(env: Encoding, key: AggKey, n: SecNonce, n': SecNonce, index: nat, point: Point, msg: nat): TMuSig2
    requires key.agg.Some?
  {
    TMuSig2(key, SecNonce(Placeholder, 1, 1), n.Public(), Some(NoncesOf(n, n')), Some(n'.Public()),
            Some(Adaptor(Part(env, key, n, n', point, msg), index, point, msg, None)), [n.tag])
  }

  /** The same after aggregation. */
  function Done(env: Encoding, a: AggKey, b: AggKey, n: SecNonce, n': SecNonce, index: nat, point: Point, msg: nat)
    : TMuSig2
    requires a.agg.Some? && b.agg.Some?
  {
    var s := Shared(env, a, n, n', index, point, msg);
    s.(adaptor := Some(s.adaptor.value.(sig := Some(Joint(env, a, b, n, n', point, msg)))))
  }

  lemma ContextShares(env: Encoding, a: AggKey, b: AggKey, n: SecNonce, n': SecNonce, index: nat, point: Point,
                      prevouts: seq<TxOut>, tx: Tx)
    requires Partners(a, b) && index < |tx.inputs| == |prevouts|
    ensures
      var msg := env.Sighash(index, prevouts, tx);
      NewSigning(a, n).GenerateAdaptedPartialSig(env, index, point, n'.Public(), prevouts, tx)
      == (Shared(env, a, n, n', index, point, msg), Ok(Part(env, a, n, n', point, msg)))
  {
    PartsFit(env, a, b, n, n', point, env.Sighash(index, prevouts, tx));
    hide SignPartial, Part, KeysOf, AggregatePartials, VerifyPartial;
    assert NewSigning(a, n).signed + [n.tag] == [n.tag];
  }

  lemma ContextAggregates(env: Encoding, a: AggKey, b: AggKey, n: SecNonce, n': SecNonce, index: nat, t: Scalar,
                          msg: nat)
    requires Partners(a, b)
    ensures
      var r := Shared(env, a, n, n', index, BaseMul(t), msg).AggregateSigs(env, Part(env, b, n', n, BaseMul(t), msg));
      && (r.1 == None <==> SumOf(env, a, n, n', msg) != Infinity)
      && (r.1 == None ==> r.0 == Done(env, a, b, n, n', index, BaseMul(t), msg))
  {
    PartsFit(env, a, b, n, n', BaseMul(t), msg);
    if SumOf(env, a, n, n', msg) != Infinity {
      JointIs(env, a, b, n, n', t, msg);
    }
    hide SumOf, Part, KeysOf, VerifyPartial, VerifyAdaptor, SignPartial, AggregatePartials, Adapt, Verify, Reveal;
  }

  lemma ContextSigns(env: Encoding, a: AggKey, b: AggKey, n: SecNonce, n': SecNonce, index: nat, t: Scalar, msg: nat,
                     tx: Tx)
    requires Partners(a, b) && index < |tx.inputs|
    requires SumOf(env, a, n, n', msg) != Infinity
    ensures
      var final := Adapt(env.h, Joint(env, a, b, n, n', BaseMul(t), msg), t);
      var r := Done(env, a, b, n, n', index, BaseMul(t), msg).Sign(env, t, tx);
      && (r.Ok? <==> PAdd(SumOf(env, a, n, n', msg), BaseMul(t)) != Infinity)
      && (r.Ok? ==> final.Some? && r == Ok(WithWitness(tx, index, KeySpend(final.value)))
                    && Verify(env.h, a.agg.value.pubkey, final.value, msg))
  {
    JointIs(env, a, b, n, n', t, msg);
    hide SumOf, Part, Joint, KeysOf, VerifyAdaptor, Adapt, Verify, Reveal, WithWitness;
  }

  // ------------------------------------------------------ valid spends

  /** BIP 341, section "Script validation rules": input i carries a signature for
      the output key, over the outputs that tx spends. */
  ghost predicate ValidKeySpend(env: Encoding, prev: Tx, tx: Tx, i: nat) {
    var prevouts := Prevouts(env, prev, tx.inputs);
    && i < |tx.inputs| && prevouts.Some? && i < |prevouts.value|
    && prevouts.value[i].script.P2tr? && tx.inputs[i].wit.KeySpend?
    && Verify(env.h, prevouts.value[i].script.key, tx.inputs[i].wit.sig, env.Sighash(i, prevouts.value, tx))
  }

  lemma EvenKeyVerifies(env: Encoding, q: Point, sig: LiftedSig, msg: nat)
    ensures Verify(env.h, env.h.Even(q), sig, msg) <==> Verify(env.h, q, sig, msg)
  {
    assert env.h.Even(env.h.Even(q)) == env.h.Even(q);
  }

  function MessageOf(env: Encoding, prev: Tx, tx: Tx, i: nat): nat {
    var prevouts := Prevouts(env, prev, tx.inputs);
    if prevouts.Some? then env.Sighash(i, prevouts.value, tx) else 0
  }

  /** Input i of tx spends an output of prev that this key locks. */
  predicate Unlocks(env: Encoding, prev: Tx, tx: Tx, i: nat, key: AggKey) {
    var prevouts := Prevouts(env, prev, tx.inputs);
    && key.agg.Some? && i < |tx.inputs|
    && prevouts.Some? && |prevouts.value| == |tx.inputs|
    && prevouts.value[i].script == P2tr(env.h.Even(key.agg.value.pubkey))
  }

  /** A valid signature for the message stays valid when other witnesses come in. */
  lemma SignatureSpends(env: Encoding, prev: Tx, prev': Tx, tx: Tx, tx': Tx, i: nat, key: AggKey, sig: LiftedSig)
    requires Unlocks(env, prev, tx, i, key)
    requires Strip(prev') == Strip(prev) && Strip(tx') == Strip(tx) && |tx'.inputs| == |tx.inputs|
    requires tx'.inputs[i].wit == KeySpend(sig)
    requires Verify(env.h, key.agg.value.pubkey, sig, MessageOf(env, prev, tx, i))
    ensures ValidKeySpend(env, prev', tx', i)
  {
    WitnessesDoNotCount(env, prev, prev');
    WitnessesDoNotCount(env, tx, tx');
    PrevoutsOfBare(env, prev, tx, tx');
    var prevouts := Prevouts(env, prev, tx.inputs).value;
    EvenKeyVerifies(env, key.agg.value.pubkey, sig, env.Sighash(i, prevouts, tx));
    hide Prevouts, Verify, Strip;
  }

  // ------------------------------------------------------ transactions with one input

  lemma SpendShares(env: Encoding, a: AggKey, b: AggKey, n: SecNonce, n': SecNonce, point: Point, x: SpendTx,
                    prev: Tx, prev': Tx)
    requires Partners(a, b)
    requires x.tx.Some? && x.sig == Some(NewSigning(a, n)) && Unlocks(env, prev, x.tx.value, 0, a)
    requires Strip(prev') == Strip(prev)
    ensures
      var msg := MessageOf(env, prev, x.tx.value, 0);
      x.BuildPartialSig(env, Some(prev'), point, n'.Public())
      == (x.(sig := Some(Shared(env, a, n, n', 0, point, msg))), Ok(Part(env, a, n, n', point, msg)))
  {
    WitnessesDoNotCount(env, prev, prev');
    ContextShares(env, a, b, n, n', 0, point, Prevouts(env, prev, x.tx.value.inputs).value, x.tx.value);
    hide Prevouts, Part, Shared, Partners, Strip, TMuSig2.GenerateAdaptedPartialSig, Encoding.Sighash;
  }

  lemma SpendAggregates(env: Encoding, a: AggKey, b: AggKey, n: SecNonce, n': SecNonce, t: Scalar, x: SpendTx, msg: nat)
    requires Partners(a, b)
    requires x.sig == Some(Shared(env, a, n, n', 0, BaseMul(t), msg))
    ensures
      var (x', fault) := x.Aggregate(env, Part(env, b, n', n, BaseMul(t), msg));
      && (fault == None <==> SumOf(env, a, n, n', msg) != Infinity)
      && (fault == None ==> x' == x.(sig := Some(Done(env, a, b, n, n', 0, BaseMul(t), msg))))
  {
    ContextAggregates(env, a, b, n, n', 0, t, msg);
    hide SumOf, Part, Shared, Done, Partners, TMuSig2.AggregateSigs;
  }

  lemma SpendCompletes(env: Encoding, a: AggKey, b: AggKey, n: SecNonce, n': SecNonce, t: Scalar, x: SpendTx, msg: nat)
    requires Partners(a, b) && x.tx.Some? && |x.tx.value.inputs| > 0
    requires SumOf(env, a, n, n', msg) != Infinity
    requires x.sig == Some(Done(env, a, b, n, n', 0, BaseMul(t), msg))
    ensures
      var (x', fault) := x.Complete(env, t);
      var final := Adapt(env.h, Joint(env, a, b, n, n', BaseMul(t), msg), t);
      && (fault == None <==> PAdd(SumOf(env, a, n, n', msg), BaseMul(t)) != Infinity)
      && (fault == None ==>
            && final.Some? && Verify(env.h, a.agg.value.pubkey, final.value, msg)
            && x' == x.(tx := Some(WithWitness(x.tx.value, 0, KeySpend(final.value)))))
  {
    ContextSigns(env, a, b, n, n', 0, t, msg, x.tx.value);
    hide SumOf, Joint, Done, Partners, Adapt, Verify, WithWitness, TMuSig2.Sign;
  }

  /** Claim and redirect transactions: aggregation ends in a valid spend. */
  lemma SpendAggregatesToValid(env: Encoding, a: AggKey, b: AggKey, n: SecNonce, n': SecNonce, x: SpendTx, prev: Tx)
    requires Partners(a, b)
    requires x.tx.Some? && |x.tx.value.inputs| == 1 && Unlocks(env, prev, x.tx.value, 0, a)
    requires x.sig == Some(Shared(env, a, n, n', 0, Infinity, MessageOf(env, prev, x.tx.value, 0)))
    ensures
      var msg := MessageOf(env, prev, x.tx.value, 0);
      var (x', fault) := x.AggregateSigs(env, Part(env, b, n', n, Infinity, msg));
      && (fault == None <==> SumOf(env, a, n, n', msg) != Infinity)
      && (fault == None ==>
            && x'.tx.Some? && Strip(x'.tx.value) == Strip(x.tx.value) && |x'.tx.value.inputs| == 1
            && forall prev' :: Strip(prev') == Strip(prev) ==> ValidKeySpend(env, prev', x'.tx.value, 0))
  {
    var msg := MessageOf(env, prev, x.tx.value, 0);
    var part := Part(env, b, n', n, Infinity, msg);
    SpendAggregates(env, a, b, n, n', 0, x, msg);
    var (x1, fault) := x.Aggregate(env, part);
    if fault == None {
      SpendCompletes(env, a, b, n, n', 0, x1, msg);
      var x2 := x1.Complete(env, 0).0;
      PlusNothing(SumOf(env, a, n, n', msg));
      var final := Adapt(env.h, Joint(env, a, b, n, n', Infinity, msg), 0).value;
      forall prev' | Strip(prev') == Strip(prev) ensures ValidKeySpend(env, prev', x2.tx.value, 0) {
        SignatureSpends(env, prev, prev', x.tx.value, x2.tx.value, 0, a, final);
      }
    }
    hide SumOf, Part, Joint, Shared, Done, Partners, Adapt, Verify, Unlocks, MessageOf, ValidKeySpend, Strip,
         SpendTx.Aggregate, SpendTx.Complete;
  }

  lemma PlusNothing(p: Point)
    ensures PAdd(p, BaseMul(0)) == p && BaseMul(0) == Infinity
  {
  }

  // ------------------------------------------------------ warning transactions

  lemma WarningShares(env: Encoding, p: AggKey, p': AggKey, q: AggKey, q': AggKey,
                      n: SecNonce, n': SecNonce, m: SecNonce, m': SecNonce, w: WarningTx, prev: Tx, prev': Tx)
    requires Partners(p, p') && Partners(q, q')
    requires w.tx.Some? && w.sigP == Some(NewSigning(p, n)) && w.sigQ == Some(NewSigning(q, m))
    requires Unlocks(env, prev, w.tx.value, 0, p) && Unlocks(env, prev, w.tx.value, 1, q)
    requires Strip(prev') == Strip(prev)
    ensures
      var msg, msg' := MessageOf(env, prev, w.tx.value, 0), MessageOf(env, prev, w.tx.value, 1);
      w.BuildPartialSig(env, Some(prev'), n'.Public(), m'.Public())
      == (w.(sigP := Some(Shared(env, p, n, n', 0, Infinity, msg)),
             sigQ := Some(Shared(env, q, m, m', 1, Infinity, msg'))),
          Ok((Part(env, p, n, n', Infinity, msg), Part(env, q, m, m', Infinity, msg'))))
  {
    WitnessesDoNotCount(env, prev, prev');
    var prevouts := Prevouts(env, prev, w.tx.value.inputs).value;
    ContextShares(env, p, p', n, n', 0, Infinity, prevouts, w.tx.value);
    ContextShares(env, q, q', m, m', 1, Infinity, prevouts, w.tx.value);
    hide Prevouts, Part, Shared, Partners, Strip, TMuSig2.GenerateAdaptedPartialSig, Encoding.Sighash;
  }

  lemma WarningAggregatesToValid(env: Encoding, p: AggKey, p': AggKey, q: AggKey, q': AggKey,
                                 n: SecNonce, n': SecNonce, m: SecNonce, m': SecNonce, w: WarningTx, prev: Tx)
    requires Partners(p, p') && Partners(q, q')
    requires w.tx.Some? && |w.tx.value.inputs| == 2
    requires Unlocks(env, prev, w.tx.value, 0, p) && Unlocks(env, prev, w.tx.value, 1, q)
    requires w.sigP == Some(Shared(env, p, n, n', 0, Infinity, MessageOf(env, prev, w.tx.value, 0)))
    requires w.sigQ == Some(Shared(env, q, m, m', 1, Infinity, MessageOf(env, prev, w.tx.value, 1)))
    ensures
      var msg, msg' := MessageOf(env, prev, w.tx.value, 0), MessageOf(env, prev, w.tx.value, 1);
      var (w', fault) := w.AggregateSigs(env, Part(env, p', n', n, Infinity, msg),
                                         Part(env, q', m', m, Infinity, msg'));
      && (fault == None <==> SumOf(env, p, n, n', msg) != Infinity && SumOf(env, q, m, m', msg') != Infinity)
      && (fault == None ==>
            && w'.tx.Some? && Strip(w'.tx.value) == Strip(w.tx.value) && |w'.tx.value.inputs| == 2
            && forall prev' :: Strip(prev') == Strip(prev) ==>
                 ValidKeySpend(env, prev', w'.tx.value, 0) && ValidKeySpend(env, prev', w'.tx.value, 1))
  {
    var msg, msg' := MessageOf(env, prev, w.tx.value, 0), MessageOf(env, prev, w.tx.value, 1);
    ContextAggregates(env, p, p', n, n', 0, 0, msg);
    ContextAggregates(env, q, q', m, m', 1, 0, msg');
    var sum, sum' := SumOf(env, p, n, n', msg), SumOf(env, q, m, m', msg');
    PlusNothing(sum);
    PlusNothing(sum');
    if sum != Infinity && sum' != Infinity {
      ContextSigns(env, p, p', n, n', 0, 0, msg, w.tx.value);
      var final := Adapt(env.h, Joint(env, p, p', n, n', Infinity, msg), 0).value;
      var tx1 := WithWitness(w.tx.value, 0, KeySpend(final));
      ContextSigns(env, q, q', m, m', 1, 0, msg', tx1);
      var final' := Adapt(env.h, Joint(env, q, q', m, m', Infinity, msg'), 0).value;
      var tx2 := WithWitness(tx1, 1, KeySpend(final'));
      forall prev' | Strip(prev') == Strip(prev)
        ensures ValidKeySpend(env, prev', tx2, 0) && ValidKeySpend(env, prev', tx2, 1)
      {
        SignatureSpends(env, prev, prev', w.tx.value, tx2, 0, p, final);
        SignatureSpends(env, prev, prev', w.tx.value, tx2, 1, q, final');
      }
    }
    hide SumOf, Part, Joint, Shared, Done, Partners, Adapt, Verify, Unlocks, MessageOf, ValidKeySpend, Strip,
         TMuSig2.AggregateSigs, TMuSig2.Sign;
  }
}
