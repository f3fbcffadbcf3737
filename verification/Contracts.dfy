/** One signature made by two signers, and the transactions of the trade that
    carry such signatures: their construction, signing and completion. */
module Contracts {
  import opened Results
  import opened Scalars
  import opened Musig
  import opened Transactions
  import opened AggKeys
  import R = Redirects

  // ------------------------------------------------------ a two-party signature

  /** A signature in the making: the own share, then the aggregate. */
  datatype Adaptor = Adaptor(
    partialSig: Scalar, inputIndex: nat, pubAdaptor: Point, msg: nat, sig: Option<AdaptorSig>)

  /** signed is a history: the draws this context has signed with. */
  datatype TMuSig2 = TMuSig2(
    aggKey: AggKey,
    secNonce: SecNonce,
    pubNonce: PubNonce,
    aggNonce: Option<PubNonce>,
    otherNonce: Option<PubNonce>,
    adaptor: Option<Adaptor>,
    signed: seq<NonceTag>
  ) {
    /** The used nonce is overwritten by a constant. */
    function GenerateAdaptedPartialSig(env: Encoding, index: nat, pubAdaptor: Point, other: PubNonce,
                                       prevouts: seq<TxOut>, tx: Tx): (TMuSig2, Result<Scalar, Fault>)
    {
      var agg := AggNonce(pubNonce, other);
      var s := this.(aggNonce := Some(agg), otherNonce := Some(other));
      if index >= |tx.inputs| || |prevouts| != |tx.inputs| then (s, Err(NoPrevout))
      else if aggKey.agg.None? then (s, Err(Unset))
      else
        var msg := env.Sighash(index, prevouts, tx);
        var sig := SignPartial(env.h, aggKey.agg.value, aggKey.sec, secNonce, agg, pubAdaptor, msg);
        if sig.Err? then (s, Err(Crypto(sig.error)))
        else
          (s.(adaptor := Some(Adaptor(sig.value, index, pubAdaptor, msg, None)),
              secNonce := SecNonce(Placeholder, 1, 1),
              signed := signed + [secNonce.tag]),
           Ok(sig.value))
    }

    function AggregateSigs(env: Encoding, otherSig: Scalar): (TMuSig2, Option<Fault>) {
      if adaptor.None? || aggKey.agg.None? || aggNonce.None? || aggKey.otherPoint.None? || otherNonce.None?
      then (this, Some(Unset))
      else
        var ctx, a := aggKey.agg.value, adaptor.value;
        var check := VerifyPartial(env.h, ctx, otherSig, aggNonce.value, a.pubAdaptor, aggKey.otherPoint.value,
                                   otherNonce.value, a.msg);
        if check.Err? then (this, Some(Crypto(check.error)))
        else
          var sig := AggregatePartials(env.h, ctx, aggNonce.value, a.pubAdaptor, a.partialSig, otherSig, a.msg);
          if sig.Err? then (this, Some(Crypto(sig.error)))
          else if !VerifyAdaptor(env.h, ctx.pubkey, sig.value, a.msg, a.pubAdaptor)
          then (this.(adaptor := Some(a.(sig := Some(sig.value)))), Some(Crypto(BadSignature)))
          else (this.(adaptor := Some(a.(sig := Some(sig.value)))), None)
    }

    /** Puts the completed signature into the transaction. */
    function Sign(env: Encoding, secAdaptor: Scalar, tx: Tx): Result<Tx, Fault> {
      if adaptor.None? || adaptor.value.sig.None? || aggKey.agg.None? then Err(Unset)
      else
        var a := adaptor.value;
        var final := Adapt(env.h, a.sig.value, secAdaptor);
        if final.None? then Err(NotAdapted)
        else if !Verify(env.h, aggKey.agg.value.pubkey, final.value, a.msg) then Err(Crypto(BadSignature))
        else if a.inputIndex >= |tx.inputs| then Err(Unset)
        else Ok(WithWitness(tx, a.inputIndex, KeySpend(final.value)))
    }

    function RevealSecret(final: LiftedSig): Result<Scalar, Fault> {
      if adaptor.None? || adaptor.value.sig.None? then Err(Unset)
      else
        var secret := Reveal(adaptor.value.sig.value, final);
        if secret.None? || secret.value == 0 then Err(NotRevealed) else Ok(secret.value)
    }
  }

  /** A context takes an aggregate only if the other's share is right for the other's
      key and nonce, and the aggregate a valid adaptor signature, whatever is sent. */
  lemma OnlyValidAggregate(t: TMuSig2, env: Encoding, otherSig: Scalar)
    ensures
      var (t', fault) := t.AggregateSigs(env, otherSig);
      && t' == t.(adaptor := t'.adaptor)
      && (fault.None? ==>
            && t.adaptor.Some? && t.aggKey.agg.Some? && t'.adaptor.Some? && t'.adaptor.value.sig.Some?
            && t'.adaptor == Some(t.adaptor.value.(sig := t'.adaptor.value.sig))
            && VerifyAdaptor(env.h, t.aggKey.agg.value.pubkey, t'.adaptor.value.sig.value, t.adaptor.value.msg,
                             t.adaptor.value.pubAdaptor)
            && t.aggNonce.Some? && t.aggKey.otherPoint.Some? && t.otherNonce.Some?
            && VerifyPartial(env.h, t.aggKey.agg.value, otherSig, t.aggNonce.value, t.adaptor.value.pubAdaptor,
                             t.aggKey.otherPoint.value, t.otherNonce.value, t.adaptor.value.msg).Ok?)
      && (fault.Some? ==> t' == t)
  {
    hide VerifyPartial, VerifyAdaptor;
  }

  /** Whatever the aggregate and the secret, a transaction gets a witness only if that
      is a valid signature under the key for the message signed, at the input signed. */
  lemma OnlyValidWitness(t: TMuSig2, env: Encoding, secret: Scalar, tx: Tx)
    ensures
      var r := t.Sign(env, secret, tx);
      r.Ok? ==>
        && t.adaptor.Some? && t.aggKey.agg.Some? && t.adaptor.value.inputIndex < |tx.inputs|
        && Strip(r.value) == Strip(tx) && |r.value.inputs| == |tx.inputs|
        && var i := t.adaptor.value.inputIndex;
        && r.value.inputs[i].wit.KeySpend?
        && Verify(env.h, t.aggKey.agg.value.pubkey, r.value.inputs[i].wit.sig, t.adaptor.value.msg)
        && forall j :: 0 <= j < |tx.inputs| && j != i ==> r.value.inputs[j] == tx.inputs[j]
  {
    hide Adapt, Verify;
    var r := t.Sign(env, secret, tx);
    if r.Ok? {
      assert Strip(r.value).inputs == Strip(tx).inputs;
    }
  }

  /** A secret comes out exactly if the signature reveals one, and it is not zero. */
  lemma OnlyRealSecret(t: TMuSig2, final: LiftedSig)
    ensures
      var r := t.RevealSecret(final);
      && (r.Ok? <==> && t.adaptor.Some? && t.adaptor.value.sig.Some?
                     && Reveal(t.adaptor.value.sig.value, final).Some?
                     && Reveal(t.adaptor.value.sig.value, final).value != 0)
      && (r.Ok? ==> Reveal(t.adaptor.value.sig.value, final) == Some(r.value))
  {
    hide Reveal;
  }

  function NewSigning(key: AggKey, nonce: SecNonce): TMuSig2 {
    TMuSig2(key, nonce, nonce.Public(), None, None, None, [])
  }

  function KeyPathSignature(tx: Tx, index: nat): Option<LiftedSig> {
    if index >= |tx.inputs| || !tx.inputs[index].wit.KeySpend? then None
    else Some(tx.inputs[index].wit.sig)
  }

  // ------------------------------------------------------ the transactions

  datatype Role = Seller | Buyer {
    function Other(): Role {
      match this case Seller => Buyer case Buyer => Seller
    }
  }

  const ANCHOR: Amount := R.ANCHOR
  const FEE: Amount := R.FEE
  const T1: U32 := 1
  const T2: U32 := 2
  const MAX_AMOUNT: Amount := 0xFFFF_FFFF_FFFF_FFFF

  /** An input that spends the output locked by this key. */
  function TxInFor(env: Encoding, tx: Tx, key: AggKey): Option<TxIn> {
    var script := key.AggScript(env);
    if script.None? then None
    else
      var index := OutputIndex(tx.outputs, script.value);
      if index.None? || index.value >= 0x1_0000_0000 then None
      else Some(TxIn(OutPoint(env.Txid(tx), index.value), SEQUENCE_MAX, Unsigned))
  }

  function FundsOutPoint(env: Encoding, warning: Tx): OutPoint {
    OutPoint(env.Txid(warning), 0)
  }

  /** Pays the whole deposit, less fee and anchor, to one of the two keys. */
  function WarningOf(env: Encoding, funds: Amount, key: Script, anchor: Script, p: TxIn, q: TxIn): Tx {
    Tx([p, q], [TxOut(funds, key), TxOut(ANCHOR, anchor)])
  }

  function ClaimOf(env: Encoding, warning: Tx, spend: Script): Tx
    requires warning.outputs != [] && warning.outputs[0].value >= FEE
  {
    Tx([TxIn(FundsOutPoint(env, warning), T2, Unsigned)], [TxOut(warning.outputs[0].value - FEE, spend)])
  }

  function Saturated(x: nat): Amount {
    if x <= MAX_AMOUNT then x else MAX_AMOUNT
  }

  function RedirectOf(env: Encoding, warning: Tx, anchor: Script): Tx
    requires warning.outputs != [] && warning.outputs[0].value >= FEE
  {
    var amount := warning.outputs[0].value - FEE;
    Tx([TxIn(FundsOutPoint(env, warning), T1, Unsigned)],
       [TxOut(Saturated(R.Share60(amount)), env.dao60), TxOut(Saturated(R.Share40(amount)), env.dao40),
        TxOut(ANCHOR, anchor)])
  }

  function SwapOf(env: Encoding, input: TxIn, value: Amount, spend: Script): Tx
    requires value >= FEE
  {
    Tx([input], [TxOut(value - FEE, spend)])
  }

  /** A transaction with one input that both sign: a swap, claim or redirect transaction. */
  datatype SpendTx = SpendTx(spend: Option<Script>, sig: Option<TMuSig2>, tx: Option<Tx>) {
    function BuildSwap(env: Encoding, role: Role, q: AggKey, deposit: Tx, peers: Option<Script>, nonce: SecNonce)
      : (SpendTx, Option<Fault>) {
      var input := TxInFor(env, deposit, q);
      if input.None? || q.agg.None? then (this, Some(NoOutput))
      else
        var s := this.(sig := Some(NewSigning(q, nonce)));
        var use := if role.Seller? then spend else peers;
        if use.None? then (s, Some(NoSwapScript))
        else if input.value.prev.vout >= |deposit.outputs| || deposit.outputs[input.value.prev.vout].value < FEE
        then (s, Some(AmountOverflow))
        else (s.(tx := Some(SwapOf(env, input.value, deposit.outputs[input.value.prev.vout].value, use.value))), None)
    }

    function BuildClaim(env: Encoding, tik: AggKey, warning: Option<Tx>, nonce: SecNonce): (SpendTx, Option<Fault>) {
      if tik.agg.None? then (this, Some(Unset))
      else
        var s := this.(sig := Some(NewSigning(tik, nonce)));
        if warning.None? || warning.value.outputs == [] || spend.None? then (s, Some(Unset))
        else if warning.value.outputs[0].value < FEE then (s, Some(AmountOverflow))
        else (s.(tx := Some(ClaimOf(env, warning.value, spend.value))), None)
    }

    function BuildRedirect(env: Encoding, tik: AggKey, warning: Option<Tx>, nonce: SecNonce): (SpendTx, Option<Fault>) {
      if tik.agg.None? then (this, Some(Unset))
      else
        var s := this.(sig := Some(NewSigning(tik, nonce)));
        if warning.None? || warning.value.outputs == [] || spend.None? then (s, Some(Unset))
        else if warning.value.outputs[0].value < FEE then (s, Some(AmountOverflow))
        else (s.(tx := Some(RedirectOf(env, warning.value, spend.value))), None)
    }

    /** The own share, for the only input. */
    function BuildPartialSig(env: Encoding, prev: Option<Tx>, pubAdaptor: Point, other: PubNonce)
      : (SpendTx, Result<Scalar, Fault>) {
      if prev.None? || tx.None? then (this, Err(Unset))
      else
        var prevouts := Prevouts(env, prev.value, tx.value.inputs);
        if prevouts.None? then (this, Err(NoPrevout))
        else if sig.None? then (this, Err(Unset))
        else
          var (s, r) := sig.value.GenerateAdaptedPartialSig(env, 0, pubAdaptor, other, prevouts.value, tx.value);
          (this.(sig := Some(s)), r)
    }

    function Aggregate(env: Encoding, otherSig: Scalar): (SpendTx, Option<Fault>) {
      if sig.None? then (this, Some(Unset))
      else
        var (s, fault) := sig.value.AggregateSigs(env, otherSig);
        (this.(sig := Some(s)), fault)
    }

    function Complete(env: Encoding, secAdaptor: Scalar): (SpendTx, Option<Fault>) {
      if sig.None? || tx.None? then (this, Some(Unset))
      else
        var signed := sig.value.Sign(env, secAdaptor, tx.value);
        if signed.Err? then (this, Some(signed.error)) else (this.(tx := Some(signed.value)), None)
    }

    function AggregateSigs(env: Encoding, otherSig: Scalar): (SpendTx, Option<Fault>) {
      var (s, fault) := Aggregate(env, otherSig);
      if fault.Some? then (s, fault) else s.Complete(env, 0)
    }
  }

  /** A warning transaction: it spends both deposit outputs. */
  datatype WarningTx = WarningTx(
    role: Role, anchor: Option<Script>, sigP: Option<TMuSig2>, sigQ: Option<TMuSig2>, tx: Option<Tx>)
  {
    function KeySpent(p: AggKey, q: AggKey): AggKey {
      if role.Seller? then q else p
    }

    function Build(env: Encoding, seller: Amount, buyer: Amount, p: AggKey, q: AggKey, deposit: Option<Tx>,
                   nonceP: SecNonce, nonceQ: SecNonce): (WarningTx, Option<Fault>)
    {
      if p.agg.None? then (this, Some(Unset))
      else
        var w := this.(sigP := Some(NewSigning(p, nonceP)));
        if q.agg.None? then (w, Some(Unset))
        else
          var w := w.(sigQ := Some(NewSigning(q, nonceQ)));
          if buyer + seller > MAX_AMOUNT || buyer + seller < ANCHOR + FEE then (w, Some(AmountOverflow))
          else if anchor.None? || deposit.None? then (w, Some(Unset))
          else
            var inP, inQ := TxInFor(env, deposit.value, p), TxInFor(env, deposit.value, q);
            if inP.None? || inQ.None? then (w, Some(NoOutput))
            else
              (w.(tx := Some(WarningOf(env, buyer + seller - ANCHOR - FEE, KeySpent(p, q).AggScript(env).value,
                                       anchor.value, inP.value, inQ.value))), None)
    }

    function BuildPartialSig(env: Encoding, deposit: Option<Tx>, otherP: PubNonce, otherQ: PubNonce)
      : (WarningTx, Result<(Scalar, Scalar), Fault>)
    {
      if deposit.None? || tx.None? then (this, Err(Unset))
      else
        var prevouts := Prevouts(env, deposit.value, tx.value.inputs);
        if prevouts.None? then (this, Err(NoPrevout))
        else if sigP.None? then (this, Err(Unset))
        else
          var (p, partP) := sigP.value.GenerateAdaptedPartialSig(env, 0, Infinity, otherP, prevouts.value, tx.value);
          var w := this.(sigP := Some(p));
          if partP.Err? then (w, Err(partP.error))
          else if sigQ.None? then (w, Err(Unset))
          else
            var (q, partQ) := sigQ.value.GenerateAdaptedPartialSig(env, 1, Infinity, otherQ, prevouts.value, tx.value);
            var w := w.(sigQ := Some(q));
            if partQ.Err? then (w, Err(partQ.error)) else (w, Ok((partP.value, partQ.value)))
    }

    function AggregateSigs(env: Encoding, otherP: Scalar, otherQ: Scalar): (WarningTx, Option<Fault>) {
      if sigP.None? then (this, Some(Unset))
      else
        var (p, fault) := sigP.value.AggregateSigs(env, otherP);
        var w := this.(sigP := Some(p));
        if fault.Some? then (w, fault)
        else if sigQ.None? then (w, Some(Unset))
        else
          var (q, fault') := sigQ.value.AggregateSigs(env, otherQ);
          var w := w.(sigQ := Some(q));
          if fault'.Some? then (w, fault')
          else if tx.None? then (w, Some(Unset))
          else
            var first := p.Sign(env, 0, tx.value);
            if first.Err? then (w, Some(first.error))
            else
              var second := q.Sign(env, 0, first.value);
              if second.Err? then (w, Some(second.error)) else (w.(tx := Some(second.value)), None)
    }
  }

  function EmptySpend(): SpendTx {
    SpendTx(None, None, None)
  }

  function EmptyWarning(role: Role): WarningTx {
    WarningTx(role, None, None, None, None)
  }
}
