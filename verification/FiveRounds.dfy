/** One trader's side of the five-round protocol: the messages, what each round
    makes of the state, and the object that goes through the rounds. */
module FiveRounds {
  import opened Results
  import opened Scalars
  import opened Musig
  import opened Transactions
  import opened AggKeys
  import opened Deposits
  import opened DepositTxs
  import opened Contracts

  datatype Round1Parameter = Round1Parameter(
    pA: Point, qA: Point, depPartPsbt: Psbt, swapScript: Option<Script>,
    warnAnchorSpend: Script, claimSpend: Script, redirectAnchorSpend: Script)

  datatype Round2Parameter = Round2Parameter(
    pAgg: Point, qAgg: Point, depositTxSigned: Psbt, swap: PubNonce,
    warnAliceP: PubNonce, warnAliceQ: PubNonce, warnBobP: PubNonce, warnBobQ: PubNonce,
    claimAlice: PubNonce, claimBob: PubNonce, redirectAlice: PubNonce, redirectBob: PubNonce)

  datatype Round3Parameter = Round3Parameter(
    depositTxid: nat, swapPartSig: Scalar, pPartPeer: Scalar, qPartPeer: Scalar,
    claimPartSig: Scalar, redirectPartSig: Scalar)

  datatype Round4Parameter = Round4Parameter(swapOnchain: Option<Tx>)

  /** The fresh addresses a trader's wallet gives out in the first round. */
  datatype Addresses = Addresses(swap: Script, warnAnchor: Script, claim: Script, redirectAnchor: Script)

  /** The random nonces drawn in the second round, one for each signature. */
  datatype Nonces = Nonces(
    swap: SecNonce, warnMeP: SecNonce, warnMeQ: SecNonce, warnPeerP: SecNonce, warnPeerQ: SecNonce,
    claimMe: SecNonce, claimPeer: SecNonce, redirectMe: SecNonce, redirectPeer: SecNonce)

  datatype Party = Party(
    role: Role, pay: Amounts, wallet: Wallet,
    pTik: AggKey, qTik: AggKey, deposit: DepositTx, round: nat, swap: SpendTx,
    warnMe: WarningTx, warnPeer: WarningTx,
    claimMe: SpendTx, claimPeer: SpendTx, redirectMe: SpendTx, redirectPeer: SpendTx
  ) {
    /** The key of the own warning transaction's output. */
    function Tik(): AggKey {
      if role.Seller? then qTik else pTik
    }

    function OtherTik(): AggKey {
      if role.Seller? then pTik else qTik
    }

    function Round1(part: Option<Psbt>, a: Addresses): (Party, Result<Round1Parameter, Fault>) {
      if round != 0 then (this, Err(WrongRound))
      else if part.None? then (this.(round := 1), Err(InsufficientFunds))
      else
        var swapScript := if role.Seller? then Some(a.swap) else None;
        (this.(round := 1,
               deposit := deposit.(partPsbt := part),
               swap := swap.(spend := swapScript),
               warnMe := warnMe.(anchor := Some(a.warnAnchor)),
               claimMe := claimMe.(spend := Some(a.claim)),
               redirectMe := redirectMe.(spend := Some(a.redirectAnchor))),
         Ok(Round1Parameter(pTik.PubPoint(), qTik.PubPoint(), part.value, swapScript,
                            a.warnAnchor, a.claim, a.redirectAnchor)))
    }

    // The parts of the second round. Each stops at the first failure.

    function AggregateKeys(env: Encoding, bob: Round1Parameter): (Party, Option<Fault>) {
      if bob.pA == bob.qA then (this, Some(SamePoint))
      else
        var s := this.(pTik := pTik.(otherPoint := Some(bob.pA)), qTik := qTik.(otherPoint := Some(bob.qA)));
        var p := s.pTik.AggregateKey(env, bob.pA);
        if p.Err? then (s, Some(p.error))
        else
          var s := s.(pTik := p.value);
          var q := s.qTik.AggregateKey(env, bob.qA);
          if q.Err? then (s, Some(q.error)) else (s.(qTik := q.value), None)
    }

    function BuildDeposit(env: Encoding, bob: Round1Parameter, s: Shuffles): (Party, Result<Psbt, ()>) {
      var m := if deposit.partPsbt.None? then None
               else Merged(env, wallet, deposit.partPsbt.value, bob.depPartPsbt, pTik, qTik, pay, s);
      if m.None? then (this, Err(()))
      else (this.(deposit := DepositTx(None, Some(m.value), Some(Extract(m.value)))), Ok(m.value))
    }

    function BuildWarnings(env: Encoding, bob: Round1Parameter, n: Nonces): (Party, Option<Fault>) {
      var (me, fault) := warnMe.Build(env, pay.seller, pay.buyer, pTik, qTik, deposit.tx, n.warnMeP, n.warnMeQ);
      var s := this.(warnMe := me);
      if fault.Some? then (s, fault)
      else
        var (peer, fault') := warnPeer.(anchor := Some(bob.warnAnchorSpend))
                                      .Build(env, pay.seller, pay.buyer, pTik, qTik, deposit.tx, n.warnPeerP,
                                             n.warnPeerQ);
        (s.(warnPeer := peer), fault')
    }

    function BuildSwap(env: Encoding, bob: Round1Parameter, unsigned: Tx, n: Nonces): (Party, Option<Fault>) {
      var (s, fault) := swap.BuildSwap(env, role, qTik, unsigned, bob.swapScript, n.swap);
      (this.(swap := s), fault)
    }

    function BuildClaims(env: Encoding, bob: Round1Parameter, n: Nonces): (Party, Option<Fault>) {
      var (me, fault) := claimMe.BuildClaim(env, Tik(), warnMe.tx, n.claimMe);
      var s := this.(claimMe := me);
      if fault.Some? then (s, fault)
      else
        var (peer, fault') :=
          claimPeer.(spend := Some(bob.claimSpend)).BuildClaim(env, OtherTik(), warnPeer.tx, n.claimPeer);
        (s.(claimPeer := peer), fault')
    }

    /** The own redirect transaction spends the peer's warning transaction, and the other way round. */
    function BuildRedirects(env: Encoding, bob: Round1Parameter, n: Nonces): (Party, Option<Fault>) {
      var (me, fault) := redirectMe.BuildRedirect(env, OtherTik(), warnPeer.tx, n.redirectMe);
      var s := this.(redirectMe := me);
      if fault.Some? then (s, fault)
      else
        var (peer, fault') :=
          redirectPeer.(spend := Some(bob.redirectAnchorSpend)).BuildRedirect(env, Tik(), warnMe.tx, n.redirectPeer);
        (s.(redirectPeer := peer), fault')
    }

    function Round2(env: Encoding, bob: Round1Parameter, n: Nonces, shuffles: Shuffles)
      : (Party, Result<Round2Parameter, ()>) {
      if round != 1 then (this, Err(()))
      else
        var (s, fault) := this.(round := 2).AggregateKeys(env, bob);
        if fault.Some? then (s, Err(()))
        else
          var (s, merged) := s.BuildDeposit(env, bob, shuffles);
          if merged.Err? then (s, Err(()))
          else
            var (s, fault) := s.BuildWarnings(env, bob, n);
            if fault.Some? then (s, Err(()))
            else
              var (s, fault) := s.BuildSwap(env, bob, merged.value.tx, n);
              if fault.Some? then (s, Err(()))
              else
                s.SpendWarnings(env, bob, n, merged.value)
    }

    function SpendWarnings(env: Encoding, bob: Round1Parameter, n: Nonces, merged: Psbt)
      : (Party, Result<Round2Parameter, ()>) {
      var (s, fault) := BuildClaims(env, bob, n);
      if fault.Some? then (s, Err(()))
      else
        var (s, fault) := s.BuildRedirects(env, bob, n);
        if fault.Some? then (s, Err(())) else (s, s.Message2(merged))
    }

    function Message2(signed: Psbt): Result<Round2Parameter, ()> {
      if || pTik.agg.None? || qTik.agg.None? || swap.sig.None?
         || warnMe.sigP.None? || warnMe.sigQ.None? || warnPeer.sigP.None? || warnPeer.sigQ.None?
         || claimMe.sig.None? || claimPeer.sig.None? || redirectMe.sig.None? || redirectPeer.sig.None?
      then Err(())
      else Ok(Round2Parameter(
                pTik.agg.value.pubkey, qTik.agg.value.pubkey, signed, swap.sig.value.pubNonce,
                warnMe.sigP.value.pubNonce, warnMe.sigQ.value.pubNonce,
                warnPeer.sigP.value.pubNonce, warnPeer.sigQ.value.pubNonce,
                claimMe.sig.value.pubNonce, claimPeer.sig.value.pubNonce,
                redirectMe.sig.value.pubNonce, redirectPeer.sig.value.pubNonce))
    }

    // The parts of the third round.

    /** The point whose logarithm the seller gives away with the swap transaction. */
    function AdaptorPoint(): Option<Point> {
      if role.Seller? then Some(pTik.PubPoint()) else pTik.otherPoint
    }

    function TakeDeposit(bob: Round2Parameter, broadcast: bool): (Party, Result<Tx, ()>) {
      if pTik.agg.None? || qTik.agg.None? || bob.pAgg != pTik.agg.value.pubkey || bob.qAgg != qTik.agg.value.pubkey
      then (this, Err(()))
      else
        var done := if deposit.signedPsbt.None? then None else Completed(deposit.signedPsbt.value, bob.depositTxSigned);
        if done.None? then (this, Err(()))
        else
          (this.(deposit := deposit.(signedPsbt := None, tx := Some(Extract(done.value)))),
           if broadcast then Ok(Extract(done.value)) else Err(()))
    }

    function SignSwap(env: Encoding, bob: Round2Parameter): (Party, Result<Scalar, Fault>) {
      if AdaptorPoint().None? then (this, Err(Unset))
      else
        var (s, part) := swap.BuildPartialSig(env, deposit.tx, AdaptorPoint().value, bob.swap);
        (this.(swap := s), part)
    }

    function SignWarnings(env: Encoding, bob: Round2Parameter): (Party, Result<(Scalar, Scalar), Fault>) {
      var (me, mine) := warnMe.BuildPartialSig(env, deposit.tx, bob.warnBobP, bob.warnBobQ);
      var s := this.(warnMe := me);
      if mine.Err? then (s, mine)
      else
        var (peer, parts) := warnPeer.BuildPartialSig(env, deposit.tx, bob.warnAliceP, bob.warnAliceQ);
        (s.(warnPeer := peer), parts)
    }

    function SignClaims(env: Encoding, bob: Round2Parameter): (Party, Result<Scalar, Fault>) {
      var (me, mine) := claimMe.BuildPartialSig(env, warnMe.tx, Infinity, bob.claimBob);
      var s := this.(claimMe := me);
      if mine.Err? then (s, mine)
      else
        var (peer, part) := claimPeer.BuildPartialSig(env, warnPeer.tx, Infinity, bob.claimAlice);
        (s.(claimPeer := peer), part)
    }

    function SignRedirects(env: Encoding, bob: Round2Parameter): (Party, Result<Scalar, Fault>) {
      var (me, mine) := redirectMe.BuildPartialSig(env, warnPeer.tx, Infinity, bob.redirectBob);
      var s := this.(redirectMe := me);
      if mine.Err? then (s, mine)
      else
        var (peer, part) := redirectPeer.BuildPartialSig(env, warnMe.tx, Infinity, bob.redirectAlice);
        (s.(redirectPeer := peer), part)
    }

    function Round3(env: Encoding, bob: Round2Parameter, broadcast: bool): (Party, Result<Round3Parameter, ()>) {
      if round != 2 then (this, Err(()))
      else
        var (s, done) := this.(round := 3).TakeDeposit(bob, broadcast);
        if done.Err? then (s, Err(()))
        else
          var (s, swapPart) := s.SignSwap(env, bob);
          if swapPart.Err? then (s, Err(()))
          else
            var (s, warnParts) := s.SignWarnings(env, bob);
            if warnParts.Err? then (s, Err(()))
            else
              var (s, claimPart) := s.SignClaims(env, bob);
              if claimPart.Err? then (s, Err(()))
              else
                var (s, redirectPart) := s.SignRedirects(env, bob);
                if redirectPart.Err? then (s, Err(()))
                else (s, Ok(Round3Parameter(env.Txid(done.value), swapPart.value, warnParts.value.0, warnParts.value.1,
                                            claimPart.value, redirectPart.value)))
    }

    function Round4(env: Encoding, bob: Round3Parameter): (Party, Result<Round4Parameter, Fault>) {
      if round != 3 then (this, Err(WrongRound))
      else
        var (swap', fault) := swap.Aggregate(env, bob.swapPartSig);
        var s := this.(round := 4, swap := swap');
        if fault.Some? then (s, Err(fault.value))
        else
          var (warn', fault) := warnMe.AggregateSigs(env, bob.pPartPeer, bob.qPartPeer);
          var s := s.(warnMe := warn');
          if fault.Some? then (s, Err(fault.value))
          else
            var (claim', fault) := claimMe.AggregateSigs(env, bob.claimPartSig);
            var s := s.(claimMe := claim');
            if fault.Some? then (s, Err(fault.value))
            else
              var (redirect', fault) := redirectMe.AggregateSigs(env, bob.redirectPartSig);
              var s := s.(redirectMe := redirect');
              if fault.Some? then (s, Err(fault.value))
              else if role.Buyer? then (s, Ok(Round4Parameter(None)))
              else
                var (swap'', fault) := swap'.Complete(env, pTik.sec);
                var s := s.(swap := swap'');
                if fault.Some? then (s, Err(fault.value)) else (s, Ok(Round4Parameter(swap''.tx)))
    }

    /** The buyer learns the seller's share from the swap transaction. */
    function Round5(env: Encoding, bob: Round4Parameter): (Party, Option<Fault>) {
      if round != 4 then (this, Some(WrongRound))
      else
        var s := this.(round := 5);
        if role.Seller? then (s, None)
        else if bob.swapOnchain.None? then (s, Some(NoSwapTx))
        else
          var final := KeyPathSignature(bob.swapOnchain.value, 0);
          if final.None? then (s, Some(NoKeySpend))
          else if swap.sig.None? then (s, Some(Unset))
          else
            var secret := swap.sig.value.RevealSecret(final.value);
            if secret.Err? then (s, Some(secret.error))
            else
              var (p, fault) := pTik.WithOtherSecret(env, secret.value);
              (s.(pTik := p), fault)
    }
  }

  function NewParty(role: Role, pay: Amounts, wallet: Wallet, p: SecKey, q: SecKey): Party {
    Party(role, pay, wallet, FreshKey(p), FreshKey(q), DepositTx(None, None, None), 0, EmptySpend(),
          EmptyWarning(role), EmptyWarning(role.Other()), EmptySpend(), EmptySpend(), EmptySpend(), EmptySpend())
  }

  class BMPProtocol {
    const role: Role
    const pay: Amounts
    const wallet: Wallet
    var pTik: AggKey
    var qTik: AggKey
    var deposit: DepositTx
    var round: nat
    var swap: SpendTx
    var warnMe: WarningTx
    var warnPeer: WarningTx
    var claimMe: SpendTx
    var claimPeer: SpendTx
    var redirectMe: SpendTx
    var redirectPeer: SpendTx

    ghost function Abs(): Party
      reads this
    {
      Party(role, pay, wallet, pTik, qTik, deposit, round, swap, warnMe, warnPeer, claimMe, claimPeer, redirectMe,
            redirectPeer)
    }

    constructor (role: Role, pay: Amounts, wallet: Wallet, p: SecKey, q: SecKey)
      ensures Abs() == NewParty(role, pay, wallet, p, q)
    {
      this.role, this.pay, this.wallet := role, pay, wallet;
      pTik, qTik, deposit, round := FreshKey(p), FreshKey(q), DepositTx(None, None, None), 0;
      swap, warnMe, warnPeer := EmptySpend(), EmptyWarning(role), EmptyWarning(role.Other());
      claimMe, claimPeer, redirectMe, redirectPeer := EmptySpend(), EmptySpend(), EmptySpend(), EmptySpend();
    }

    method CheckRound(n: nat) returns (ok: bool)
      requires n > 0
      modifies this`round
      ensures ok <==> old(round) == n - 1
      ensures round == if ok then n else old(round)
    {
      ok := round == n - 1;
      if ok {
        round := n;
      }
    }

    method Round1(part: Option<Psbt>, a: Addresses) returns (r: Result<Round1Parameter, Fault>)
      modifies this
      ensures (Abs(), r) == old(Abs()).Round1(part, a)
    {
      var ok := CheckRound(1);
      if !ok {
        return Err(WrongRound);
      }
      if part.None? {
        return Err(InsufficientFunds);
      }
      deposit := deposit.(partPsbt := part);
      swap := swap.(spend := if role.Seller? then Some(a.swap) else None);
      warnMe := warnMe.(anchor := Some(a.warnAnchor));
      claimMe := claimMe.(spend := Some(a.claim));
      redirectMe := redirectMe.(spend := Some(a.redirectAnchor));
      r := Ok(Round1Parameter(pTik.PubPoint(), qTik.PubPoint(), part.value, swap.spend, a.warnAnchor, a.claim,
                              a.redirectAnchor));
    }

    method Round2(env: Encoding, bob: Round1Parameter, n: Nonces, shuffles: Shuffles)
      returns (r: Result<Round2Parameter, Fault>)
      modifies this
      ensures Abs() == old(Abs()).Round2(env, bob, n, shuffles).0
      ensures r.Ok? <==> old(Abs()).Round2(env, bob, n, shuffles).1.Ok?
      ensures r.Ok? ==> r.value == old(Abs()).Round2(env, bob, n, shuffles).1.value
    {
      hide Merged, AggKey.AggregateKey, WarningTx.Build, SpendTx.BuildSwap, SpendTx.BuildClaim,
           SpendTx.BuildRedirect, Extract;
      var ok := CheckRound(2);
      if !ok {
        return Err(WrongRound);
      }
      if bob.pA == bob.qA {
        return Err(SamePoint);
      }
      pTik := pTik.(otherPoint := Some(bob.pA));
      qTik := qTik.(otherPoint := Some(bob.qA));
      var p := pTik.AggregateKey(env, bob.pA);
      if p.Err? {
        return Err(p.error);
      }
      pTik := p.value;
      var q := qTik.AggregateKey(env, bob.qA);
      if q.Err? {
        return Err(q.error);
      }
      qTik := q.value;

      var d, merged := BuildAndMergeTx(env, wallet, deposit, bob.depPartPsbt, pTik, qTik, pay, shuffles);
      deposit := d;
      if merged.Err? {
        return Err(merged.error);
      }
      var (w, fault1) := warnMe.Build(env, pay.seller, pay.buyer, pTik, qTik, deposit.tx, n.warnMeP, n.warnMeQ);
      warnMe := w;
      if fault1.Some? {
        return Err(fault1.value);
      }
      warnPeer := warnPeer.(anchor := Some(bob.warnAnchorSpend));
      var (w', fault2) := warnPeer.Build(env, pay.seller, pay.buyer, pTik, qTik, deposit.tx, n.warnPeerP, n.warnPeerQ);
      warnPeer := w';
      if fault2.Some? {
        return Err(fault2.value);
      }
      var (s, fault3) := swap.BuildSwap(env, role, qTik, merged.value.tx, bob.swapScript, n.swap);
      swap := s;
      if fault3.Some? {
        return Err(fault3.value);
      }
      r := SpendWarnings(env, bob, n, merged.value);
    }

    /** The rest of the second round: claim and redirect transactions. */
    method SpendWarnings(env: Encoding, bob: Round1Parameter, n: Nonces, merged: Psbt)
      returns (r: Result<Round2Parameter, Fault>)
      modifies this`claimMe, this`claimPeer, this`redirectMe, this`redirectPeer
      ensures Abs() == old(Abs()).SpendWarnings(env, bob, n, merged).0
      ensures r.Ok? <==> old(Abs()).SpendWarnings(env, bob, n, merged).1.Ok?
      ensures r.Ok? ==> r.value == old(Abs()).SpendWarnings(env, bob, n, merged).1.value
    {
      hide SpendTx.BuildClaim, SpendTx.BuildRedirect;
      var tik, otherTik := if role.Seller? then qTik else pTik, if role.Seller? then pTik else qTik;
      var (c, fault) := claimMe.BuildClaim(env, tik, warnMe.tx, n.claimMe);
      claimMe := c;
      if fault.Some? {
        return Err(fault.value);
      }
      claimPeer := claimPeer.(spend := Some(bob.claimSpend));
      var (c', fault1) := claimPeer.BuildClaim(env, otherTik, warnPeer.tx, n.claimPeer);
      claimPeer := c';
      if fault1.Some? {
        return Err(fault1.value);
      }
      var (d, fault2) := redirectMe.BuildRedirect(env, otherTik, warnPeer.tx, n.redirectMe);
      redirectMe := d;
      if fault2.Some? {
        return Err(fault2.value);
      }
      redirectPeer := redirectPeer.(spend := Some(bob.redirectAnchorSpend));
      var (d', fault3) := redirectPeer.BuildRedirect(env, tik, warnMe.tx, n.redirectPeer);
      redirectPeer := d';
      if fault3.Some? {
        return Err(fault3.value);
      }
      var message := GetMessage2(merged);
      if message.Err? {
        return Err(Unset);
      }
      return Ok(message.value);
    }

    function GetMessage2(signed: Psbt): (r: Result<Round2Parameter, ()>)
      reads this
      ensures r == Abs().Message2(signed)
    {
      if || pTik.agg.None? || qTik.agg.None? || swap.sig.None?
         || warnMe.sigP.None? || warnMe.sigQ.None? || warnPeer.sigP.None? || warnPeer.sigQ.None?
         || claimMe.sig.None? || claimPeer.sig.None? || redirectMe.sig.None? || redirectPeer.sig.None?
      then Err(())
      else Ok(Round2Parameter(
                pTik.agg.value.pubkey, qTik.agg.value.pubkey, signed, swap.sig.value.pubNonce,
                warnMe.sigP.value.pubNonce, warnMe.sigQ.value.pubNonce,
                warnPeer.sigP.value.pubNonce, warnPeer.sigQ.value.pubNonce,
                claimMe.sig.value.pubNonce, claimPeer.sig.value.pubNonce,
                redirectMe.sig.value.pubNonce, redirectPeer.sig.value.pubNonce))
    }

    method Round3(env: Encoding, bob: Round2Parameter, broadcast: bool) returns (r: Result<Round3Parameter, Fault>)
      modifies this
      ensures Abs() == old(Abs()).Round3(env, bob, broadcast).0
      ensures r.Ok? <==> old(Abs()).Round3(env, bob, broadcast).1.Ok?
      ensures r.Ok? ==> r.value == old(Abs()).Round3(env, bob, broadcast).1.value
    {
      hide Completed, Extract, SpendTx.BuildPartialSig, WarningTx.BuildPartialSig;
      var ok := CheckRound(3);
      if !ok {
        return Err(WrongRound);
      }
      if pTik.agg.None? || qTik.agg.None? {
        return Err(Unset);
      }
      if bob.pAgg != pTik.agg.value.pubkey || bob.qAgg != qTik.agg.value.pubkey {
        return Err(WrongKey);
      }
      var d, done := TransferSig(deposit, bob.depositTxSigned, broadcast);
      deposit := d;
      if done.Err? {
        return Err(done.error);
      }
      var adaptorPoint := if role.Seller? then Some(pTik.PubPoint()) else pTik.otherPoint;
      if adaptorPoint.None? {
        return Err(Unset);
      }
      var (s, swapPart) := swap.BuildPartialSig(env, deposit.tx, adaptorPoint.value, bob.swap);
      swap := s;
      if swapPart.Err? {
        return Err(swapPart.error);
      }
      var (w, mine) := warnMe.BuildPartialSig(env, deposit.tx, bob.warnBobP, bob.warnBobQ);
      warnMe := w;
      if mine.Err? {
        return Err(mine.error);
      }
      var (w', warnParts) := warnPeer.BuildPartialSig(env, deposit.tx, bob.warnAliceP, bob.warnAliceQ);
      warnPeer := w';
      if warnParts.Err? {
        return Err(warnParts.error);
      }
      var claimPart := SignClaims(env, bob);
      if claimPart.Err? {
        return Err(claimPart.error);
      }
      var redirectPart := SignRedirects(env, bob);
      if redirectPart.Err? {
        return Err(redirectPart.error);
      }
      return Ok(Round3Parameter(env.Txid(done.value), swapPart.value, warnParts.value.0, warnParts.value.1,
                                claimPart.value, redirectPart.value));
    }

    method SignClaims(env: Encoding, bob: Round2Parameter) returns (r: Result<Scalar, Fault>)
      modifies this`claimMe, this`claimPeer
      ensures (Abs(), r) == old(Abs()).SignClaims(env, bob)
    {
      hide SpendTx.BuildPartialSig;
      var (c, mine) := claimMe.BuildPartialSig(env, warnMe.tx, Infinity, bob.claimBob);
      claimMe := c;
      if mine.Err? {
        return mine;
      }
      var (c', part) := claimPeer.BuildPartialSig(env, warnPeer.tx, Infinity, bob.claimAlice);
      claimPeer := c';
      return part;
    }

    method SignRedirects(env: Encoding, bob: Round2Parameter) returns (r: Result<Scalar, Fault>)
      modifies this`redirectMe, this`redirectPeer
      ensures (Abs(), r) == old(Abs()).SignRedirects(env, bob)
    {
      hide SpendTx.BuildPartialSig;
      var (d, mine) := redirectMe.BuildPartialSig(env, warnPeer.tx, Infinity, bob.redirectBob);
      redirectMe := d;
      if mine.Err? {
        return mine;
      }
      var (d', part) := redirectPeer.BuildPartialSig(env, warnMe.tx, Infinity, bob.redirectAlice);
      redirectPeer := d';
      return part;
    }

    method Round4(env: Encoding, bob: Round3Parameter) returns (r: Result<Round4Parameter, Fault>)
      modifies this
      ensures (Abs(), r) == old(Abs()).Round4(env, bob)
    {
      hide SpendTx.Aggregate, SpendTx.AggregateSigs, SpendTx.Complete, WarningTx.AggregateSigs;
      var ok := CheckRound(4);
      if !ok {
        return Err(WrongRound);
      }
      var (s, fault) := swap.Aggregate(env, bob.swapPartSig);
      swap := s;
      if fault.Some? {
        return Err(fault.value);
      }
      var (w, fault1) := warnMe.AggregateSigs(env, bob.pPartPeer, bob.qPartPeer);
      warnMe := w;
      if fault1.Some? {
        return Err(fault1.value);
      }
      var (c, fault2) := claimMe.AggregateSigs(env, bob.claimPartSig);
      claimMe := c;
      if fault2.Some? {
        return Err(fault2.value);
      }
      var (d, fault3) := redirectMe.AggregateSigs(env, bob.redirectPartSig);
      redirectMe := d;
      if fault3.Some? {
        return Err(fault3.value);
      }
      if role.Buyer? {
        return Ok(Round4Parameter(None));
      }
      var (s', fault4) := swap.Complete(env, pTik.sec);
      swap := s';
      if fault4.Some? {
        return Err(fault4.value);
      }
      return Ok(Round4Parameter(swap.tx));
    }

    method Round5(env: Encoding, bob: Round4Parameter) returns (fault: Option<Fault>)
      modifies this
      ensures (Abs(), fault) == old(Abs()).Round5(env, bob)
    {
      hide TMuSig2.RevealSecret, AggKey.WithOtherSecret;
      var ok := CheckRound(5);
      if !ok {
        return Some(WrongRound);
      }
      if role.Seller? {
        return None;
      }
      if bob.swapOnchain.None? {
        return Some(NoSwapTx);
      }
      var final := KeyPathSignature(bob.swapOnchain.value, 0);
      if final.None? {
        return Some(NoKeySpend);
      }
      if swap.sig.None? {
        return Some(Unset);
      }
      var secret := swap.sig.value.RevealSecret(final.value);
      if secret.Err? {
        return Some(secret.error);
      }
      var (p, failed) := pTik.WithOtherSecret(env, secret.value);
      pTik := p;
      return failed;
    }
  }
}
