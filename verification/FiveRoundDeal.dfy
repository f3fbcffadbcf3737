/** A deal between two honest traders: what each builds in the second round, and
    that it is the same contract seen from two sides. */
module FiveRoundDeal {
  import opened Results
  import opened Scalars
  import opened Musig
  import opened Sorting
  import opened Transactions
  import opened AggKeys
  import opened Deposits
  import opened DepositTxs
  import opened Contracts
  import opened FiveRounds
  import opened FiveRoundRuns
  import opened FiveRoundKeys
  import opened HonestSigning

  /** What one trader brings: secrets, wallet, partial transaction, addresses and random draws. */
  datatype Side = Side(
    p: SecKey, q: SecKey, wallet: Wallet, part: Psbt, addresses: Addresses, nonces: Nonces, shuffles: Shuffles)

  datatype Deal = Deal(env: Encoding, pay: Amounts, seller: Side, buyer: Side) {
    function Of(role: Role): Side {
      if role.Seller? then seller else buyer
    }

    function Start(role: Role): Party {
      NewParty(role, pay, Of(role).wallet, Of(role).p, Of(role).q)
    }

    function After1(role: Role): Party {
      Start(role).Round1(Some(Of(role).part), Of(role).addresses).0
    }

    function Message1(role: Role): Round1Parameter {
      var a := Of(role).addresses;
      Round1Parameter(BaseMul(Of(role).p), BaseMul(Of(role).q), Of(role).part,
                      if role.Seller? then Some(a.swap) else None, a.warnAnchor, a.claim, a.redirectAnchor)
    }

    function After2(role: Role): (Party, Result<Round2Parameter, ()>) {
      After1(role).Round2(env, Message1(role.Other()), Of(role).nonces, Of(role).shuffles)
    }

    function After3(role: Role): (Party, Result<Round3Parameter, ()>) {
      var bob := After2(role.Other()).1;
      if bob.Err? then (After2(role).0, Err(())) else After2(role).0.Round3(env, bob.value, true)
    }

    function After4(role: Role): (Party, Result<Round4Parameter, Fault>) {
      var bob := After3(role.Other()).1;
      if bob.Err? then (After3(role).0, Err(Unset)) else After3(role).0.Round4(env, bob.value)
    }

    function After5(role: Role): (Party, Option<Fault>) {
      var bob := After4(role.Other()).1;
      if bob.Err? then (After4(role).0, Some(Unset)) else After4(role).0.Round5(env, bob.value)
    }
  }

  lemma FirstMessages(d: Deal, role: Role)
    ensures d.Start(role).Round1(Some(d.Of(role).part), d.Of(role).addresses) == (d.After1(role), Ok(d.Message1(role)))
  {
  }

  // ------------------------------------------------------ keys

  function PKey(d: Deal, role: Role): AggKey {
    var key, theirs := FreshKey(d.Of(role).p), BaseMul(d.Of(role.Other()).p);
    var r := key.AggregateKey(d.env, theirs);
    if r.Ok? then r.value else key
  }

  function QKey(d: Deal, role: Role): AggKey {
    var key, theirs := FreshKey(d.Of(role).q), BaseMul(d.Of(role.Other()).q);
    var r := key.AggregateKey(d.env, theirs);
    if r.Ok? then r.value else key
  }

  /** The four points differ, compare as different, and aggregate. */
  ghost predicate GoodKeys(d: Deal) {
    && d.seller.p != d.buyer.p && d.seller.q != d.buyer.q
    && d.seller.p != d.seller.q && d.buyer.p != d.buyer.q
    && Comparable(d.env, BaseMul(d.seller.p), BaseMul(d.buyer.p))
    && Comparable(d.env, BaseMul(d.seller.q), BaseMul(d.buyer.q))
    && FreshKey(d.seller.p).AggregateKey(d.env, BaseMul(d.buyer.p)).Ok?
    && FreshKey(d.seller.q).AggregateKey(d.env, BaseMul(d.buyer.q)).Ok?
  }

  lemma KeysArePartners(d: Deal, role: Role)
    requires GoodKeys(d)
    ensures Partners(PKey(d, role), PKey(d, role.Other())) && Partners(QKey(d, role), QKey(d, role.Other()))
    ensures Lockable(d.env, PKey(d, role)) && Lockable(d.env, QKey(d, role))
    ensures FreshKey(d.Of(role).p).AggregateKey(d.env, BaseMul(d.Of(role.Other()).p)) == Ok(PKey(d, role))
    ensures FreshKey(d.Of(role).q).AggregateKey(d.env, BaseMul(d.Of(role.Other()).q)) == Ok(QKey(d, role))
    ensures PKey(d, role).sec == d.Of(role).p && QKey(d, role).sec == d.Of(role).q
  {
    hide Partners, Lockable;
    AggregatedPartners(d.env, FreshKey(d.seller.p), FreshKey(d.buyer.p));
    AggregatedPartners(d.env, FreshKey(d.seller.q), FreshKey(d.buyer.q));
    AggregateLockable(d.env, FreshKey(d.Of(role).p), BaseMul(d.Of(role.Other()).p));
    AggregateLockable(d.env, FreshKey(d.Of(role).q), BaseMul(d.Of(role.Other()).q));
    hide NewKeyAgg, TapTweaked;
  }

  // ------------------------------------------------------ the contract

  function MergedOf(d: Deal, role: Role): Option<Psbt> {
    Merged(d.env, d.Of(role).wallet, d.Of(role).part, d.Of(role.Other()).part, PKey(d, role), QKey(d, role), d.pay,
           d.Of(role).shuffles)
  }

  /** The deposit transaction, unsigned. */
  function Base(d: Deal): Tx {
    var m := MergedOf(d, Seller);
    if m.Some? then m.value.tx else Tx([], [])
  }

  function InputOf(d: Deal, key: AggKey): TxIn {
    var r := TxInFor(d.env, Base(d), key);
    if r.Some? then r.value else TxIn(OutPoint(0, 0), 0, Unsigned)
  }

  function ScriptOf(d: Deal, key: AggKey): Script {
    var r := key.AggScript(d.env);
    if r.Some? then r.value else OtherScript(0)
  }

  function KeySpentBy(d: Deal, role: Role): AggKey {
    if role.Seller? then QKey(d, Seller) else PKey(d, Seller)
  }

  /** What a warning transaction pays out. */
  function Funds(pay: Amounts): Amount
    requires ANCHOR + 2 * FEE <= pay.buyer + pay.seller <= MAX_AMOUNT
  {
    pay.buyer + pay.seller - ANCHOR - FEE
  }

  ghost predicate GoodAmounts(pay: Amounts) {
    ANCHOR + 2 * FEE <= pay.buyer + pay.seller <= MAX_AMOUNT && pay.buyer >= FEE
  }

  function Warning(d: Deal, role: Role): Tx
    requires GoodAmounts(d.pay)
  {
    WarningOf(d.env, Funds(d.pay), ScriptOf(d, KeySpentBy(d, role)), d.Of(role).addresses.warnAnchor,
              InputOf(d, PKey(d, Seller)), InputOf(d, QKey(d, Seller)))
  }

  function Claim(d: Deal, role: Role): Tx
    requires GoodAmounts(d.pay)
  {
    ClaimOf(d.env, Warning(d, role), d.Of(role).addresses.claim)
  }

  /** The redirect transaction of one trader spends the warning of the other. */
  function Redirect(d: Deal, role: Role): Tx
    requires GoodAmounts(d.pay)
  {
    RedirectOf(d.env, Warning(d, role.Other()), d.Of(role).addresses.redirectAnchor)
  }

  function Swap(d: Deal): Tx
    requires GoodAmounts(d.pay)
  {
    SwapOf(d.env, InputOf(d, QKey(d, Seller)), d.pay.buyer, d.seller.addresses.swap)
  }

  // ------------------------------------------------------ honesty

  ghost predicate GoodParts(d: Deal, role: Role) {
    var me := d.Of(role);
    && OwnPart(me.wallet, me.part) && SignsOwn(me.wallet, me.part) && NotMine(me.wallet, d.Of(role.Other()).part)
    && Fair(me.shuffles)
  }

  /** The deposit can be paid for, and its outputs are told apart by their scripts. */
  ghost predicate GoodDeposit(d: Deal) {
    && GoodParts(d, Seller) && GoodParts(d, Buyer)
    && DistinctOutpoints(d.seller.part, d.buyer.part)
    && MergedOf(d, Seller).Some?
    && Disregarded(d.env, PKey(d, Seller), QKey(d, Seller)).Some?
    && var r := Recipients(d.env, d.seller.part, d.buyer.part, PKey(d, Seller), QKey(d, Seller), d.pay);
    KeyDecides(r, OutputRank(d.env)) && |r| < 0x1_0000_0000
  }

  ghost predicate Honest(d: Deal) {
    GoodKeys(d) && GoodAmounts(d.pay) && GoodDeposit(d)
  }

  // ------------------------------------------------------ the deposit

  /** Both merge, to the same transaction, of which each signs its own inputs. */
  lemma MergedSame(d: Deal)
    requires Honest(d)
    ensures MergedOf(d, Seller).Some? && MergedOf(d, Buyer).Some?
    ensures MergedOf(d, Seller).value.tx == MergedOf(d, Buyer).value.tx
    ensures EachSignedOnce(MergedOf(d, Seller).value, MergedOf(d, Buyer).value)
  {
    hide Merged, Disregarded, OwnPart, SignsOwn, NotMine, Fair, DistinctOutpoints, KeyDecides, PKey, QKey,
         Recipients, EachSignedOnce, KeysOf, GoodKeys;
    KeysArePartners(d, Seller);
    KeysArePartners(d, Buyer);
    var p, q, p', q' := PKey(d, Seller), QKey(d, Seller), PKey(d, Buyer), QKey(d, Buyer);
    assert Mirrored(p, p') && Mirrored(q, q');
    hide Partners, Mirrored, Lockable;
    var s, b := d.seller, d.buyer;
    CanonicalDeposit(d.env, s.wallet, b.wallet, s.part, b.part, p, q, p', q', d.pay, s.shuffles, b.shuffles);
    SignedOnce(d.env, s.wallet, b.wallet, s.part, b.part, p, q, p', q', d.pay, s.shuffles, b.shuffles);
  }

  lemma MergedBoth(d: Deal, role: Role)
    requires Honest(d)
    ensures MergedOf(d, role).Some? && MergedOf(d, role).value.tx == Base(d)
    ensures Strip(Extract(MergedOf(d, role).value)) == Strip(Base(d))
    ensures MergedOf(d, role.Other()).Some? && EachSignedOnce(MergedOf(d, role).value, MergedOf(d, role.Other()).value)
  {
    hide MergedOf, Honest, Extract, Strip, EachSignedOnce;
    MergedSame(d);
    SignedOnceSymmetric(MergedOf(d, Seller).value, MergedOf(d, Buyer).value);
    ExtractKeepsTx(MergedOf(d, role).value);
  }

  lemma SignedOnceSymmetric(a: Psbt, b: Psbt)
    requires EachSignedOnce(a, b)
    ensures EachSignedOnce(b, a)
  {
  }

  lemma InMultiset<T>(s: seq<T>, t: seq<T>, i: nat) returns (j: nat)
    requires multiset(s) == multiset(t) && i < |s|
    ensures j < |t| && t[j] == s[i]
  {
    assert s[i] in multiset(t);
    j :| 0 <= j < |t| && t[j] == s[i];
  }

  lemma BaseOutputs(d: Deal)
    requires Honest(d)
    ensures multiset(Base(d).outputs)
            == multiset(Recipients(d.env, d.seller.part, d.buyer.part, PKey(d, Seller), QKey(d, Seller), d.pay))
  {
    hide Merged, OwnPart, SignsOwn, NotMine, DistinctOutpoints, PKey, QKey, Recipients, Disregarded, GoodKeys,
         KeyDecides;
    DepositBalances(d.env, d.seller.wallet, d.seller.part, d.buyer.part, PKey(d, Seller), QKey(d, Seller), d.pay,
                    d.seller.shuffles);
  }

  /** Two listed outputs are found in any order of the list, each with its value. */
  lemma FindBoth(env: Encoding, tx: Tx, r: seq<TxOut>, p: AggKey, q: AggKey)
    requires multiset(tx.outputs) == multiset(r) && KeyDecides(r, OutputRank(env)) && 2 <= |r| < 0x1_0000_0000
    requires p.AggScript(env) == Some(r[0].script) && q.AggScript(env) == Some(r[1].script)
    ensures TxInFor(env, tx, p).Some? && TxInFor(env, tx, q).Some?
    ensures
      var voutP, voutQ := TxInFor(env, tx, p).value.prev.vout, TxInFor(env, tx, q).value.prev.vout;
      voutP < |tx.outputs| && tx.outputs[voutP] == r[0] && voutQ < |tx.outputs| && tx.outputs[voutQ] == r[1]
  {
    var i := InMultiset(r, tx.outputs, 0);
    var j := InMultiset(r, tx.outputs, 1);
    assert |tx.outputs| == |multiset(tx.outputs)| == |multiset(r)| == |r|;
    hide AggKey.AggScript;
    FoundOutput(env, tx, p);
    FoundOutput(env, tx, q);
    var k := InMultiset(tx.outputs, r, TxInFor(env, tx, q).value.prev.vout);
    assert OutputRank(env)(r[k]) == OutputRank(env)(r[1]);
    var l := InMultiset(tx.outputs, r, TxInFor(env, tx, p).value.prev.vout);
    assert OutputRank(env)(r[l]) == OutputRank(env)(r[0]);
  }

  /** The two deposit outputs are found, each with its amount. */
  lemma OutputsFound(d: Deal, role: Role)
    requires Honest(d)
    ensures TxInFor(d.env, Base(d), PKey(d, role)) == Some(InputOf(d, PKey(d, Seller)))
    ensures TxInFor(d.env, Base(d), QKey(d, role)) == Some(InputOf(d, QKey(d, Seller)))
    ensures
      var voutP, voutQ := InputOf(d, PKey(d, Seller)).prev.vout, InputOf(d, QKey(d, Seller)).prev.vout;
      && voutP < |Base(d).outputs| && Base(d).outputs[voutP].value == d.pay.seller
      && voutQ < |Base(d).outputs| && Base(d).outputs[voutQ].value == d.pay.buyer
  {
    BaseOutputs(d);
    KeysArePartners(d, Seller);
    KeysArePartners(d, Buyer);
    var p, q := PKey(d, Seller), QKey(d, Seller);
    var r := Recipients(d.env, d.seller.part, d.buyer.part, p, q, d.pay);
    RecipientsStart(d, r);
    hide Recipients, Disregarded, PKey, QKey, Base, OwnPart, SignsOwn, NotMine, DistinctOutpoints, GoodKeys, KeysOf,
         TxInFor, KeyDecides;
    FindBoth(d.env, Base(d), r, p, q);
    SameTxIn(d.env, Base(d), Base(d), p, PKey(d, role));
    SameTxIn(d.env, Base(d), Base(d), q, QKey(d, role));
  }

  lemma RecipientsStart(d: Deal, r: seq<TxOut>)
    requires GoodKeys(d) && Disregarded(d.env, PKey(d, Seller), QKey(d, Seller)).Some?
    requires r == Recipients(d.env, d.seller.part, d.buyer.part, PKey(d, Seller), QKey(d, Seller), d.pay)
    ensures PKey(d, Seller).AggScript(d.env).Some? && QKey(d, Seller).AggScript(d.env).Some?
    ensures |r| >= 2 && r[0] == TxOut(d.pay.seller, PKey(d, Seller).AggScript(d.env).value)
    ensures r[1] == TxOut(d.pay.buyer, QKey(d, Seller).AggScript(d.env).value)
  {
    hide Kept, PKey, QKey;
  }

  lemma FoundOutput(env: Encoding, tx: Tx, key: AggKey)
    requires key.AggScript(env).Some? && |tx.outputs| < 0x1_0000_0000
    requires exists i :: 0 <= i < |tx.outputs| && tx.outputs[i].script == key.AggScript(env).value
    ensures TxInFor(env, tx, key).Some?
    ensures
      var vout := TxInFor(env, tx, key).value.prev.vout;
      vout < |tx.outputs| && tx.outputs[vout].script == key.AggScript(env).value
  {
    hide AggKey.AggScript;
  }

  lemma SameTxIn(env: Encoding, tx: Tx, tx': Tx, key: AggKey, key': AggKey)
    requires Strip(tx) == Strip(tx') && key.agg == key'.agg
    ensures TxInFor(env, tx, key) == TxInFor(env, tx', key')
  {
    assert tx.outputs == Strip(tx).outputs == tx'.outputs;
    hide Strip;
  }

  // ------------------------------------------------------ the second round

  function TikOf(d: Deal, role: Role): AggKey {
    if role.Seller? then QKey(d, role) else PKey(d, role)
  }

  function OtherTikOf(d: Deal, role: Role): AggKey {
    if role.Seller? then PKey(d, role) else QKey(d, role)
  }

  /** The state of a trader after the second round. */
  function Built(d: Deal, role: Role): Party
    requires GoodAmounts(d.pay) && MergedOf(d, role).Some?
  {
    var me, other, n := d.Of(role), d.Of(role.Other()), d.Of(role).nonces;
    var p, q, m := PKey(d, role), QKey(d, role), MergedOf(d, role).value;
    Party(role, d.pay, me.wallet, p, q, DepositTx(None, Some(m), Some(Extract(m))), 2,
          SpendTx(if role.Seller? then Some(me.addresses.swap) else None, Some(NewSigning(q, n.swap)), Some(Swap(d))),
          WarningTx(role, Some(me.addresses.warnAnchor), Some(NewSigning(p, n.warnMeP)), Some(NewSigning(q, n.warnMeQ)),
                    Some(Warning(d, role))),
          WarningTx(role.Other(), Some(other.addresses.warnAnchor), Some(NewSigning(p, n.warnPeerP)),
                    Some(NewSigning(q, n.warnPeerQ)), Some(Warning(d, role.Other()))),
          SpendTx(Some(me.addresses.claim), Some(NewSigning(TikOf(d, role), n.claimMe)), Some(Claim(d, role))),
          SpendTx(Some(other.addresses.claim), Some(NewSigning(OtherTikOf(d, role), n.claimPeer)),
                  Some(Claim(d, role.Other()))),
          SpendTx(Some(me.addresses.redirectAnchor), Some(NewSigning(OtherTikOf(d, role), n.redirectMe)),
                  Some(Redirect(d, role))),
          SpendTx(Some(other.addresses.redirectAnchor), Some(NewSigning(TikOf(d, role), n.redirectPeer)),
                  Some(Redirect(d, role.Other()))))
  }

  /** And the message it sends. */
  function Message2(d: Deal, role: Role): Round2Parameter
    requires MergedOf(d, role).Some? && PKey(d, role).agg.Some? && QKey(d, role).agg.Some?
  {
    var n := d.Of(role).nonces;
    Round2Parameter(PKey(d, role).agg.value.pubkey, QKey(d, role).agg.value.pubkey, MergedOf(d, role).value,
                    n.swap.Public(), n.warnMeP.Public(), n.warnMeQ.Public(), n.warnPeerP.Public(), n.warnPeerQ.Public(),
                    n.claimMe.Public(), n.claimPeer.Public(), n.redirectMe.Public(), n.redirectPeer.Public())
  }

  lemma KeysRound(d: Deal, role: Role, s: Party)
    requires GoodKeys(d)
    requires s.pTik == FreshKey(d.Of(role).p) && s.qTik == FreshKey(d.Of(role).q)
    ensures s.AggregateKeys(d.env, d.Message1(role.Other())) == (s.(pTik := PKey(d, role), qTik := QKey(d, role)), None)
  {
    KeysArePartners(d, role);
    OtherPointSet(d.env, FreshKey(d.Of(role).p), BaseMul(d.Of(role.Other()).p));
    OtherPointSet(d.env, FreshKey(d.Of(role).q), BaseMul(d.Of(role.Other()).q));
    hide AggKey.AggregateKey, PKey, QKey, Partners, Lockable, FreshKey;
  }

  lemma OtherPointSet(env: Encoding, key: AggKey, theirs: Point)
    ensures key.(otherPoint := Some(theirs)).AggregateKey(env, theirs) == key.AggregateKey(env, theirs)
  {
    hide NewKeyAgg, TapTweaked;
  }

  lemma DepositRound(d: Deal, role: Role, s: Party)
    requires Honest(d)
    requires s.wallet == d.Of(role).wallet && s.pay == d.pay && s.pTik == PKey(d, role) && s.qTik == QKey(d, role)
    requires s.deposit.partPsbt == Some(d.Of(role).part)
    ensures MergedOf(d, role).Some?
    ensures
      var m := MergedOf(d, role).value;
      s.BuildDeposit(d.env, d.Message1(role.Other()), d.Of(role).shuffles)
      == (s.(deposit := DepositTx(None, Some(m), Some(Extract(m)))), Ok(m))
  {
    MergedBoth(d, role);
    hide Merged, Extract, PKey, QKey, Honest, Base;
  }

  lemma WarningOk(env: Encoding, w: WarningTx, pay: Amounts, p: AggKey, q: AggKey, deposit: Tx, n: SecNonce,
                  n': SecNonce, inP: TxIn, inQ: TxIn, script: Script, anchor: Script)
    requires p.agg.Some? && q.agg.Some? && GoodAmounts(pay) && w.anchor == Some(anchor)
    requires TxInFor(env, deposit, p) == Some(inP) && TxInFor(env, deposit, q) == Some(inQ)
    requires w.KeySpent(p, q).AggScript(env) == Some(script)
    ensures
      w.Build(env, pay.seller, pay.buyer, p, q, Some(deposit), n, n')
      == (w.(sigP := Some(NewSigning(p, n)), sigQ := Some(NewSigning(q, n')),
             tx := Some(WarningOf(env, Funds(pay), script, anchor, inP, inQ))), None)
  {
    hide TxInFor, AggKey.AggScript;
  }

  lemma SameScript(env: Encoding, key: AggKey, key': AggKey)
    requires key.agg == key'.agg
    ensures key.AggScript(env) == key'.AggScript(env)
  {
  }

  lemma ScriptOfKeySpent(d: Deal, role: Role, w: WarningTx)
    requires GoodKeys(d)
    ensures w.KeySpent(PKey(d, role), QKey(d, role)).AggScript(d.env) == Some(ScriptOf(d, KeySpentBy(d, w.role)))
  {
    KeysArePartners(d, Seller);
    KeysArePartners(d, Buyer);
    SameScript(d.env, PKey(d, role), PKey(d, Seller));
    SameScript(d.env, QKey(d, role), QKey(d, Seller));
    hide PKey, QKey, GoodKeys, KeysOf, AggKey.AggScript;
  }

  lemma InputsFound(d: Deal, role: Role, deposit: Tx)
    requires Honest(d) && Strip(deposit) == Strip(Base(d))
    ensures TxInFor(d.env, deposit, PKey(d, role)) == Some(InputOf(d, PKey(d, Seller)))
    ensures TxInFor(d.env, deposit, QKey(d, role)) == Some(InputOf(d, QKey(d, Seller)))
  {
    OutputsFound(d, role);
    SameTxIn(d.env, Base(d), deposit, PKey(d, role), PKey(d, role));
    SameTxIn(d.env, Base(d), deposit, QKey(d, role), QKey(d, role));
    hide PKey, QKey, Base, TxInFor, Honest, InputOf, Strip;
  }

  /** A warning transaction is built the same by both traders. */
  lemma WarningBuiltAs(d: Deal, role: Role, w: WarningTx, deposit: Tx, n: SecNonce, n': SecNonce)
    requires Honest(d) && Strip(deposit) == Strip(Base(d))
    requires w.anchor == Some(d.Of(w.role).addresses.warnAnchor)
    ensures
      var p, q := PKey(d, role), QKey(d, role);
      w.Build(d.env, d.pay.seller, d.pay.buyer, p, q, Some(deposit), n, n')
      == (w.(sigP := Some(NewSigning(p, n)), sigQ := Some(NewSigning(q, n')), tx := Some(Warning(d, w.role))), None)
  {
    InputsFound(d, role, deposit);
    ScriptOfKeySpent(d, role, w);
    KeysArePartners(d, role);
    hide PKey, QKey, Base, TxInFor, GoodKeys, GoodDeposit, KeysOf, InputOf, Strip, AggKey.AggScript, KeySpentBy,
         ScriptOf, WarningTx.Build, WarningTx.KeySpent;
    WarningOk(d.env, w, d.pay, PKey(d, role), QKey(d, role), deposit, n, n', InputOf(d, PKey(d, Seller)),
              InputOf(d, QKey(d, Seller)), ScriptOf(d, KeySpentBy(d, w.role)), d.Of(w.role).addresses.warnAnchor);
  }

  lemma WarningsRound(d: Deal, role: Role, s: Party)
    requires Honest(d)
    requires s.role == role && s.pay == d.pay && s.pTik == PKey(d, role) && s.qTik == QKey(d, role)
    requires s.deposit.tx.Some? && Strip(s.deposit.tx.value) == Strip(Base(d))
    requires s.warnMe == EmptyWarning(role).(anchor := Some(d.Of(role).addresses.warnAnchor))
    requires s.warnPeer == EmptyWarning(role.Other())
    ensures
      var n, p, q := d.Of(role).nonces, s.pTik, s.qTik;
      s.BuildWarnings(d.env, d.Message1(role.Other()), n)
      == (s.(warnMe := WarningTx(role, Some(d.Of(role).addresses.warnAnchor), Some(NewSigning(p, n.warnMeP)),
                                 Some(NewSigning(q, n.warnMeQ)), Some(Warning(d, role))),
             warnPeer := WarningTx(role.Other(), Some(d.Of(role.Other()).addresses.warnAnchor),
                                   Some(NewSigning(p, n.warnPeerP)), Some(NewSigning(q, n.warnPeerQ)),
                                   Some(Warning(d, role.Other())))), None)
  {
    var n := d.Of(role).nonces;
    var peer := s.warnPeer.(anchor := Some(d.Of(role.Other()).addresses.warnAnchor));
    WarningBuiltAs(d, role, s.warnMe, s.deposit.tx.value, n.warnMeP, n.warnMeQ);
    WarningBuiltAs(d, role, peer, s.deposit.tx.value, n.warnPeerP, n.warnPeerQ);
    hide WarningTx.Build, PKey, QKey, Base, Honest, Strip, Warning;
  }

  lemma SwapOk(env: Encoding, x: SpendTx, role: Role, q: AggKey, deposit: Tx, peers: Option<Script>, n: SecNonce,
               input: TxIn, value: Amount, spend: Script)
    requires q.agg.Some? && TxInFor(env, deposit, q) == Some(input)
    requires (if role.Seller? then x.spend else peers) == Some(spend)
    requires input.prev.vout < |deposit.outputs| && deposit.outputs[input.prev.vout].value == value >= FEE
    ensures x.BuildSwap(env, role, q, deposit, peers, n)
            == (x.(sig := Some(NewSigning(q, n)), tx := Some(SwapOf(env, input, value, spend))), None)
  {
    hide TxInFor;
  }

  lemma SwapRound(d: Deal, role: Role, s: Party)
    requires Honest(d)
    requires s.role == role && s.qTik == QKey(d, role)
    requires s.swap == EmptySpend().(spend := if role.Seller? then Some(d.seller.addresses.swap) else None)
    ensures
      s.BuildSwap(d.env, d.Message1(role.Other()), Base(d), d.Of(role).nonces)
      == (s.(swap := s.swap.(sig := Some(NewSigning(s.qTik, d.Of(role).nonces.swap)), tx := Some(Swap(d)))), None)
  {
    OutputsFound(d, role);
    KeysArePartners(d, role);
    hide PKey, QKey, Base, TxInFor, GoodKeys, GoodDeposit, KeysOf, InputOf, SpendTx.BuildSwap;
    SwapOk(d.env, s.swap, role, s.qTik, Base(d), d.Message1(role.Other()).swapScript, d.Of(role).nonces.swap,
           InputOf(d, QKey(d, Seller)), d.pay.buyer, d.seller.addresses.swap);
  }

  lemma SpendOk(env: Encoding, x: SpendTx, tik: AggKey, warning: Tx, n: SecNonce, spend: Script)
    requires tik.agg.Some? && x.spend == Some(spend)
    requires warning.outputs != [] && warning.outputs[0].value >= FEE
    ensures x.BuildClaim(env, tik, Some(warning), n)
            == (SpendTx(Some(spend), Some(NewSigning(tik, n)), Some(ClaimOf(env, warning, spend))), None)
    ensures x.BuildRedirect(env, tik, Some(warning), n)
            == (SpendTx(Some(spend), Some(NewSigning(tik, n)), Some(RedirectOf(env, warning, spend))), None)
  {
    hide ClaimOf, RedirectOf;
  }

  lemma SpendsRound(d: Deal, role: Role, s: Party, merged: Psbt)
    requires GoodKeys(d) && GoodAmounts(d.pay)
    requires s.role == role && s.pTik == PKey(d, role) && s.qTik == QKey(d, role)
    requires s.warnMe.tx == Some(Warning(d, role)) && s.warnPeer.tx == Some(Warning(d, role.Other()))
    requires s.claimMe == EmptySpend().(spend := Some(d.Of(role).addresses.claim)) && s.claimPeer == EmptySpend()
    requires s.redirectMe == EmptySpend().(spend := Some(d.Of(role).addresses.redirectAnchor))
             && s.redirectPeer == EmptySpend()
    ensures
      var n := d.Of(role).nonces;
      var me, other := d.Of(role), d.Of(role.Other());
      var (t, r) := s.SpendWarnings(d.env, d.Message1(role.Other()), n, merged);
      && r == t.Message2(merged)
      && t
         == s.(claimMe := SpendTx(Some(me.addresses.claim), Some(NewSigning(TikOf(d, role), n.claimMe)),
                                  Some(Claim(d, role))),
               claimPeer := SpendTx(Some(other.addresses.claim), Some(NewSigning(OtherTikOf(d, role), n.claimPeer)),
                                    Some(Claim(d, role.Other()))),
               redirectMe := SpendTx(Some(me.addresses.redirectAnchor),
                                     Some(NewSigning(OtherTikOf(d, role), n.redirectMe)), Some(Redirect(d, role))),
               redirectPeer := SpendTx(Some(other.addresses.redirectAnchor),
                                       Some(NewSigning(TikOf(d, role), n.redirectPeer)),
                                       Some(Redirect(d, role.Other()))))
  {
    KeysArePartners(d, role);
    WarningPays(d, role);
    WarningPays(d, role.Other());
    var n, me, other := d.Of(role).nonces, d.Of(role).addresses, d.Of(role.Other()).addresses;
    var own, theirs := Warning(d, role), Warning(d, role.Other());
    hide PKey, QKey, GoodKeys, KeysOf, Lockable, Warning, Party.Message2, ClaimOf, RedirectOf, SpendTx.BuildClaim,
         SpendTx.BuildRedirect;
    SpendOk(d.env, s.claimMe, TikOf(d, role), own, n.claimMe, me.claim);
    SpendOk(d.env, s.claimPeer.(spend := Some(other.claim)), OtherTikOf(d, role), theirs, n.claimPeer, other.claim);
    SpendOk(d.env, s.redirectMe, OtherTikOf(d, role), theirs, n.redirectMe, me.redirectAnchor);
    SpendOk(d.env, s.redirectPeer.(spend := Some(other.redirectAnchor)), TikOf(d, role), own, n.redirectPeer,
            other.redirectAnchor);
  }

  lemma WarningPays(d: Deal, role: Role)
    requires GoodAmounts(d.pay)
    ensures Warning(d, role).outputs != [] && Warning(d, role).outputs[0].value == Funds(d.pay) >= FEE
  {
    hide ScriptOf, KeySpentBy, InputOf, PKey, QKey;
  }

  lemma SecondRoundSteps(env: Encoding, s: Party, bob: Round1Parameter, n: Nonces, shuffles: Shuffles,
                         s1: Party, s2: Party, s3: Party, s4: Party, m: Psbt)
    requires s.round == 1
    requires s.(round := 2).AggregateKeys(env, bob) == (s1, None)
    requires s1.BuildDeposit(env, bob, shuffles) == (s2, Ok(m))
    requires s2.BuildWarnings(env, bob, n) == (s3, None)
    requires s3.BuildSwap(env, bob, m.tx, n) == (s4, None)
    ensures s.Round2(env, bob, n, shuffles) == s4.SpendWarnings(env, bob, n, m)
  {
    hide Party.AggregateKeys, Party.BuildDeposit, Party.BuildWarnings, Party.BuildSwap, Party.SpendWarnings;
  }

  /** Both traders get through the second round, and this is what they then have. */
  lemma SecondRoundBuilds(d: Deal, role: Role)
    requires Honest(d)
    ensures MergedOf(d, role).Some? && PKey(d, role).agg.Some? && QKey(d, role).agg.Some?
    ensures d.After2(role) == (Built(d, role), Ok(Message2(d, role)))
  {
    MergedBoth(d, role);
    KeysArePartners(d, role);
    hide Party.AggregateKeys, Party.BuildDeposit, Party.BuildWarnings, Party.BuildSwap, Party.SpendWarnings,
         Party.Round2, MergedOf, PKey, QKey, GoodKeys, GoodDeposit, KeysOf, Lockable, Base, Extract, Warning, Claim,
         Redirect, Swap, Strip;
    var bob, n, me := d.Message1(role.Other()), d.Of(role).nonces, d.Of(role);
    var s0 := d.After1(role).(round := 2);
    var m := MergedOf(d, role).value;
    KeysRound(d, role, s0);
    var s1 := s0.(pTik := PKey(d, role), qTik := QKey(d, role));
    DepositRound(d, role, s1);
    var s2 := s1.(deposit := DepositTx(None, Some(m), Some(Extract(m))));
    WarningsRound(d, role, s2);
    var s3 := s2.BuildWarnings(d.env, bob, n).0;
    SwapRound(d, role, s3);
    var s4 := s3.BuildSwap(d.env, bob, Base(d), n).0;
    SpendsRound(d, role, s4, m);
    SecondRoundSteps(d.env, d.After1(role), bob, n, me.shuffles, s1, s2, s3, s4, m);
    BuiltMessage(d, role);
  }

  lemma BuiltMessage(d: Deal, role: Role)
    requires GoodAmounts(d.pay) && MergedOf(d, role).Some? && PKey(d, role).agg.Some? && QKey(d, role).agg.Some?
    ensures Built(d, role).Message2(MergedOf(d, role).value) == Ok(Message2(d, role))
  {
    hide MergedOf, PKey, QKey, Extract, Warning, Claim, Redirect, Swap;
  }

  /** The mirror theorem: one trader's own transactions are the other's peer
      transactions, and both have the same swap transaction and deposit. */
  lemma Mirror(d: Deal)
    requires Honest(d)
    ensures d.After2(Seller).1.Ok? && d.After2(Buyer).1.Ok?
    ensures
      var s, b := d.After2(Seller).0, d.After2(Buyer).0;
      && s.swap.tx.Some? && s.warnMe.tx.Some? && s.warnPeer.tx.Some?
      && s.claimMe.tx.Some? && s.claimPeer.tx.Some? && s.redirectMe.tx.Some? && s.redirectPeer.tx.Some?
      && s.swap.tx == b.swap.tx
      && s.warnMe.tx == b.warnPeer.tx && s.warnPeer.tx == b.warnMe.tx
      && s.claimMe.tx == b.claimPeer.tx && s.claimPeer.tx == b.claimMe.tx
      && s.redirectMe.tx == b.redirectPeer.tx && s.redirectPeer.tx == b.redirectMe.tx
      && s.pTik.agg == b.pTik.agg && s.qTik.agg == b.qTik.agg
      && s.deposit.tx.Some? && b.deposit.tx.Some? && Strip(s.deposit.tx.value) == Strip(b.deposit.tx.value)
  {
    SecondRoundBuilds(d, Seller);
    SecondRoundBuilds(d, Buyer);
    MergedBoth(d, Seller);
    MergedBoth(d, Buyer);
    KeysArePartners(d, Seller);
    hide MergedOf, PKey, QKey, Honest, Base, Extract, Warning, Claim, Redirect, Swap, Strip, KeysOf, Lockable,
         Deal.After2;
  }
}
