/** Concrete deals: small keys, constant hashes, one input for each trader. They
    show that the theorems about honest deals speak of something, and where the
    deposit's construction stops being unique. */
module SampleDeals {
  import opened Results
  import opened Scalars
  import opened Musig
  import opened Sorting
  import opened Transactions
  import opened AggKeys
  import opened Deposits
  import opened DepositTxs
  import opened Contracts
  import opened FiveRounds
  import opened HonestSigning
  import opened FiveRoundDeal
  import opened FiveRoundCompletion
  import opened TxNumbers
  import opened Chains
  import opened Settlements
  import opened BuyersKey
  import R = Redirects

  function SampleHashes(): Hashes<nat> {
    Hashes((p: Point, q: Point, r: Point) => 1, (n: PubNonce, q: Point, m: nat) => 0,
           (r: Point, q: Point, m: nat) => 1, (q: Point) => 1, (q: Point) => false)
  }

  function ScriptRank(s: Script): int {
    match s
    case P2tr(key) => key.log
    case OtherScript(id) => 0 - 1 - id
  }

  function SampleEncoding(): Encoding {
    Encoding(SampleHashes(), TxNumber, (i: nat, prevouts: seq<TxOut>, tx: Tx) => 0, (p: Point) => p.log,
             ScriptRank, OtherScript(8), OtherScript(9))
  }

  function Key(k: nat): SecKey
    requires N > 32 && 0 < k <= 8
  {
    k
  }

  /** Pays 5000 to the address of the given key, which is to be disregarded, and
      then whatever change is given. */
  function SamplePart(own: nat, pays: nat, change: seq<TxOut>): Psbt
    requires N > 32 && 0 < own < 3 && 0 < pays <= 8
  {
    var funds := TxOut(6000, OtherScript(own));
    PsbtData([PsbtIn(Some(funds), None)], seq(1 + |change|, i requires 0 <= i < 1 + |change| => PsbtOut(false)),
             Tx([TxIn(OutPoint(own, 0), SEQUENCE_MAX, Unsigned)], [TxOut(5000, P2tr(Point(pays)))] + change))
  }

  function SampleSide(own: nat, p: nat, q: nat, pays: nat, change: seq<TxOut>): Side
    requires N > 32 && 0 < own < 3 && 0 < p <= 8 && 0 < q <= 8 && 0 < pays <= 8
  {
    var n := SecNonce(Draw(own), 1, 1);
    var funds := TxOut(6000, OtherScript(own));
    Side(Key(p), Key(q),
         Wallet((s: Script) => s == OtherScript(own), map[OutPoint(own, 0) := funds], OtherScript(own),
                (o: OutPoint, tx: Tx) => 0),
         SamplePart(own, pays, change),
         Addresses(OtherScript(3), OtherScript(4), OtherScript(5), OtherScript(6)),
         Nonces(n, n, n, n, n, n, n, n, n),
         Shuffles((u: seq<Utxo>) => u, (o: seq<TxOut>) => o))
  }

  /** A deal in which the two parts have these change outputs. */
  function SampleWith(sellers: seq<TxOut>, buyers: seq<TxOut>): Deal
    requires N > 32
  {
    Deal(SampleEncoding(), Amounts(5000, 5000), SampleSide(1, 1, 4, 2, sellers), SampleSide(2, 2, 5, 6, buyers))
  }

  function Sample(): Deal
    requires N > 32
  {
    SampleWith([], [])
  }

  lemma OneTimes(k: Scalar)
    ensures Mul(1, k) == k && Mul(0, k) == 0
  {
    assert Mul(1, k) == Add(k, Mul(0, k));
  }

  function SampleAgg(a: nat, b: nat): KeyAggCtx
    requires N > 32 && 0 < a < b <= 8
  {
    KeyAggCtx(Point(a), Point(b), 1, 1, Point(a + b + 1), false, 1)
  }

  lemma SampleAggregate(a: nat, b: nat)
    requires N > 32 && 0 < a < b <= 5
    ensures
      var key := Some(SampleAgg(a, b));
      && FreshKey(Key(a)).AggregateKey(SampleEncoding(), Point(b))
         == Ok(FreshKey(Key(a)).(agg := key, otherPoint := Some(Point(b))))
      && FreshKey(Key(b)).AggregateKey(SampleEncoding(), Point(a))
         == Ok(FreshKey(Key(b)).(agg := key, otherPoint := Some(Point(a))))
      && FreshKey(Key(a)).(agg := key, otherPoint := Some(Point(b))).AggScript(SampleEncoding())
         == Some(P2tr(Point(a + b + 1)))
  {
    OneTimes(a);
    OneTimes(b);
  }

  /** The two deposit scripts belong to the points 4 and 10. */
  lemma SampleKeys(sellers: seq<TxOut>, buyers: seq<TxOut>)
    requires N > 32
    ensures
      var d := SampleWith(sellers, buyers);
      var p, q := PKey(d, Seller), QKey(d, Seller);
      && GoodKeys(d)
      && p.agg == Some(SampleAgg(1, 2)) && q.agg == Some(SampleAgg(4, 5))
      && p.otherPoint == Some(Point(2)) && q.otherPoint == Some(Point(5))
      && p.PubPoint() == Point(1) && q.PubPoint() == Point(4)
      && p.AggScript(SampleEncoding()) == Some(P2tr(Point(4))) && q.AggScript(SampleEncoding()) == Some(P2tr(Point(10)))
  {
    SampleAggregate(1, 2);
    SampleAggregate(4, 5);
    hide AggKey.AggregateKey, AggKey.AggScript;
  }

  lemma SampleScript(k: nat)
    requires N > 32 && 0 < k <= 10
    ensures SampleEncoding().KeyScript(Point(k)) == P2tr(Point(k + 1))
  {
  }

  function SampleScripts(): seq<Script>
    requires N > 32
  {
    [P2tr(Point(2)), P2tr(Point(5)), P2tr(Point(3)), P2tr(Point(6)), P2tr(Point(5)), P2tr(Point(11))]
  }

  /** The disregarded scripts: neither deposit script is among them. */
  lemma SampleList(sellers: seq<TxOut>, buyers: seq<TxOut>)
    requires N > 32
    ensures
      var d := SampleWith(sellers, buyers);
      Disregarded(d.env, PKey(d, Seller), QKey(d, Seller))
      == Some(SampleScripts())
  {
    hide PKey, QKey, AggKey.AggScript, GoodKeys, Encoding.KeyScript;
    SampleKeys(sellers, buyers);
    SampleScript(1);
    SampleScript(2);
    SampleScript(4);
    SampleScript(5);
    SampleScript(10);
  }

  /** What is kept of each part is its change, unless that is disregarded too. */
  lemma SampleRecipients(sellers: seq<TxOut>, buyers: seq<TxOut>)
    requires N > 32
    requires forall o :: o in sellers + buyers ==> o.script !in SampleScripts()
    ensures
      var d := SampleWith(sellers, buyers);
      var p, q := PKey(d, Seller), QKey(d, Seller);
      && Disregarded(d.env, p, q).Some?
      && Recipients(d.env, d.seller.part, d.buyer.part, p, q, d.pay)
         == [TxOut(5000, P2tr(Point(4))), TxOut(5000, P2tr(Point(10)))] + sellers + buyers
  {
    SampleKeys(sellers, buyers);
    SampleList(sellers, buyers);
    var d := SampleWith(sellers, buyers);
    hide PKey, QKey, AggKey.AggScript, GoodKeys, Disregarded;
    var list := Disregarded(d.env, PKey(d, Seller), QKey(d, Seller)).value;
    assert list[0] == P2tr(Point(2)) && list[3] == P2tr(Point(6));
    ChangeKept(TxOut(5000, P2tr(Point(2))), sellers, list);
    ChangeKept(TxOut(5000, P2tr(Point(6))), buyers, list);
  }

  lemma ChangeKept(o: TxOut, change: seq<TxOut>, list: seq<Script>)
    requires o.script in list && forall c :: c in change ==> c.script !in list
    ensures Kept([o] + change, list) == change
  {
    if change == [] {
      assert [o] + change == [o] && [o][..0] == [];
    } else {
      var n := |change| - 1;
      assert ([o] + change)[..n + 1] == [o] + change[..n];
      ChangeKept(o, change[..n], list);
    }
  }

  lemma SampleSurplus(sellers: seq<TxOut>, buyers: seq<TxOut>)
    requires N > 32
    ensures
      var d := SampleWith(sellers, buyers);
      var p, q := PKey(d, Seller), QKey(d, Seller);
      && InputTotal(d.seller.part.inputs) == 6000 && InputTotal(d.buyer.part.inputs) == 6000
      && (Disregarded(d.env, p, q).Some?
          && Recipients(d.env, d.seller.part, d.buyer.part, p, q, d.pay)
             == [TxOut(5000, P2tr(Point(4))), TxOut(5000, P2tr(Point(10)))] + sellers + buyers
          ==> Surplus(d.env, d.seller.part, d.buyer.part, p, q, d.pay) == 2000 - Total(sellers) - Total(buyers))
  {
    var d := SampleWith(sellers, buyers);
    hide PKey, QKey, Disregarded, Recipients;
    assert d.seller.part.inputs[..0] == [] && d.buyer.part.inputs[..0] == [];
    var first, second := TxOut(5000, P2tr(Point(4))), TxOut(5000, P2tr(Point(10)));
    TotalOfOne(first);
    TotalStep([first], second);
    assert [first] + [second] == [first, second];
    TotalConcat([first, second], sellers);
    TotalConcat([first, second] + sellers, buyers);
  }

  lemma SampleParts(sellers: seq<TxOut>, buyers: seq<TxOut>)
    requires N > 32
    ensures
      var d := SampleWith(sellers, buyers);
      && GoodParts(d, Seller) && GoodParts(d, Buyer) && DistinctOutpoints(d.seller.part, d.buyer.part)
  {
  }

  lemma SampleMerges(sellers: seq<TxOut>, buyers: seq<TxOut>)
    requires N > 32 && Total(sellers) + Total(buyers) <= 2000
    requires forall o :: o in sellers + buyers ==> o.script !in SampleScripts()
    ensures MergedOf(SampleWith(sellers, buyers), Seller).Some?
  {
    hide PKey, QKey, Disregarded, Recipients, GoodKeys, Merged, Surplus, InputTotal, NoncesAddUp, Total;
    SampleRecipients(sellers, buyers);
    SampleSurplus(sellers, buyers);
    SampleParts(sellers, buyers);
    var d := SampleWith(sellers, buyers);
    MergedIs(d.env, d.seller.wallet, d.seller.part, d.buyer.part, PKey(d, Seller), QKey(d, Seller), d.pay,
             d.seller.shuffles);
  }

  lemma SampleIsHonest()
    requires N > 32
    ensures Honest(Sample())
  {
    hide PKey, QKey, MergedOf, Disregarded, Recipients, GoodKeys, GoodParts, DistinctOutpoints;
    SampleKeys([], []);
    SampleMerges([], []);
    SampleRecipients([], []);
    SampleParts([], []);
  }

  lemma SampleSum(key: AggKey, n: SecNonce, n': SecNonce, msg: nat)
    requires N > 32 && key.agg.Some? && n.k1 == n'.k1 == 1
    ensures SumOf(SampleEncoding(), key, n, n', msg) == Point(2)
  {
    OneTimes(AggNonce(n.Public(), n'.Public()).r2.log);
    var agg := AggNonce(n.Public(), n'.Public());
    assert Mul(SampleHashes().nonceCoef(agg, SampleHashes().Even(key.agg.value.pubkey), msg), agg.r2.log) == 0;
  }

  lemma SampleNoncesAddUp(role: Role)
    requires N > 32 && GoodAmounts(Sample().pay)
    requires PKey(Sample(), role).agg.Some? && QKey(Sample(), role).agg.Some?
    ensures NoncesAddUp(Sample(), role)
  {
    forall key: AggKey, n: SecNonce, n': SecNonce, msg: nat | key.agg.Some? && n.k1 == n'.k1 == 1
      ensures SumOf(SampleEncoding(), key, n, n', msg) == Point(2)
    {
      SampleSum(key, n, n', msg);
    }
    hide SumOf, PKey, QKey, WarnMessage, ClaimMessage, RedirectMessage, SwapMessage;
  }

  /** Honest deals exist, with nonces that add up, in every group with more than 32 elements. */
  lemma HonestDealExists()
    requires N > 32
    ensures
      var d := Sample();
      && Honest(d)
      && PKey(d, Seller).agg.Some? && QKey(d, Seller).agg.Some? && PKey(d, Buyer).agg.Some? && QKey(d, Buyer).agg.Some?
      && NoncesAddUp(d, Seller) && NoncesAddUp(d, Buyer)
  {
    SampleIsHonest();
    hide PKey, QKey, NoncesAddUp, KeysOf, GoodDeposit, GoodKeys;
    KeysArePartners(Sample(), Seller);
    KeysArePartners(Sample(), Buyer);
    SampleNoncesAddUp(Seller);
    SampleNoncesAddUp(Buyer);
  }

  // ------------------------------------------------------ where the deposit is not unique

  /** With two change outputs of one script, but different values, the traders'
      builders can end in different deposits. */
  lemma DepositsCanDiffer() returns (s: Shuffles)
    requires N > 32
    ensures
      var d := SampleWith([TxOut(100, OtherScript(7))], [TxOut(200, OtherScript(7))]);
      && GoodKeys(d) && GoodParts(d, Seller) && GoodParts(d, Buyer) && DistinctOutpoints(d.seller.part, d.buyer.part)
      && MergedOf(d, Seller).Some? && Disregarded(d.env, PKey(d, Seller), QKey(d, Seller)).Some?
      && !KeyDecides(Recipients(d.env, d.seller.part, d.buyer.part, PKey(d, Seller), QKey(d, Seller), d.pay),
                     OutputRank(d.env))
      && Fair(s)
      && Merged(d.env, d.buyer.wallet, d.buyer.part, d.seller.part, PKey(d, Buyer), QKey(d, Buyer), d.pay, s).Some?
      && Merged(d.env, d.buyer.wallet, d.buyer.part, d.seller.part, PKey(d, Buyer), QKey(d, Buyer), d.pay, s).value.tx
         != Base(d)
  {
    hide PKey, QKey, Disregarded, Recipients, GoodKeys, Merged, OwnPart, NotMine, SignsOwn, DistinctOutpoints;
    var a, b := [TxOut(100, OtherScript(7))], [TxOut(200, OtherScript(7))];
    var d := SampleWith(a, b);
    TotalOfOne(a[0]);
    TotalOfOne(b[0]);
    SampleKeys(a, b);
    SampleParts(a, b);
    SampleMerges(a, b);
    SampleRecipients(a, b);
    KeysArePartners(d, Seller);
    var r := Recipients(d.env, d.seller.part, d.buyer.part, PKey(d, Seller), QKey(d, Seller), d.pay);
    assert OutputRank(d.env)(r[2]) == OutputRank(d.env)(r[3]) && r[2] != r[3];
    assert !KeyDecides(r, OutputRank(d.env));
    hide KeyDecides, Fair;
    CanonicalExactly(d.env, d.seller.wallet, d.buyer.wallet, d.seller.part, d.buyer.part,
                     PKey(d, Seller), QKey(d, Seller), PKey(d, Buyer), QKey(d, Buyer), d.pay, d.seller.shuffles);
    s :| && Fair(s)
         && var mine, theirs := d.buyer.part, d.seller.part;
         var m := Merged(d.env, d.buyer.wallet, mine, theirs, PKey(d, Buyer), QKey(d, Buyer), d.pay, s);
         !(m.Some? && m.value.tx == Base(d));
    CanonicalDeposit(d.env, d.seller.wallet, d.buyer.wallet, d.seller.part, d.buyer.part, PKey(d, Seller),
                     QKey(d, Seller), PKey(d, Buyer), QKey(d, Buyer), d.pay, d.seller.shuffles, s);
  }

  /** The list of disregarded scripts can miss a deposit script; then a search for
      the deposit's output can find one of the other trader's instead. */
  lemma DepositCanBeMistaken() returns (s: Shuffles)
    requires N > 32
    ensures
      var foreign := TxOut(1, P2tr(Point(4)));
      var d := SampleWith([], [foreign]);
      var p, q := PKey(d, Seller), QKey(d, Seller);
      && GoodKeys(d) && GoodParts(d, Seller) && GoodParts(d, Buyer)
      && Disregarded(d.env, p, q).Some? && p.AggScript(d.env) == Some(foreign.script)
      && foreign.script !in Disregarded(d.env, p, q).value
      && FundsOnly(d.seller.part, Disregarded(d.env, p, q).value, d.pay.seller)
      && FundsOnly(d.buyer.part, Disregarded(d.env, p, q).value, d.pay.buyer)
      && Fair(s) && foreign.value != d.pay.seller
      && Picked(d.env, d.seller.wallet, d.seller.part, d.buyer.part, p, q, d.pay, s, foreign.script) == Some(foreign)
  {
    hide PKey, QKey, Disregarded, Recipients, GoodKeys, Merged, OwnPart, NotMine, SignsOwn, Picked,
         AggKey.AggScript, Fair;
    var b := [TxOut(1, P2tr(Point(4)))];
    var d := SampleWith([], b);
    TotalOfOne(b[0]);
    SampleKeys([], b);
    SampleList([], b);
    SampleParts([], b);
    SampleMerges([], b);
    var list := Disregarded(d.env, PKey(d, Seller), QKey(d, Seller)).value;
    assert d.seller.part.tx.outputs[0].script == list[0] && d.buyer.part.tx.outputs[0].script == list[3];
    s := UnlistedIsPicked(d.env, d.seller.wallet, d.seller.part, d.buyer.part, PKey(d, Seller), QKey(d, Seller), d.pay,
                          d.seller.shuffles, 1);
  }

  // ------------------------------------------------------ an honest deal on a chain

  function EmptyChain(): Chain {
    Chain(0, map[], map[], {}, [], 0, 0)
  }

  function FundsStep(own: nat): Step {
    Mint(OutPoint(own, 0), TxOut(6000, OtherScript(own)))
  }

  /** Both traders' funds are minted, then the deposit is confirmed. */
  function SampleSteps(): seq<Step>
    requires N > 32
  {
    [FundsStep(1), FundsStep(2)] + [Confirm(Base(Sample()))]
  }

  lemma SampleCollisionFree()
    ensures CollisionFree(SampleEncoding())
  {
    hide TxNumber;
    forall tx, tx' | SampleEncoding().Txid(tx) == SampleEncoding().Txid(tx') ensures Strip(tx) == Strip(tx') {
      TxsDiffer(Strip(tx), Strip(tx'));
      assert Strip(Strip(tx)) == Strip(tx) && Strip(Strip(tx')) == Strip(tx');
    }
  }

  lemma SampleMinting(txid: nat)
    requires txid < 3
    ensures Minting(SampleEncoding(), txid)
  {
  }

  lemma RunStep(env: Encoding, start: Chain, steps: seq<Step>, step: Step)
    ensures Run(env, start, steps + [step]) == Apply(env, Run(env, start, steps), step)
  {
    assert (steps + [step])[..|steps|] == steps;
  }

  /** The traders' funds before the deposit. */
  function FundedChain(): Chain {
    var a, b := Coin(TxOut(6000, OtherScript(1)), 0), Coin(TxOut(6000, OtherScript(2)), 0);
    Chain(0, map[OutPoint(1, 0) := a, OutPoint(2, 0) := b], map[OutPoint(1, 0) := 0, OutPoint(2, 0) := 0], {}, [], 0,
          12000)
  }

  lemma SampleFunded(env: Encoding)
    requires Minting(env, 1) && Minting(env, 2)
    ensures Run(env, EmptyChain(), [FundsStep(1), FundsStep(2)]) == FundedChain()
  {
    hide Minting, Run, Apply, EmptyChain, FundedChain, HalfFunded;
    var first, second := FundsStep(1), FundsStep(2);
    assert [] + [first] == [first] && [first] + [second] == [first, second];
    RunStep(env, EmptyChain(), [], first);
    RunStep(env, EmptyChain(), [first], second);
    RunNone(env, EmptyChain());
    MintFirst(env);
    MintSecond(env);
  }

  function HalfFunded(): Chain {
    var a := Coin(TxOut(6000, OtherScript(1)), 0);
    Chain(0, map[OutPoint(1, 0) := a], map[OutPoint(1, 0) := 0], {}, [], 0, 6000)
  }

  lemma MintFirst(env: Encoding)
    requires Minting(env, 1)
    ensures Apply(env, EmptyChain(), FundsStep(1)) == HalfFunded()
  {
    hide Minting;
  }

  lemma MintSecond(env: Encoding)
    requires Minting(env, 2)
    ensures Apply(env, HalfFunded(), FundsStep(2)) == FundedChain()
  {
    hide Minting;
    var c := Minted(HalfFunded(), OutPoint(2, 0), TxOut(6000, OtherScript(2)));
    assert c.coins == FundedChain().coins && c.mints == FundedChain().mints;
  }

  lemma RunNone(env: Encoding, start: Chain)
    ensures Run(env, start, []) == start
  {
  }

  /** The sample deposit spends the funds of both. */
  lemma SampleBase()
    requires N > 32
    ensures
      var tx := Base(Sample());
      && |tx.inputs| == 2 && Mature(FundedChain(), tx.inputs[0]) && Mature(FundedChain(), tx.inputs[1])
      && tx.inputs[0].prev != tx.inputs[1].prev
      && |tx.outputs| == 2 && Total(tx.outputs) == 10000
  {
    hide PKey, QKey, Disregarded, Recipients, Merged, OwnPart, Surplus, InputTotal, Total, Honest, AllUtxos,
         PlainIns, Mature, GoodKeys, SignsOwn, NotMine, SampleSide;
    var d := Sample();
    TotalOfNone();
    SampleMerges([], []);
    SampleParts([], []);
    SampleSurplus([], []);
    SampleRecipients([], []);
    SampleInputs();
    FundsMature();
    DepositBalances(d.env, d.seller.wallet, d.seller.part, d.buyer.part, PKey(d, Seller), QKey(d, Seller), d.pay,
                    d.seller.shuffles);
    TwoOfTwo(Base(d).inputs, SampleIn(1), SampleIn(2));
    assert |Base(d).outputs| == |multiset(Base(d).outputs)| == 2;
  }

  function SampleIn(own: nat): TxIn {
    TxIn(OutPoint(own, 0), SEQUENCE_MAX, Unsigned)
  }

  lemma TotalOfNone()
    ensures Total([]) == 0
  {
  }

  lemma SampleInputs()
    requires N > 32
    ensures
      var d := Sample();
      PlainIns(AllUtxos(d.seller.wallet, d.seller.part, d.buyer.part)) == [SampleIn(1), SampleIn(2)]
  {
  }

  lemma FundsMature()
    ensures Mature(FundedChain(), SampleIn(1)) && Mature(FundedChain(), SampleIn(2))
  {
  }

  lemma TwoOfTwo<T>(s: seq<T>, a: T, b: T)
    requires multiset(s) == multiset([a, b]) && a != b
    ensures s == [a, b] || s == [b, a]
  {
    assert |s| == |multiset(s)| == 2;
    assert s == [s[0], s[1]];
    assert s[0] in multiset(s) && s[1] in multiset(s);
    assert multiset(s) == multiset{s[0], s[1]};
  }

  lemma SampleDeposited() returns (c: Chain)
    requires N > 32
    ensures c == Run(SampleEncoding(), EmptyChain(), SampleSteps())
    ensures Honest(Sample()) && Sound(SampleEncoding(), c) && DepositStands(Sample(), c)
  {
    hide Run, Sound, CollisionFree, Honest, Base, Confirmable, Total, InValue, Mature, DepositStands, LocksKept,
         SampleSide, FundedChain, Confirmed, SampleHashes;
    var d := Sample();
    var env, tx, funded := d.env, Base(d), FundedChain();
    SampleIsHonest();
    SampleCollisionFree();
    SampleMinting(1);
    SampleMinting(2);
    SampleFunded(env);
    SampleConfirmable();
    EmptyIsSound();
    c := Run(env, EmptyChain(), SampleSteps());
    RunsAreSound(env, EmptyChain(), SampleSteps());
    RunStep(env, EmptyChain(), [FundsStep(1), FundsStep(2)], Confirm(tx));
    DepositConfirmed(d, funded, tx);
  }

  lemma EmptyIsSound()
    ensures Sound(SampleEncoding(), EmptyChain())
  {
  }

  lemma SampleConfirmable()
    requires N > 32
    ensures Confirmable(FundedChain(), Base(Sample()))
  {
    hide Base, Confirmable, Total, InValue, Mature, Sample;
    SampleBase();
    FundedValues();
    TwoInputs(FundedChain(), Base(Sample()));
  }

  lemma FundedValues()
    ensures forall op :: op in FundedChain().coins ==> FundedChain().coins[op].out.value == 6000
    ensures forall i :: Mature(FundedChain(), i) ==> i.prev in FundedChain().coins
  {
  }

  /** An honest deal, on a chain with collision-free identifiers, from an empty
      chain to the deposit and on to a warning that stands, as agreed: all that the
      theorems about the contract on the chain suppose, together. */
  lemma HonestContractExists() returns (c: Chain)
    requires N > 32
    ensures
      var d := Sample();
      && Honest(d) && CollisionFree(d.env) && ScriptOf(d, PKey(d, Seller)) != ScriptOf(d, QKey(d, Seller))
      && c == Run(d.env, EmptyChain(), SampleSteps()) && Sound(d.env, c) && DepositStands(d, c)
      && var warned := Run(d.env, c, [Confirm(Warning(d, Seller))]);
      && Sound(d.env, warned) && WarningStands(d, warned, Seller, c.height) && AsAgreed(d, warned.log, |c.log|)
      && Funds(d.pay) <= FEE + R.LARGEST_SAFE
      && Deposited(d, c) && Completes(d)
  {
    hide PKey, QKey, ScriptOf, Sound, CollisionFree, Honest, DepositStands, WarningStands, Confirmable, LocksKept,
         Warning, SampleSide, SampleHashes, Confirmed, SampleSteps, AsAgreed, Completes;
    var d := Sample();
    SampleCollisionFree();
    SampleScriptsDiffer();
    c := SampleDeposited();
    SampleCompletes();
    assert GoodAmounts(d.pay);
    DepositSpendable(d, c, Seller);
    WarningAgreed(d, c);
    RunsAreSound(d.env, c, [Confirm(Warning(d, Seller))]);
  }

  lemma SampleCompletes()
    requires N > 32
    ensures Completes(Sample())
  {
    hide PKey, QKey, NoncesAddUp, Honest, Sample;
    HonestDealExists();
  }

  lemma SampleScriptsDiffer()
    requires N > 32
    ensures ScriptOf(Sample(), PKey(Sample(), Seller)) != ScriptOf(Sample(), QKey(Sample(), Seller))
  {
    hide PKey, QKey;
    SampleKeys([], []);
  }

  lemma WarningAgreed(d: Deal, c: Chain)
    requires GoodAmounts(d.pay) && Confirmable(c, Warning(d, Seller))
    ensures
      var warned := Run(d.env, c, [Confirm(Warning(d, Seller))]);
      warned == Confirmed(d.env, c, Warning(d, Seller)) && AsAgreed(d, warned.log, |c.log|)
  {
    hide Confirmable, Warning, SpentBy, ContractOuts;
    var tx := Warning(d, Seller);
    assert [] + [Confirm(tx)] == [Confirm(tx)];
    RunStep(d.env, c, [], Confirm(tx));
    assert Is(Confirmed(d.env, c, tx).log[|c.log|], tx);
  }
}
