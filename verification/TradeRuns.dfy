/** Every sequence of calls on a trade, failing and repeated ones included: no
    secret nonce signs twice, and the seller cannot finish the swap signature
    before it has aggregated one from the buyer's partial signature. */
module TradeRuns {
  import opened Results
  import opened Scalars
  import opened Musig
  import opened TradeContexts
  import opened TradeModels

  datatype Call =
    | InitKeys(buyerShare: SecKey, sellerShare: SecKey)
    | SetPeerKeys(buyerOutput: Point, sellerOutput: Point)
    | AggregateKeys
    | DrawNonces(secrets: Seven<(SecKey, SecKey)>)
    | SetPeerNonces(peerNonces: Seven<PubNonce>)
    | SumNonces
    | SignAll
    | SetPeerSigs(sigs: ExchangedSigs)
    | AggregateAll
    | SetSwapPartial(partial: Scalar)
    | AggregateSwap
    | SetPeerPrvKey(prvKey: Scalar)
    | AggregatePrvKeys
    | Recover(final: LiftedSig)

  /** A trade, and how many times the random source has been drawn from. */
  datatype World = World(trade: Trade, draws: nat)

  /** Seven new draws. */
  function Drawn(secrets: Seven<(SecKey, SecKey)>, first: nat): Seven<SecNonce> {
    var n := (i: nat, k: (SecKey, SecKey)) => SecNonce(Draw(first + i), k.0, k.1);
    Seven(n(0, secrets.swap),
          n(1, secrets.buyersWarnBuyerIn), n(2, secrets.buyersWarnSellerIn),
          n(3, secrets.sellersWarnBuyerIn), n(4, secrets.sellersWarnSellerIn),
          n(5, secrets.buyersRedirect), n(6, secrets.sellersRedirect))
  }

  function Exec(h: Hashes<Message>, w: World, call: Call): (World, Option<Failure>) {
    var t := w.trade;
    match call
    case InitKeys(b, s) => (w.(trade := t.InitMyKeyShares(b, s)), None)
    case SetPeerKeys(b, s) => (w.(trade := t.SetPeerKeyShares(b, s)), None)
    case AggregateKeys => Done(w, t.AggregateKeyShares(h))
    case DrawNonces(secrets) => Done(w.(draws := w.draws + 7), t.InitMyNonceShares(h, Drawn(secrets, w.draws)))
    case SetPeerNonces(n) => (w.(trade := t.SetPeerNonceShares(n)), None)
    case SumNonces => Done(w, t.AggregateNonceShares(h))
    case SignAll => Done(w, t.SignPartial(h))
    case SetPeerSigs(p) => (w.(trade := t.SetPeerPartialSignaturesOnMyTxs(p)), None)
    case AggregateAll => Done(w, t.AggregatePartialSignatures(h))
    case SetSwapPartial(s) => (w.(trade := t.SetSwapPeersPartial(s)), None)
    case AggregateSwap => Done(w, t.AggregateSwapPartials(h))
    case SetPeerPrvKey(k) => Done(w, t.SetPeerPrvKeyShareForMyOutput(k))
    case AggregatePrvKeys => Done(w, t.AggregatePrvKeysForMyOutput())
    case Recover(sig) => Done(w, t.RecoverSellersPrvKeyShare(sig))
  }

  function Done(w: World, s: Step): (World, Option<Failure>) {
    (w.(trade := s.trade), s.err)
  }

  function Run(h: Hashes<Message>, w: World, calls: seq<Call>): World
    decreases |calls|
  {
    if calls == [] then w else Run(h, Exec(h, w, calls[0]).0, calls[1..])
  }

  // ------------------------------------------------------ single use of nonces

  /** The nonces a context has signed with or could still sign with. */
  ghost function Tags(s: SigState): set<NonceTag> {
    (set i | 0 <= i < |s.spent| :: s.spent[i].tag) + Held(s)
  }

  ghost function Held(s: SigState): set<NonceTag> {
    if s.mine.Some? && s.mine.value.sec.Some? then {s.mine.value.sec.value.tag} else {}
  }

  ghost predicate SpentOnce(s: SigState) {
    && (forall i, j :: 0 <= i < j < |s.spent| ==> s.spent[i].tag != s.spent[j].tag)
    && (forall i :: 0 <= i < |s.spent| ==> s.spent[i].tag !in Held(s))
  }

  type Contexts = SigId -> SigState

  ghost function ContextsOf(t: Trade): Contexts {
    (id: SigId) => t.sigs.Get(id)
  }

  ghost predicate Disciplined(f: Contexts, draws: nat) {
    && (forall id :: SpentOnce(f(id)))
    && (forall id, tag :: tag in Tags(f(id)) ==> tag.Draw? && tag.id < draws)
    && (forall id, other, tag :: tag in Tags(f(id)) && tag in Tags(f(other)) ==> id == other)
  }

  ghost predicate Unused(f: Contexts, tag: NonceTag) {
    forall id :: tag !in Tags(f(id))
  }

  /** g is f with the context at id replaced by c. */
  ghost predicate Replaces(f: Contexts, g: Contexts, id: SigId, c: SigState) {
    g(id) == c && forall other :: other != id ==> g(other) == f(other)
  }

  /** Signing moves the held nonce to the spent ones, or loses it. */
  lemma SigningTags(s: SigState, h: Hashes<Message>, key: KeyState, msg: Message)
    requires SpentOnce(s)
    ensures
      var c := s.SignPartial(h, key, msg).0;
      SpentOnce(c) && Tags(c) <= Tags(s)
  {
    var c := s.SignPartial(h, key, msg).0;
    if c.spent != s.spent {
      assert c.spent == s.spent + [s.mine.value.sec.value];
    } else if c != s {
      assert Held(c) == {};
    }
  }

  /** Replacing one context by one with no new nonces keeps the discipline. */
  lemma ReplacingKeeps(f: Contexts, g: Contexts, id: SigId, c: SigState, draws: nat)
    requires Disciplined(f, draws) && Replaces(f, g, id, c)
    requires SpentOnce(c) && Tags(c) <= Tags(f(id))
    ensures Disciplined(g, draws)
  {
    hide Tags, SpentOnce;
    forall other, t ensures t in Tags(g(other)) ==> t in Tags(f(other)) {
    }
    forall other ensures SpentOnce(g(other)) {
      assert SpentOnce(f(other));
    }
  }

  lemma DrawingOneKeeps(f: Contexts, g: Contexts, id: SigId, c: SigState, tag: NonceTag, draws: nat)
    requires Disciplined(f, draws) && Replaces(f, g, id, c)
    requires Unused(f, tag) && tag.Draw? && tag.id < draws
    requires SpentOnce(c) && Tags(c) <= Tags(f(id)) + {tag}
    ensures Disciplined(g, draws)
    ensures forall t :: Unused(f, t) && t != tag ==> Unused(g, t)
  {
    hide Tags, SpentOnce;
    forall other, t ensures t in Tags(g(other)) ==> t in Tags(f(other)) || (other == id && t == tag) {
    }
    forall other ensures SpentOnce(g(other)) {
      assert SpentOnce(f(other));
    }
  }

  lemma OnKeeps(s: Step, h: Hashes<Message>, id: SigId, op: SigOp, draws: nat)
    requires Disciplined(ContextsOf(s.trade), draws) && !op.InitNonce?
    ensures Disciplined(ContextsOf(s.On(h, id, op).trade), draws)
  {
    if s.err.None? {
      var before, c := s.trade.sigs.Get(id), s.trade.Apply(h, id, op).0;
      assert SpentOnce(ContextsOf(s.trade)(id));
      if op.Sign? {
        SigningTags(before, h, s.trade.KeyFor(id), MessageOf(id));
      } else {
        assert c.spent == before.spent && c.mine == before.mine;
      }
      ReplacingKeeps(ContextsOf(s.trade), ContextsOf(s.On(h, id, op).trade), id, c, draws);
    }
  }

  lemma OnInit(s: Step, h: Hashes<Message>, id: SigId, nonces: Seven<SecNonce>, draws: nat)
    requires Disciplined(ContextsOf(s.trade), draws)
    requires Unused(ContextsOf(s.trade), nonces.Get(id).tag)
    requires nonces.Get(id).tag.Draw? && nonces.Get(id).tag.id < draws
    ensures
      var f, g := ContextsOf(s.trade), ContextsOf(s.On(h, id, InitNonce(nonces)).trade);
      Disciplined(g, draws) && forall tag :: Unused(f, tag) && tag != nonces.Get(id).tag ==> Unused(g, tag)
  {
    if s.err.None? {
      var before, c := s.trade.sigs.Get(id), s.trade.Apply(h, id, InitNonce(nonces)).0;
      var f := ContextsOf(s.trade);
      assert SpentOnce(f(id)) && nonces.Get(id).tag !in Tags(f(id));
      InitTags(before, s.trade.KeyFor(id), nonces.Get(id));
      DrawingOneKeeps(f, ContextsOf(s.On(h, id, InitNonce(nonces)).trade), id, c, nonces.Get(id).tag, draws);
    }
  }

  lemma InitTags(s: SigState, key: KeyState, nonce: SecNonce)
    requires SpentOnce(s) && nonce.tag !in Tags(s)
    ensures
      var c := s.InitMyNonceShare(key, nonce).0;
      SpentOnce(c) && Tags(c) <= Tags(s) + {nonce.tag}
  {
    var c := s.InitMyNonceShare(key, nonce).0;
    forall i | 0 <= i < |c.spent| ensures c.spent[i].tag !in Held(c) {
      assert c.spent[i].tag in Tags(s);
    }
  }

  /** A chain of drawing steps over distinct contexts with distinct unused nonces. */
  lemma {:induction false} DrawingChain(s: Step, h: Hashes<Message>, ids: seq<SigId>, nonces: Seven<SecNonce>,
                                        draws: nat)
    requires Disciplined(ContextsOf(s.trade), draws)
    requires forall i :: 0 <= i < |ids| ==> Unused(ContextsOf(s.trade), nonces.Get(ids[i]).tag)
    requires forall i :: 0 <= i < |ids| ==> nonces.Get(ids[i]).tag.Draw? && nonces.Get(ids[i]).tag.id < draws
    requires forall i, j :: 0 <= i < j < |ids| ==> nonces.Get(ids[i]).tag != nonces.Get(ids[j]).tag
    ensures Disciplined(ContextsOf(Chain(s, h, ids, InitNonce(nonces)).trade), draws)
    decreases |ids|
  {
    if ids == [] {
    } else {
      OnInit(s, h, ids[0], nonces, draws);
      var s' := s.On(h, ids[0], InitNonce(nonces));
      forall i | 0 <= i < |ids[1..]| ensures Unused(ContextsOf(s'.trade), nonces.Get(ids[1..][i]).tag) {
        assert ids[1..][i] == ids[i + 1];
      }
      DrawingChain(s', h, ids[1..], nonces, draws);
    }
  }

  lemma DrawingKeeps(t: Trade, h: Hashes<Message>, secrets: Seven<(SecKey, SecKey)>, draws: nat)
    requires Disciplined(ContextsOf(t), draws)
    ensures Disciplined(ContextsOf(t.InitMyNonceShares(h, Drawn(secrets, draws)).trade), draws + 7)
  {
    hide Tags, SpentOnce, Drawn;
    var n := Drawn(secrets, draws);
    DrawnTags(secrets, draws);
    DrawingChain(Step(t, None), h, BY_KEY, n, draws + 7);
  }

  lemma DrawnTags(secrets: Seven<(SecKey, SecKey)>, draws: nat)
    ensures forall id: SigId ::
              Drawn(secrets, draws).Get(id).tag.Draw? && draws <= Drawn(secrets, draws).Get(id).tag.id < draws + 7
    ensures forall i, j :: 0 <= i < j < |BY_KEY| ==>
              Drawn(secrets, draws).Get(BY_KEY[i]).tag != Drawn(secrets, draws).Get(BY_KEY[j]).tag
  {
  }

  lemma {:induction false} ChainKeeps(s: Step, h: Hashes<Message>, ids: seq<SigId>, op: SigOp, draws: nat)
    requires Disciplined(ContextsOf(s.trade), draws) && !op.InitNonce?
    ensures Disciplined(ContextsOf(Chain(s, h, ids, op).trade), draws)
    decreases |ids|
  {
    if ids == [] {
    } else {
      OnKeeps(s, h, ids[0], op, draws);
      ChainKeeps(s.On(h, ids[0], op), h, ids[1..], op, draws);
    }
  }

  lemma ExecKeeps(h: Hashes<Message>, w: World, call: Call)
    requires Disciplined(ContextsOf(w.trade), w.draws)
    ensures var w' := Exec(h, w, call).0; Disciplined(ContextsOf(w'.trade), w'.draws)
  {
    var t, s := w.trade, Step(w.trade, None);
    match call
    case DrawNonces(secrets) => DrawingKeeps(t, h, secrets, w.draws);
    case SignAll =>
      ChainKeeps(s, h, BY_KEY, Sign, w.draws);
    case SumNonces =>
      ChainKeeps(s, h, BY_TX, AggregateNonces, w.draws);
    case AggregateAll => AggregatingKeeps(t, h, w.draws);
    case _ => SettersKeep(h, w, call);
  }

  lemma AggregatingKeeps(t: Trade, h: Hashes<Message>, draws: nat)
    requires Disciplined(ContextsOf(t), draws)
    ensures Disciplined(ContextsOf(t.AggregatePartialSignatures(h).trade), draws)
  {
    ChainKeeps(Step(t, None), h, if t.amBuyer then BUYERS else SELLERS, AggregateSigs, draws);
  }

  /** The calls that neither draw nor sign nor work through several contexts. */
  lemma SettersKeep(h: Hashes<Message>, w: World, call: Call)
    requires Disciplined(ContextsOf(w.trade), w.draws)
    requires !(call.DrawNonces? || call.SignAll? || call.SumNonces? || call.AggregateAll?)
    ensures var w' := Exec(h, w, call).0; w'.draws == w.draws && Disciplined(ContextsOf(w'.trade), w'.draws)
  {
    var w' := Exec(h, w, call).0;
    forall id: SigId
      ensures w'.trade.sigs.Get(id).spent == w.trade.sigs.Get(id).spent
      ensures w'.trade.sigs.Get(id).mine == w.trade.sigs.Get(id).mine
    {
    }
    SameNoncesKeep(ContextsOf(w.trade), ContextsOf(w'.trade), w.draws);
  }

  lemma SameNoncesKeep(f: Contexts, g: Contexts, draws: nat)
    requires Disciplined(f, draws)
    requires forall id :: g(id).spent == f(id).spent && g(id).mine == f(id).mine
    ensures Disciplined(g, draws)
  {
    forall id ensures Tags(g(id)) == Tags(f(id)) && SpentOnce(g(id)) {
      assert SpentOnce(f(id));
    }
  }

  lemma {:induction false} RunKeeps(h: Hashes<Message>, w: World, calls: seq<Call>)
    requires Disciplined(ContextsOf(w.trade), w.draws)
    ensures var w' := Run(h, w, calls); Disciplined(ContextsOf(w'.trade), w'.draws)
    decreases |calls|
  {
    if calls == [] {
    } else {
      ExecKeeps(h, w, calls[0]);
      RunKeeps(h, Exec(h, w, calls[0]).0, calls[1..]);
    }
  }

  /** Over every run, two signing events never used the same secret nonce,
      whether in one signing context or in two, and each used a drawn one. */
  lemma NonceSingleUse(h: Hashes<Message>, amBuyer: bool, calls: seq<Call>,
                       id: SigId, i: nat, other: SigId, j: nat)
    requires
      var sigs := Run(h, World(NewTrade(amBuyer), 0), calls).trade.sigs;
      i < |sigs.Get(id).spent| && j < |sigs.Get(other).spent|
    ensures
      var sigs := Run(h, World(NewTrade(amBuyer), 0), calls).trade.sigs;
      && sigs.Get(id).spent[i].tag.Draw?
      && (sigs.Get(id).spent[i].tag == sigs.Get(other).spent[j].tag ==> id == other && i == j)
  {
    var w := World(NewTrade(amBuyer), 0);
    NewIsDisciplined(amBuyer);
    RunKeeps(h, w, calls);
    OnceEach(ContextsOf(Run(h, w, calls).trade), Run(h, w, calls).draws, id, i, other, j);
  }

  lemma NewIsDisciplined(amBuyer: bool)
    ensures Disciplined(ContextsOf(NewTrade(amBuyer)), 0)
  {
    forall id: SigId ensures Tags(NewTrade(amBuyer).sigs.Get(id)) == {} && SpentOnce(NewTrade(amBuyer).sigs.Get(id)) {
      assert NewTrade(amBuyer).sigs.Get(id) == NEW_SIG.(amBuyer := amBuyer);
    }
    hide Tags, SpentOnce;
  }

  lemma OnceEach(f: Contexts, draws: nat, id: SigId, i: nat, other: SigId, j: nat)
    requires Disciplined(f, draws)
    requires i < |f(id).spent| && j < |f(other).spent|
    ensures f(id).spent[i].tag.Draw?
    ensures f(id).spent[i].tag == f(other).spent[j].tag ==> id == other && i == j
  {
    assert f(id).spent[i].tag in Tags(f(id));
    assert f(other).spent[j].tag in Tags(f(other));
    assert SpentOnce(f(id));
  }

  // ------------------------------------------------------ a nonce once taken

  /** The context had a nonce, whose secret part is gone. */
  predicate Taken(s: SigState) {
    s.mine.Some? && s.mine.value.sec.None?
  }

  /** One attempt that got as far as the nonce, and another right after it. */
  lemma SecondAttempt(s: SigState, h: Hashes<Message>, key: KeyState, msg: Message, msg': Message)
    ensures
      var (c, err) := s.SignPartial(h, key, msg);
      err !in {Some(MissingAggPubKey), Some(MissingKeyShare), Some(MissingNonceShare)} ==>
        c.SignPartial(h, key, msg') == (c, Some(NonceReuse))
  {
  }

  /** Nothing but a new draw gives such a context a secret nonce, or signs in it. */
  lemma OnKeepsTaken(s: Step, h: Hashes<Message>, op: SigOp, at: SigId, id: SigId)
    requires !op.InitNonce? && Taken(s.trade.sigs.Get(id))
    ensures
      var before, after := s.trade.sigs.Get(id), s.On(h, at, op).trade.sigs.Get(id);
      after.mine == before.mine && after.spent == before.spent
    ensures op.Sign? && at == id ==> s.On(h, at, op).err.Some?
  {
    var c := s.On(h, at, op).trade.sigs;
    assert c.Get(id) == if s.err.None? && at == id then s.trade.Apply(h, id, op).0 else s.trade.sigs.Get(id);
  }

  lemma {:induction false} ChainKeepsTaken(s: Step, h: Hashes<Message>, ids: seq<SigId>, op: SigOp, id: SigId)
    requires !op.InitNonce? && Taken(s.trade.sigs.Get(id))
    ensures
      var before, r := s.trade.sigs.Get(id), Chain(s, h, ids, op);
      && r.trade.sigs.Get(id).mine == before.mine && r.trade.sigs.Get(id).spent == before.spent
      && (s.err.Some? || (op.Sign? && id in ids) ==> r.err.Some?)
    decreases |ids|
  {
    if ids == [] {
    } else {
      OnKeepsTaken(s, h, op, ids[0], id);
      hide Step.On;
      ErrorStays(s, h, ids[0], op);
      ChainKeepsTaken(s.On(h, ids[0], op), h, ids[1..], op, id);
    }
  }

  lemma ErrorStays(s: Step, h: Hashes<Message>, id: SigId, op: SigOp)
    ensures s.err.Some? ==> s.On(h, id, op) == s
  {
  }

  /** A signing chain takes the nonce of each context it works through, and leaves
      those it does not reach as they were. */
  lemma {:induction false} SigningTakes(s: Step, h: Hashes<Message>, ids: seq<SigId>, id: SigId)
    ensures
      var before, r := s.trade.sigs.Get(id), Chain(s, h, ids, Sign);
      && (r.trade.sigs.Get(id) == before || Taken(r.trade.sigs.Get(id)))
      && (r.err.None? && id in ids ==> Taken(r.trade.sigs.Get(id)))
    decreases |ids|
  {
    if ids == [] {
    } else {
      var s' := s.On(h, ids[0], Sign);
      SigningOneTakes(s, h, ids[0], id);
      hide Step.On;
      SigningTakes(s', h, ids[1..], id);
      if Taken(s'.trade.sigs.Get(id)) {
        ChainKeepsTaken(s', h, ids[1..], Sign, id);
      } else if s'.err.Some? {
        ChainStops(s', h, ids[1..], Sign);
      }
    }
  }

  lemma SigningOneTakes(s: Step, h: Hashes<Message>, at: SigId, id: SigId)
    ensures
      var before, s' := s.trade.sigs.Get(id), s.On(h, at, Sign);
      && (s'.trade.sigs.Get(id) == before || Taken(s'.trade.sigs.Get(id)))
      && (s'.err.None? && at == id ==> Taken(s'.trade.sigs.Get(id)))
  {
    var c := s.On(h, at, Sign).trade.sigs;
    assert c.Get(id) == if s.err.None? && at == id then s.trade.Apply(h, id, Sign).0 else s.trade.sigs.Get(id);
  }

  lemma {:induction false} ChainStops(s: Step, h: Hashes<Message>, ids: seq<SigId>, op: SigOp)
    requires s.err.Some?
    ensures Chain(s, h, ids, op) == s
    decreases |ids|
  {
    if ids == [] {
    } else {
      ChainStops(s, h, ids[1..], op);
    }
  }

  /** Any call but a new draw leaves the nonce taken and adds no signature. */
  lemma ExecKeepsTaken(h: Hashes<Message>, w: World, call: Call, id: SigId)
    requires Taken(w.trade.sigs.Get(id)) && !call.DrawNonces?
    ensures
      var before, (w', err) := w.trade.sigs.Get(id), Exec(h, w, call);
      && w'.trade.sigs.Get(id).mine == before.mine && w'.trade.sigs.Get(id).spent == before.spent
      && (call.SignAll? ==> err.Some?)
  {
    var s := Step(w.trade, None);
    match call
    case SignAll =>
      AllSign(id);
      ChainKeepsTaken(s, h, BY_KEY, Sign, id);
    case SumNonces => ChainKeepsTaken(s, h, BY_TX, AggregateNonces, id);
    case AggregateAll => ChainKeepsTaken(s, h, if w.trade.amBuyer then BUYERS else SELLERS, AggregateSigs, id);
    case _ =>
  }

  lemma AllSign(id: SigId)
    ensures id in BY_KEY
  {
    assert BY_KEY[0] == BuyersWarnBuyerIn && BY_KEY[1] == SellersWarnBuyerIn && BY_KEY[2] == BuyersRedirect;
    assert BY_KEY[3] == Swap && BY_KEY[4] == BuyersWarnSellerIn && BY_KEY[5] == SellersWarnSellerIn;
    assert BY_KEY[6] == SellersRedirect;
  }

  /** Once a signing call went through, or only reached this context, its nonce is
      gone: until the next draw no call, in whatever order, signs in this context
      or gives it a nonce, and every further signing call fails. */
  lemma {:induction false} AttemptTakesNonce(h: Hashes<Message>, w: World, id: SigId, calls: seq<Call>)
    requires
      var (signed, err) := Exec(h, w, SignAll);
      err.None? || signed.trade.sigs.Get(id) != w.trade.sigs.Get(id)
    requires forall k :: 0 <= k < |calls| ==> !calls[k].DrawNonces?
    ensures
      var signed := Exec(h, w, SignAll).0;
      var before, after := signed.trade.sigs.Get(id), Run(h, signed, calls).trade.sigs.Get(id);
      && Taken(before) && after.mine == before.mine && after.spent == before.spent
      && Exec(h, Run(h, signed, calls), SignAll).1.Some?
  {
    AllSign(id);
    SigningTakes(Step(w.trade, None), h, BY_KEY, id);
    hide Run;
    TakenThroughout(h, Exec(h, w, SignAll).0, id, calls);
    ExecKeepsTaken(h, Run(h, Exec(h, w, SignAll).0, calls), SignAll, id);
  }

  lemma {:induction false} TakenThroughout(h: Hashes<Message>, w: World, id: SigId, calls: seq<Call>)
    requires Taken(w.trade.sigs.Get(id)) && forall k :: 0 <= k < |calls| ==> !calls[k].DrawNonces?
    ensures
      var before, after := w.trade.sigs.Get(id), Run(h, w, calls).trade.sigs.Get(id);
      after.mine == before.mine && after.spent == before.spent
    decreases |calls|
  {
    if calls == [] {
    } else {
      ExecKeepsTaken(h, w, calls[0], id);
      hide Exec;
      TakenThroughout(h, Exec(h, w, calls[0]).0, id, calls[1..]);
    }
  }

  // ------------------------------------------------------ release of the swap

  /** Some call of the run aggregated the swap signature successfully. */
  predicate SwapAggregated(h: Hashes<Message>, w: World, calls: seq<Call>)
    decreases |calls|
  {
    calls != [] &&
    var (w', err) := Exec(h, w, calls[0]);
    (calls[0].AggregateSwap? && err.None?) || SwapAggregated(h, w', calls[1..])
  }

  lemma OnOtherKeepsSwapSig(s: Step, h: Hashes<Message>, id: SigId, op: SigOp)
    requires id != Swap || !op.AggregateSigs?
    ensures s.On(h, id, op).trade.sigs.swap.aggregatedSig == s.trade.sigs.swap.aggregatedSig
    ensures s.On(h, id, op).trade.amBuyer == s.trade.amBuyer
  {
    var c := s.On(h, id, op).trade.sigs;
    assert c.Get(Swap).aggregatedSig == s.trade.sigs.Get(Swap).aggregatedSig;
  }

  /** The only call of a seller that touches the aggregated swap signature. */
  lemma SellersExec(h: Hashes<Message>, w: World, call: Call)
    requires !w.trade.amBuyer
    ensures
      var (w', err) := Exec(h, w, call);
      && !w'.trade.amBuyer
      && (if call.AggregateSwap? && err.None? then
            w'.trade.sigs.swap.aggregatedSig.Some? && w.trade.sigs.swap.peersPartial.Some?
          else w'.trade.sigs.swap.aggregatedSig == w.trade.sigs.swap.aggregatedSig)
  {
    var s0 := Step(w.trade, None);
    match call
    case DrawNonces(secrets) =>
      var op := InitNonce(Drawn(secrets, w.draws));
      ChainKeepsSwapSig(s0, h, BY_KEY, op);
    case SumNonces =>
      ChainKeepsSwapSig(s0, h, BY_TX, AggregateNonces);
    case SignAll =>
      ChainKeepsSwapSig(s0, h, BY_KEY, Sign);
    case AggregateAll => ChainKeepsSwapSig(s0, h, SELLERS, AggregateSigs);
    case _ =>
  }

  lemma {:induction false} ChainKeepsSwapSig(s: Step, h: Hashes<Message>, ids: seq<SigId>, op: SigOp)
    requires Swap !in ids || !op.AggregateSigs?
    ensures Chain(s, h, ids, op).trade.sigs.swap.aggregatedSig == s.trade.sigs.swap.aggregatedSig
    ensures Chain(s, h, ids, op).trade.amBuyer == s.trade.amBuyer
    decreases |ids|
  {
    if ids == [] {
    } else {
      OnOtherKeepsSwapSig(s, h, ids[0], op);
      ChainKeepsSwapSig(s.On(h, ids[0], op), h, ids[1..], op);
    }
  }

  lemma {:induction false} SwapSigFormed(h: Hashes<Message>, w: World, calls: seq<Call>)
    requires !w.trade.amBuyer
    ensures
      var sig := Run(h, w, calls).trade.sigs.swap.aggregatedSig;
      sig.Some? <==> w.trade.sigs.swap.aggregatedSig.Some? || SwapAggregated(h, w, calls)
    decreases |calls|
  {
    if calls == [] {
    } else {
      SellersExec(h, w, calls[0]);
      SwapSigFormed(h, Exec(h, w, calls[0]).0, calls[1..]);
    }
  }

  /** The buyer's share on the swap input, as the last call that set it left it. */
  function LastShare(calls: seq<Call>): Option<Scalar> {
    if calls == [] then None
    else
      match calls[|calls| - 1]
      case SetSwapPartial(s) => Some(s)
      case SetPeerSigs(p) => p.swap
      case _ => LastShare(calls[..|calls| - 1])
  }

  lemma OnKeepsShare(s: Step, h: Hashes<Message>, id: SigId, op: SigOp)
    ensures s.On(h, id, op).trade.sigs.swap.peersPartial == s.trade.sigs.swap.peersPartial
  {
    assert s.On(h, id, op).trade.sigs.Get(Swap).peersPartial == s.trade.sigs.Get(Swap).peersPartial;
  }

  lemma {:induction false} ChainKeepsShare(s: Step, h: Hashes<Message>, ids: seq<SigId>, op: SigOp)
    ensures Chain(s, h, ids, op).trade.sigs.swap.peersPartial == s.trade.sigs.swap.peersPartial
    decreases |ids|
  {
    if ids == [] {
    } else {
      OnKeepsShare(s, h, ids[0], op);
      ChainKeepsShare(s.On(h, ids[0], op), h, ids[1..], op);
    }
  }

  lemma ExecSetsShare(h: Hashes<Message>, w: World, call: Call, before: seq<Call>)
    requires w.trade.sigs.swap.peersPartial == LastShare(before)
    ensures Exec(h, w, call).0.trade.sigs.swap.peersPartial == LastShare(before + [call])
  {
    assert (before + [call])[..|before|] == before;
    var s := Step(w.trade, None);
    match call
    case DrawNonces(secrets) => ChainKeepsShare(s, h, BY_KEY, InitNonce(Drawn(secrets, w.draws)));
    case SumNonces => ChainKeepsShare(s, h, BY_TX, AggregateNonces);
    case SignAll => ChainKeepsShare(s, h, BY_KEY, Sign);
    case AggregateAll => ChainKeepsShare(s, h, if w.trade.amBuyer then BUYERS else SELLERS, AggregateSigs);
    case _ =>
  }

  /** A successful aggregation had a share of the buyer, set by an earlier call. */
  lemma {:induction false} AggregatedHadShare(h: Hashes<Message>, w: World, calls: seq<Call>, before: seq<Call>)
    returns (m: nat)
    requires !w.trade.amBuyer && w.trade.sigs.swap.peersPartial == LastShare(before) && SwapAggregated(h, w, calls)
    ensures m < |calls| && calls[m].AggregateSwap? && LastShare(before + calls[..m]).Some?
    ensures Exec(h, Run(h, w, calls[..m]), calls[m]).1.None?
    decreases |calls|
  {
    SellersExec(h, w, calls[0]);
    if calls[0].AggregateSwap? && Exec(h, w, calls[0]).1.None? {
      m := 0;
      assert before + calls[..0] == before;
    } else {
      ExecSetsShare(h, w, calls[0], before);
      hide Exec, LastShare;
      var k := AggregatedHadShare(h, Exec(h, w, calls[0]).0, calls[1..], before + [calls[0]]);
      m := k + 1;
      assert before + [calls[0]] + calls[1..][..k] == before + calls[..m];
      assert calls[..m][1..] == calls[1..][..k];
    }
  }

  /** In every state a seller can reach, finishing the swap signature stops at the
      missing aggregate exactly when no aggregation of the swap input has succeeded;
      and one succeeds only after the buyer's share on that input was given, in the
      message for it or with the others, and not taken back. */
  lemma SwapReleaseGate(h: Hashes<Message>, calls: seq<Call>)
    ensures
      var w := World(NewTrade(false), 0);
      Run(h, w, calls).trade.ComputeSwapSignature(h) == Err(MissingAggSig) <==> !SwapAggregated(h, w, calls)
    ensures SwapAggregated(h, World(NewTrade(false), 0), calls) ==>
              exists m :: 0 <= m < |calls| && calls[m].AggregateSwap? && LastShare(calls[..m]).Some?
                          && Exec(h, Run(h, World(NewTrade(false), 0), calls[..m]), calls[m]).1.None?
  {
    var w := World(NewTrade(false), 0);
    SwapSigFormed(h, w, calls);
    hide Exec, Run, LastShare;
    if SwapAggregated(h, w, calls) {
      var m := AggregatedHadShare(h, w, calls, []);
      assert [] + calls[..m] == calls[..m];
    }
  }
}
