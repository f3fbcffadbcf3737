/** A key that two parties hold one share of each: aggregation in an order both
    agree on, the output script, and the aggregated secret once both shares are known. */
module AggKeys {
  import opened Results
  import opened Scalars
  import opened Musig
  import opened Transactions

  datatype Fault =
    | WrongRound | Unset | SamePoint | ReturnedPoint | WrongKey
    | UnknownUtxo | MissingUtxo | OwnUtxo | AmountOverflow | InsufficientFunds
    | DifferentTx | MissingWitness | NotBroadcast | NoSwapScript | NoOutput | NoPrevout
    | NotSeller | NoSwapTx | NoKeySpend | NotAdapted | NotRevealed | Crypto(error: SigError)

  datatype AggKey = AggKey(
    sec: SecKey,
    otherPoint: Option<Point>,
    otherSec: Option<Scalar>,
    aggSec: Option<Scalar>,
    agg: Option<KeyAggCtx>
  ) {
    function PubPoint(): Point {
      BaseMul(sec)
    }

    /** Both parties put the smaller point first. */
    predicate MineFirst(env: Encoding, theirs: Point) {
      env.pointRank(PubPoint()) < env.pointRank(theirs)
    }

    function AggregateKey(env: Encoding, theirs: Point): Result<AggKey, Fault> {
      if theirs == PubPoint() then Err(ReturnedPoint)
      else
        var keys := if MineFirst(env, theirs) then (PubPoint(), theirs) else (theirs, PubPoint());
        var untweaked := NewKeyAgg(env.h, keys.0, keys.1);
        if untweaked.Err? then Err(Crypto(untweaked.error))
        else
          var tweaked := TapTweaked(env.h, untweaked.value);
          if tweaked.Err? then Err(Crypto(tweaked.error))
          else Ok(this.(agg := Some(tweaked.value), otherPoint := Some(theirs)))
    }

    function AggScript(env: Encoding): Option<Script> {
      if agg.None? then None else Some(env.KeyScript(Untweaked(agg.value)))
    }

    /** The other share becomes known: the secret of the aggregate, in the order of the points. */
    function WithOtherSecret(env: Encoding, secret: Scalar): (AggKey, Option<Fault>) {
      if otherPoint.None? || agg.None? then (this.(otherSec := Some(secret)), Some(Unset))
      else
        var keys := if MineFirst(env, otherPoint.value) then (sec as Scalar, secret) else (secret, sec as Scalar);
        var d := AggSecKey(agg.value, keys.0, keys.1);
        if d.Err? then (this.(otherSec := Some(secret)), Some(Crypto(d.error)))
        else (this.(otherSec := Some(secret), aggSec := Some(d.value)), None)
    }
  }

  function FreshKey(sec: SecKey): AggKey {
    AggKey(sec, None, None, None, None)
  }

  /** Different points compare as different. */
  ghost predicate Comparable(env: Encoding, p: Point, q: Point) {
    env.pointRank(p) == env.pointRank(q) ==> p == q
  }

  /** Both parties compute the same aggregate, or the same failure. */
  lemma AggregateAgrees(env: Encoding, mine: AggKey, theirs: AggKey)
    requires Comparable(env, mine.PubPoint(), theirs.PubPoint())
    ensures
      var a, b := mine.AggregateKey(env, theirs.PubPoint()), theirs.AggregateKey(env, mine.PubPoint());
      && (a.Ok? <==> b.Ok?)
      && (a.Ok? ==> a.value.agg == b.value.agg)
      && (a.Err? ==> a.error == b.error)
  {
    hide NewKeyAgg, TapTweaked;
  }

  /** The two points are aggregated in ascending order, and only as long as they differ. */
  lemma SmallerFirst(env: Encoding, key: AggKey, theirs: Point)
    requires Comparable(env, key.PubPoint(), theirs)
    ensures
      var k := key.AggregateKey(env, theirs);
      && (theirs == key.PubPoint() ==> k.Err?)
      && (k.Ok? ==>
            && k.value.agg.Some? && k.value.otherPoint == Some(theirs) && k.value.sec == key.sec
            && env.pointRank(k.value.agg.value.pk1) < env.pointRank(k.value.agg.value.pk2)
            && {k.value.agg.value.pk1, k.value.agg.value.pk2} == {BaseMul(key.sec), theirs})
  {
    hide TapTweaked;
    var keys := if key.MineFirst(env, theirs) then (key.PubPoint(), theirs) else (theirs, key.PubPoint());
    var untweaked := NewKeyAgg(env.h, keys.0, keys.1);
    if untweaked.Ok? && TapTweaked(env.h, untweaked.value).Ok? {
      TweakKeepsKeys(env.h, untweaked.value);
    }
  }

  /** An aggregated secret is stored only if it is the one behind the aggregated
      point, whatever secret is offered. */
  lemma OnlyFittingSecret(env: Encoding, key: AggKey, secret: Scalar)
    ensures
      var (k, fault) := key.WithOtherSecret(env, secret);
      && k.otherSec == Some(secret) && k.sec == key.sec && k.agg == key.agg && k.otherPoint == key.otherPoint
      && (fault.None? ==> k.agg.Some? && k.aggSec.Some? && BaseMul(k.aggSec.value) == k.agg.value.pubkey)
      && (fault.Some? ==> k.aggSec == key.aggSec)
  {
  }

  /** The output script commits to exactly the point that the aggregate signs for. */
  lemma ScriptLocksAggregate(env: Encoding, key: AggKey, theirs: Point)
    requires key.AggregateKey(env, theirs).Ok?
    ensures
      var k := key.AggregateKey(env, theirs).value;
      && Consistent(k.agg.value)
      && k.AggScript(env) == Some(P2tr(env.h.Even(k.agg.value.pubkey)))
  {
    var keys := if key.MineFirst(env, theirs) then (key.PubPoint(), theirs) else (theirs, key.PubPoint());
    var untweaked := NewKeyAgg(env.h, keys.0, keys.1).value;
    TweakKeepsKeys(env.h, untweaked);
    var k := key.AggregateKey(env, theirs).value;
    assert Untweaked(untweaked) == untweaked.pubkey;
  }

  /** With the other's secret the aggregated secret is the logarithm of the
      aggregated point, whichever of the two points is smaller. */
  lemma SecretOfAggregate(env: Encoding, key: AggKey, secret: SecKey)
    requires key.AggregateKey(env, BaseMul(secret)).Ok?
    ensures
      var k := key.AggregateKey(env, BaseMul(secret)).value;
      var (revealed, fault) := k.WithOtherSecret(env, secret);
      && fault == None
      && revealed == k.(otherSec := Some(secret), aggSec := Some(k.agg.value.pubkey.log))
      && BaseMul(revealed.aggSec.value) == k.agg.value.pubkey
  {
    hide TapTweaked, NewKeyAgg, AggSecKey;
    var k := key.AggregateKey(env, BaseMul(secret)).value;
    if key.MineFirst(env, BaseMul(secret)) {
      KeysOfAggregate(env.h, key.sec, secret);
      AggregatedLog(k.agg.value, key.sec, secret);
    } else {
      KeysOfAggregate(env.h, secret, key.sec);
      AggregatedLog(k.agg.value, secret, key.sec);
    }
  }
}
