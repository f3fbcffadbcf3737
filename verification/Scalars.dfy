/** The scalars and the points of a cyclic group of odd order N, with points
    held by their discrete logarithm. Addition and negation are written without
    a remainder; multiplication is the k-fold sum, as in scalar multiplication
    of a curve point. */
module Scalars {

  type Order = n: int | 2 < n && n % 2 == 1 witness 3

  // The group order. It is left uninterpreted: what is proved holds for every odd order.
  const N: Order

  type Scalar = x: int | 0 <= x < N witness 0

  type SecKey = x: int | 0 < x < N witness 1

  function Add(a: Scalar, b: Scalar): Scalar {
    if a + b < N then a + b else a + b - N
  }

  function Neg(a: Scalar): Scalar {
    if a == 0 then 0 else N - a
  }

  function Sub(a: Scalar, b: Scalar): Scalar {
    Add(a, Neg(b))
  }

  /** The k-fold sum of a. */
  function Mul(k: nat, a: Scalar): Scalar {
    if k == 0 then 0 else Add(a, Mul(k - 1, a))
  }

  function NegIf(flip: bool, a: Scalar): Scalar {
    if flip then Neg(a) else a
  }

  lemma AddAssoc(a: Scalar, b: Scalar, c: Scalar)
    ensures Add(Add(a, b), c) == Add(a, Add(b, c))
  {
  }

  lemma NegSum(a: Scalar, b: Scalar)
    ensures Neg(Add(a, b)) == Add(Neg(a), Neg(b))
  {
  }

  lemma Exchange(a: Scalar, b: Scalar, c: Scalar, d: Scalar)
    ensures Add(Add(a, b), Add(c, d)) == Add(Add(a, c), Add(b, d))
  {
    AddAssoc(a, b, Add(c, d));
    AddAssoc(b, c, d);
    AddAssoc(c, b, d);
    AddAssoc(a, c, Add(b, d));
  }

  lemma CancelCommon(a: Scalar, b: Scalar, t: Scalar)
    ensures Add(Add(a, t), Neg(Add(b, t))) == Add(a, Neg(b))
  {
    NegSum(b, t);
    Exchange(a, t, Neg(b), Neg(t));
  }

  /** The k-fold sum is the residue of the product k * a: they differ by q * N. */
  lemma {:induction false} MulIsResidue(k: nat, a: Scalar) returns (q: int)
    ensures k * a == q * N + Mul(k, a)
  {
    if k == 0 {
      q := 0;
    } else {
      q := MulIsResidue(k - 1, a);
      assert k * a == (k - 1) * a + a && (q + 1) * N == q * N + N;
      if a + Mul(k - 1, a) >= N {
        q := q + 1;
      }
    }
  }

  lemma {:induction false} MulAdd(k: nat, a: Scalar, b: Scalar)
    ensures Mul(k, Add(a, b)) == Add(Mul(k, a), Mul(k, b))
  {
    if k == 0 {
    } else {
      MulAdd(k - 1, a, b);
    }
  }

  lemma {:induction false} MulZero(k: nat)
    ensures Mul(k, 0) == 0
  {
    if k == 0 {
    } else {
      MulZero(k - 1);
    }
  }

  lemma MulNeg(k: nat, a: Scalar)
    ensures Mul(k, Neg(a)) == Neg(Mul(k, a))
  {
    MulAdd(k, a, Neg(a));
    MulZero(k);
  }

  lemma {:induction false} MulSum(k: nat, l: nat, a: Scalar)
    ensures Mul(k + l, a) == Add(Mul(k, a), Mul(l, a))
  {
    if k == 0 {
    } else {
      MulSum(k - 1, l, a);
      assert Mul(k + l, a) == Add(a, Mul(k - 1 + l, a));
    }
  }

  lemma {:induction false} MulOne(k: nat)
    requires k < N
    ensures Mul(k, 1) == k
  {
    if k == 0 {
    } else {
      MulOne(k - 1);
    }
  }

  lemma {:induction false} MulOrder(a: Scalar)
    ensures Mul(N, a) == 0
  {
    if a == 0 {
      MulZero(N);
    } else {
      MulOrder(a - 1);
      MulAdd(N, 1, a - 1);
      MulOne(N - 1);
      assert Mul(N, 1) == Add(1, Mul(N - 1, 1));
    }
  }

  lemma MulLeftAdd(k: Scalar, l: Scalar, a: Scalar)
    ensures Mul(Add(k, l), a) == Add(Mul(k, a), Mul(l, a))
  {
    MulSum(k, l, a);
    if k + l >= N {
      MulSum(N, k + l - N, a);
      MulOrder(a);
    }
  }

  lemma {:induction false} MulAssoc(k: nat, l: Scalar, a: Scalar)
    ensures Mul(Mul(k, l), a) == Mul(k, Mul(l, a))
  {
    if k == 0 {
    } else {
      MulAssoc(k - 1, l, a);
      MulLeftAdd(l, Mul(k - 1, l), a);
    }
  }

  // ---------------------------------------------------------------- points

  /** A group element, or infinity when its logarithm is zero. */
  datatype Point = Point(log: Scalar)

  const Infinity: Point := Point(0)
  const Generator: Point := Point(1)

  function PAdd(p: Point, q: Point): Point {
    Point(Add(p.log, q.log))
  }

  function PNeg(p: Point): Point {
    Point(Neg(p.log))
  }

  function PMul(k: nat, p: Point): Point {
    Point(Mul(k, p.log))
  }

  function BaseMul(k: Scalar): Point {
    Point(k)
  }

  function PNegIf(flip: bool, p: Point): Point {
    if flip then PNeg(p) else p
  }

  lemma BaseMulIsScalarMul(k: Scalar)
    ensures BaseMul(k) == PMul(k, Generator)
  {
    MulOne(k);
  }
}
