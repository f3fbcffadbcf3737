/** How a redirect transaction splits the funds of a warning transaction: each
    share is a product of two single-precision numbers, truncated. A binary32
    value is held as an integer with at most 24 significant bits, times a fixed
    power of two. */
module Redirects {

  const P24: nat := 0x100_0000
  const P25: nat := 0x200_0000
  const P31: nat := 0x8000_0000
  const P32: nat := 0x1_0000_0000

  const ANCHOR: nat := 330
  const FEE: nat := 1000

  // 0.6 and 0.4 as binary32: SIXTY / 2^24 and FORTY / 2^25. Their sum is 1 + 2^-25.
  const SIXTY: nat := 10066330
  const FORTY: nat := 13421773

  /** The distance of neighbouring 24-bit floating point numbers at n. */
  function Quantum(n: nat): (u: nat)
    ensures u > 0
  {
    if n < P24 then 1 else 2 * Quantum(n / 2)
  }

  /** How many times u is nearest to n, an even number on ties. */
  function Nearest(n: nat, u: nat): nat
    requires u > 0
  {
    var q, r := n / u, n % u;
    if 2 * r < u || (2 * r == u && q % 2 == 0) then q else q + 1
  }

  function Rounded(n: nat): nat {
    Nearest(n, Quantum(n)) * Quantum(n)
  }

  /** The part of amount that goes to the receiver of SIXTY or of FORTY. */
  function Share60(amount: nat): nat {
    Rounded(Rounded(amount) * SIXTY) / P24
  }

  function Share40(amount: nat): nat {
    Rounded(Rounded(amount) * FORTY) / P25
  }

  function Shares(amount: nat): nat {
    Share60(amount) + Share40(amount)
  }

  /** What a redirect transaction leaves to the miners out of funds. */
  function RedirectFee(funds: nat): int
    requires funds >= FEE
  {
    funds - Shares(funds - FEE) - ANCHOR
  }

  // ------------------------------------------------------------ rounding

  lemma {:induction false} QuantumScale(n: nat)
    requires n >= P24
    ensures P24 / 2 * Quantum(n) <= n < P24 * Quantum(n)
  {
    if n < 2 * P24 {
      assert Quantum(n / 2) == 1;
    } else {
      QuantumScale(n / 2);
    }
  }

  lemma NearestNear(n: nat, u: nat)
    requires u > 0
    ensures 2 * n - u <= 2 * (Nearest(n, u) * u) <= 2 * n + u
  {
    var q, r := n / u, n % u;
    assert n == q * u + r;
    assert (q + 1) * u == q * u + u;
  }

  /** Rounding moves n by at most one part in 2^24. */
  lemma RoundedNear(n: nat)
    ensures P24 * (Rounded(n) - n) <= n
    ensures P24 * (n - Rounded(n)) <= n
  {
    var u := Quantum(n);
    NearestNear(n, u);
    if n >= P24 {
      QuantumScale(n);
    }
  }

  function Pow2(k: nat): nat {
    if k == 0 then 1 else 2 * Pow2(k - 1)
  }

  lemma {:induction false} QuantumIs(n: nat, k: nat)
    requires P24 / 2 * Pow2(k) <= n < P24 * Pow2(k)
    ensures Quantum(n) == Pow2(k)
  {
    if k == 0 {
    } else {
      QuantumIs(n / 2, k - 1);
    }
  }

  /** The fee of a redirect is within 321 satoshis of the nominal 670 when the
      amount is at most 2^31. */
  lemma FeeNearNominal(funds: nat)
    requires FEE <= funds <= FEE + P31
    ensures 349 <= RedirectFee(funds) <= 865
  {
    var a := funds - FEE;
    var r := Rounded(a);
    RoundedNear(a);
    RoundedNear(r * SIXTY);
    RoundedNear(r * FORTY);
  }

  // The largest amount up to which the outputs never exceed the funds: 71.58 bitcoins.
  const LARGEST_SAFE: nat := 7_158_280_448

  lemma Powers()
    ensures Pow2(9) == 512 && Pow2(32) == P32 && Pow2(33) == 2 * P32
  {
    assert Pow2(8) == 256 && Pow2(16) == 0x1_0000 && Pow2(24) == P24 && Pow2(32) == P32;
  }

  /** Above 2^32 an amount is rounded to a multiple of 512, and its share of 0.4
      to a multiple of 128 or, from 2^31 on, of 256. */
  lemma LargeAmount(amount: nat) returns (k: nat)
    requires P32 <= amount <= LARGEST_SAFE
    ensures Rounded(amount) == 512 * k && P32 <= 512 * k <= LARGEST_SAFE - 256
    ensures 512 * k <= amount + 256
  {
    Powers();
    QuantumIs(amount, 9);
    k := Nearest(amount, 512);
  }

  lemma LargeShare40(k: nat) returns (coarse: bool, units: nat)
    requires P32 <= 512 * k <= LARGEST_SAFE
    ensures
      var share := Rounded(512 * k * FORTY) / P25;
      if coarse then share == 256 * units && P25 * share <= 512 * k * FORTY + P32
      else share == 128 * units && P25 * share <= 512 * k * FORTY + P31
  {
    Powers();
    var n := 512 * k * FORTY;
    coarse := n >= P24 * P32;
    if coarse {
      QuantumIs(n, 33);
      NearestNear(n, 2 * P32);
      units := Nearest(n, 2 * P32);
    } else {
      QuantumIs(n, 32);
      NearestNear(n, P32);
      units := Nearest(n, P32);
    }
  }

  lemma LargeShare60(k: nat) returns (units: nat)
    requires P32 <= 512 * k && 512 * k * SIXTY < P24 * P32
    ensures Rounded(512 * k * SIXTY) / P24 == 256 * units
    ensures P25 * (256 * units) <= 2 * (512 * k * SIXTY) + P32
  {
    Powers();
    var n := 512 * k * SIXTY;
    QuantumIs(n, 32);
    NearestNear(n, P32);
    units := Nearest(n, P32);
  }

  /** The last four rounded amounts, where the share of 0.6 has passed 2^32. */
  lemma LastAmounts(k: nat)
    requires P24 * P32 <= 512 * k * SIXTY && 512 * k <= LARGEST_SAFE - 256
    ensures Rounded(512 * k * SIXTY) / P24 + Rounded(512 * k * FORTY) / P25 <= 512 * k + 414
  {
    Powers();
    QuantumIs(512 * k * SIXTY, 33);
    QuantumIs(512 * k * FORTY, 33);
    assert 13981013 <= k <= 13981016;
  }

  /** Two shares that are multiples of 256 exceed the rounded amount by at most 256. */
  lemma CoarseSum(k: nat, units60: nat, units40: nat)
    requires 512 * k <= LARGEST_SAFE
    requires P25 * (256 * units60) <= 2 * (512 * k * SIXTY) + P32
    requires P25 * (256 * units40) <= 512 * k * FORTY + P32
    ensures 256 * units60 + 256 * units40 <= 512 * k + 256
  {
    assert 2 * SIXTY + FORTY == P25 + 1;
    assert P25 * (256 * (units60 + units40)) <= P25 * (512 * k + 470);
    assert units60 + units40 < 2 * k + 2;
  }

  lemma FineSum(amount: nat, share60: nat, share40: nat)
    requires amount <= LARGEST_SAFE
    requires P25 * share60 <= 2 * (amount * SIXTY) + P32
    requires P25 * share40 <= amount * FORTY + P31
    ensures share60 + share40 <= amount + 414
  {
    assert 2 * SIXTY + FORTY == P25 + 1;
  }

  /** Up to the bound the shares and the anchor are paid for by the funds. */
  lemma SharesFit(amount: nat)
    requires amount <= LARGEST_SAFE
    ensures Shares(amount) + ANCHOR <= amount + FEE
  {
    hide Quantum;
    if amount <= P32 {
      var r := Rounded(amount);
      RoundedNear(amount);
      RoundedNear(r * SIXTY);
      RoundedNear(r * FORTY);
    } else {
      var k := LargeAmount(amount);
      if 512 * k * SIXTY < P24 * P32 {
        var units60 := LargeShare60(k);
        var coarse, units40 := LargeShare40(k);
        if coarse {
          CoarseSum(k, units60, units40);
        } else {
          FineSum(512 * k, 256 * units60, 128 * units40);
        }
      } else {
        LastAmounts(k);
      }
    }
  }

  /** One satoshi more, and the outputs exceed the input. */
  lemma SharesCanExceed()
    ensures Shares(LARGEST_SAFE + 1) + ANCHOR == LARGEST_SAFE + 1 + FEE + 97
  {
    Powers();
    var a, r := LARGEST_SAFE + 1, 7_158_280_704;
    QuantumIs(a, 9);
    assert Rounded(a) == r;
    QuantumIs(r * SIXTY, 33);
    assert Share60(a) == 4_294_968_832;
    QuantumIs(r * FORTY, 33);
  }

  /** The exact bound: the shares can be paid for all amounts up to some bound
      exactly when it is not above this one. */
  lemma LargestSafe(bound: nat)
    ensures (forall a: nat :: a <= bound ==> Shares(a) + ANCHOR <= a + FEE) <==> bound <= LARGEST_SAFE
  {
    SharesCanExceed();
    hide Shares;
    if bound <= LARGEST_SAFE {
      forall a: nat | a <= bound ensures Shares(a) + ANCHOR <= a + FEE {
        SharesFit(a);
      }
    } else {
      assert Shares(LARGEST_SAFE + 1) + ANCHOR > LARGEST_SAFE + 1 + FEE;
    }
  }

  /** x is y to within three parts in 2^24, and less than an absolute margin. */
  ghost predicate Near(x: nat, y: nat, margin: nat) {
    16_777_216 * x <= 16_777_219 * y && 16_777_213 * y < 16_777_216 * (x + margin)
  }

  /** Each receiver gets its own part of the amount. */
  lemma SharesNear(amount: nat)
    requires amount < 0x1_0000_0000_0000_0000
    ensures Near(10 * Share60(amount), 6 * amount, 10) && Near(10 * Share40(amount), 4 * amount, 10)
    ensures Share60(amount) < 0x1_0000_0000_0000_0000 && Share40(amount) < 0x1_0000_0000_0000_0000
  {
    var r := Rounded(amount);
    RoundedNear(amount);
    RoundedNear(r * SIXTY);
    RoundedNear(r * FORTY);
    hide Rounded;
  }

  /** Rounding to 24 significant bits: the result is a multiple of the last bit's
      weight, no other multiple is nearer, and of two equally near it is the even one. */
  lemma RoundedExactly(n: nat) returns (u: nat, k: nat)
    ensures u == 1 || (0x80_0000 * u <= n < 0x100_0000 * u)
    ensures n < 0x100_0000 ==> u == 1
    ensures Rounded(n) == k * u
    ensures 2 * n - u <= 2 * (k * u) <= 2 * n + u
    ensures (2 * n == 2 * (k * u) + u || 2 * n == 2 * (k * u) - u) && u > 1 ==> k % 2 == 0
  {
    u, k := Quantum(n), Nearest(n, Quantum(n));
    if n >= P24 {
      QuantumScale(n);
    }
    NearestNear(n, u);
    if u > 1 {
      NearestEven(n, u);
    }
  }

  lemma NearestEven(n: nat, u: nat)
    requires u > 1
    ensures
      var k := Nearest(n, u);
      2 * n == 2 * (k * u) + u || 2 * n == 2 * (k * u) - u ==> k % 2 == 0
  {
    var q, r := n / u, n % u;
    assert n == q * u + r;
    assert (q + 1) * u == q * u + u;
  }
}
