/** Bitwise and of natural numbers, and the masks below powers of two. */
module BitMask {

  /** x & y */
  function And(x: nat, y: nat): (r: nat)
    ensures r <= x && r <= y
  {
    if x == 0 || y == 0 then 0 else 2 * And(x / 2, y / 2) + if x % 2 == 1 && y % 2 == 1 then 1 else 0
  }

  /** is_power_of_2 */
  predicate PowerOfTwo(n: nat) { n != 0 && And(n, n - 1) == 0 }

  function Pow2(k: nat): (p: nat)
    ensures p >= 1
  {
    if k == 0 then 1 else 2 * Pow2(k - 1)
  }

  lemma {:induction false} AndSelf(x: nat)
    ensures And(x, x) == x
  {
    if x > 0 {
      AndSelf(x / 2);
    }
  }

  /** The test accepts powers of two. */
  lemma {:induction false} PowersPass(k: nat)
    ensures PowerOfTwo(Pow2(k))
  {
    if k > 0 {
      PowersPass(k - 1);
      assert (Pow2(k) - 1) / 2 == Pow2(k - 1) - 1;
    }
  }

  /** And nothing else. */
  lemma {:induction false} OnlyPowersPass(n: nat) returns (k: nat)
    requires PowerOfTwo(n)
    ensures n == Pow2(k)
  {
    if n % 2 == 1 {
      AndSelf(n / 2);
      assert (n - 1) / 2 == n / 2;
      k := 0;
    } else {
      assert (n - 1) / 2 == n / 2 - 1;
      k := OnlyPowersPass(n / 2);
      k := k + 1;
    }
  }

  /** x >> k */
  function Shifted(x: nat, k: nat): nat { if k == 0 then x else Shifted(x / 2, k - 1) }

  /** x is q times d, and a remainder r. */
  ghost predicate Divides(x: nat, q: nat, d: nat, r: nat) {
    var holds := x == q * d + r && r < d;
    holds
  }

  ghost predicate Splits(x: nat, k: nat, p: nat) {
    p >= 1 && Divides(x, Shifted(x, k), p, And(x, p - 1))
  }

  /** A number is its high bits and its low bits. */
  lemma {:induction false} LowBits(x: nat, k: nat)
    ensures Splits(x, k, Pow2(k))
  {
    if k > 0 {
      LowBits(x / 2, k - 1);
      LowBit(x, k, Pow2(k - 1));
    }
  }

  lemma LowBit(x: nat, k: nat, p: nat)
    requires k > 0 && Splits(x / 2, k - 1, p)
    ensures Splits(x, k, 2 * p)
  {
    assert (2 * p - 1) / 2 == p - 1 && (2 * p - 1) % 2 == 1;
    assert And(x, 2 * p - 1) == 2 * And(x / 2, p - 1) + x % 2;
    Doubled(x, Shifted(x, k), p, And(x / 2, p - 1));
  }

  lemma Doubled(x: nat, s: nat, p: nat, a: nat)
    requires Divides(x / 2, s, p, a)
    ensures Divides(x, s, 2 * p, 2 * a + x % 2)
  {
    assert s * (2 * p) == 2 * (s * p);
  }

  lemma Multiple(m: int, d: nat)
    ensures m >= 1 ==> m * d >= d
    ensures m <= -1 ==> m * d <= 0 - d
  {
    if m >= 1 {
      assert (m - 1) * d >= 0;
    } else if m <= -1 {
      assert (-1 - m) * d >= 0;
    }
  }

  lemma Remainder(x: nat, d: nat, q: nat, r: nat)
    requires Divides(x, q, d, r)
    ensures x % d == r
  {
    var q1, r1 := x / d, x % d;
    assert (q - q1) * d == q * d - q1 * d == r1 - r;
    Multiple(q - q1, d);
  }

  lemma Quotient(x: int, d: nat, q: nat)
    requires d > 0 && x == q * d
    ensures x >= 0 && x / d == q
  {
    var q1 := x / d;
    assert (q - q1) * d == q * d - q1 * d == x % d;
    Multiple(q - q1, d);
  }

  /** Masking with n - 1 takes the remainder by n, for every number, exactly when n is a power of two. */
  lemma MaskIsRemainder(n: nat)
    requires n > 0
    ensures PowerOfTwo(n) <==> forall x: nat :: And(x, n - 1) == x % n
  {
    if PowerOfTwo(n) {
      var k := OnlyPowersPass(n);
      forall x: nat ensures And(x, n - 1) == x % n {
        LowBits(x, k);
        Remainder(x, n, Shifted(x, k), And(x, n - 1));
      }
    }
    if forall x: nat :: And(x, n - 1) == x % n {
      assert And(n, n - 1) == n % n;
    }
  }
}
