/** Powers of two, and logarithms rounded down. */
module Logs {

  ghost function Pow2(n: nat): (r: nat)
    ensures r > n
  {
    if n == 0 then 1 else 2 * Pow2(n - 1)
  }

  lemma {:induction false} Pow2Monotone(a: nat, b: nat)
    requires a <= b
    ensures Pow2(a) <= Pow2(b)
  {
    if a < b {
      Pow2Monotone(a, b - 1);
    }
  }

  lemma {:induction false} Pow2Twice(n: nat)
    ensures Pow2(2 * n) == Pow2(n) * Pow2(n)
  {
    if n > 0 {
      Pow2Twice(n - 1);
      var x := Pow2(n - 1);
      assert Pow2(2 * n) == 2 * (2 * (x * x)) == (2 * x) * (2 * x);
    }
  }

  lemma Squares(a: nat, b: nat)
    requires a <= b
    ensures a * a <= b * b
  {
    assert a * a <= a * b <= b * b;
  }

  // The logarithm of n to base two, rounded down.
  ghost function Rank(n: nat): nat {
    if n <= 1 then 0 else 1 + Rank(n / 2)
  }

  lemma {:induction false} RankIsLog(n: nat)
    requires n >= 1
    ensures Pow2(Rank(n)) <= n < 2 * Pow2(Rank(n))
  {
    if n > 1 {
      RankIsLog(n / 2);
    }
  }

  lemma {:induction false} RankMonotone(a: nat, b: nat)
    requires a <= b
    ensures Rank(a) <= Rank(b)
  {
    if a > 1 {
      RankMonotone(a / 2, b / 2);
    }
  }

  // Two parts of a whole do not both have its rank.
  lemma RankParts(a: nat, b: nat, c: nat)
    requires a >= 1 && b >= 1 && a + b <= c
    ensures Rank(a) + Rank(b) + 1 <= 2 * Rank(c)
  {
    RankMonotone(a, c);
    RankMonotone(b, c);
    if a <= b {
      RankMonotone(a, c / 2);
    } else {
      RankMonotone(b, c / 2);
    }
  }
}
