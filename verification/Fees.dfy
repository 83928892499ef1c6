/** The 2% withdrawal fee in satang, rounded half away from zero. */
module Fees {

  /** shopspring's Round on the quotient num/den. */
  function RoundHalfAway(num: int, den: int): int
    requires den > 0
  {
    if num >= 0 then (2 * num + den) / (2 * den) else -((-2 * num + den) / (2 * den))
  }

  /** The nearest whole number, a half going away from zero. */
  lemma {:induction false} RoundIsNearest(num: int, den: int)
    requires den > 0
    ensures var r := RoundHalfAway(num, den);
            if num >= 0 then -den < 2 * (den * r - num) <= den else -den <= 2 * (den * r - num) < den
  {
    var m := if num >= 0 then 2 * num + den else -2 * num + den;
    assert m == m / (2 * den) * (2 * den) + m % (2 * den);
  }

  /** Two percent of `amount` satang. */
  function Fee(amount: int): int {
    RoundHalfAway(2 * amount, 100)
  }

  function ComputeWithdrawalFee(amount: int, charged: bool): (r: (int, int))
    ensures r.0 + r.1 == amount
    ensures charged <==> r.0 == Fee(amount) && (Fee(amount) != 0 || charged)
  {
    if charged then (Fee(amount), amount - Fee(amount)) else (0, amount)
  }

  /** The fee is the nearest satang, a half going up; the customer always keeps
      a positive net that never falls when more is withdrawn. */
  lemma {:induction false} FeeIsNearest(n: int)
    requires n > 0
    ensures Fee(n) == (n + 25) / 50
    ensures -25 < 50 * Fee(n) - n <= 25
    ensures 0 <= Fee(n) < n
  {}

  lemma {:induction false} NetIsMonotone(m: int, n: int)
    requires 0 < m <= n
    ensures Fee(m) <= Fee(n)
    ensures m - Fee(m) <= n - Fee(n)
  {}

  /** Splitting a withdrawal moves the total fee by at most one satang. */
  lemma {:induction false} SplittingMovesOneSatang(a: int, b: int)
    requires a > 0 && b > 0
    ensures -1 <= Fee(a) + Fee(b) - Fee(a + b) <= 1
  {}
}
