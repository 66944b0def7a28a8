/** Facts about products and remainders with a divisor that is not a constant. */
module Arithmetic {
  lemma {:induction false} NonNegative(k: nat, m: nat)
    ensures k * m >= 0
  {
  }

  lemma {:induction false} Negated(k: nat, m: int)
    ensures k * (-m) == -(k * m)
  {
  }

  lemma {:induction false} Distribute(k: int, a: int, b: int)
    ensures k * (a - b) == k * a - k * b
    ensures k * (a + b) == k * a + k * b
  {
  }

  lemma {:induction false} DivMod(a: nat, k: nat)
    requires k > 0
    ensures a == k * (a / k) + a % k && 0 <= a % k < k
  {
  }

  lemma {:induction false} AtLeastOne(k: nat, m: nat)
    requires m > 0
    ensures k * m >= k
  {
    NonNegative(k, m - 1);
    assert k * m == k + k * (m - 1);
  }

  lemma {:induction false} NoMultipleBelow(k: nat, m: int, r: nat)
    requires k > 0 && k * m == r && r < k
    ensures m == 0
  {
    if m > 0 {
      AtLeastOne(k, m);
    } else if m < 0 {
      AtLeastOne(k, -m);
      Negated(k, m);
    }
  }

  /** Division with remainder is unique. */
  lemma {:induction false} Quotient(a: nat, k: nat, q: int, r: nat)
    requires k > 0 && a == k * q + r && r < k
    ensures a / k == q && a % k == r
  {
    DivMod(a, k);
    Distribute(k, a / k, q);
    if a % k <= r {
      NoMultipleBelow(k, a / k - q, r - a % k);
    } else {
      Negated(k, a / k - q);
      NoMultipleBelow(k, q - a / k, a % k - r);
    }
  }

  lemma {:induction false} MultipleOf(k: nat, n: nat)
    requires k > 0
    ensures (k * n) % k == 0 && (k * n) / k == n
  {
    NonNegative(k, n);
    Quotient(k * n, k, n, 0);
  }
}
