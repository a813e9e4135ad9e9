/** Facts about whole-number division the page arithmetic rests on. */
module Division {

  lemma NextMultiple(n: int, k: int)
    ensures (n + 1) * k == n * k + k
    ensures n * k == (n - 1) * k + k
  {}

  lemma MulMonotone(a: nat, b: nat, k: nat)
    requires a <= b
    ensures a * k <= b * k
  {}

  lemma DivideIff(n: nat, k: nat, q: nat)
    requires k > 0
    ensures q * k <= n <==> q <= n / k
  {
    var p := n / k;
    assert n == p * k + n % k;
    if q <= p {
      MulMonotone(q, p, k);
    } else {
      MulMonotone(p + 1, q, k);
      NextMultiple(p, k);
    }
  }

  lemma QuotientUnique(n: nat, k: nat, q: nat, r: nat)
    requires r < k && n == q * k + r
    ensures n / k == q && n % k == r
  {
    DivideIff(n, k, q);
    NextMultiple(q, k);
    DivideIff(n, k, q + 1);
  }

  /** Counting on by one either stays in the same group of `k` or opens the next. */
  lemma QuotientStep(n: nat, k: nat)
    requires k > 0
    ensures n == 0 ==> n / k == 0 && n % k == 0
    ensures n > 0 && (n - 1) % k + 1 < k ==> n / k == (n - 1) / k && n % k == (n - 1) % k + 1
    ensures n > 0 && (n - 1) % k + 1 == k ==> n / k == (n - 1) / k + 1 && n % k == 0
  {
    if n > 0 {
      var q, r := (n - 1) / k, (n - 1) % k;
      assert n - 1 == q * k + r;
      if r + 1 < k {
        QuotientUnique(n, k, q, r + 1);
      } else {
        NextMultiple(q, k);
        QuotientUnique(n, k, q + 1, 0);
      }
    }
  }

  lemma AddOneDivisor(n: nat, k: nat)
    requires k > 0
    ensures (n + k) / k == n / k + 1
  {
    var q, r := n / k, n % k;
    assert n == q * k + r;
    NextMultiple(q, k);
    QuotientUnique(n + k, k, q + 1, r);
  }

  function Pow2(n: nat): nat {
    if n == 0 then 1 else 2 * Pow2(n - 1)
  }

  lemma {:induction false} PowGrows(a: nat, b: nat)
    requires a <= b
    ensures 1 <= Pow2(a) <= Pow2(b)
    decreases b
  {
    if b > 0 {
      if a == b {
        PowGrows(a - 1, b - 1);
      } else {
        PowGrows(a, b - 1);
      }
    }
  }
}
