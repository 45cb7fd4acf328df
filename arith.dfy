/** Facts about natural-number multiplication and floor division that both
    ledgers' payout formulas rely on, and the notion of a run of claim
    instants in time order. */
module Arith {

  /** Products of naturals are monotone in both factors. */
  lemma MulMono(a: nat, b: nat, c: nat, d: nat)
    requires a <= b && c <= d
    ensures a * c <= b * d
  {
  }

  /** Floor division by a positive divisor is monotone. */
  lemma DivMono(x: nat, y: nat, k: nat)
    requires x <= y && 0 < k
    ensures x / k <= y / k
  {
    if x / k > y / k {
      MulMono(y / k + 1, x / k, k, k);
    }
  }

  /** The quotient is the only `q` with `n == q * d + r` and `r < d`. */
  lemma DivUnique(n: nat, d: nat, q: nat, r: nat)
    requires r < d && n == q * d + r
    ensures n / d == q
  {
    var q' := n / d;
    if q' > q {
      MulMono(q + 1, q', d, d);
    } else if q' < q {
      MulMono(q' + 1, q, d, d);
    }
  }

  /** A common positive factor cancels under floor division. */
  lemma DivCancel(x: nat, y: nat, k: nat)
    requires 0 < y && 0 < k
    ensures (x * k) / (y * k) == x / y
  {
    var q, r := x / y, x % y;
    assert x * k == q * (y * k) + r * k;
    MulMono(r + 1, y, k, k);
    DivUnique(x * k, y * k, q, r * k);
  }

  /** `times` is a chronological list of instants, none before `from`. */
  ghost predicate Chronological(from: nat, times: seq<nat>)
  {
    forall i, j :: 0 <= i <= j < |times| ==> from <= times[i] <= times[j]
  }
}
