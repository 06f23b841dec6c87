/** Products, which are best kept out of larger proofs. */
module Arithmetic {

  lemma {:induction false} ProductMonotone(a: nat, b: nat, d: nat)
    ensures a >= b ==> a * d >= b * d
    ensures a > b ==> a * d >= b * d + d
  {
    if a > b {
      ProductMonotone(a - 1, b, d);
      OneMore(a - 1, d);
    }
  }

  lemma OneMore(n: nat, d: int)
    ensures (n + 1) * d == n * d + d
  {
  }
}
