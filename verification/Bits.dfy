/** Shifts and masks of unsigned numbers, bit by bit. */
module Bits {
  import opened Words

  /** a >> k */
  function Shr(a: nat, k: nat): (r: nat)
    ensures r <= a
  {
    if k == 0 then a else Shr(a / 2, k - 1)
  }

  /** a << k, before truncation */
  function Shl(a: nat, k: nat): nat { if k == 0 then a else 2 * Shl(a, k - 1) }

  /** a & (2^k - 1) */
  function LowBits(a: nat, k: nat): (r: nat)
    ensures r < Pow2(k) && r <= a
  {
    if k == 0 then 0 else a % 2 + 2 * LowBits(a / 2, k - 1)
  }

  lemma {:induction false} SplitBits(a: nat, k: nat)
    ensures a == Shl(Shr(a, k), k) + LowBits(a, k)
  {
    if k > 0 { SplitBits(a / 2, k - 1); ShlTwice(Shr(a / 2, k - 1), k); }
  }

  lemma ShlTwice(a: nat, k: nat)
    requires k > 0
    ensures Shl(a, k) == 2 * Shl(a, k - 1)
  {
  }

  lemma {:induction false} ShrShr(a: nat, i: nat, j: nat)
    ensures Shr(a, i + j) == Shr(Shr(a, i), j)
  {
    if i > 0 { ShrShr(a / 2, i - 1, j); }
  }

  lemma {:induction false} ShlShl(a: nat, i: nat, j: nat)
    ensures Shl(a, i + j) == Shl(Shl(a, j), i)
  {
    if i > 0 { ShlShl(a, i - 1, j); }
  }

  lemma {:induction false} ShlAdd(a: nat, b: nat, k: nat)
    ensures Shl(a + b, k) == Shl(a, k) + Shl(b, k)
  {
    if k > 0 { ShlAdd(a, b, k - 1); }
  }

  lemma {:induction false} ShrZeroLow(a: nat, k: nat)
    ensures Shr(a - LowBits(a, k), k) == Shr(a, k) && LowBits(a - LowBits(a, k), k) == 0
  {
    if k > 0 {
      ShrZeroLow(a / 2, k - 1);
      assert (a - LowBits(a, k)) / 2 == a / 2 - LowBits(a / 2, k - 1);
      assert (a - LowBits(a, k)) % 2 == 0;
    }
  }
}
