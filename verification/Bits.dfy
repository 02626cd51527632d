/** Powers of two and the C bit operators on integers.

    The daemon shifts, masks and combines words with `<<`, `>>`, `&`, `|` and
    `~`. Here those operators are defined bit by bit, without multiplication by
    unknowns, and the lemmas say what they mean for the masks the daemon uses,
    which are all of the form 2^k - 1. Negative integers stand for their two's
    complement bits, of which there are as many ones as needed on the left.
 */
module Bits {

  function Pow2(n: nat): (r: nat)
    ensures r >= 1
  {
    if n == 0 then 1 else 2 * Pow2(n - 1)
  }

  /** `x << k` without overflow. */
  function Shl(x: int, k: nat): int
  {
    if k == 0 then x else 2 * Shl(x, k - 1)
  }

  /** `x >> k`, rounding down. */
  function Shr(x: int, k: nat): int
    decreases k
  {
    if k == 0 then x else Shr(x / 2, k - 1)
  }

  /** The low k bits of `x`. */
  function Low(x: int, k: nat): (r: nat)
    ensures r < Pow2(k)
    decreases k
  {
    if k == 0 then 0 else 2 * Low(x / 2, k - 1) + x % 2
  }

  /** The low k bits of `x` are clear: `x` is a multiple of 2^k. */
  predicate Aligned(x: int, k: nat)
  {
    Low(x, k) == 0
  }

  /** `x & ~m` */
  function AndNot(x: nat, m: nat): nat
  {
    if x == 0 then 0
    else 2 * AndNot(x / 2, m / 2) + (if x % 2 == 1 && m % 2 == 0 then 1 else 0)
  }

  /** `x & m` */
  function And(x: nat, m: nat): nat
  {
    if x == 0 then 0
    else 2 * And(x / 2, m / 2) + (if x % 2 == 1 && m % 2 == 1 then 1 else 0)
  }

  /** `x | y` */
  function Or(x: nat, y: nat): nat
    decreases x + y
  {
    if x == 0 && y == 0 then 0
    else 2 * Or(x / 2, y / 2) + (if x % 2 == 1 || y % 2 == 1 then 1 else 0)
  }

  /** `x ^ y` */
  function Xor(x: nat, y: nat): nat
    decreases x + y
  {
    if x == 0 && y == 0 then 0
    else 2 * Xor(x / 2, y / 2) + (if x % 2 != y % 2 then 1 else 0)
  }

  // ----- shifts

  lemma {:induction false} Pow2Monotone(a: nat, b: nat)
    requires a <= b
    ensures Pow2(a) <= Pow2(b)
  {
    if a < b {
      Pow2Monotone(a, b - 1);
    }
  }

  lemma Pow2Injective(a: nat, b: nat)
    requires Pow2(a) <= Pow2(b)
    ensures a <= b
  {
    if b < a {
      Pow2Monotone(b + 1, a);
    }
  }

  /** A word is its high bits shifted back plus its low bits. */
  lemma {:induction false} Recompose(x: int, k: nat)
    ensures x == Shl(Shr(x, k), k) + Low(x, k)
    decreases k
  {
    if k > 0 {
      Recompose(x / 2, k - 1);
    }
  }

  /** That decomposition is unique. */
  lemma {:induction false} Decompose(q: int, r: nat, k: nat)
    requires r < Pow2(k)
    ensures Shr(Shl(q, k) + r, k) == q
    ensures Low(Shl(q, k) + r, k) == r
  {
    if k > 0 {
      Decompose(q, r / 2, k - 1);
      assert (Shl(q, k) + r) / 2 == Shl(q, k - 1) + r / 2;
    }
  }

  lemma {:induction false} ShlAdd(x: int, y: int, k: nat)
    ensures Shl(x + y, k) == Shl(x, k) + Shl(y, k)
  {
    if k > 0 {
      ShlAdd(x, y, k - 1);
    }
  }

  lemma {:induction false} ShlShl(x: int, a: nat, b: nat)
    ensures Shl(Shl(x, a), b) == Shl(x, a + b)
  {
    if b > 0 {
      ShlShl(x, a, b - 1);
    }
  }

  lemma {:induction false} ShrShr(x: int, a: nat, b: nat)
    ensures Shr(Shr(x, a), b) == Shr(x, a + b)
    decreases a
  {
    if a > 0 {
      ShrShr(x / 2, a - 1, b);
    }
  }

  lemma {:induction false} Pow2Shl(a: nat, b: nat)
    ensures Shl(Pow2(a), b) == Pow2(a + b)
  {
    if b > 0 {
      Pow2Shl(a, b - 1);
    }
  }

  lemma {:induction false} ShlMonotone(x: int, y: int, k: nat)
    requires x <= y
    ensures Shl(x, k) <= Shl(y, k)
  {
    if k > 0 {
      ShlMonotone(x, y, k - 1);
    }
  }

  /** The low bits of a word made of two parts. */
  lemma {:induction false} LowSplit(q: int, r: nat, j: nat, k: nat)
    requires r < Pow2(j)
    ensures Low(Shl(q, j) + r, j + k) == Shl(Low(q, k), j) + r
  {
    if j > 0 {
      LowSplit(q, r / 2, j - 1, k);
      assert (Shl(q, j) + r) / 2 == Shl(q, j - 1) + r / 2;
    }
  }

  // ----- alignment

  lemma {:induction false} AlignedDown(x: int, a: nat, b: nat)
    requires a <= b && Aligned(x, b)
    ensures Aligned(x, a)
    decreases a
  {
    if a > 0 {
      AlignedDown(x / 2, a - 1, b - 1);
    }
  }

  lemma {:induction false} Pow2Aligned(a: nat, b: nat)
    requires a <= b
    ensures Aligned(Pow2(b), a)
  {
    if a > 0 {
      Pow2Aligned(a - 1, b - 1);
    }
  }

  /** Adding a multiple of 2^k leaves the low bits alone and shifts the rest. */
  lemma {:induction false} AddAligned(b: int, x: int, k: nat)
    requires Aligned(b, k)
    ensures Low(b + x, k) == Low(x, k)
    ensures Shr(b + x, k) == Shr(b, k) + Shr(x, k)
    decreases k
  {
    if k > 0 {
      AddAligned(b / 2, x / 2, k - 1);
      assert (b + x) / 2 == b / 2 + x / 2;
    }
  }

  /** No two multiples of 2^k are closer than 2^k. */
  lemma {:induction false} AlignedGap(x: int, y: int, k: nat)
    requires Aligned(x, k) && Aligned(y, k) && x < y
    ensures x + Pow2(k) <= y
    decreases k
  {
    if k > 0 {
      AlignedGap(x / 2, y / 2, k - 1);
    }
  }

  /** Words with equal high bits are closer than 2^k. */
  lemma SameBlock(x: int, y: int, k: nat)
    requires Aligned(x, k) && Shr(x, k) == Shr(y, k)
    ensures x <= y < x + Pow2(k)
  {
    Recompose(x, k);
    Recompose(y, k);
  }

  /** Clearing the low bits compares the high ones. */
  lemma SameTop(x: int, y: int, k: nat)
    ensures x - Low(x, k) == y - Low(y, k) <==> Shr(x, k) == Shr(y, k)
  {
    Recompose(x, k);
    Recompose(y, k);
    Decompose(Shr(x, k), 0, k);
    Decompose(Shr(y, k), 0, k);
  }

  // ----- masks

  lemma {:induction false} MaskLow(x: nat, k: nat)
    ensures And(x, Pow2(k) - 1) == Low(x, k)
    ensures AndNot(x, Pow2(k) - 1) == x - Low(x, k)
  {
    if k == 0 {
      if x > 0 {
        MaskLow(x / 2, 0);
      }
    } else {
      MaskLow(x / 2, k - 1);
      assert (Pow2(k) - 1) / 2 == Pow2(k - 1) - 1;
    }
  }

  /** `(x + 2^k - 1) & ~(2^k - 1)` is the least multiple of 2^k not below `x`. */
  lemma RoundUp(x: nat, k: nat)
    ensures var r := AndNot(x + Pow2(k) - 1, Pow2(k) - 1);
            x <= r < x + Pow2(k) && Aligned(r, k)
    ensures forall y {:trigger Aligned(y, k)} ::
              x <= y && Aligned(y, k) ==> AndNot(x + Pow2(k) - 1, Pow2(k) - 1) <= y
  {
    var z := x + Pow2(k) - 1;
    var r := AndNot(z, Pow2(k) - 1);
    MaskLow(z, k);
    Recompose(z, k);
    Decompose(Shr(z, k), 0, k);
    forall y | x <= y && Aligned(y, k) ensures r <= y {
      if y < r {
        AlignedGap(y, r, k);
      }
    }
  }

  /** `|` of words with no common bits is addition. */
  lemma {:induction false} OrDisjoint(x: nat, y: nat, k: nat)
    requires Aligned(x, k) && y < Pow2(k)
    ensures Or(x, y) == x + y
    decreases x + y
  {
    if x == 0 && y == 0 {
    } else if k == 0 {
      OrDisjoint(x / 2, 0, 0);
    } else {
      OrDisjoint(x / 2, y / 2, k - 1);
    }
  }

  // ----- exclusive or

  lemma XorHalves(x: nat, y: nat)
    ensures Xor(x, y) / 2 == Xor(x / 2, y / 2)
    ensures Xor(x, y) % 2 == (if x % 2 != y % 2 then 1 else 0)
  {
  }

  lemma {:induction false} XorAssoc(x: nat, y: nat, z: nat)
    ensures Xor(Xor(x, y), z) == Xor(x, Xor(y, z))
    decreases x + y + z
  {
    if x + y + z > 0 {
      XorAssoc(x / 2, y / 2, z / 2);
      XorHalves(x, y);
      XorHalves(y, z);
    }
  }

  lemma {:induction false} XorComm(x: nat, y: nat)
    ensures Xor(x, y) == Xor(y, x)
    decreases x + y
  {
    if x + y > 0 {
      XorComm(x / 2, y / 2);
    }
  }

  lemma XorSwap(x: nat, y: nat, z: nat)
    ensures Xor(x, Xor(y, z)) == Xor(y, Xor(x, z))
  {
    hide Xor;
    XorAssoc(x, y, z);
    XorAssoc(y, x, z);
    XorComm(x, y);
  }

  lemma {:induction false} XorZero(x: nat)
    ensures Xor(x, 0) == x
  {
    if x > 0 {
      XorZero(x / 2);
    }
  }

  lemma {:induction false} XorSelf(x: nat)
    ensures Xor(x, x) == 0
  {
    if x > 0 {
      XorSelf(x / 2);
    }
  }

  lemma XorCancel(x: nat, y: nat)
    ensures Xor(x, Xor(x, y)) == y
  {
    hide Xor;
    XorAssoc(x, x, y);
    XorSelf(x);
    XorComm(0, y);
    XorZero(y);
  }

  lemma {:induction false} XorFits(x: nat, y: nat, k: nat)
    requires x < Pow2(k) && y < Pow2(k)
    ensures Xor(x, y) < Pow2(k)
  {
    if k > 0 {
      XorFits(x / 2, y / 2, k - 1);
    }
  }

  /** Words without a one in common. */
  lemma {:induction false} XorDisjoint(q: nat, r: nat, k: nat)
    requires r < Pow2(k)
    ensures Shl(q, k) >= 0 && Xor(r, Shl(q, k)) == Shl(q, k) + r
  {
    if k == 0 {
      XorComm(r, q);
      XorZero(q);
    } else {
      XorDisjoint(q, r / 2, k - 1);
    }
  }

  lemma {:induction false} ShrNonneg(x: nat, k: nat)
    ensures Shr(x, k) >= 0
    decreases k
  {
    if k > 0 {
      ShrNonneg(x / 2, k - 1);
    }
  }

  lemma {:induction false} ShlNonneg(x: nat, k: nat)
    ensures Shl(x, k) >= 0
  {
    if k > 0 {
      ShlNonneg(x, k - 1);
    }
  }

  lemma {:induction false} ShrHalf(x: int, k: nat)
    ensures Shr(x, k + 1) == Shr(x, k) / 2
    decreases k
  {
    if k > 0 {
      ShrHalf(x / 2, k - 1);
    }
  }

  lemma {:induction false} XorShr(x: nat, y: nat, k: nat)
    ensures Shr(x, k) >= 0 && Shr(y, k) >= 0 && Shr(Xor(x, y), k) == Xor(Shr(x, k), Shr(y, k))
    decreases k
  {
    hide Xor;
    if k > 0 {
      XorHalves(x, y);
      XorShr(x / 2, y / 2, k - 1);
    }
  }

  /** The byte at the bottom of a word and what is above it. */
  lemma Octets(x: nat)
    ensures Shr(x, 8) == x / 256 && Low(x, 8) == x % 256
  {
    assert Shr(x, 8) == x / 2 / 2 / 2 / 2 / 2 / 2 / 2 / 2;
  }
}
