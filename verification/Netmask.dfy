/** Netmasks in text form (utils.c, utils.h). Words are 32-bit unsigned integers, kept as naturals
    below WORD. */
module Netmask {
  import opened Bits
  import opened Options

  const WIDTH: nat := 32
  const WORD: nat := 0x1_0000_0000
  const ONES: nat := 0xFFFF_FFFF

  lemma WordIsPow2()
    ensures Pow2(WIDTH) == WORD && Pow2(WIDTH - 1) == 0x8000_0000
  {
    assert Pow2(8) == 0x100 && Pow2(16) == 0x1_0000 && Pow2(24) == 0x100_0000 && Pow2(31) == 0x8000_0000;
  }

  /** `x` is the word shifted left by the `WIDTH - r` places skipped so far. */
  ghost predicate Skipped(word: nat, x: nat, r: nat)
  {
    r <= WIDTH && x < WORD && x == Shl(word, WIDTH - r)
  }

  lemma SkipMore(word: nat, x: nat, r: nat, k: nat)
    requires Skipped(word, x, r) && k <= r && Shl(x, k) < WORD
    ensures Shl(x, k) >= 0 && Skipped(word, Shl(x, k), r - k)
  {
    hide Shl;
    ShlNonneg(x, k);
    ShlShl(word, WIDTH - r, k);
  }

  /** When the top bit has been reached, `r` is its number. */
  lemma TopBit(word: nat, x: nat, r: nat)
    requires Skipped(word, x, r) && r > 0 && x >= 0x8000_0000
    ensures Pow2(r - 1) <= word < Pow2(r)
  {
    hide Shl, Pow2;
    WordIsPow2();
    Pow2Shl(r, WIDTH - r);
    Pow2Shl(r - 1, WIDTH - r);
    if word >= Pow2(r) {
      ShlMonotone(Pow2(r), word, WIDTH - r);
    }
    if word < Pow2(r - 1) {
      ShlMonotone(word, Pow2(r - 1) - 1, WIDTH - r);
      ShlStrict(Pow2(r - 1) - 1, WIDTH - r);
    }
  }

  lemma {:induction false} ShlStrict(x: int, k: nat)
    ensures Shl(x, k) < Shl(x + 1, k)
  {
    if k > 0 {
      ShlStrict(x, k - 1);
    }
  }

  lemma ShlFour(x: int)
    ensures Shl(x, 1) == x * 2 && Shl(x, 2) == x * 4 && Shl(x, 4) == x * 0x10
  {
    assert Shl(x, 0) == x;
    assert Shl(x, 3) == 2 * Shl(x, 2);
  }

  lemma ShlByConstant(x: nat)
    ensures Shl(x, 16) == x * 0x1_0000 && Shl(x, 8) == x * 0x100 && Shl(x, 4) == x * 0x10
    ensures Shl(x, 2) == x * 4 && Shl(x, 1) == x * 2
  {
    hide Shl;
    ShlFour(x);
    ShlFour(x * 0x10);
    ShlFour(x * 0x100);
    ShlFour(x * 0x1000);
    ShlShl(x, 4, 4);
    ShlShl(x, 8, 4);
    ShlShl(x, 12, 4);
  }

  /** `y` is `x` shifted left by one of the widths of the search. */
  predicate ShiftedBy(x: nat, y: nat, k: nat)
  {
    || (k == 16 && y == x * 0x1_0000) || (k == 8 && y == x * 0x100) || (k == 4 && y == x * 0x10)
    || (k == 2 && y == x * 4) || (k == 1 && y == x * 2)
  }

  lemma SkipTo(word: nat, x: nat, r: nat, k: nat, y: nat)
    requires Skipped(word, x, r) && k <= r && y < WORD && ShiftedBy(x, y, k)
    ensures Skipped(word, y, r - k)
  {
    hide Shl;
    ShlByConstant(x);
    SkipMore(word, x, r, k);
  }

  /** `fls`: the number of the highest bit set, counting from 1; 0 for an empty word. A mask like
      0xffff0000 asks whether the word is below 2^16, and then the shift loses nothing. */
  method Fls(word: nat) returns (r: nat)
    requires word < WORD
    ensures r <= WIDTH && (r == 0 <==> word == 0)
    ensures word < Pow2(r) && (r > 0 ==> Pow2(r - 1) <= word)
  {
    r := WIDTH;
    if word == 0 {
      return 0;
    }
    var x := word;
    assert Skipped(word, x, r);
    hide Pow2, Skipped;
    if x < 0x1_0000 {
      SkipTo(word, x, r, 16, x * 0x1_0000);
      x := x * 0x1_0000;
      r := r - 16;
    }
    if x < 0x100_0000 {
      SkipTo(word, x, r, 8, x * 0x100);
      x := x * 0x100;
      r := r - 8;
    }
    if x < 0x1000_0000 {
      SkipTo(word, x, r, 4, x * 0x10);
      x := x * 0x10;
      r := r - 4;
    }
    if x < 0x4000_0000 {
      SkipTo(word, x, r, 2, x * 4);
      x := x * 4;
      r := r - 2;
    }
    if x < 0x8000_0000 {
      SkipTo(word, x, r, 1, x * 2);
      r := r - 1;
      TopBit(word, x * 2, r);
    } else {
      TopBit(word, x, r);
    }
  }

  // ----- masks

  /** The mask with `n` leading ones. */
  function Mask(n: nat): nat
    requires n <= WIDTH
  {
    WordIsPow2();
    Pow2Monotone(WIDTH - n, WIDTH);
    WORD - Pow2(WIDTH - n)
  }

  /** How many ones `m` starts with, reading its lowest `n` bits from the top. */
  function LeadingOnes(m: int, n: nat): (r: nat)
    ensures r <= n
  {
    if n == 0 || m < Pow2(n - 1) then 0 else 1 + LeadingOnes(m - Pow2(n - 1), n - 1)
  }

  /** The leading ones of a word end where the highest one of its complement stands. */
  lemma {:induction false} OnesEndAtTopZero(m: nat, n: nat, r: nat)
    requires m < Pow2(n) && r <= n
    requires var c := Pow2(n) - 1 - m; c < Pow2(r) && (r > 0 ==> Pow2(r - 1) <= c)
    ensures LeadingOnes(m, n) == n - r
  {
    if n > 0 {
      if m < Pow2(n - 1) {
        if r < n {
          Pow2Monotone(r, n - 1);
        }
      } else {
        if r == n {
        } else {
          OnesEndAtTopZero(m - Pow2(n - 1), n - 1, r);
        }
      }
    }
  }

  lemma {:induction false} OnesOfMask(n: nat, k: nat)
    requires k <= n
    ensures LeadingOnes(Pow2(n) - Pow2(n - k), n) == k
  {
    if k > 0 {
      OnesOfMask(n - 1, k - 1);
      Pow2Monotone(n - k, n - 1);
    } else if n > 0 {
      assert Pow2(n) - Pow2(n) < Pow2(n - 1);
    }
  }

  /** The dotted form: `32 - fls(~m)`. It is the number of leading ones. */
  method DottedLength(m: nat) returns (length: nat)
    requires m < WORD
    ensures length == LeadingOnes(m, WIDTH)
  {
    hide LeadingOnes, Pow2;
    var r := Fls(ONES - m);
    WordIsPow2();
    OnesEndAtTopZero(m, WIDTH, r);
    length := WIDTH - r;
  }

  /** Contiguous masks round-trip: writing out a length and reading it back gives it again, and a
      word is such a mask exactly when writing out its length gives the word. */
  lemma MaskRoundTrip(n: nat, m: nat)
    requires n <= WIDTH && m < WORD
    ensures LeadingOnes(Mask(n), WIDTH) == n
    ensures (exists k :: 0 <= k <= WIDTH && m == Mask(k)) <==> m == Mask(LeadingOnes(m, WIDTH))
  {
    hide LeadingOnes, Pow2;
    WordIsPow2();
    forall k | 0 <= k <= WIDTH ensures LeadingOnes(Mask(k), WIDTH) == k {
      OnesOfMask(WIDTH, k);
    }
  }

  lemma {:induction false} OnesBound(m: nat, n: nat)
    requires m < Pow2(n)
    ensures var k := LeadingOnes(m, n);
            Pow2(n) - Pow2(n - k) <= m && (k < n ==> m < Pow2(n) - Pow2(n - k - 1))
  {
    if n > 0 && m >= Pow2(n - 1) {
      OnesBound(m - Pow2(n - 1), n - 1);
    }
  }

  /** A mask with holes is read as the longest contiguous mask that it contains. */
  lemma HolesAreCutOff(m: nat)
    requires m < WORD
    ensures var k := LeadingOnes(m, WIDTH);
            Mask(k) <= m && (k < WIDTH ==> m < Mask(k + 1))
  {
    hide LeadingOnes, Pow2;
    WordIsPow2();
    OnesBound(m, WIDTH);
  }

  // ----- parse_netmask_string

  /** What the library's parsers see in the text: a number without a dot (absent when something
      follows it), or a text with a dot and the word `inet_aton` reads from it. */
  datatype Text = Plain(number: Option<nat>) | Dotted(word: Option<nat>)

  /** parse_netmask_string; errors are all ones. */
  method ParseNetmaskString(text: Text, v6: bool) returns (ret: nat)
    requires text.Dotted? && text.word.Some? ==> text.word.value < WORD
    ensures ret == match text
      case Plain(None) => ONES
      case Plain(Some(n)) => n % WORD
      case Dotted(None) => ONES
      case Dotted(Some(m)) => if v6 then ONES else LeadingOnes(m, WIDTH)
  {
    match text {
      case Plain(number) =>
        if number.None? {
          return ONES;
        }
        return number.value % WORD;
      case Dotted(word) =>
        if v6 || word.None? {
          return ONES;
        }
        ret := DottedLength(word.value);
    }
  }
}
