/** Sixteen-byte addresses and prefix matching (interface-ip.c). */
module IfAddr {
  import opened Bits

  const BYTE_BITS: nat := 8

  type Byte = x: nat | x < 256

  /** `union if_addr`, in network byte order. */
  type Addr = a: seq<Byte> | |a| == 16 witness [0, 0, 0, 0, 0, 0, 0, 0, 0, 0, 0, 0, 0, 0, 0, 0]

  function Zeros(n: nat): (z: seq<Byte>)
    ensures |z| == n
  {
    seq(n, i => 0)
  }

  /** The bytes read as one big-endian number. */
  function Value(a: seq<Byte>): nat
  {
    if a == [] then 0
    else ShlNonneg(Value(a[..|a| - 1]), BYTE_BITS); Shl(Value(a[..|a| - 1]), BYTE_BITS) + a[|a| - 1]
  }

  /** `clear_if_addr`; a zero mask clears every byte. */
  function ClearIfAddr(a: Addr, mask: nat): Addr
    requires mask <= 128
  {
    var mBytes := (mask + 7) / 8;
    var zeroed := a[..mBytes] + Zeros(16 - mBytes);
    if mBytes == 0 then zeroed
    else
      MaskLow(a[mBytes - 1], mBytes * 8 - mask);
      zeroed[mBytes - 1 := AndNot(a[mBytes - 1], Pow2(mBytes * 8 - mask) - 1)]
  }

  /** `match_if_addr` */
  predicate MatchIfAddr(a: Addr, b: Addr, mask: nat)
    requires mask <= 128
  {
    ClearIfAddr(a, mask) == ClearIfAddr(b, mask)
  }

  /** Bit `i` of an address, counted from the most significant. */
  function BitAt(a: Addr, i: nat): int
    requires i < 128
  {
    Shr(a[i / 8], 7 - i % 8) % 2
  }

  // ----- addresses as numbers

  lemma {:induction false} ValueBound(a: seq<Byte>)
    ensures Value(a) < Pow2(BYTE_BITS * |a|)
  {
    hide Low, Shr, Pow2;
    if a != [] {
      var h := a[..|a| - 1];
      ValueBound(h);
      ByteAppend(Value(h), a[|a| - 1], BYTE_BITS * |h|);
      assert BYTE_BITS * |h| + BYTE_BITS == BYTE_BITS * |a|;
    }
  }

  lemma ByteAppend(v: nat, b: Byte, n: nat)
    requires v < Pow2(n)
    ensures Shl(v, BYTE_BITS) + b < Pow2(n + BYTE_BITS)
  {
    ByteFacts();
    ShlMonotone(v + 1, Pow2(n), BYTE_BITS);
    ShlAdd(v, 1, BYTE_BITS);
    Pow2Shl(n, BYTE_BITS);
  }

  lemma ByteFacts()
    ensures Pow2(BYTE_BITS) == 256 && Shl(1, BYTE_BITS) == 256
  {
    assert Pow2(8) == 256 && Shl(1, 8) == 256;
  }

  lemma {:induction false} ValueConcat(x: seq<Byte>, y: seq<Byte>)
    ensures Value(x + y) == Shl(Value(x), BYTE_BITS * |y|) + Value(y)
  {
    hide Low, Shr, Pow2;
    if y == [] {
      assert x + y == x;
    } else {
      var h := y[..|y| - 1];
      ValueConcat(x, h);
      assert (x + y)[..|x + y| - 1] == x + h;
      ShlAdd(Shl(Value(x), BYTE_BITS * |h|), Value(h), BYTE_BITS);
      ShlShl(Value(x), BYTE_BITS * |h|, BYTE_BITS);
      assert BYTE_BITS * |h| + BYTE_BITS == BYTE_BITS * |y|;
    }
  }

  lemma {:induction false} ValueZeros(n: nat)
    ensures Value(Zeros(n)) == 0
  {
    if n > 0 {
      ValueZeros(n - 1);
      assert Zeros(n)[..n - 1] == Zeros(n - 1);
      ShlZero(BYTE_BITS);
    }
  }

  lemma {:induction false} ShlZero(k: nat)
    ensures Shl(0, k) == 0
  {
    if k > 0 {
      ShlZero(k - 1);
    }
  }

  /** A number that fits in k bits has nothing above them. */
  lemma FitsIn(v: nat, k: nat)
    requires v < Pow2(k)
    ensures Shr(v, k) == 0 && Low(v, k) == v
  {
    ShlZero(k);
    Decompose(0, v, k);
  }

  lemma {:induction false} ValueInjective(a: seq<Byte>, b: seq<Byte>)
    requires |a| == |b| && Value(a) == Value(b)
    ensures a == b
  {
    hide Low, Shl, Shr, Pow2;
    if a != [] {
      var n := |a| - 1;
      ByteFacts();
      Decompose(Value(a[..n]), a[n], BYTE_BITS);
      Decompose(Value(b[..n]), b[n], BYTE_BITS);
      ValueInjective(a[..n], b[..n]);
      assert a == a[..n] + [a[n]] && b == b[..n] + [b[n]];
    }
  }

  /** An address as the bytes before byte `n`, that byte, and the bytes after it. */
  lemma ValueAround(a: Addr, n: nat, b: Byte)
    requires n < 16
    ensures Value(a[n := b])
         == Shl(Shl(Value(a[..n]), BYTE_BITS) + b, BYTE_BITS * (15 - n)) + Value(a[n + 1..])
    ensures Value(a[n + 1..]) < Pow2(BYTE_BITS * (15 - n))
  {
    hide Low, Shr, Pow2, Shl;
    assert a[n := b] == (a[..n] + [b]) + a[n + 1..];
    assert (a[..n] + [b])[..n] == a[..n];
    ValueConcat(a[..n] + [b], a[n + 1..]);
    ValueBound(a[n + 1..]);
  }

  /** A shift and a mask by less than a byte see only the last byte. */
  lemma ByteLow(v: nat, b: Byte, k: nat)
    requires k <= BYTE_BITS
    ensures Low(Shl(v, BYTE_BITS) + b, k) == Low(b, k)
    ensures Shr(Shl(v, BYTE_BITS) + b, k) == Shl(v, BYTE_BITS - k) + Shr(b, k)
  {
    hide Shr, Pow2, Shl, Low;
    ShlShl(v, BYTE_BITS - k, k);
    Decompose(Shl(v, BYTE_BITS - k), 0, k);
    AddAligned(Shl(v, BYTE_BITS), b, k);
  }

  /** The same clearing, on the number an address stands for. */
  lemma ClearNumber(v: nat, b: Byte, t: nat, j: nat, k: nat)
    requires t < Pow2(j) && k <= BYTE_BITS
    ensures Shl(Shl(v, BYTE_BITS) + b - Low(b, k), j)
         == Shl(Shl(v, BYTE_BITS) + b, j) + t - Low(Shl(Shl(v, BYTE_BITS) + b, j) + t, j + k)
  {
    hide Low, Shl, Shr, Pow2, AndNot, Value;
    var q := Shl(v, BYTE_BITS) + b;
    LowSplit(q, t, j, k);
    ByteLow(v, b, k);
    ShlAdd(q - Low(b, k), Low(b, k), j);
  }

  /** Zeroing the low `k` bits of byte `n` and everything after it. */
  lemma ClearFrom(a: Addr, z: Addr, n: nat, k: nat)
    requires n < 16 && k <= BYTE_BITS
    requires Low(a[n], k) <= a[n]
    requires z == a[..n] + [a[n] - Low(a[n], k)] + Zeros(15 - n)
    ensures Value(z) == Value(a) - Low(Value(a), BYTE_BITS * (15 - n) + k)
  {
    hide Low, Shl, Shr, Pow2, AndNot, Value;
    var b := a[n];
    assert a == a[n := b] && z == z[n := b - Low(b, k)];
    assert z[..n] == a[..n] && z[n + 1..] == Zeros(15 - n);
    ValueAround(a, n, b);
    ValueAround(z, n, b - Low(b, k));
    ValueZeros(15 - n);
    ClearNumber(Value(a[..n]), b, Value(a[n + 1..]), BYTE_BITS * (15 - n), k);
  }

  /** Clearing keeps the first `mask` bits and zeroes the others. */
  lemma ClearKeepsTopBits(a: Addr, mask: nat)
    requires mask <= 128
    ensures Value(ClearIfAddr(a, mask)) == Value(a) - Low(Value(a), 128 - mask)
  {
    hide Low, Shl, Shr, Pow2, AndNot, Value;
    var mBytes := (mask + 7) / 8;
    if mBytes == 0 {
      ValueBound(a);
      FitsIn(Value(a), 128 - mask);
      ValueZeros(16);
      assert ClearIfAddr(a, mask) == Zeros(16);
    } else {
      var n, k := mBytes - 1, mBytes * 8 - mask;
      MaskLow(a[n], k);
      var z := ClearIfAddr(a, mask);
      assert z == a[..n] + [a[n] - Low(a[n], k)] + Zeros(15 - n);
      ClearFrom(a, z, n, k);
      assert BYTE_BITS * (15 - n) + k == 128 - mask;
    }
  }

  /** `match_if_addr` compares exactly the numbers formed by the first `mask` bits. */
  lemma MatchIffTopBits(a: Addr, b: Addr, mask: nat)
    requires mask <= 128
    ensures MatchIfAddr(a, b, mask) <==> Shr(Value(a), 128 - mask) == Shr(Value(b), 128 - mask)
  {
    hide Low, Shl, Shr, Pow2, AndNot, Value;
    ClearKeepsTopBits(a, mask);
    ClearKeepsTopBits(b, mask);
    SameTop(Value(a), Value(b), 128 - mask);
    if Shr(Value(a), 128 - mask) == Shr(Value(b), 128 - mask) {
      ValueInjective(ClearIfAddr(a, mask), ClearIfAddr(b, mask));
    }
  }

  lemma BitOfValue(a: Addr, i: nat)
    requires i < 128
    ensures Shr(Value(a), 127 - i) % 2 == BitAt(a, i)
  {
    hide Low, Pow2, Value, Shr;
    var n, j := i / 8, 7 - i % 8;
    var v, b := Value(a[..n]), a[n];
    assert a == a[n := b];
    ValueAround(a, n, b);
    var q := Shl(v, BYTE_BITS) + b;
    Decompose(q, Value(a[n + 1..]), BYTE_BITS * (15 - n));
    ShrShr(Value(a), BYTE_BITS * (15 - n), j);
    assert BYTE_BITS * (15 - n) + j == 127 - i;
    ByteLow(v, b, j);
    assert Shl(v, BYTE_BITS - j) == 2 * Shl(v, BYTE_BITS - j - 1);
  }

  lemma {:induction false} TopBitsEqual(a: Addr, b: Addr, mask: nat)
    requires mask <= 128
    ensures Shr(Value(a), 128 - mask) == Shr(Value(b), 128 - mask)
            <==> forall i :: 0 <= i < mask ==> BitAt(a, i) == BitAt(b, i)
  {
    hide Low, Shl, Shr, Pow2, Value;
    var w := 128 - mask;
    if mask == 0 {
      ValueBound(a);
      ValueBound(b);
      FitsIn(Value(a), w);
      FitsIn(Value(b), w);
    } else {
      TopBitsEqual(a, b, mask - 1);
      BitOfValue(a, mask - 1);
      BitOfValue(b, mask - 1);
      ShrHalf(Value(a), w);
      ShrHalf(Value(b), w);
    }
  }

  /** Two addresses match under a mask exactly when they agree on that many leading bits. */
  lemma MatchIffLeadingBits(a: Addr, b: Addr, mask: nat)
    requires mask <= 128
    ensures MatchIfAddr(a, b, mask)
            <==> forall i :: 0 <= i < mask ==> BitAt(a, i) == BitAt(b, i)
  {
    MatchIffTopBits(a, b, mask);
    TopBitsEqual(a, b, mask);
  }

  /** A shorter mask matches whenever a longer one does. */
  lemma MatchShorter(a: Addr, b: Addr, mask: nat, shorter: nat)
    requires shorter <= mask <= 128 && MatchIfAddr(a, b, mask)
    ensures MatchIfAddr(a, b, shorter)
  {
    hide Low, Shl, Shr, Pow2, AndNot, Value;
    MatchIffTopBits(a, b, mask);
    MatchIffTopBits(a, b, shorter);
    ShrShr(Value(a), 128 - mask, mask - shorter);
    ShrShr(Value(b), 128 - mask, mask - shorter);
  }
}
