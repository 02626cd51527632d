/** The file checksum (utils.c).

    Words are the 32-bit unsigned integers of the source, kept as naturals: `c >> 1` is
    `c / 2`, `c & 0xFF` is `c % 256`. Nothing here can overflow.
 */
module Crc32 {
  import opened Bits
  import opened IfAddr

  const POLY: nat := 0xEDB88320

  /** One division step of the reflected CRC-32. */
  function Shift(c: nat): nat
  {
    if c % 2 == 1 then Xor(POLY, c / 2) else c / 2
  }

  function Shifts(c: nat, n: nat): nat
  {
    if n == 0 then c else Shift(Shifts(c, n - 1))
  }

  // ----- the definition: the message goes through the divider bit by bit

  /** One message bit: the polynomial is added when the bit falling out differs from it. */
  function FeedBit(c: nat, bit: nat): nat
  {
    if c % 2 != bit then Xor(POLY, c / 2) else c / 2
  }

  /** The first `n` bits of byte `b`, least significant first. */
  function FeedBits(c: nat, b: nat, n: nat): nat
  {
    if n == 0 then c else FeedBit(FeedBits(c, b, n - 1), Shr(b, n - 1) % 2)
  }

  function FeedAll(c: nat, bytes: seq<Byte>): nat
  {
    if bytes == [] then c
    else FeedBits(FeedAll(c, bytes[..|bytes| - 1]), bytes[|bytes| - 1] as nat, 8)
  }

  const ONES: nat := 0xFFFFFFFF

  /** CRC-32 as in section 8 of RFC 1952: start from all ones, complement the result. */
  function Crc(bytes: seq<Byte>): nat
  {
    Xor(FeedAll(ONES, bytes), ONES)
  }

  // ----- a table step is eight division steps

  lemma ShiftLinear(x: nat, y: nat)
    ensures Shift(Xor(x, y)) == Xor(Shift(x), Shift(y))
  {
    var a, b := x / 2, y / 2;
    XorHalves(x, y);
    hide Xor;
    if x % 2 == 1 {
      XorAssoc(POLY, a, b);
      XorAssoc(POLY, a, Xor(POLY, b));
      XorSwap(a, POLY, b);
      XorCancel(POLY, Xor(a, b));
    } else {
      XorSwap(a, POLY, b);
    }
  }

  lemma {:induction false} ShiftsLinear(x: nat, y: nat, n: nat)
    ensures Shifts(Xor(x, y), n) == Xor(Shifts(x, n), Shifts(y, n))
  {
    hide Shift, Xor;
    if n > 0 {
      ShiftsLinear(x, y, n - 1);
      ShiftLinear(Shifts(x, n - 1), Shifts(y, n - 1));
    }
  }

  /** High bits only move down. */
  lemma {:induction false} ShiftHigh(q: nat, n: nat)
    ensures Shl(q, n) >= 0 && Shifts(Shl(q, n), n) == q
    decreases n
  {
    hide Xor;
    ShlNonneg(q, n);
    if n > 0 {
      ShlShl(q, 1, n - 1);
      assert Shl(q, 1) == 2 * q by { assert Shl(q, 0) == q; }
      ShiftHigh(2 * q, n - 1);
    }
  }

  /** `n` division steps of a word: the low bits go through the divider, the rest move down. */
  lemma TableStep(c: nat, n: nat)
    ensures Shr(c, n) >= 0 && Shifts(c, n) == Xor(Shifts(Low(c, n), n), Shr(c, n))
  {
    hide Shift, Shifts, Xor, Low, Shr, Shl;
    ShrNonneg(c, n);
    var high := Shl(Shr(c, n), n);
    Recompose(c, n);
    ShiftHigh(Shr(c, n), n);
    XorDisjoint(Shr(c, n), Low(c, n), n);
    ShiftsLinear(Low(c, n), high, n);
  }

  lemma BitStep(x: nat, v: nat)
    ensures FeedBit(Xor(x, v), v % 2) == Xor(Shift(x), v / 2)
  {
    XorHalves(x, v);
    XorAssoc(POLY, x / 2, v / 2);
  }

  /** Feeding bits one by one is adding them all first and then dividing. */
  lemma {:induction false} BitsAtOnce(c: nat, b: nat, n: nat)
    ensures Shr(b, n) >= 0 && FeedBits(c, b, n) == Xor(Shifts(Xor(c, b), n), Shr(b, n))
  {
    hide Shift, FeedBit, Xor;
    ShrNonneg(b, n);
    if n > 0 {
      BitsAtOnce(c, b, n - 1);
      BitStep(Shifts(Xor(c, b), n - 1), Shr(b, n - 1));
      ShrHalf(b, n - 1);
    } else {
      XorAssoc(c, b, b);
      XorSelf(b);
      XorZero(c);
    }
  }

  /** Feeding a byte is one step through the table. */
  lemma ByteByTable(c: nat, b: Byte)
    ensures FeedBits(c, b as nat, 8) == Xor(Shifts(Xor(c, b as nat) % 256, 8), c / 256)
  {
    hide Shift, Shifts, FeedBits, Xor;
    var x := Xor(c, b as nat);
    BitsAtOnce(c, b as nat, 8);
    TableStep(x, 8);
    Octets(x);
    Octets(c);
    Octets(b as nat);
    XorShr(c, b as nat, 8);
    XorZero(c / 256);
    XorZero(Shifts(x, 8));
  }

  /** The table that crc32_file builds once. */
  method BuildTable() returns (crcvals: array<nat>)
    ensures fresh(crcvals) && crcvals.Length == 256
    ensures forall i :: 0 <= i < 256 ==> crcvals[i] == Shifts(i, 8)
  {
    hide Xor;
    crcvals := new nat[256];
    for i := 0 to 256
      invariant forall k :: 0 <= k < i ==> crcvals[k] == Shifts(k, 8)
    {
      var c: nat := i;
      for j := 0 to 8
        invariant c == Shifts(i, j)
      {
        c := if c % 2 == 1 then Xor(POLY, c / 2) else c / 2;
      }
      crcvals[i] := c;
    }
  }

  const BUFSIZE := 1024

  /** The loop over one buffer. */
  method FoldBuffer(crcvals: array<nat>, c0: nat, buf: seq<Byte>) returns (c: nat)
    requires crcvals.Length == 256
    requires forall i :: 0 <= i < 256 ==> crcvals[i] == Shifts(i, 8)
    ensures c == FeedAll(c0, buf)
  {
    hide Xor, Shift, Shifts, FeedBits;
    c := c0;
    for i := 0 to |buf|
      invariant c == FeedAll(c0, buf[..i])
    {
      ByteByTable(c, buf[i]);
      assert buf[..i + 1][..i] == buf[..i];
      c := Xor(crcvals[Xor(c, buf[i] as nat) % 256], c / 256);
    }
    assert buf[..|buf|] == buf;
  }

  lemma {:induction false} FeedAppend(c: nat, a: seq<Byte>, b: seq<Byte>)
    ensures FeedAll(c, a + b) == FeedAll(FeedAll(c, a), b)
  {
    hide FeedBits;
    if b == [] {
      assert a + b == a;
    } else {
      FeedAppend(c, a, b[..|b| - 1]);
      assert (a + b)[..|a + b| - 1] == a + b[..|b| - 1];
    }
  }

  /** The loop over the file: `fread` fills the buffer unless the file ends first, and the loop
      goes on only after a full buffer. */
  method Crc32File(file: seq<Byte>) returns (crc: nat)
    ensures crc == Crc(file)
  {
    hide Xor, Shift, Shifts, FeedBits;
    var crcvals := BuildTable();
    var c: nat := ONES;
    var pos, len := 0, BUFSIZE;
    while len == BUFSIZE
      invariant 0 <= pos <= |file| && 0 <= len <= BUFSIZE
      invariant forall i :: 0 <= i < 256 ==> crcvals[i] == Shifts(i, 8)
      invariant c == FeedAll(ONES, file[..pos])
      invariant len < BUFSIZE ==> pos == |file|
      decreases |file| - pos, len
    {
      len := if |file| - pos < BUFSIZE then |file| - pos else BUFSIZE;
      FeedAppend(ONES, file[..pos], file[pos..pos + len]);
      assert file[..pos] + file[pos..pos + len] == file[..pos + len];
      c := FoldBuffer(crcvals, c, file[pos..pos + len]);
      pos := pos + len;
    }
    assert file[..pos] == file;
    crc := Xor(c, ONES);
  }

  // ----- the result is a 32-bit word

  lemma {:induction false} BitsFit(c: nat, b: nat, n: nat)
    requires c < Pow2(32) && POLY < Pow2(32)
    ensures FeedBits(c, b, n) < Pow2(32)
  {
    hide Xor, Pow2, Shr;
    if n > 0 {
      BitsFit(c, b, n - 1);
      XorFits(POLY, FeedBits(c, b, n - 1) / 2, 32);
    }
  }

  lemma {:induction false} FeedFits(c: nat, bytes: seq<Byte>)
    requires c < Pow2(32) && POLY < Pow2(32)
    ensures FeedAll(c, bytes) < Pow2(32)
  {
    hide Xor, Pow2, FeedBits;
    if bytes != [] {
      FeedFits(c, bytes[..|bytes| - 1]);
      BitsFit(FeedAll(c, bytes[..|bytes| - 1]), bytes[|bytes| - 1] as nat, 8);
    }
  }

  lemma CrcFits(bytes: seq<Byte>)
    ensures Crc(bytes) < 0x1_0000_0000
  {
    hide Xor, FeedAll;
    assert Pow2(8) == 0x100 && Pow2(16) == 0x1_0000 && Pow2(24) == 0x100_0000;
    assert Pow2(32) == 0x1_0000_0000;
    FeedFits(ONES, bytes);
    XorFits(FeedAll(ONES, bytes), ONES, 32);
  }
}
