/** From blocks of /64 networks to IPv6 subnets
    (interface_ip_add_device_prefix, interface_set_prefix_address, interface-ip.c). */
module PrefixSubnets {
  import opened Bits
  import opened IfAddr
  import opened PrefixAlloc
  import opened PrefixRun
  import opened PrefixSafety
  import opened Options

  const WORD_BITS: nat := 32
  const HOST_BITS: nat := 64

  type IfaceId = a: seq<Byte> | |a| == 8 witness [0, 0, 0, 0, 0, 0, 0, 0]

  /** The word `s6_addr32[1]`, bits 32 to 63 of an address. */
  function Word1(a: Addr): nat
  {
    Value(a[4..8])
  }

  /** `n` bytes in network order; higher bits are lost. */
  function Bytes(w: nat, n: nat): (b: seq<Byte>)
    ensures |b| == n
  {
    if n == 0 then [] else Bytes(w / 256, n - 1) + [w % 256]
  }

  /** The prefix address a delegation is stored with: host bits cleared. */
  function PrefixAddress(raw: Addr, plen: nat): Addr
    requires plen <= 128
  {
    ClearIfAddr(raw, plen)
  }

  /** The address derived for an assignment: the network number or-ed into the second word,
      and the interface identifier in the low half. */
  function SubnetAddress(prefix: Addr, start: nat, id: IfaceId): Addr
  {
    prefix[..4] + Bytes(Or(Word1(prefix), start), 4) + id
  }

  /** The excluded block as the list sees it. */
  function ExclusionOf(plen: nat, exclAddr: Addr, exclLength: nat): Exclusion
    requires plen <= 64
  {
    if exclLength == 0 then NoExclusion
    else Exclusion(And(Word1(exclAddr), Networks(plen) - 1), exclLength)
  }

  /** The first 64 bits of an address as a number. */
  function Network(a: Addr): int
  {
    Shr(Value(a), HOST_BITS)
  }

  lemma {:induction false} ValueOfBytes(w: nat, n: nat)
    requires w < Pow2(BYTE_BITS * n)
    ensures Value(Bytes(w, n)) == w
  {
    hide Low, Shr;
    if n > 0 {
      var k := BYTE_BITS * (n - 1);
      assert k + BYTE_BITS == BYTE_BITS * n;
      ShiftedByte(w);
      ByteBound(w / 256, k, w);
      ValueOfBytes(w / 256, n - 1);
      assert Bytes(w, n)[..n - 1] == Bytes(w / 256, n - 1);
    }
  }

  lemma ShlByte(x: int)
    ensures Shl(x, BYTE_BITS) == 256 * x
  {
    assert Shl(x, 1) == 2 * x;
    assert Shl(x, 2) == 4 * x;
    assert Shl(x, 4) == 16 * x;
    assert Shl(x, 6) == 64 * x;
    assert Shl(x, 8) == 256 * x;
  }

  lemma ShiftedByte(w: nat)
    ensures w == Shl(w / 256, BYTE_BITS) + w % 256
  {
    ShlByte(w / 256);
  }

  lemma ByteBound(q: nat, k: nat, w: nat)
    requires q == w / 256 && w < Pow2(k + BYTE_BITS)
    ensures q < Pow2(k)
  {
    Pow2Shl(k, BYTE_BITS);
    ShlByte(Pow2(k));
  }

  /** The network number of an address, by words. */
  lemma NetworkByWords(a: Addr)
    ensures Network(a) == Shl(Value(a[..4]), WORD_BITS) + Word1(a)
    ensures Word1(a) < Pow2(WORD_BITS)
    ensures Value(a) == Shl(Network(a), HOST_BITS) + Value(a[8..]) && Value(a[8..]) < Pow2(HOST_BITS)
  {
    hide Low, Shr, Shl, Pow2, Value;
    assert a[..8] == a[..4] + a[4..8] && a == a[..8] + a[8..];
    ValueConcat(a[..4], a[4..8]);
    ValueConcat(a[..8], a[8..]);
    ValueBound(a[4..8]);
    ValueBound(a[8..]);
    Decompose(Value(a[..8]), Value(a[8..]), HOST_BITS);
  }

  /** The high bits of the address are those of its network number. */
  lemma TopOfNetwork(a: Addr, length: nat)
    requires length <= 64
    ensures Shr(Value(a), 128 - length) == Shr(Network(a), Span(length))
  {
    hide Shr, Value;
    ShrShr(Value(a), HOST_BITS, Span(length));
    assert HOST_BITS + Span(length) == 128 - length;
  }

  lemma LowOfNetwork(a: Addr, k: nat)
    requires k <= WORD_BITS
    ensures Low(Network(a), k) == Low(Word1(a), k)
  {
    hide Low, Shr, Shl, Pow2, Value;
    NetworkByWords(a);
    ShlShl(Value(a[..4]), WORD_BITS - k, k);
    Decompose(Shl(Value(a[..4]), WORD_BITS - k), 0, k);
    AddAligned(Shl(Value(a[..4]), WORD_BITS), Word1(a), k);
  }

  /** A stored delegation starts at a multiple of its own size. */
  lemma PrefixAligned(raw: Addr, plen: nat)
    requires 34 <= plen <= 64
    ensures var p := PrefixAddress(raw, plen); Aligned(Network(p), Span(plen)) && Aligned(Word1(p), Span(plen))
    ensures Value(PrefixAddress(raw, plen)[8..]) == 0
  {
    hide Low, Shr, Shl, Pow2, Value;
    var p, k := PrefixAddress(raw, plen), Span(plen);
    ClearKeepsTopBits(raw, plen);
    Recompose(Value(raw), 128 - plen);
    Decompose(Shr(Value(raw), 128 - plen), 0, 128 - plen);
    NetworkByWords(p);
    LowSplit(Network(p), Value(p[8..]), HOST_BITS, k);
    assert HOST_BITS + k == 128 - plen;
    ShlNonneg(Low(Network(p), k), HOST_BITS);
    ShlZeroOnly(Low(Network(p), k), HOST_BITS);
    LowOfNetwork(p, k);
  }

  lemma {:induction false} ShlZeroOnly(x: nat, k: nat)
    ensures Shl(x, k) <= 0 ==> x == 0
  {
    if k > 0 {
      ShlZeroOnly(x, k - 1);
    }
  }

  /** The or of a prefix word with a network number inside the prefix is their sum. */
  lemma WordOr(w: nat, start: nat, k: nat)
    requires Aligned(w, k) && start < Pow2(k) && k <= WORD_BITS && w < Pow2(WORD_BITS)
    ensures Or(w, start) == w + start < Pow2(WORD_BITS)
  {
    hide Low, Pow2, Or;
    OrDisjoint(w, start, k);
    Pow2Aligned(k, WORD_BITS);
    AlignedGap(w, Pow2(WORD_BITS), k);
  }

  /** The derived address lies in network `start` of the delegation. */
  lemma SubnetNetwork(raw: Addr, plen: nat, start: nat, id: IfaceId)
    requires 34 <= plen <= 64 && start < Networks(plen)
    ensures var p := PrefixAddress(raw, plen); Network(SubnetAddress(p, start, id)) == Network(p) + start
    ensures SubnetAddress(PrefixAddress(raw, plen), start, id)[8..] == id
  {
    hide Low, Shr, Shl, Pow2, Value, Or, Bytes;
    var p, k := PrefixAddress(raw, plen), Span(plen);
    var a := SubnetAddress(p, start, id);
    PrefixAligned(raw, plen);
    NetworkByWords(p);
    NetworkByWords(a);
    WordOr(Word1(p), start, k);
    assert a[..4] == p[..4] && a[4..8] == Bytes(Or(Word1(p), start), 4);
    ValueOfBytes(Word1(p) + start, 4);
  }

  /** Addresses of two disjoint blocks of a delegation do not share the shorter prefix. */
  lemma BlocksApart(a: Addr, b: Addr, base: int, plen: nat, e: Assignment, f: Assignment)
    requires Aligned(base, Span(plen)) && plen <= e.length <= 64 && plen <= f.length <= 64
    requires Network(a) == base + e.start && Network(b) == base + f.start
    requires Aligned(e.start, Span(e.length)) && Aligned(f.start, Span(f.length))
    requires End(e) <= f.start
    ensures !MatchIfAddr(a, b, if e.length < f.length then e.length else f.length)
    ensures !MatchIfAddr(b, a, if e.length < f.length then e.length else f.length)
  {
    hide Low, Shr, Pow2, Value;
    var l := if e.length < f.length then e.length else f.length;
    var k := Span(l);
    MatchIffTopBits(a, b, l);
    TopOfNetwork(a, l);
    TopOfNetwork(b, l);
    AlignedDown(base, k, Span(plen));
    AddAligned(base, e.start, k);
    AddAligned(base, f.start, k);
    if Shr(e.start, k) == Shr(f.start, k) {
      if e.length < f.length {
        SameBlock(e.start, f.start, k);
      } else {
        SameBlock(f.start, e.start, k);
      }
    }
  }

  /** Granted blocks are no larger than the delegation. */
  lemma BlockLength(list: seq<Assignment>, plen: nat, i: nat)
    requires plen <= 64 && ValidList(list, Networks(plen)) && i < |list| - 1
    ensures plen <= list[i].length <= 64 && 0 <= list[i].start && End(list[i]) <= Networks(plen)
    ensures list[i].start < Networks(plen)
  {
    hide Low;
    assert End(list[i]) <= list[|list| - 1].start;
    Pow2Injective(Span(list[i].length), Span(plen));
  }

  /** Every derived address lies inside the delegated prefix. */
  lemma SubnetInside(raw: Addr, plen: nat, start: nat, id: IfaceId)
    requires 34 <= plen <= 64 && start < Networks(plen)
    ensures MatchIfAddr(SubnetAddress(PrefixAddress(raw, plen), start, id), PrefixAddress(raw, plen), plen)
  {
    hide Low, Shr, Pow2, Value, SubnetAddress;
    var p, k := PrefixAddress(raw, plen), Span(plen);
    var a := SubnetAddress(p, start, id);
    SubnetNetwork(raw, plen, start, id);
    PrefixAligned(raw, plen);
    AddAligned(Network(p), start, k);
    FitsIn(start, k);
    MatchIffTopBits(a, p, plen);
    TopOfNetwork(a, plen);
    TopOfNetwork(p, plen);
  }

  /** No two assignments of a reassignment share a subnet, whatever the interface
      identifiers: the addresses never agree on the shorter of the two prefix lengths. */
  lemma SubnetsDisjoint(raw: Addr, plen: nat, excl: Exclusion, ifs: seq<Iface>, pclass: string,
                        i: nat, j: nat, idI: IfaceId, idJ: IfaceId)
    requires Delegation(plen, excl) && AllMasked(ifs)
    requires i < j < |FinalList(plen, excl, ifs, pclass)| - 1
    ensures var list := FinalList(plen, excl, ifs, pclass);
            var p := PrefixAddress(raw, plen);
            && list[i].length <= 64 && list[j].length <= 64
            && !MatchIfAddr(SubnetAddress(p, list[i].start, idI), SubnetAddress(p, list[j].start, idJ),
                            if list[i].length < list[j].length then list[i].length else list[j].length)
    ensures var list := FinalList(plen, excl, ifs, pclass);
            var p := PrefixAddress(raw, plen);
            MatchIfAddr(SubnetAddress(p, list[i].start, idI), p, plen)
  {
    hide Low, Shr, Pow2, Value, FinalList, SubnetAddress;
    var list, p := FinalList(plen, excl, ifs, pclass), PrefixAddress(raw, plen);
    FinalListValid(plen, excl, ifs, pclass);
    BlockLength(list, plen, i);
    BlockLength(list, plen, j);
    SubnetNetwork(raw, plen, list[i].start, idI);
    SubnetNetwork(raw, plen, list[j].start, idJ);
    PrefixAligned(raw, plen);
    BlocksApart(SubnetAddress(p, list[i].start, idI), SubnetAddress(p, list[j].start, idJ),
                Network(p), plen, list[i], list[j]);
    SubnetInside(raw, plen, list[i].start, idI);
  }

  // ----- the excluded prefix

  /** An excluded prefix inside the delegation, as section 4.2 of RFC 6603 asks. */
  ghost predicate InsideDelegation(raw: Addr, plen: nat, exclAddr: Addr, exclLength: nat)
  {
    34 <= plen <= exclLength <= 64 && MatchIfAddr(exclAddr, PrefixAddress(raw, plen), plen)
  }

  /** The address bits after the excluded prefix's own length, up to bit 63, are clear. */
  ghost predicate ExclusionAligned(exclAddr: Addr, exclLength: nat)
  {
    Aligned(Word1(exclAddr), Span(exclLength))
  }

  lemma {:induction false} LowOfLow(w: int, j: nat, k: nat)
    requires j <= k
    ensures Low(Low(w, k), j) == Low(w, j)
    decreases k
  {
    if j > 0 {
      LowOfLow(w / 2, j - 1, k - 1);
    }
  }

  /** The masked word is where the excluded prefix starts inside the delegation. */
  lemma ExclusionStart(raw: Addr, plen: nat, exclAddr: Addr, exclLength: nat)
    requires InsideDelegation(raw, plen, exclAddr, exclLength)
    ensures ExclusionOf(plen, exclAddr, exclLength) == Exclusion(Low(Word1(exclAddr), Span(plen)), exclLength)
    ensures Network(exclAddr) == Network(PrefixAddress(raw, plen)) + Low(Word1(exclAddr), Span(plen))
    ensures Low(Low(Word1(exclAddr), Span(plen)), Span(exclLength)) == Low(Word1(exclAddr), Span(exclLength))
  {
    hide Low, Shr, Shl, Pow2, Value;
    var p, k := PrefixAddress(raw, plen), Span(plen);
    MaskLow(Word1(exclAddr), k);
    MatchIffTopBits(exclAddr, p, plen);
    TopOfNetwork(exclAddr, plen);
    TopOfNetwork(p, plen);
    Recompose(Network(exclAddr), k);
    Recompose(Network(p), k);
    PrefixAligned(raw, plen);
    LowOfNetwork(exclAddr, k);
    LowOfLow(Word1(exclAddr), Span(exclLength), k);
  }

  lemma AlignedExclusion(raw: Addr, plen: nat, exclAddr: Addr, exclLength: nat)
    requires InsideDelegation(raw, plen, exclAddr, exclLength) && ExclusionAligned(exclAddr, exclLength)
    ensures Delegation(plen, ExclusionOf(plen, exclAddr, exclLength))
  {
    hide Low, Shr, Shl, Pow2, Value;
    ExclusionStart(raw, plen, exclAddr, exclLength);
    var start, j := Low(Word1(exclAddr), Span(plen)), Span(exclLength);
    Pow2Aligned(j, Span(plen));
    AlignedGap(start, Networks(plen), j);
  }

  /** The entry of the excluded block. */
  function ExcludedEntry(plen: nat, exclAddr: Addr, exclLength: nat): Assignment
    requires plen <= 64
  {
    Assignment(And(Word1(exclAddr), Networks(plen) - 1), exclLength, 0, "!excluded")
  }

  /** No subnet of a reassignment meets the excluded prefix. */
  ghost predicate ExclusionRespected(raw: Addr, plen: nat, exclAddr: Addr, exclLength: nat,
                                     ifs: seq<Iface>, pclass: string)
    requires plen <= 64
  {
    forall e: Assignment, id: IfaceId ::
      e in Blocks(FinalList(plen, ExclusionOf(plen, exclAddr, exclLength), ifs, pclass))
      && e != ExcludedEntry(plen, exclAddr, exclLength) && 0 <= e.start && e.length <= 64 && exclLength <= 64
      ==> !MatchIfAddr(SubnetAddress(PrefixAddress(raw, plen), e.start, id), exclAddr,
                       if e.length < exclLength then e.length else exclLength)
  }

  lemma AlignedIsRespected(raw: Addr, plen: nat, exclAddr: Addr, exclLength: nat, ifs: seq<Iface>, pclass: string)
    requires InsideDelegation(raw, plen, exclAddr, exclLength) && ExclusionAligned(exclAddr, exclLength)
    requires AllMasked(ifs)
    ensures ExclusionRespected(raw, plen, exclAddr, exclLength, ifs, pclass)
  {
    hide Low, Shr, Shl, Pow2, Value, FinalList, SubnetAddress, And, MatchIfAddr;
    var excl, x := ExclusionOf(plen, exclAddr, exclLength), ExcludedEntry(plen, exclAddr, exclLength);
    var p := PrefixAddress(raw, plen);
    var list := FinalList(plen, excl, ifs, pclass);
    AlignedExclusion(raw, plen, exclAddr, exclLength);
    ExclusionStart(raw, plen, exclAddr, exclLength);
    FinalListValid(plen, excl, ifs, pclass);
    PrefixAligned(raw, plen);
    assert Blocks(InitialList(plen, excl))[0] == x;
    assert x in Blocks(list);
    var n :| 0 <= n < |Blocks(list)| && Blocks(list)[n] == x;
    forall e: Assignment, id: IfaceId | e in Blocks(list) && e != x
      ensures e.length <= 64 && 0 <= e.start
           && !MatchIfAddr(SubnetAddress(p, e.start, id), exclAddr,
                           if e.length < exclLength then e.length else exclLength)
    {
      var i :| 0 <= i < |Blocks(list)| && Blocks(list)[i] == e;
      BlockLength(list, plen, i);
      SubnetNetwork(raw, plen, e.start, id);
      if i < n {
        assert End(list[i]) <= list[n].start;
        BlocksApart(SubnetAddress(p, e.start, id), exclAddr, Network(p), plen, e, x);
      } else {
        assert End(list[n]) <= list[i].start;
        BlocksApart(exclAddr, SubnetAddress(p, e.start, id), Network(p), plen, x, e);
      }
    }
  }

  /** The interface that gets a /64 in front of an unaligned exclusion, yet inside it. */
  function Intruder(start: nat, exclLength: nat): Iface
  {
    Iface("lan", 64, start - Low(start, Span(exclLength)), 0, [])
  }

  lemma IntruderPlaced(plen: nat, start: nat, exclLength: nat)
    requires plen <= 64 && exclLength <= 64 && !Aligned(start, Span(exclLength))
    requires 0 <= start - Low(start, Span(exclLength))
    ensures var f := Intruder(start, exclLength);
            Request(f, f.hint) in Blocks(FinalList(plen, Exclusion(start, exclLength), [f], ""))
  {
    hide Low, Shr, Shl;
    var f, excl := Intruder(start, exclLength), Exclusion(start, exclLength);
    var list := InitialList(plen, excl);
    assert [f][..0] == [];
    assert Span(64) == 0 && Size(64) == 1;
    assert Search(list, 0, 0, f.hint, 64) == Some(Slot(0, f.hint));
    var p := HintPass([f], "", list);
    HintPassUnfold([f], "", list);
    assert HintPass([], "", list) == Pass(list, []);
    assert Place(list, Request(f, f.hint)) == Some(InsertAt(list, 0, Request(f, f.hint)));
    assert p == Pass(InsertAt(list, 0, Request(f, f.hint)), []);
    LaterRequests([f], "", list);
    InsertBlocks(list, 0, Request(f, f.hint));
  }

  lemma UnalignedIsBroken(raw: Addr, plen: nat, exclAddr: Addr, exclLength: nat)
    requires InsideDelegation(raw, plen, exclAddr, exclLength) && !ExclusionAligned(exclAddr, exclLength)
    ensures exists ifs :: AllMasked(ifs) && !ExclusionRespected(raw, plen, exclAddr, exclLength, ifs, "")
  {
    hide Low, Shr, Shl, Pow2, Value, FinalList, SubnetAddress, And, MatchIfAddr;
    var start, j, p := Low(Word1(exclAddr), Span(plen)), Span(exclLength), PrefixAddress(raw, plen);
    ExclusionStart(raw, plen, exclAddr, exclLength);
    Recompose(start, j);
    ShrNonneg(start, j);
    ShlNonneg(Shr(start, j), j);
    var f := Intruder(start, exclLength);
    IntruderPlaced(plen, start, exclLength);
    var e, id := Request(f, f.hint), [0, 0, 0, 0, 0, 0, 0, 0];
    var a := SubnetAddress(p, e.start, id);
    SubnetNetwork(raw, plen, e.start, id);
    PrefixAligned(raw, plen);
    AlignedDown(Network(p), j, Span(plen));
    AddAligned(Network(p), e.start, j);
    AddAligned(Network(p), start, j);
    Decompose(Shr(start, j), 0, j);
    MatchIffTopBits(a, exclAddr, exclLength);
    TopOfNetwork(a, exclLength);
    TopOfNetwork(exclAddr, exclLength);
    assert MatchIfAddr(a, exclAddr, exclLength);
    ZeroSpanAligned(f.hint);
    assert e != ExcludedEntry(plen, exclAddr, exclLength);
    assert !ExclusionRespected(raw, plen, exclAddr, exclLength, [f], "");
    assert AllMasked([f]);
  }

  lemma ZeroSpanAligned(x: int)
    ensures Aligned(x, Span(64))
  {
  }

  /** The excluded prefix is kept free for every choice of interfaces exactly when its address
      has no bits set between its own length and bit 63. Nothing on the way in checks this. */
  lemma ExclusionRespectedIffAligned(raw: Addr, plen: nat, exclAddr: Addr, exclLength: nat)
    requires InsideDelegation(raw, plen, exclAddr, exclLength)
    ensures (forall ifs, pclass :: AllMasked(ifs) ==>
               ExclusionRespected(raw, plen, exclAddr, exclLength, ifs, pclass))
            <==> ExclusionAligned(exclAddr, exclLength)
  {
    hide Low, Shr, Shl, Pow2, Value, FinalList, ExclusionRespected;
    if ExclusionAligned(exclAddr, exclLength) {
      forall ifs, pclass | AllMasked(ifs)
        ensures ExclusionRespected(raw, plen, exclAddr, exclLength, ifs, pclass)
      {
        AlignedIsRespected(raw, plen, exclAddr, exclLength, ifs, pclass);
      }
    } else {
      UnalignedIsBroken(raw, plen, exclAddr, exclLength);
    }
  }
}
