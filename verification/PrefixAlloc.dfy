/** One placement on the assignment list of a delegated prefix
    (interface_prefix_assign, interface-ip.c).

    An assignment is a block of /64 networks inside the delegated prefix,
    counted from the prefix's first /64. The list is kept in order of block
    start and ends in a sentinel that starts where the prefix ends.
 */
module PrefixAlloc {
  import opened Bits
  import opened Options

  /** `struct device_prefix_assignment`; `start` is the field `assigned`; -1 means "anywhere". */
  datatype Assignment = Assignment(start: int, length: nat, weight: int, name: string)

  /** Where a block goes: in front of which entry, and at which network. */
  datatype Slot = Slot(index: nat, start: int)

  /** Bits of /64 network number that a block of this prefix length spans. */
  function Span(length: nat): nat
  {
    if length <= 64 then 64 - length else 0
  }

  function Size(length: nat): nat
  {
    Pow2(Span(length))
  }

  function End(a: Assignment): int
  {
    a.start + Size(a.length)
  }

  /** Where the gap in front of entry `i` starts. */
  function GapStart(list: seq<Assignment>, i: nat): int
    requires i <= |list|
  {
    if i == 0 then 0 else End(list[i - 1])
  }

  /** A block of `n` networks from `s` lies in the gap in front of entry `i`. */
  predicate Fits(list: seq<Assignment>, i: nat, s: int, n: nat)
    requires i < |list|
  {
    GapStart(list, i) <= s && s + n <= list[i].start
  }

  /** The list: aligned blocks in order, none overlapping the next, then the sentinel. */
  ghost predicate ValidList(list: seq<Assignment>, total: nat)
  {
    && |list| > 0
    && list[|list| - 1].start == total
    && (forall i :: 0 <= i < |list| - 1 ==>
          0 <= list[i].start && list[i].length <= 64 && Aligned(list[i].start, Span(list[i].length)))
    && (forall i, j :: 0 <= i < j < |list| ==> End(list[i]) <= list[j].start)
  }

  /** A block of `n` networks from `s` is inside the prefix and meets no block of the list. */
  ghost predicate FreeBlock(list: seq<Assignment>, total: nat, s: int, n: nat)
  {
    && 0 <= s && s + n <= total
    && forall i :: 0 <= i < |list| - 1 ==> End(list[i]) <= s || s + n <= list[i].start
  }

  ghost predicate Covered(list: seq<Assignment>, x: int)
  {
    exists i :: 0 <= i < |list| - 1 && list[i].start <= x < End(list[i])
  }

  /** What a request may be given: its hint, or any aligned block. */
  predicate Wanted(want: int, length: nat, s: int)
  {
    if want != -1 then s == want else Aligned(s, Span(length))
  }

  /** `(current + asize) & ~asize` */
  function AlignUp(current: nat, length: nat): (r: nat)
    ensures current <= r && Aligned(r, Span(length))
    ensures forall s {:trigger Aligned(s, Span(length))} ::
              current <= s && Aligned(s, Span(length)) ==> r <= s
  {
    RoundUp(current, Span(length));
    AndNot(current + Size(length) - 1, Size(length) - 1)
  }

  /** The block the walk tries in a gap from `current`. */
  function Candidate(want: int, length: nat, current: nat): (s: int)
    ensures Wanted(want, length, s)
    ensures forall t :: Wanted(want, length, t) && current <= t ==> current <= s <= t
  {
    if want != -1 then want else AlignUp(current, length)
  }

  predicate Starts(list: seq<Assignment>)
  {
    forall j :: 0 <= j < |list| ==> 0 <= list[j].start
  }

  /** The walk over the list from entry `i`, with `current` the end of the entry before it. */
  function Search(list: seq<Assignment>, i: nat, current: nat, want: int, length: nat): (r: Option<Slot>)
    requires i <= |list|
    requires forall j :: i <= j < |list| ==> 0 <= list[j].start
    ensures r.Some? ==> i <= r.value.index < |list| && 0 <= r.value.start
    decreases |list| - i
  {
    if i == |list| then None
    else
      var s := Candidate(want, length, current);
      if s >= current && s + Size(length) - 1 < list[i].start then Some(Slot(i, s))
      else Search(list, i + 1, End(list[i]), want, length)
  }

  /** `r` is the first gap from entry `i` on that holds a wanted block, and the lowest such
      block there. */
  ghost predicate FirstGap(list: seq<Assignment>, i: nat, want: int, length: nat, r: Option<Slot>)
    requires i <= |list|
  {
    && (r.None? ==> forall j, t ::
          i <= j < |list| && Wanted(want, length, t) ==> !Fits(list, j, t, Size(length)))
    && (r.Some? ==>
          var k, s := r.value.index, r.value.start;
          && i <= k < |list| && Wanted(want, length, s) && Fits(list, k, s, Size(length))
          && (forall j, t ::
                i <= j < k && Wanted(want, length, t) ==> !Fits(list, j, t, Size(length)))
          && (forall t :: Wanted(want, length, t) && Fits(list, k, t, Size(length)) ==> s <= t))
  }

  /** `r` is the lowest wanted free block, if any wanted block is free. */
  ghost predicate LowestFree(list: seq<Assignment>, total: nat, want: int, length: nat, r: Option<Slot>)
  {
    && (r.None? ==> forall t :: Wanted(want, length, t) ==> !FreeBlock(list, total, t, Size(length)))
    && (r.Some? ==>
          var k, s := r.value.index, r.value.start;
          && k < |list| && Fits(list, k, s, Size(length))
          && Wanted(want, length, s) && FreeBlock(list, total, s, Size(length))
          && (forall t :: Wanted(want, length, t) && t < s ==> !FreeBlock(list, total, t, Size(length))))
  }

  /** The walk stops at the first gap that can hold a wanted block, and takes the lowest there. */
  lemma {:induction false} SearchFirstGap(list: seq<Assignment>, total: nat, i: nat, want: int, length: nat)
    requires ValidList(list, total) && i <= |list|
    ensures 0 <= GapStart(list, i)
    ensures FirstGap(list, i, want, length, Search(list, i, GapStart(list, i), want, length))
    decreases |list| - i
  {
    hide Low, Pow2, AndNot, Wanted, FirstGap;
    if i < |list| {
      var s := Candidate(want, length, GapStart(list, i));
      SearchFirstGap(list, total, i + 1, want, length);
      FirstGapStep(list, i, want, length, s, Search(list, i + 1, End(list[i]), want, length));
    } else {
      FirstGapNone(list, i, want, length);
    }
  }

  lemma FirstGapNone(list: seq<Assignment>, i: nat, want: int, length: nat)
    requires i == |list|
    ensures FirstGap(list, i, want, length, None)
  {
  }

  lemma FirstGapStep(list: seq<Assignment>, i: nat, want: int, length: nat, s: int, r: Option<Slot>)
    requires i < |list| && Wanted(want, length, s)
    requires forall t :: Wanted(want, length, t) && GapStart(list, i) <= t ==> GapStart(list, i) <= s <= t
    requires FirstGap(list, i + 1, want, length, r)
    ensures FirstGap(list, i, want, length, if Fits(list, i, s, Size(length)) then Some(Slot(i, s)) else r)
  {
    hide Wanted, Pow2, Low;
  }

  /** A free block is exactly a block that lies in one gap. */
  lemma FreeIffFits(list: seq<Assignment>, total: nat, s: int, n: nat)
    requires ValidList(list, total) && n > 0
    ensures FreeBlock(list, total, s, n) <==> exists j :: 0 <= j < |list| && Fits(list, j, s, n)
  {
    hide Low, Pow2;
    if FreeBlock(list, total, s, n) {
      var j := 0;
      while list[j].start < s + n
        invariant 0 <= j < |list|
        invariant j > 0 ==> list[j - 1].start < s + n
        decreases |list| - j
      {
        assert j != |list| - 1;
        j := j + 1;
      }
      assert Fits(list, j, s, n);
    }
  }

  /** Completeness of one placement: the walk succeeds exactly when some wanted block is
      free, and then takes the lowest wanted free block. */
  lemma SearchIsLowestFree(list: seq<Assignment>, total: nat, want: int, length: nat)
    requires ValidList(list, total)
    ensures LowestFree(list, total, want, length, Search(list, 0, 0, want, length))
  {
    hide Low, Pow2, Search;
    SearchFirstGap(list, total, 0, want, length);
    var n, r := Size(length), Search(list, 0, 0, want, length);
    forall t ensures FreeBlock(list, total, t, n) <==> exists j :: 0 <= j < |list| && Fits(list, j, t, n) {
      FreeIffFits(list, total, t, n);
    }
    if r.Some? {
      var k, s := r.value.index, r.value.start;
      forall t | Wanted(want, length, t) && FreeBlock(list, total, t, n) ensures s <= t {
        var j :| 0 <= j < |list| && Fits(list, j, t, n);
        GapsAscend(list, total, k, j);
      }
    }
  }

  lemma GapsAscend(list: seq<Assignment>, total: nat, k: nat, j: nat)
    requires ValidList(list, total) && k < |list| && j < |list|
    ensures k < j ==> list[k].start <= GapStart(list, j)
  {
    if k < j - 1 {
      assert End(list[k]) <= list[j - 1].start;
    }
  }

  /** `list_add_tail` of a placed block in front of entry `k`. */
  function InsertAt(list: seq<Assignment>, k: nat, a: Assignment): (r: seq<Assignment>)
    requires k <= |list|
    ensures |r| == |list| + 1
  {
    list[..k] + [a] + list[k..]
  }

  lemma InsertKeepsValid(list: seq<Assignment>, total: nat, k: nat, a: Assignment)
    requires ValidList(list, total) && k < |list|
    requires a.length <= 64 && Aligned(a.start, Span(a.length))
    requires Fits(list, k, a.start, Size(a.length))
    ensures ValidList(InsertAt(list, k, a), total)
  {
    hide Low, Pow2;
    var r := InsertAt(list, k, a);
    forall i, j | 0 <= i < j < |r| ensures End(r[i]) <= r[j].start {
      InsertKeepsOrder(list, k, a, i, j);
    }
    InsertKeepsBlocks(list, total, k, a);
  }

  lemma InsertKeepsOrder(list: seq<Assignment>, k: nat, a: Assignment, i: nat, j: nat)
    requires forall i, j :: 0 <= i < j < |list| ==> End(list[i]) <= list[j].start
    requires k < |list| && Fits(list, k, a.start, Size(a.length))
    requires i < j <= |list|
    ensures End(InsertAt(list, k, a)[i]) <= InsertAt(list, k, a)[j].start
  {
    hide Low, Pow2, Size, Span;
    var i' := if i < k then i else i - 1;
    var j' := if j < k then j else j - 1;
    if j == k {
      if i < k - 1 {
        assert End(list[i]) <= list[k - 1].start;
      }
    } else if i == k {
      if k < j' {
        assert End(list[k]) <= list[j'].start;
      }
    } else {
      assert End(list[i']) <= list[j'].start;
    }
  }

  lemma InsertKeepsBlocks(list: seq<Assignment>, total: nat, k: nat, a: Assignment)
    requires ValidList(list, total) && k < |list|
    requires 0 <= a.start && a.length <= 64 && Aligned(a.start, Span(a.length))
    ensures var r := InsertAt(list, k, a);
            && r[|r| - 1].start == total
            && forall i :: 0 <= i < |r| - 1 ==>
                 0 <= r[i].start && r[i].length <= 64 && Aligned(r[i].start, Span(r[i].length))
  {
    hide Low, Pow2;
    var r := InsertAt(list, k, a);
    forall i | 0 <= i < |r| - 1
      ensures 0 <= r[i].start && r[i].length <= 64 && Aligned(r[i].start, Span(r[i].length))
    {
      assert i != k ==> r[i] == list[if i < k then i else i - 1];
    }
  }

  /** The outcome of one call of interface_prefix_assign: the new list, unless it fails. */
  function Place(list: seq<Assignment>, a: Assignment): (r: Option<seq<Assignment>>)
    requires Starts(list)
    ensures r.Some? ==> |r.value| == |list| + 1 && Starts(r.value)
  {
    var slot := Search(list, 0, 0, a.start, a.length);
    if slot.None? then None
    else Some(InsertAt(list, slot.value.index, a.(start := slot.value.start)))
  }

  /** The entries before the sentinel. */
  function Blocks(list: seq<Assignment>): seq<Assignment>
  {
    if list == [] then [] else list[..|list| - 1]
  }

  /** One placement, seen from outside: it succeeds exactly when a wanted block is free, adds
      the lowest such block, and leaves every other entry where it was. */
  lemma PlaceIsLowestFree(list: seq<Assignment>, total: nat, a: Assignment)
    requires ValidList(list, total) && a.length <= 64 && (a.start != -1 ==> Aligned(a.start, Span(a.length)))
    ensures Starts(list)
    ensures Place(list, a).None? <==>
            forall t :: Wanted(a.start, a.length, t) ==> !FreeBlock(list, total, t, Size(a.length))
    ensures Place(list, a).Some? ==>
            exists s ::
              && Wanted(a.start, a.length, s) && FreeBlock(list, total, s, Size(a.length))
              && (forall t :: Wanted(a.start, a.length, t) && t < s ==> !FreeBlock(list, total, t, Size(a.length)))
              && ValidList(Place(list, a).value, total)
              && (forall e :: e in Blocks(Place(list, a).value) <==> e in Blocks(list) || e == a.(start := s))
  {
    hide Low, Pow2, Search;
    SearchIsLowestFree(list, total, a.start, a.length);
    var slot := Search(list, 0, 0, a.start, a.length);
    if slot.Some? {
      var k, b := slot.value.index, a.(start := slot.value.start);
      InsertKeepsValid(list, total, k, b);
      InsertBlocks(list, k, b);
      assert Wanted(a.start, a.length, b.start);
    }
  }

  lemma InsertBlocks(list: seq<Assignment>, k: nat, a: Assignment)
    requires k < |list|
    ensures Blocks(InsertAt(list, k, a)) == list[..k] + [a] + list[k..|list| - 1]
    ensures forall e :: e in Blocks(InsertAt(list, k, a)) <==> e in Blocks(list) || e == a
  {
    var r := Blocks(InsertAt(list, k, a));
    assert r == list[..k] + [a] + list[k..|list| - 1];
    assert Blocks(list) == list[..k] + list[k..|list| - 1];
  }
}
