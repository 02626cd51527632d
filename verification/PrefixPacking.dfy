/** Exact packing and priority of unhinted interfaces. */
module PrefixPacking {
  import opened Bits
  import opened PrefixAlloc
  import opened PrefixRun
  import opened PrefixSafety
  import opened Options

  // ----- the priority order

  lemma {:induction false} StrCmpAntisymmetric(a: string, b: string)
    ensures StrCmp(a, b) < 0 <==> StrCmp(b, a) > 0
    ensures StrCmp(a, b) == 0 <==> a == b
  {
    if a != [] && b != [] && a[0] == b[0] {
      StrCmpAntisymmetric(a[1..], b[1..]);
      assert a == [a[0]] + a[1..] && b == [b[0]] + b[1..];
    }
  }

  lemma {:induction false} StrCmpTransitive(a: string, b: string, c: string)
    requires StrCmp(a, b) < 0 && StrCmp(b, c) < 0
    ensures StrCmp(a, c) < 0
  {
    if a != [] && a[0] == b[0] && c != [] && b[0] == c[0] {
      StrCmpTransitive(a[1..], b[1..], c[1..]);
    }
  }

  /** `x` is a proper prefix of `y`, or has the smaller character where they first differ. */
  ghost predicate NameBefore(x: string, y: string)
  {
    exists k :: 0 <= k < |y| && DiffersAt(x, y, k)
  }

  ghost predicate DiffersAt(x: string, y: string, k: nat)
    requires k < |y|
  {
    k <= |x| && x[..k] == y[..k] && (k < |x| ==> x[k] < y[k])
  }

  lemma {:induction false} StrCmpIsOrder(x: string, y: string)
    ensures StrCmp(x, y) < 0 <==> NameBefore(x, y)
  {
    if x == [] {
      assert y != [] ==> DiffersAt(x, y, 0);
    } else if y != [] {
      if x[0] != y[0] {
        assert DiffersAt(x, y, 0) <==> x[0] < y[0];
        forall k | 0 < k < |y| ensures !DiffersAt(x, y, k) {
          assert k <= |x| ==> x[..k][0] == x[0] && y[..k][0] == y[0];
        }
      } else {
        StrCmpIsOrder(x[1..], y[1..]);
        forall k | 0 < k < |y| ensures DiffersAt(x, y, k) <==> DiffersAt(x[1..], y[1..], k - 1) {
          assert k <= |x| ==> x[..k] == [x[0]] + x[1..][..k - 1];
          assert y[..k] == [y[0]] + y[1..][..k - 1];
        }
        if NameBefore(x[1..], y[1..]) {
          var k :| 0 <= k < |y[1..]| && DiffersAt(x[1..], y[1..], k);
          assert DiffersAt(x, y, k + 1);
        }
      }
    }
  }

  /** The request for the shorter prefix comes first, of equal ones that with the higher weight, and
      then the name decides. */
  ghost predicate Precedes(a: Assignment, b: Assignment)
  {
    || a.length < b.length
    || (a.length == b.length && a.weight > b.weight)
    || (a.length == b.length && a.weight == b.weight && NameBefore(a.name, b.name))
  }

  lemma CompareIsPrecedes(a: Assignment, b: Assignment)
    ensures Compare(a, b) < 0 <==> Precedes(a, b)
  {
    StrCmpIsOrder(a.name, b.name);
  }

  /** prefix_assignment_cmp is this order, which is strict and total on requests of differently named
      interfaces. */
  lemma CompareIsOrder(a: Assignment, b: Assignment, c: Assignment)
    ensures Compare(a, b) < 0 <==> Precedes(a, b)
    ensures a.name != b.name ==> Compare(a, b) < 0 || Compare(b, a) < 0
    ensures !(Compare(a, b) < 0 && Compare(b, a) < 0)
    ensures Compare(a, b) < 0 && Compare(b, c) < 0 ==> Compare(a, c) < 0
  {
    hide Precedes;
    CompareIsPrecedes(a, b);
    StrCmpAntisymmetric(a.name, b.name);
    StrCmpAntisymmetric(b.name, a.name);
    if StrCmp(a.name, b.name) < 0 && StrCmp(b.name, c.name) < 0 {
      StrCmpTransitive(a.name, b.name, c.name);
    }
  }

  ghost predicate Sorted(later: seq<Assignment>)
  {
    forall i, j :: 0 <= i < j < |later| ==> Compare(later[i], later[j]) < 0
  }

  lemma {:induction false} InsertLaterSorted(later: seq<Assignment>, a: Assignment)
    requires Sorted(later) && forall e :: e in later ==> e.name != a.name
    ensures Sorted(InsertLater(later, a))
  {
    hide Compare;
    if later != [] {
      var r := InsertLater(later, a);
      CompareIsOrder(a, later[0], a);
      if Compare(a, later[0]) < 0 {
        forall i, j | 0 <= i < j < |r| ensures Compare(r[i], r[j]) < 0 {
          if i == 0 && j > 1 {
            CompareIsOrder(a, later[0], later[j - 1]);
          }
        }
      } else {
        InsertLaterSorted(later[1..], a);
        InsertLaterMembers(later[1..], a);
        forall i, j | 0 <= i < j < |r| ensures Compare(r[i], r[j]) < 0 {
          if i == 0 {
            assert r[j] in InsertLater(later[1..], a);
          }
        }
      }
    }
  }

  ghost predicate RequestOf(a: Assignment, ifs: seq<Iface>, pclass: string)
  {
    exists f :: f in ifs && Eligible(f, pclass) && a == Request(f, -1)
  }

  /** Waiting requests carry the names of interfaces already seen. */
  lemma {:induction false} LaterNames(ifs: seq<Iface>, pclass: string, list: seq<Assignment>)
    requires Starts(list)
    ensures forall a :: a in HintPass(ifs, pclass, list).later ==> RequestOf(a, ifs, pclass)
  {
    hide InsertLater;
    if ifs != [] {
      var n := |ifs| - 1;
      LaterNames(ifs[..n], pclass, list);
      InsertLaterMembers(HintPass(ifs[..n], pclass, list).later, Request(ifs[n], -1));
      assert ifs[n] in ifs && forall f :: f in ifs[..n] ==> f in ifs;
    }
  }

  /** Interfaces are served in strict priority order. */
  lemma LaterSorted(ifs: seq<Iface>, pclass: string, list: seq<Assignment>)
    requires Starts(list) && DistinctNames(ifs)
    ensures Sorted(HintPass(ifs, pclass, list).later)
    ensures var later := HintPass(ifs, pclass, list).later;
            forall i, j :: 0 <= i < j < |later| ==> Precedes(later[i], later[j])
  {
    hide InsertLater, Compare, Precedes;
    var later := HintPass(ifs, pclass, list).later;
    LaterInOrder(ifs, pclass, list);
    forall i, j | 0 <= i < j < |later| ensures Precedes(later[i], later[j]) {
      CompareIsPrecedes(later[i], later[j]);
    }
  }

  lemma {:induction false} LaterInOrder(ifs: seq<Iface>, pclass: string, list: seq<Assignment>)
    requires Starts(list) && DistinctNames(ifs)
    ensures Sorted(HintPass(ifs, pclass, list).later)
  {
    hide InsertLater, Compare, Precedes;
    if ifs != [] {
      var n := |ifs| - 1;
      LaterInOrder(ifs[..n], pclass, list);
      LaterNames(ifs[..n], pclass, list);
      InsertLaterSorted(HintPass(ifs[..n], pclass, list).later, Request(ifs[n], -1));
    }
  }

  // ----- sums of block sizes

  function Sum(list: seq<Assignment>): nat
  {
    if list == [] then 0 else Sum(list[..|list| - 1]) + Size(list[|list| - 1].length)
  }

  lemma {:induction false} SumConcat(a: seq<Assignment>, b: seq<Assignment>)
    ensures Sum(a + b) == Sum(a) + Sum(b)
  {
    hide Size;
    if b == [] {
      assert a + b == a;
    } else {
      SumConcat(a, b[..|b| - 1]);
      assert (a + b)[..|a + b| - 1] == a + b[..|b| - 1];
    }
  }

  lemma SumSplit(list: seq<Assignment>, k: nat)
    requires k < |list|
    ensures Sum(list) == Sum(list[..k] + list[k + 1..]) + Size(list[k].length)
  {
    hide Size, Sum;
    var a, x, b := list[..k], [list[k]], list[k + 1..];
    assert list == a + x + b;
    SumConcat(a + x, b);
    SumConcat(a, x);
    SumConcat(a, b);
    SumSingle(list[k]);
  }

  lemma SumSingle(a: Assignment)
    ensures Sum([a]) == Size(a.length)
  {
    assert [a][..0] == [];
  }

  lemma {:induction false} InsertLaterSum(later: seq<Assignment>, a: Assignment)
    ensures Sum(InsertLater(later, a)) == Sum(later) + Size(a.length)
  {
    hide Size, Compare;
    assert [a][..0] == [];
    if later == [] {
    } else if Compare(a, later[0]) < 0 {
      SumConcat([a], later);
    } else {
      InsertLaterSum(later[1..], a);
      SumConcat([later[0]], later[1..]);
      SumConcat([later[0]], InsertLater(later[1..], a));
      assert later == [later[0]] + later[1..];
    }
  }

  /** The requests of the eligible interfaces, in list order. */
  function EligibleRequests(ifs: seq<Iface>, pclass: string): seq<Assignment>
  {
    if ifs == [] then []
    else
      var r := EligibleRequests(ifs[..|ifs| - 1], pclass);
      var f := ifs[|ifs| - 1];
      if Eligible(f, pclass) then r + [Request(f, -1)] else r
  }

  ghost predicate NoHints(ifs: seq<Iface>)
  {
    forall f :: f in ifs ==> f.hint == -1
  }

  /** Without hints the first loop places nothing and only sorts the requests. */
  lemma {:induction false} NoHintPass(ifs: seq<Iface>, pclass: string, list: seq<Assignment>)
    requires Starts(list) && NoHints(ifs)
    ensures HintPass(ifs, pclass, list) == Pass(list, SortRequests(EligibleRequests(ifs, pclass)))
  {
    hide Size, Place, InsertLater;
    if ifs != [] {
      var n := |ifs| - 1;
      NoHintPass(ifs[..n], pclass, list);
      var e, f := EligibleRequests(ifs[..n], pclass), ifs[n];
      assert f in ifs;
      assert (e + [Request(f, -1)])[..|e|] == e;
    }
  }

  /** Requests inserted one by one into the tree. */
  function SortRequests(r: seq<Assignment>): seq<Assignment>
  {
    if r == [] then [] else InsertLater(SortRequests(r[..|r| - 1]), r[|r| - 1])
  }

  lemma {:induction false} SortRequestsKeeps(r: seq<Assignment>)
    ensures Sum(SortRequests(r)) == Sum(r)
    ensures multiset(SortRequests(r)) == multiset(r)
  {
    hide Size, InsertLater;
    if r != [] {
      var n := |r| - 1;
      SortRequestsKeeps(r[..n]);
      InsertLaterSum(SortRequests(r[..n]), r[n]);
      assert r == r[..n] + [r[n]];
    }
  }

  // ----- contiguous layout

  /** The requests laid end to end from the start of the prefix. */
  function Layout(r: seq<Assignment>): (l: seq<Assignment>)
    ensures |l| == |r|
  {
    if r == [] then []
    else Layout(r[..|r| - 1]) + [r[|r| - 1].(start := Sum(r[..|r| - 1]))]
  }

  lemma {:induction false} LayoutAt(r: seq<Assignment>, i: nat)
    requires i < |r|
    ensures Layout(r)[i] == r[i].(start := Sum(r[..i]))
    ensures End(Layout(r)[i]) == Sum(r[..i + 1])
  {
    hide Size;
    var n := |r| - 1;
    if i < n {
      LayoutAt(r[..n], i);
      assert r[..n][..i] == r[..i] && r[..n][..i + 1] == r[..i + 1];
    } else {
      assert r[..i + 1] == r;
    }
  }

  /** Each running sum of block sizes is a multiple of the next, smaller or equal, block size. */
  lemma {:induction false} RunningSumAligned(r: seq<Assignment>, length: nat)
    requires forall a :: a in r ==> a.length <= length
    ensures Aligned(Sum(r), Span(length))
  {
    hide Low, Pow2;
    var k := Span(length);
    if r == [] {
      Decompose(0, 0, k);
      Recompose(0, k);
      ZeroAligned(k);
    } else {
      var n := |r| - 1;
      RunningSumAligned(r[..n], length);
      assert r[n] in r && k <= Span(r[n].length);
      Pow2Aligned(k, Span(r[n].length));
      AddAligned(Sum(r[..n]), Size(r[n].length), k);
    }
  }

  lemma {:induction false} ZeroAligned(k: nat)
    ensures Aligned(0, k)
  {
    if k > 0 {
      ZeroAligned(k - 1);
    }
  }

  /** A list of blocks laid end to end has room only at its end. */
  lemma LayoutPlace(r: seq<Assignment>, plen: nat, a: Assignment)
    requires a.start == -1 && a.length <= 64
    requires forall e :: e in r ==> e.length <= a.length
    requires Sum(r) + Size(a.length) <= Networks(plen)
    requires ValidList(Layout(r) + [Sentinel(plen)], Networks(plen))
    ensures Starts(Layout(r) + [Sentinel(plen)])
    ensures Place(Layout(r) + [Sentinel(plen)], a) == Some(Layout(r + [a]) + [Sentinel(plen)])
  {
    hide Low, Pow2, Aligned, Search, Sum, Size, Networks, FirstGap;
    var list, m, s := Layout(r) + [Sentinel(plen)], |r|, Sum(r);
    SearchFirstGap(list, Networks(plen), 0, -1, a.length);
    RunningSumAligned(r, a.length);
    LayoutGaps(r, plen);
    SizePositive(a.length);
    OnlyLastGap(list, a.length, s, Search(list, 0, 0, -1, a.length));
    var b := a.(start := s);
    assert (r + [a])[..m] == r;
    assert Layout(r + [a]) == Layout(r) + [b];
    assert InsertAt(list, m, b) == Layout(r) + [b] + [Sentinel(plen)];
  }

  lemma OnlyLastGap(list: seq<Assignment>, length: nat, s: int, slot: Option<Slot>)
    requires list != [] && FirstGap(list, 0, -1, length, slot)
    requires forall i :: 0 <= i < |list| - 1 ==> GapStart(list, i) == list[i].start
    requires GapStart(list, |list| - 1) == s && s + Size(length) <= list[|list| - 1].start
    requires Aligned(s, Span(length)) && Size(length) >= 1
    ensures slot == Some(Slot(|list| - 1, s))
  {
    hide Low, Pow2, Aligned, Size, Span;
    assert Wanted(-1, length, s) && Fits(list, |list| - 1, s, Size(length));
  }

  lemma SizePositive(length: nat)
    ensures Size(length) >= 1
  {
  }

  lemma LayoutGaps(r: seq<Assignment>, plen: nat)
    ensures var list := Layout(r) + [Sentinel(plen)];
            GapStart(list, |r|) == Sum(r) && forall i :: 0 <= i < |r| ==> GapStart(list, i) == list[i].start
  {
    hide Size;
    var list := Layout(r) + [Sentinel(plen)];
    if r != [] {
      LayoutAt(r, |r| - 1);
      assert r[..|r| - 1 + 1] == r;
    }
    forall i | 0 <= i < |r| ensures GapStart(list, i) == list[i].start {
      LayoutAt(r, i);
      if i > 0 {
        LayoutAt(r, i - 1);
      }
    }
  }

  /** The second loop lays sorted requests end to end while their sizes fit. */
  lemma {:induction false} SortedLayout(plen: nat, later: seq<Assignment>)
    requires Requests(later) && Sorted(later) && Sum(later) <= Networks(plen)
    ensures LaterPass([Sentinel(plen)], later) == Layout(later) + [Sentinel(plen)]
  {
    hide Low, Pow2, Size, Place, ValidList, LaterPass, Layout;
    var list := [Sentinel(plen)];
    LaterPassUnfold(list, later);
    if later == [] {
    } else {
      var n := |later| - 1;
      var r, a := later[..n], later[n];
      SortedLayout(plen, r);
      SentinelValid(plen);
      LaterPassValid(list, Networks(plen), r);
      forall e | e in r ensures e.length <= a.length {
        var i :| 0 <= i < n && later[i] == e;
        assert Compare(later[i], later[n]) < 0;
      }
      LayoutPlace(r, plen, a);
      assert r + [a] == later;
    }
  }

  lemma LaterPassUnfold(list: seq<Assignment>, later: seq<Assignment>)
    requires Starts(list) && Requests(later)
    ensures LaterPass(list, later)
         == if later == [] then list
            else LaterStep(LaterPass(list, later[..|later| - 1]), later[|later| - 1])
  {
  }

  lemma SentinelValid(plen: nat)
    ensures ValidList([Sentinel(plen)], Networks(plen))
  {
  }

  /** Disjoint blocks inside the prefix cannot add up to more than the prefix. */
  lemma {:induction false} SumOfBlocks(list: seq<Assignment>, total: nat, i: nat)
    requires ValidList(list, total) && i < |list|
    ensures Sum(list[..i]) <= GapStart(list, i) <= total
  {
    hide Low, Pow2, Size, Span;
    if i > 0 {
      SumOfBlocks(list, total, i - 1);
      assert list[..i][..i - 1] == list[..i - 1];
      assert End(list[i - 1]) <= list[|list| - 1].start;
    }
  }

  /** Requests with distinct names that each hold a block of their full size fit in the blocks. */
  lemma {:induction false} SumOfServed(requests: seq<Assignment>, blocks: seq<Assignment>)
    requires forall i, j :: 0 <= i < j < |requests| ==> requests[i].name != requests[j].name
    requires forall a :: a in requests ==> exists e :: e in blocks && e.name == a.name && e.length == a.length
    ensures Sum(requests) <= Sum(blocks)
  {
    hide Size;
    if requests != [] {
      var n := |requests| - 1;
      var a := requests[n];
      var e :| e in blocks && e.name == a.name && e.length == a.length;
      var k :| 0 <= k < |blocks| && blocks[k] == e;
      var rest := blocks[..k] + blocks[k + 1..];
      SumSplit(blocks, k);
      forall b | b in requests[..n]
        ensures exists d :: d in rest && d.name == b.name && d.length == b.length
      {
        var d :| d in blocks && d.name == b.name && d.length == b.length;
        var j :| 0 <= j < |blocks| && blocks[j] == d;
        assert j != k;
        assert d == rest[if j < k then j else j - 1];
      }
      SumOfServed(requests[..n], rest);
    }
  }

  lemma {:induction false} EligibleRequestsAre(ifs: seq<Iface>, pclass: string)
    ensures forall a :: a in EligibleRequests(ifs, pclass) <==> RequestOf(a, ifs, pclass)
  {
    if ifs != [] {
      var n := |ifs| - 1;
      EligibleRequestsAre(ifs[..n], pclass);
      forall a ensures a in EligibleRequests(ifs, pclass) <==> RequestOf(a, ifs, pclass) {
        if RequestOf(a, ifs, pclass) {
          var f :| f in ifs && Eligible(f, pclass) && a == Request(f, -1);
          assert f in ifs[..n] ==> RequestOf(a, ifs[..n], pclass);
        } else {
          assert !RequestOf(a, ifs[..n], pclass) && ifs[n] in ifs;
        }
      }
    }
  }

  lemma {:induction false} EligibleRequestsDistinct(ifs: seq<Iface>, pclass: string)
    requires DistinctNames(ifs)
    ensures forall i, j :: 0 <= i < j < |EligibleRequests(ifs, pclass)| ==>
              EligibleRequests(ifs, pclass)[i].name != EligibleRequests(ifs, pclass)[j].name
  {
    if ifs != [] {
      var n := |ifs| - 1;
      EligibleRequestsDistinct(ifs[..n], pclass);
      EligibleRequestsAre(ifs[..n], pclass);
      var r := EligibleRequests(ifs[..n], pclass);
      forall i | 0 <= i < |r| ensures r[i].name != ifs[n].name {
        assert r[i] in r;
        var f :| f in ifs[..n] && Eligible(f, pclass) && r[i] == Request(f, -1);
      }
    }
  }

  /** `f` holds a block of exactly the size it asked for. */
  ghost predicate ServedInFull(list: seq<Assignment>, f: Iface)
  {
    exists e :: e in Blocks(list) && e.name == f.name && e.length == f.length
  }

  ghost predicate AllServedInFull(list: seq<Assignment>, ifs: seq<Iface>, pclass: string)
  {
    forall f :: f in ifs && Eligible(f, pclass) ==> ServedInFull(list, f)
  }

  /** Exact packing: without hints and exclusion, if the requested sizes add up to at most the
      prefix, the blocks are the requests in priority order, laid end to end from 0. */
  lemma ExactPacking(plen: nat, ifs: seq<Iface>, pclass: string)
    requires 34 <= plen <= 64 && NoHints(ifs) && DistinctNames(ifs)
    requires Sum(EligibleRequests(ifs, pclass)) <= Networks(plen)
    ensures exists r: seq<Assignment> ::
              && multiset(r) == multiset(EligibleRequests(ifs, pclass)) && Sorted(r)
              && Blocks(FinalList(plen, NoExclusion, ifs, pclass)) == Layout(r)
    ensures AllServedInFull(FinalList(plen, NoExclusion, ifs, pclass), ifs, pclass)
  {
    hide Low, Pow2, Size, LaterPass, Layout, Compare, HintPass, EligibleRequests;
    var list := [Sentinel(plen)];
    NoHintPass(ifs, pclass, list);
    SortRequestsKeeps(EligibleRequests(ifs, pclass));
    LaterRequests(ifs, pclass, list);
    LaterSorted(ifs, pclass, list);
    var r := HintPass(ifs, pclass, list).later;
    SortedLayout(plen, r);
    EligibleRequestsAre(ifs, pclass);
    assert Blocks(FinalList(plen, NoExclusion, ifs, pclass)) == Layout(r);
    forall f | f in ifs && Eligible(f, pclass)
      ensures ServedInFull(FinalList(plen, NoExclusion, ifs, pclass), f)
    {
      assert RequestOf(Request(f, -1), ifs, pclass);
      assert Request(f, -1) in multiset(r);
      var i :| 0 <= i < |r| && r[i] == Request(f, -1);
      LayoutAt(r, i);
      assert Layout(r)[i] in Blocks(FinalList(plen, NoExclusion, ifs, pclass));
    }
  }

  /** Without hints and exclusion, everybody gets the full requested size exactly when the
      requested sizes add up to at most the prefix. */
  lemma FullServiceIffFits(plen: nat, ifs: seq<Iface>, pclass: string)
    requires 34 <= plen <= 64 && NoHints(ifs) && DistinctNames(ifs)
    ensures AllServedInFull(FinalList(plen, NoExclusion, ifs, pclass), ifs, pclass)
            <==> Sum(EligibleRequests(ifs, pclass)) <= Networks(plen)
  {
    hide Low, Pow2, Size, FinalList, Sum, EligibleRequests;
    if Sum(EligibleRequests(ifs, pclass)) <= Networks(plen) {
      ExactPacking(plen, ifs, pclass);
    }
    var list := FinalList(plen, NoExclusion, ifs, pclass);
    if AllServedInFull(list, ifs, pclass) {
      EligibleRequestsDistinct(ifs, pclass);
      EligibleRequestsAre(ifs, pclass);
      SumOfServed(EligibleRequests(ifs, pclass), Blocks(list));
      FinalListValid(plen, NoExclusion, ifs, pclass);
      SumOfBlocks(list, Networks(plen), |list| - 1);
    }
  }
}
