/** What every reassignment of a delegated prefix guarantees: the list stays a sorted,
    disjoint, aligned cover of the prefix, and nobody goes without while a /64 is free. */
module PrefixSafety {
  import opened Bits
  import opened PrefixAlloc
  import opened PrefixRun
  import opened Options

  /** The delegations the int32 arithmetic of the daemon can represent, with an exclusion
      that is a whole block of the delegation. */
  ghost predicate Delegation(plen: nat, excl: Exclusion)
  {
    && 34 <= plen <= 64
    && (excl.Exclusion? ==>
          && plen <= excl.length <= 64
          && Aligned(excl.start, Span(excl.length))
          && excl.start + Size(excl.length) <= Networks(plen))
  }

  /** Hints are masked to the interface's length, as interface_alloc leaves them. */
  ghost predicate Masked(f: Iface)
  {
    f.hint == -1 || (f.length <= 64 && Aligned(f.hint, Span(f.length)))
  }

  ghost predicate AllMasked(ifs: seq<Iface>)
  {
    forall f :: f in ifs ==> Masked(f)
  }

  ghost predicate DistinctNames(ifs: seq<Iface>)
  {
    forall i, j :: 0 <= i < j < |ifs| ==> ifs[i].name != ifs[j].name
  }

  /** No block of `list` was moved or removed on the way to `list'`. */
  ghost predicate Extends(list: seq<Assignment>, list': seq<Assignment>)
  {
    forall e :: e in Blocks(list) ==> e in Blocks(list')
  }

  ghost predicate AllCovered(list: seq<Assignment>, total: nat)
  {
    forall x :: 0 <= x < total ==> Covered(list, x)
  }

  /** Some aligned block of this length is free. */
  ghost predicate Feasible(list: seq<Assignment>, total: nat, length: nat)
  {
    exists t :: Aligned(t, Span(length)) && FreeBlock(list, total, t, Size(length))
  }

  lemma InitialValid(plen: nat, excl: Exclusion)
    requires Delegation(plen, excl)
    ensures ValidList(InitialList(plen, excl), Networks(plen))
  {
    hide Low, Pow2;
  }

  /** `list'` is `list` plus `a` at the lowest aligned free block of length `length`, and no
      shorter length from the requested one on had any. */
  ghost predicate LeastGrant(list: seq<Assignment>, total: nat, a: Assignment, length: nat, s: int,
                             list': seq<Assignment>)
  {
    && a.length <= length <= 64
    && (forall l :: a.length <= l < length ==> !Feasible(list, total, l))
    && Aligned(s, Span(length)) && FreeBlock(list, total, s, Size(length))
    && (forall t :: Aligned(t, Span(length)) && t < s ==> !FreeBlock(list, total, t, Size(length)))
    && ValidList(list', total)
    && (forall e :: e in Blocks(list') <==> e in Blocks(list) || e == a.(start := s, length := length))
  }

  /** The retry loop gives an unhinted request the least feasible length, at the lowest
      address, and fails only when not even a /64 is free. */
  lemma {:induction false} ShrinkIsLeast(list: seq<Assignment>, total: nat, a: Assignment)
    requires ValidList(list, total) && a.length <= 64 && a.start == -1
    ensures Starts(list)
    ensures ShrinkPlace(list, a).None? <==> forall l :: a.length <= l <= 64 ==> !Feasible(list, total, l)
    ensures ShrinkPlace(list, a).Some? ==>
            exists length, s :: LeastGrant(list, total, a, length, s, ShrinkPlace(list, a).value)
    decreases 64 - a.length
  {
    hide Low, Pow2, Place, FreeBlock, ValidList;
    PlaceIsLowestFree(list, total, a);
    assert Place(list, a).None? <==> !Feasible(list, total, a.length);
    if Place(list, a).Some? {
      var s :| && Wanted(a.start, a.length, s) && FreeBlock(list, total, s, Size(a.length))
               && (forall t :: Wanted(a.start, a.length, t) && t < s ==> !FreeBlock(list, total, t, Size(a.length)))
               && ValidList(Place(list, a).value, total)
               && (forall e :: e in Blocks(Place(list, a).value) <==> e in Blocks(list) || e == a.(start := s));
      forall t | Aligned(t, Span(a.length)) && t < s ensures !FreeBlock(list, total, t, Size(a.length)) {
        assert Wanted(a.start, a.length, t);
      }
      assert a.(start := s) == a.(start := s, length := a.length);
      assert LeastGrant(list, total, a, a.length, s, Place(list, a).value);
    } else if a.length < 64 {
      var b := a.(length := a.length + 1);
      ShrinkIsLeast(list, total, b);
      if ShrinkPlace(list, b).Some? {
        var length, s :| LeastGrant(list, total, b, length, s, ShrinkPlace(list, b).value);
        assert a.(start := s, length := length) == b.(start := s, length := length);
        assert LeastGrant(list, total, a, length, s, ShrinkPlace(list, a).value);
      }
    }
  }

  lemma NoneFreeMeansCovered(list: seq<Assignment>, total: nat)
    requires ValidList(list, total) && !Feasible(list, total, 64)
    ensures AllCovered(list, total)
  {
    assert Span(64) == 0 && Size(64) == 1;
    forall x | 0 <= x < total ensures Covered(list, x) {
      assert Aligned(x, 0);
      assert !FreeBlock(list, total, x, 1);
    }
  }

  lemma PlaceNeedsStarts(list: seq<Assignment>, total: nat)
    requires ValidList(list, total)
    ensures Starts(list)
  {
  }

  lemma HintStepValid(p: Pass, total: nat, f: Iface, pclass: string)
    requires ValidList(p.list, total) && Masked(f)
    ensures Starts(p.list) && ValidList(HintStep(p, f, pclass).list, total)
    ensures Extends(p.list, HintStep(p, f, pclass).list)
  {
    hide Low, Pow2, Place, FreeBlock, ValidList;
    PlaceNeedsStarts(p.list, total);
    if Eligible(f, pclass) && f.hint != -1 {
      PlaceIsLowestFree(p.list, total, Request(f, f.hint));
    }
  }

  lemma {:induction false} HintPassValid(ifs: seq<Iface>, pclass: string, list: seq<Assignment>, total: nat)
    requires ValidList(list, total) && AllMasked(ifs)
    ensures Starts(list)
    ensures ValidList(HintPass(ifs, pclass, list).list, total)
    ensures Extends(list, HintPass(ifs, pclass, list).list)
  {
    hide Low, Pow2, HintStep;
    if ifs != [] {
      HintPassValid(ifs[..|ifs| - 1], pclass, list, total);
      HintStepValid(HintPass(ifs[..|ifs| - 1], pclass, list), total, ifs[|ifs| - 1], pclass);
    }
  }

  lemma LaterStepValid(list: seq<Assignment>, total: nat, a: Assignment)
    requires ValidList(list, total) && a.length <= 64 && a.start == -1
    ensures Starts(list) && ValidList(LaterStep(list, a), total)
    ensures Extends(list, LaterStep(list, a))
    ensures (exists e :: e in Blocks(LaterStep(list, a)) && e.name == a.name && a.length <= e.length <= 64)
            || (LaterStep(list, a) == list && AllCovered(list, total))
  {
    hide Low, Pow2, FreeBlock, ValidList, ShrinkPlace, Feasible, AllCovered;
    ShrinkIsLeast(list, total, a);
    if ShrinkPlace(list, a).Some? {
      var length, s :| LeastGrant(list, total, a, length, s, ShrinkPlace(list, a).value);
      assert a.(start := s, length := length) in Blocks(LaterStep(list, a));
    } else {
      NoneFreeMeansCovered(list, total);
    }
  }

  lemma {:induction false} LaterPassValid(list: seq<Assignment>, total: nat, later: seq<Assignment>)
    requires ValidList(list, total) && Requests(later)
    ensures Starts(list)
    ensures ValidList(LaterPass(list, later), total)
    ensures Extends(list, LaterPass(list, later))
  {
    hide Low, Pow2, LaterStep;
    if later != [] {
      LaterPassValid(list, total, later[..|later| - 1]);
      LaterStepValid(LaterPass(list, later[..|later| - 1]), total, later[|later| - 1]);
    }
  }

  /** Safety: after any reassignment the blocks are aligned, pairwise disjoint and inside the
      delegated prefix, and the excluded block is still there as one of them. */
  lemma FinalListValid(plen: nat, excl: Exclusion, ifs: seq<Iface>, pclass: string)
    requires Delegation(plen, excl) && AllMasked(ifs)
    ensures ValidList(FinalList(plen, excl, ifs, pclass), Networks(plen))
    ensures Extends(InitialList(plen, excl), FinalList(plen, excl, ifs, pclass))
  {
    hide Low, Pow2, ValidList, LaterPass, HintPass;
    var list := InitialList(plen, excl);
    InitialValid(plen, excl);
    HintPassValid(ifs, pclass, list, Networks(plen));
    LaterRequests(ifs, pclass, list);
    var p := HintPass(ifs, pclass, list);
    LaterPassValid(p.list, Networks(plen), p.later);
  }

  // ----- who is served

  /** `f` holds a block at least as long a prefix as it asked for. */
  ghost predicate Served(list: seq<Assignment>, name: string, length: nat)
  {
    exists e :: e in Blocks(list) && e.name == name && length <= e.length <= 64
  }

  ghost predicate InLater(later: seq<Assignment>, f: Iface)
  {
    Request(f, -1) in later
  }

  lemma CoverExtends(list: seq<Assignment>, list': seq<Assignment>, total: nat)
    requires AllCovered(list, total) && Extends(list, list')
    ensures AllCovered(list', total)
  {
    hide Low, Pow2, End;
    forall x | 0 <= x < total ensures Covered(list', x) {
      assert Covered(list, x);
      var i :| 0 <= i < |list| - 1 && list[i].start <= x < End(list[i]);
      assert Blocks(list)[i] == list[i];
      assert list[i] in Blocks(list');
      var j :| 0 <= j < |Blocks(list')| && Blocks(list')[j] == list[i];
      assert list'[j] == list[i];
    }
  }

  /** After the first loop, every eligible interface is served or waiting. */
  lemma {:induction false} HintPassServes(ifs: seq<Iface>, pclass: string, list: seq<Assignment>, total: nat, f: Iface)
    requires ValidList(list, total) && AllMasked(ifs) && f in ifs && Eligible(f, pclass)
    ensures Starts(list)
    ensures Served(HintPass(ifs, pclass, list).list, f.name, f.length) || InLater(HintPass(ifs, pclass, list).later, f)
  {
    hide Low, Pow2, Place, FreeBlock, ValidList, HintPass;
    var n := |ifs| - 1;
    HintPassValid(ifs[..n], pclass, list, total);
    var p := HintPass(ifs[..n], pclass, list);
    HintStepValid(p, total, ifs[n], pclass);
    HintPassUnfold(ifs, pclass, list);
    InsertLaterMembers(p.later, Request(ifs[n], -1));
    if f in ifs[..n] {
      HintPassServes(ifs[..n], pclass, list, total, f);
    } else {
      assert f == ifs[n];
      if f.hint != -1 {
        PlaceIsLowestFree(p.list, total, Request(f, f.hint));
      }
    }
  }

  lemma HintPassUnfold(ifs: seq<Iface>, pclass: string, list: seq<Assignment>)
    requires Starts(list) && ifs != []
    ensures HintPass(ifs, pclass, list)
         == HintStep(HintPass(ifs[..|ifs| - 1], pclass, list), ifs[|ifs| - 1], pclass)
  {
  }

  lemma {:induction false} LaterPassServes(list: seq<Assignment>, total: nat, later: seq<Assignment>, a: Assignment)
    requires ValidList(list, total) && Requests(later) && a in later
    ensures Starts(list)
    ensures Served(LaterPass(list, later), a.name, a.length) || AllCovered(LaterPass(list, later), total)
  {
    hide Low, Pow2, ValidList, LaterStep, AllCovered;
    var n := |later| - 1;
    LaterPassValid(list, total, later[..n]);
    var l := LaterPass(list, later[..n]);
    LaterStepValid(l, total, later[n]);
    if a == later[n] {
    } else {
      LaterPassServes(list, total, later[..n], a);
      if AllCovered(l, total) {
        CoverExtends(l, LaterStep(l, later[n]), total);
      }
    }
  }

  /** Completeness: an interface that asks for a prefix between /48 and /64, and for any class or that of
      the delegation, goes without a block only when every /64 of the delegated prefix is covered. */
  lemma UnservedOnlyIfFull(plen: nat, excl: Exclusion, ifs: seq<Iface>, pclass: string, f: Iface)
    requires Delegation(plen, excl) && AllMasked(ifs) && f in ifs
    requires 48 <= f.length <= 64 && (f.classes == [] || pclass in f.classes)
    ensures Served(FinalList(plen, excl, ifs, pclass), f.name, f.length)
            || AllCovered(FinalList(plen, excl, ifs, pclass), Networks(plen))
  {
    hide Low, Pow2, ValidList, LaterPass, HintPass, AllCovered;
    var list, total := InitialList(plen, excl), Networks(plen);
    InitialValid(plen, excl);
    HintPassValid(ifs, pclass, list, total);
    HintPassServes(ifs, pclass, list, total, f);
    LaterRequests(ifs, pclass, list);
    var p := HintPass(ifs, pclass, list);
    LaterPassValid(p.list, total, p.later);
    if InLater(p.later, f) {
      LaterPassServes(p.list, total, p.later, Request(f, -1));
    }
  }

  /** A hint is granted exactly when its block is free at the interface's turn, and then
      kept to the end. */
  lemma HintGrantedIffFree(plen: nat, excl: Exclusion, ifs: seq<Iface>, pclass: string, i: nat)
    requires Delegation(plen, excl) && AllMasked(ifs) && i < |ifs|
    requires Eligible(ifs[i], pclass) && ifs[i].hint != -1
    ensures var f := ifs[i];
            FreeBlock(HintPass(ifs[..i], pclass, InitialList(plen, excl)).list, Networks(plen), f.hint, Size(f.length))
            ==> Request(f, f.hint) in Blocks(FinalList(plen, excl, ifs, pclass))
    ensures var f := ifs[i];
            !FreeBlock(HintPass(ifs[..i], pclass, InitialList(plen, excl)).list, Networks(plen), f.hint, Size(f.length))
            ==> InLater(HintPass(ifs[..i + 1], pclass, InitialList(plen, excl)).later, f)
  {
    hide Low, Pow2, ValidList, LaterPass, HintPass, Place, FreeBlock, Extends;
    var list, total, f := InitialList(plen, excl), Networks(plen), ifs[i];
    InitialValid(plen, excl);
    HintPassValid(ifs[..i], pclass, list, total);
    var p := HintPass(ifs[..i], pclass, list);
    assert f in ifs && Masked(f);
    PlaceIsLowestFree(p.list, total, Request(f, f.hint));
    assert ifs[..i + 1][..i] == ifs[..i];
    HintPassUnfold(ifs[..i + 1], pclass, list);
    InsertLaterMembers(p.later, Request(f, -1));
    if FreeBlock(p.list, total, f.hint, Size(f.length)) {
      assert Wanted(f.hint, f.length, f.hint);
      HintPassExtends(ifs, pclass, list, total, i + 1);
      assert Request(f, f.hint) in Blocks(HintPass(ifs[..i + 1], pclass, list).list);
      FinalExtends(plen, excl, ifs, pclass, i + 1);
      ExtendsKeeps(HintPass(ifs[..i + 1], pclass, list).list, FinalList(plen, excl, ifs, pclass), Request(f, f.hint));
    }
  }

  lemma ExtendsKeeps(list: seq<Assignment>, list': seq<Assignment>, e: Assignment)
    requires Extends(list, list') && e in Blocks(list)
    ensures e in Blocks(list')
  {
  }

  lemma {:induction false} HintPassExtends(ifs: seq<Iface>, pclass: string, list: seq<Assignment>, total: nat, i: nat)
    requires ValidList(list, total) && AllMasked(ifs) && i <= |ifs|
    ensures Starts(list)
    ensures Extends(HintPass(ifs[..i], pclass, list).list, HintPass(ifs, pclass, list).list)
  {
    hide Low, Pow2, ValidList, HintPass, HintStep;
    HintPassValid(ifs, pclass, list, total);
    if i == |ifs| {
      assert ifs[..i] == ifs;
    } else {
      var n := |ifs| - 1;
      HintPassExtends(ifs[..n], pclass, list, total, i);
      assert ifs[..n][..i] == ifs[..i];
      HintPassValid(ifs[..n], pclass, list, total);
      HintStepValid(HintPass(ifs[..n], pclass, list), total, ifs[n], pclass);
      HintPassUnfold(ifs, pclass, list);
    }
  }

  lemma FinalExtends(plen: nat, excl: Exclusion, ifs: seq<Iface>, pclass: string, i: nat)
    requires Delegation(plen, excl) && AllMasked(ifs) && i <= |ifs|
    ensures Extends(HintPass(ifs[..i], pclass, InitialList(plen, excl)).list, FinalList(plen, excl, ifs, pclass))
  {
    hide Low, Pow2, ValidList, HintPass, LaterPass;
    var list, total := InitialList(plen, excl), Networks(plen);
    InitialValid(plen, excl);
    HintPassExtends(ifs, pclass, list, total, i);
    HintPassValid(ifs, pclass, list, total);
    LaterRequests(ifs, pclass, list);
    var p := HintPass(ifs, pclass, list);
    LaterPassValid(p.list, total, p.later);
  }
}
