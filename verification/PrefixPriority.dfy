/** The priority order is respected: who comes first never ends with less. */
module PrefixPriority {
  import opened Bits
  import opened PrefixAlloc
  import opened PrefixRun
  import opened PrefixSafety
  import opened PrefixPacking

  /** What is free later was free before. */
  lemma FeasibleBefore(list: seq<Assignment>, list': seq<Assignment>, total: nat, length: nat)
    requires Extends(list, list') && Feasible(list', total, length)
    ensures Feasible(list, total, length)
  {
    hide Low, Pow2, Size;
    var t :| Aligned(t, Span(length)) && FreeBlock(list', total, t, Size(length));
    forall i | 0 <= i < |list| - 1 ensures End(list[i]) <= t || t + Size(length) <= list[i].start {
      assert Blocks(list)[i] == list[i];
      assert list[i] in Blocks(list');
      var j :| 0 <= j < |Blocks(list')| && Blocks(list')[j] == list[i];
      assert list'[j] == list[i];
    }
    assert FreeBlock(list, total, t, Size(length));
  }

  /** A request is granted no longer a prefix than any length that was feasible. */
  lemma GrantedWithin(list: seq<Assignment>, total: nat, a: Assignment, length: nat)
    requires ValidList(list, total) && a.length <= length <= 64 && a.start == -1
    requires Feasible(list, total, length)
    ensures Starts(list)
    ensures exists e :: e in Blocks(LaterStep(list, a)) && e.name == a.name && a.length <= e.length <= length
  {
    hide Low, Pow2, FreeBlock, ValidList, ShrinkPlace, Feasible;
    ShrinkIsLeast(list, total, a);
    var l, s :| LeastGrant(list, total, a, l, s, ShrinkPlace(list, a).value);
    assert a.(start := s, length := l) in Blocks(LaterStep(list, a));
  }

  /** A block came from the list before or from one of the requests, at its turn. */
  ghost predicate GrantedAt(list: seq<Assignment>, total: nat, later: seq<Assignment>, m: nat, e: Assignment)
    requires Starts(list) && Requests(later) && m < |later|
  {
    e.name == later[m].name && later[m].length <= e.length <= 64
    && Feasible(LaterPass(list, later[..m]), total, e.length)
  }

  lemma {:induction false} LaterBlockOrigin(list: seq<Assignment>, total: nat, later: seq<Assignment>, e: Assignment)
    requires ValidList(list, total) && Requests(later) && Starts(list)
    requires e in Blocks(LaterPass(list, later))
    ensures e in Blocks(list) || exists m :: 0 <= m < |later| && GrantedAt(list, total, later, m, e)
  {
    hide Low, Pow2, FreeBlock, ValidList, ShrinkPlace, Feasible, LaterPass;
    LaterPassUnfold(list, later);
    if later != [] {
      var n := |later| - 1;
      var l := LaterPass(list, later[..n]);
      LaterPassValid(list, total, later[..n]);
      if e in Blocks(l) {
        LaterBlockOrigin(list, total, later[..n], e);
        if e !in Blocks(list) {
          var m :| 0 <= m < n && GrantedAt(list, total, later[..n], m, e);
          assert later[..n][..m] == later[..m];
          assert GrantedAt(list, total, later, m, e);
        }
      } else {
        ShrinkIsLeast(l, total, later[n]);
        var length, s :| LeastGrant(l, total, later[n], length, s, ShrinkPlace(l, later[n]).value);
        FreeIsFeasible(l, total, length, s);
        assert GrantedAt(list, total, later, n, e);
      }
    }
  }

  lemma FreeIsFeasible(list: seq<Assignment>, total: nat, length: nat, s: int)
    requires Aligned(s, Span(length)) && FreeBlock(list, total, s, Size(length))
    ensures Feasible(list, total, length)
  {
  }

  /** The block goes to this interface, which asks for a prefix that may be that long, and for any class or
      that of the delegation. */
  ghost predicate Asks(f: Iface, pclass: string, e: Assignment)
  {
    e.name == f.name && 48 <= f.length <= e.length <= 64 && (f.classes == [] || pclass in f.classes)
  }

  /** Blocks placed by the first loop belong to interfaces with hints. */
  lemma {:induction false} HintBlockOrigin(ifs: seq<Iface>, pclass: string, list: seq<Assignment>, total: nat,
                                           e: Assignment)
    requires ValidList(list, total) && AllMasked(ifs) && Starts(list)
    requires e in Blocks(HintPass(ifs, pclass, list).list)
    ensures e in Blocks(list) || exists f :: f in ifs && f.hint != -1 && Asks(f, pclass, e)
  {
    hide Low, Pow2, FreeBlock, ValidList, Place, HintPass;
    if ifs != [] {
      var n := |ifs| - 1;
      var p, f := HintPass(ifs[..n], pclass, list), ifs[n];
      HintPassUnfold(ifs, pclass, list);
      HintPassValid(ifs[..n], pclass, list, total);
      if e in Blocks(p.list) {
        HintBlockOrigin(ifs[..n], pclass, list, total, e);
      } else {
        assert f in ifs;
        PlaceIsLowestFree(p.list, total, Request(f, f.hint));
      }
    } else {
      HintPassEmpty(pclass, list);
    }
  }

  lemma HintPassEmpty(pclass: string, list: seq<Assignment>)
    requires Starts(list)
    ensures HintPass([], pclass, list) == Pass(list, [])
  {
  }

  /** An eligible interface without a hint waits for the second loop. */
  lemma {:induction false} UnhintedWaits(ifs: seq<Iface>, pclass: string, list: seq<Assignment>, f: Iface)
    requires Starts(list) && f in ifs && Eligible(f, pclass) && f.hint == -1
    ensures InLater(HintPass(ifs, pclass, list).later, f)
  {
    hide Place, HintPass;
    var n := |ifs| - 1;
    HintPassUnfold(ifs, pclass, list);
    InsertLaterMembers(HintPass(ifs[..n], pclass, list).later, Request(ifs[n], -1));
    if f in ifs[..n] {
      UnhintedWaits(ifs[..n], pclass, list, f);
    }
  }

  lemma {:induction false} LaterPassExtends(list: seq<Assignment>, total: nat, later: seq<Assignment>, m: nat)
    requires ValidList(list, total) && Requests(later) && m <= |later| && Starts(list)
    ensures Extends(LaterPass(list, later[..m]), LaterPass(list, later))
  {
    hide Low, Pow2, ValidList, LaterPass, LaterStep;
    if m == |later| {
      assert later[..m] == later;
    } else {
      var n := |later| - 1;
      LaterPassExtends(list, total, later[..n], m);
      assert later[..n][..m] == later[..m];
      LaterPassValid(list, total, later[..n]);
      LaterStepValid(LaterPass(list, later[..n]), total, later[n]);
      LaterPassUnfold(list, later);
    }
  }

  /** Of two waiting requests, the earlier one holds a block at most as long a prefix as any
      block the later one was granted. */
  lemma EarlierGetsMore(list: seq<Assignment>, total: nat, later: seq<Assignment>, i: nat, m: nat, e: Assignment)
    requires ValidList(list, total) && Requests(later) && Starts(list)
    requires i < m < |later| && later[i].length <= later[m].length
    requires GrantedAt(list, total, later, m, e)
    ensures exists d ::
              d in Blocks(LaterPass(list, later)) && d.name == later[i].name && later[i].length <= d.length <= e.length
  {
    hide Low, Pow2, ValidList, LaterPass, Feasible, LaterStep, Extends, Blocks;
    var a := later[i];
    assert later[..m][..i] == later[..i] && later[..i + 1][..i] == later[..i];
    LaterPassValid(list, total, later[..i]);
    LaterPassExtends(list, total, later[..m], i);
    var li := LaterPass(list, later[..i]);
    FeasibleBefore(li, LaterPass(list, later[..m]), total, e.length);
    GrantedWithin(li, total, a, e.length);
    var d :| d in Blocks(LaterStep(li, a)) && d.name == a.name && a.length <= d.length <= e.length;
    LaterPassUnfold(list, later[..i + 1]);
    LaterPassExtends(list, total, later, i + 1);
    ExtendsKeeps(LaterPass(list, later[..i + 1]), LaterPass(list, later), d);
  }

  /** Of two interfaces, the one that asks for the shorter prefix, or for an equal one with a higher
      weight, or with the same weight and the smaller name. */
  ghost predicate ComesFirst(f: Iface, g: Iface)
  {
    || f.length < g.length
    || (f.length == g.length && f.weight > g.weight)
    || (f.length == g.length && f.weight == g.weight && NameBefore(f.name, g.name))
  }

  /** Priority: of two unhinted interfaces, the one that comes first is served whenever the other is, and
      with at most as long a prefix. */
  lemma PriorityRespected(plen: nat, excl: Exclusion, ifs: seq<Iface>, pclass: string, f: Iface, g: Iface,
                          e: Assignment)
    requires Delegation(plen, excl) && AllMasked(ifs) && DistinctNames(ifs)
    requires f in ifs && g in ifs && 48 <= f.length <= 64 && (f.classes == [] || pclass in f.classes)
    requires Eligible(g, pclass)
    requires f.hint == -1 && g.hint == -1 && g.name != "!excluded"
    requires ComesFirst(f, g)
    requires e in Blocks(FinalList(plen, excl, ifs, pclass)) && e.name == g.name
    ensures exists d ::
              d in Blocks(FinalList(plen, excl, ifs, pclass)) && d.name == f.name && f.length <= d.length <= e.length
  {
    hide Low, Pow2, ValidList, LaterPass, HintPass, Compare, Feasible;
    var list, total := InitialList(plen, excl), Networks(plen);
    InitialValid(plen, excl);
    HintPassValid(ifs, pclass, list, total);
    LaterRequests(ifs, pclass, list);
    var p := HintPass(ifs, pclass, list);
    NotPlacedByHint(plen, excl, ifs, pclass, g, e);
    LaterBlockOrigin(p.list, total, p.later, e);
    var m :| 0 <= m < |p.later| && GrantedAt(p.list, total, p.later, m, e);
    LaterNames(ifs, pclass, list);
    assert p.later[m] in p.later && p.later[m] == Request(g, -1);
    UnhintedWaits(ifs, pclass, list, f);
    var i :| 0 <= i < |p.later| && p.later[i] == Request(f, -1);
    LaterSorted(ifs, pclass, list);
    assert Precedes(p.later[i], p.later[m]);
    CompareIsOrder(p.later[i], p.later[m], p.later[i]);
    assert i < m;
    LengthFirst(p.later[i], p.later[m]);
    EarlierGetsMore(p.list, total, p.later, i, m, e);
  }

  lemma LengthFirst(a: Assignment, b: Assignment)
    requires Compare(a, b) < 0
    ensures a.length <= b.length
  {
  }

  lemma NotPlacedByHint(plen: nat, excl: Exclusion, ifs: seq<Iface>, pclass: string, g: Iface, e: Assignment)
    requires Delegation(plen, excl) && AllMasked(ifs) && DistinctNames(ifs)
    requires g in ifs && g.hint == -1 && g.name != "!excluded" && e.name == g.name
    ensures e !in Blocks(HintPass(ifs, pclass, InitialList(plen, excl)).list)
  {
    hide Low, Pow2, ValidList, HintPass;
    var list := InitialList(plen, excl);
    InitialValid(plen, excl);
    if e in Blocks(HintPass(ifs, pclass, list).list) {
      HintBlockOrigin(ifs, pclass, list, Networks(plen), e);
    }
  }

  /** Nobody else gets anything: every block but the excluded one belongs to an interface that asks for
      it. */
  lemma OnlyAskedForIsAssigned(plen: nat, excl: Exclusion, ifs: seq<Iface>, pclass: string, e: Assignment)
    requires Delegation(plen, excl) && AllMasked(ifs)
    requires e in Blocks(FinalList(plen, excl, ifs, pclass))
    ensures e in Blocks(InitialList(plen, excl)) || exists f :: f in ifs && Asks(f, pclass, e)
  {
    hide Low, Pow2, ValidList, LaterPass, HintPass, Feasible, Blocks;
    var list, total := InitialList(plen, excl), Networks(plen);
    InitialValid(plen, excl);
    HintPassValid(ifs, pclass, list, total);
    LaterRequests(ifs, pclass, list);
    var p := HintPass(ifs, pclass, list);
    LaterBlockOrigin(p.list, total, p.later, e);
    if e in Blocks(p.list) {
      HintBlockOrigin(ifs, pclass, list, total, e);
    } else {
      var m :| 0 <= m < |p.later| && GrantedAt(p.list, total, p.later, m, e);
      LaterNames(ifs, pclass, list);
      assert p.later[m] in p.later && RequestOf(p.later[m], ifs, pclass);
      var f :| f in ifs && Eligible(f, pclass) && p.later[m] == Request(f, -1);
      assert Asks(f, pclass, e);
    }
  }
}
