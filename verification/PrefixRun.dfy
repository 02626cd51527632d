/** A whole reassignment of a delegated prefix
    (interface_update_prefix_assignments, interface-ip.c).

    Interfaces with a hint go first, in the order of the interface list; all others, and
    those whose hint could not be had, follow in priority order, each shrinking its request
    until it fits.
 */
module PrefixRun {
  import opened Bits
  import opened PrefixAlloc
  import opened Options

  /** The assignment settings of `struct interface`. */
  datatype Iface = Iface(name: string, length: nat, hint: int, weight: int, classes: seq<string>)

  /** A configured hint, masked to the interface's own length (interface_alloc). The mask
      clears low bits of a two's complement word, which rounds down. */
  function MaskHint(hint: int, length: nat): (h: int)
    requires length <= 64
    ensures Aligned(h, Span(length))
    ensures h <= hint < h + Size(length)
  {
    Recompose(hint, 64 - length);
    Decompose(Shr(hint, 64 - length), 0, 64 - length);
    hint - Low(hint, 64 - length)
  }

  /** The excluded block of a delegation, if it has one. */
  datatype Exclusion = NoExclusion | Exclusion(start: nat, length: nat)

  /** Number of /64 networks of a delegated prefix. */
  function Networks(plen: nat): nat
  {
    Size(plen)
  }

  function Sentinel(plen: nat): Assignment
  {
    Assignment(Networks(plen), 64, 0, "")
  }

  function InitialList(plen: nat, excl: Exclusion): (r: seq<Assignment>)
    ensures Starts(r)
  {
    match excl
    case NoExclusion => [Sentinel(plen)]
    case Exclusion(start, length) => [Assignment(start, length, 0, "!excluded"), Sentinel(plen)]
  }

  predicate Eligible(f: Iface, pclass: string)
  {
    48 <= f.length <= 64 && (f.classes == [] || pclass in f.classes)
  }

  function Request(f: Iface, want: int): Assignment
  {
    Assignment(want, f.length, f.weight, f.name)
  }

  /** strcmp, by the first difference. */
  function StrCmp(a: string, b: string): int
  {
    if a == [] then (if b == [] then 0 else -1)
    else if b == [] then 1
    else if a[0] != b[0] then (if a[0] < b[0] then -1 else 1)
    else StrCmp(a[1..], b[1..])
  }

  /** prefix_assignment_cmp */
  function Compare(a: Assignment, b: Assignment): int
  {
    if a.length != b.length then a.length - b.length
    else if a.weight != b.weight then b.weight - a.weight
    else StrCmp(a.name, b.name)
  }

  /** avl_insert into the tree ordered by `Compare`. */
  function InsertLater(later: seq<Assignment>, a: Assignment): (r: seq<Assignment>)
    ensures multiset(r) == multiset(later) + multiset{a}
  {
    if later == [] then [a]
    else if Compare(a, later[0]) < 0 then [a] + later
    else
      assert later == [later[0]] + later[1..];
      [later[0]] + InsertLater(later[1..], a)
  }

  /** The assignment list and the tree of interfaces to be served later. */
  datatype Pass = Pass(list: seq<Assignment>, later: seq<Assignment>)

  /** One interface of the first loop. */
  function HintStep(p: Pass, f: Iface, pclass: string): (r: Pass)
    requires Starts(p.list)
    ensures Starts(r.list)
  {
    if !Eligible(f, pclass) then p
    else
      var placed := if f.hint == -1 then None else Place(p.list, Request(f, f.hint));
      if placed.Some? then p.(list := placed.value)
      else p.(later := InsertLater(p.later, Request(f, -1)))
  }

  function HintPass(ifs: seq<Iface>, pclass: string, list: seq<Assignment>): (r: Pass)
    requires Starts(list)
    ensures Starts(r.list)
  {
    if ifs == [] then Pass(list, [])
    else HintStep(HintPass(ifs[..|ifs| - 1], pclass, list), ifs[|ifs| - 1], pclass)
  }

  /** Place, retrying with ever longer prefixes up to /64. */
  function ShrinkPlace(list: seq<Assignment>, a: Assignment): (r: Option<seq<Assignment>>)
    requires Starts(list) && a.length <= 64
    ensures r.Some? ==> Starts(r.value)
    decreases 64 - a.length
  {
    var placed := Place(list, a);
    if placed.Some? || a.length == 64 then placed
    else ShrinkPlace(list, a.(length := a.length + 1))
  }

  function LaterStep(list: seq<Assignment>, a: Assignment): (r: seq<Assignment>)
    requires Starts(list) && a.length <= 64
    ensures Starts(r)
  {
    var placed := ShrinkPlace(list, a);
    if placed.Some? then placed.value else list
  }

  predicate Requests(later: seq<Assignment>)
  {
    forall a :: a in later ==> 48 <= a.length <= 64 && a.start == -1
  }

  function LaterPass(list: seq<Assignment>, later: seq<Assignment>): (r: seq<Assignment>)
    requires Starts(list) && Requests(later)
    ensures Starts(r)
  {
    if later == [] then list
    else LaterStep(LaterPass(list, later[..|later| - 1]), later[|later| - 1])
  }

  lemma InsertLaterMembers(later: seq<Assignment>, a: Assignment)
    ensures forall e :: e in InsertLater(later, a) <==> e in later || e == a
  {
    forall e ensures e in InsertLater(later, a) <==> e in later || e == a {
      assert e in InsertLater(later, a) <==> e in multiset(InsertLater(later, a));
    }
  }

  lemma {:induction false} LaterRequests(ifs: seq<Iface>, pclass: string, list: seq<Assignment>)
    requires Starts(list)
    ensures Requests(HintPass(ifs, pclass, list).later)
  {
    if ifs != [] {
      LaterRequests(ifs[..|ifs| - 1], pclass, list);
      var p, f := HintPass(ifs[..|ifs| - 1], pclass, list), ifs[|ifs| - 1];
      InsertLaterMembers(p.later, Request(f, -1));
    }
  }

  /** The assignment list after a reassignment. */
  function FinalList(plen: nat, excl: Exclusion, ifs: seq<Iface>, pclass: string): (r: seq<Assignment>)
    ensures Starts(r)
  {
    var p := HintPass(ifs, pclass, InitialList(plen, excl));
    LaterRequests(ifs, pclass, InitialList(plen, excl));
    LaterPass(p.list, p.later)
  }

  /** `struct device_prefix`, with its list of assignments. */
  class DevicePrefix {
    const plen: nat
    const excl: Exclusion
    const pclass: string
    var assignments: seq<Assignment>

    constructor (plen: nat, excl: Exclusion, pclass: string)
      ensures this.plen == plen && this.excl == excl && this.pclass == pclass && assignments == []
    {
      this.plen, this.excl, this.pclass := plen, excl, pclass;
      assignments := [];
    }

    /** interface_prefix_assign */
    method PrefixAssign(a: Assignment) returns (ok: bool)
      requires Starts(assignments)
      modifies this`assignments
      ensures ok == Place(old(assignments), a).Some?
      ensures assignments == if ok then Place(old(assignments), a).value else old(assignments)
    {
      var current, i := 0, 0;
      while i < |assignments|
        invariant 0 <= i <= |assignments| && 0 <= current
        invariant assignments == old(assignments)
        invariant Search(assignments, 0, 0, a.start, a.length) == Search(assignments, i, current, a.start, a.length)
      {
        var c := assignments[i];
        if a.start != -1 {
          if a.start >= current && a.start + Size(a.length) - 1 < c.start {
            assignments := InsertAt(assignments, i, a);
            return true;
          }
        } else {
          current := AlignUp(current, a.length);
          if current + Size(a.length) - 1 < c.start {
            assignments := InsertAt(assignments, i, a.(start := current));
            return true;
          }
        }
        current := End(c);
        i := i + 1;
      }
      return false;
    }

    /** interface_update_prefix_assignments, without the kernel calls for each address. */
    method UpdatePrefixAssignments(interfaces: seq<Iface>, setup: bool)
      modifies this`assignments
      ensures assignments == if setup then FinalList(plen, excl, interfaces, pclass) else []
    {
      assignments := [];
      if !setup {
        return;
      }
      assignments := InitialList(plen, excl);
      ghost var initial := assignments;
      var later: seq<Assignment> := [];
      for i := 0 to |interfaces|
        invariant Starts(assignments)
        invariant Pass(assignments, later) == HintPass(interfaces[..i], pclass, initial)
      {
        assert interfaces[..i + 1][..i] == interfaces[..i];
        var f := interfaces[i];
        if f.length < 48 || f.length > 64 {
          continue;
        }
        if f.classes == [] || pclass in f.classes {
          var served := false;
          if f.hint != -1 {
            served := PrefixAssign(Request(f, f.hint));
          }
          if !served {
            later := InsertLater(later, Request(f, -1));
          }
        }
      }
      assert interfaces[..|interfaces|] == interfaces;
      LaterRequests(interfaces, pclass, initial);
      ghost var list := assignments;
      for i := 0 to |later|
        invariant Starts(assignments)
        invariant Requests(later[..i]) && assignments == LaterPass(list, later[..i])
      {
        assert later[..i + 1][..i] == later[..i];
        AssignShrinking(later[i]);
      }
      assert later[..|later|] == later;
    }

    /** The retry loop of the second pass. */
    method AssignShrinking(a: Assignment)
      requires Starts(assignments) && a.length <= 64
      modifies this`assignments
      ensures Starts(assignments) && assignments == LaterStep(old(assignments), a)
    {
      var c := a;
      var ok := PrefixAssign(c);
      while !ok && c.length + 1 <= 64
        invariant c.length <= 64 && Starts(old(assignments))
        invariant ok == Place(old(assignments), c).Some?
        invariant assignments == if ok then Place(old(assignments), c).value else old(assignments)
        invariant ShrinkPlace(old(assignments), a) == ShrinkPlace(old(assignments), c)
        decreases 64 - c.length
      {
        c := c.(length := c.length + 1);
        ok := PrefixAssign(c);
      }
    }
  }
}
