/** Claims on a stack of devices (device.c, vlan.c, vlandev.c, macvlan.c).

    A device counts its claimed users and is brought up by the first and down by the last.
    A stacked device is itself a user of the device under it and claims that device while
    bringing itself up. Kernel calls may fail at any point.
 */
module DeviceClaim {

  /** How a device is brought up: by the kernel alone, by somebody else (`external`), by
      claiming the device under it and ignoring the result of `system_vlan_add` (vlan.c), or
      by claiming it and rolling back when the kernel refuses to add the device (vlandev.c,
      macvlan.c). */
  datatype Kind = Simple | External | Vlan | Macvlan

  /** A `struct device_user`: one that belongs to an interface, or the one inside a stacked
      device that refers to the device under it. */
  datatype User = Client(id: nat) | Parent(child: nat)

  /** Devices, which device each attached user refers to, and a rank that grows upwards. */
  datatype Topology = Topology(kind: map<nat, Kind>, dev: map<User, nat>, rank: map<nat, nat>)

  /** The `active` counts and the `claimed` flags. */
  datatype Claims = Claims(active: map<nat, int>, claimed: set<User>)

  predicate Stacked(k: Kind)
  {
    k.Vlan? || k.Macvlan?
  }

  ghost predicate Acyclic(t: Topology)
  {
    && t.rank.Keys == t.kind.Keys
    && (forall u :: u in t.dev ==> t.dev[u] in t.kind)
    && (forall c :: Parent(c) in t.dev ==>
          c in t.kind && Stacked(t.kind[c]) && t.rank[t.dev[Parent(c)]] < t.rank[c])
  }

  ghost function ClaimedUsers(t: Topology, s: Claims, d: nat): set<User>
  {
    set u | u in s.claimed && u in t.dev && t.dev[u] == d
  }

  /** `active` is the number of claimed users, and a stacked device holds a claim on the
      device under it exactly while it is active. */
  ghost predicate DeviceOk(t: Topology, s: Claims, d: nat)
    requires d in t.kind && d in s.active
  {
    && s.active[d] == |ClaimedUsers(t, s, d)|
    && (Stacked(t.kind[d]) ==> (Parent(d) in s.claimed <==> s.active[d] > 0))
  }

  /** Every device of rank below `r` is in order. */
  ghost predicate Consistent(t: Topology, s: Claims, r: nat)
  {
    && Acyclic(t) && s.active.Keys == t.kind.Keys && s.claimed <= t.dev.Keys
    && forall d :: d in t.kind && t.rank[d] < r ==> DeviceOk(t, s, d)
  }

  ghost predicate AllOk(t: Topology, s: Claims)
  {
    && Acyclic(t) && s.active.Keys == t.kind.Keys && s.claimed <= t.dev.Keys
    && forall d :: d in t.kind ==> DeviceOk(t, s, d)
  }

  /** Users that no device of rank below `r` controls. */
  ghost predicate Outside(t: Topology, u: User, r: nat)
  {
    u.Client? || (u.child in t.rank && t.rank[u.child] >= r)
  }

  /** Nothing changed for devices of rank `r` and up, nor for outside users other than `u`. */
  ghost predicate Framed(t: Topology, s: Claims, s': Claims, r: nat, u: User)
  {
    && (forall d :: d in t.rank && t.rank[d] >= r && d in s.active && d in s'.active ==> s'.active[d] == s.active[d])
    && (forall v :: v != u && Outside(t, v, r) ==> (v in s'.claimed <==> v in s.claimed))
  }

  // ----- the claims of the clients determine everything

  /** Two consistent states in which the same outside users hold claims are the same below. */
  lemma {:induction false} DeterminedFrom(t: Topology, s: Claims, s': Claims, r: nat, k: nat)
    requires Consistent(t, s, r) && Consistent(t, s', r) && k <= r
    requires forall v :: Outside(t, v, r) ==> (v in s.claimed <==> v in s'.claimed)
    ensures forall d :: d in t.kind && k <= t.rank[d] < r ==>
              s.active[d] == s'.active[d] && (Parent(d) in s.claimed <==> Parent(d) in s'.claimed)
    decreases r - k
  {
    if k < r {
      DeterminedFrom(t, s, s', r, k + 1);
      forall d | d in t.kind && t.rank[d] == k
        ensures s.active[d] == s'.active[d] && (Parent(d) in s.claimed <==> Parent(d) in s'.claimed)
      {
        forall u | u in t.dev && t.dev[u] == d ensures u in s.claimed <==> u in s'.claimed {
          if u.Parent? && t.rank[u.child] < r {
            assert t.rank[u.child] >= k + 1;
          } else {
            assert Outside(t, u, r);
          }
        }
        assert ClaimedUsers(t, s, d) == ClaimedUsers(t, s', d);
        assert DeviceOk(t, s, d) && DeviceOk(t, s', d);
      }
    }
  }

  /** A change that keeps consistency and every outside claim is no change at all. */
  lemma Unchanged(t: Topology, s: Claims, s': Claims, r: nat, u: User)
    requires Consistent(t, s, r) && Consistent(t, s', r) && Framed(t, s, s', r, u)
    requires u in s.claimed <==> u in s'.claimed
    requires Outside(t, u, r)
    ensures s' == s
  {
    DeterminedFrom(t, s, s', r, 0);
    forall v ensures v in s.claimed <==> v in s'.claimed {
      if v in t.dev && !Outside(t, v, r) {
        assert v == Parent(v.child) && v.child in t.kind;
      }
    }
    assert s.claimed == s'.claimed;
    assert s.active == s'.active;
  }

  ghost function MaxRank(t: Topology, ids: set<nat>): (m: nat)
    requires ids <= t.rank.Keys
    ensures forall d :: d in ids ==> t.rank[d] <= m
  {
    if ids == {} then 0
    else
      var d :| d in ids;
      var m := MaxRank(t, ids - {d});
      if m < t.rank[d] then t.rank[d] else m
  }

  /** The whole state of all devices depends only on which clients hold claims: not on the
      order of claims and releases, nor on the failures met on the way. */
  lemma ClientsDetermineState(t: Topology, s: Claims, s': Claims)
    requires AllOk(t, s) && AllOk(t, s')
    requires forall n :: Client(n) in s.claimed <==> Client(n) in s'.claimed
    ensures s == s'
  {
    var r := MaxRank(t, t.rank.Keys) + 1;
    forall v | Outside(t, v, r) ensures v in s.claimed <==> v in s'.claimed {
      assert v.Client? ==> v == Client(v.id);
    }
    DeterminedFrom(t, s, s', r, 0);
    forall v ensures v in s.claimed <==> v in s'.claimed {
      if v.Parent? && v in t.dev {
        assert v == Parent(v.child) && t.rank[v.child] < r;
      } else if v.Client? {
        assert v == Client(v.id);
      }
    }
    assert s.claimed == s'.claimed;
    assert s.active == s'.active;
  }

  /** The devices from `e` downwards, as far as `d`. */
  ghost predicate StandsOn(t: Topology, e: nat, d: nat)
    requires Acyclic(t) && e in t.kind
    decreases t.rank[e]
  {
    e == d || (Parent(e) in t.dev && StandsOn(t, t.dev[Parent(e)], d))
  }

  lemma {:induction false} StandsOnStep(t: Topology, e: nat, c: nat, d: nat)
    requires Acyclic(t) && e in t.kind && c in t.kind && Parent(c) in t.dev && t.dev[Parent(c)] == d
    requires StandsOn(t, e, c)
    ensures StandsOn(t, e, d)
    decreases t.rank[e]
  {
    if e == c {
      assert StandsOn(t, d, d);
    } else {
      StandsOnStep(t, t.dev[Parent(e)], c, d);
    }
  }

  lemma ClaimedMakesActive(t: Topology, s: Claims, u: User)
    requires AllOk(t, s) && u in s.claimed
    ensures t.dev[u] in t.kind && s.active[t.dev[u]] > 0
  {
    assert u in ClaimedUsers(t, s, t.dev[u]);
    assert DeviceOk(t, s, t.dev[u]);
  }

  lemma {:induction false} ActiveDownwards(t: Topology, s: Claims, e: nat, d: nat)
    requires AllOk(t, s) && e in t.kind && s.active[e] > 0 && StandsOn(t, e, d)
    ensures d in t.kind && s.active[d] > 0
    decreases t.rank[e]
  {
    if e != d {
      assert DeviceOk(t, s, e);
      ClaimedMakesActive(t, s, Parent(e));
      ActiveDownwards(t, s, t.dev[Parent(e)], d);
    }
  }

  lemma {:induction false} ActiveHasClient(t: Topology, s: Claims, d: nat, top: nat)
    requires AllOk(t, s) && d in t.kind && s.active[d] > 0
    requires forall e :: e in t.rank ==> t.rank[e] <= top
    ensures exists n :: Client(n) in s.claimed && StandsOn(t, t.dev[Client(n)], d)
    decreases top - t.rank[d]
  {
    assert DeviceOk(t, s, d);
    var u :| u in ClaimedUsers(t, s, d);
    if u.Client? {
      assert u == Client(u.id) && StandsOn(t, d, d);
    } else {
      var c := u.child;
      assert u == Parent(c) && DeviceOk(t, s, c);
      ActiveHasClient(t, s, c, top);
      var n :| Client(n) in s.claimed && StandsOn(t, t.dev[Client(n)], c);
      StandsOnStep(t, t.dev[Client(n)], c, d);
    }
  }

  /** A device is up exactly when some client holds a claim on it or on a device that stands
      on it. */
  lemma ActiveIffNeeded(t: Topology, s: Claims, d: nat)
    requires AllOk(t, s) && d in t.kind
    ensures s.active[d] > 0 <==> exists n :: Client(n) in s.claimed && StandsOn(t, t.dev[Client(n)], d)
  {
    if s.active[d] > 0 {
      ActiveHasClient(t, s, d, MaxRank(t, t.rank.Keys));
    }
    if exists n :: Client(n) in s.claimed && StandsOn(t, t.dev[Client(n)], d) {
      var n :| Client(n) in s.claimed && StandsOn(t, t.dev[Client(n)], d);
      ClaimedMakesActive(t, s, Client(n));
      ActiveDownwards(t, s, t.dev[Client(n)], d);
    }
  }

  // ----- when a claim succeeds

  /** Call number `k` from here on succeeds. */
  predicate Good(luck: seq<bool>, k: nat)
  {
    k < |luck| ==> luck[k]
  }

  function From(luck: seq<bool>, k: nat): seq<bool>
  {
    if k <= |luck| then luck[k..] else []
  }

  lemma FromFrom(luck: seq<bool>, k: nat)
    ensures forall n: nat :: Good(From(luck, k), n) == Good(luck, k + n)
    ensures forall n: nat :: From(From(luck, k), n) == From(luck, k + n)
  {
  }

  /** The idle devices that a claim by `u` has to bring up, the lowest first */
  ghost function IdleStack(t: Topology, s: Claims, u: User): (ds: seq<nat>)
    requires Acyclic(t) && s.active.Keys == t.kind.Keys
    ensures forall d :: d in ds ==> d in t.kind
    decreases if u in t.dev then t.rank[t.dev[u]] + 1 else 0
  {
    if u in s.claimed || u !in t.dev || s.active[t.dev[u]] != 0 then []
    else (if Stacked(t.kind[t.dev[u]]) then IdleStack(t, s, Parent(t.dev[u])) else []) + [t.dev[u]]
  }

  /** Every user on the way down to a device in use, or to the bottom, is attached. */
  ghost predicate Grounded(t: Topology, s: Claims, u: User)
    requires Acyclic(t) && s.active.Keys == t.kind.Keys
    decreases if u in t.dev then t.rank[t.dev[u]] + 1 else 0
  {
    u in s.claimed
    || (u in t.dev
        && (s.active[t.dev[u]] != 0 || (Stacked(t.kind[t.dev[u]]) ==> Grounded(t, s, Parent(t.dev[u])))))
  }

  /** Bringing a device up takes one call for a device that needs no other, and two for a stacked one:
      to add it, and to bring it up. */
  function Calls(k: Kind): nat
  {
    if Stacked(k) then 2 else 1
  }

  function CallsOf(kind: map<nat, Kind>, ds: seq<nat>): nat
    requires forall d :: d in ds ==> d in kind
  {
    if ds == [] then 0 else CallsOf(kind, ds[..|ds| - 1]) + Calls(kind[ds[|ds| - 1]])
  }

  /** The calls for a device succeed; whether a VLAN can be added is ignored. */
  predicate ComesUp(k: Kind, luck: seq<bool>, n: nat)
  {
    match k
    case Simple => Good(luck, n)
    case External => Good(luck, n)
    case Vlan => Good(luck, n + 1)
    case Macvlan => Good(luck, n) && Good(luck, n + 1)
  }

  /** All devices of a stack come up, one after the other. */
  ghost predicate AllComeUp(kind: map<nat, Kind>, ds: seq<nat>, luck: seq<bool>)
    requires forall d :: d in ds ==> d in kind
  {
    forall j :: 0 <= j < |ds| ==> ComesUp(kind[ds[j]], luck, CallsOf(kind, ds[..j]))
  }

  /** A claim by `u` succeeds: it is attached all the way down, and the idle devices on the way come
      up. */
  ghost predicate Succeeds(t: Topology, s: Claims, u: User, luck: seq<bool>)
    requires Acyclic(t) && s.active.Keys == t.kind.Keys
  {
    Grounded(t, s, u) && AllComeUp(t.kind, IdleStack(t, s, u), luck)
  }

  /** Bringing up a stacked device succeeds, and how many calls it takes */
  ghost predicate UpSucceeds(t: Topology, s: Claims, d: nat, luck: seq<bool>)
    requires Acyclic(t) && s.active.Keys == t.kind.Keys && d in t.kind
  {
    Grounded(t, s, Parent(d)) && AllComeUp(t.kind, IdleStack(t, s, Parent(d)) + [d], luck)
  }

  ghost function UpCalls(t: Topology, s: Claims, d: nat): nat
    requires Acyclic(t) && s.active.Keys == t.kind.Keys && d in t.kind
  {
    CallsOf(t.kind, IdleStack(t, s, Parent(d)) + [d])
  }

  lemma AllComeUpStep(kind: map<nat, Kind>, ds: seq<nat>, d: nat, luck: seq<bool>)
    requires (forall x :: x in ds ==> x in kind) && d in kind
    ensures CallsOf(kind, ds + [d]) == CallsOf(kind, ds) + Calls(kind[d])
    ensures AllComeUp(kind, ds + [d], luck)
            <==> AllComeUp(kind, ds, luck) && ComesUp(kind[d], luck, CallsOf(kind, ds))
  {
    var all := ds + [d];
    assert all[..|ds|] == ds;
    assert forall j :: 0 <= j < |ds| ==> all[..j] == ds[..j];
  }

  /** What a claim needs below `d` does not depend on the claims above. */
  lemma {:induction false} StackBelow(t: Topology, s: Claims, u: User, v: User, k: nat)
    requires Acyclic(t) && s.active.Keys == t.kind.Keys && u in t.dev && t.rank[t.dev[u]] >= k
    requires v != u && (v in t.dev ==> t.rank[t.dev[v]] < k)
    requires forall x :: x in t.kind && t.rank[x] < k ==> Parent(x) != u
    ensures IdleStack(t, Enter(t, s, u), v) == IdleStack(t, s, v)
    ensures Grounded(t, Enter(t, s, u), v) == Grounded(t, s, v)
    decreases if v in t.dev then t.rank[t.dev[v]] + 1 else 0
  {
    var s' := Enter(t, s, u);
    assert s'.active.Keys == t.kind.Keys;
    if v in t.dev && Stacked(t.kind[t.dev[v]]) {
      StackBelow(t, s, u, Parent(t.dev[v]), k);
    }
  }

  // ----- the bookkeeping of one claim or release

  /** The first half of device_claim: the flag is set and the count goes up. */
  ghost function Enter(t: Topology, s: Claims, u: User): Claims
    requires u in t.dev && t.dev[u] in s.active
  {
    Claims(s.active[t.dev[u] := s.active[t.dev[u]] + 1], s.claimed + {u})
  }

  /** The first half of device_release. */
  ghost function Leave(t: Topology, s: Claims, u: User): Claims
    requires u in t.dev && t.dev[u] in s.active
  {
    Claims(s.active[t.dev[u] := s.active[t.dev[u]] - 1], s.claimed - {u})
  }

  lemma EnterOthers(t: Topology, s: Claims, u: User, r: nat)
    requires Consistent(t, s, r) && u in t.dev && u !in s.claimed && Outside(t, u, r)
    requires t.rank[t.dev[u]] < r
    ensures var s', d := Enter(t, s, u), t.dev[u];
            && s'.active[d] == |ClaimedUsers(t, s', d)|
            && (forall x :: x in t.kind && t.rank[x] < r && x != d ==> DeviceOk(t, s', x))
            && (Stacked(t.kind[d]) ==> (Parent(d) in s'.claimed <==> s.active[d] > 0))
  {
    var s', d := Enter(t, s, u), t.dev[u];
    assert ClaimedUsers(t, s', d) == ClaimedUsers(t, s, d) + {u};
    assert DeviceOk(t, s, d);
    forall x | x in t.kind && t.rank[x] < r && x != d ensures DeviceOk(t, s', x) {
      assert ClaimedUsers(t, s', x) == ClaimedUsers(t, s, x);
      assert DeviceOk(t, s, x);
      assert u != Parent(x);
    }
  }

  lemma LeaveOthers(t: Topology, s: Claims, u: User, r: nat)
    requires Consistent(t, s, r) && u in s.claimed && Outside(t, u, r)
    requires t.rank[t.dev[u]] < r
    ensures var s', d := Leave(t, s, u), t.dev[u];
            && s'.active[d] == |ClaimedUsers(t, s', d)|
            && (forall x :: x in t.kind && t.rank[x] < r && x != d ==> DeviceOk(t, s', x))
            && (Stacked(t.kind[d]) ==> Parent(d) in s'.claimed)
  {
    var s', d := Leave(t, s, u), t.dev[u];
    assert ClaimedUsers(t, s', d) == ClaimedUsers(t, s, d) - {u};
    assert u in ClaimedUsers(t, s, d);
    assert DeviceOk(t, s, d);
    forall x | x in t.kind && t.rank[x] < r && x != d ensures DeviceOk(t, s', x) {
      assert ClaimedUsers(t, s', x) == ClaimedUsers(t, s, x);
      assert DeviceOk(t, s, x);
      assert u != Parent(x);
    }
  }

  lemma EnterAgain(t: Topology, s: Claims, u: User, r: nat)
    requires Consistent(t, s, r) && u in t.dev && u !in s.claimed && Outside(t, u, r)
    requires t.rank[t.dev[u]] < r && s.active[t.dev[u]] != 0
    ensures Consistent(t, Enter(t, s, u), r)
  {
    EnterOthers(t, s, u, r);
    assert DeviceOk(t, s, t.dev[u]);
    var s' := Enter(t, s, u);
    assert DeviceOk(t, s', t.dev[u]);
  }

  lemma EnterFirst(t: Topology, s: Claims, u: User, r: nat)
    requires Consistent(t, s, r) && u in t.dev && u !in s.claimed && Outside(t, u, r)
    requires t.rank[t.dev[u]] < r && s.active[t.dev[u]] == 0
    ensures !Stacked(t.kind[t.dev[u]]) ==> Consistent(t, Enter(t, s, u), r)
    ensures Consistent(t, Enter(t, s, u), t.rank[t.dev[u]])
    ensures Parent(t.dev[u]) !in Enter(t, s, u).claimed
  {
    EnterOthers(t, s, u, r);
    var s', d := Enter(t, s, u), t.dev[u];
    assert DeviceOk(t, s, d);
    if !Stacked(t.kind[d]) {
      assert DeviceOk(t, s', d);
    }
  }

  lemma LeaveStill(t: Topology, s: Claims, u: User, r: nat)
    requires Consistent(t, s, r) && u in s.claimed && Outside(t, u, r)
    requires t.rank[t.dev[u]] < r
    ensures s.active[t.dev[u]] != 1 || !Stacked(t.kind[t.dev[u]]) ==> Consistent(t, Leave(t, s, u), r)
    ensures Consistent(t, Leave(t, s, u), t.rank[t.dev[u]])
    ensures Stacked(t.kind[t.dev[u]]) ==> Parent(t.dev[u]) in t.dev
  {
    LeaveOthers(t, s, u, r);
    var s', d := Leave(t, s, u), t.dev[u];
    assert DeviceOk(t, s, d);
    if s.active[d] != 1 || !Stacked(t.kind[d]) {
      assert DeviceOk(t, s', d);
    }
  }

  /** What a claim on an idle device needs */
  lemma IdleDevice(t: Topology, s: Claims, u: User, luck: seq<bool>)
    requires Acyclic(t) && s.active.Keys == t.kind.Keys && u in t.dev && u !in s.claimed && s.active[t.dev[u]] == 0
    ensures var d := t.dev[u];
            if Stacked(t.kind[d])
            then CallsOf(t.kind, IdleStack(t, s, u)) == UpCalls(t, s, d)
                 && (Succeeds(t, s, u, luck) <==> UpSucceeds(t, s, d, luck))
            else CallsOf(t.kind, IdleStack(t, s, u)) == 1 && (Succeeds(t, s, u, luck) <==> Good(luck, 0))
  {
    var d := t.dev[u];
    if !Stacked(t.kind[d]) {
      assert IdleStack(t, s, u) == [] + [d];
      AllComeUpStep(t.kind, [], d, luck);
    }
  }

  /** What a stacked device needs to come up, once its first user has entered */
  lemma StackedStarts(t: Topology, s: Claims, u: User, d: nat, r: nat, luck: seq<bool>)
    requires Consistent(t, s, r) && Outside(t, u, r) && u in t.dev && t.dev[u] == d && t.rank[d] < r
    requires u !in s.claimed && s.active[d] == 0 && Stacked(t.kind[d])
    ensures var s', v := Enter(t, s, u), Parent(d);
            && Acyclic(t) && d in t.rank && s'.active.Keys == s.active.Keys == t.kind.Keys
            && Consistent(t, s', t.rank[d]) && Outside(t, v, t.rank[d]) && v !in s'.claimed
            && (v in t.dev ==> t.rank[t.dev[v]] < t.rank[d])
            && var n := CallsOf(t.kind, IdleStack(t, s', v));
               && (UpSucceeds(t, s, d, luck)
                   <==> Succeeds(t, s', v, luck) && ComesUp(t.kind[d], From(luck, n), 0))
               && From(From(luck, n), 2) == From(luck, UpCalls(t, s, d))
  {
    hide DeviceOk, AllComeUp, IdleStack, Grounded, ComesUp, CallsOf, From;
    EnterFirst(t, s, u, r);
    OwnParentOutside(t, d);
    BelowUnchanged(t, s, u, d, r);
    OneMore(t.kind, IdleStack(t, s, Parent(d)), d, luck);
  }

  lemma StackedIsUp(t: Topology, s: Claims, s1: Claims, s2: Claims, u: User, d: nat, r: nat)
    requires Consistent(t, s, r) && Outside(t, u, r) && u in t.dev && t.dev[u] == d && t.rank[d] < r
    requires u !in s.claimed && s.active[d] == 0 && Stacked(t.kind[d]) && s1 == Enter(t, s, u)
    requires Consistent(t, s2, t.rank[d]) && Framed(t, s1, s2, t.rank[d], Parent(d)) && Parent(d) in s2.claimed
    ensures Consistent(t, s2, r) && Framed(t, s, s2, r, u) && u in s2.claimed
  {
    hide DeviceOk, Framed;
    LiftFromEnter(t, s, s2, u, d, r);
    FrameThrough(t, s, s1, s2, d, r, u);
  }

  lemma StackedIsDown(t: Topology, s1: Claims, s2: Claims, s3: Claims, d: nat)
    requires d in t.rank && Outside(t, Parent(d), t.rank[d])
    requires Consistent(t, s1, t.rank[d]) && Consistent(t, s2, t.rank[d]) && Consistent(t, s3, t.rank[d])
    requires Framed(t, s1, s2, t.rank[d], Parent(d)) && Framed(t, s2, s3, t.rank[d], Parent(d))
    requires Parent(d) !in s1.claimed && Parent(d) !in s3.claimed
    ensures s3 == s1
  {
    hide DeviceOk, Outside;
    FrameCompose(t, s1, s2, s3, t.rank[d], Parent(d));
    Unchanged(t, s1, s3, t.rank[d], Parent(d));
  }

  lemma OneMore(kind: map<nat, Kind>, ds: seq<nat>, d: nat, luck: seq<bool>)
    requires (forall x :: x in ds ==> x in kind) && d in kind && Stacked(kind[d])
    ensures AllComeUp(kind, ds + [d], luck)
            <==> AllComeUp(kind, ds, luck) && ComesUp(kind[d], From(luck, CallsOf(kind, ds)), 0)
    ensures From(From(luck, CallsOf(kind, ds)), 2) == From(luck, CallsOf(kind, ds + [d]))
  {
    hide AllComeUp, CallsOf, From;
    AllComeUpStep(kind, ds, d, luck);
    FromFrom(luck, CallsOf(kind, ds));
  }

  /** What holds when a claim starts, in each of its cases */
  lemma ClaimStarts(t: Topology, s: Claims, u: User, r: nat, luck: seq<bool>)
    requires Consistent(t, s, r) && Outside(t, u, r) && (u in t.dev ==> t.rank[t.dev[u]] < r)
    ensures Acyclic(t) && s.active.Keys == t.kind.Keys && Framed(t, s, s, r, u)
    ensures u in t.dev ==> t.dev[u] in t.kind && t.dev[u] in s.active && t.dev[u] in t.rank
    ensures u in s.claimed || u !in t.dev || s.active[t.dev[u]] != 0 ==>
              (Succeeds(t, s, u, luck) <==> u in s.claimed || u in t.dev)
              && From(luck, CallsOf(t.kind, IdleStack(t, s, u))) == luck
    ensures u !in s.claimed && u in t.dev && s.active[t.dev[u]] != 0 ==>
              Consistent(t, Enter(t, s, u), r) && Framed(t, s, Enter(t, s, u), r, u)
    ensures u !in s.claimed && u in t.dev && s.active[t.dev[u]] == 0 ==>
              var d := t.dev[u];
              if Stacked(t.kind[d])
              then CallsOf(t.kind, IdleStack(t, s, u)) == UpCalls(t, s, d)
                   && (Succeeds(t, s, u, luck) <==> UpSucceeds(t, s, d, luck))
              else CallsOf(t.kind, IdleStack(t, s, u)) == 1 && (Succeeds(t, s, u, luck) <==> Good(luck, 0))
  {
    hide DeviceOk, UpSucceeds, UpCalls;
    Unmoved(t, s, r, u);
    if u !in s.claimed && u in t.dev {
      if s.active[t.dev[u]] != 0 {
        EnterAgain(t, s, u, r);
        FrameThrough(t, s, Enter(t, s, u), Enter(t, s, u), t.dev[u], r, u);
      } else {
        IdleDevice(t, s, u, luck);
      }
    }
  }

  lemma BelowUnchanged(t: Topology, s: Claims, u: User, d: nat, r: nat)
    requires Acyclic(t) && s.active.Keys == t.kind.Keys && u in t.dev && t.dev[u] == d && t.rank[d] < r
    requires Outside(t, u, r)
    ensures IdleStack(t, Enter(t, s, u), Parent(d)) == IdleStack(t, s, Parent(d))
    ensures Grounded(t, Enter(t, s, u), Parent(d)) == Grounded(t, s, Parent(d))
  {
    StackBelow(t, s, u, Parent(d), t.rank[d]);
  }

  /** The rollback of a failed first claim. */
  lemma Undo(t: Topology, s: Claims, u: User)
    requires u in t.dev && t.dev[u] in s.active && s.active[t.dev[u]] == 0 && u !in s.claimed
    ensures var s' := Enter(t, s, u);
            Claims(s'.active[t.dev[u] := 0], s'.claimed - {u}) == s
  {
    var s' := Enter(t, s, u);
    assert s'.active[t.dev[u] := 0] == s.active;
    assert s'.claimed - {u} == s.claimed;
  }

  lemma Unmoved(t: Topology, s: Claims, r: nat, u: User)
    ensures Framed(t, s, s, r, u)
  {
  }

  /** Entering or leaving, and then changing only what lies below, keeps the frame. */
  lemma FrameThrough(t: Topology, s: Claims, s1: Claims, s2: Claims, d: nat, r: nat, u: User)
    requires Acyclic(t) && u in t.dev && t.dev[u] == d && t.rank[d] < r && Outside(t, u, r)
    requires s.active.Keys == s1.active.Keys == s2.active.Keys == t.kind.Keys
    requires forall x :: x in t.kind && x != d ==> s1.active[x] == s.active[x]
    requires s1.claimed == s.claimed + {u} || s1.claimed == s.claimed - {u}
    requires s2 == s1 || Framed(t, s1, s2, t.rank[d], Parent(d))
    ensures Framed(t, s, s2, r, u)
    ensures u in s2.claimed <==> u in s1.claimed
  {
    forall v | Outside(t, v, r) ensures v in s2.claimed <==> v in s1.claimed {
      assert Outside(t, v, t.rank[d]) && v != Parent(d);
    }
  }

  /** After the device under `d` was claimed or released on behalf of `d`, everything above
      is as it was, and `d` itself is in order again. */
  lemma Lift(t: Topology, s: Claims, s': Claims, d: nat, r: nat)
    requires Acyclic(t) && d in t.kind && t.rank[d] < r && Parent(d) in t.dev
    requires Consistent(t, s', t.rank[d]) && Framed(t, s, s', t.rank[d], Parent(d))
    requires s.active.Keys == t.kind.Keys
    requires s.active[d] == |ClaimedUsers(t, s, d)|
    requires forall x :: x in t.kind && t.rank[d] <= t.rank[x] < r && x != d ==> DeviceOk(t, s, x)
    requires Parent(d) in s'.claimed <==> s.active[d] > 0
    ensures Consistent(t, s', r)
  {
    forall x | x in t.kind && t.rank[d] <= t.rank[x] < r ensures DeviceOk(t, s', x) {
      forall v | v in t.dev && t.dev[v] == x ensures v in s.claimed <==> v in s'.claimed {
        assert v != Parent(d) && Outside(t, v, t.rank[d]);
      }
      assert ClaimedUsers(t, s', x) == ClaimedUsers(t, s, x);
      assert x != d ==> DeviceOk(t, s, x) && Outside(t, Parent(x), t.rank[d]);
    }
  }

  lemma OwnParentOutside(t: Topology, d: nat)
    requires Acyclic(t) && d in t.kind
    ensures Outside(t, Parent(d), t.rank[d])
    ensures Parent(d) in t.dev ==> t.rank[t.dev[Parent(d)]] < t.rank[d]
  {
  }

  lemma FrameCompose(t: Topology, s: Claims, s1: Claims, s2: Claims, r: nat, u: User)
    requires s.active.Keys == s1.active.Keys == s2.active.Keys
    requires Framed(t, s, s1, r, u) && Framed(t, s1, s2, r, u)
    ensures Framed(t, s, s2, r, u)
  {
  }

  lemma LiftFromEnter(t: Topology, s0: Claims, s': Claims, u: User, d: nat, r: nat)
    requires Consistent(t, s0, r) && u in t.dev && t.dev[u] == d && u !in s0.claimed && Outside(t, u, r)
    requires t.rank[d] < r && s0.active[d] == 0 && Stacked(t.kind[d])
    requires Consistent(t, s', t.rank[d]) && Framed(t, Enter(t, s0, u), s', t.rank[d], Parent(d))
    requires Parent(d) in s'.claimed
    ensures Consistent(t, s', r)
  {
    hide DeviceOk;
    EnterOthers(t, s0, u, r);
    Lift(t, Enter(t, s0, u), s', d, r);
  }

  lemma LiftFromLeave(t: Topology, s0: Claims, s': Claims, u: User, d: nat, r: nat)
    requires Consistent(t, s0, r) && u in s0.claimed && t.dev[u] == d && Outside(t, u, r)
    requires t.rank[d] < r && s0.active[d] == 1 && Stacked(t.kind[d]) && Parent(d) in t.dev
    requires Consistent(t, s', t.rank[d]) && Framed(t, Leave(t, s0, u), s', t.rank[d], Parent(d))
    requires Parent(d) !in s'.claimed
    ensures Consistent(t, s', r)
  {
    hide DeviceOk;
    LeaveOthers(t, s0, u, r);
    Lift(t, Leave(t, s0, u), s', d, r);
  }

  /** Re-attaching users that hold no claim leaves every device in order. */
  lemma Reattached(t: Topology, t': Topology, s: Claims)
    requires AllOk(t, s) && t'.kind == t.kind && Acyclic(t')
    requires forall u :: u in s.claimed ==> u in t'.dev && t'.dev[u] == t.dev[u]
    ensures AllOk(t', s)
  {
    forall x | x in t'.kind ensures DeviceOk(t', s, x) {
      assert ClaimedUsers(t', s, x) == ClaimedUsers(t, s, x) && DeviceOk(t, s, x);
    }
  }

  /** A new device has no users. */
  lemma NewDeviceOk(t: Topology, s: Claims, d: nat, k: Kind)
    requires AllOk(t, s) && d !in t.kind
    ensures AllOk(Topology(t.kind[d := k], t.dev, t.rank[d := 0]), Claims(s.active[d := 0], s.claimed))
  {
    var t', s' := Topology(t.kind[d := k], t.dev, t.rank[d := 0]), Claims(s.active[d := 0], s.claimed);
    assert ClaimedUsers(t', s', d) == {};
    forall x | x in t'.kind ensures DeviceOk(t', s', x) {
      if x != d {
        assert ClaimedUsers(t', s', x) == ClaimedUsers(t, s, x) && DeviceOk(t, s, x);
      }
    }
  }

  lemma ClientGone(t: Topology, t': Topology, s: Claims, n: nat)
    requires AllOk(t, s) && Client(n) !in s.claimed && t' == t.(dev := t.dev - {Client(n)})
    ensures AllOk(t', s)
  {
    Reattached(t, t', s);
  }

  lemma ClientMoved(t: Topology, t': Topology, s: Claims, n: nat, d: nat)
    requires AllOk(t, s) && Client(n) !in s.claimed && d in t.kind && t' == t.(dev := t.dev[Client(n) := d])
    ensures AllOk(t', s)
  {
    Reattached(t, t', s);
  }

  /** The device table of the daemon. */
  class DeviceTable {
    var kind: map<nat, Kind>
    var dev: map<User, nat>
    ghost var rank: map<nat, nat>
    var active: map<nat, int>
    var claimed: set<User>
    var luck: seq<bool>

    ghost function Topo(): Topology
      reads this`kind, this`dev, this`rank
    {
      Topology(kind, dev, rank)
    }

    ghost function State(): Claims
      reads this`active, this`claimed
    {
      Claims(active, claimed)
    }

    ghost predicate Valid()
      reads this
    {
      AllOk(Topo(), State())
    }

    constructor (luck: seq<bool>)
      ensures Valid() && kind == map[] && dev == map[] && claimed == {} && this.luck == luck
    {
      kind, dev, rank, active, claimed, this.luck := map[], map[], map[], map[], {}, luck;
    }

    /** A kernel call: it succeeds or fails as `luck` says. */
    method Kernel() returns (ok: bool)
      modifies this`luck
      ensures ok == Good(old(luck), 0) && luck == From(old(luck), 1)
    {
      ok := luck == [] || luck[0];
      luck := if luck == [] then [] else luck[1..];
    }

    /** device_claim. A failed claim leaves every count and flag as it was. */
    method Claim(u: User, ghost r: nat) returns (ret: int)
      requires Consistent(Topo(), State(), r) && Outside(Topo(), u, r)
      requires u in dev ==> rank[dev[u]] < r
      modifies this`active, this`claimed, this`luck
      ensures ret == 0 || ret == -1
      ensures ret == 0 <==> Succeeds(Topo(), old(State()), u, old(luck))
      ensures ret == 0 ==> luck == From(old(luck), CallsOf(kind, IdleStack(Topo(), old(State()), u)))
      ensures Consistent(Topo(), State(), r) && Framed(Topo(), old(State()), State(), r, u)
      ensures ret == 0 ==> u in claimed
      ensures ret != 0 ==> State() == old(State()) && u !in claimed
      ensures u !in dev || u in old(claimed) ==> State() == old(State())
      decreases if u in dev then rank[dev[u]] + 1 else 0, 2
    {
      hide DeviceOk, Acyclic, Framed, Outside, Consistent, Succeeds, IdleStack, CallsOf, From, Good, Calls, UpSucceeds,
           UpCalls;
      ghost var t, s0 := Topo(), State();
      ClaimStarts(t, s0, u, r, luck);
      if u in claimed {
        return 0;
      }
      if u !in dev {
        return -1;
      }
      var d := dev[u];
      claimed := claimed + {u};
      active := active[d := active[d] + 1];
      assert State() == Enter(t, s0, u);
      if active[d] != 1 {
        return 0;
      }
      ret := SetStateUp(d, r, u, s0);
    }

    /** dev->set_state(dev, true), for a device whose count has just become one; undone when it fails */
    method SetStateUp(d: nat, ghost r: nat, u: User, ghost s0: Claims) returns (ret: int)
      requires Consistent(Topo(), s0, r) && Outside(Topo(), u, r)
      requires u in dev && dev[u] == d && rank[d] < r && u !in s0.claimed && s0.active[d] == 0
      requires State() == Enter(Topo(), s0, u)
      modifies this`active, this`claimed, this`luck
      ensures ret == 0 || ret == -1
      ensures ret == 0 <==> Succeeds(Topo(), s0, u, old(luck))
      ensures ret == 0 ==> luck == From(old(luck), CallsOf(kind, IdleStack(Topo(), s0, u)))
      ensures ret == 0 ==> Consistent(Topo(), State(), r) && Framed(Topo(), s0, State(), r, u) && u in claimed
      ensures ret != 0 ==> State() == s0
      decreases rank[d] + 1, 1
    {
      hide DeviceOk, Acyclic, Framed, Outside, Consistent, Succeeds, IdleStack, CallsOf, From, Good, Calls, UpSucceeds,
           UpCalls;
      ghost var t := Topo();
      ClaimStarts(t, s0, u, r, luck);
      if Stacked(kind[d]) {
        ret := SetStackedUp(d, r, u, s0);
      } else {
        ret := SetSimpleUp(d, r, u, s0);
      }
      if ret != 0 {
        Undo(t, s0, u);
        active := active[d := 0];
        claimed := claimed - {u};
      }
    }

    /** set_device_state, or system_if_resolve for an external device */
    method SetSimpleUp(d: nat, ghost r: nat, ghost u: User, ghost s0: Claims) returns (ret: int)
      requires Consistent(Topo(), s0, r) && Outside(Topo(), u, r) && d in kind && !Stacked(kind[d])
      requires u in dev && dev[u] == d && rank[d] < r && u !in s0.claimed && s0.active[d] == 0
      requires State() == Enter(Topo(), s0, u)
      modifies this`luck
      ensures ret == 0 || ret == -1
      ensures ret == 0 <==> Good(old(luck), 0)
      ensures luck == From(old(luck), 1)
      ensures Consistent(Topo(), State(), r) && Framed(Topo(), s0, State(), r, u) && u in claimed
    {
      hide DeviceOk, Acyclic, Framed, Outside;
      EnterFirst(Topo(), s0, u, r);
      FrameThrough(Topo(), s0, State(), State(), d, r, u);
      var ok := Kernel();
      ret := if ok then 0 else -1;
    }

    /** system_vlan_add, whose result is ignored, or system_vlandev_add and system_macvlan_add; then
        set_device_state */
    method AddAndRaise(k: Kind) returns (ok: bool)
      requires Stacked(k)
      modifies this`luck
      ensures ok == ComesUp(k, old(luck), 0)
      ensures ok ==> luck == From(old(luck), 2)
    {
      FromFrom(luck, 1);
      ok := Kernel();
      if k.Vlan? || ok {
        ok := Kernel();
      }
    }

    /** vlan_set_device_state, vlandev_set_up and macvlan_set_up */
    method SetStackedUp(d: nat, ghost r: nat, ghost u: User, ghost s0: Claims) returns (ret: int)
      requires Consistent(Topo(), s0, r) && Outside(Topo(), u, r) && d in kind && Stacked(kind[d])
      requires u in dev && dev[u] == d && rank[d] < r && u !in s0.claimed && s0.active[d] == 0
      requires State() == Enter(Topo(), s0, u)
      modifies this`active, this`claimed, this`luck
      ensures ret == 0 || ret == -1
      ensures ret == 0 <==> UpSucceeds(Topo(), s0, d, old(luck))
      ensures ret == 0 ==> luck == From(old(luck), UpCalls(Topo(), s0, d))
      ensures ret == 0 ==> Consistent(Topo(), State(), r) && Framed(Topo(), s0, State(), r, u) && u in claimed
      ensures ret != 0 ==> State() == old(State())
      decreases rank[d] + 1, 0
    {
      hide DeviceOk, Acyclic, Framed, Outside, AllComeUp, IdleStack, Grounded, ComesUp, Good, From, Calls, CallsOf,
           Consistent, Succeeds, UpSucceeds, UpCalls;
      ghost var t, s1, luck0 := Topo(), State(), luck;
      StackedStarts(t, s0, u, d, r, luck0);
      ret := Claim(Parent(d), rank[d]);
      if ret != 0 {
        return;
      }
      StackedIsUp(t, s0, s1, State(), u, d, r);
      ret := RaiseStacked(d, s1);
    }

    /** The rest of it, when the device under `d` is claimed: the claim is given back if a call fails. */
    method RaiseStacked(d: nat, ghost s1: Claims) returns (ret: int)
      requires d in kind && d in rank && Stacked(kind[d]) && Outside(Topo(), Parent(d), rank[d])
      requires Consistent(Topo(), s1, rank[d]) && Parent(d) !in s1.claimed
      requires Consistent(Topo(), State(), rank[d]) && Framed(Topo(), s1, State(), rank[d], Parent(d))
      requires Parent(d) in dev ==> rank[dev[Parent(d)]] < rank[d]
      modifies this`active, this`claimed, this`luck
      ensures ret == 0 || ret == -1
      ensures ret == 0 <==> ComesUp(kind[d], old(luck), 0)
      ensures ret == 0 ==> State() == old(State()) && luck == From(old(luck), 2)
      ensures ret != 0 ==> State() == s1
      decreases rank[d] + 1, 0
    {
      hide DeviceOk, Acyclic, Framed, Outside, ComesUp, Consistent;
      ghost var t, s2 := Topo(), State();
      ret := 0;
      var ok := AddAndRaise(kind[d]);
      if !ok {
        Release(Parent(d), rank[d]);
        StackedIsDown(t, s1, s2, State(), d);
        ret := -1;
      }
    }

    /** device_release */
    method Release(u: User, ghost r: nat)
      requires Consistent(Topo(), State(), r) && Outside(Topo(), u, r)
      requires u in dev ==> rank[dev[u]] < r
      modifies this`active, this`claimed
      ensures Consistent(Topo(), State(), r) && Framed(Topo(), old(State()), State(), r, u)
      ensures u !in claimed
      decreases if u in dev then rank[dev[u]] + 1 else 0, 1
    {
      if u !in claimed {
        return;
      }
      assert u in dev && dev[u] in kind && dev[u] in active && active.Keys == kind.Keys && Acyclic(Topo());
      hide DeviceOk, Acyclic, Framed, Outside, Consistent;
      ghost var t, s0 := Topo(), State();
      var d := dev[u];
      LeaveStill(t, s0, u, r);
      claimed := claimed - {u};
      active := active[d := active[d] - 1];
      ghost var s1 := State();
      assert s1 == Leave(t, s0, u);
      FrameThrough(t, s0, s1, s1, d, r, u);
      if active[d] != 0 {
        return;
      }
      if Stacked(kind[d]) {
        OwnParentOutside(t, d);
        Release(Parent(d), rank[d]);
        LiftFromLeave(t, s0, State(), u, d, r);
        FrameThrough(t, s0, s1, State(), d, r, u);
      }
    }

    // ----- what the rest of the daemon calls

    /** device_claim by an interface */
    method ClaimClient(n: nat) returns (ret: int)
      requires Valid()
      modifies this`active, this`claimed, this`luck
      ensures Valid()
      ensures ret == 0 || ret == -1
      ensures ret == 0 <==> Succeeds(Topo(), old(State()), Client(n), old(luck))
      ensures ret == 0 ==> Client(n) in claimed
      ensures ret != 0 ==> State() == old(State()) && Client(n) !in claimed
      ensures forall m :: m != n ==> (Client(m) in claimed <==> Client(m) in old(claimed))
    {
      ghost var r := MaxRank(Topo(), rank.Keys) + 1;
      ghost var s := State();
      ret := Claim(Client(n), r);
      assert forall m :: Outside(Topo(), Client(m), r);
    }

    /** device_release by an interface */
    method ReleaseClient(n: nat)
      requires Valid()
      modifies this`active, this`claimed
      ensures Valid() && Client(n) !in claimed
      ensures forall m :: m != n ==> (Client(m) in claimed <==> Client(m) in old(claimed))
    {
      ghost var r := MaxRank(Topo(), rank.Keys) + 1;
      Release(Client(n), r);
      assert forall m :: Outside(Topo(), Client(m), r);
    }

    /** A new device, down and without users. */
    method AddDevice(d: nat, k: Kind)
      requires Valid() && d !in kind
      modifies this
      ensures Valid()
      ensures kind == old(kind)[d := k] && dev == old(dev) && claimed == old(claimed)
      ensures active == old(active)[d := 0] && luck == old(luck)
    {
      hide AllOk;
      NewDeviceOk(Topo(), State(), d, k);
      kind, rank, active := kind[d := k], rank[d := 0], active[d := 0];
    }

    /** device_remove_user by an interface */
    method RemoveClient(n: nat)
      requires Valid()
      modifies this
      ensures Valid() && dev == old(dev) - {Client(n)} && Client(n) !in claimed
      ensures kind == old(kind)
      ensures forall m :: m != n ==> (Client(m) in claimed <==> Client(m) in old(claimed))
    {
      ReleaseClient(n);
      hide AllOk, Acyclic;
      ghost var t := Topo();
      dev := dev - {Client(n)};
      ClientGone(t, Topo(), State(), n);
    }

    /** __device_add_user by an interface that is not attached */
    method AttachClient(n: nat, d: nat)
      requires Valid() && d in kind && Client(n) !in dev
      modifies this`dev
      ensures Valid() && dev == old(dev)[Client(n) := d] && Client(n) !in claimed
    {
      assert Client(n) !in claimed;
      hide AllOk, Acyclic;
      ghost var t := Topo();
      dev := dev[Client(n) := d];
      ClientMoved(t, Topo(), State(), n, d);
    }

    /** device_add_user by an interface: it lets go of the device it referred to before. */
    method AddClient(n: nat, d: nat)
      requires Valid() && d in kind
      modifies this
      ensures Valid() && kind == old(kind)
      ensures dev == old(dev)[Client(n) := d]
      ensures Client(n) in old(dev) && old(dev)[Client(n)] == d ==> State() == old(State())
      ensures !(Client(n) in old(dev) && old(dev)[Client(n)] == d) ==> Client(n) !in claimed
      ensures forall m :: m != n ==> (Client(m) in claimed <==> Client(m) in old(claimed))
    {
      hide AllOk, Acyclic;
      if Client(n) in dev {
        if dev[Client(n)] == d {
          return;
        }
        RemoveClient(n);
      }
      AttachClient(n, d);
      assert dev == old(dev)[Client(n) := d];
    }

    /** device_add_user by a stacked device: its parent user lets go of the device it referred to
        before, and claims nothing on the new one. So the claims stay in order exactly if the stacked
        device is down or stays where it is. `order` ranks the devices with the new edge in place; the
        configuration must not build a cycle. */
    method AttachParent(c: nat, p: nat, ghost order: map<nat, nat>)
      requires Valid() && c in kind && p in kind && Stacked(kind[c])
      requires Acyclic(Topology(kind, dev[Parent(c) := p], order))
      modifies this
      ensures dev == old(dev)[Parent(c) := p] && kind == old(kind) && luck == old(luck)
      ensures Valid() <==> old(active)[c] == 0 || (Parent(c) in old(dev) && old(dev)[Parent(c)] == p)
      ensures Valid() ==> State() == old(State())
      ensures !Valid() ==> Parent(c) !in claimed && active.Keys == old(active).Keys && active[c] == old(active)[c] > 0
    {
      hide AllOk, Acyclic, DeviceOk, Consistent, Framed, Outside;
      ghost var t, s := Topo(), State();
      var u := Parent(c);
      StackedHolds(t, s, c);
      if u in dev && dev[u] == p {
        assert dev[u := p] == dev;
        return;
      }
      if u in dev {
        Release(u, rank[c]);
        FramedAt(t, s, State(), c, u);
      }
      dev, rank := dev[u := p], order;
      if s.active[c] == 0 {
        Reattached(t, Topo(), s);
      } else {
        UnheldIsNotOk(Topo(), State(), c);
      }
    }
  }

  /** What a stacked device that is in order may rely on when it is moved. */
  lemma StackedHolds(t: Topology, s: Claims, c: nat)
    requires AllOk(t, s) && c in t.kind && Stacked(t.kind[c])
    ensures c in t.rank && c in s.active && s.active.Keys == t.kind.Keys && s.active[c] >= 0
    ensures Parent(c) in s.claimed <==> s.active[c] > 0
    ensures s.claimed <= t.dev.Keys
    ensures Consistent(t, s, t.rank[c]) && Outside(t, Parent(c), t.rank[c])
    ensures Parent(c) in t.dev ==> t.dev[Parent(c)] in t.rank && t.rank[t.dev[Parent(c)]] < t.rank[c]
  {
    assert DeviceOk(t, s, c);
  }

  /** Releasing the parent user of `c` leaves the count of `c`, and everything else if there was no
      claim. */
  lemma FramedAt(t: Topology, s: Claims, s': Claims, c: nat, u: User)
    requires AllOk(t, s) && c in t.kind && u == Parent(c)
    requires c in t.rank && Consistent(t, s', t.rank[c]) && Framed(t, s, s', t.rank[c], u)
    requires u !in s'.claimed && Outside(t, u, t.rank[c]) && Consistent(t, s, t.rank[c])
    ensures s'.active.Keys == s.active.Keys && s'.active[c] == s.active[c]
    ensures u !in s.claimed ==> s' == s
  {
    hide DeviceOk;
    assert t.rank.Keys == t.kind.Keys;
    if u !in s.claimed {
      Unchanged(t, s, s', t.rank[c], u);
    }
  }

  lemma UnheldIsNotOk(t: Topology, s: Claims, c: nat)
    requires c in t.kind && Stacked(t.kind[c]) && c in s.active && s.active[c] > 0 && Parent(c) !in s.claimed
    ensures !AllOk(t, s)
  {
    assert !DeviceOk(t, s, c);
  }

  // ----- a stack that is moved while it is up

  /** Device 2 is a VLAN on device 0, and an interface uses it; device 1 is another base device. */
  const STACK := Topology(map[0 := Simple, 1 := Simple, 2 := Vlan], map[Client(0) := 2, Parent(2) := 0],
                          map[0 := 0, 1 := 0, 2 := 1])
  const RUNNING := Claims(map[0 := 1, 1 := 0, 2 := 1], {Client(0), Parent(2)})

  /** The state in which moving the VLAN to device 1 leaves it: device 0 was let go, nothing was
      claimed. Before that every device is in order, and after it the VLAN is up without its parent. */
  lemma MovedStackIsBroken()
    ensures AllOk(STACK, RUNNING)
    ensures !AllOk(STACK.(dev := STACK.dev[Parent(2) := 1]), Claims(map[0 := 0, 1 := 0, 2 := 1], {Client(0)}))
  {
    assert ClaimedUsers(STACK, RUNNING, 0) == {Parent(2)};
    assert ClaimedUsers(STACK, RUNNING, 1) == {};
    assert ClaimedUsers(STACK, RUNNING, 2) == {Client(0)};
    UnheldIsNotOk(STACK.(dev := STACK.dev[Parent(2) := 1]), Claims(map[0 := 0, 1 := 0, 2 := 1], {Client(0)}), 2);
  }

  lemma ClaimedIsActive(t: Topology, s: Claims, u: User)
    requires AllOk(t, s) && u in s.claimed
    ensures u in t.dev && t.dev[u] in s.active && s.active[t.dev[u]] > 0
  {
    var d := t.dev[u];
    assert DeviceOk(t, s, d) && u in ClaimedUsers(t, s, d);
  }

  /** The VLAN may stand on either device. */
  lemma EitherParent(p: nat)
    requires p < 2
    ensures Acyclic(Topology(STACK.kind, map[][Parent(2) := p], STACK.rank))
    ensures Acyclic(Topology(STACK.kind, STACK.dev[Parent(2) := p], STACK.rank))
  {
  }

  /** From a new table: the three devices, the VLAN on device 0, and the interface on the VLAN */
  method BuildStack() returns (table: DeviceTable)
    ensures fresh(table) && table.Valid() && table.kind == STACK.kind && table.dev == STACK.dev && table.luck == []
  {
    hide AllOk, Acyclic;
    table := new DeviceTable([]);
    table.AddDevice(0, Simple);
    table.AddDevice(1, Simple);
    table.AddDevice(2, Vlan);
    assert table.kind == STACK.kind;
    EitherParent(0);
    table.AttachParent(2, 0, STACK.rank);
    table.AttachClient(0, 2);
    assert table.dev == STACK.dev;
  }

  /** With every call succeeding, an interface attached to a stack that is attached all the way down can
      claim it. */
  lemma StackIsClaimed(t: Topology, s: Claims)
    requires AllOk(t, s) && t.kind == STACK.kind && t.dev == STACK.dev
    ensures Succeeds(t, s, Client(0), [])
  {
    assert Grounded(t, s, Parent(2));
  }

  /** Then the interface claims the VLAN, and the VLAN moves to device 1: it is up without a claim on the
      device it stands on. */
  method MoveWhileUp() returns (table: DeviceTable)
    ensures !table.Valid() && table.dev == STACK.dev[Parent(2) := 1]
    ensures 2 in table.active && table.active[2] > 0 && Parent(2) !in table.claimed
  {
    hide AllOk, Acyclic, DeviceOk, Succeeds;
    table := BuildStack();
    StackIsClaimed(table.Topo(), table.State());
    var ret := table.ClaimClient(0);
    ClaimedIsActive(table.Topo(), table.State(), Client(0));
    EitherParent(1);
    StackedHolds(table.Topo(), table.State(), 2);
    table.AttachParent(2, 1, STACK.rank);
  }
}
