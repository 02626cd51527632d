/** Presence of stacked devices (device.c, device.h, and the ADD/REMOVE callbacks of vlan.c,
    vlandev.c and macvlan.c).

    A device is present when the system has it and it is neither disabled nor deferred. A
    stacked device takes "the system has it" from the ADD and REMOVE events of the device
    under it, which are delivered recursively, in the order of the user list.
 */
module DevicePresence {

  /** The presence fields of all devices, and which device each stacked one stands on. */
  datatype Devices = Devices(
    ids: set<nat>,
    parent: map<nat, nat>,
    sys: map<nat, bool>,
    present: map<nat, bool>,
    disabled: map<nat, bool>,
    deferred: map<nat, bool>)

  ghost predicate Shaped(v: Devices, rank: map<nat, nat>, top: nat)
  {
    && v.sys.Keys == v.ids && v.present.Keys == v.ids && v.disabled.Keys == v.ids && v.deferred.Keys == v.ids
    && rank.Keys == v.ids
    && (forall d :: d in rank ==> rank[d] <= top)
    && (forall c :: c in v.parent ==> c in v.ids && v.parent[c] in v.ids && rank[v.parent[c]] < rank[c])
  }

  /** `present` is up to date with the device's own fields. */
  ghost predicate Fresh(v: Devices, d: nat)
    requires d in v.ids && d in v.sys && d in v.present && d in v.disabled && d in v.deferred
  {
    v.present[d] == (v.sys[d] && !v.disabled[d] && !v.deferred[d])
  }

  /** A stacked device has heard the last event of the device under it; one of `late` may still
      believe that it is there. */
  ghost predicate Linked(v: Devices, late: set<nat>, c: nat)
    requires c in v.sys && (c in v.parent ==> v.parent[c] in v.present)
  {
    c in v.parent ==> v.sys[c] == v.present[v.parent[c]] || (c in late && v.sys[c])
  }

  /** The devices that believe in an absent device: they were moved onto it, and it has not appeared
      since. */
  ghost function Late(v: Devices): set<nat>
  {
    set c | c in v.parent && c in v.sys && v.parent[c] in v.present && v.sys[c] && !v.present[v.parent[c]]
  }

  /** No event is outstanding anywhere, but devices of `late` may be late. */
  ghost predicate Quiescent(v: Devices, rank: map<nat, nat>, top: nat, late: set<nat>)
  {
    Shaped(v, rank, top) && forall d :: d in v.ids ==> Fresh(v, d) && Linked(v, late, d)
  }

  lemma OnlyLate(v: Devices, rank: map<nat, nat>, top: nat, late: set<nat>)
    requires Quiescent(v, rank, top, late)
    ensures Late(v) <= late && Quiescent(v, rank, top, Late(v))
  {
    forall d | d in v.ids ensures Fresh(v, d) && Linked(v, Late(v), d) && (d in Late(v) ==> d in late) {
      assert Linked(v, late, d);
    }
  }

  /** `x` stands on `d`, directly or through others. */
  ghost predicate Under(v: Devices, rank: map<nat, nat>, top: nat, x: nat, d: nat)
    requires Shaped(v, rank, top) && x in v.ids
    decreases rank[x]
  {
    x == d || (x in v.parent && Under(v, rank, top, v.parent[x], d))
  }

  lemma {:induction false} UnderRank(v: Devices, rank: map<nat, nat>, top: nat, x: nat, d: nat)
    requires Shaped(v, rank, top) && x in v.ids && Under(v, rank, top, x, d)
    ensures d in v.ids && rank[d] <= rank[x]
    decreases rank[x]
  {
    if x != d {
      UnderRank(v, rank, top, v.parent[x], d);
    }
  }

  lemma {:induction false} UnderTransitive(v: Devices, rank: map<nat, nat>, top: nat, x: nat, c: nat, d: nat)
    requires Shaped(v, rank, top) && x in v.ids && Under(v, rank, top, x, c)
    requires c in v.ids && Under(v, rank, top, c, d)
    ensures Under(v, rank, top, x, d)
    decreases rank[x]
  {
    if x != c {
      UnderTransitive(v, rank, top, v.parent[x], c, d);
    }
  }

  /** Whoever stands on `d` stands on one of its children. */
  lemma {:induction false} UnderChild(v: Devices, rank: map<nat, nat>, top: nat, x: nat, d: nat) returns (c: nat)
    requires Shaped(v, rank, top) && x in v.ids && Under(v, rank, top, x, d) && x != d
    ensures c in v.parent && v.parent[c] == d && Under(v, rank, top, x, c)
    decreases rank[x]
  {
    if v.parent[x] == d {
      c := x;
    } else {
      c := UnderChild(v, rank, top, v.parent[x], d);
    }
  }

  /** Nobody stands on two children of the same device. */
  lemma {:induction false} SiblingsApart(v: Devices, rank: map<nat, nat>, top: nat, x: nat, c: nat, c': nat)
    requires Shaped(v, rank, top) && x in v.ids && c != c'
    requires c in v.parent && c' in v.parent && v.parent[c] == v.parent[c']
    ensures !(Under(v, rank, top, x, c) && Under(v, rank, top, x, c'))
    decreases rank[x]
  {
    if Under(v, rank, top, x, c) && Under(v, rank, top, x, c') {
      if x == c {
        UnderRank(v, rank, top, v.parent[c], c');
      } else if x == c' {
        UnderRank(v, rank, top, v.parent[c'], c);
      } else {
        SiblingsApart(v, rank, top, v.parent[x], c, c');
      }
    }
  }

  // ----- what quiescence means

  /** The device at the bottom of the stack that `d` belongs to. */
  ghost function Base(v: Devices, rank: map<nat, nat>, top: nat, d: nat): (b: nat)
    requires Shaped(v, rank, top) && d in v.ids
    ensures b in v.ids && b !in v.parent
    decreases rank[d]
  {
    if d in v.parent then Base(v, rank, top, v.parent[d]) else d
  }

  predicate Blocked(v: Devices, d: nat)
    requires d in v.disabled && d in v.deferred
  {
    v.disabled[d] || v.deferred[d]
  }

  /** The system has the base device and no device on the way down is disabled or deferred. */
  ghost predicate PathClear(v: Devices, rank: map<nat, nat>, top: nat, d: nat)
    requires Shaped(v, rank, top) && d in v.ids
  {
    && v.sys[Base(v, rank, top, d)]
    && (forall x :: x in v.ids && Under(v, rank, top, d, x) ==> !Blocked(v, x))
  }

  lemma PathStep(v: Devices, rank: map<nat, nat>, top: nat, d: nat)
    requires Shaped(v, rank, top) && d in v.ids
    ensures PathClear(v, rank, top, d)
            <==> !Blocked(v, d) && (if d in v.parent then PathClear(v, rank, top, v.parent[d]) else v.sys[d])
  {
    assert Under(v, rank, top, d, d);
    if d in v.parent {
      assert forall x :: x in v.ids ==> (Under(v, rank, top, d, x) <==> x == d || Under(v, rank, top, v.parent[d], x));
    }
  }

  /** At rest, a device is present exactly when its path is clear, if nobody on the path is late
      without being disabled or deferred. */
  lemma {:induction false} PresentIfTimely(v: Devices, rank: map<nat, nat>, top: nat, d: nat)
    requires Quiescent(v, rank, top, Late(v)) && d in v.ids
    requires forall x :: x in v.ids && Under(v, rank, top, d, x) && x in Late(v) ==> Blocked(v, x)
    ensures v.present[d] <==> PathClear(v, rank, top, d)
    decreases rank[d]
  {
    hide PathClear;
    assert Fresh(v, d) && Linked(v, Late(v), d);
    assert Under(v, rank, top, d, d);
    PathStep(v, rank, top, d);
    if d in v.parent {
      PresentIfTimely(v, rank, top, v.parent[d]);
    }
  }

  /** Every device is present exactly when the system has its base device and no device on the way
      down is disabled or deferred, if and only if no device that is late could be present. */
  lemma PresentIffPathClear(v: Devices, rank: map<nat, nat>, top: nat)
    requires Quiescent(v, rank, top, Late(v))
    ensures (forall d :: d in v.ids ==> (v.present[d] <==> PathClear(v, rank, top, d)))
            <==> forall c :: c in Late(v) ==> Blocked(v, c)
  {
    hide PathClear;
    if forall c :: c in Late(v) ==> Blocked(v, c) {
      forall d | d in v.ids ensures v.present[d] <==> PathClear(v, rank, top, d) {
        PresentIfTimely(v, rank, top, d);
      }
    } else {
      var c :| c in Late(v) && !Blocked(v, c);
      assert Fresh(v, c);
      PathStep(v, rank, top, c);
    }
  }

  /** In general, a late device counts as the base of what stands on it. */
  ghost function Anchor(v: Devices, rank: map<nat, nat>, top: nat, d: nat): (b: nat)
    requires Shaped(v, rank, top) && d in v.ids
    ensures b in v.ids
    decreases rank[d]
  {
    if d in v.parent && d !in Late(v) then Anchor(v, rank, top, v.parent[d]) else d
  }

  /** `x` is on the way from `d` down to its anchor. */
  ghost predicate OnTheWay(v: Devices, rank: map<nat, nat>, top: nat, d: nat, x: nat)
    requires Shaped(v, rank, top) && d in v.ids
    decreases rank[d]
  {
    x == d || (d in v.parent && d !in Late(v) && OnTheWay(v, rank, top, v.parent[d], x))
  }

  /** After every run: a device is present exactly when the system has, or a late device believes in,
      what is at its anchor, and no device on the way there is disabled or deferred. */
  lemma {:induction false} PresentIffAnchored(v: Devices, rank: map<nat, nat>, top: nat, d: nat)
    requires Quiescent(v, rank, top, Late(v)) && d in v.ids
    ensures v.present[d] <==>
            && v.sys[Anchor(v, rank, top, d)]
            && (forall x :: x in v.ids && OnTheWay(v, rank, top, d, x) ==> !Blocked(v, x))
    decreases rank[d]
  {
    assert Fresh(v, d) && Linked(v, Late(v), d);
    assert OnTheWay(v, rank, top, d, d);
    if d in v.parent && d !in Late(v) {
      PresentIffAnchored(v, rank, top, v.parent[d]);
      assert OnTheWay(v, rank, top, v.parent[d], v.parent[d]);
    }
  }

  // ----- propagation

  /** Everything that stands on `d`, other than `d` itself, is in order. */
  ghost predicate SettledAbove(v: Devices, rank: map<nat, nat>, top: nat, late: set<nat>, d: nat)
    requires Shaped(v, rank, top)
  {
    forall x :: x in v.ids && x != d && Under(v, rank, top, x, d) ==> Fresh(v, x) && Linked(v, late, x)
  }

  /** Only presence fields of devices standing on `d` changed. */
  ghost predicate OnlyAbove(v: Devices, v': Devices, rank: map<nat, nat>, top: nat, d: nat)
    requires Shaped(v, rank, top)
  {
    && Shaped(v', rank, top)
    && v'.ids == v.ids && v'.parent == v.parent && v'.disabled == v.disabled && v'.deferred == v.deferred
    && forall x :: x in v.ids && !Under(v, rank, top, x, d) ==> v'.sys[x] == v.sys[x] && v'.present[x] == v.present[x]
  }

  /** The shape of the stack does not depend on the presence fields. */
  lemma {:induction false} UnderSame(v: Devices, v': Devices, rank: map<nat, nat>, top: nat, x: nat, d: nat)
    requires Shaped(v, rank, top) && Shaped(v', rank, top) && v'.parent == v.parent && v'.ids == v.ids && x in v.ids
    ensures Under(v', rank, top, x, d) <==> Under(v, rank, top, x, d)
    decreases rank[x]
  {
    if x in v.parent {
      UnderSame(v, v', rank, top, v.parent[x], d);
    }
  }

  /** The state of a broadcast of `state` by `d` with the users in `todo` still to be told. */
  ghost predicate Telling(v: Devices, rank: map<nat, nat>, top: nat, late: set<nat>, d: nat, state: bool,
                          todo: set<nat>)
    requires Shaped(v, rank, top)
  {
    && d in v.ids && v.present[d] == state
    && (forall c :: c in todo ==> c in v.parent && v.parent[c] == d && Fresh(v, c))
    && (forall c :: c in v.parent && v.parent[c] == d && c !in todo ==> Fresh(v, c) && Linked(v, late, c))
    && (forall c :: c in v.parent && v.parent[c] == d ==> SettledAbove(v, rank, top, late, c))
  }

  lemma TellingStarts(v: Devices, rank: map<nat, nat>, top: nat, late: set<nat>, d: nat, state: bool)
    requires Shaped(v, rank, top) && d in v.ids && v.present[d] != state && SettledAbove(v, rank, top, late, d)
    ensures var v' := v.(present := v.present[d := state]);
            && Shaped(v', rank, top) && OnlyAbove(v, v', rank, top, d)
            && Telling(v', rank, top, late, d, state, set c | c in v.parent && v.parent[c] == d)
  {
    var v' := v.(present := v.present[d := state]);
    assert Under(v, rank, top, d, d);
    forall c | c in v.parent && v.parent[c] == d
      ensures Fresh(v', c) && SettledAbove(v', rank, top, late, c)
    {
      UnderChildOf(v, rank, top, c, d);
      assert Fresh(v, c) && Linked(v, late, c);
      SettledChild(v, v', rank, top, late, d, c);
    }
  }

  /** What stands on a child of `d` does not see `d` itself change. */
  lemma SettledChild(v: Devices, v': Devices, rank: map<nat, nat>, top: nat, late: set<nat>, d: nat, c: nat)
    requires Shaped(v, rank, top) && SettledAbove(v, rank, top, late, d) && c in v.parent && v.parent[c] == d
    requires d in v'.present && v' == v.(present := v.present[d := v'.present[d]])
    ensures Shaped(v', rank, top) && SettledAbove(v', rank, top, late, c)
  {
    UnderChildOf(v, rank, top, c, d);
    forall x | x in v.ids && x != c && Under(v', rank, top, x, c) ensures Fresh(v', x) && Linked(v', late, x) {
      UnderSame(v, v', rank, top, x, c);
      UnderTransitive(v, rank, top, x, c, d);
      UnderRank(v, rank, top, v.parent[x], c);
      assert Fresh(v, x) && Linked(v, late, x);
    }
  }

  lemma TellingStep(v: Devices, v': Devices, rank: map<nat, nat>, top: nat, late: set<nat>, d: nat, state: bool,
                    todo: set<nat>, c: nat)
    requires Shaped(v, rank, top) && Telling(v, rank, top, late, d, state, todo) && c in todo
    requires OnlyAbove(v, v', rank, top, c) && SettledAbove(v', rank, top, late, c)
    requires v'.sys[c] == state && Fresh(v', c)
    ensures Telling(v', rank, top, late, d, state, todo - {c})
    ensures d in v'.sys && v'.sys[d] == v.sys[d]
  {
    hide Under, SettledAbove;
    ApartFromChild(v, rank, top, d, c);
    forall y | y in v.parent && v.parent[y] == d && y != c
      ensures v'.sys[y] == v.sys[y] && v'.present[y] == v.present[y] && SettledAbove(v', rank, top, late, y)
    {
      SiblingKept(v, v', rank, top, late, d, c, y);
    }
  }

  lemma SiblingKept(v: Devices, v': Devices, rank: map<nat, nat>, top: nat, late: set<nat>, d: nat, c: nat, y: nat)
    requires Shaped(v, rank, top) && OnlyAbove(v, v', rank, top, c)
    requires c in v.parent && y in v.parent && v.parent[c] == d && v.parent[y] == d && c != y
    requires SettledAbove(v, rank, top, late, y)
    ensures v'.sys[y] == v.sys[y] && v'.present[y] == v.present[y] && SettledAbove(v', rank, top, late, y)
  {
    hide Fresh, Linked;
    assert Under(v, rank, top, y, y);
    SiblingsApart(v, rank, top, y, c, y);
    SettledSibling(v, v', rank, top, late, d, c, y);
  }

  lemma TellingNext(v0: Devices, v: Devices, rank: map<nat, nat>, top: nat, late: set<nat>, d: nat, state: bool,
                    todo: set<nat>, c: nat)
    requires Shaped(v0, rank, top) && OnlyAbove(v0, v, rank, top, d)
    requires Shaped(v, rank, top) && Telling(v, rank, top, late, d, state, todo) && c in todo
    ensures c in v.ids && d in rank && c in rank && rank[d] < rank[c] <= top
    ensures c in v.sys && c in v.present && c in v.disabled && c in v.deferred && v0.ids == v.ids
    ensures c in v.parent && v.parent[c] == d && Fresh(v, c) && SettledAbove(v, rank, top, late, c)
    ensures Under(v0, rank, top, c, d)
  {
    hide SettledAbove;
    UnderChildOf(v0, rank, top, c, d);
  }

  lemma ApartFromChild(v: Devices, rank: map<nat, nat>, top: nat, d: nat, c: nat)
    requires Shaped(v, rank, top) && c in v.parent && v.parent[c] == d
    ensures !Under(v, rank, top, d, c)
  {
    if Under(v, rank, top, d, c) {
      UnderRank(v, rank, top, d, c);
    }
  }

  lemma SettledSibling(v: Devices, v': Devices, rank: map<nat, nat>, top: nat, late: set<nat>, d: nat, c: nat, y: nat)
    requires Shaped(v, rank, top) && OnlyAbove(v, v', rank, top, c)
    requires c in v.parent && y in v.parent && v.parent[c] == d && v.parent[y] == d && c != y
    requires SettledAbove(v, rank, top, late, y)
    ensures SettledAbove(v', rank, top, late, y)
  {
    forall x | x in v.ids && x != y && Under(v', rank, top, x, y) ensures Fresh(v', x) && Linked(v', late, x) {
      UnderSame(v, v', rank, top, x, y);
      SiblingsApart(v, rank, top, x, c, y);
      SiblingsApart(v, rank, top, v.parent[x], c, y);
    }
  }

  lemma TellingDone(v0: Devices, v: Devices, rank: map<nat, nat>, top: nat, late: set<nat>, d: nat, state: bool)
    requires Shaped(v0, rank, top) && d in v0.ids && OnlyAbove(v0, v, rank, top, d)
    requires state == (v0.sys[d] && !v0.disabled[d] && !v0.deferred[d]) && d in v.sys && v.sys[d] == v0.sys[d]
    requires Shaped(v, rank, top) && Telling(v, rank, top, late, d, state, {})
    ensures SettledAbove(v, rank, top, late, d) && Fresh(v, d)
  {
    forall x | x in v.ids && x != d && Under(v, rank, top, x, d) ensures Fresh(v, x) && Linked(v, late, x) {
      var c := UnderChild(v, rank, top, x, d);
      assert x != c ==> SettledAbove(v, rank, top, late, c);
    }
  }

  lemma OnlyAboveCompose(v: Devices, v1: Devices, v2: Devices, rank: map<nat, nat>, top: nat, d: nat, c: nat)
    requires Shaped(v, rank, top) && OnlyAbove(v, v1, rank, top, d) && OnlyAbove(v1, v2, rank, top, c)
    requires c in v.ids && Under(v, rank, top, c, d)
    ensures OnlyAbove(v, v2, rank, top, d)
  {
    forall x | x in v.ids && !Under(v, rank, top, x, d)
      ensures v2.sys[x] == v.sys[x] && v2.present[x] == v.present[x]
    {
      UnderSame(v, v1, rank, top, x, c);
      if Under(v, rank, top, x, c) {
        UnderTransitive(v, rank, top, x, c, d);
      }
    }
  }

  lemma UnderChildOf(v: Devices, rank: map<nat, nat>, top: nat, c: nat, d: nat)
    requires Shaped(v, rank, top) && c in v.parent && v.parent[c] == d
    ensures Under(v, rank, top, c, d)
  {
    assert Under(v, rank, top, d, d);
  }

  /** The device list of the daemon. */
  class PresenceTable {
    var v: Devices
    ghost var rank: map<nat, nat>
    ghost var top: nat

    constructor ()
      ensures Valid() && v == Devices({}, map[], map[], map[], map[], map[])
    {
      v := Devices({}, map[], map[], map[], map[], map[]);
      rank, top := map[], 0;
    }

    ghost predicate Valid()
      reads this
    {
      Quiescent(v, rank, top, Late(v))
    }

    /** device_set_present */
    method SetPresent(d: nat, state: bool, ghost late: set<nat>)
      requires Shaped(v, rank, top) && d in v.ids && Fresh(v, d) && SettledAbove(v, rank, top, late, d)
      modifies this`v
      ensures OnlyAbove(old(v), v, rank, top, d) && SettledAbove(v, rank, top, late, d)
      ensures v.sys[d] == state && Fresh(v, d)
      decreases top - rank[d], 3
    {
      if v.sys[d] == state {
        return;
      }
      ghost var v0 := v;
      v := v.(sys := v.sys[d := state]);
      SettledKept(v0, v, rank, top, late, d);
      RefreshPresent(d, late);
      OnlyAboveCompose(v0, v0.(sys := v0.sys[d := state]), v, rank, top, d, d);
    }

    /** device_refresh_present and __device_set_present */
    method RefreshPresent(d: nat, ghost late: set<nat>)
      requires Shaped(v, rank, top) && d in v.ids && SettledAbove(v, rank, top, late, d)
      modifies this`v
      ensures OnlyAbove(old(v), v, rank, top, d) && SettledAbove(v, rank, top, late, d)
      ensures v.sys[d] == old(v).sys[d] && Fresh(v, d)
      decreases top - rank[d], 2
    {
      var state := v.sys[d];
      if v.disabled[d] || v.deferred[d] {
        state := false;
      }
      if v.present[d] == state {
        return;
      }
      Broadcast(d, state, late);
    }

    /** The new state of `d`, told to everybody who stands on it. */
    method Broadcast(d: nat, state: bool, ghost late: set<nat>)
      requires Shaped(v, rank, top) && d in v.ids && SettledAbove(v, rank, top, late, d)
      requires v.present[d] != state && state == (v.sys[d] && !v.disabled[d] && !v.deferred[d])
      modifies this`v
      ensures OnlyAbove(old(v), v, rank, top, d) && SettledAbove(v, rank, top, late, d)
      ensures v.sys[d] == old(v).sys[d] && Fresh(v, d)
      decreases top - rank[d], 1
    {
      hide SettledAbove, Under, Telling, Linked, OnlyAbove, Fresh, Shaped;
      ghost var v0 := v;
      TellingStarts(v, rank, top, late, d, state);
      v := v.(present := v.present[d := state]);
      var todo := set c | c in v.parent && v.parent[c] == d;
      while todo != {}
        invariant Shaped(v, rank, top) && OnlyAbove(v0, v, rank, top, d)
        invariant Telling(v, rank, top, late, d, state, todo)
        invariant d in v.sys && v.sys[d] == v0.sys[d]
        decreases todo
      {
        var c :| c in todo;
        TellUser(c, state, d, v0, todo, late);
        todo := todo - {c};
      }
      TellingDone(v0, v, rank, top, late, d, state);
    }

    /** The ADD or REMOVE callback of a device that stands on `d` */
    method TellUser(c: nat, state: bool, ghost d: nat, ghost v0: Devices, ghost todo: set<nat>, ghost late: set<nat>)
      requires Shaped(v0, rank, top) && Shaped(v, rank, top) && OnlyAbove(v0, v, rank, top, d)
      requires Telling(v, rank, top, late, d, state, todo) && c in todo && d in v.sys && d in v0.ids
      modifies this`v
      ensures Shaped(v, rank, top) && OnlyAbove(v0, v, rank, top, d)
      ensures Telling(v, rank, top, late, d, state, todo - {c})
      ensures d in v.sys && v.sys[d] == old(v).sys[d]
      decreases top - rank[d], 0
    {
      hide SettledAbove, Under, Telling, Linked, OnlyAbove, Fresh;
      ghost var v1 := v;
      TellingNext(v0, v, rank, top, late, d, state, todo, c);
      SetPresent(c, state, late);
      TellingStep(v1, v, rank, top, late, d, state, todo, c);
      OnlyAboveCompose(v0, v1, v, rank, top, d, c);
    }

    // ----- the steps of a run

    /** A device joins the list: not present, not configured. */
    method AddDevice(d: nat)
      requires Valid() && d !in v.ids
      modifies this
      ensures Valid() && Late(v) == Late(old(v))
      ensures v == Devices(old(v).ids + {d}, old(v).parent, old(v).sys[d := false], old(v).present[d := false],
                           old(v).disabled[d := false], old(v).deferred[d := false])
    {
      v := Devices(v.ids + {d}, v.parent, v.sys[d := false], v.present[d := false],
                   v.disabled[d := false], v.deferred[d := false]);
      rank := rank[d := 0];
      JoinedIsQuiescent(old(v), v, old(rank), rank, top, d);
    }

    /** A hotplug event for a device that stands on no other. */
    method Hotplug(d: nat, state: bool)
      requires Valid() && d in v.ids && d !in v.parent
      modifies this`v
      ensures Valid() && Late(v) <= Late(old(v))
      ensures v == old(v).(sys := v.sys, present := v.present)
      ensures v.sys[d] == state && BasesKept(old(v), v, d)
    {
      ghost var late := Late(v);
      SettledIfOrdered(v, rank, top, late, d);
      SetPresent(d, state, late);
      Resettled(old(v), v, rank, top, late, d);
      OnlyLate(v, rank, top, late);
    }

    /** device_set_disabled */
    method SetDisabled(d: nat, value: bool)
      requires Valid() && d in v.ids
      modifies this`v
      ensures Valid() && Late(v) <= Late(old(v))
      ensures v == old(v).(sys := v.sys, present := v.present, disabled := old(v).disabled[d := value])
      ensures BasesKept(old(v), v, d) && v.sys[d] == old(v).sys[d]
    {
      ghost var late := Late(v);
      ghost var v1 := v.(disabled := v.disabled[d := value]);
      SettingChanged(v, v1, rank, top, late, d);
      hide SettledAbove, OnlyAbove, Under, Quiescent, Late;
      v := v.(disabled := v.disabled[d := value]);
      RefreshPresent(d, late);
      SettingSettled(old(v), v1, v, rank, top, late, d);
      OnlyLate(v, rank, top, late);
    }

    /** device_set_deferred */
    method SetDeferred(d: nat, value: bool)
      requires Valid() && d in v.ids
      modifies this`v
      ensures Valid() && Late(v) <= Late(old(v))
      ensures v == old(v).(sys := v.sys, present := v.present, deferred := old(v).deferred[d := value])
      ensures BasesKept(old(v), v, d) && v.sys[d] == old(v).sys[d]
    {
      ghost var late := Late(v);
      ghost var v1 := v.(deferred := v.deferred[d := value]);
      SettingChanged(v, v1, rank, top, late, d);
      hide SettledAbove, OnlyAbove, Under, Quiescent, Late;
      v := v.(deferred := v.deferred[d := value]);
      RefreshPresent(d, late);
      SettingSettled(old(v), v1, v, rank, top, late, d);
      OnlyLate(v, rank, top, late);
    }

    /** A stacked device is put on another device (device_add_user on its parent user), or
        moved there from the one it stood on. Leaving the old device sends no event, and an
        absent new one sends none either. So the device is late afterwards exactly when the new
        device is absent and the stacked one believed in the old. `order` ranks the devices with
        the new edge in place; the configuration must not build a cycle. */
    method Attach(c: nat, p: nat, ghost order: map<nat, nat>, ghost bound: nat)
      requires Valid() && c in v.ids && p in v.ids && c != p
      requires Shaped(v.(parent := v.parent[c := p]), order, bound)
      modifies this
      ensures Valid() && Late(v) - {c} <= Late(old(v))
      ensures c in Late(v) <==> !old(v).present[p] && old(v).sys[c]
      ensures v == old(v).(sys := v.sys, present := v.present, parent := old(v).parent[c := p])
      ensures old(v).sys.Keys == old(v).ids == v.sys.Keys && BasesKept(old(v), v, c)
    {
      ghost var late := Late(v);
      ghost var v1 := v.(parent := v.parent[c := p]);
      AttachedOrder(v, v1, rank, order, top, late, bound, c, p);
      assert c in v.sys && p in v.present && c in v1.sys;
      hide SettledAbove, OnlyAbove, Under, Late, Quiescent, Linked, Fresh, Shaped;
      v, rank, top := v.(parent := v.parent[c := p]), order, bound;
      if v.present[p] {
        SetPresent(c, true, late);
        AttachedSettled(v1, v, rank, top, late, c, p);
        BasesMoved(old(v), v1, v, c, p);
        OnlyLate(v, rank, top, late);
        NotLate(v, rank, top, c, p);
      } else {
        AttachedLate(v, rank, top, late, c);
        BasesMoved(old(v), v1, v, c, p);
        OnlyLate(v, rank, top, late + {c});
        LateIff(v, c);
      }
    }

    /** device_remove_user on the parent user of a stacked device. */
    method Detach(c: nat)
      requires Valid() && c in v.ids
      modifies this`v
      ensures Valid() && v == old(v).(parent := old(v).parent - {c}) && Late(v) == Late(old(v)) - {c}
    {
      v := v.(parent := v.parent - {c});
      DetachedIsQuiescent(old(v), v, rank, top, c);
    }
  }

  lemma JoinedIsQuiescent(v: Devices, v': Devices, rank: map<nat, nat>, rank': map<nat, nat>, top: nat, d: nat)
    requires Quiescent(v, rank, top, Late(v)) && d !in v.ids && rank' == rank[d := 0]
    requires v' == Devices(v.ids + {d}, v.parent, v.sys[d := false], v.present[d := false],
                           v.disabled[d := false], v.deferred[d := false])
    ensures Late(v') == Late(v) && Quiescent(v', rank', top, Late(v'))
  {
    hide Late, Fresh, Linked;
    JoinedLate(v, v', rank, top, d);
    forall x | x in v'.ids ensures Fresh(v', x) && Linked(v', Late(v'), x) {
      if x in v.ids {
        JoinedKept(v, v', Late(v), d, x);
      } else {
        JoinedNew(v', Late(v), d);
      }
    }
  }

  lemma JoinedKept(v: Devices, v': Devices, late: set<nat>, d: nat, x: nat)
    requires x in v.ids && x in v.sys && x in v.present && x in v.disabled && x in v.deferred && x != d
    requires x in v.parent ==> v.parent[x] in v.present && v.parent[x] != d
    requires v' == Devices(v.ids + {d}, v.parent, v.sys[d := false], v.present[d := false],
                           v.disabled[d := false], v.deferred[d := false])
    requires Fresh(v, x) && Linked(v, late, x)
    ensures Fresh(v', x) && Linked(v', late, x)
  {
  }

  lemma JoinedNew(v: Devices, late: set<nat>, d: nat)
    requires d in v.ids && d in v.sys && d in v.present && d in v.disabled && d in v.deferred && d !in v.parent
    requires !v.sys[d] && !v.present[d]
    ensures Fresh(v, d) && Linked(v, late, d)
  {
  }

  lemma JoinedLate(v: Devices, v': Devices, rank: map<nat, nat>, top: nat, d: nat)
    requires Shaped(v, rank, top) && d !in v.ids && v'.parent == v.parent
    requires v'.sys == v.sys[d := false] && v'.present == v.present[d := false]
    ensures Late(v') == Late(v)
  {
    hide Shaped;
    assert forall c :: c in v.parent ==> c in v.ids && v.parent[c] in v.ids by { ParentsKnown(v, rank, top); }
    forall c ensures c in Late(v') <==> c in Late(v) {}
  }

  lemma ParentsKnown(v: Devices, rank: map<nat, nat>, top: nat)
    requires Shaped(v, rank, top)
    ensures forall c :: c in v.parent ==> c in v.ids && v.parent[c] in v.ids
  {
  }

  lemma DetachedIsQuiescent(v: Devices, v': Devices, rank: map<nat, nat>, top: nat, c: nat)
    requires Quiescent(v, rank, top, Late(v)) && v' == v.(parent := v.parent - {c})
    ensures Late(v') == Late(v) - {c} && Quiescent(v', rank, top, Late(v'))
  {
    assert Late(v') == Late(v) - {c};
    forall x | x in v'.ids ensures Fresh(v', x) && Linked(v', Late(v'), x) {
      assert Fresh(v, x) && Linked(v, Late(v), x);
    }
  }

  lemma NotLate(v: Devices, rank: map<nat, nat>, top: nat, c: nat, p: nat)
    requires Shaped(v, rank, top) && c in v.parent && v.parent[c] == p && p in v.present && v.present[p]
    ensures c !in Late(v)
  {
  }

  lemma LateIff(v: Devices, c: nat)
    requires c in v.parent && c in v.sys && v.parent[c] in v.present
    ensures c in Late(v) <==> v.sys[c] && !v.present[v.parent[c]]
  {
  }

  lemma AttachedLate(v: Devices, rank: map<nat, nat>, top: nat, late: set<nat>, c: nat)
    requires Shaped(v, rank, top) && c in v.parent && !v.present[v.parent[c]]
    requires forall x :: x in v.ids ==> Fresh(v, x)
    requires forall x :: x in v.ids && x != c ==> Linked(v, late, x)
    ensures Quiescent(v, rank, top, late + {c})
  {
    forall x | x in v.ids ensures Fresh(v, x) && Linked(v, late + {c}, x) {
      assert x != c ==> Linked(v, late, x);
    }
  }

  /** The base devices other than `d` are as the system last reported them. */
  ghost predicate BasesKept(v: Devices, v': Devices, d: nat)
    requires v.sys.Keys == v.ids && v'.sys.Keys == v.ids
  {
    forall x :: x in v.ids && x !in v.parent && x != d ==> v'.sys[x] == v.sys[x]
  }

  lemma SettingChanged(v: Devices, v': Devices, rank: map<nat, nat>, top: nat, late: set<nat>, d: nat)
    requires Quiescent(v, rank, top, late) && d in v.ids
    requires Shaped(v', rank, top) && v' == v.(disabled := v'.disabled, deferred := v'.deferred)
    requires forall x :: x in v.ids && x != d ==> v'.disabled[x] == v.disabled[x] && v'.deferred[x] == v.deferred[x]
    ensures SettledAbove(v', rank, top, late, d)
    ensures forall x :: x in v.ids && x != d ==> Fresh(v', x)
    ensures forall x :: x in v.ids ==> Linked(v', late, x)
  {
    SettledIfOrdered(v, rank, top, late, d);
    SettledKept(v, v', rank, top, late, d);
    forall x | x in v.ids ensures (x != d ==> Fresh(v', x)) && Linked(v', late, x) {
      assert Fresh(v, x) && Linked(v, late, x);
    }
  }

  lemma SettingSettled(v: Devices, v1: Devices, v2: Devices, rank: map<nat, nat>, top: nat, late: set<nat>, d: nat)
    requires Quiescent(v, rank, top, late) && d in v.ids
    requires Shaped(v1, rank, top) && v1 == v.(disabled := v1.disabled, deferred := v1.deferred)
    requires forall x :: x in v.ids && x != d ==> Fresh(v1, x)
    requires forall x :: x in v.ids ==> Linked(v1, late, x)
    requires OnlyAbove(v1, v2, rank, top, d) && SettledAbove(v2, rank, top, late, d) && Fresh(v2, d)
    requires v2.sys[d] == v1.sys[d]
    ensures Quiescent(v2, rank, top, late) && BasesKept(v, v2, d)
    ensures v2 == v1.(sys := v2.sys, present := v2.present)
  {
    Resettled(v1, v2, rank, top, late, d);
    assert Linked(v1, late, d);
  }

  lemma AttachedOrder(v: Devices, v': Devices, rank: map<nat, nat>, order: map<nat, nat>, top: nat,
                      late: set<nat>, bound: nat, c: nat, p: nat)
    requires Quiescent(v, rank, top, late) && c in v.ids && p in v.ids
    requires v' == v.(parent := v.parent[c := p]) && Shaped(v', order, bound)
    ensures forall x :: x in v.ids ==> Fresh(v', x)
    ensures forall x :: x in v.ids && x != c ==> Linked(v', late, x)
    ensures SettledAbove(v', order, bound, late, c)
  {
    forall x | x in v.ids ensures Fresh(v', x) && (x != c ==> Linked(v', late, x)) {
      assert Fresh(v, x) && Linked(v, late, x);
    }
    SettledIfOrdered(v', order, bound, late, c);
  }

  lemma AttachedSettled(v: Devices, v': Devices, rank: map<nat, nat>, top: nat, late: set<nat>, c: nat, p: nat)
    requires Shaped(v, rank, top) && c in v.ids && c in v.parent && v.parent[c] == p && v.present[p]
    requires forall x :: x in v.ids && x != c ==> Fresh(v, x) && Linked(v, late, x)
    requires OnlyAbove(v, v', rank, top, c) && SettledAbove(v', rank, top, late, c) && Fresh(v', c) && v'.sys[c]
    ensures Quiescent(v', rank, top, late) && v' == v.(sys := v'.sys, present := v'.present)
    ensures Shaped(v', rank, top) && p in v'.present && v'.present[p]
    ensures v.sys.Keys == v.ids == v'.sys.Keys && BasesKept(v, v', c)
  {
    Resettled(v, v', rank, top, late, c);
  }

  lemma BasesMoved(v: Devices, v1: Devices, v2: Devices, c: nat, p: nat)
    requires v.sys.Keys == v.ids && v1 == v.(parent := v.parent[c := p])
    requires v2 == v1 || (v2.sys.Keys == v2.ids == v.ids && BasesKept(v1, v2, c))
    ensures v2.sys.Keys == v.ids && BasesKept(v, v2, c)
  {
  }

  lemma SettledIfOrdered(v: Devices, rank: map<nat, nat>, top: nat, late: set<nat>, d: nat)
    requires Shaped(v, rank, top) && d in v.ids
    requires forall x :: x in v.ids && x != d ==> Fresh(v, x) && Linked(v, late, x)
    ensures SettledAbove(v, rank, top, late, d)
  {
  }

  /** Once everything above `d` has settled, nothing else is out of order. */
  lemma Resettled(v: Devices, v': Devices, rank: map<nat, nat>, top: nat, late: set<nat>, d: nat)
    requires Shaped(v, rank, top) && d in v.ids
    requires forall x :: x in v.ids && x != d ==> Fresh(v, x) && Linked(v, late, x)
    requires OnlyAbove(v, v', rank, top, d) && SettledAbove(v', rank, top, late, d) && Fresh(v', d)
    ensures forall x :: x in v.ids ==> Fresh(v', x)
    ensures forall x :: x in v.ids && x != d ==> Linked(v', late, x)
    ensures d in v.parent ==> v'.present[v.parent[d]] == v.present[v.parent[d]]
    ensures BasesKept(v, v', d)
  {
    forall x | x in v.ids && x != d ensures Fresh(v', x) && Linked(v', late, x) {
      UnderSame(v, v', rank, top, x, d);
      assert Fresh(v, x) && Linked(v, late, x);
    }
    if d in v.parent && Under(v, rank, top, v.parent[d], d) {
      UnderRank(v, rank, top, v.parent[d], d);
    }
  }

  /** Changing the device's own fields does not disturb what stands on it. */
  lemma SettledKept(v: Devices, v': Devices, rank: map<nat, nat>, top: nat, late: set<nat>, d: nat)
    requires Shaped(v, rank, top) && d in v.ids && SettledAbove(v, rank, top, late, d)
    requires Shaped(v', rank, top) && v'.ids == v.ids && v'.parent == v.parent && v'.present == v.present
    requires forall x :: x in v.ids && x != d ==>
               v'.sys[x] == v.sys[x] && v'.disabled[x] == v.disabled[x] && v'.deferred[x] == v.deferred[x]
    ensures SettledAbove(v', rank, top, late, d)
    ensures v'.disabled == v.disabled && v'.deferred == v.deferred ==> OnlyAbove(v, v', rank, top, d)
  {
    forall x | x in v.ids && x != d && Under(v', rank, top, x, d) ensures Fresh(v', x) && Linked(v', late, x) {
      UnderSame(v, v', rank, top, x, d);
      assert Fresh(v, x) && Linked(v, late, x);
    }
    assert Under(v, rank, top, d, d);
  }

  // ----- a device that is moved onto an absent one

  const RANKS: map<nat, nat> := map[0 := 0, 1 := 0, 2 := 1]

  lemma EitherShaped(v: Devices, p: nat)
    requires p < 2 && v.ids == {0, 1, 2} && v.parent == map[2 := p]
    requires v.sys.Keys == v.ids && v.present.Keys == v.ids && v.disabled.Keys == v.ids && v.deferred.Keys == v.ids
    ensures Shaped(v, RANKS, 1)
  {
  }

  lemma AtRest(v: Devices, rank: map<nat, nat>, top: nat, d: nat)
    requires Quiescent(v, rank, top, Late(v)) && d in v.ids
    ensures Shaped(v, rank, top) && Fresh(v, d) && Linked(v, Late(v), d)
  {
  }

  lemma AbsentBase(v: Devices, rank: map<nat, nat>, top: nat)
    requires Shaped(v, rank, top) && 2 in v.parent && v.parent[2] == 1 && 1 !in v.parent && !v.sys[1]
    ensures !PathClear(v, rank, top, 2)
  {
    assert Base(v, rank, top, 1) == 1;
  }

  /** Three devices that are absent, the last of them stacked on the first */
  method BuildStack() returns (table: PresenceTable)
    ensures fresh(table) && table.Valid() && table.v.ids == {0, 1, 2} && table.v.parent == map[2 := 0]
    ensures Late(table.v) == {}
    ensures table.v.disabled == table.v.deferred == map[0 := false, 1 := false, 2 := false]
    ensures 1 in table.v.sys && !table.v.sys[1]
  {
    hide Quiescent, Late, Shaped;
    table := new PresenceTable();
    NobodyLate(table.v);
    table.AddDevice(0);
    table.AddDevice(1);
    table.AddDevice(2);
    assert table.v.ids == {0, 1, 2};
    EitherShaped(table.v.(parent := map[2 := 0]), 0);
    table.Attach(2, 0, RANKS, 1);
    assert table.v.parent == map[2 := 0];
  }

  lemma NobodyLate(v: Devices)
    requires v.parent == map[]
    ensures Late(v) == {}
  {
  }

  /** The first device appears, and with it the one on top. */
  method StackAppears() returns (table: PresenceTable)
    ensures fresh(table) && table.Valid() && table.v.ids == {0, 1, 2} && table.v.parent == map[2 := 0]
    ensures Late(table.v) == {} && table.v.present.Keys == table.v.sys.Keys == {0, 1, 2}
    ensures table.v.disabled == table.v.deferred == map[0 := false, 1 := false, 2 := false]
    ensures table.v.sys[2] && !table.v.sys[1] && !table.v.present[1]
  {
    hide Quiescent, Late;
    table := BuildStack();
    table.Hotplug(0, true);
    AtRest(table.v, table.rank, table.top, 0);
    AtRest(table.v, table.rank, table.top, 1);
    AtRest(table.v, table.rank, table.top, 2);
  }

  lemma LateIsPresent(v: Devices, rank: map<nat, nat>, top: nat, d: nat)
    requires Quiescent(v, rank, top, Late(v)) && d in Late(v) && d in v.ids && !Blocked(v, d)
    ensures v.sys[d] && v.present[d]
  {
    assert Fresh(v, d);
  }

  /** A run that ends with a device on an absent one: the device on top is moved onto the second. It is
      late, and present although the path below it is not clear. */
  method MoveOntoAbsent() returns (v: Devices, ghost rank: map<nat, nat>, ghost top: nat)
    ensures Quiescent(v, rank, top, Late(v)) && 2 in v.ids && Late(v) == {2}
    ensures v.parent == map[2 := 1] && v.present[2] && !v.present[1] && !PathClear(v, rank, top, 2)
  {
    hide Quiescent, Late, PathClear, Shaped;
    var table := StackAppears();
    EitherShaped(table.v.(parent := map[2 := 1]), 1);
    assert table.v.parent[2 := 1] == map[2 := 1];
    table.Attach(2, 1, RANKS, 1);
    v, rank, top := table.v, table.rank, table.top;
    AtRest(v, rank, top, 1);
    LateIsPresent(v, rank, top, 2);
    AbsentBase(v, rank, top);
  }
}
