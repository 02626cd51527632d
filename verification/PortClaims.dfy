/** What a bridge or bond still holds while nobody uses it (bridge.c, bonding.c). */
module PortClaims {
  import opened PortGroup

  /** A port that asks for no authentication: it is claimed exactly while it is part of the group's
      kernel device. */
  ghost predicate PortTidy(s: State, p: Port)
  {
    !p.auth && (p.active ==> p.present && s.flags.up) && (p.claimed <==> p.active)
  }

  ghost predicate Calm(s: State)
  {
    forall i :: 0 <= i < |s.ports| ==> PortTidy(s, s.ports[i])
  }

  ghost predicate NoneActive(s: State)
  {
    forall i :: 0 <= i < |s.ports| ==> !s.ports[i].active
  }

  ghost predicate Idle(s: State)
  {
    NoneActive(s) && (s.kind.Bridge? ==> !s.flags.up)
  }

  ghost predicate Tidy(s: State)
  {
    Calm(s) && (!s.flags.used ==> Idle(s))
  }

  ghost predicate Holds(s: State)
  {
    exists i :: 0 <= i < |s.ports| && s.ports[i].claimed
  }

  /** The group still claims a port although nobody uses it. */
  ghost predicate Strays(s: State)
  {
    !s.flags.used && Holds(s)
  }

  lemma TidyNeverStrays(s: State)
    requires Tidy(s)
    ensures !Strays(s)
  {
    forall i | 0 <= i < |s.ports| ensures s.ports[i].claimed ==> s.ports[i].active {
      assert PortTidy(s, s.ports[i]);
    }
  }

  // ----- steps that keep it

  lemma CalmFrame(s: State, r: State)
    requires Calm(s) && r.ports == s.ports && r.flags.up == s.flags.up
    ensures Calm(r)
  {
    forall i | 0 <= i < |r.ports| ensures PortTidy(r, r.ports[i]) {
      assert PortTidy(s, s.ports[i]);
    }
  }

  lemma IdleFrame(s: State, r: State)
    requires r.ports == s.ports && r.flags.up == s.flags.up && r.kind == s.kind
    ensures Idle(s) <==> Idle(r)
  {
  }

  /** At the other ports than `i` claims are at most let go of. */
  ghost predicate SameBut(s: State, r: State, i: nat)
  {
    && r.kind == s.kind && r.keepEmpty == s.keepEmpty && |r.ports| == |s.ports|
    && (forall k :: 0 <= k < |s.ports| && k != i ==>
          && r.ports[k].present == s.ports[k].present && r.ports[k].there == s.ports[k].there
          && (r.ports[k].claimed ==> s.ports[k].claimed))
  }

  lemma {:induction false} DisableFromTidy(s: State, i: nat)
    requires Calm(s) && i <= |s.ports|
    ensures var r := DisableFrom(s, i);
            && Calm(r) && r == s.(ports := r.ports)
            && (forall k :: 0 <= k < i ==> r.ports[k] == s.ports[k])
            && (forall k :: i <= k < |s.ports| ==>
                  !r.ports[k].active && !r.ports[k].claimed && r.ports[k].present == s.ports[k].present
                  && r.ports[k].there == s.ports[k].there)
    decreases |s.ports| - i
  {
    if i < |s.ports| {
      assert PortTidy(s, s.ports[i]);
      DisableFromTidy(DisablePort(s, i, false), i + 1);
    }
  }

  lemma SetDownTidy(s: State)
    requires Calm(s)
    ensures var r := SetDown(s);
            && Calm(r) && Idle(r) && r.flags == s.flags.(up := r.flags.up) && r.tally == s.tally
            && SameBut(s, r, |s.ports|)
            && (s.luck == [] ==> r.luck == []) && (s.kind.Bridge? ==> r.luck == s.luck)
  {
    hide DisableFrom;
    DisableFromTidy(s, 0);
    var t, r := DisableFrom(s, 0), SetDown(s);
    assert r.ports == t.ports;
    forall i | 0 <= i < |r.ports| ensures PortTidy(r, r.ports[i]) {
      assert PortTidy(t, t.ports[i]);
    }
  }

  lemma EnableInterfaceTidy(s: State)
    requires Calm(s)
    ensures var e := EnableInterface(s);
            && Calm(e.s) && e.s.ports == s.ports && e.s.kind == s.kind && e.s.keepEmpty == s.keepEmpty
            && e.s.tally == s.tally && e.s.flags == s.flags.(up := e.ok)
            && (!e.ok ==> NoneActive(s) && !s.flags.up) && (NoGone(s.luck) ==> NoGone(e.s.luck))
  {
    var e := EnableInterface(s);
    SpendNoGone(s);
    forall i | 0 <= i < |e.s.ports| ensures PortTidy(e.s, e.s.ports[i]) {
      assert PortTidy(s, s.ports[i]);
    }
    if !e.ok {
      forall i | 0 <= i < |s.ports| ensures !s.ports[i].active {
        assert PortTidy(s, s.ports[i]);
      }
    }
  }

  /** The state of a port's device and its authentication do not matter to what is held. */
  lemma DeviceTidy(s: State, i: nat, p: Port)
    requires Calm(s) && i < |s.ports|
    requires p.(there := s.ports[i].there, authed := s.ports[i].authed) == s.ports[i]
    ensures Calm(SetPort(s, i, p)) && (Idle(s) ==> Idle(SetPort(s, i, p)))
  {
    OnePort(s, SetPort(s, i, p), i);
  }

  /** Changing one port into a tidy one */
  lemma OnePort(s: State, r: State, i: nat)
    requires Calm(s) && i < |s.ports| == |r.ports| && r.ports == s.ports[i := r.ports[i]]
    requires r.flags.up == s.flags.up && PortTidy(r, r.ports[i])
    ensures Calm(r) && (Idle(s) && !r.ports[i].active && r.kind == s.kind ==> Idle(r))
  {
    forall k | 0 <= k < |r.ports| && k != i ensures r.ports[k] == s.ports[k] && PortTidy(r, r.ports[k]) {
      assert PortTidy(s, s.ports[k]);
    }
  }

  /** Losing the port makes the group disappear, so that its users may let go. */
  predicate LastGone(s: State)
  {
    s.flags.shown && s.tally.present == 1 && !(s.kind.Bridge? && s.keepEmpty)
  }

  lemma RemovedTidy(s: State, i: nat)
    requires Calm(s) && i < |s.ports| && s.ports[i].present && (s.flags.used || Idle(s))
    ensures var r := Removed(s, i);
            && Calm(r) && (Idle(s) ==> Idle(r)) && SameBut(s, r, i) && r.flags == s.flags
            && r.tally == s.tally.(present := s.tally.present - 1) && r.luck == s.luck
            && !r.ports[i].present && r.ports[i].there == s.ports[i].there
  {
    assert PortTidy(s, s.ports[i]);
    OnePort(s, Removed(s, i), i);
  }

  /** The group disappears: either it stays in use, or it lets go of everything. */
  lemma HideTidy(s: State)
    requires Calm(s) && (s.flags.used || Idle(s))
    ensures var r := SetShown(s, false);
            && Calm(r) && (r.flags.used || Idle(r)) && (r.flags.used ==> s.flags.used)
            && r.tally == s.tally && SameBut(s, r, |s.ports|)
            && r.flags.force == s.flags.force && !r.flags.shown && (!s.flags.shown ==> r == s)
            && (Idle(s) ==> Idle(r))
  {
    hide SetDown, PortTidy;
    var t := s.(flags := s.flags.(shown := false));
    CalmFrame(s, t);
    CalmFrame(s, Spend(t));
    CalmFrame(s, SetUsed(Spend(t), false));
    SetDownTidy(SetUsed(Spend(t), false));
  }

  /** A port leaves: the group stays in use unless it has just disappeared, and an unused group
      lets go of everything. */
  lemma RemovePortTidy(s: State, i: nat)
    requires Calm(s) && i < |s.ports| && s.ports[i].present && (s.flags.used || Idle(s))
    ensures var r := RemovePort(s, i);
            && Calm(r) && SameBut(s, r, i) && r.tally == s.tally.(present := s.tally.present - 1)
            && !r.ports[i].present && r.ports[i].there == s.ports[i].there
            && (r.flags.used || Idle(r)) && (r.flags.used ==> s.flags.used)
            && (s.flags.used && !r.flags.used ==> LastGone(s))
            && r.flags.force == (s.kind.Bridge? && s.keepEmpty && s.flags.force)
            && r.flags.shown == (s.flags.shown && !LastGone(s))
            && (!LastGone(s) ==> r.luck == s.luck && r.flags.up == s.flags.up)
  {
    hide SetShown, Calm, NoneActive, Removed;
    RemovedTidy(s, i);
    var t := Removed(s, i);
    var u := SetForce(t, false);
    CalmFrame(t, u);
    IdleFrame(t, u);
    if t.tally.present == 0 {
      HideTidy(u);
    }
  }

  /** A port that was tried joined or is left as it was. */
  ghost predicate Kept(s: State, r: State)
  {
    && r.flags.used && r.flags.force == s.flags.force && (s.flags.shown ==> r.flags.shown)
    && r.tally.present == s.tally.present && r.tally.vanished == s.tally.vanished
  }

  /** A port that was tried is given up. */
  ghost predicate GivenUp(s: State, r: State)
  {
    && r.flags.used && r.flags.force == s.flags.force && r.flags.shown == s.flags.shown
    && r.tally.present == s.tally.present - 1 && r.tally.vanished == s.tally.vanished
  }

  /** The device of a port that was tried vanished. */
  ghost predicate Lost(s: State, r: State)
  {
    && (r.flags.used || (LastGone(s) && Idle(r)))
    && r.flags.force == (s.kind.Bridge? && s.keepEmpty && s.flags.force)
    && r.flags.shown == (s.flags.shown && !LastGone(s))
    && r.tally.present == s.tally.present - (if s.kind.Bridge? then 2 else 1)
    && r.tally.vanished == s.tally.vanished + 1 && !NoGone(s.luck)
    && (!LastGone(s) && s.flags.up ==> r.flags.up)
  }

  /** Port `i` is claimed, and may not be active yet. */
  ghost predicate CalmBut(s: State, i: nat)
    requires i < |s.ports|
  {
    && (forall k :: 0 <= k < |s.ports| && k != i ==> PortTidy(s, s.ports[k]))
    && var p := s.ports[i]; !p.auth && p.present && p.claimed && (p.active ==> s.flags.up)
  }

  lemma ClaimPortTidy(s: State, i: nat)
    requires Calm(s) && s.flags.used && i < |s.ports| && s.ports[i].present
    requires s.ports[i].claimed || Lucky(s) || s.luck[0].Bad?
    ensures var r := ClaimPort(s, i);
            && SameBut(s, r.s, i) && r.s.ports[i].present && r.s.flags == s.flags && r.s.tally == s.tally
            && (if r.ok then CalmBut(r.s, i) else Calm(r.s) && !r.s.ports[i].claimed)
  {
    var p, r := s.ports[i], ClaimPort(s, i);
    assert PortTidy(s, p);
    forall k | 0 <= k < |s.ports| && k != i ensures r.s.ports[k] == s.ports[k] && PortTidy(r.s, r.s.ports[k]) {
      assert PortTidy(s, s.ports[k]);
    }
    if !r.ok {
      CalmFrame(s, r.s);
    }
  }

  lemma SameButVia(s: State, t: State, r: State, i: nat)
    requires i < |s.ports| == |t.ports| && t.ports == s.ports[i := t.ports[i]] && SameBut(t, r, i)
    requires t.kind == s.kind && t.keepEmpty == s.keepEmpty
    ensures SameBut(s, r, i) && SameBut(s, Vanished(r), i)
  {
  }

  lemma ClaimPortVanishes(s: State, i: nat)
    requires Calm(s) && s.flags.used && i < |s.ports| && s.ports[i].present
    requires !s.ports[i].claimed && !Lucky(s) && s.luck[0].Gone?
    ensures var r := ClaimPort(s, i);
            && !r.ok && SameBut(s, r.s, i) && Calm(r.s) && !r.s.ports[i].present
            && Lost(s, AddToCount(r.s, if s.kind.Bridge? then -1 else 0))
  {
    var p := s.ports[i].(there := false);
    var t := SetPort(Spend(s), i, p);
    hide RemovePort, Idle, PortTidy, Calm, SameBut;
    CalmFrame(s, Spend(s));
    DeviceTidy(Spend(s), i, p);
    RemovePortTidy(t, i);
    VanishedTidy(RemovePort(t, i), i, if s.kind.Bridge? then -1 else 0);
    SameButVia(s, t, RemovePort(t, i), i);
    assert s.luck[0] in s.luck;
  }

  lemma ClaimPortTried(s: State, i: nat)
    requires Calm(s) && s.flags.used && i < |s.ports| && s.ports[i].present
    ensures var r := ClaimPort(s, i);
            && SameBut(s, r.s, i)
            && (if r.ok then CalmBut(r.s, i) else Calm(r.s) && !r.s.ports[i].claimed)
            && (r.ok ==> r.s.ports[i].present)
            && (if r.s.ports[i].present then r.s.flags == s.flags && r.s.tally == s.tally
                else Lost(s, AddToCount(r.s, if s.kind.Bridge? then -1 else 0)))
  {
    hide ClaimPort, CalmBut, NoneActive, Calm, Lost;
    if !s.ports[i].claimed && !Lucky(s) && s.luck[0].Gone? {
      ClaimPortVanishes(s, i);
      UnclaimedInactive(ClaimPort(s, i).s, i);
    } else {
      ClaimPortTidy(s, i);
    }
  }

  lemma VanishedTidy(s: State, i: nat, d: int)
    requires Calm(s) && i < |s.ports| && !s.ports[i].present
    ensures var r := AddToCount(Vanished(s), d);
            Calm(Vanished(s)) && !s.ports[i].claimed && (Idle(s) ==> Idle(r))
  {
    CalmFrame(s, Vanished(s));
    assert PortTidy(s, s.ports[i]);
  }

  lemma DropTidy(s: State, i: nat)
    requires Calm(s) && i < |s.ports| && !s.ports[i].active
    ensures var r := Drop(s, i);
            Calm(r) && (Idle(s) ==> Idle(r)) && r.flags == s.flags && SameBut(s, r, i)
  {
    assert PortTidy(s, s.ports[i]);
    OnePort(s, Drop(s, i), i);
  }

  /** While the group is in use, a port that is tried joins or stays, is given up, or its device
      vanishes. */
  ghost predicate Tried(s: State, r: State, i: nat)
  {
    Calm(r) && SameBut(s, r, i) && (Kept(s, r) || GivenUp(s, r) || Lost(s, r))
  }

  /** While the group is in use its users do not react when it appears. */
  lemma UsedShown(s: State)
    requires s.flags.used
    ensures SetShown(s, true)
            == (if s.flags.shown then s else Spend(s).(flags := s.flags.(shown := true)))
  {
    hide ClaimGroup;
  }

  lemma JoinPortTidy(s: State, i: nat)
    requires i < |s.ports| && CalmBut(s, i) && s.flags.up && s.flags.used
    ensures var r := JoinPort(s, i);
            Calm(r) && SameBut(s, r, i) && (Kept(s, r) || GivenUp(s, r))
  {
    hide SetShown;
    var p, r := s.ports[i], JoinPort(s, i);
    if !p.active && Lucky(s) {
      UsedShown(SetPort(Spend(s), i, p.(active := true, note := Fine)));
    }
    forall k | 0 <= k < |r.ports| ensures PortTidy(r, r.ports[k]) {
      assert k != i ==> r.ports[k] == s.ports[k] && PortTidy(s, s.ports[k]);
    }
  }

  lemma InterfaceBut(s: State, i: nat)
    requires i < |s.ports| && CalmBut(s, i)
    ensures var e := EnableInterface(s);
            && CalmBut(e.s, i) && e.s.flags == s.flags.(up := e.ok) && e.s.tally == s.tally
            && SameBut(s, e.s, i) && (!e.ok ==> !e.s.ports[i].active)
  {
    var e := EnableInterface(s);
    forall k | 0 <= k < |e.s.ports| && k != i ensures PortTidy(e.s, e.s.ports[k]) {
      assert PortTidy(s, s.ports[k]);
    }
  }

  lemma FailedTidy(s: State, e: State, c: State, i: nat)
    requires s.kind.Bridge? && s.flags.used && i < |s.ports| && |e.ports| == |s.ports| && |c.ports| == |s.ports|
    requires SameBut(e, c, i) && Calm(c) && !c.ports[i].active
    requires e == s.(flags := e.flags, luck := e.luck) && e.flags == s.flags.(up := true)
    requires NoGone(s.luck) ==> NoGone(e.luck)
    requires if c.ports[i].present then c.flags == e.flags && c.tally == e.tally
             else Lost(e, AddToCount(c, -1))
    ensures Tried(s, Drop(c, i), i)
  {
    hide Calm, NoneActive, NoGone;
    DropTidy(c, i);
    IdleFrame(c, AddToCount(c, -1));
  }

  lemma EnableBridgePortTidy(s: State, i: nat)
    requires Calm(s) && s.flags.used && s.kind.Bridge? && i < |s.ports| && s.ports[i].present
    ensures Tried(s, EnablePort(s, i), i)
  {
    hide ClaimPort, JoinPort, EnableInterface, NoneActive, Calm, CalmBut, PortTidy;
    EnableInterfaceTidy(s);
    var e := EnableInterface(s);
    if !e.ok {
      NoneActiveAt(s, i);
      DropTidy(e.s, i);
    } else {
      ClaimPortTried(e.s, i);
      var c := ClaimPort(e.s, i);
      if c.ok {
        JoinPortTidy(c.s, i);
      } else {
        UnclaimedInactive(c.s, i);
        FailedTidy(s, e.s, c.s, i);
      }
    }
  }

  lemma NoneActiveAt(s: State, i: nat)
    requires NoneActive(s) && i < |s.ports|
    ensures !s.ports[i].active
  {
  }

  lemma UnclaimedInactive(s: State, i: nat)
    requires Calm(s) && i < |s.ports|
    ensures s.ports[i].active <==> s.ports[i].claimed
    ensures s.ports[i].active ==> s.ports[i].present && s.flags.up
    ensures !s.ports[i].auth
  {
    assert PortTidy(s, s.ports[i]);
  }

  lemma EnableBondPortTidy(s: State, i: nat)
    requires Calm(s) && s.flags.used && s.kind.Bonding? && i < |s.ports| && s.ports[i].present
    ensures Tried(s, EnablePort(s, i), i)
  {
    hide ClaimPort, JoinPort, EnableInterface, NoneActive, Calm, CalmBut, PortTidy;
    ClaimPortTried(s, i);
    var c := ClaimPort(s, i);
    if c.ok {
      InterfaceBut(c.s, i);
      var e := EnableInterface(c.s);
      if e.ok {
        JoinPortTidy(e.s, i);
      } else {
        LetGoBut(e.s, i);
      }
    } else {
      NotedTidy(s, c.s, i, Refused);
    }
  }

  lemma NotedTidy(s: State, r: State, i: nat, note: Note)
    requires Calm(r) && SameBut(s, r, i) && i < |s.ports|
    ensures var t := Noted(r, i, note);
            Calm(t) && SameBut(s, t, i) && (Idle(r) ==> Idle(t)) && t == r.(ports := t.ports)
  {
    UnclaimedInactive(r, i);
    OnePort(r, Noted(r, i, note), i);
  }

  lemma LetGoBut(s: State, i: nat)
    requires i < |s.ports| && CalmBut(s, i) && !s.ports[i].active
    ensures var r := SetPort(s, i, s.ports[i].(claimed := false, note := Refused));
            Calm(r) && SameBut(s, r, i)
  {
    var r := SetPort(s, i, s.ports[i].(claimed := false, note := Refused));
    forall k | 0 <= k < |r.ports| ensures PortTidy(r, r.ports[k]) {
      assert k != i ==> r.ports[k] == s.ports[k] && PortTidy(s, s.ports[k]);
    }
  }

  lemma EnablePortTidy(s: State, i: nat)
    requires Calm(s) && s.flags.used && i < |s.ports| && s.ports[i].present
    ensures Tried(s, EnablePort(s, i), i)
  {
    hide EnablePort, Tried;
    if s.kind.Bridge? {
      EnableBridgePortTidy(s, i);
    } else {
      EnableBondPortTidy(s, i);
    }
  }

  // ----- going up

  /** The present ports from the `i`th on */
  function PresentFrom(ports: seq<Port>, i: nat): nat
    requires i <= |ports|
    decreases |ports| - i
  {
    if i == |ports| then 0 else (if ports[i].present then 1 else 0) + PresentFrom(ports, i + 1)
  }

  lemma {:induction false} PresentFromCounts(ports: seq<Port>, i: nat)
    requires i <= |ports|
    ensures Count(ports[..i]) + PresentFrom(ports, i) == Count(ports)
    decreases |ports| - i
  {
    if i == |ports| {
      assert ports[..i] == ports;
    } else {
      PresentFromCounts(ports, i + 1);
      assert ports[..i + 1][..i] == ports[..i];
    }
  }

  lemma {:induction false} SamePresentFrom(s: State, r: State, k: nat, i: nat)
    requires SameBut(s, r, k) && k < i <= |s.ports|
    ensures PresentFrom(r.ports, i) == PresentFrom(s.ports, i)
    decreases |s.ports| - i
  {
    if i < |s.ports| {
      SamePresentFrom(s, r, k, i + 1);
    }
  }

  lemma NoneCountedNoneActive(s: State)
    requires Sound(s) && Calm(s) && s.tally.present == 0 && TwiceOff(s) == 0
    ensures NoneActive(s) && forall i: nat :: i <= |s.ports| ==> PresentFrom(s.ports, i) == 0
  {
    NonePresent(s.ports);
    forall i | 0 <= i < |s.ports| ensures !s.ports[i].active {
      assert PortTidy(s, s.ports[i]);
    }
    forall i: nat | i <= |s.ports| ensures PresentFrom(s.ports, i) == 0 {
      PresentFromCounts(s.ports, i);
    }
  }

  lemma {:induction false} NonePresent(ports: seq<Port>)
    requires Count(ports) == 0
    ensures forall i :: 0 <= i < |ports| ==> !ports[i].present
  {
    if ports != [] {
      NonePresent(ports[..|ports| - 1]);
    }
  }

  /** The loop over the ports ended well: an unused group holds nothing, and if set_up gives up then
      no port is joined. */
  ghost predicate Done(s: State)
  {
    if s.flags.used then s.tally.present == 0 && !s.flags.force ==> NoneActive(s) else Idle(s)
  }

  /** With `q` present ports to go, the loop over the ports ends well whatever happens. */
  ghost predicate Certain(s: State, q: nat)
  {
    || s.kind.Bonding?
    || (NoGone(s.luck) && s.tally.vanished == 0)
    || s.tally.present < 0
    || (s.flags.force && (s.tally.present == 0 || s.keepEmpty))
    || (s.tally.present == 1 && q <= 1 && (s.flags.force || s.tally.vanished == 0))
    || (s.tally.present == 1 && q == 2 && s.flags.force && !s.flags.shown)
  }

  ghost predicate Safe(s: State, q: nat)
  {
    (s.flags.used && Certain(s, q)) || (q == 0 && Done(s))
  }

  lemma SafeNext(s: State, r: State, i: nat)
    requires Sound(s) && Calm(s) && s.flags.used && i < |s.ports| && s.ports[i].present
    requires Certain(s, PresentFrom(s.ports, i)) && Tried(s, r, i) && Keeps(s, r)
    ensures Safe(r, PresentFrom(r.ports, i + 1))
  {
    hide Count, Calm, NoneActive;
    SamePresentFrom(s, r, i, i + 1);
    if r.tally.present == 0 && TwiceOff(r) == 0 {
      NoneCountedNoneActive(r);
    }
  }

  lemma SafeDone(s: State)
    requires Sound(s) && Calm(s) && Safe(s, 0)
    ensures Done(s)
  {
    hide Count, Calm, NoneActive;
    if s.tally.present == 0 && TwiceOff(s) == 0 {
      NoneCountedNoneActive(s);
    }
  }

  lemma {:induction false} NonePresentFrom(s: State, i: nat)
    requires i <= |s.ports| && PresentFrom(s.ports, i) == 0
    ensures EnableFrom(s, i) == s
    decreases |s.ports| - i
  {
    if i < |s.ports| {
      NonePresentFrom(s, i + 1);
    }
  }

  lemma {:induction false} EnableFromTidy(s: State, i: nat)
    requires Sound(s) && Calm(s) && i <= |s.ports| && Safe(s, PresentFrom(s.ports, i))
    ensures var r := EnableFrom(s, i);
            Calm(r) && Done(r)
    decreases |s.ports| - i
  {
    hide Sound, Calm, Done, Certain, EnablePort, Tried;
    if PresentFrom(s.ports, i) == 0 {
      NonePresentFrom(s, i);
      SafeDone(s);
    } else if s.ports[i].present {
      var r := EnablePort(s, i);
      EnablePortTidy(s, i);
      EnablePortKeeps(s, i);
      SafeNext(s, r, i);
      TriedCalm(s, r, i);
      EnableFromTidy(r, i + 1);
    } else {
      assert EnablePort(s, i) == s by { AbsentPort(s, i); }
      EnableFromTidy(s, i + 1);
    }
  }

  lemma AbsentPort(s: State, i: nat)
    requires i < |s.ports| && !s.ports[i].present
    ensures EnablePort(s, i) == s
  {
  }

  lemma TriedCalm(s: State, r: State, i: nat)
    requires Tried(s, r, i)
    ensures Calm(r) && |r.ports| == |s.ports|
  {
  }

  lemma FinishUpTidy(s: State)
    requires Calm(s) && Done(s)
    ensures var r := FinishUp(s);
            if r.ok then Tidy(r.s) else Calm(r.s) && Idle(r.s)
  {
    hide SetShown, SetDown, PortTidy;
    CalmFrame(s, Spend(s));
    if !s.flags.force && s.tally.present == 0 {
      var t := DisableInterface(s);
      DisabledTidy(s);
      HideTidy(t);
    } else if !Lucky(s) {
      SetDownTidy(Spend(s));
    }
  }

  lemma DisabledTidy(s: State)
    requires Calm(s) && NoneActive(s)
    ensures Calm(DisableInterface(s)) && Idle(DisableInterface(s))
  {
    var t := DisableInterface(s);
    forall i | 0 <= i < |t.ports| ensures PortTidy(t, t.ports[i]) {
      assert PortTidy(s, s.ports[i]);
    }
  }

  /** A claim on the group can leave ports claimed that nobody uses: a bridge with at least two
      present ports, whose count allows n_present to come down to 0 in the loop over the ports while
      a port is joined, or while one is still to come. */
  predicate ClaimRisk(s: State)
  {
    && s.kind.Bridge? && s.tally.present >= 1 && Count(s.ports) >= 2
    && (s.flags.force ==> !s.keepEmpty && (s.tally.present >= 2 || s.flags.shown || Count(s.ports) >= 3))
  }

  lemma StartSafe(s: State)
    requires Sound(s) && s.flags.used && (s.tally.present != 0 || s.flags.force)
    requires !ClaimRisk(s) || (NoGone(s.luck) && s.tally.vanished == 0)
    ensures Safe(s, PresentFrom(s.ports, 0))
  {
    hide Count;
    PresentFromCounts(s.ports, 0);
    assert Count(s.ports[..0]) == 0 by { NoneCounted(s.ports[..0]); }
  }

  lemma ClaimGroupTidy(s: State)
    requires Sound(s) && Calm(s) && Idle(s)
    requires !ClaimRisk(s) || (NoGone(s.luck) && s.tally.vanished == 0)
    ensures Tidy(ClaimGroup(s))
  {
    hide EnableFrom, FinishUp, EnableInterface, PortTidy, NoneActive, Count, Done, Safe;
    var t := SetUsed(s, true);
    CalmFrame(s, t);
    SoundFrame(s, t);
    IdleFrame(s, t);
    EnableInterfaceTidy(t);
    EnableInterfaceKeeps(t);
    var e := if s.tally.present == 0 then EnableInterface(t) else Result(t, true);
    if e.ok && (s.tally.present != 0 || s.flags.force) {
      var u := ResetFailed(e.s);
      CalmFrame(e.s, u);
      SoundFrame(e.s, u);
      StartSafe(u);
      EnableFromTidy(u, 0);
      FinishUpTidy(EnableFrom(u, 0));
      var r := FinishUp(EnableFrom(u, 0));
      assert SetUp(t) == r;
      CalmFrame(r.s, SetUsed(r.s, false));
      IdleFrame(r.s, SetUsed(r.s, false));
    } else {
      var r := if s.flags.force then e.s else t;
      CalmFrame(r, SetUsed(r, false));
      IdleFrame(s, SetUsed(r, false));
    }
  }

  // ----- trying again

  /** The ports from the `i`th on that the retry timer would try */
  function WaitingFrom(ports: seq<Port>, i: nat): nat
    requires i <= |ports|
    decreases |ports| - i
  {
    if i == |ports| then 0
    else (if ports[i].there && !ports[i].present then 1 else 0) + WaitingFrom(ports, i + 1)
  }

  lemma {:induction false} SameWaitingFrom(s: State, r: State, k: nat, i: nat)
    requires SameBut(s, r, k) && k < i <= |s.ports|
    ensures WaitingFrom(r.ports, i) == WaitingFrom(s.ports, i)
    decreases |s.ports| - i
  {
    if i < |s.ports| {
      SameWaitingFrom(s, r, k, i + 1);
    }
  }

  function Abs(n: int): nat
  {
    if n < 0 then -n else n
  }

  /** With `q` ports to try again, n_present can come down to 0 while the bridge is known to be
      present, with a port still to come. */
  predicate CanEmpty(s: State, q: nat)
  {
    if s.kind.Bonding? then s.flags.shown && s.tally.present == 0 && q >= 2
    else !s.keepEmpty
         && if s.flags.shown then q >= Abs(s.tally.present) + 2 else q >= Abs(s.tally.present + 1) + 3
  }

  /** Firing, the retry timer can leave ports claimed that nobody uses. */
  predicate RetryRisk(s: State)
  {
    var q := WaitingFrom(s.ports, 0);
    if s.flags.used then CanEmpty(s, q) else q >= 1
  }

  ghost predicate RetrySafe(s: State, q: nat)
  {
    (s.flags.used && (!CanEmpty(s, q) || NoGone(s.luck))) || (q == 0 && Idle(s))
  }

  /** A port is about to be tried again. */
  function Announced(s: State, i: nat): State
    requires i < |s.ports|
  {
    AddToCount(SetPort(s, i, s.ports[i].(present := true)), 1)
  }

  lemma AnnouncedTidy(s: State, i: nat)
    requires Calm(s) && i < |s.ports|
    ensures Calm(Announced(s, i)) && SameBut(s, Announced(s, i), i) && (Idle(s) ==> Idle(Announced(s, i)))
  {
    assert PortTidy(s, s.ports[i]);
    var t := SetPort(s, i, s.ports[i].(present := true));
    OnePort(s, t, i);
    CalmFrame(t, Announced(s, i));
  }

  lemma AnnouncedSound(s: State, i: nat)
    requires Sound(s) && i < |s.ports| && !s.ports[i].present && s.ports[i].there
    ensures Sound(Announced(s, i))
  {
    hide Count;
    CountUpdate(s.ports, i, s.ports[i].(present := true));
  }

  lemma RetryNext(s: State, r: State, i: nat)
    requires Sound(s) && i < |s.ports| && s.ports[i].there && !s.ports[i].present
    requires s.flags.used && RetrySafe(s, WaitingFrom(s.ports, i))
    requires Tried(Announced(s, i), r, i) && SameBut(s, Announced(s, i), i) && Keeps(Announced(s, i), r)
    ensures RetrySafe(r, WaitingFrom(r.ports, i + 1))
  {
    hide Count, Calm, NoneActive;
    SameWaitingFrom(s, Announced(s, i), i, i + 1);
    SameWaitingFrom(Announced(s, i), r, i, i + 1);
  }

  lemma {:induction false} NothingToRetry(s: State, i: nat)
    requires i <= |s.ports| && WaitingFrom(s.ports, i) == 0
    ensures RetryFrom(s, i) == s
    decreases |s.ports| - i
  {
    if i < |s.ports| {
      NothingToRetry(s, i + 1);
    }
  }

  lemma {:induction false} RetryFromTidy(s: State, i: nat)
    requires Sound(s) && Calm(s) && i <= |s.ports| && RetrySafe(s, WaitingFrom(s.ports, i))
    ensures Tidy(RetryFrom(s, i))
    decreases |s.ports| - i
  {
    hide Sound, Calm, Idle, CanEmpty, EnablePort, Tried, SameBut;
    if WaitingFrom(s.ports, i) == 0 {
      NothingToRetry(s, i);
    } else if s.ports[i].present || !s.ports[i].there {
      RetryFromTidy(s, i + 1);
    } else {
      var t := Announced(s, i);
      AnnouncedTidy(s, i);
      AnnouncedSound(s, i);
      EnablePortTidy(t, i);
      EnablePortKeeps(t, i);
      var r := EnablePort(t, i);
      RetryNext(s, r, i);
      TriedCalm(t, r, i);
      RetryFromTidy(r, i + 1);
    }
  }

  // ----- one event

  /** Without luck to help, the event can leave ports claimed that nobody uses. Everything that is
      asked can be looked up before the event. */
  predicate AtRisk(s: State, ev: Event)
    requires Possible(s, ev)
  {
    match ev
    case Claim => ClaimRisk(s)
    case Retry => RetryRisk(s)
    case Prepare => ShowRisk(SetForce(s, true))
    case Add(i) =>
      s.tally.present == 0 && !s.ports[i].present && ShowRisk(Announced(SetPort(s, i, s.ports[i].(there := true)), i))
    case _ => false
  }

  /** The group appears, and its users may claim it. */
  predicate ShowRisk(s: State)
  {
    !s.flags.shown && !s.flags.used && ClaimRisk(s.(flags := s.flags.(shown := true)))
  }

  lemma ShowTidy(s: State)
    requires Sound(s) && Tidy(s)
    requires !ShowRisk(s) || (NoGone(s.luck) && s.tally.vanished == 0)
    ensures Tidy(SetShown(s, true))
  {
    hide Sound, ClaimGroup, Calm, Idle, Count;
    if !s.flags.shown {
      var t := s.(flags := s.flags.(shown := true));
      SoundFrame(s, t);
      CalmFrame(s, t);
      IdleFrame(s, t);
      if t.luck != [] {
        var u := Spend(t);
        CalmFrame(s, u);
        IdleFrame(s, u);
        SpendKeeps(t);
        if t.luck[0].Good? && !u.flags.used {
          ClaimGroupTidy(u);
        }
      }
    }
  }

  /** A port of a group in use is tried. */
  lemma TryTidy(s: State, i: nat)
    requires Calm(s) && s.flags.used && i < |s.ports|
    ensures Tidy(EnablePort(s, i))
  {
    if s.ports[i].present {
      hide EnablePort, Calm, Idle;
      EnablePortTidy(s, i);
    } else {
      AbsentPort(s, i);
    }
  }

  lemma PortAddedTidy(s: State, i: nat)
    requires Sound(s) && Tidy(s) && i < |s.ports| && !s.ports[i].present && s.ports[i].there
    requires (s.tally.present == 0 ==> !ShowRisk(Announced(s, i)))
             || (NoGone(s.luck) && s.tally.vanished == 0)
    ensures Tidy(PortAdded(s, i))
  {
    hide Sound, EnablePort, SetShown, Calm, Idle, ClaimRisk;
    AnnouncedTidy(s, i);
    AnnouncedSound(s, i);
    var t := Announced(s, i);
    var u := if t.tally.present == 1 then SetShown(t, true) else t;
    if t.tally.present == 1 {
      ShowTidy(t);
    }
    if u.flags.used {
      TryTidy(u, i);
    }
  }

  /** The event is not at risk, or neither has a claim vanished so far nor does one vanish now, and
      the retry timer does not fire while the group is unused. */
  ghost predicate Careful(s: State, ev: Event)
    requires Possible(s, ev)
  {
    || !AtRisk(s, ev)
    || (NoGone(s.luck) && s.tally.vanished == 0 && (ev.Retry? ==> s.flags.used))
  }

  lemma HandleTidy(s: State, ev: Event)
    requires Sound(s) && Tidy(s) && Possible(s, ev) && Careful(s, ev)
    ensures Tidy(Handle(s, ev))
  {
    hide Sound, PortAdded, RemovePort, EnablePort, ClaimGroup, SetDown, RetryFrom, SetShown, Calm, Idle;
    match ev
    case Add(i) =>
      var p := s.ports[i].(there := true);
      var t := SetPort(s, i, p);
      AddSound(s, i);
      DeviceTidy(s, i, p);
      PortAddedTidy(t, i);
    case Remove(i) =>
      var t := SetPort(s, i, s.ports[i].(there := false));
      DeviceTidy(s, i, s.ports[i].(there := false));
      LeaveTidy(t, i);
    case AuthUp(i) =>
      var t := SetPort(s, i, s.ports[i].(authed := true));
      DeviceTidy(s, i, s.ports[i].(authed := true));
      if t.flags.used {
        TryTidy(t, i);
      }
    case AuthDown(i) =>
      DeviceTidy(s, i, s.ports[i].(authed := false));
      UnclaimedInactive(s, i);
    case LinkDown(i) => UnclaimedInactive(s, i);
    case Claim => ClaimGroupTidy(s);
    case Release =>
      CalmFrame(s, SetUsed(s, false));
      SetDownTidy(SetUsed(s, false));
    case Retry =>
      var t := ResetFailed(s);
      SoundFrame(s, t);
      CalmFrame(s, t);
      IdleFrame(s, t);
      StartRetrySafe(t);
      RetryFromTidy(t, 0);
    case Prepare =>
      SoundFrame(s, SetForce(s, true));
      CalmFrame(s, SetForce(s, true));
      IdleFrame(s, SetForce(s, true));
      ShowTidy(SetForce(s, true));
  }

  lemma AddSound(s: State, i: nat)
    requires Sound(s) && i < |s.ports| && !s.ports[i].there
    ensures Sound(SetPort(s, i, s.ports[i].(there := true))) && !s.ports[i].present
  {
    SetPortSound(s, i, s.ports[i].(there := true));
  }

  lemma LeaveTidy(s: State, i: nat)
    requires Tidy(s) && i < |s.ports|
    ensures Tidy(RemovePort(s, i))
  {
    if s.ports[i].present {
      hide RemovePort, Calm, Idle, SameBut;
      RemovePortTidy(s, i);
    }
  }

  lemma StartRetrySafe(s: State)
    requires Tidy(s) && (!RetryRisk(s) || (NoGone(s.luck) && s.flags.used))
    ensures RetrySafe(s, WaitingFrom(s.ports, 0))
  {
  }

  // ----- what goes wrong at risk

  /** With every call succeeding and no reactions, a port that is tried joins. */
  lemma EasyJoin(s: State, i: nat)
    requires i < |s.ports| && s.luck == [] && Calm(s) && s.ports[i].present
    ensures var r := EnablePort(s, i);
            && r.luck == [] && Calm(r) && SameButClaims(s, r)
            && r.ports == s.ports[i := s.ports[i].(claimed := true, active := true, note := Fine)]
  {
    hide EnablePort, Claimed, JoinPort;
    var p, q, d, r := s.ports[i], s.ports[i].(claimed := true), Claimed(s, i), EnablePort(s, i);
    assert PortTidy(s, p);
    EasyClaim(s, i);
    EasyLast(d, i);
    assert s.ports[i := q][i := q.(active := true, note := Fine)] == s.ports[i := q.(active := true, note := Fine)];
    forall k | 0 <= k < |r.ports| ensures PortTidy(r, r.ports[k]) {
      assert PortTidy(s, s.ports[k]);
    }
  }

  ghost predicate SameButClaims(s: State, r: State)
  {
    && r.kind == s.kind && r.keepEmpty == s.keepEmpty && |r.ports| == |s.ports| && r.tally == s.tally
    && r.flags.used == s.flags.used && r.flags.force == s.flags.force
  }

  /** The group when port `i` is claimed and the group's device exists. */
  ghost function Claimed(s: State, i: nat): State
    requires i < |s.ports|
  {
    if s.kind.Bridge? then ClaimPort(EnableInterface(s).s, i).s else EnableInterface(ClaimPort(s, i).s).s
  }

  lemma EasyClaim(s: State, i: nat)
    requires i < |s.ports| && s.luck == [] && s.ports[i].present
    ensures var d := Claimed(s, i);
            && d.luck == [] && SameButClaims(s, d) && d.flags.up
            && d.ports == s.ports[i := s.ports[i].(claimed := true)]
            && EnablePort(s, i) == JoinPort(d, i)
  {
    hide JoinPort, RemovePort;
    var p := s.ports[i];
    if p.claimed {
      assert s.ports[i := p] == s.ports;
    }
  }

  lemma EasyLast(d: State, i: nat)
    requires i < |d.ports| && d.luck == [] && !d.ports[i].auth
    ensures var r := JoinPort(d, i);
            && r.luck == [] && SameButClaims(d, r) && r.flags.up == d.flags.up
            && r.ports == d.ports[i := d.ports[i].(active := true, note := Fine)]
  {
    if d.ports[i].active {
      assert d.ports[i := d.ports[i]] == d.ports;
    }
  }

  /** The next port that the loop finds present */
  lemma {:induction false} NextPresent(s: State, i: nat) returns (j: nat)
    requires i <= |s.ports| && PresentFrom(s.ports, i) >= 1
    ensures i <= j < |s.ports| && s.ports[j].present
    ensures EnableFrom(s, i) == EnableFrom(EnablePort(s, j), j + 1)
    ensures PresentFrom(s.ports, j + 1) == PresentFrom(s.ports, i) - 1
    decreases |s.ports| - i
  {
    hide EnablePort;
    if s.ports[i].present {
      j := i;
    } else {
      AbsentPort(s, i);
      j := NextPresent(s, i + 1);
    }
  }

  lemma {:induction false} JoinAll(s: State, i: nat)
    requires s.luck == [] && Calm(s) && i <= |s.ports| && (PresentFrom(s.ports, i) >= 1 || Holds(s))
    ensures var r := EnableFrom(s, i);
            r.luck == [] && SameButClaims(s, r) && Holds(r)
    decreases |s.ports| - i
  {
    hide Calm, EnablePort;
    if PresentFrom(s.ports, i) == 0 {
      NonePresentFrom(s, i);
    } else {
      var j := NextPresent(s, i);
      EasyJoin(s, j);
      assert EnablePort(s, j).ports[j].claimed;
      JoinAll(EnablePort(s, j), j + 1);
    }
  }

  /** The next port that the retry timer tries */
  lemma {:induction false} NextWaiting(s: State, i: nat) returns (j: nat)
    requires i <= |s.ports| && WaitingFrom(s.ports, i) >= 1
    ensures i <= j < |s.ports| && s.ports[j].there && !s.ports[j].present
    ensures RetryFrom(s, i) == RetryFrom(EnablePort(Announced(s, j), j), j + 1)
    ensures WaitingFrom(s.ports, j + 1) == WaitingFrom(s.ports, i) - 1
    decreases |s.ports| - i
  {
    hide EnablePort;
    if s.ports[i].there && !s.ports[i].present {
      j := i;
    } else {
      j := NextWaiting(s, i + 1);
    }
  }

  lemma {:induction false} RetryAll(s: State, i: nat)
    requires s.luck == [] && Calm(s) && i <= |s.ports| && (WaitingFrom(s.ports, i) >= 1 || Holds(s))
    ensures var r := RetryFrom(s, i);
            r.flags.used == s.flags.used && Holds(r)
    decreases |s.ports| - i
  {
    hide Calm, EnablePort;
    if WaitingFrom(s.ports, i) == 0 {
      NothingToRetry(s, i);
    } else {
      var j := NextWaiting(s, i);
      AnnouncedTidy(s, j);
      EasyJoin(Announced(s, j), j);
      assert EnablePort(Announced(s, j), j).ports[j].claimed;
      RetryAll(EnablePort(Announced(s, j), j), j + 1);
    }
  }

  /** The answers `rest`, after one that brings the bridge's device up if it is not */
  function Up(s: State, rest: seq<Outcome>): seq<Outcome>
  {
    (if s.flags.up then [] else [Good]) + rest
  }

  /** A present port of a group in use that is not claimed yet */
  ghost predicate Open(s: State, i: nat)
  {
    Calm(s) && s.flags.used && i < |s.ports| && s.ports[i].present && !s.ports[i].claimed
  }

  /** The bridge's device is up, and `rest` is still to come. */
  ghost function Raised(s: State, rest: seq<Outcome>): State
  {
    s.(luck := rest, flags := s.flags.(up := true))
  }

  lemma RaisedOpen(s: State, i: nat, rest: seq<Outcome>)
    requires Open(s, i) && s.kind.Bridge? && s.luck == Up(s, rest)
    ensures var e := Raised(s, rest);
            EnableInterface(s) == Result(e, true) && Open(e, i)
  {
    assert s.flags.up ==> s.luck == rest && Raised(s, rest) == s;
    EnableInterfaceTidy(s);
  }

  lemma PortGivenUp(s: State, i: nat, rest: seq<Outcome>)
    requires Open(s, i) && s.kind.Bridge? && s.luck == Up(s, [Bad] + rest)
    ensures var r := EnablePort(s, i);
            Calm(r) && SameBut(s, r, i) && GivenUp(s, r) && r.flags.up && r.luck == rest
  {
    hide EnablePort, RemovePort, Calm, PortTidy, SameBut, Idle;
    var e := Raised(s, [Bad] + rest);
    RaisedOpen(s, i, [Bad] + rest);
    assert ClaimPort(e, i) == Result(e.(luck := rest), false) by {
      assert Spend(e).luck == rest;
    }
    BridgeTry(s, i, e);
    CalmFrame(e, e.(luck := rest));
    OpenDrops(e.(luck := rest), i);
    SameButFrame(s, e.(luck := rest), Drop(e.(luck := rest), i), i);
  }

  lemma SameButFrame(s: State, t: State, r: State, i: nat)
    requires SameBut(t, r, i) && t.ports == s.ports && t.kind == s.kind && t.keepEmpty == s.keepEmpty
    ensures SameBut(s, r, i)
  {
  }

  lemma OpenDrops(s: State, i: nat)
    requires i < |s.ports| && Calm(s) && !s.ports[i].claimed
    ensures var r := Drop(s, i);
            Calm(r) && SameBut(s, r, i) && r.flags == s.flags && (Idle(s) ==> Idle(r))
  {
    UnclaimedInactive(s, i);
    DropTidy(s, i);
  }

  lemma BridgeTry(s: State, i: nat, e: State)
    requires s.kind.Bridge? && i < |s.ports| == |e.ports| && s.ports[i].present
    requires EnableInterface(s) == Result(e, true)
    ensures var c := ClaimPort(e, i);
            EnablePort(s, i) == if c.ok then JoinPort(c.s, i) else Drop(c.s, i)
  {
  }

  /** The state when the REMOVE callback runs during a claim */
  ghost function DeviceGone(s: State, i: nat): State
    requires i < |s.ports|
  {
    SetPort(Spend(s), i, s.ports[i].(there := false))
  }

  lemma GoneOpen(s: State, i: nat, rest: seq<Outcome>)
    requires Open(s, i) && s.luck == [Gone] + rest
    ensures var t := DeviceGone(s, i);
            && Calm(t) && t.luck == rest && t.flags == s.flags && SameBut(s, t, i) && LastGone(t) == LastGone(s)
            && t.ports[i].present && !t.ports[i].claimed
            && ClaimPort(s, i) == Result(Vanished(RemovePort(t, i)), false)
  {
    hide RemovePort, Calm, PortTidy;
    CalmFrame(s, Spend(s));
    DeviceTidy(Spend(s), i, s.ports[i].(there := false));
    assert Spend(s).luck == rest;
  }

  /** The users let go when the group disappears. */
  lemma HideLetsGo(s: State)
    requires Calm(s) && s.flags.used && s.flags.shown && s.luck == [Good]
    ensures var r := SetShown(s, false);
            !r.flags.used && r.luck == []
  {
    hide SetDown, Calm;
    var t := s.(flags := s.flags.(shown := false));
    CalmFrame(s, SetUsed(Spend(t), false));
    SetDownTidy(SetUsed(Spend(t), false));
    assert Spend(t).luck == [];
  }

  lemma RemoveLetsGo(s: State, i: nat)
    requires Calm(s) && i < |s.ports| && s.flags.used && s.ports[i].present && LastGone(s) && s.luck == [Good]
    ensures var r := RemovePort(s, i);
            !r.flags.used && r.luck == []
  {
    hide SetShown, Calm, NoneActive, Removed;
    RemovedTidy(s, i);
    var t := Removed(s, i);
    CalmFrame(t, SetForce(t, false));
    HideLetsGo(SetForce(t, false));
  }

  /** What a vanishing claim leaves behind, and whether its users let go */
  lemma ClaimVanishes(s: State, i: nat, rest: seq<Outcome>)
    requires Open(s, i) && s.luck == [Gone] + rest && (LastGone(s) ==> rest == [Good])
    ensures var r := ClaimPort(s, i);
            && !r.ok && SameBut(s, r.s, i) && Calm(r.s) && !r.s.ports[i].present && !r.s.ports[i].claimed
            && Lost(s, AddToCount(r.s, if s.kind.Bridge? then -1 else 0))
            && (if LastGone(s) then !r.s.flags.used && r.s.luck == [] else r.s.luck == rest)
  {
    hide RemovePort, Calm, PortTidy, NoneActive, Lost, SameBut;
    ClaimPortVanishes(s, i);
    UnclaimedInactive(ClaimPort(s, i).s, i);
    GoneOpen(s, i, rest);
    var t := DeviceGone(s, i);
    if LastGone(s) {
      RemoveLetsGo(t, i);
    } else {
      RemovePortTidy(t, i);
    }
  }

  lemma BridgePortVanishes(s: State, i: nat, rest: seq<Outcome>)
    requires Open(s, i) && s.kind.Bridge? && s.luck == Up(s, [Gone] + rest) && (LastGone(s) ==> rest == [Good])
    ensures var r := EnablePort(s, i);
            && Calm(r) && SameBut(s, r, i) && Lost(s, r)
            && (if LastGone(s) then !r.flags.used && r.luck == [] else r.flags.up && r.luck == rest)
  {
    hide ClaimPort, EnablePort, Calm, PortTidy, NoneActive, NoGone;
    var e := Raised(s, [Gone] + rest);
    RaisedOpen(s, i, [Gone] + rest);
    ClaimVanishes(e, i, rest);
    BridgeTry(s, i, e);
    var c := ClaimPort(e, i).s;
    OpenDrops(c, i);
    IdleFrame(c, AddToCount(c, -1));
    GoneComes(s, rest);
  }

  lemma GoneComes(s: State, rest: seq<Outcome>)
    requires s.luck == Up(s, [Gone] + rest)
    ensures !NoGone(s.luck)
  {
    assert s.luck[if s.flags.up then 0 else 1] in s.luck;
  }

  /** The answers that make a port join */
  function Joining(s: State, rest: seq<Outcome>): seq<Outcome>
  {
    Up(s, [Good, Good] + (if s.flags.shown then [] else [Good]) + rest)
  }

  lemma PortJoins(s: State, i: nat, rest: seq<Outcome>)
    requires Open(s, i) && s.flags.up
    requires s.luck == [Good, Good] + (if s.flags.shown then [] else [Good]) + rest
    ensures var c := ClaimPort(s, i);
            c.ok && |c.s.ports| == |s.ports| && c.s.flags == s.flags && c.s.tally == s.tally
            && var r := JoinPort(c.s, i);
               r.flags == s.flags.(shown := true) && r.luck == rest && r.tally == s.tally
  {
    hide SetShown, RemovePort;
    UnclaimedInactive(s, i);
    var p := s.ports[i];
    var d := SetPort(Spend(s), i, p.(claimed := true));
    assert ClaimPort(s, i) == Result(d, true);
    var u := SetPort(Spend(d), i, d.ports[i].(active := true, note := Fine));
    assert JoinPort(d, i) == SetShown(u, true);
    UsedShown(u);
  }

  lemma BridgePortJoins(s: State, i: nat, rest: seq<Outcome>)
    requires Open(s, i) && s.kind.Bridge? && s.luck == Joining(s, rest)
    ensures var r := EnablePort(s, i);
            && Calm(r) && SameBut(s, r, i) && Kept(s, r)
            && r.flags.up && r.flags.shown && r.luck == rest
  {
    hide EnablePort, ClaimPort, JoinPort, Calm, PortTidy, NoneActive;
    var answers := [Good, Good] + (if s.flags.shown then [] else [Good]) + rest;
    var e := Raised(s, answers);
    RaisedOpen(s, i, answers);
    BridgeTry(s, i, e);
    PortJoins(e, i, rest);
    EnableBridgePortTidy(s, i);
  }

  ghost predicate Unclaimed(s: State, i: nat)
  {
    forall k :: i <= k < |s.ports| ==> !s.ports[k].claimed
  }

  function Bads(k: nat): seq<Outcome>
  {
    if k == 0 then [] else [Bad] + Bads(k - 1)
  }

  lemma UnclaimedNext(s: State, r: State, i: nat, j: nat)
    requires SameBut(s, r, j) && Unclaimed(s, i) && i <= j < |s.ports|
    ensures r.kind == s.kind && r.keepEmpty == s.keepEmpty && |r.ports| == |s.ports| && Unclaimed(r, j + 1)
    ensures PresentFrom(r.ports, j + 1) == PresentFrom(s.ports, j + 1)
  {
    SamePresentFrom(s, r, j, j + 1);
  }

  lemma UnclaimedAt(s: State, i: nat, j: nat)
    requires Unclaimed(s, i) && i <= j < |s.ports|
    ensures !s.ports[j].claimed
  {
  }

  /** The next `k` present ports are given up, and the others join. */
  lemma {:induction false} GiveUpSome(s: State, i: nat, k: nat)
    requires s.kind.Bridge? && Calm(s) && s.flags.used && i <= |s.ports| && Unclaimed(s, i)
    requires s.luck == (if k == 0 then [] else Up(s, Bads(k))) && PresentFrom(s.ports, i) >= k + 1
    ensures var r := EnableFrom(s, i);
            && r.luck == [] && Holds(r) && r.kind == s.kind && r.flags.force == s.flags.force
            && r.tally.present == s.tally.present - k
    decreases k
  {
    hide EnableFrom, EnablePort, Calm, SameBut, Unclaimed;
    if k == 0 {
      JoinAll(s, i);
    } else {
      var j := NextPresent(s, i);
      UnclaimedAt(s, i, j);
      PortGivenUp(s, j, Bads(k - 1));
      var r := EnablePort(s, j);
      UnclaimedNext(s, r, i, j);
      assert r.flags.up ==> r.luck == Up(r, Bads(k - 1));
      GiveUpSome(r, j + 1, k - 1);
    }
  }

  /** The next present port's device vanishes, `k` ports are given up, and the others join. */
  lemma LoseOne(s: State, i: nat, k: nat)
    requires s.kind.Bridge? && Calm(s) && s.flags.used && i <= |s.ports| && Unclaimed(s, i) && !LastGone(s)
    requires s.luck == Up(s, [Gone] + Bads(k)) && PresentFrom(s.ports, i) >= k + 2
    ensures var r := EnableFrom(s, i);
            && r.luck == [] && Holds(r) && r.kind == s.kind
            && r.flags.force == (s.keepEmpty && s.flags.force) && r.tally.present == s.tally.present - k - 2
  {
    hide EnableFrom, EnablePort, Calm, SameBut, Unclaimed;
    var j := NextPresent(s, i);
    UnclaimedAt(s, i, j);
    BridgePortVanishes(s, j, Bads(k));
    var r := EnablePort(s, j);
    UnclaimedNext(s, r, i, j);
    assert Bads(0) == [];
    assert r.luck == (if k == 0 then [] else Up(r, Bads(k)));
    GiveUpSome(r, j + 1, k);
  }

  /** The users let go in the middle, and the next port joins all the same. */
  lemma LetGoTooEarly(s: State, i: nat)
    requires s.kind.Bridge? && Calm(s) && s.flags.used && i <= |s.ports| && Unclaimed(s, i) && LastGone(s)
    requires s.luck == Up(s, [Gone, Good]) && PresentFrom(s.ports, i) >= 2
    ensures var r := EnableFrom(s, i);
            r.luck == [] && Strays(r) && r.tally.present == -1 && r.kind == s.kind
  {
    hide EnableFrom, EnablePort, Calm, SameBut, Unclaimed;
    var j := NextPresent(s, i);
    UnclaimedAt(s, i, j);
    assert [Gone, Good] == [Gone] + [Good];
    BridgePortVanishes(s, j, [Good]);
    var r := EnablePort(s, j);
    UnclaimedNext(s, r, i, j);
    JoinAll(r, j + 1);
  }

  /** The same, when the first port to join makes the group appear */
  lemma JoinThenLetGo(s: State, i: nat)
    requires s.kind.Bridge? && Calm(s) && s.flags.used && i <= |s.ports| && Unclaimed(s, i)
    requires !s.keepEmpty && !s.flags.shown && s.tally.present == 1
    requires s.luck == Joining(s, [Gone, Good]) && PresentFrom(s.ports, i) >= 3
    ensures var r := EnableFrom(s, i);
            r.luck == [] && Strays(r) && r.tally.present == -1 && r.kind == s.kind
  {
    hide EnableFrom, EnablePort, Calm, SameBut, Unclaimed;
    var j := NextPresent(s, i);
    UnclaimedAt(s, i, j);
    BridgePortJoins(s, j, [Gone, Good]);
    var r := EnablePort(s, j);
    UnclaimedNext(s, r, i, j);
    assert r.luck == Up(r, [Gone, Good]);
    LetGoTooEarly(r, j + 1);
  }

  /** The failing branch of set_up. With no port present and no force it deletes the bridge and fails
      the claim; ports that are joined at that moment stay claimed, unless the users let go when the
      group disappears. */
  lemma CollapseLeavesClaimsIff(s: State, i: nat)
    requires !s.flags.force && s.tally.present == 0 && i < |s.ports|
    ensures var t := DisableInterface(s);
            var lettingGo := t.flags.shown && t.flags.used && t.luck != [] && t.luck[0].Good?;
            && !FinishUp(s).ok
            && (FinishUp(s).s.ports[i].claimed
                <==> s.ports[i].claimed && !(lettingGo && s.ports[i].present && s.ports[i].active))
  {
    hide SetDown;
    var t := DisableInterface(s);
    var u := SetUsed(Spend(t.(flags := t.flags.(shown := false))), false);
    ReleaseLeavesClaimIffUnjoined(u, i);
  }

  /** Going down lets go of exactly the ports that are part of the kernel device: a port that waits
      for its authentication, or lost it, stays claimed. */
  lemma {:induction false} DownKeepsUnjoined(s: State, n: nat, i: nat)
    requires n <= |s.ports| && i < |s.ports|
    ensures var p := DisableFrom(s, n).ports[i];
            p.claimed <==> s.ports[i].claimed && !(n <= i && s.ports[i].present && s.ports[i].active)
    decreases |s.ports| - n
  {
    if n < |s.ports| {
      DownKeepsUnjoined(DisablePort(s, n, false), n + 1, i);
    }
  }

  lemma ReleaseLeavesClaimIffUnjoined(s: State, i: nat)
    requires i < |s.ports|
    ensures ReleaseGroup(s).ports[i].claimed
            <==> s.ports[i].claimed && !(s.ports[i].present && s.ports[i].active)
  {
    hide DisableFrom;
    DownKeepsUnjoined(SetUsed(s, false), 0, i);
  }

  /** Answers with which a claim at risk goes wrong */
  function ClaimLuck(s: State): seq<Outcome>
  {
    if s.tally.present >= 2 then [Good, Gone] + Bads(s.tally.present - 2)
    else if !s.flags.force then [Good, Bad]
    else if s.flags.shown then [Good, Gone, Good]
    else [Good, Good, Good, Good, Gone, Good]
  }

  /** The loop of set_up goes wrong. */
  lemma LoopHarms(s: State)
    requires Sound(s) && Calm(s) && s.flags.used && !s.flags.up && NoneActive(s) && ClaimRisk(s)
    requires s.luck == ClaimLuck(s)
    ensures var r := EnableFrom(s, 0);
            && r.luck == [] && Holds(r) && r.kind == s.kind
            && if r.tally.present == 0 then !r.flags.force else !r.flags.used
  {
    hide EnableFrom, Calm, Count;
    PresentFromCounts(s.ports, 0);
    NoneCounted(s.ports[..0]);
    forall k | 0 <= k < |s.ports| ensures !s.ports[k].claimed {
      UnclaimedInactive(s, k);
    }
    var n := s.tally.present;
    if n >= 2 {
      assert Up(s, [Gone] + Bads(n - 2)) == [Good, Gone] + Bads(n - 2);
      LoseOne(s, 0, n - 2);
    } else if !s.flags.force {
      assert Bads(1) == [Bad] + Bads(0) && Up(s, Bads(1)) == [Good, Bad];
      GiveUpSome(s, 0, 1);
    } else if s.flags.shown {
      LetGoTooEarly(s, 0);
    } else {
      assert Joining(s, [Gone, Good]) == ClaimLuck(s);
      JoinThenLetGo(s, 0);
    }
  }

  lemma FinishHarms(s: State)
    requires s.luck == [] && Holds(s) && s.kind.Bridge?
    requires if s.tally.present == 0 then !s.flags.force else !s.flags.used
    ensures var r := FinishUp(s);
            Holds(r.s) && (r.ok ==> !r.s.flags.used)
  {
    hide ClaimGroup, SetDown;
  }

  lemma ClaimHarms(s: State)
    requires Sound(s) && Calm(s) && Idle(s) && ClaimRisk(s) && s.luck == ClaimLuck(s)
    ensures Strays(ClaimGroup(s))
  {
    hide EnableFrom, FinishUp, PortTidy, Count, Holds;
    var t := ResetFailed(SetUsed(s, true));
    CalmFrame(s, t);
    SoundFrame(s, t);
    LoopHarms(t);
    FinishHarms(EnableFrom(t, 0));
    var r := FinishUp(EnableFrom(t, 0));
    assert SetUp(SetUsed(s, true)) == r;
    HoldsFrame(r.s, SetUsed(r.s, false));
  }

  lemma HoldsFrame(s: State, r: State)
    requires r.ports == s.ports
    ensures Holds(s) <==> Holds(r)
  {
  }

  /** Answers with which the retry timer goes wrong on a bridge in use, from its count of present
      ports: the ports that are tried vanish or join until the count is 0, then the users let go. */
  function RetryLuck(n: int, up: bool, shown: bool): seq<Outcome>
    decreases if shown then 0 else 1, Abs(n)
  {
    (if up then [] else [Good])
    + if !shown then [Good, Good, Good] + RetryLuck(n + 1, true, true)
      else if n == 0 then [Gone, Good]
      else if n > 0 then [Gone] + RetryLuck(n - 1, true, true)
      else [Good, Good] + RetryLuck(n + 1, true, true)
  }

  lemma WaitingOpen(s: State, i: nat)
    requires Calm(s) && s.flags.used && i < |s.ports| && !s.ports[i].present
    ensures Open(Announced(s, i), i) && SameBut(s, Announced(s, i), i)
  {
    UnclaimedInactive(s, i);
    AnnouncedTidy(s, i);
  }

  lemma WaitingNext(s: State, r: State, i: nat)
    requires i < |s.ports| && SameBut(Announced(s, i), r, i) && SameBut(s, Announced(s, i), i)
    ensures r.kind == s.kind && r.keepEmpty == s.keepEmpty && |r.ports| == |s.ports|
    ensures WaitingFrom(r.ports, i + 1) == WaitingFrom(s.ports, i + 1)
  {
    SameWaitingFrom(s, Announced(s, i), i, i + 1);
    SameWaitingFrom(Announced(s, i), r, i, i + 1);
  }

  lemma {:induction false} BridgeRetryHarms(s: State, i: nat)
    requires s.kind.Bridge? && Calm(s) && s.flags.used && i <= |s.ports|
    requires CanEmpty(s, WaitingFrom(s.ports, i))
    requires s.luck == RetryLuck(s.tally.present, s.flags.up, s.flags.shown)
    ensures Strays(RetryFrom(s, i))
    decreases |s.ports| - i
  {
    hide RetryFrom, EnablePort, Calm, SameBut, WaitingFrom, RetryLuck;
    var j := NextWaiting(s, i);
    WaitingOpen(s, j);
    var t, n := Announced(s, j), s.tally.present;
    var r := EnablePort(t, j);
    BridgeRetryStep(s, j);
    WaitingNext(s, r, j);
    if s.flags.shown && n == 0 {
      RetryAll(r, j + 1);
    } else {
      BridgeRetryHarms(r, j + 1);
    }
  }

  lemma BridgeRetryStep(s: State, j: nat)
    requires s.kind.Bridge? && Calm(s) && s.flags.used && !s.keepEmpty && j < |s.ports|
    requires Open(Announced(s, j), j)
    requires s.luck == RetryLuck(s.tally.present, s.flags.up, s.flags.shown)
    ensures var r, n := EnablePort(Announced(s, j), j), s.tally.present;
            && Calm(r) && SameBut(Announced(s, j), r, j)
            && (if s.flags.shown && n == 0 then !r.flags.used && r.luck == []
                else r.flags.used && r.flags.shown && r.luck == RetryLuck(r.tally.present, r.flags.up, true)
                     && r.tally.present == if s.flags.shown && n > 0 then n - 1 else n + 1)
  {
    hide EnablePort, Calm, SameBut;
    var t, n := Announced(s, j), s.tally.present;
    if !s.flags.shown || n < 0 {
      var rest := RetryLuck(n + 1, true, true);
      assert t.luck == Joining(t, rest);
      BridgePortJoins(t, j, rest);
    } else if n == 0 {
      assert t.luck == Up(t, [Gone] + [Good]);
      BridgePortVanishes(t, j, [Good]);
    } else {
      var rest := RetryLuck(n - 1, true, true);
      assert t.luck == Up(t, [Gone] + rest);
      BridgePortVanishes(t, j, rest);
    }
  }

  lemma BondRetryHarms(s: State)
    requires s.kind.Bonding? && Calm(s) && s.flags.used && CanEmpty(s, WaitingFrom(s.ports, 0))
    requires s.luck == [Gone, Good]
    ensures Strays(RetryFrom(s, 0))
  {
    hide RetryFrom, ClaimPort, Calm, SameBut, WaitingFrom;
    var j := NextWaiting(s, 0);
    WaitingOpen(s, j);
    var t := Announced(s, j);
    assert t.luck == [Gone] + [Good];
    ClaimVanishes(t, j, [Good]);
    var r := EnablePort(t, j);
    assert r == Noted(ClaimPort(t, j).s, j, Refused);
    NotedTidy(t, ClaimPort(t, j).s, j, Refused);
    WaitingNext(s, r, j);
    RetryAll(r, j + 1);
  }

  // ----- when an event is harmless

  /** Answers with which an event at risk goes wrong */
  function HarmLuck(s: State, ev: Event): seq<Outcome>
  {
    match ev
    case Claim => ClaimLuck(s)
    case Retry =>
      if !s.flags.used then [] else if s.kind.Bonding? then [Gone, Good]
      else RetryLuck(s.tally.present, s.flags.up, s.flags.shown)
    case Prepare => [Good] + ClaimLuck(s.(flags := s.flags.(force := true, shown := true)))
    case Add(_) => [Good] + ClaimLuck(s.(flags := s.flags.(shown := true), tally := s.tally.(present := 1)))
    case _ => []
  }

  lemma ShowHarms(s: State)
    requires Sound(s) && Tidy(s) && ShowRisk(s)
    requires s.luck == [Good] + ClaimLuck(s.(flags := s.flags.(shown := true)))
    ensures Strays(SetShown(s, true))
  {
    hide Sound, ClaimGroup, Calm, Idle, Count, Holds;
    var t := s.(flags := s.flags.(shown := true));
    var u := Spend(t);
    SoundFrame(s, u);
    CalmFrame(s, u);
    IdleFrame(s, u);
    assert u.luck == ClaimLuck(t);
    ClaimHarms(u);
  }

  lemma HandleHarms(s: State, ev: Event)
    requires Sound(s) && Tidy(s) && Possible(s, ev) && AtRisk(s, ev) && s.luck == HarmLuck(s, ev)
    ensures Strays(Handle(s, ev))
  {
    hide Sound, EnablePort, ClaimGroup, RetryFrom, SetShown, Calm, Idle, Holds, ClaimRisk;
    match ev
    case Add(i) =>
      var p := s.ports[i].(there := true);
      var t := SetPort(s, i, p);
      AddSound(s, i);
      DeviceTidy(s, i, p);
      AnnouncedTidy(t, i);
      AnnouncedSound(t, i);
      ShowHarms(Announced(t, i));
    case Claim => ClaimHarms(s);
    case Retry =>
      var t := ResetFailed(s);
      CalmFrame(s, t);
      if !s.flags.used {
        RetryAll(t, 0);
      } else if s.kind.Bonding? {
        BondRetryHarms(t);
      } else {
        BridgeRetryHarms(t, 0);
      }
    case Prepare =>
      SoundFrame(s, SetForce(s, true));
      CalmFrame(s, SetForce(s, true));
      IdleFrame(s, SetForce(s, true));
      ShowHarms(SetForce(s, true));
    case _ =>
  }

  lemma StepTidy(s: State, st: Step)
    requires Sound(s) && Tidy(s) && (Possible(s, st.ev) ==> Careful(s.(luck := st.luck), st.ev))
    ensures Tidy(Follow(s, st))
  {
    hide Sound, Handle, Calm, Idle, AtRisk;
    if Possible(s, st.ev) {
      var t := s.(luck := st.luck);
      SoundFrame(s, t);
      CalmFrame(s, t);
      IdleFrame(s, t);
      HandleTidy(t, st.ev);
      var u := Handle(t, st.ev);
      CalmFrame(u, u.(luck := []));
      IdleFrame(u, u.(luck := []));
    }
  }

  lemma RiskFrame(s: State, luck: seq<Outcome>, ev: Event)
    requires Possible(s, ev)
    ensures AtRisk(s.(luck := luck), ev) == AtRisk(s, ev)
    ensures HarmLuck(s.(luck := luck), ev) == HarmLuck(s, ev)
  {
  }

  lemma StepHarms(s: State, ev: Event)
    requires Sound(s) && Tidy(s) && Possible(s, ev) && AtRisk(s, ev)
    ensures Strays(Follow(s, Step(ev, HarmLuck(s, ev))))
  {
    hide Sound, Handle, Calm, Idle, AtRisk, HarmLuck, Holds;
    var luck := HarmLuck(s, ev);
    var t := s.(luck := luck);
    RiskFrame(s, luck, ev);
    SoundFrame(s, t);
    CalmFrame(s, t);
    IdleFrame(s, t);
    HandleHarms(t, ev);
    HoldsFrame(Handle(t, ev), Follow(s, Step(ev, luck)));
  }

  /** Whatever the calls give and the users do, an event leaves the group as it should be exactly if
      it is not at risk; if it is, some answers leave a claim on a port that nobody uses. */
  lemma StepHarmlessIff(s: State, ev: Event)
    requires Sound(s) && Tidy(s) && Possible(s, ev)
    ensures (forall luck :: Tidy(Follow(s, Step(ev, luck)))) <==> !AtRisk(s, ev)
    ensures (forall luck :: !Strays(Follow(s, Step(ev, luck)))) <==> !AtRisk(s, ev)
  {
    hide Sound, Follow, Tidy, AtRisk, HarmLuck, Strays;
    if AtRisk(s, ev) {
      StepHarms(s, ev);
      var r := Follow(s, Step(ev, HarmLuck(s, ev)));
      if Tidy(r) {
        TidyNeverStrays(r);
      }
    } else {
      forall luck ensures Tidy(Follow(s, Step(ev, luck))) && !Strays(Follow(s, Step(ev, luck))) {
        RiskFrame(s, luck, ev);
        StepTidy(s, Step(ev, luck));
        TidyNeverStrays(Follow(s, Step(ev, luck)));
      }
    }
  }

  // ----- whole runs

  ghost predicate NoAuth(s: State)
  {
    forall p :: p in s.ports ==> !p.auth
  }

  lemma FreshTidy(s0: State)
    requires Fresh(s0) && NoAuth(s0)
    ensures Tidy(s0)
  {
    assert forall i :: 0 <= i < |s0.ports| ==> s0.ports[i] in s0.ports;
  }

  /** A beginning of the run of these events, with some answers */
  ghost predicate Course(steps: seq<Step>, evs: seq<Event>)
  {
    |steps| <= |evs| && forall k :: 0 <= k < |steps| ==> steps[k].ev == evs[k]
  }

  /** The next event after these steps is at risk. */
  ghost predicate RiskNext(s0: State, steps: seq<Step>, evs: seq<Event>)
    requires |steps| < |evs|
  {
    var s := FollowAll(s0, steps);
    Possible(s, evs[|steps|]) && AtRisk(s, evs[|steps|])
  }

  lemma {:induction false} CautiousCourse(s0: State, steps: seq<Step>, evs: seq<Event>)
    requires Fresh(s0) && NoAuth(s0) && Course(steps, evs)
    requires forall some :: Course(some, evs) && |some| < |evs| ==> !RiskNext(s0, some, evs)
    ensures Tidy(FollowAll(s0, steps))
  {
    if steps == [] {
      FreshTidy(s0);
    } else {
      hide Sound, Follow, Tidy, AtRisk, Possible;
      var n := |steps| - 1;
      assert Course(steps[..n], evs);
      CautiousCourse(s0, steps[..n], evs);
      RunKeeps(s0, steps[..n]);
      var s := FollowAll(s0, steps[..n]);
      assert !RiskNext(s0, steps[..n], evs);
      CarefulStep(s, steps[n]);
      StepTidy(s, steps[n]);
    }
  }

  lemma CarefulStep(s: State, st: Step)
    requires !(Possible(s, st.ev) && AtRisk(s, st.ev))
    ensures Possible(s, st.ev) ==> Careful(s.(luck := st.luck), st.ev)
  {
    if Possible(s, st.ev) {
      RiskFrame(s, st.luck, st.ev);
    }
  }

  lemma {:induction false} CleanCourse(s0: State, steps: seq<Step>, evs: seq<Event>)
    requires Fresh(s0) && NoAuth(s0) && Course(steps, evs)
    requires forall some :: Course(some, evs) ==> !Strays(FollowAll(s0, some))
    ensures Tidy(FollowAll(s0, steps)) && (|steps| < |evs| ==> !RiskNext(s0, steps, evs))
  {
    hide Sound, Follow, Tidy, AtRisk, Possible, Strays;
    if steps == [] {
      FreshTidy(s0);
    } else {
      var n := |steps| - 1;
      assert Course(steps[..n], evs);
      CleanCourse(s0, steps[..n], evs);
      RunKeeps(s0, steps[..n]);
      CarefulStep(FollowAll(s0, steps[..n]), steps[n]);
      StepTidy(FollowAll(s0, steps[..n]), steps[n]);
    }
    RunKeeps(s0, steps);
    var s := FollowAll(s0, steps);
    if |steps| < |evs| && RiskNext(s0, steps, evs) {
      var st := Step(evs[|steps|], HarmLuck(s, evs[|steps|]));
      assert Course(steps + [st], evs);
      StepHarms(s, st.ev);
      FollowMore(s0, steps, st);
    }
  }

  /** For a new group without authentication and any sequence of events: no claim is ever held while
      nobody uses the group, whatever the calls give and the users do on the way, exactly if no event
      is ever at risk when it comes. Then a port is also claimed exactly while it is part of the kernel
      device, and an unused bridge is not in the kernel. */
  lemma RunsStayTidyIff(s0: State, evs: seq<Event>)
    requires Fresh(s0) && NoAuth(s0)
    ensures (forall steps :: Course(steps, evs) ==> !Strays(FollowAll(s0, steps)))
            <==> (forall steps :: Course(steps, evs) && |steps| < |evs| ==> !RiskNext(s0, steps, evs))
    ensures (forall steps :: Course(steps, evs) ==> Tidy(FollowAll(s0, steps)))
            <==> (forall steps :: Course(steps, evs) && |steps| < |evs| ==> !RiskNext(s0, steps, evs))
  {
    hide FollowAll, Tidy, Strays, RiskNext;
    if forall steps :: Course(steps, evs) && |steps| < |evs| ==> !RiskNext(s0, steps, evs) {
      forall steps | Course(steps, evs) ensures Tidy(FollowAll(s0, steps)) && !Strays(FollowAll(s0, steps)) {
        CautiousCourse(s0, steps, evs);
        TidyNeverStrays(FollowAll(s0, steps));
      }
    } else {
      var steps :| Course(steps, evs) && |steps| < |evs| && RiskNext(s0, steps, evs);
      if forall some :: Course(some, evs) ==> Tidy(FollowAll(s0, some)) {
        forall some | Course(some, evs) ensures !Strays(FollowAll(s0, some)) {
          TidyNeverStrays(FollowAll(s0, some));
        }
      }
      if forall some :: Course(some, evs) ==> !Strays(FollowAll(s0, some)) {
        CleanCourse(s0, steps, evs);
      }
    }
  }

  /** Each event was not at risk, or no claim had vanished or did then and the retry timer did not
      fire while the group was unused. */
  ghost predicate CarefulRun(s0: State, steps: seq<Step>)
  {
    steps != [] ==>
      var s, st := FollowAll(s0, steps[..|steps| - 1]), steps[|steps| - 1];
      && CarefulRun(s0, steps[..|steps| - 1])
      && (Possible(s, st.ev) ==> Careful(s.(luck := st.luck), st.ev))
  }

  lemma {:induction false} RunTidy(s0: State, steps: seq<Step>)
    requires Fresh(s0) && NoAuth(s0) && CarefulRun(s0, steps)
    ensures Tidy(FollowAll(s0, steps))
  {
    if steps == [] {
      FreshTidy(s0);
    } else {
      hide Sound, Follow, Tidy, Careful, Possible;
      RunTidy(s0, steps[..|steps| - 1]);
      RunKeeps(s0, steps[..|steps| - 1]);
      StepTidy(FollowAll(s0, steps[..|steps| - 1]), steps[|steps| - 1]);
    }
  }

  /** After every careful run the group holds a claim on a port's device exactly while the port is part
      of its kernel device, and it holds none while nobody uses it; then an unused bridge is not in the
      kernel either. */
  lemma NothingHeldWhenUnused(s0: State, steps: seq<Step>, i: nat)
    requires Fresh(s0) && NoAuth(s0) && CarefulRun(s0, steps) && i < |FollowAll(s0, steps).ports|
    ensures var s := FollowAll(s0, steps);
            && (s.ports[i].claimed <==> s.ports[i].active)
            && (!s.flags.used ==> !s.ports[i].claimed && (s.kind.Bridge? ==> !s.flags.up))
  {
    hide FollowAll;
    RunTidy(s0, steps);
    UnclaimedInactive(FollowAll(s0, steps), i);
  }

  /** The retry timer only fires while the group is in use. */
  ghost predicate RetriesInUse(s0: State, steps: seq<Step>)
  {
    steps != [] ==>
      RetriesInUse(s0, steps[..|steps| - 1])
      && (steps[|steps| - 1].ev.Retry? ==> FollowAll(s0, steps[..|steps| - 1]).flags.used)
  }

  /** Runs without vanishing claims and late retries are careful. */
  lemma {:induction false} EasyRunIsCareful(s0: State, steps: seq<Step>)
    requires Fresh(s0) && NeverGone(steps) && RetriesInUse(s0, steps)
    ensures CarefulRun(s0, steps)
  {
    if steps != [] {
      hide FollowAll, AtRisk, Possible;
      var n := |steps| - 1;
      assert steps[n] in steps;
      forall st | st in steps[..n] ensures st in steps {}
      EasyRunIsCareful(s0, steps[..n]);
      RunKeeps(s0, steps[..n]);
    }
  }

  /** The retry timer is not stopped when the group goes down. Firing then, it leaves the group as it
      should be whatever the calls give and the users do, exactly if there is no port to retry; with
      every call succeeding it never does if there is one. */
  lemma LateRetryIsHarmlessIff(s: State)
    requires Tidy(s) && !s.flags.used
    ensures (forall luck :: Tidy(Handle(s.(luck := luck), Retry))) <==> WaitingFrom(s.ports, 0) == 0
    ensures Tidy(Handle(s.(luck := []), Retry)) <==> WaitingFrom(s.ports, 0) == 0
  {
    hide RetryFrom, Calm, Idle;
    if WaitingFrom(s.ports, 0) == 0 {
      forall luck ensures Tidy(Handle(s.(luck := luck), Retry)) {
        var t := ResetFailed(s.(luck := luck));
        NothingToRetry(t, 0);
        CalmFrame(s, t);
        IdleFrame(s, t);
      }
    } else {
      var t := ResetFailed(s.(luck := []));
      CalmFrame(s, t);
      RetryAll(t, 0);
      if Tidy(RetryFrom(t, 0)) {
        TidyNeverStrays(RetryFrom(t, 0));
      }
    }
  }

  // ----- runs that go wrong

  /** A port whose device is absent, or there and announced */
  function Away(auth: bool): Port
  {
    Port(false, false, false, false, auth, false, Fine)
  }

  function Here(auth: bool): Port
  {
    Port(true, false, false, true, auth, false, Fine)
  }

  /** A port that was given up, while its device is there or not */
  function GivenUpPort(there: bool): Port
  {
    Away(false).(there := there, note := Refused)
  }

  const Unused := Flags(false, false, false, false, false)
  const Shown := Flags(false, false, false, true, false)

  function NewGroup(kind: Kind, ports: seq<Port>): State
  {
    State(kind, false, ports, Unused, Tally(0, 0, 0), [])
  }

  lemma FollowThree(s0: State, a: Step, b: Step, c: Step)
    ensures FollowAll(s0, [a, b, c]) == Follow(Follow(Follow(s0, a), b), c)
  {
    hide Follow;
    FollowMore(s0, [], a);
    FollowMore(s0, [a], b);
    FollowMore(s0, [a, b], c);
    assert [] + [a] == [a] && [a] + [b] == [a, b] && [a, b] + [c] == [a, b, c];
  }

  /** The device of an unused group's port appears. */
  lemma Appears(s: State, i: nat, auth: bool)
    requires !s.flags.used && i < |s.ports| && s.ports[i] == Away(auth) && s.luck == []
    ensures Follow(s, Step(Add(i), []))
            == s.(ports := s.ports[i := Here(auth)], tally := s.tally.(present := s.tally.present + 1),
                  flags := s.flags.(shown := s.flags.shown || s.tally.present == 0))
  {
    hide EnablePort;
    assert s.ports[i := Away(auth).(there := true)][i := Here(auth)] == s.ports[i := Here(auth)];
  }

  /** A new bridge with two ports that have appeared: one joins, and the device of the other vanishes
      while it is claimed. The bridge is deleted and the claim fails, but the port that had joined is
      still claimed. */
  lemma JoinedPortStaysClaimed()
    ensures var s := FollowAll(NewGroup(Bridge, [Away(false), Away(false)]),
                               [Step(Add(0), []), Step(Add(1), []), Step(Claim, [Good, Good, Good, Gone])]);
            && !s.flags.used && !s.flags.up && |s.ports| == 2
            && s.ports[0].present && s.ports[0].active && s.ports[0].claimed
  {
    hide Follow, FollowAll;
    var s0 := NewGroup(Bridge, [Away(false), Away(false)]);
    FollowThree(s0, Step(Add(0), []), Step(Add(1), []), Step(Claim, [Good, Good, Good, Gone]));
    Appears(s0, 0, false);
    var s1 := s0.(ports := [Here(false), Away(false)], flags := Shown, tally := Tally(1, 0, 0));
    assert s0.ports[0 := Here(false)] == s1.ports;
    Appears(s1, 1, false);
    var s2 := s1.(ports := [Here(false), Here(false)], tally := Tally(2, 0, 0));
    assert s1.ports[1 := Here(false)] == s2.ports;
    TwoPortsClaimed(s2);
  }

  lemma TwoPortsClaimed(s: State)
    requires s == State(Bridge, false, [Here(false), Here(false)], Shown, Tally(2, 0, 0), [])
    ensures var r := Follow(s, Step(Claim, [Good, Good, Good, Gone]));
            && !r.flags.used && !r.flags.up && |r.ports| == 2
            && r.ports[0].present && r.ports[0].active && r.ports[0].claimed
  {
    hide EnablePort, FinishUp;
    var a := SetUsed(s.(luck := [Good, Good, Good, Gone]), true);
    var d := FirstJoins(a);
    assert EnableFrom(a, 0) == EnableFrom(EnablePort(d, 1), 2);
    var e := EnablePort(d, 1);
    SecondVanishes(d, e);
    assert ResetFailed(a) == a && EnableFrom(e, 2) == e;
    assert SetUp(a) == FinishUp(e);
    Collapses(e);
  }

  lemma FirstJoins(a: State) returns (d: State)
    requires a == State(Bridge, false, [Here(false), Here(false)], Shown.(used := true), Tally(2, 0, 0),
                        [Good, Good, Good, Gone])
    ensures d == State(Bridge, false, [Here(false).(claimed := true, active := true), Here(false)],
                       Shown.(used := true, up := true), Tally(2, 0, 0), [Gone])
    ensures EnablePort(a, 0) == d
  {
    var e := Raised(a, [Good, Good, Gone]);
    assert EnableInterface(a) == Result(e, true);
    var c := e.(ports := [Here(false).(claimed := true), Here(false)], luck := [Good, Gone]);
    assert ClaimPort(e, 0) == Result(c, true) by {
      assert e.ports[0 := Here(false).(claimed := true)] == c.ports;
    }
    d := c.(ports := [Here(false).(claimed := true, active := true), Here(false)], luck := [Gone]);
    assert JoinPort(c, 0) == d by {
      assert c.ports[0 := Here(false).(claimed := true, active := true)] == d.ports;
    }
  }

  lemma SecondVanishes(d: State, e: State)
    requires d == State(Bridge, false, [Here(false).(claimed := true, active := true), Here(false)],
                        Shown.(used := true, up := true), Tally(2, 0, 0), [Gone])
    requires e == EnablePort(d, 1)
    ensures e == d.(ports := [Here(false).(claimed := true, active := true), GivenUpPort(false)],
                    tally := Tally(0, 1, 1), luck := [])
  {
    hide SetShown;
    var t := DeviceGone(d, 1);
    assert t == d.(ports := [d.ports[0], Here(false).(there := false)], luck := []);
    var r := RemovePort(t, 1);
    assert r == t.(ports := [d.ports[0], Away(false)], tally := Tally(1, 0, 0));
    assert ClaimPort(d, 1) == Result(Vanished(r), false);
    BridgeTry(d, 1, d);
    assert Drop(Vanished(r), 1).ports == [d.ports[0], GivenUpPort(false)];
  }

  lemma Collapses(e: State)
    requires e.kind.Bridge? && e.luck == [] && !e.flags.force && e.tally.present == 0
    ensures FinishUp(e) == Result(e.(flags := e.flags.(up := false, shown := false)), false)
  {
    hide SetDown;
  }

  /** A port of a new bridge cannot be added to it, so that its claim goes; when the group is not used
      any more, the retry timer joins it all the same. */
  lemma LateRetryClaims()
    ensures var s := FollowAll(NewGroup(Bridge, [Away(false)]),
                               [Step(Add(0), []), Step(Claim, [Good, Good, Bad]), Step(Retry, [])]);
            && !s.flags.used && |s.ports| == 1 && s.ports[0].claimed && s.ports[0].active
  {
    hide Follow, FollowAll;
    var s0 := NewGroup(Bridge, [Away(false)]);
    FollowThree(s0, Step(Add(0), []), Step(Claim, [Good, Good, Bad]), Step(Retry, []));
    Appears(s0, 0, false);
    var s1 := s0.(ports := [Here(false)], flags := Shown, tally := Tally(1, 0, 0));
    assert s0.ports[0 := Here(false)] == s1.ports;
    OnlyPortFails(s1);
    OnlyPortRetried(Follow(s1, Step(Claim, [Good, Good, Bad])));
  }

  lemma OnlyPortFails(s: State)
    requires s == State(Bridge, false, [Here(false)], Shown, Tally(1, 0, 0), [])
    ensures Follow(s, Step(Claim, [Good, Good, Bad]))
            == State(Bridge, false, [GivenUpPort(true)], Unused, Tally(0, 1, 0), [])
  {
    hide SetDown;
    var a := SetUsed(s.(luck := [Good, Good, Bad]), true);
    var e := Raised(a, [Good, Bad]);
    assert EnableInterface(a) == Result(e, true);
    var c := e.(ports := [Here(false).(claimed := true)], luck := [Bad]);
    assert ClaimPort(e, 0) == Result(c, true) by {
      assert e.ports[0 := Here(false).(claimed := true)] == c.ports;
    }
    var d := c.(ports := [GivenUpPort(true)], tally := Tally(0, 1, 0), luck := []);
    assert JoinPort(c, 0) == d by {
      assert c.ports[0 := GivenUpPort(true)] == d.ports;
    }
    assert ResetFailed(a) == a && EnablePort(a, 0) == d;
    assert EnableFrom(a, 0) == EnableFrom(d, 1) == d;
    Collapses(d);
    assert SetUp(a) == FinishUp(d);
  }

  lemma OnlyPortRetried(s: State)
    requires s == State(Bridge, false, [GivenUpPort(true)], Unused, Tally(0, 1, 0), [])
    ensures var r := Follow(s, Step(Retry, []));
            !r.flags.used && |r.ports| == 1 && r.ports[0].claimed && r.ports[0].active
  {
    hide EnablePort;
    var t := Announced(ResetFailed(s), 0);
    assert Calm(t) && t.luck == [];
    EasyJoin(t, 0);
    assert RetryFrom(ResetFailed(s), 0) == RetryFrom(EnablePort(t, 0), 1) == EnablePort(t, 0);
  }

  /** A port that waits for its authentication is still claimed after the group was let go. */
  lemma WaitingPortStaysClaimed()
    ensures var s := FollowAll(NewGroup(Bridge, [Away(true)]),
                               [Step(Add(0), []), Step(Claim, []), Step(Release, [])]);
            && !s.flags.used && |s.ports| == 1 && s.ports[0].claimed && !s.ports[0].active
  {
    hide Follow, FollowAll;
    var s0 := NewGroup(Bridge, [Away(true)]);
    FollowThree(s0, Step(Add(0), []), Step(Claim, []), Step(Release, []));
    Appears(s0, 0, true);
    var s1 := s0.(ports := [Here(true)], flags := Shown, tally := Tally(1, 0, 0));
    assert s0.ports[0 := Here(true)] == s1.ports;
    WaitingPortClaimed(s1);
    var s2 := Follow(s1, Step(Claim, []));
    ReleaseLeavesClaimIffUnjoined(s2, 0);
    WaitingPortReleased(s2);
  }

  lemma WaitingPortClaimed(s: State)
    requires s == State(Bridge, false, [Here(true)], Shown, Tally(1, 0, 0), [])
    ensures Follow(s, Step(Claim, []))
            == s.(ports := [Here(true).(claimed := true)], flags := Shown.(used := true, up := true))
  {
    hide SetDown, RemovePort;
    var a := SetUsed(s, true);
    var e := Raised(a, []);
    assert EnableInterface(a) == Result(e, true);
    var c := e.(ports := [Here(true).(claimed := true)]);
    assert ClaimPort(e, 0) == Result(c, true) by {
      assert e.ports[0 := Here(true).(claimed := true)] == c.ports;
    }
    assert EnablePort(a, 0) == c;
    assert EnableFrom(a, 0) == EnableFrom(c, 1) == c;
    assert SetUp(a) == FinishUp(c) == Result(c, true);
  }

  lemma WaitingPortReleased(s: State)
    requires s.kind.Bridge? && s.luck == [] && s.flags.used && |s.ports| == 1 && !s.ports[0].active
    ensures var r := Follow(s, Step(Release, []));
            !r.flags.used && r.ports == s.ports
  {
    assert DisableFrom(SetUsed(s, false), 0) == SetUsed(s, false);
  }

  /** A bond in use whose two ports could not be added: the device of the first vanishes when it is
      tried again, the users let go, and the second joins all the same. */
  lemma RetryGoesOn()
    ensures var s := FollowAll(NewGroup(Bonding, [Away(false), Away(false)]),
                               [Step(Prepare, []), Step(Add(0), []), Step(Add(1), []),
                                Step(Claim, [Good, Good, Bad, Good, Bad]), Step(Retry, [Gone, Good])]);
            Strays(s)
  {
    hide Follow, FollowAll, Strays;
    var s0 := NewGroup(Bonding, [Away(false), Away(false)]);
    var claim, retry := Step(Claim, [Good, Good, Bad, Good, Bad]), Step(Retry, [Gone, Good]);
    FollowThree(s0, Step(Prepare, []), Step(Add(0), []), Step(Add(1), []));
    var three := [Step(Prepare, []), Step(Add(0), []), Step(Add(1), [])];
    FollowMore(s0, three, claim);
    FollowMore(s0, three + [claim], retry);
    assert three + [claim] + [retry] == [Step(Prepare, []), Step(Add(0), []), Step(Add(1), []), claim, retry];
    var s1 := s0.(flags := Shown.(force := true));
    assert Follow(s0, Step(Prepare, [])) == s1 by { Prepared(s0); }
    Appears(s1, 0, false);
    var s2 := s1.(ports := [Here(false), Away(false)], tally := Tally(1, 0, 0));
    assert s1.ports[0 := Here(false)] == s2.ports;
    Appears(s2, 1, false);
    var s3 := s2.(ports := [Here(false), Here(false)], tally := Tally(2, 0, 0));
    assert s2.ports[1 := Here(false)] == s3.ports;
    TwoPortsFail(s3);
    TwoPortsRetried(Follow(s3, claim));
  }

  lemma Prepared(s: State)
    requires s.flags == Unused && s.luck == []
    ensures Follow(s, Step(Prepare, [])) == s.(flags := Shown.(force := true))
  {
    hide ClaimGroup;
  }

  lemma TwoPortsFail(s: State)
    requires s == State(Bonding, false, [Here(false), Here(false)], Shown.(force := true), Tally(2, 0, 0), [])
    ensures var p := GivenUpPort(true);
            Follow(s, Step(Claim, [Good, Good, Bad, Good, Bad]))
            == State(Bonding, false, [p, p], Shown.(force := true, used := true, up := true), Tally(0, 2, 0), [])
  {
    hide EnablePort, SetDown;
    var p := GivenUpPort(true);
    var a := SetUsed(s.(luck := [Good, Good, Bad, Good, Bad]), true);
    var b := State(Bonding, false, [p, Here(false)], a.flags.(up := true), Tally(1, 1, 0), [Good, Bad]);
    var c := b.(ports := [p, p], tally := Tally(0, 2, 0), luck := []);
    assert a.luck == [Good] + Up(a, [Bad] + [Good, Bad]) && b.luck == [Good] + Up(b, [Bad] + []);
    BondPortFails(a, 0, [Good, Bad]);
    assert a.ports[0 := p] == b.ports;
    BondPortFails(b, 1, []);
    assert b.ports[1 := p] == c.ports;
    assert EnableFrom(a, 0) == EnableFrom(b, 1) == EnableFrom(c, 2) == c;
    assert ResetFailed(a) == a;
    assert SetUp(a) == FinishUp(c) == Result(c, true);
  }

  lemma BondPortFails(s: State, i: nat, rest: seq<Outcome>)
    requires s.kind.Bonding? && i < |s.ports| && s.ports[i] == Here(false)
    requires s.luck == [Good] + Up(s, [Bad] + rest)
    ensures EnablePort(s, i)
            == s.(ports := s.ports[i := GivenUpPort(true)], flags := s.flags.(up := true),
                  tally := Tally(s.tally.present - 1, s.tally.failed + 1, s.tally.vanished), luck := rest)
  {
    hide SetShown, RemovePort;
    var c := SetPort(Spend(s), i, Here(false).(claimed := true));
    assert ClaimPort(s, i) == Result(c, true);
    assert c.luck == Up(s, [Bad] + rest);
    var e := Raised(c, [Bad] + rest);
    assert EnableInterface(c) == Result(e, true);
    assert Spend(e).luck == rest;
    assert JoinPort(e, i) == Drop(Spend(e), i);
  }

  lemma TwoPortsRetried(s: State)
    requires var p := GivenUpPort(true);
             s == State(Bonding, false, [p, p], Shown.(force := true, used := true, up := true), Tally(0, 2, 0), [])
    ensures Strays(Follow(s, Step(Retry, [Gone, Good])))
  {
    hide RetryFrom, Strays;
    var t := ResetFailed(s.(luck := [Gone, Good]));
    assert Calm(t);
    assert WaitingFrom(t.ports, 2) == 0 && WaitingFrom(t.ports, 1) == 1 && WaitingFrom(t.ports, 0) == 2;
    BondRetryHarms(t);
    var r := RetryFrom(t, 0);
    StraysFrame(r, r.(luck := []));
  }

  lemma StraysFrame(s: State, r: State)
    requires Strays(s) && r.ports == s.ports && r.flags == s.flags
    ensures Strays(r)
  {
  }
}
