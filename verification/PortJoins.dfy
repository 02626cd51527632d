/** Which ports of a bridge or bond in use are part of it (bridge.c, bonding.c). */
module PortJoins {
  import opened PortGroup

  /** The port needs no authentication, or has it. */
  predicate Admitted(p: Port)
  {
    !p.auth || p.authed
  }

  predicate Joined(p: Port)
  {
    p.active && p.claimed
  }

  // ----- one port that is tried

  /** How many calls it takes to make a port join: for the group's own device, the claim on the port's
      device, and adding it, as far as they are not done yet */
  function CallsToJoin(s: State, i: nat): nat
    requires i < |s.ports|
  {
    (if s.flags.up then 0 else 1) + (if s.ports[i].claimed then 0 else 1) + (if s.ports[i].active then 0 else 1)
  }

  predicate AllGood(luck: seq<Outcome>, n: nat)
  {
    forall k :: 0 <= k < n && k < |luck| ==> luck[k].Good?
  }

  lemma AllGoodStep(s: State, n: nat)
    ensures AllGood(s.luck, n + 1) <==> Lucky(s) && AllGood(Spend(s).luck, n)
  {
    if Lucky(s) && s.luck != [] {
      forall k | 0 <= k < n && k < |s.luck| - 1 ensures Spend(s).luck[k] == s.luck[k + 1] {}
      if AllGood(Spend(s).luck, n) {
        forall k | 0 <= k < n + 1 && k < |s.luck| ensures s.luck[k].Good? {
          assert k > 0 ==> Spend(s).luck[k - 1] == s.luck[k];
        }
      }
    }
  }

  lemma RaiseIff(s: State, n: nat)
    ensures var e := EnableInterface(s);
            && e.s.ports == s.ports && e.s.kind == s.kind && e.s.flags == s.flags.(up := e.ok)
            && |e.s.luck| <= |s.luck|
            && (e.ok && AllGood(e.s.luck, n) <==> AllGood(s.luck, n + if s.flags.up then 0 else 1))
  {
    hide AllGood;
    AllGoodStep(s, n);
  }

  lemma ClaimIff(s: State, i: nat, n: nat)
    requires i < |s.ports|
    ensures var c := ClaimPort(s, i);
            && (c.ok && AllGood(c.s.luck, n) <==> AllGood(s.luck, n + if s.ports[i].claimed then 0 else 1))
            && (c.ok ==> c.s.ports == s.ports[i := s.ports[i].(claimed := true)] && c.s.flags == s.flags
                         && c.s.kind == s.kind)
            && (!c.ok ==> !c.s.ports[i].claimed || !c.s.ports[i].present)
  {
    hide RemovePort, AllGood;
    AllGoodStep(s, n);
    if s.ports[i].claimed {
      assert s.ports[i := s.ports[i]] == s.ports;
    } else if !Lucky(s) && s.luck[0].Gone? {
      RemovedPortIsAbsent(SetPort(Spend(s), i, s.ports[i].(there := false)), i);
    }
  }

  lemma JoinIff(s: State, i: nat)
    requires s.flags.used && i < |s.ports| && s.ports[i].present && s.ports[i].claimed && Admitted(s.ports[i])
    ensures var r := JoinPort(s, i);
            r.ports[i].present && Joined(r.ports[i]) <==> AllGood(s.luck, if s.ports[i].active then 0 else 1)
  {
    hide SetDown, ClaimGroup;
    AllGoodStep(s, 0);
  }

  /** The calls for a port of a bridge, in their order */
  lemma BridgeTries(s: State, i: nat)
    requires s.kind.Bridge? && i < |s.ports| && s.ports[i].present
    ensures var e := EnableInterface(s);
            |e.s.ports| == |s.ports|
            && EnablePort(s, i)
               == if !e.ok then Drop(e.s, i)
                  else var c := ClaimPort(e.s, i); if c.ok then JoinPort(c.s, i) else Drop(c.s, i)
  {
    hide ClaimPort, JoinPort, Drop;
  }

  /** The calls for a port of a bond, in their order */
  lemma BondTries(s: State, i: nat)
    requires s.kind.Bonding? && i < |s.ports| && s.ports[i].present
    ensures var c := ClaimPort(s, i);
            if !c.ok then EnablePort(s, i) == Noted(c.s, i, Refused)
            else var e := EnableInterface(c.s);
                 |e.s.ports| == |s.ports| && EnablePort(s, i) == if e.ok then JoinPort(e.s, i) else Withdraw(e.s, i)
  {
    hide ClaimPort, JoinPort;
  }

  /** The claim is given back. */
  ghost function Withdraw(s: State, i: nat): State
    requires i < |s.ports|
  {
    SetPort(s, i, s.ports[i].(claimed := false, note := Refused))
  }

  lemma NotIn(s: State, i: nat)
    requires i < |s.ports|
    ensures !Drop(s, i).ports[i].present && !Joined(Withdraw(s, i).ports[i])
    ensures Noted(s, i, Refused).ports[i] == s.ports[i].(note := Refused)
  {
  }

  lemma Unclaimed(p: Port)
    ensures !p.claimed ==> !Joined(p.(note := Refused))
  {
  }

  predicate In(s: State, i: nat)
    requires i < |s.ports|
  {
    s.ports[i].present && Joined(s.ports[i])
  }

  /** Claiming the device of a port, and adding it */
  lemma ClaimThenJoin(s: State, i: nat)
    requires s.flags.used && i < |s.ports| && s.ports[i].present && Admitted(s.ports[i])
    ensures var c := ClaimPort(s, i);
            In(if c.ok then JoinPort(c.s, i) else Drop(c.s, i), i)
            <==> AllGood(s.luck, (if s.ports[i].active then 0 else 1) + if s.ports[i].claimed then 0 else 1)
  {
    hide ClaimPort, JoinPort, AllGood, Drop;
    var c := ClaimPort(s, i);
    ClaimIff(s, i, if s.ports[i].active then 0 else 1);
    if c.ok {
      assert c.s.ports[i] == s.ports[i].(claimed := true);
      JoinIff(c.s, i);
    } else {
      NotIn(c.s, i);
    }
  }

  /** Bringing the group's own device up, and adding a port that is claimed */
  lemma RaiseThenJoin(s: State, i: nat)
    requires s.flags.used && i < |s.ports| && s.ports[i].present && s.ports[i].claimed && Admitted(s.ports[i])
    ensures var e := EnableInterface(s);
            |e.s.ports| == |s.ports|
            && (In(if e.ok then JoinPort(e.s, i) else Withdraw(e.s, i), i)
                <==> AllGood(s.luck, (if s.ports[i].active then 0 else 1) + if s.flags.up then 0 else 1))
  {
    hide EnableInterface, JoinPort, AllGood, Withdraw;
    var e := EnableInterface(s);
    RaiseIff(s, if s.ports[i].active then 0 else 1);
    if e.ok {
      JoinIff(e.s, i);
    } else {
      NotIn(e.s, i);
    }
  }

  lemma BridgePortJoinsIff(s: State, i: nat)
    requires s.kind.Bridge? && s.flags.used && i < |s.ports| && s.ports[i].present && Admitted(s.ports[i])
    ensures In(EnablePort(s, i), i) <==> AllGood(s.luck, CallsToJoin(s, i))
  {
    hide EnablePort, ClaimPort, JoinPort, EnableInterface, AllGood, Drop, Joined;
    var both := (if s.ports[i].active then 0 else 1) + if s.ports[i].claimed then 0 else 1;
    var e := EnableInterface(s);
    BridgeTries(s, i);
    RaiseIff(s, both);
    if e.ok {
      ClaimThenJoin(e.s, i);
    } else {
      NotIn(e.s, i);
    }
  }

  lemma BondPortJoinsIff(s: State, i: nat)
    requires s.kind.Bonding? && s.flags.used && i < |s.ports| && s.ports[i].present && Admitted(s.ports[i])
    ensures In(EnablePort(s, i), i) <==> AllGood(s.luck, CallsToJoin(s, i))
  {
    hide EnablePort, ClaimPort, JoinPort, EnableInterface, AllGood, Noted, Withdraw, Joined;
    var both := (if s.ports[i].active then 0 else 1) + if s.flags.up then 0 else 1;
    var c := ClaimPort(s, i);
    BondTries(s, i);
    ClaimIff(s, i, both);
    if c.ok {
      assert c.s.ports[i] == s.ports[i].(claimed := true);
      RaiseThenJoin(c.s, i);
    } else {
      NotIn(c.s, i);
      Unclaimed(c.s.ports[i]);
    }
  }

  /** A present and admitted port of a group in use that is tried joins exactly if all these calls
      succeed. */
  lemma PortJoinsIff(s: State, i: nat)
    requires s.flags.used && i < |s.ports| && s.ports[i].present && Admitted(s.ports[i])
    ensures var r := EnablePort(s, i);
            r.ports[i].present && Joined(r.ports[i]) <==> AllGood(s.luck, CallsToJoin(s, i))
  {
    hide EnablePort, AllGood;
    if s.kind.Bridge? {
      BridgePortJoinsIff(s, i);
    } else {
      BondPortJoinsIff(s, i);
    }
  }

  // ----- every run

  /** A present and admitted port is part of the group's kernel device and claimed, exactly unless there
      is a note on why it is not. */
  predicate Fit(p: Port)
  {
    p.present && Admitted(p) ==> (Joined(p) <==> p.note.Fine?)
  }

  /** All ports of a group in use fit, but for those of `d` that are still to be tried. */
  ghost predicate FitBut(s: State, d: set<nat>)
  {
    s.flags.used ==> forall k :: 0 <= k < |s.ports| && k !in d ==> Fit(s.ports[k])
  }

  lemma FitPort(s: State, r: State, i: nat, d: set<nat>)
    requires FitBut(s, d) && i < |s.ports| == |r.ports| && r.ports == s.ports[i := r.ports[i]]
    requires r.flags.used ==> s.flags.used
    ensures FitBut(r, d + {i}) && (Fit(r.ports[i]) ==> FitBut(r, d - {i}))
  {
  }

  lemma FitFrame(s: State, r: State, d: set<nat>)
    requires FitBut(s, d) && r.ports == s.ports && (r.flags.used ==> s.flags.used)
    ensures FitBut(r, d)
  {
  }

  lemma {:induction false} SetShownFit(s: State, state: bool, d: set<nat>)
    requires FitBut(s, d)
    ensures FitBut(SetShown(s, state), d)
    decreases |s.luck|, 0
  {
    hide ClaimGroup, SetDown, Fit;
    if s.flags.shown != state && s.luck != [] {
      var u := Spend(s.(flags := s.flags.(shown := state)));
      if s.luck[0].Good? && u.flags.used != state {
        if state {
          ClaimGroupFit(u);
        } else {
          SetDownUsed(SetUsed(u, false));
        }
      }
    }
  }

  lemma {:induction false} DisableFromUsed(s: State, i: nat)
    requires i <= |s.ports|
    ensures DisableFrom(s, i).flags.used == s.flags.used
    decreases |s.ports| - i
  {
    if i < |s.ports| {
      DisableFromUsed(DisablePort(s, i, false), i + 1);
    }
  }

  lemma SetDownUsed(s: State)
    ensures SetDown(s).flags.used == s.flags.used
  {
    hide DisableFrom;
    DisableFromUsed(s, 0);
  }

  /** After a claim on the group all ports fit. */
  lemma {:induction false} ClaimGroupFit(s: State)
    ensures FitBut(ClaimGroup(s), {})
    decreases |s.luck|, 6
  {
    hide SetUp, Fit;
    SetUpFit(SetUsed(s, true));
  }

  lemma {:induction false} RemovePortFit(s: State, i: nat, d: set<nat>)
    requires i < |s.ports| && FitBut(s, d)
    ensures FitBut(RemovePort(s, i), d - {i})
    decreases |s.luck|, 1
  {
    hide SetShown;
    if s.ports[i].present {
      var u := Removed(s, i);
      FitPort(s, u, i, d);
      FitFrame(u, SetForce(u, false), d - {i});
      SetShownFit(SetForce(u, false), false, d - {i});
    }
  }

  lemma {:induction false} ClaimPortFit(s: State, i: nat, d: set<nat>)
    requires i < |s.ports| && FitBut(s, d)
    ensures FitBut(ClaimPort(s, i).s, d + {i})
    decreases |s.luck|, 2
  {
    hide RemovePort, Fit;
    var t := SetPort(Spend(s), i, s.ports[i].(there := false));
    FitPort(s, t, i, d);
    if !s.ports[i].claimed && !Lucky(s) && s.luck[0].Gone? {
      RemovePortFit(t, i, d + {i});
      FitFrame(RemovePort(t, i), Vanished(RemovePort(t, i)), d + {i} - {i});
    }
  }

  lemma {:induction false} JoinPortFit(s: State, i: nat, d: set<nat>)
    requires i < |s.ports| && FitBut(s, d) && s.ports[i].claimed
    ensures FitBut(JoinPort(s, i), d - {i})
    decreases |s.luck|, 3, 0
  {
    hide SetShown;
    var p := s.ports[i];
    if p.auth && !p.authed {
    } else if p.active {
      FitPort(s, SetPort(s, i, p.(note := Fine)), i, d);
    } else if !Lucky(s) {
      FitPort(s, Drop(Spend(s), i), i, d);
    } else {
      var t := SetPort(Spend(s), i, p.(active := true, note := Fine));
      FitPort(s, t, i, d);
      SetShownFit(t, true, d - {i});
    }
  }

  lemma OutFits(s: State, i: nat, d: set<nat>)
    requires i < |s.ports| && FitBut(s, d)
    ensures FitBut(Drop(s, i), d - {i})
    ensures !s.ports[i].claimed || !s.ports[i].present ==> FitBut(Noted(s, i, Refused), d - {i})
    ensures FitBut(Withdraw(s, i), d - {i})
  {
    FitPort(s, Drop(s, i), i, d);
    FitPort(s, Noted(s, i, Refused), i, d);
    FitPort(s, Withdraw(s, i), i, d);
  }

  /** A port that is tried fits afterwards. */
  lemma {:induction false} EnablePortFit(s: State, i: nat, d: set<nat>)
    requires i < |s.ports| && FitBut(s, d)
    ensures FitBut(EnablePort(s, i), d - {i})
    decreases |s.luck|, 4
  {
    hide EnablePort, ClaimPort, JoinPort, EnableInterface, Drop, Noted, Withdraw;
    assert d + {i} - {i} == d - {i};
    if !s.ports[i].present {
      AbsentFits(s, i, d);
    } else if s.kind.Bridge? {
      hide FitBut;
      BridgeTries(s, i);
      RaiseIff(s, 0);
      var e := EnableInterface(s);
      FitFrame(s, e.s, d);
      if !e.ok {
        OutFits(e.s, i, d);
      } else {
        ClaimPortFit(e.s, i, d);
        ClaimIff(e.s, i, 0);
        var c := ClaimPort(e.s, i);
        if c.ok {
          JoinPortFit(c.s, i, d + {i});
        } else {
          OutFits(c.s, i, d + {i});
        }
      }
    } else {
      BondPortFit(s, i, d);
    }
  }

  lemma AbsentFits(s: State, i: nat, d: set<nat>)
    requires i < |s.ports| && FitBut(s, d) && !s.ports[i].present
    ensures EnablePort(s, i) == s && FitBut(s, d - {i})
  {
  }

  lemma {:induction false} BondPortFit(s: State, i: nat, d: set<nat>)
    requires i < |s.ports| && FitBut(s, d) && s.kind.Bonding? && s.ports[i].present
    ensures FitBut(EnablePort(s, i), d - {i})
    decreases |s.luck|, 3, 1
  {
    hide EnablePort, ClaimPort, JoinPort, EnableInterface, Drop, Noted, Withdraw, FitBut;
    assert d + {i} - {i} == d - {i};
    BondTries(s, i);
    ClaimPortFit(s, i, d);
    ClaimIff(s, i, 0);
    var c := ClaimPort(s, i);
    if !c.ok {
      OutFits(c.s, i, d + {i});
    } else {
      RaiseIff(c.s, 0);
      var e := EnableInterface(c.s);
      FitFrame(c.s, e.s, d + {i});
      if e.ok {
        JoinPortFit(e.s, i, d + {i});
      } else {
        OutFits(e.s, i, d + {i});
      }
    }
  }

  /** The numbers from `i` up to `n` */
  ghost function Rest(n: nat, i: nat): (r: set<nat>)
    ensures forall k :: k in r <==> i <= k < n
    decreases n - i
  {
    if i >= n then {} else {i} + Rest(n, i + 1)
  }

  lemma {:induction false} EnableFromFit(s: State, i: nat)
    requires i <= |s.ports| && FitBut(s, Rest(|s.ports|, i))
    ensures FitBut(EnableFrom(s, i), {})
    decreases |s.luck|, 5, |s.ports| - i
  {
    hide EnablePort, Fit;
    if i < |s.ports| {
      EnablePortFit(s, i, Rest(|s.ports|, i));
      assert Rest(|s.ports|, i) - {i} == Rest(|s.ports|, i + 1);
      EnableFromFit(EnablePort(s, i), i + 1);
    } else {
      assert Rest(|s.ports|, i) == {};
    }
  }

  lemma {:induction false} SetUpFit(s: State)
    ensures SetUp(s).ok ==> FitBut(SetUp(s).s, {})
    decreases |s.luck|, 5, |s.ports| + 1
  {
    hide EnableFrom, EnableInterface, Fit, SetShown, SetDown;
    RaiseIff(s, 0);
    var e := if s.tally.present == 0 then EnableInterface(s) else Result(s, true);
    var t := ResetFailed(e.s);
    assert FitBut(t, Rest(|t.ports|, 0));
    EnableFromFit(t, 0);
    FitFrame(EnableFrom(t, 0), Spend(EnableFrom(t, 0)), {});
  }

  lemma {:induction false} RetryFromFit(s: State, i: nat)
    requires i <= |s.ports| && FitBut(s, {})
    ensures FitBut(RetryFrom(s, i), {})
    decreases |s.ports| - i
  {
    hide EnablePort, Fit;
    if i < |s.ports| {
      var p := s.ports[i];
      if p.present || !p.there {
        RetryFromFit(s, i + 1);
      } else {
        var t := AddToCount(SetPort(s, i, p.(present := true)), 1);
        FitPort(s, t, i, {});
        EnablePortFit(t, i, {i});
        assert {i} - {i} == {} && {} + {i} == {i};
        RetryFromFit(EnablePort(t, i), i + 1);
      }
    }
  }

  lemma PortAddedFit(s: State, i: nat)
    requires i < |s.ports| && FitBut(s, {})
    ensures FitBut(PortAdded(s, i), {})
  {
    hide EnablePort, SetShown, Fit;
    var p := s.ports[i];
    if !p.present {
      var t := AddToCount(SetPort(s, i, p.(present := true)), 1);
      FitPort(s, t, i, {});
      assert {i} - {i} == {} && {} + {i} == {i};
      SetShownFit(t, true, {i});
      var u := if t.tally.present == 1 then SetShown(t, true) else t;
      EnablePortFit(u, i, {i});
    }
  }

  lemma HandleFit(s: State, ev: Event)
    requires Possible(s, ev) && FitBut(s, {})
    ensures FitBut(Handle(s, ev), {})
  {
    hide PortAdded, RemovePort, EnablePort, ClaimGroup, SetDown, RetryFrom, SetShown;
    assert {} - {if ev.Add? || ev.Remove? || ev.AuthUp? || ev.AuthDown? || ev.LinkDown? then ev.i else 0} == {};
    match ev
    case Add(i) =>
      FitPort(s, SetPort(s, i, s.ports[i].(there := true)), i, {});
      PortAddedFit(SetPort(s, i, s.ports[i].(there := true)), i);
    case Remove(i) =>
      FitPort(s, SetPort(s, i, s.ports[i].(there := false)), i, {});
      RemovePortFit(SetPort(s, i, s.ports[i].(there := false)), i, {});
    case AuthUp(i) =>
      FitPort(s, SetPort(s, i, s.ports[i].(authed := true)), i, {});
      EnablePortFit(SetPort(s, i, s.ports[i].(authed := true)), i, {} + {i});
      assert {} + {i} - {i} == {};
    case AuthDown(i) => TakenOutFits(s, i, ev);
    case LinkDown(i) => TakenOutFits(s, i, ev);
    case Claim => ClaimGroupFit(s);
    case Release => SetDownUsed(SetUsed(s, false));
    case Retry => RetryFromFit(ResetFailed(s), 0);
    case Prepare => SetShownFit(SetForce(s, true), true, {});
  }

  lemma TakenOutFits(s: State, i: nat, ev: Event)
    requires (ev == AuthDown(i) || ev == LinkDown(i)) && Possible(s, ev) && FitBut(s, {})
    ensures FitBut(Handle(s, ev), {})
  {
    FitPort(s, Handle(s, ev), i, {});
    assert {} - {i} == {};
  }

  lemma {:induction false} RunFits(s0: State, steps: seq<Step>)
    requires Fresh(s0)
    ensures FitBut(FollowAll(s0, steps), {})
  {
    hide Handle, Possible, Fit;
    if steps != [] {
      var n := |steps| - 1;
      RunFits(s0, steps[..n]);
      var s, st := FollowAll(s0, steps[..n]), steps[n];
      if Possible(s, st.ev) {
        var t := s.(luck := st.luck);
        PossibleFrame(s, t, st.ev);
        FitFrame(s, t, {});
        HandleFit(t, st.ev);
        FitFrame(Handle(t, st.ev), Follow(s, st), {});
      }
    }
  }

  /** After every run, with calls failing and users reacting in any way: a port of a group in use that is
      present, and needs no authentication or has it, is claimed and part of the kernel device exactly
      unless one of its own calls failed when it was last tried, or it was taken out by a lost link or
      authentication since. */
  lemma UsedPortsJoin(s0: State, steps: seq<Step>, i: nat)
    requires Fresh(s0) && i < |FollowAll(s0, steps).ports|
    ensures var s := FollowAll(s0, steps);
            s.flags.used && s.ports[i].present && Admitted(s.ports[i]) ==>
              (s.ports[i].active && s.ports[i].claimed <==> s.ports[i].note.Fine?)
  {
    hide FollowAll;
    RunFits(s0, steps);
    assert Fit(FollowAll(s0, steps).ports[i]) || !FollowAll(s0, steps).flags.used;
  }

  // ----- when every call succeeds

  /** A port that was tried, when every call succeeds */
  function Tried(p: Port): Port
  {
    if !p.present then p
    else if Admitted(p) then p.(claimed := true, active := true, note := Fine)
    else p.(claimed := true)
  }

  lemma EasyTry(s: State, i: nat)
    requires i < |s.ports| && s.luck == []
    ensures var r := EnablePort(s, i);
            && r.ports == s.ports[i := Tried(s.ports[i])] && r.luck == [] && r.kind == s.kind
            && r.flags.used == s.flags.used && r.flags.force == s.flags.force && r.tally == s.tally
  {
    hide EnablePort, JoinPort, ClaimPort;
    var p := s.ports[i];
    if !p.present {
      AbsentStays(s, i);
      assert s.ports[i := p] == s.ports;
    } else {
      if s.kind.Bridge? {
        BridgeTries(s, i);
        EasyRaise(s);
        EasyClaim(EnableInterface(s).s, i);
        EasyAdd(ClaimPort(EnableInterface(s).s, i).s, i);
      } else {
        BondTries(s, i);
        EasyClaim(s, i);
        EasyRaise(ClaimPort(s, i).s);
        EasyAdd(EnableInterface(ClaimPort(s, i).s).s, i);
      }
      assert s.ports[i := p.(claimed := true)][i := Tried(p)] == s.ports[i := Tried(p)];
    }
  }

  lemma AbsentStays(s: State, i: nat)
    requires i < |s.ports| && !s.ports[i].present
    ensures EnablePort(s, i) == s
  {
  }

  lemma EasyRaise(s: State)
    requires s.luck == []
    ensures EnableInterface(s) == Result(s.(flags := s.flags.(up := true)), true)
  {
    assert s.flags.up ==> s.flags.(up := true) == s.flags;
  }

  lemma EasyClaim(s: State, i: nat)
    requires i < |s.ports| && s.luck == []
    ensures ClaimPort(s, i) == Result(SetPort(s, i, s.ports[i].(claimed := true)), true)
  {
    hide RemovePort;
    assert s.ports[i].claimed ==> s.ports[i := s.ports[i]] == s.ports;
  }

  lemma EasyAdd(s: State, i: nat)
    requires i < |s.ports| && s.luck == [] && s.ports[i].claimed && s.ports[i].present
    ensures var r := JoinPort(s, i);
            && r.ports == s.ports[i := Tried(s.ports[i])] && r.luck == [] && r.kind == s.kind
            && r.flags.used == s.flags.used && r.flags.force == s.flags.force && r.tally == s.tally
  {
    hide ClaimGroup, SetDown;
    assert s.ports[i := s.ports[i]] == s.ports;
  }

  lemma {:induction false} EasyLoop(s: State, i: nat)
    requires i <= |s.ports| && s.luck == []
    ensures var r := EnableFrom(s, i);
            && r.luck == [] && r.kind == s.kind && r.tally == s.tally
            && r.flags.used == s.flags.used && r.flags.force == s.flags.force
            && (forall k :: 0 <= k < |s.ports| ==> r.ports[k] == if k < i then s.ports[k] else Tried(s.ports[k]))
    decreases |s.ports| - i
  {
    hide EnablePort, Tried;
    if i < |s.ports| {
      EasyTry(s, i);
      EasyLoop(EnablePort(s, i), i + 1);
    }
  }

  /** When every call succeeds and nobody reacts, a user can claim the group exactly if a port is counted
      or it is forced; then all present ports are claimed, and all that are admitted join. */
  lemma ClaimJoinsAll(s: State)
    requires s.luck == [] && !s.flags.used
    ensures var r := ClaimGroup(s);
            && (r.flags.used <==> s.tally.present != 0 || s.flags.force)
            && (r.flags.used ==> forall k :: 0 <= k < |s.ports| ==> r.ports[k] == Tried(s.ports[k]))
            && (r.flags.used ==> r.tally.failed == 0)
            && (!r.flags.used ==> r == s)
  {
    hide EnableFrom, EnableInterface, SetShown, SetDown, Tried;
    var t := SetUsed(s, true);
    EasyRaise(t);
    if s.tally.present != 0 || s.flags.force {
      var e := if s.tally.present == 0 then EnableInterface(t) else Result(t, true);
      EasyLoop(ResetFailed(e.s), 0);
      var l := EnableFrom(ResetFailed(e.s), 0);
      assert FinishUp(l) == Result(l, true);
      assert SetUp(t) == FinishUp(l);
    } else {
      assert SetUp(t) == Result(t, false);
    }
  }

  /** And the retry timer makes every port whose device is there join; nothing has failed then. */
  lemma RetryJoinsAll(s: State)
    requires s.luck == []
    ensures var r := Handle(s, Retry);
            && r.flags.used == s.flags.used && r.tally.failed == 0
            && forall k :: 0 <= k < |s.ports| ==>
                 r.ports[k] == if s.ports[k].there && !s.ports[k].present
                               then Tried(s.ports[k].(present := true)) else s.ports[k]
  {
    hide RetryFrom, Tried;
    RetryLoopJoins(ResetFailed(s), 0);
  }

  lemma {:induction false} RetryLoopJoins(s: State, i: nat)
    requires i <= |s.ports| && s.luck == []
    ensures var r := RetryFrom(s, i);
            && r.flags.used == s.flags.used && r.tally.failed == s.tally.failed
            && forall k :: 0 <= k < |s.ports| ==>
                 r.ports[k] == if k >= i && s.ports[k].there && !s.ports[k].present
                               then Tried(s.ports[k].(present := true)) else s.ports[k]
    decreases |s.ports| - i
  {
    hide EnablePort, Tried;
    if i < |s.ports| {
      var p := s.ports[i];
      if p.present || !p.there {
        RetryLoopJoins(s, i + 1);
      } else {
        var t := AddToCount(SetPort(s, i, p.(present := true)), 1);
        EasyTry(t, i);
        RetryLoopJoins(EnablePort(t, i), i + 1);
      }
    }
  }

  /** A bridge that nobody uses any more is deleted; a bond stays exactly if its kernel call fails. */
  lemma GroupGoesDownIff(s: State)
    ensures var r := ReleaseGroup(s);
            !r.flags.used && (r.flags.up <==> s.flags.up && s.kind.Bonding? && !Lucky(s))
  {
    hide DisableFrom;
    DisableFromUp(SetUsed(s, false), 0);
  }

  lemma {:induction false} DisableFromUp(s: State, i: nat)
    requires i <= |s.ports|
    ensures var r := DisableFrom(s, i);
            r.flags == s.flags && r.kind == s.kind && r.luck == s.luck
    decreases |s.ports| - i
  {
    if i < |s.ports| {
      DisableFromUp(DisablePort(s, i, false), i + 1);
    }
  }

  // ----- the events of one port

  /** The device of a port appears in a group in use, or is authenticated there: the port is part of the
      group afterwards exactly if the calls for it succeed. */
  lemma ArrivingPortJoinsIff(s: State, ev: Event)
    requires Possible(s, ev) && s.flags.used && (ev.Add? || (ev.AuthUp? && s.ports[ev.i].present))
    requires ev.Add? ==> !s.ports[ev.i].present && Admitted(s.ports[ev.i]) && s.tally.present != 0
    ensures var p := Handle(s, ev).ports[ev.i];
            p.present && Joined(p) <==> AllGood(s.luck, CallsToJoin(s, ev.i))
  {
    hide EnablePort, SetShown, AllGood;
    var p := s.ports[ev.i];
    if ev.Add? {
      var t := SetPort(s, ev.i, p.(there := true));
      var u := AddToCount(SetPort(t, ev.i, t.ports[ev.i].(present := true)), 1);
      assert Handle(s, ev) == EnablePort(u, ev.i);
      PortJoinsIff(u, ev.i);
    } else {
      PortJoinsIff(SetPort(s, ev.i, p.(authed := true)), ev.i);
    }
  }

  /** A lost link or authentication takes an authenticating port out of the kernel device, and keeps
      its claim; other ports do not care. */
  lemma AuthenticationLost(s: State, ev: Event)
    requires Possible(s, ev) && (ev.AuthDown? || ev.LinkDown?)
    ensures var p, r := s.ports[ev.i], Handle(s, ev);
            && r.ports == s.ports[ev.i := r.ports[ev.i]] && r.flags == s.flags && r.tally == s.tally
            && r.ports[ev.i].claimed == p.claimed && r.ports[ev.i].present == p.present
            && r.ports[ev.i].active == (p.active && !(p.auth && p.present))
            && r.ports[ev.i].authed == (p.authed && !ev.AuthDown?)
  {
  }
}
