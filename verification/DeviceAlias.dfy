/** Alias devices, which stand for whatever device an interface has at the moment (alias.c).

    An alias that is in use cannot change its device; the change waits until the last user lets
    go. Telling the users that the alias went away or came back makes them let go or take it in
    the middle of the change, which may finish an older change and begin it all again. What the
    users do is a script from outside, so this re-entrance is part of the model. */
module DeviceAlias {
  import opened Options

  /** What a user does when it is told of presence. `Claim(ok)` takes the alias, and `ok` is what
      claiming the device behind it gives; `Stop` ends the reactions to one broadcast. */
  datatype Reaction = Claim(ok: bool) | Release | Stop

  /** `struct alias_device`: `claimed` is dep.claimed, `shown` is dev.sys_present, `blocked` tells
      whether the alias is disabled or deferred. `there` are the devices that are present and
      `script` the reactions to come. `badMoves` counts how often `dep` was taken away from a
      device in use. */
  datatype State = State(
    dep: Option<nat>, newDep: Option<nat>, update: bool, active: nat, claimed: bool,
    shown: bool, blocked: bool, there: set<nat>, script: seq<Reaction>, badMoves: nat)

  function Initial(blocked: bool): State
  {
    State(None, None, false, 0, false, false, blocked, {}, [], 0)
  }

  // ----- the code as functions

  /** alias_set_device */
  function SetDevice(a: State, d: Option<nat>): (r: State)
    ensures |r.script| <= |a.script|
    decreases |a.script|, 2
  {
    if d == a.dep then
      if a.update then
        var b := a.(newDep := None, update := false);
        if d.Some? then SetPresent(b, true) else b
      else a
    else
      var b := SetPresent(a, false);
      if b.active > 0 then b.(newDep := d, update := true)
      else
        var c := MoveTo(b.(newDep := None, update := false), d);
        if d.Some? && d.value in c.there then SetPresent(c, true) else c
  }

  /** device_remove_user and device_add_user on `dep` */
  function MoveTo(a: State, d: Option<nat>): State
  {
    a.(dep := d, claimed := false, badMoves := if a.claimed || a.active > 0 then a.badMoves + 1 else a.badMoves)
  }

  /** device_set_present */
  function SetPresent(a: State, state: bool): (r: State)
    ensures |r.script| <= |a.script|
    decreases |a.script|, 1
  {
    if a.shown == state then a
    else if a.blocked then a.(shown := state)
    else Broadcast(a.(shown := state))
  }

  /** device_broadcast_event: the users react one after the other. */
  function Broadcast(a: State): (r: State)
    ensures |r.script| <= |a.script|
    decreases |a.script|, 0
  {
    if a.script == [] then a
    else
      var b := a.(script := a.script[1..]);
      match a.script[0]
      case Stop => b
      case Claim(ok) => Broadcast(DoClaim(b, ok))
      case Release => Broadcast(DoRelease(b))
  }

  /** device_claim by one more user, with alias_device_set_state(true) */
  function DoClaim(a: State, ok: bool): State
  {
    if a.active > 0 then a.(active := a.active + 1)
    else if a.dep.Some? && ok then a.(active := 1, claimed := true)
    else a
  }

  /** device_release by one user, with alias_device_set_state(false) */
  function DoRelease(a: State): (r: State)
    ensures |r.script| <= |a.script|
    decreases |a.script|, 3
  {
    if a.active == 0 then a
    else if a.active > 1 then a.(active := a.active - 1)
    else
      var b := a.(active := 0, claimed := false);
      if b.update then SetDevice(b, b.newDep) else b
  }

  // ----- what holds in the middle of things

  /** The device that was asked for last. */
  function Target(a: State): Option<nat>
  {
    if a.update then a.newDep else a.dep
  }

  ghost predicate Sound(a: State)
  {
    && (a.claimed <==> a.active > 0)
    && (a.active > 0 ==> a.dep.Some?)
    && (!a.update ==> a.newDep.None?)
    && a.badMoves == 0
  }

  /** Nothing is left undone: a change that waits, waits for a user. */
  ghost predicate Quiet(a: State)
  {
    a.update ==> a.active > 0
  }

  lemma {:induction false} SetDeviceKeeps(a: State, d: Option<nat>)
    requires Sound(a)
    ensures var r := SetDevice(a, d);
            && Sound(r) && Quiet(r) && Target(r) == d
            && r.blocked == a.blocked && r.there == a.there
    decreases |a.script|, 2
  {
    hide SetPresent;
    if d == a.dep {
      if a.update && d.Some? {
        SetPresentKeeps(a.(newDep := None, update := false), true);
      }
    } else {
      SetPresentKeeps(a, false);
      var b := SetPresent(a, false);
      if b.active == 0 {
        var c := MoveTo(b.(newDep := None, update := false), d);
        SetPresentKeeps(c, true);
      }
    }
  }

  lemma {:induction false} SetPresentKeeps(a: State, state: bool)
    requires Sound(a)
    ensures var r := SetPresent(a, state);
            && Sound(r) && (Quiet(a) ==> Quiet(r)) && Target(r) == Target(a)
            && r.blocked == a.blocked && r.there == a.there
    decreases |a.script|, 1
  {
    hide Broadcast;
    if a.shown != state && !a.blocked {
      BroadcastKeeps(a.(shown := state));
    }
  }

  lemma {:induction false} BroadcastKeeps(a: State)
    requires Sound(a)
    ensures var r := Broadcast(a);
            && Sound(r) && (Quiet(a) ==> Quiet(r)) && Target(r) == Target(a)
            && r.blocked == a.blocked && r.there == a.there
    decreases |a.script|, 0
  {
    hide DoRelease;
    if a.script != [] {
      var b := a.(script := a.script[1..]);
      match a.script[0]
      case Stop =>
      case Claim(ok) => BroadcastKeeps(DoClaim(b, ok));
      case Release =>
        DoReleaseKeeps(b);
        BroadcastKeeps(DoRelease(b));
    }
  }

  lemma {:induction false} DoReleaseKeeps(a: State)
    requires Sound(a)
    ensures var r := DoRelease(a);
            && Sound(r) && (Quiet(a) ==> Quiet(r)) && Target(r) == Target(a)
            && r.blocked == a.blocked && r.there == a.there
    decreases |a.script|, 3
  {
    hide SetDevice;
    if a.active == 1 && a.update {
      SetDeviceKeeps(a.(active := 0, claimed := false), a.newDep);
    }
  }

  // ----- every run

  datatype Event =
    | Request(d: Option<nat>)    // the interface names another device, or none
    | Take(ok: bool)             // one more user
    | Drop                       // one user lets go
    | Appear(dev: nat)
    | Vanish(dev: nat)

  datatype Step = Step(ev: Event, script: seq<Reaction>)

  function Follow(a: State, s: Step): State
  {
    var b := a.(script := s.script);
    var r := match s.ev
      case Request(d) => SetDevice(b, d)
      case Take(ok) => DoClaim(b, ok)
      case Drop => DoRelease(b)
      case Appear(dev) =>
        var c := b.(there := b.there + {dev});
        if a.dep == Some(dev) then SetPresent(c, true) else c
      case Vanish(dev) =>
        var c := b.(there := b.there - {dev});
        if a.dep == Some(dev) then SetPresent(c, false) else c;
    r.(script := [])
  }

  function Run(blocked: bool, steps: seq<Step>): State
  {
    if steps == [] then Initial(blocked)
    else Follow(Run(blocked, steps[..|steps| - 1]), steps[|steps| - 1])
  }

  function LastRequest(steps: seq<Step>): Option<nat>
  {
    if steps == [] then None
    else if steps[|steps| - 1].ev.Request? then steps[|steps| - 1].ev.d
    else LastRequest(steps[..|steps| - 1])
  }

  lemma FollowKeeps(a: State, s: Step)
    requires Sound(a) && Quiet(a)
    ensures var r := Follow(a, s);
            Sound(r) && Quiet(r) && Target(r) == if s.ev.Request? then s.ev.d else Target(a)
  {
    hide SetDevice, SetPresent, DoRelease;
    var b := a.(script := s.script);
    match s.ev
    case Request(d) => SetDeviceKeeps(b, d);
    case Take(ok) =>
    case Drop => DoReleaseKeeps(b);
    case Appear(dev) => SetPresentKeeps(b.(there := b.there + {dev}), true);
    case Vanish(dev) => SetPresentKeeps(b.(there := b.there - {dev}), false);
  }

  /** After every run, whatever the users did in the middle of it: the alias stands for the device
      that was asked for last, or is in use and will move there; it was never moved while in use;
      and it holds a claim on its device exactly while it is in use. */
  lemma {:induction false} AliasFollowsRequests(blocked: bool, steps: seq<Step>)
    ensures var a := Run(blocked, steps);
            && Sound(a) && Quiet(a)
            && Target(a) == LastRequest(steps)
            && (a.active == 0 ==> a.dep == LastRequest(steps))
  {
    hide Follow;
    if steps != [] {
      AliasFollowsRequests(blocked, steps[..|steps| - 1]);
      FollowKeeps(Run(blocked, steps[..|steps| - 1]), steps[|steps| - 1]);
    }
  }

  // ----- counting users

  /** One more user after the other; `oks` is what claiming the device gives each time. */
  function TakeAll(a: State, oks: seq<bool>): State
    decreases |oks|
  {
    if oks == [] then a else TakeAll(DoClaim(a, oks[0]), oks[1..])
  }

  function DropAll(a: State, k: nat): State
    decreases k
  {
    if k == 0 then a else DropAll(DoRelease(a), k - 1)
  }

  /** How many of these claims succeed: all of an alias in use, none of one without a device, and
      otherwise those from the first on for which the device can be claimed */
  function Served(a: State, oks: seq<bool>): nat
    decreases |oks|
  {
    if a.active > 0 then |oks|
    else if a.dep.None? || oks == [] then 0
    else if oks[0] then |oks|
    else Served(a, oks[1..])
  }

  lemma {:induction false} TakersAreCounted(a: State, oks: seq<bool>)
    requires Sound(a)
    ensures var r := TakeAll(a, oks);
            r == a.(active := a.active + Served(a, oks), claimed := a.claimed || Served(a, oks) > 0)
    decreases |oks|
  {
    if oks != [] {
      TakersAreCounted(DoClaim(a, oks[0]), oks[1..]);
    }
  }

  /** As long as users are left, letting go changes nothing else: the alias keeps its device, and a change
      that waits goes on waiting. */
  lemma {:induction false} KeptUntilLastRelease(a: State, k: nat)
    requires k < a.active
    ensures DropAll(a, k) == a.(active := a.active - k)
    decreases k
  {
    if k > 0 {
      KeptUntilLastRelease(DoRelease(a), k - 1);
    }
  }

  /** As many releases as there were claims that succeeded undo them; the device is claimed exactly in
      between. */
  lemma ReleasesUndoClaims(a: State, oks: seq<bool>, k: nat)
    requires Sound(a) && Quiet(a) && k <= Served(a, oks)
    ensures var r := DropAll(TakeAll(a, oks), k);
            r == a.(active := a.active + Served(a, oks) - k, claimed := a.active + Served(a, oks) > k)
  {
    hide TakeAll;
    TakersAreCounted(a, oks);
    var t := TakeAll(a, oks);
    if k < t.active {
      KeptUntilLastRelease(t, k);
    } else if k > 0 {
      KeptUntilLastRelease(t, k - 1);
      LastOfMany(t, k - 1);
    }
  }

  lemma {:induction false} LastOfMany(a: State, k: nat)
    ensures DropAll(a, k + 1) == DoRelease(DropAll(a, k))
    decreases k
  {
    hide DoRelease;
    if k > 0 {
      LastOfMany(DoRelease(a), k - 1);
    }
  }

  // ----- presence

  /** With nothing pending the users' reactions change neither device nor presence. */
  lemma {:induction false} BroadcastSettled(a: State)
    requires Sound(a) && !a.update
    ensures var r := Broadcast(a);
            !r.update && r.dep == a.dep && r.shown == a.shown && r.there == a.there
    decreases |a.script|
  {
    hide SetDevice;
    if a.script != [] {
      var b := a.(script := a.script[1..]);
      match a.script[0]
      case Stop =>
      case Claim(ok) => BroadcastSettled(DoClaim(b, ok));
      case Release => BroadcastSettled(DoRelease(b));
    }
  }

  lemma SetPresentSettled(a: State, state: bool)
    requires Sound(a) && !a.update
    ensures var r := SetPresent(a, state);
            !r.update && r.dep == a.dep && r.shown == state && r.there == a.there
  {
    hide Broadcast;
    BroadcastSettled(a.(shown := state));
  }

  /** After a request for `d`: an alias that waits is absent, one that moved is present exactly if
      its new device is. */
  predicate PresenceRight(r: State, d: Option<nat>)
  {
    if r.update then !r.shown else r.dep == d && (r.shown <==> d.Some? && d.value in r.there)
  }

  /** A change waits, yet the alias is shown, and carrying that change out would show it again. */
  predicate Exposed(a: State)
  {
    && a.update && a.shown && !a.blocked && a.dep.Some?
    && (a.newDep == a.dep || (a.newDep.Some? && a.newDep.value in a.there))
  }

  /** Hiding an alias that is not exposed lasts, whatever its users do. */
  lemma {:induction false} BroadcastStaysHidden(a: State)
    requires Sound(a) && !a.shown
    requires a.update ==> a.newDep != a.dep && !(a.newDep.Some? && a.newDep.value in a.there)
    ensures !Broadcast(a).shown
    decreases |a.script|
  {
    hide SetDevice;
    if a.script != [] {
      var b := a.(script := a.script[1..]);
      match a.script[0]
      case Stop =>
      case Claim(ok) => BroadcastStaysHidden(DoClaim(b, ok));
      case Release =>
        if b.active == 1 && b.update {
          FinishHidden(b.(active := 0, claimed := false));
        }
        DoReleaseKeeps(b);
        BroadcastStaysHidden(DoRelease(b));
    }
  }

  /** A waiting change to an absent device, carried out while the alias is hidden. */
  lemma FinishHidden(a: State)
    requires !a.shown && a.active == 0 && a.newDep != a.dep && !(a.newDep.Some? && a.newDep.value in a.there)
    ensures var r := SetDevice(a, a.newDep);
            !r.shown && !r.update && r.there == a.there
  {
    assert SetPresent(a, false) == a;
  }

  /** A change leaves the right presence behind, whatever the users do, unless the alias is
      exposed. */
  lemma PresenceAfterChange(a: State, d: Option<nat>)
    requires Sound(a) && d != a.dep && !Exposed(a)
    ensures PresenceRight(SetDevice(a, d), d)
  {
    hide SetPresent, Broadcast;
    var b := SetPresent(a, false);
    assert !b.shown by { HiddenUnlessExposed(a); }
    SetPresentKeeps(a, false);
    if b.active == 0 {
      var c := MoveTo(b.(newDep := None, update := false), d);
      SetPresentSettled(c, true);
    }
  }

  lemma HiddenUnlessExposed(a: State)
    requires Sound(a) && !Exposed(a)
    ensures !SetPresent(a, false).shown
  {
    hide Broadcast;
    if a.shown && !a.blocked {
      if a.dep.None? {
        NobodyCanReact(a.(shown := false));
      } else {
        BroadcastStaysHidden(a.(shown := false));
      }
    }
  }

  /** An alias without a device cannot be taken. */
  lemma {:induction false} NobodyCanReact(a: State)
    requires a.dep.None? && a.active == 0
    ensures Broadcast(a).shown == a.shown
    decreases |a.script|
  {
    if a.script != [] {
      NobodyCanReact(a.(script := a.script[1..]));
    }
  }

  /** Everybody lets go, which carries the waiting change out; then somebody takes the alias. */
  function Interference(n: nat): seq<Reaction>
  {
    if n == 0 then [Stop, Claim(true), Stop] else [Release] + Interference(n - 1)
  }

  lemma {:induction false} InterferenceShows(a: State)
    requires Sound(a) && a.update && !a.shown && !a.blocked && a.active > 0
    requires a.newDep == a.dep || (a.newDep.Some? && a.newDep.value in a.there)
    requires a.script == Interference(a.active)
    ensures Broadcast(a).shown && Broadcast(a).active > 0
    decreases a.active
  {
    var b := a.(script := Interference(a.active - 1));
    assert a.script[0] == Release && a.script[1..] == Interference(a.active - 1);
    assert Broadcast(a) == Broadcast(DoRelease(b));
    if a.active > 1 {
      InterferenceShows(b.(active := a.active - 1));
    } else {
      FinishShown(b.(active := 0, claimed := false));
    }
  }

  lemma FinishShown(a: State)
    requires !a.shown && !a.blocked && a.update && a.active == 0 && a.dep.Some?
    requires a.newDep == a.dep || (a.newDep.Some? && a.newDep.value in a.there)
    requires a.script == [Stop, Claim(true), Stop]
    ensures var r := SetDevice(a, a.newDep);
            Broadcast(r).shown && Broadcast(r).active > 0
  {
    var r := SetDevice(a, a.newDep);
    var rest := [Claim(true), Stop];
    assert a.script[1..] == rest;
    if a.newDep == a.dep {
      var b := a.(newDep := None, update := false);
      assert a.newDep.Some? && r == SetPresent(b, true) == Broadcast(b.(shown := true));
    } else {
      assert SetPresent(a, false) == a;
      var c := MoveTo(a.(newDep := None, update := false), a.newDep);
      assert r == SetPresent(c, true) == Broadcast(c.(shown := true));
    }
    assert r.shown && r.active == 0 && r.dep.Some? && r.script == rest;
    var t := r.(script := [Stop]);
    assert rest[1..] == [Stop] && Broadcast(r) == Broadcast(DoClaim(t, true));
    var u := DoClaim(t, true);
    assert Broadcast(u) == u.(script := u.script[1..]);
  }

  /** The same when nobody uses the alias: first somebody takes it. */
  lemma TakenInterferenceShows(a: State)
    requires Sound(a) && a.update && !a.shown && !a.blocked && a.dep.Some?
    requires a.newDep == a.dep || (a.newDep.Some? && a.newDep.value in a.there)
    requires a.script == if a.active == 0 then [Claim(true)] + Interference(1) else Interference(a.active)
    ensures Broadcast(a).shown && Broadcast(a).active > 0
  {
    if a.active == 0 {
      hide DoRelease;
      var b := DoClaim(a.(script := Interference(1)), true);
      assert a.script[0] == Claim(true) && a.script[1..] == Interference(1);
      assert Broadcast(a) == Broadcast(b);
      InterferenceShows(b);
    } else {
      InterferenceShows(a);
    }
  }

  /** A request, or the last user letting go, leaves the right presence behind for every way the users
      may react, exactly if the alias is not exposed when it comes. */
  lemma PresenceRightIffNotExposed(a: State, d: Option<nat>)
    requires Sound(a) && d != a.dep
    ensures (forall script :: PresenceRight(SetDevice(a.(script := script), d), d)) <==> !Exposed(a)
  {
    hide SetDevice, Broadcast, PresenceRight;
    if Exposed(a) {
      var script := if a.active == 0 then [Claim(true)] + Interference(1) else Interference(a.active);
      var b := a.(script := script);
      TakenInterferenceShows(b.(shown := false));
      ShownWaiting(b, d);
      assert !PresenceRight(SetDevice(b, d), d);
    } else {
      forall script ensures PresenceRight(SetDevice(a.(script := script), d), d) {
        PresenceAfterChange(a.(script := script), d);
      }
    }
  }

  lemma ShownWaiting(a: State, d: Option<nat>)
    requires a.shown && !a.blocked && d != a.dep
    requires Broadcast(a.(shown := false)).shown && Broadcast(a.(shown := false)).active > 0
    ensures !PresenceRight(SetDevice(a, d), d)
  {
    hide Broadcast;
    assert SetPresent(a, false) == Broadcast(a.(shown := false));
  }

  /** An alias gets exposed when the device it stands on comes back while a change waits. Then a
      request for an absent device can leave it shown: the user lets go, which finishes the older
      change and shows the alias, and the alias moves on without being hidden. */
  lemma ExposedAliasShowsAbsentDevice()
    ensures var a := Run(false, [Step(Appear(1), []), Step(Appear(2), []), Step(Request(Some(1)), []),
                                 Step(Take(true), []), Step(Request(Some(2)), []), Step(Vanish(1), []),
                                 Step(Appear(1), []), Step(Request(Some(3)), [Release, Stop])]);
            a.dep == Some(3) && !a.update && a.active == 0 && a.shown && 3 !in a.there
  {
    hide Run, Follow;
    var s1, s2, s3 := Step(Appear(1), []), Step(Appear(2), []), Step(Request(Some(1)), []);
    var s4, s5, s6 := Step(Take(true), []), Step(Request(Some(2)), []), Step(Vanish(1), []);
    var s7, s8 := Step(Appear(1), []), Step(Request(Some(3)), [Release, Stop]);
    RunStep([], s1);
    RunFour([], s1, s2, s3, s4);
    RunFour([s1, s2, s3, s4], s5, s6, s7, s8);
    assert [] + [s1, s2, s3, s4] == [s1, s2, s3, s4];
    assert [s1, s2, s3, s4] + [s5, s6, s7, s8] == [s1, s2, s3, s4, s5, s6, s7, s8];
    var a4 := ExposedStart(s1, s2, s3, s4);
    ExposedEnd(a4, s5, s6, s7, s8);
  }

  lemma RunFour(steps: seq<Step>, s1: Step, s2: Step, s3: Step, s4: Step)
    ensures Run(false, steps + [s1, s2, s3, s4])
            == Follow(Follow(Follow(Follow(Run(false, steps), s1), s2), s3), s4)
  {
    hide Run, Follow;
    RunStep(steps, s1);
    RunStep(steps + [s1], s2);
    RunStep(steps + [s1] + [s2], s3);
    RunStep(steps + [s1] + [s2] + [s3], s4);
    assert steps + [s1] + [s2] + [s3] + [s4] == steps + [s1, s2, s3, s4];
  }

  lemma ExposedStart(s1: Step, s2: Step, s3: Step, s4: Step) returns (a4: State)
    requires s1 == Step(Appear(1), []) && s2 == Step(Appear(2), [])
    requires s3 == Step(Request(Some(1)), []) && s4 == Step(Take(true), [])
    ensures a4 == Follow(Follow(Follow(Follow(Initial(false), s1), s2), s3), s4)
    ensures a4 == State(Some(1), None, false, 1, true, true, false, {1, 2}, [], 0)
  {
    var a1 := Follow(Initial(false), s1);
    assert a1 == Initial(false).(there := {1});
    var a2 := Follow(a1, s2);
    assert a2 == Initial(false).(there := {1, 2});
    var a3 := Follow(a2, s3);
    assert a3 == a2.(dep := Some(1), shown := true);
    a4 := Follow(a3, s4);
  }

  lemma ExposedEnd(a4: State, s5: Step, s6: Step, s7: Step, s8: Step)
    requires a4 == State(Some(1), None, false, 1, true, true, false, {1, 2}, [], 0)
    requires s5 == Step(Request(Some(2)), []) && s6 == Step(Vanish(1), []) && s7 == Step(Appear(1), [])
    requires s8 == Step(Request(Some(3)), [Release, Stop])
    ensures var a := Follow(Follow(Follow(Follow(a4, s5), s6), s7), s8);
            a.dep == Some(3) && !a.update && a.active == 0 && a.shown && 3 !in a.there
  {
    var a5 := Follow(a4, s5);
    assert a5 == a4.(newDep := Some(2), update := true, shown := false);
    var a6 := Follow(a5, s6);
    assert a6 == a5.(there := {2});
    var a7 := Follow(a6, s7);
    assert a6.there + {1} == {1, 2};
    assert a7 == a5.(shown := true, there := {1, 2});
    var b := a7.(script := [Release, Stop]);
    var c := b.(shown := false);
    assert c.script[1..] == [Stop];
    var moved := c.(script := [Stop], active := 0, claimed := false);
    MovedWhileHidden(moved);
    var r := SetDevice(moved, Some(2));
    assert Broadcast(c) == Broadcast(DoRelease(c.(script := [Stop])));
    assert SetPresent(b, false) == r;
  }

  lemma MovedWhileHidden(a: State)
    requires a == State(Some(1), Some(2), true, 0, false, false, false, {1, 2}, [Stop], 0)
    ensures SetDevice(a, Some(2)) == State(Some(2), None, false, 0, false, true, false, {1, 2}, [], 0)
    ensures Broadcast(SetDevice(a, Some(2))) == SetDevice(a, Some(2))
  {
    assert SetPresent(a, false) == a;
    var c := MoveTo(a.(newDep := None, update := false), Some(2));
    assert SetPresent(c, true) == Broadcast(c.(shown := true));
    assert a.script[1..] == [];
  }

  /** The presence an alias should have: none while a change waits, otherwise that of its device. */
  predicate Right(a: State)
  {
    PresenceRight(a, Target(a))
  }

  /** Letting go carries a waiting change out. */
  predicate Finishes(a: State)
  {
    a.active == 1 && a.update
  }

  /** The last user lets go: for every way the users may react the alias has the right presence
      afterwards exactly if it moves to another device and is not exposed, or it stays and its device is
      there. */
  lemma DropRightIff(a: State)
    requires Sound(a) && Finishes(a)
    ensures (forall script :: Right(DoRelease(a.(script := script))))
            <==> if a.newDep == a.dep then a.dep.value in a.there else !Exposed(a)
  {
    hide SetDevice, PresenceRight;
    var b := a.(active := 0, claimed := false);
    if a.newDep == a.dep {
      forall script ensures Right(DoRelease(a.(script := script))) <==> a.dep.value in a.there {
        CancelIsRightIffPresent(b.(script := script));
        RightAtRest(SetDevice(b.(script := script), a.dep));
      }
      assert Right(DoRelease(a.(script := []))) <==> a.dep.value in a.there;
    } else {
      PresenceRightIffNotExposed(b, a.newDep);
      forall script
        ensures Right(DoRelease(a.(script := script)))
                <==> PresenceRight(SetDevice(b.(script := script), a.newDep), a.newDep)
      {
        SetDeviceKeeps(b.(script := script), a.newDep);
      }
    }
  }

  lemma RightAtRest(r: State)
    requires !r.update && r.dep.Some?
    ensures Right(r) <==> (r.shown <==> r.dep.value in r.there)
  {
  }

  /** The event keeps the presence right whatever the users do: the alias is not sent back to, or kept
      on, a device that is absent, and its current device does not appear while it waits for another. */
  predicate Fits(a: State, ev: Event)
  {
    match ev
    case Request(d) => d == a.dep && a.update && d.Some? ==> d.value in a.there
    case Drop => Finishes(a) && a.newDep == a.dep && a.dep.Some? ==> a.dep.value in a.there
    case Appear(dev) => a.update ==> a.dep != Some(dev)
    case _ => true
  }

  lemma ChangeRight(a: State, d: Option<nat>)
    requires Sound(a) && (a.update ==> !a.shown)
    requires d == a.dep && a.update && d.Some? ==> d.value in a.there
    requires Right(a) || (a.update && d == a.newDep)
    ensures Right(SetDevice(a, d))
  {
    hide SetPresent;
    SetDeviceKeeps(a, d);
    if d != a.dep {
      PresenceAfterChange(a, d);
    } else if a.update && d.Some? {
      CancelIsRightIffPresent(a);
    }
  }

  lemma FittingStepRight(a: State, s: Step)
    requires Sound(a) && Quiet(a) && Right(a) && Fits(a, s.ev)
    ensures Right(Follow(a, s))
  {
    hide SetDevice, SetPresent;
    var b := a.(script := s.script);
    match s.ev
    case Request(d) => ChangeRight(b, d);
    case Take(_) =>
    case Drop =>
      if Finishes(a) {
        ChangeRight(b.(active := 0, claimed := false), b.newDep);
      }
    case Appear(dev) =>
      if a.dep == Some(dev) {
        SetPresentSettled(b.(there := b.there + {dev}), true);
      }
    case Vanish(dev) =>
      var c := b.(there := b.there - {dev});
      if a.dep == Some(dev) {
        if a.update {
          assert SetPresent(c, false) == c by { HiddenStays(c); }
        } else {
          SetPresentSettled(c, false);
        }
      }
  }

  lemma HiddenStays(a: State)
    requires !a.shown
    ensures SetPresent(a, false) == a
  {
  }

  /** If the event does not fit, then the presence is wrong when the users do not react. */
  lemma UnfittingStepWrong(a: State, ev: Event)
    requires Sound(a) && Quiet(a) && Right(a) && !Fits(a, ev)
    ensures !Right(Follow(a, Step(ev, [])))
  {
    var b := a.(script := []);
    match ev
    case Request(d) => CancelIsRightIffPresent(b);
    case Drop => CancelIsRightIffPresent(b.(active := 0, claimed := false));
    case Appear(dev) => assert SetPresent(b.(there := b.there + {dev}), true).shown;
    case _ =>
  }

  /** From the right presence, an event leads to the right presence for every way the users may react
      exactly if it fits. */
  lemma StepRightIff(a: State, ev: Event)
    requires Sound(a) && Quiet(a) && Right(a)
    ensures (forall script :: Right(Follow(a, Step(ev, script)))) <==> Fits(a, ev)
  {
    hide Follow, Right, Fits;
    if Fits(a, ev) {
      forall script ensures Right(Follow(a, Step(ev, script))) {
        FittingStepRight(a, Step(ev, script));
      }
    } else {
      UnfittingStepWrong(a, ev);
    }
  }

  /** A beginning of the run of these events, with some reactions */
  ghost predicate Course(steps: seq<Step>, evs: seq<Event>)
  {
    |steps| <= |evs| && forall k :: 0 <= k < |steps| ==> steps[k].ev == evs[k]
  }

  lemma {:induction false} FittingCourse(blocked: bool, steps: seq<Step>, evs: seq<Event>)
    requires Course(steps, evs)
    requires forall some :: Course(some, evs) && |some| < |evs| ==> Fits(Run(blocked, some), evs[|some|])
    ensures Right(Run(blocked, steps))
  {
    hide Follow, Right, Fits, Sound, Quiet;
    if steps == [] {
      InitialRight(blocked);
    } else {
      var n := |steps| - 1;
      assert Course(steps[..n], evs) && steps[n].ev == evs[n];
      FittingCourse(blocked, steps[..n], evs);
      AliasFollowsRequests(blocked, steps[..n]);
      FittingStepRight(Run(blocked, steps[..n]), steps[n]);
    }
  }

  lemma InitialRight(blocked: bool)
    ensures Right(Run(blocked, []))
  {
  }

  lemma UnfittingCourse(blocked: bool, steps: seq<Step>, evs: seq<Event>)
    requires Course(steps, evs) && |steps| < |evs| && !Fits(Run(blocked, steps), evs[|steps|])
    ensures exists some :: Course(some, evs) && !Right(Run(blocked, some))
  {
    hide Follow, Right, Fits, Sound, Quiet;
    var s := Step(evs[|steps|], []);
    assert Course(steps + [s], evs) && (steps + [s])[..|steps|] == steps;
    if Right(Run(blocked, steps)) {
      AliasFollowsRequests(blocked, steps);
      UnfittingStepWrong(Run(blocked, steps), s.ev);
    }
  }

  /** For a new alias and any sequence of events: at every moment, and whatever the users do, an alias
      that waits is absent and any other is present exactly if its device is there, exactly if each
      event fits when it comes. */
  lemma RunsStayRightIff(blocked: bool, evs: seq<Event>)
    ensures (forall steps :: Course(steps, evs) ==> Right(Run(blocked, steps)))
            <==> forall steps :: Course(steps, evs) && |steps| < |evs| ==> Fits(Run(blocked, steps), evs[|steps|])
  {
    hide Run, Right, Fits;
    if forall steps :: Course(steps, evs) && |steps| < |evs| ==> Fits(Run(blocked, steps), evs[|steps|]) {
      forall steps | Course(steps, evs) ensures Right(Run(blocked, steps)) {
        FittingCourse(blocked, steps, evs);
      }
    } else {
      var steps :| Course(steps, evs) && |steps| < |evs| && !Fits(Run(blocked, steps), evs[|steps|]);
      UnfittingCourse(blocked, steps, evs);
    }
  }

  /** Going back to the current device before the change took place shows the alias as present
      without a look at the device: right exactly if the device is there. */
  lemma CancelIsRightIffPresent(a: State)
    requires Sound(a) && a.update && a.dep.Some?
    ensures var r := SetDevice(a, a.dep);
            !r.update && r.dep == a.dep
            && ((r.shown <==> r.dep.value in r.there) <==> a.dep.value in a.there)
  {
    hide SetPresent;
    SetPresentSettled(a.(newDep := None, update := false), true);
  }

  /** The failing case is reachable: the device vanishes while the change waits. */
  lemma CancelShowsAbsentDevice()
    ensures var a := Run(false, [Step(Appear(1), []), Step(Request(Some(1)), []), Step(Take(true), []),
                                 Step(Request(Some(2)), []), Step(Vanish(1), []), Step(Request(Some(1)), [])]);
            a.dep == Some(1) && a.shown && 1 !in a.there
  {
    hide Run, Follow;
    var s1, s2, s3 := Step(Appear(1), []), Step(Request(Some(1)), []), Step(Take(true), []);
    var s4, s5, s6 := Step(Request(Some(2)), []), Step(Vanish(1), []), Step(Request(Some(1)), []);
    RunStep([], s1);
    RunStep([s1], s2);
    RunStep([s1, s2], s3);
    RunStep([s1, s2, s3], s4);
    RunStep([s1, s2, s3, s4], s5);
    RunStep([s1, s2, s3, s4, s5], s6);
    assert [] + [s1] == [s1] && [s1] + [s2] == [s1, s2] && [s1, s2] + [s3] == [s1, s2, s3];
    assert [s1, s2, s3] + [s4] == [s1, s2, s3, s4] && [s1, s2, s3, s4] + [s5] == [s1, s2, s3, s4, s5];
    assert [s1, s2, s3, s4, s5] + [s6] == [s1, s2, s3, s4, s5, s6];
    CancelSteps(s1, s2, s3, s4, s5, s6);
  }

  lemma CancelSteps(s1: Step, s2: Step, s3: Step, s4: Step, s5: Step, s6: Step)
    requires s1 == Step(Appear(1), []) && s2 == Step(Request(Some(1)), []) && s3 == Step(Take(true), [])
    requires s4 == Step(Request(Some(2)), []) && s5 == Step(Vanish(1), []) && s6 == Step(Request(Some(1)), [])
    ensures var a := Follow(Follow(Follow(Follow(Follow(Follow(Initial(false), s1), s2), s3), s4), s5), s6);
            a.dep == Some(1) && a.shown && 1 !in a.there
  {
    var a1 := Follow(Initial(false), s1);
    assert a1 == Initial(false).(there := {1});
    var a2 := Follow(a1, s2);
    assert a2 == a1.(dep := Some(1), shown := true);
    var a3 := Follow(a2, s3);
    assert a3 == a2.(active := 1, claimed := true);
    var a4 := Follow(a3, s4);
    assert a4 == a3.(newDep := Some(2), update := true, shown := false);
    var a5 := Follow(a4, s5);
    assert a5 == a4.(there := {});
  }

  lemma RunStep(steps: seq<Step>, s: Step)
    ensures Run(false, []) == Initial(false)
    ensures Run(false, steps + [s]) == Follow(Run(false, steps), s)
  {
    hide Follow;
    assert (steps + [s])[..|steps|] == steps;
  }

  // ----- the code

  class AliasDevice {
    var dep: Option<nat>
    var newDep: Option<nat>
    var update: bool
    var active: nat
    var claimed: bool
    var shown: bool
    var blocked: bool
    var there: set<nat>
    var script: seq<Reaction>
    ghost var badMoves: nat

    ghost function View(): State
      reads this
    {
      State(dep, newDep, update, active, claimed, shown, blocked, there, script, badMoves)
    }

    constructor (blocked: bool)
      ensures View() == Initial(blocked)
    {
      dep, newDep, update, active, claimed := None, None, false, 0, false;
      shown, this.blocked, there, script, badMoves := false, blocked, {}, [], 0;
    }

    /** alias_set_device; also alias_notify_device and alias_check_state */
    method ChangeDevice(d: Option<nat>)
      modifies this
      ensures View() == SetDevice(old(View()), d)
      decreases |script|, 2
    {
      if d == dep {
        if update {
          newDep := None;
          update := false;
          if d.Some? {
            MarkPresent(true);
          }
        }
        return;
      }
      MarkPresent(false);
      newDep := None;
      if active > 0 {
        newDep := d;
        update := true;
        return;
      }
      update := false;
      badMoves := if claimed || active > 0 then badMoves + 1 else badMoves;
      claimed := false;
      dep := d;
      if d.Some? && d.value in there {
        MarkPresent(true);
      }
    }

    /** device_set_present */
    method MarkPresent(state: bool)
      modifies this
      ensures View() == SetPresent(old(View()), state)
      decreases |script|, 1
    {
      if shown == state {
        return;
      }
      shown := state;
      if !blocked {
        Tell();
      }
    }

    /** device_broadcast_event; the users' callbacks */
    method Tell()
      modifies this
      ensures View() == Broadcast(old(View()))
      decreases |script|, 0
    {
      while script != []
        invariant Broadcast(View()) == Broadcast(old(View()))
        invariant |script| <= |old(script)|
        decreases |script|
      {
        var reaction := script[0];
        script := script[1..];
        match reaction {
          case Stop => return;
          case Claim(ok) => var _ := ClaimAlias(ok);
          case Release => ReleaseAlias();
        }
      }
    }

    /** device_claim for one more user, with alias_device_set_state(true); `ok` is the outcome of
        claiming the device behind the alias. */
    method ClaimAlias(ok: bool) returns (success: bool)
      modifies this
      ensures View() == DoClaim(old(View()), ok) && script == old(script)
      ensures success <==> active == old(active) + 1
    {
      active := active + 1;
      if active != 1 {
        return true;
      }
      if dep.None? || !ok {
        active := 0;
        return false;
      }
      claimed := true;
      return true;
    }

    /** device_release for one user, with alias_device_set_state(false) */
    method ReleaseAlias()
      modifies this
      ensures View() == DoRelease(old(View()))
      decreases |script|, 3
    {
      if active == 0 {
        return;
      }
      active := active - 1;
      if active > 0 {
        return;
      }
      claimed := false;
      if update {
        ChangeDevice(newDep);
      }
    }
  }
}
