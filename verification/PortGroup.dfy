/** Bridges and bonds: a device made of ports (bridge.c, bonding.c).

    Kernel calls fail as `luck` says. Two kinds of callback run in the middle of a step and are part
    of the model: when the group appears or disappears its users may take it or let go, and a port
    whose device is itself stacked may vanish while it is being claimed.
 */
module PortGroup {

  datatype Kind = Bridge | Bonding

  /** How a call ends. `Gone` is a failed claim during which the device vanished, so that the port's
      REMOVE callback ran before the claim returned; as an answer of a kernel call or a user it
      is a plain refusal. */
  datatype Outcome = Good | Bad | Gone

  /** Why a port did not join: one of its own calls failed or its device vanished when it was last tried,
      or it was taken out for its authentication. Nothing in the code depends on it. */
  datatype Note = Fine | Refused | TakenOut

  /** `struct bridge_member`, `struct bonding_port`: `claimed` is dev.claimed, `there` whether the
      port's device is present, `auth` and `authed` its authentication setting and status. */
  datatype Port = Port(present: bool, active: bool, claimed: bool, there: bool, auth: bool, authed: bool, note: Note)

  /** `used` is dev.active > 0, `up` is the group's own `active`, `force` is force_active, `shown` is
      dev.sys_present, `asserted` tells whether the assertion on ADD failed. */
  datatype Flags = Flags(used: bool, up: bool, force: bool, shown: bool, asserted: bool)

  /** `n_present`, `n_failed`, and how many claims on a port failed because its device vanished. */
  datatype Tally = Tally(present: int, failed: nat, vanished: nat)

  /** `struct bridge_state`, `struct bonding_device` */
  datatype State = State(kind: Kind, keepEmpty: bool, ports: seq<Port>, flags: Flags, tally: Tally,
                         luck: seq<Outcome>)

  /** A result with the return code of the call. */
  datatype Result = Result(s: State, ok: bool)

  function Lucky(s: State): bool
  {
    s.luck == [] || s.luck[0].Good?
  }

  function Spend(s: State): State
  {
    s.(luck := if s.luck == [] then [] else s.luck[1..])
  }

  function SetPort(s: State, i: nat, p: Port): State
    requires i < |s.ports|
  {
    s.(ports := s.ports[i := p])
  }

  // ----- the code as functions

  /** bridge_enable_interface, bonding_set_active(true) */
  function EnableInterface(s: State): Result
  {
    if s.flags.up then Result(s, true)
    else Result(Spend(s).(flags := s.flags.(up := Lucky(s))), Lucky(s))
  }

  /** bridge_disable_interface; bonding_set_active(false), which may fail */
  function DisableInterface(s: State): State
  {
    if !s.flags.up then s
    else if s.kind.Bridge? then s.(flags := s.flags.(up := false))
    else Spend(s).(flags := s.flags.(up := !Lucky(s)))
  }

  /** bridge_disable_member, bonding_disable_port */
  function DisablePort(s: State, i: nat, keep: bool): State
    requires i < |s.ports|
  {
    var p := s.ports[i];
    if !p.present || !p.active then s
    else SetPort(s, i, p.(active := false, claimed := p.claimed && keep, note := if keep then TakenOut else p.note))
  }

  function DisableFrom(s: State, i: nat): (r: State)
    requires i <= |s.ports|
    ensures |r.ports| == |s.ports| && r.luck == s.luck
    decreases |s.ports| - i
  {
    if i == |s.ports| then s else DisableFrom(DisablePort(s, i, false), i + 1)
  }

  /** bridge_set_down, bonding_set_down */
  function SetDown(s: State): (r: State)
    ensures |r.ports| == |s.ports| && |r.luck| <= |s.luck|
  {
    DisableInterface(DisableFrom(s, 0))
  }

  /** The error path of bridge_enable_member and bonding_enable_port. */
  function Drop(s: State, i: nat): State
    requires i < |s.ports|
  {
    var p := s.ports[i];
    SetPort(s, i, p.(present := false, claimed := false, note := Refused))
    .(tally := Tally(s.tally.present - 1, s.tally.failed + 1, s.tally.vanished))
  }

  function Noted(s: State, i: nat, note: Note): State
    requires i < |s.ports|
  {
    if s.ports[i].note == note then s else SetPort(s, i, s.ports[i].(note := note))
  }

  function SetUsed(s: State, used: bool): State
  {
    s.(flags := s.flags.(used := used))
  }

  function AddToCount(s: State, d: int): State
  {
    s.(tally := s.tally.(present := s.tally.present + d))
  }

  function SetForce(s: State, force: bool): State
  {
    s.(flags := s.flags.(force := force))
  }

  /** device_set_present on the group, with the reaction of its users */
  function SetShown(s: State, state: bool): (r: State)
    ensures |r.ports| == |s.ports| && |r.luck| <= |s.luck|
    decreases |s.luck|, 0
  {
    if s.flags.shown == state then s
    else
      var t := s.(flags := s.flags.(shown := state));
      if t.luck == [] then t
      else
        var u := Spend(t);
        if !t.luck[0].Good? || u.flags.used == state then u
        else if state then ClaimGroup(u)
        else ReleaseGroup(u)
  }

  /** device_claim on the group by its first user */
  function ClaimGroup(s: State): (r: State)
    ensures |r.ports| == |s.ports| && |r.luck| <= |s.luck|
    decreases |s.luck|, 6
  {
    var r := SetUp(SetUsed(s, true));
    if r.ok then r.s else SetUsed(r.s, false)
  }

  /** device_release on the group by its last user */
  function ReleaseGroup(s: State): (r: State)
    ensures |r.ports| == |s.ports| && |r.luck| <= |s.luck|
  {
    SetDown(SetUsed(s, false))
  }

  /** The part of bridge_remove_member and bonding_remove_port that concerns the port. */
  function Removed(s: State, i: nat): (r: State)
    requires i < |s.ports|
    ensures |r.ports| == |s.ports| && r.luck == s.luck
  {
    var t := if s.flags.used then DisablePort(s, i, false) else s;
    AddToCount(SetPort(t, i, t.ports[i].(present := false)), -1)
  }

  /** bridge_remove_member, bonding_remove_port */
  function RemovePort(s: State, i: nat): (r: State)
    requires i < |s.ports|
    ensures |r.ports| == |s.ports| && |r.luck| <= |s.luck|
    decreases |s.luck|, 1
  {
    if !s.ports[i].present then s
    else
      var u := Removed(s, i);
      if s.kind.Bridge? && s.keepEmpty then u
      else if u.tally.present == 0 then SetShown(SetForce(u, false), false)
      else SetForce(u, false)
  }

  /** device_claim on a port */
  function ClaimPort(s: State, i: nat): (r: Result)
    requires i < |s.ports|
    ensures |r.s.ports| == |s.ports| && |r.s.luck| <= |s.luck|
    decreases |s.luck|, 2
  {
    if s.ports[i].claimed then Result(s, true)
    else if Lucky(s) then Result(SetPort(Spend(s), i, s.ports[i].(claimed := true)), true)
    else if s.luck[0].Bad? then Result(Spend(s), false)
    else Result(Vanished(RemovePort(SetPort(Spend(s), i, s.ports[i].(there := false)), i)), false)
  }

  function Vanished(s: State): State
  {
    s.(tally := s.tally.(vanished := s.tally.vanished + 1))
  }

  /** bridge_enable_member, bonding_enable_port after the claim and the group's own device */
  function JoinPort(s: State, i: nat): (r: State)
    requires i < |s.ports|
    ensures |r.ports| == |s.ports| && |r.luck| <= |s.luck|
    decreases |s.luck|, 3
  {
    var p := s.ports[i];
    if p.auth && !p.authed then s
    else if p.active then Noted(s, i, Fine)
    else if !Lucky(s) then Drop(Spend(s), i)
    else SetShown(SetPort(Spend(s), i, p.(active := true, note := Fine)), true)
  }

  function EnablePort(s: State, i: nat): (r: State)
    requires i < |s.ports|
    ensures |r.ports| == |s.ports| && |r.luck| <= |s.luck|
    decreases |s.luck|, 4
  {
    if !s.ports[i].present then s
    else if s.kind.Bridge? then
      var e := EnableInterface(s);
      if !e.ok then Drop(e.s, i)
      else
        var c := ClaimPort(e.s, i);
        if !c.ok then Drop(c.s, i) else JoinPort(c.s, i)
    else
      var c := ClaimPort(s, i);
      if !c.ok then Noted(c.s, i, Refused)
      else
        var e := EnableInterface(c.s);
        if !e.ok then SetPort(e.s, i, e.s.ports[i].(claimed := false, note := Refused)) else JoinPort(e.s, i)
  }

  function EnableFrom(s: State, i: nat): (r: State)
    requires i <= |s.ports|
    ensures |r.ports| == |s.ports| && |r.luck| <= |s.luck|
    decreases |s.luck|, 5, |s.ports| - i
  {
    if i == |s.ports| then s else EnableFrom(EnablePort(s, i), i + 1)
  }

  /** bridge_set_up, bonding_set_up */
  function SetUp(s: State): (r: Result)
    ensures |r.s.ports| == |s.ports| && |r.s.luck| <= |s.luck|
    decreases |s.luck|, 5, |s.ports| + 1
  {
    if s.tally.present == 0 && !s.flags.force then Result(s, false)
    else
      var e := if s.tally.present == 0 then EnableInterface(s) else Result(s, true);
      if !e.ok then e else FinishUp(EnableFrom(ResetFailed(e.s), 0))
  }

  function ResetFailed(s: State): State
  {
    s.(tally := s.tally.(failed := 0))
  }

  /** The rest of bridge_set_up, after its ports were enabled */
  function FinishUp(s: State): (r: Result)
    ensures |r.s.ports| == |s.ports| && |r.s.luck| <= |s.luck|
    decreases |s.luck|, 1
  {
    if !s.flags.force && s.tally.present == 0 then Result(SetShown(DisableInterface(s), false), false)
    else if Lucky(s) then Result(Spend(s), true)
    else Result(SetDown(Spend(s)), false)
  }

  /** bridge_retry_members, bonding_retry_ports */
  function RetryFrom(s: State, i: nat): (r: State)
    requires i <= |s.ports|
    ensures |r.ports| == |s.ports|
    decreases |s.ports| - i
  {
    if i == |s.ports| then s
    else
      var p := s.ports[i];
      if p.present || !p.there then RetryFrom(s, i + 1)
      else
        var t := AddToCount(SetPort(s, i, p.(present := true)), 1);
        RetryFrom(EnablePort(t, i), i + 1)
  }

  /** What can happen to the group: its ports' devices come and go and change their authentication
      status, users take the group and let go, the retry timer fires, a hotplug is prepared. */
  datatype Event =
    | Add(i: nat) | Remove(i: nat) | AuthUp(i: nat) | AuthDown(i: nat) | LinkDown(i: nat)
    | Claim | Release | Retry | Prepare

  predicate Possible(s: State, ev: Event)
  {
    match ev
    case Add(i) => i < |s.ports| && !s.ports[i].there
    case Remove(i) => i < |s.ports| && s.ports[i].there
    case AuthUp(i) => i < |s.ports| && s.ports[i].there && !s.ports[i].authed
    case AuthDown(i) => i < |s.ports| && s.ports[i].there && s.ports[i].authed
    case LinkDown(i) => i < |s.ports|
    case Claim => !s.flags.used
    case Release => s.flags.used
    case _ => true
  }

  /** DEV_EVENT_ADD of bridge_member_cb and bonding_port_cb */
  function PortAdded(s: State, i: nat): State
    requires i < |s.ports|
  {
    var p := s.ports[i];
    if p.present then (if s.kind.Bridge? then s.(flags := s.flags.(asserted := true)) else s)
    else
      var t := AddToCount(SetPort(s, i, p.(present := true)), 1);
      var u := if t.tally.present == 1 then SetShown(t, true) else t;
      if u.flags.used then EnablePort(u, i) else u
  }

  function Handle(s: State, ev: Event): State
    requires Possible(s, ev)
  {
    match ev
    case Add(i) => PortAdded(SetPort(s, i, s.ports[i].(there := true)), i)
    case Remove(i) => RemovePort(SetPort(s, i, s.ports[i].(there := false)), i)
    case AuthUp(i) =>
      var t := SetPort(s, i, s.ports[i].(authed := true));
      if t.flags.used then EnablePort(t, i) else t
    case AuthDown(i) =>
      var t := SetPort(s, i, s.ports[i].(authed := false));
      if t.ports[i].auth then DisablePort(t, i, true) else t
    case LinkDown(i) => if s.ports[i].auth then DisablePort(s, i, true) else s
    case Claim => ClaimGroup(s)
    case Release => ReleaseGroup(s)
    case Retry => RetryFrom(ResetFailed(s), 0)
    case Prepare => SetShown(SetForce(s, true), true)
  }

  datatype Step = Step(ev: Event, luck: seq<Outcome>)

  function Follow(s: State, st: Step): State
  {
    if Possible(s, st.ev) then Handle(s.(luck := st.luck), st.ev).(luck := []) else s
  }

  function FollowAll(s: State, steps: seq<Step>): State
  {
    if steps == [] then s else Follow(FollowAll(s, steps[..|steps| - 1]), steps[|steps| - 1])
  }

  /** A new group: its ports' devices may be there already, but have not been announced. */
  ghost predicate Fresh(s: State)
  {
    && s.flags == Flags(false, false, false, false, false) && s.tally == Tally(0, 0, 0) && s.luck == []
    && (forall p :: p in s.ports ==> !p.present && !p.active && !p.claimed && !p.there)
  }

  // ----- counting

  function Count(ports: seq<Port>): nat
  {
    if ports == [] then 0
    else Count(ports[..|ports| - 1]) + if ports[|ports| - 1].present then 1 else 0
  }

  lemma {:induction false} CountUpdate(ports: seq<Port>, i: nat, p: Port)
    requires i < |ports|
    ensures Count(ports[i := p])
            == Count(ports) - (if ports[i].present then 1 else 0) + (if p.present then 1 else 0)
    decreases |ports|
  {
    var n := |ports| - 1;
    var ports' := ports[i := p];
    if i < n {
      assert ports'[..n] == ports[..n][i := p];
      CountUpdate(ports[..n], i, p);
    } else {
      assert ports'[..n] == ports[..n];
    }
  }

  /** How often a port was taken off n_present twice. */
  function TwiceOff(s: State): nat
  {
    if s.kind.Bridge? then s.tally.vanished else 0
  }

  /** n_present is the number of present ports, less those taken off twice; a present port's device
      is present, and the assertion never failed. */
  ghost predicate Sound(s: State)
  {
    && s.tally.present + TwiceOff(s) == Count(s.ports)
    && (forall i :: 0 <= i < |s.ports| && s.ports[i].present ==> s.ports[i].there)
    && !s.flags.asserted
  }

  ghost predicate NoGone(luck: seq<Outcome>)
  {
    forall o :: o in luck ==> o != Gone
  }

  ghost predicate Keeps(s: State, r: State)
  {
    && r.kind == s.kind && r.keepEmpty == s.keepEmpty && |r.ports| == |s.ports| && |r.luck| <= |s.luck|
    && (NoGone(s.luck) ==> NoGone(r.luck) && r.tally.vanished == s.tally.vanished)
    && Sound(r)
  }

  lemma SetPortSound(s: State, i: nat, p: Port)
    requires Sound(s) && i < |s.ports| && p.present == s.ports[i].present && (p.present ==> p.there)
    ensures Sound(SetPort(s, i, p))
  {
    hide Count;
    CountUpdate(s.ports, i, p);
  }

  lemma SoundFrame(s: State, t: State)
    requires Sound(s) && t.ports == s.ports && t.flags.asserted == s.flags.asserted
    requires t.tally.present == s.tally.present && t.tally.vanished == s.tally.vanished && t.kind == s.kind
    ensures Sound(t)
  {
  }

  lemma PossibleFrame(s: State, t: State, ev: Event)
    requires Possible(s, ev) && t.ports == s.ports && t.flags == s.flags
    ensures Possible(t, ev)
  {
  }

  lemma SpendNoGone(s: State)
    ensures NoGone(s.luck) ==> NoGone(Spend(s).luck)
  {
    if s.luck != [] {
      var rest := s.luck[1..];
      forall o | o in rest ensures o in s.luck {
        var k :| 0 <= k < |rest| && rest[k] == o;
        assert s.luck[k + 1] == o;
      }
    }
  }

  lemma SpendKeeps(s: State)
    requires Sound(s)
    ensures Keeps(s, Spend(s))
  {
    SpendNoGone(s);
  }

  lemma EnableInterfaceKeeps(s: State)
    requires Sound(s)
    ensures Keeps(s, EnableInterface(s).s) && EnableInterface(s).s.ports == s.ports
  {
    SpendKeeps(s);
  }

  lemma {:induction false} DisableFromKeeps(s: State, i: nat)
    requires Sound(s) && i <= |s.ports|
    ensures Keeps(s, DisableFrom(s, i))
    decreases |s.ports| - i
  {
    hide Sound;
    if i < |s.ports| {
      DisablePortSound(s, i, false);
      DisableFromKeeps(DisablePort(s, i, false), i + 1);
    }
  }

  lemma DisablePortSound(s: State, i: nat, keep: bool)
    requires Sound(s) && i < |s.ports|
    ensures Keeps(s, DisablePort(s, i, keep))
  {
    hide Count;
    var p := s.ports[i];
    SetPortSound(s, i, p.(active := false, claimed := p.claimed && keep, note := if keep then TakenOut else p.note));
  }

  lemma SetDownKeeps(s: State)
    requires Sound(s)
    ensures Keeps(s, SetDown(s))
  {
    hide Count, DisableFrom;
    DisableFromKeeps(s, 0);
    SpendKeeps(DisableFrom(s, 0));
  }

  /** A claim on a bridge port vanished, and the error path is still to come. */
  ghost predicate OneTooMany(s: State)
  {
    && s.tally.present + TwiceOff(s) == Count(s.ports) + 1
    && (forall i :: 0 <= i < |s.ports| && s.ports[i].present ==> s.ports[i].there)
    && !s.flags.asserted
  }

  lemma DropKeeps(s: State, i: nat)
    requires i < |s.ports| && if s.ports[i].present then Sound(s) else OneTooMany(s)
    ensures var r := Drop(s, i);
            && Sound(r) && r.kind == s.kind && r.keepEmpty == s.keepEmpty && r.luck == s.luck
            && r.tally.vanished == s.tally.vanished
  {
    hide Count;
    CountUpdate(s.ports, i, s.ports[i].(present := false, claimed := false, note := Refused));
  }

  lemma {:induction false} SetShownKeeps(s: State, state: bool)
    requires Sound(s)
    ensures Keeps(s, SetShown(s, state))
    decreases |s.luck|, 0
  {
    hide Count, ClaimGroup, SetDown;
    if s.flags.shown != state && s.luck != [] {
      var t := s.(flags := s.flags.(shown := state));
      var u := Spend(t);
      SpendKeeps(t);
      if t.luck[0].Good? && u.flags.used != state {
        if state {
          ClaimGroupKeeps(u);
        } else {
          SetDownKeeps(SetUsed(u, false));
        }
      }
    }
  }

  lemma {:induction false} ClaimGroupKeeps(s: State)
    requires Sound(s)
    ensures Keeps(s, ClaimGroup(s))
    decreases |s.luck|, 6
  {
    hide Count, SetUp;
    SetUpKeeps(SetUsed(s, true));
  }

  /** Sound, but the device of port `i` may be gone. */
  ghost predicate SoundBut(s: State, i: nat)
  {
    && s.tally.present + TwiceOff(s) == Count(s.ports) && !s.flags.asserted
    && (forall k :: 0 <= k < |s.ports| && k != i && s.ports[k].present ==> s.ports[k].there)
  }

  lemma RemovedSound(s: State, i: nat)
    requires i < |s.ports| && SoundBut(s, i) && s.ports[i].present
    ensures Sound(Removed(s, i))
  {
    hide Count;
    var t := if s.flags.used then DisablePort(s, i, false) else s;
    CountUpdate(s.ports, i, t.ports[i]);
    CountUpdate(t.ports, i, t.ports[i].(present := false));
  }

  lemma {:induction false} RemovePortKeeps(s: State, i: nat)
    requires i < |s.ports| && SoundBut(s, i)
    ensures Keeps(s, RemovePort(s, i))
    decreases |s.luck|, 1
  {
    hide Count, SetShown;
    if s.ports[i].present {
      RemovedSound(s, i);
      SetShownKeeps(SetForce(Removed(s, i), false), false);
    }
  }

  lemma {:induction false} DisableFromPresent(s: State, n: nat, i: nat)
    requires n <= |s.ports| && i < |s.ports|
    ensures DisableFrom(s, n).ports[i].present == s.ports[i].present
    decreases |s.ports| - n
  {
    if n < |s.ports| {
      DisableFromPresent(DisablePort(s, n, false), n + 1, i);
    }
  }

  lemma RemovedPortIsAbsent(s: State, i: nat)
    requires i < |s.ports|
    ensures !RemovePort(s, i).ports[i].present
  {
    hide DisableFrom;
    if s.ports[i].present {
      var u := SetForce(Removed(s, i), false);
      var t := Spend(u.(flags := u.flags.(shown := false)));
      DisableFromPresent(SetUsed(t, false), 0, i);
    }
  }

  /** A port that could not be claimed is still present and counted, unless its device vanished. */
  lemma {:induction false} ClaimPortKeeps(s: State, i: nat)
    requires Sound(s) && i < |s.ports| && s.ports[i].present
    ensures var r := ClaimPort(s, i);
            && r.s.kind == s.kind && r.s.keepEmpty == s.keepEmpty
            && (r.ok || NoGone(s.luck) || s.kind.Bonding? ==> Keeps(s, r.s))
            && (r.ok || NoGone(s.luck) ==> r.s.ports[i].present)
            && (s.kind.Bridge? ==> if r.s.ports[i].present then Sound(r.s) else OneTooMany(r.s))
    decreases |s.luck|, 2
  {
    hide Count, RemovePort;
    SpendKeeps(s);
    if !s.ports[i].claimed {
      if Lucky(s) {
        SetPortSound(Spend(s), i, s.ports[i].(claimed := true));
      } else if s.luck[0].Gone? {
        assert s.luck[0] in s.luck;
        var t := SetPort(Spend(s), i, s.ports[i].(there := false));
        CountUpdate(s.ports, i, s.ports[i].(there := false));
        RemovePortKeeps(t, i);
        RemovedPortIsAbsent(t, i);
      }
    }
  }

  lemma {:induction false} JoinPortKeeps(s: State, i: nat)
    requires Sound(s) && i < |s.ports| && s.ports[i].present
    ensures Keeps(s, JoinPort(s, i))
    decreases |s.luck|, 3
  {
    hide Count, SetShown, Drop;
    var p := s.ports[i];
    SpendKeeps(s);
    SetPortSound(s, i, p.(note := Fine));
    if !((p.auth && !p.authed) || p.active) {
      if Lucky(s) {
        SetPortSound(Spend(s), i, p.(active := true, note := Fine));
        SetShownKeeps(SetPort(Spend(s), i, p.(active := true, note := Fine)), true);
      } else {
        DropKeeps(Spend(s), i);
      }
    }
  }

  lemma NotedKeeps(s: State, r: State, i: nat, note: Note)
    requires Keeps(s, r) && i < |r.ports|
    ensures Keeps(s, Noted(r, i, note))
  {
    hide Count;
    SetPortSound(r, i, r.ports[i].(note := note));
  }

  lemma {:induction false} EnablePortKeeps(s: State, i: nat)
    requires Sound(s) && i < |s.ports|
    ensures Keeps(s, EnablePort(s, i))
    decreases |s.luck|, 4
  {
    hide Count, ClaimPort, JoinPort, EnableInterface, Drop;
    if s.ports[i].present {
      if s.kind.Bridge? {
        EnableInterfaceKeeps(s);
        var e := EnableInterface(s);
        if e.ok {
          ClaimPortKeeps(e.s, i);
          var c := ClaimPort(e.s, i);
          if c.ok {
            JoinPortKeeps(c.s, i);
          } else {
            DropKeeps(c.s, i);
          }
        } else {
          DropKeeps(e.s, i);
        }
      } else {
        ClaimPortKeeps(s, i);
        var c := ClaimPort(s, i);
        if c.ok {
          EnableInterfaceKeeps(c.s);
          var e := EnableInterface(c.s);
          if e.ok {
            JoinPortKeeps(e.s, i);
          } else {
            SetPortSound(e.s, i, e.s.ports[i].(claimed := false, note := Refused));
          }
        } else {
          NotedKeeps(s, c.s, i, Refused);
        }
      }
    }
  }

  lemma {:induction false} EnableFromKeeps(s: State, i: nat)
    requires Sound(s) && i <= |s.ports|
    ensures Keeps(s, EnableFrom(s, i))
    decreases |s.luck|, 5, |s.ports| - i
  {
    hide Count, EnablePort;
    if i < |s.ports| {
      EnablePortKeeps(s, i);
      EnableFromKeeps(EnablePort(s, i), i + 1);
    }
  }

  lemma {:induction false} FinishUpKeeps(s: State)
    requires Sound(s)
    ensures Keeps(s, FinishUp(s).s)
    decreases |s.luck|, 1
  {
    hide Count, SetShown, SetDown;
    SpendKeeps(s);
    if !s.flags.force && s.tally.present == 0 {
      SetShownKeeps(DisableInterface(s), false);
    } else {
      SetDownKeeps(Spend(s));
    }
  }

  lemma {:induction false} SetUpKeeps(s: State)
    requires Sound(s)
    ensures Keeps(s, SetUp(s).s)
    decreases |s.luck|, 5, |s.ports| + 1
  {
    hide Count, EnableFrom, EnableInterface, FinishUp;
    EnableInterfaceKeeps(s);
    var e := if s.tally.present == 0 then EnableInterface(s) else Result(s, true);
    var t := ResetFailed(e.s);
    EnableFromKeeps(t, 0);
    FinishUpKeeps(EnableFrom(t, 0));
  }

  lemma {:induction false} RetryFromKeeps(s: State, i: nat)
    requires Sound(s) && i <= |s.ports|
    ensures Keeps(s, RetryFrom(s, i))
    decreases |s.ports| - i
  {
    hide Count, EnablePort;
    if i < |s.ports| {
      var p := s.ports[i];
      if p.present || !p.there {
        RetryFromKeeps(s, i + 1);
      } else {
        CountUpdate(s.ports, i, p.(present := true));
        var t := AddToCount(SetPort(s, i, p.(present := true)), 1);
        EnablePortKeeps(t, i);
        RetryFromKeeps(EnablePort(t, i), i + 1);
      }
    }
  }

  lemma PortAddedKeeps(s: State, i: nat)
    requires Sound(s) && i < |s.ports| && !s.ports[i].present && s.ports[i].there
    ensures Keeps(s, PortAdded(s, i))
  {
    hide Count, EnablePort, SetShown;
    var p := s.ports[i];
    CountUpdate(s.ports, i, p.(present := true));
    var t := AddToCount(SetPort(s, i, p.(present := true)), 1);
    SetShownKeeps(t, true);
    var u := if t.tally.present == 1 then SetShown(t, true) else t;
    EnablePortKeeps(u, i);
  }

  lemma HandleKeeps(s: State, ev: Event)
    requires Sound(s) && Possible(s, ev)
    ensures Keeps(s, Handle(s, ev))
  {
    hide Count, PortAdded, RemovePort, EnablePort, DisablePort, ClaimGroup, SetDown, RetryFrom, SetShown;
    match ev
    case Add(i) =>
      var p := s.ports[i].(there := true);
      SetPortSound(s, i, p);
      PortAddedKeeps(SetPort(s, i, p), i);
    case Remove(i) =>
      CountUpdate(s.ports, i, s.ports[i].(there := false));
      RemovePortKeeps(SetPort(s, i, s.ports[i].(there := false)), i);
    case AuthUp(i) =>
      var t := SetPort(s, i, s.ports[i].(authed := true));
      SetPortSound(s, i, s.ports[i].(authed := true));
      EnablePortKeeps(t, i);
    case AuthDown(i) =>
      var t := SetPort(s, i, s.ports[i].(authed := false));
      SetPortSound(s, i, s.ports[i].(authed := false));
      DisablePortSound(t, i, true);
    case LinkDown(i) => DisablePortSound(s, i, true);
    case Claim => ClaimGroupKeeps(s);
    case Release => SetDownKeeps(SetUsed(s, false));
    case Retry => RetryFromKeeps(ResetFailed(s), 0);
    case Prepare => SetShownKeeps(SetForce(s, true), true);
  }

  ghost predicate NeverGone(steps: seq<Step>)
  {
    forall st :: st in steps ==> NoGone(st.luck)
  }

  lemma {:induction false} NoneCounted(ports: seq<Port>)
    requires forall p :: p in ports ==> !p.present
    ensures Count(ports) == 0
  {
    if ports != [] {
      NoneCounted(ports[..|ports| - 1]);
    }
  }

  lemma {:induction false} RunKeeps(s0: State, steps: seq<Step>)
    requires Fresh(s0)
    ensures var s := FollowAll(s0, steps);
            && Sound(s) && s.kind == s0.kind && |s.ports| == |s0.ports|
            && (NeverGone(steps) ==> s.tally.vanished == 0)
  {
    hide Count, Handle, Possible;
    if steps == [] {
      NoneCounted(s0.ports);
      assert forall i :: 0 <= i < |s0.ports| ==> s0.ports[i] in s0.ports;
    } else {
      var n := |steps| - 1;
      RunKeeps(s0, steps[..n]);
      var s, st := FollowAll(s0, steps[..n]), steps[n];
      if Possible(s, st.ev) {
        var t := s.(luck := st.luck);
        PossibleFrame(s, t, st.ev);
        HandleKeeps(t, st.ev);
        assert st in steps;
      }
    }
  }

  /** After every run, with calls failing and users reacting in any way, n_present is the number of
      present ports exactly if the group is a bond or no device of a port vanished while the bridge
      claimed it; each time one did, the port was taken off twice. */
  lemma PresentIsCountedIff(s0: State, steps: seq<Step>)
    requires Fresh(s0)
    ensures var s := FollowAll(s0, steps);
            && (s.tally.present == Count(s.ports) <==> s0.kind.Bonding? || s.tally.vanished == 0)
            && (s0.kind.Bridge? ==> s.tally.present == Count(s.ports) - s.tally.vanished)
            && (NeverGone(steps) ==> s.tally.vanished == 0)
  {
    hide Count, FollowAll;
    RunKeeps(s0, steps);
  }

  /** After every run a present port's device is present, so the assertion on ADD never fails. */
  lemma PresentPortIsThere(s0: State, steps: seq<Step>)
    requires Fresh(s0)
    ensures var s := FollowAll(s0, steps);
            && (forall i :: 0 <= i < |s.ports| && s.ports[i].present ==> s.ports[i].there)
            && !s.flags.asserted
  {
    hide Count, FollowAll;
    RunKeeps(s0, steps);
  }

  /** Such a run: the device of a bridge's only port appears and vanishes while the bridge goes up.
      The bridge stays up without a port, and n_present is -1. */
  lemma VanishingPortIsTakenOffTwice(s0: State)
    requires Fresh(s0) && s0.kind.Bridge? && !s0.keepEmpty && |s0.ports| == 1
    ensures var s := FollowAll(s0, [Step(Add(0), []), Step(Claim, [Good, Gone])]);
            |s.ports| == 1 && s.tally.present == -1 && s.flags.used && s.flags.up && !s.ports[0].present
  {
    hide FollowAll, Follow;
    var st1, st2 := Step(Add(0), []), Step(Claim, [Good, Gone]);
    FollowMore(s0, [], st1);
    FollowMore(s0, [st1], st2);
    assert [] + [st1] == [st1] && [st1] + [st2] == [st1, st2];
    OnlyPortAppears(s0, st1);
    OnlyPortVanishes(Follow(s0, st1), st2);
  }

  lemma FollowMore(s0: State, steps: seq<Step>, st: Step)
    ensures FollowAll(s0, []) == s0
    ensures FollowAll(s0, steps + [st]) == Follow(FollowAll(s0, steps), st)
  {
    hide Follow;
    assert (steps + [st])[..|steps|] == steps;
  }

  /** The only port's device is there, and the group is known to be present. */
  ghost predicate OnePortWaits(s: State)
  {
    && s.kind.Bridge? && !s.keepEmpty && |s.ports| == 1 && s.tally.present == 1
    && s.flags == Flags(false, false, false, true, false)
    && s.ports[0].present && s.ports[0].there && !s.ports[0].claimed && !s.ports[0].active
  }

  lemma OnlyPortAppears(s0: State, st: Step)
    requires Fresh(s0) && s0.kind.Bridge? && !s0.keepEmpty && |s0.ports| == 1 && st == Step(Add(0), [])
    ensures OnePortWaits(Follow(s0, st))
  {
    assert s0.ports[0] in s0.ports;
  }

  lemma LastPortRemoved(s: State)
    requires s.kind.Bridge? && !s.keepEmpty && |s.ports| == 1 && s.ports[0].present && !s.ports[0].active
    requires s.luck == [] && s.tally.present == 1 && s.flags.used && s.flags.up
    ensures var r := RemovePort(s, 0);
            && r.tally.present == 0 && !r.ports[0].present && r.luck == []
            && r.flags.used && r.flags.up && !r.flags.force
  {
    var u := SetForce(Removed(s, 0), false);
    assert RemovePort(s, 0) == SetShown(u, false);
  }

  lemma OnlyPortVanishes(s: State, st: Step)
    requires OnePortWaits(s) && st == Step(Claim, [Good, Gone])
    ensures var r := Follow(s, st);
            |r.ports| == 1 && r.tally.present == -1 && r.flags.used && r.flags.up && !r.ports[0].present
  {
    var a := SetUsed(s.(luck := [Good, Gone]), true);
    var b := ResetFailed(a);
    var e := EnableInterface(b).s;
    assert e.luck == [Gone] && e.flags.up && e.ports == s.ports;
    var c := ClaimPort(e, 0);
    var gone := SetPort(Spend(e), 0, e.ports[0].(there := false));
    assert gone.luck == [];
    var r := RemovePort(gone, 0);
    assert c == Result(Vanished(r), false);
    LastPortRemoved(gone);
    var d := Drop(c.s, 0);
    assert EnablePort(b, 0) == d;
    assert EnableFrom(d, 1) == d && EnableFrom(b, 0) == d;
    assert FinishUp(d) == Result(Spend(d), true);
    assert SetUp(a) == FinishUp(d);
  }

  // ----- the code

  class Group {
    const kind: Kind
    const keepEmpty: bool
    var ports: seq<Port>
    var nPresent: int
    var nFailed: nat
    var used: bool
    var up: bool
    var force: bool
    var shown: bool
    var luck: seq<Outcome>
    ghost var asserted: bool
    ghost var vanished: nat

    ghost function View(): State
      reads this
    {
      State(kind, keepEmpty, ports, Flags(used, up, force, shown, asserted), Tally(nPresent, nFailed, vanished), luck)
    }

    constructor (kind: Kind, keepEmpty: bool, ports: seq<Port>)
      requires forall p :: p in ports ==> !p.present && !p.active && !p.claimed && !p.there
      ensures Fresh(View()) && this.kind == kind && this.keepEmpty == keepEmpty && this.ports == ports
    {
      this.kind, this.keepEmpty, this.ports := kind, keepEmpty, ports;
      nPresent, nFailed, used, up, force, shown, luck := 0, 0, false, false, false, false, [];
      asserted, vanished := false, 0;
    }

    /** The answer of the next call outside */
    method Call() returns (ok: bool)
      modifies this`luck
      ensures ok == Lucky(old(View())) && View() == Spend(old(View()))
    {
      ok := luck == [] || luck[0].Good?;
      luck := if luck == [] then [] else luck[1..];
    }

    /** bridge_enable_interface, bonding_set_active(true) */
    method RaiseInterface() returns (ok: bool)
      modifies this
      ensures Result(View(), ok) == EnableInterface(old(View()))
      ensures |ports| == |old(ports)| && |luck| <= |old(luck)|
    {
      if up {
        return true;
      }
      ok := Call();
      up := ok;
    }

    /** bridge_disable_interface, bonding_set_active(false) */
    method LowerInterface()
      modifies this
      ensures View() == DisableInterface(old(View()))
    {
      if !up {
        return;
      }
      if kind.Bridge? {
        up := false;
      } else {
        var ok := Call();
        up := !ok;
      }
    }

    /** bridge_disable_member, bonding_disable_port */
    method TakeOut(i: nat, keep: bool)
      requires i < |ports|
      modifies this
      ensures View() == DisablePort(old(View()), i, keep)
    {
      if !ports[i].present || !ports[i].active {
        return;
      }
      var note := if keep then TakenOut else ports[i].note;
      ports := ports[i := ports[i].(active := false, claimed := ports[i].claimed && keep, note := note)];
    }

    method Annotate(i: nat, note: Note)
      requires i < |ports|
      modifies this
      ensures View() == Noted(old(View()), i, note)
    {
      if ports[i].note != note {
        ports := ports[i := ports[i].(note := note)];
      }
    }

    /** bridge_set_down, bonding_set_down */
    method GoDown()
      modifies this
      ensures View() == SetDown(old(View()))
    {
      for i := 0 to |ports|
        invariant |ports| == |old(ports)|
        invariant DisableFrom(View(), i) == DisableFrom(old(View()), 0)
      {
        TakeOut(i, false);
      }
      LowerInterface();
    }

    /** the error path of bridge_enable_member and bonding_enable_port */
    method GiveUp(i: nat)
      requires i < |ports|
      modifies this
      ensures View() == Drop(old(View()), i)
    {
      nFailed := nFailed + 1;
      ports := ports[i := ports[i].(present := false, claimed := false, note := Refused)];
      nPresent := nPresent - 1;
    }

    /** device_set_present on the group */
    method Show(state: bool)
      modifies this
      ensures View() == SetShown(old(View()), state)
      decreases |luck|, 0
    {
      hide ClaimGroup, SetDown;
      if shown == state {
        return;
      }
      shown := state;
      if luck != [] {
        var reacts := Call();
        if reacts && used != state {
          if state {
            ClaimByUser();
          } else {
            ReleaseByUser();
          }
        }
      }
    }

    /** device_claim on the group */
    method ClaimByUser()
      modifies this
      ensures View() == ClaimGroup(old(View()))
      decreases |luck|, 6
    {
      hide SetUp;
      used := true;
      var ok := GoUp();
      if !ok {
        used := false;
      }
    }

    /** device_release on the group */
    method ReleaseByUser()
      modifies this
      ensures View() == ReleaseGroup(old(View()))
    {
      used := false;
      GoDown();
    }

    /** bridge_remove_member, bonding_remove_port */
    method PortRemoved(i: nat)
      requires i < |ports|
      modifies this
      ensures View() == RemovePort(old(View()), i)
      decreases |luck|, 1
    {
      hide SetShown;
      if !ports[i].present {
        return;
      }
      if used {
        TakeOut(i, false);
      }
      ports := ports[i := ports[i].(present := false)];
      nPresent := nPresent - 1;
      assert View() == Removed(old(View()), i);
      if kind.Bridge? && keepEmpty {
        return;
      }
      force := false;
      if nPresent == 0 {
        Show(false);
      }
    }

    /** device_claim on a port */
    method ClaimDevice(i: nat) returns (ok: bool)
      requires i < |ports|
      modifies this
      ensures Result(View(), ok) == ClaimPort(old(View()), i)
      decreases |luck|, 2
    {
      hide RemovePort;
      if ports[i].claimed {
        return true;
      }
      var vanishes := luck != [] && luck[0].Gone?;
      ok := Call();
      if ok {
        ports := ports[i := ports[i].(claimed := true)];
      } else if vanishes {
        ports := ports[i := ports[i].(there := false)];
        PortRemoved(i);
        vanished := vanished + 1;
      }
    }

    /** the end of bridge_enable_member and bonding_enable_port */
    method Join(i: nat)
      requires i < |ports|
      modifies this
      ensures View() == JoinPort(old(View()), i)
      decreases |luck|, 3
    {
      hide SetShown;
      if ports[i].auth && !ports[i].authed {
        return;
      }
      if ports[i].active {
        Annotate(i, Fine);
        return;
      }
      var ok := Call();
      if !ok {
        GiveUp(i);
        return;
      }
      ports := ports[i := ports[i].(active := true, note := Fine)];
      Show(true);
    }

    /** bridge_enable_member, bonding_enable_port */
    method PutIn(i: nat)
      requires i < |ports|
      modifies this
      ensures View() == EnablePort(old(View()), i)
      decreases |luck|, 4
    {
      hide ClaimPort, JoinPort, EnableInterface;
      if !ports[i].present {
        return;
      }
      if kind.Bridge? {
        var ok := RaiseInterface();
        if ok {
          ok := ClaimDevice(i);
        }
        if ok {
          Join(i);
        } else {
          GiveUp(i);
        }
      } else {
        var ok := ClaimDevice(i);
        if !ok {
          Annotate(i, Refused);
          return;
        }
        ok := RaiseInterface();
        if !ok {
          ports := ports[i := ports[i].(claimed := false, note := Refused)];
          return;
        }
        Join(i);
      }
    }

    /** bridge_set_up, bonding_set_up */
    method GoUp() returns (ok: bool)
      modifies this
      ensures Result(View(), ok) == SetUp(old(View()))
      decreases |luck|, 5
    {
      hide EnablePort, SetShown, SetDown, EnableInterface;
      if nPresent == 0 {
        if !force {
          return false;
        }
        ok := RaiseInterface();
        if !ok {
          return false;
        }
      }
      nFailed := 0;
      ghost var start := View();
      for i := 0 to |ports|
        invariant |ports| == |old(ports)| && |luck| <= |old(luck)|
        invariant EnableFrom(View(), i) == EnableFrom(start, 0)
      {
        PutIn(i);
      }
      assert Result(View(), true) == Result(EnableFrom(start, 0), true);
      if !force && nPresent == 0 {
        LowerInterface();
        Show(false);
        return false;
      }
      ok := Call();
      if !ok {
        GoDown();
      }
    }

    /** bridge_retry_members, bonding_retry_ports */
    method RetryTimer()
      modifies this
      ensures View() == RetryFrom(ResetFailed(old(View())), 0)
    {
      hide EnablePort;
      nFailed := 0;
      ghost var start := View();
      for i := 0 to |ports|
        invariant |ports| == |old(ports)|
        invariant RetryFrom(View(), i) == RetryFrom(start, 0)
      {
        if !ports[i].present && ports[i].there {
          ports := ports[i := ports[i].(present := true)];
          nPresent := nPresent + 1;
          PutIn(i);
        }
      }
    }

    /** bridge_member_cb and bonding_port_cb for DEV_EVENT_ADD */
    method PortAppeared(i: nat)
      requires i < |ports|
      modifies this
      ensures View() == PortAdded(old(View()), i)
    {
      hide EnablePort, SetShown;
      if ports[i].present {
        asserted := asserted || kind.Bridge?;
        return;
      }
      ports := ports[i := ports[i].(present := true)];
      nPresent := nPresent + 1;
      if nPresent == 1 {
        Show(true);
      }
      if used {
        PutIn(i);
      }
    }

    /** The event's own code. */
    method Dispatch(ev: Event)
      requires Possible(View(), ev)
      modifies this
      ensures View() == Handle(old(View()), ev)
    {
      hide PortAdded, RemovePort, EnablePort, DisablePort, ClaimGroup, SetDown, RetryFrom, SetShown;
      match ev {
        case Add(i) =>
          ports := ports[i := ports[i].(there := true)];
          PortAppeared(i);
        case Remove(i) =>
          ports := ports[i := ports[i].(there := false)];
          PortRemoved(i);
        case AuthUp(i) =>
          ports := ports[i := ports[i].(authed := true)];
          if used {
            PutIn(i);
          }
        case AuthDown(i) =>
          ports := ports[i := ports[i].(authed := false)];
          if ports[i].auth {
            TakeOut(i, true);
          }
        case LinkDown(i) =>
          if ports[i].auth {
            TakeOut(i, true);
          }
        case Claim => ClaimByUser();
        case Release => ReleaseByUser();
        case Retry => RetryTimer();
        case Prepare =>
          force := true;
          Show(true);
      }
    }

    /** One step of a run. */
    method Serve(step: Step)
      requires Sound(View()) && Possible(View(), step.ev)
      modifies this
      ensures View() == Follow(old(View()), step) && Sound(View())
    {
      hide Count, Handle;
      luck := step.luck;
      HandleKeeps(View(), step.ev);
      Dispatch(step.ev);
      luck := [];
    }
  }
}
