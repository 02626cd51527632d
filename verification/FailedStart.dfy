/** What becomes of an interface whose setup script cannot be started (interface.c, proto-shell.c). */
module FailedStart {
  import opened HotplugQueue
  import opened Lifecycle
  import opened Options

  /** The interface is down and nothing runs, yet the script runner is in its setup state. */
  predicate Stuck(m: Machine)
  {
    !m.face.freed && m.face.state == IfsDown && m.shell.sm == SSetup && !m.shell.script && !m.shell.proto
  }

  /** Nothing was raised but failures and link events. */
  ghost predicate Quietly(m: Machine, r: Machine)
  {
    && r.flags == m.flags && m.trace.events <= r.trace.events
    && forall k :: |m.trace.events| <= k < |r.trace.events| ==> r.trace.events[k] in {UpFailed, LinkUp}
  }

  /** Still stuck, with no timeout to get it out. */
  ghost predicate StaysStuck(m: Machine, r: Machine)
  {
    Stuck(r) && r.shell.timer == m.shell.timer && Quietly(m, r)
  }

  lemma StuckDoSetUp(m: Machine)
    requires Stuck(m)
    ensures StaysStuck(m, DoSetUp(m))
  {
  }

  lemma StuckCheckState(m: Machine)
    requires Stuck(m)
    ensures StaysStuck(m, CheckState(m))
  {
    hide DoSetUp;
    StuckDoSetUp(m);
  }

  lemma StuckSetEnabled(m: Machine, b: bool)
    requires Stuck(m)
    ensures StaysStuck(m, SetEnabled(m, b))
  {
    hide CheckState;
    StuckCheckState(m.(face := m.face.(enabled := b)));
  }

  lemma StuckSetLink(m: Machine, b: bool)
    requires Stuck(m)
    ensures StaysStuck(m, SetLink(m, b))
  {
    hide CheckState;
    StuckCheckState(m.(face := m.face.(linkState := b)));
  }

  lemma StuckClaimMain(m: Machine)
    requires Stuck(m)
    ensures StaysStuck(m, ClaimMain(m))
  {
    hide SetEnabled;
    StuckSetEnabled(Spend(Spend(m).(face := m.face.(claimed := true))), true);
  }

  lemma StuckSetUp(m: Machine)
    requires Stuck(m)
    ensures StaysStuck(m, SetUp(m))
  {
    hide ClaimMain, CheckState, DoSetUp;
    var m1 := m.(face := m.face.(autostart := true));
    StuckDoSetUp(m1);
    StuckClaimMain(m1);
    StuckCheckState(ClaimMain(m1));
  }

  lemma StuckSetAvailable(m: Machine, b: bool)
    requires Stuck(m)
    ensures StaysStuck(m, SetAvailable(m, b))
  {
    hide SetUp;
    StuckSetUp(m.(face := m.face.(available := b)));
  }

  // ----- when a request starts the setup script

  /** What a system call number `k` of the step gives. */
  predicate Outcome(luck: seq<bool>, k: nat)
  {
    k < |luck| ==> luck[k]
  }

  /** A request by the user gets as far as the setup script: the interface is available, the runner
      idle, and the device can be claimed and is, or comes, up with its link. */
  predicate Reaches(m: Machine, luck: seq<bool>)
  {
    && m.face.available && m.shell.sm == SIdle
    && (m.flags.hasDev ==>
          && LinkOk(m)
          && (if m.face.claimed then m.face.enabled else Outcome(luck, 0) && (m.face.enabled || Outcome(luck, 1))))
  }

  /** Whether the script can be started then. */
  predicate StartSucceeds(m: Machine, luck: seq<bool>)
  {
    Outcome(luck, if m.flags.hasDev && !m.face.claimed then 2 else 0)
  }

  /** A request by the user starts the setup script of an interface that is down exactly if it
      reaches the script and the script can be started. In every other case the interface stays
      down; it is left stuck exactly if the script was reached. */
  lemma BringUpStartsIff(m: Machine, luck: seq<bool>)
    requires Downed(m)
    ensures var r := Next(m, Happening(UserUp, luck));
            && (Started(r) <==> Reaches(m, luck) && StartSucceeds(m, luck))
            && (r.face.state == IfsDown <==> !Started(r)) && r.face.autostart && !r.face.freed
            && (if m.shell.sm == SIdle
                then Stuck(r) <==> Reaches(m, luck) && !StartSucceeds(m, luck) && !m.shell.proto
                else r.shell == m.shell)
  {
    hide DoSetUp, CheckState, ClaimMain, Reaches, StartSucceeds;
    var n := m.(luck := luck, face := m.face.(autostart := true));
    OutcomeIsLucky(luck);
    if n.face.available {
      if !n.flags.hasDev {
        DoSetUpIs(n);
        ReachesWithoutDevice(m, luck);
      } else if n.face.claimed {
        assert ClaimMain(n) == n by { ClaimedIs(n); }
        CheckStateIs(n);
        ReachesClaimed(m, luck);
      } else {
        ClaimIs(n);
        ReachesUnclaimed(m, luck);
      }
    } else {
      ReachesUnavailable(m, luck);
    }
  }

  predicate Started(r: Machine)
  {
    r.face.state == IfsSetup && r.shell.sm == SSetup && r.shell.script
  }

  /** What an attempt to start the script on an interface that is down ends in. */
  predicate Attempted(m: Machine, r: Machine, ok: bool)
  {
    && r.face == m.face.(state := r.face.state, linkEvent := r.face.linkEvent)
    && (if m.shell.sm != SIdle then r.face.state == IfsDown && r.shell == m.shell
        else if ok then Started(r)
        else Failed(m, r))
  }

  predicate Failed(m: Machine, r: Machine)
  {
    r.face.state == IfsDown && r.shell == m.shell.(sm := SSetup, script := false)
  }

  predicate Downed(m: Machine)
  {
    !m.face.freed && m.face.state == IfsDown
  }

  lemma DoSetUpIs(m: Machine)
    requires Downed(m)
    ensures Attempted(m, DoSetUp(m), Lucky(m.luck))
  {
  }

  lemma CheckStateIs(m: Machine)
    requires Downed(m) && m.face.available && m.face.autostart
    ensures if m.face.enabled && LinkOk(m) then Attempted(m, CheckState(m), Lucky(m.luck)) else CheckState(m) == m
  {
    hide DoSetUp;
    DoSetUpIs(m);
  }

  /** Looking again changes nothing. */
  lemma CheckStateAgain(m: Machine, r: Machine, ok: bool)
    requires Downed(m) && m.face.enabled && LinkOk(m) && Attempted(m, r, ok) && r.flags == m.flags
    ensures if Started(r) then CheckState(r) == r
            else CheckState(r).face.state == IfsDown && CheckState(r).shell == r.shell
    ensures CheckState(r).face.autostart == m.face.autostart && !CheckState(r).face.freed
  {
  }

  lemma ClaimedIs(m: Machine)
    requires m.face.claimed
    ensures ClaimMain(m) == m
  {
  }

  lemma FlagsKept(m: Machine)
    ensures CheckState(m).flags == m.flags
  {
  }

  /** Claiming the device, which may come up, and looking at the interface afterwards. */
  lemma ClaimIs(m: Machine)
    requires Downed(m) && m.face.available && m.face.autostart && !m.face.claimed
    ensures var c := ClaimMain(m);
            var r := if c.face.claimed then CheckState(c) else c;
            var on := Lucky(Spend(m).luck) || m.face.enabled;
            if Lucky(m.luck) && on && LinkOk(m)
            then (if m.shell.sm != SIdle then r.face.state == IfsDown && r.shell == m.shell
                  else if Lucky(Spend(Spend(m)).luck) then Started(r)
                  else Failed(m, r))
            else r.face.state == IfsDown && r.shell == m.shell
    ensures var c := ClaimMain(m);
            var r := if c.face.claimed then CheckState(c) else c;
            r.face.autostart && !r.face.freed
  {
    hide CheckState;
    if Lucky(m.luck) {
      var c := Spend(m).(face := m.face.(claimed := true));
      if Lucky(c.luck) && !m.face.enabled {
        var d := Spend(c).(face := c.face.(enabled := true));
        assert ClaimMain(m) == CheckState(d);
        CheckStateIs(d);
        if LinkOk(d) {
          FlagsKept(d);
          CheckStateAgain(d, CheckState(d), Lucky(d.luck));
        }
      } else {
        assert ClaimMain(m) == Spend(c);
        CheckStateIs(Spend(c));
      }
    }
  }

  lemma ReachesWithoutDevice(m: Machine, luck: seq<bool>)
    requires !m.flags.hasDev && m.face.available
    ensures Reaches(m, luck) <==> m.shell.sm == SIdle
    ensures StartSucceeds(m, luck) == Outcome(luck, 0)
  {
  }

  lemma ReachesClaimed(m: Machine, luck: seq<bool>)
    requires m.flags.hasDev && m.face.available && m.face.claimed
    ensures Reaches(m, luck) <==> m.shell.sm == SIdle && LinkOk(m) && m.face.enabled
    ensures StartSucceeds(m, luck) == Outcome(luck, 0)
  {
  }

  lemma ReachesUnclaimed(m: Machine, luck: seq<bool>)
    requires m.flags.hasDev && m.face.available && !m.face.claimed
    ensures Reaches(m, luck)
            <==> m.shell.sm == SIdle && LinkOk(m) && Outcome(luck, 0) && (m.face.enabled || Outcome(luck, 1))
    ensures StartSucceeds(m, luck) == Outcome(luck, 2)
  {
  }

  lemma ReachesUnavailable(m: Machine, luck: seq<bool>)
    requires !m.face.available
    ensures !Reaches(m, luck)
  {
  }

  lemma OutcomeIsLucky(luck: seq<bool>)
    ensures Lucky(luck) == Outcome(luck, 0)
    ensures Lucky(Rest(luck)) == Outcome(luck, 1)
    ensures Lucky(Rest(Rest(luck))) == Outcome(luck, 2)
  {
  }

  function Rest(luck: seq<bool>): seq<bool>
  {
    if luck == [] then [] else luck[1..]
  }

  // ----- when a reload ends stuck again

  /** The outcomes from the `k`th on */
  function From(luck: seq<bool>, k: nat): seq<bool>
  {
    if k <= |luck| then luck[k..] else []
  }

  lemma NextOutcome(luck: seq<bool>, k: nat)
    ensures Lucky(From(luck, k)) == Outcome(luck, k)
    ensures Rest(From(luck, k)) == From(luck, k + 1)
  {
  }

  /** The interface is down, its runner is new, and nothing was tried yet. */
  predicate Untried(m: Machine, luck: seq<bool>, k: nat)
  {
    Downed(m) && m.shell == FRESH_SHELL && m.luck == From(luck, k)
  }

  /** The script was started; the interface has not come down since. */
  predicate Away(m: Machine)
  {
    && !m.face.freed
    && (m.face.state == IfsTeardown || (m.face.state == IfsSetup && m.shell.sm == SSetup && m.shell.script))
  }

  /** How the attempt to start the script went */
  predicate Settled(m: Machine, ok: bool)
  {
    if ok then Away(m) else Stuck(m) && !m.shell.timer
  }

  /** What the rest of the reload does to an interface whose script was tried. */
  lemma SettledStays(m: Machine, ok: bool, b: bool)
    requires Settled(m, ok)
    ensures Settled(Spend(m), ok) && Settled(SetEnabled(m, b), ok) && Settled(SetLink(m, b), ok)
    ensures Settled(CheckState(m), ok) && Settled(Autostart(m), ok)
  {
    if ok {
      AwayStays(m, b);
    } else {
      StuckSetEnabled(m, b);
      StuckSetLink(m, b);
      StuckCheckState(m);
      StuckSetUp(m);
    }
  }

  lemma AwayStays(m: Machine, b: bool)
    requires Away(m)
    ensures Away(CheckState(m)) && Away(SetEnabled(m, b)) && Away(SetLink(m, b)) && Away(Autostart(m))
  {
    hide CheckState;
    AwayCheckState(m);
    AwayCheckState(m.(face := m.face.(enabled := b)));
    AwayCheckState(m.(face := m.face.(linkState := b)));
  }

  lemma AwayCheckState(m: Machine)
    requires Away(m)
    ensures Away(CheckState(m))
  {
  }

  /** A look at the interface while nothing was tried: the script is tried if all is ready. */
  lemma Look(m: Machine, luck: seq<bool>, k: nat)
    requires Untried(m, luck, k)
    ensures var r := CheckState(m);
            if m.face.available && m.face.autostart && m.face.enabled && LinkOk(m)
            then Settled(r, Outcome(luck, k)) else r == m
  {
    NextOutcome(luck, k);
  }

  /** The device reports that it is up. */
  lemma ReportUp(m: Machine, luck: seq<bool>, k: nat)
    requires Untried(m, luck, k)
    ensures var r := if Lucky(m.luck) then SetEnabled(Spend(m), true) else Spend(m);
            var n := m.(luck := From(luck, k + 1), face := m.face.(enabled := m.face.enabled || Outcome(luck, k)));
            if m.face.available && m.face.autostart && LinkOk(m) && !m.face.enabled && Outcome(luck, k)
            then Settled(r, Outcome(luck, k + 1)) else r == n && Untried(n, luck, k + 1)
  {
    hide CheckState;
    NextOutcome(luck, k);
    var n := Spend(m).(face := m.face.(enabled := true));
    Look(n, luck, k + 1);
  }

  /** The device reports its link. */
  lemma ReportLink(m: Machine, luck: seq<bool>, k: nat)
    requires Untried(m, luck, k) && !m.face.linkState
    ensures var r := if Lucky(m.luck) then SetLink(Spend(m), true) else Spend(m);
            if m.face.available && m.face.autostart && m.face.enabled && Outcome(luck, k)
            then Settled(r, Outcome(luck, k + 1))
            else Untried(r, luck, k + 1) && r.flags == m.flags
                 && r.face == m.face.(linkState := Outcome(luck, k))
  {
    hide CheckState;
    NextOutcome(luck, k);
    var n := Spend(m).(face := m.face.(linkState := true));
    Look(n, luck, k + 1);
    SettledEmits(CheckState(n), Outcome(luck, k + 1));
  }

  lemma SettledEmits(m: Machine, ok: bool)
    ensures Settled(m, ok) ==> forall b, e :: Settled(Emit(m, e).(face := m.face.(linkEvent := b)), ok)
    ensures Settled(m, ok) ==> forall e :: Settled(Emit(m, e), ok)
  {
  }

  /** The main device is claimed, and the interface looked at. */
  lemma ClaimAndLook(m: Machine, luck: seq<bool>, k: nat)
    requires Untried(m, luck, k) && m.face.available && m.face.autostart && m.flags.hasDev && !m.face.claimed
    ensures var r := SetUp(m);
            var up := m.face.enabled || Outcome(luck, k + 1);
            if !Outcome(luck, k) then r == m.(luck := From(luck, k + 1)) && Untried(r, luck, k + 1)
            else if up && LinkOk(m) then Settled(r, Outcome(luck, k + 2))
            else r == m.(luck := From(luck, k + 2), face := m.face.(claimed := true, enabled := up))
                 && Untried(r, luck, k + 2)
  {
    hide CheckState, DoSetUp;
    NextOutcome(luck, k);
    NextOutcome(luck, k + 1);
    assert m.(face := m.face.(autostart := true)) == m;
    if Outcome(luck, k) {
      var c := Spend(m).(face := m.face.(claimed := true));
      var d := ClaimMain(m);
      ReportUp(c, luck, k + 1);
      assert SetUp(m) == CheckState(d) by { ClaimKeeps(m); }
      if Settled(d, Outcome(luck, k + 2)) && !m.face.enabled && Outcome(luck, k + 1) && LinkOk(m) {
        SettledStays(d, Outcome(luck, k + 2), true);
      } else {
        Look(d, luck, k + 2);
      }
    }
  }

  lemma ClaimKeeps(m: Machine)
    requires !m.face.claimed && Lucky(m.luck)
    ensures ClaimMain(m).face.claimed
  {
    var c := Spend(m).(face := m.face.(claimed := true));
    CheckStateKeepsClaim(c.(face := c.face.(enabled := true)));
    CheckStateKeepsClaim(Spend(c).(face := c.face.(enabled := true)));
  }

  lemma CheckStateKeepsClaim(m: Machine)
    ensures CheckState(m).face.claimed == m.face.claimed
  {
  }

  /** The reload releases the device first, which may go down then. */
  predicate Releases(m: Machine)
  {
    m.face.available && m.flags.hasDev && m.face.claimed
  }

  /** The device is still enabled after that. */
  predicate StillEnabled(m: Machine, luck: seq<bool>)
  {
    m.face.enabled && !(Releases(m) && Outcome(luck, 0))
  }

  /** The interface right after the clean-up */
  lemma CleanedUp(m: Machine, luck: seq<bool>)
    requires Downed(m) && m.luck == luck
    ensures var r := SetLink(Cleanup(m), false);
            && Untried(r, From(luck, if Releases(m) then 1 else 0), 0) && r.flags == m.flags
            && r.face == m.face.(available := false, claimed := false, linkState := false,
                                 enabled := StillEnabled(m, luck))
  {
    NextOutcome(luck, 0);
  }

  /** The number of the outcome that decides about the first start of the script in a reload of an
      interface that is to start by itself, counted from the one that says whether the device is
      there; none if the script is not reached. `on` says whether the device is enabled before. */
  function FirstStart(flags: Flags, on: bool, luck: seq<bool>): Option<nat>
  {
    if !Outcome(luck, 0) then None                                                     // no device
    else if !flags.hasDev then Some(1)
    else if Outcome(luck, 1) then                                                      // claimed at once
      if flags.forceLink && (on || Outcome(luck, 2)) then Some(3)
      else if flags.forceLink && Outcome(luck, 3) then Some(4)
      else if Outcome(luck, 4) && (on || Outcome(luck, 2) || Outcome(luck, 3)) then Some(5)
      else None
    else if flags.forceLink && !on && Outcome(luck, 2) then Some(3)                    // up, not claimed
    else if Outcome(luck, 3) && (on || Outcome(luck, 2)) then Some(4)
    else if Outcome(luck, 4) && (on || Outcome(luck, 2) || Outcome(luck, 5)) && (flags.forceLink || Outcome(luck, 3))
    then Some(6)                                                                       // claimed at last
    else None
  }

  /** The part of the reload after the clean-up, up to and including the start by itself */
  function Resume(m: Machine): Machine
  {
    var m2 := if Lucky(m.luck) then SetAvailable(Spend(m), true) else Spend(m);
    ReportsFrom(m2)
  }

  function ReportsFrom(m2: Machine): Machine
  {
    var m3 := if Lucky(m2.luck) then SetEnabled(Spend(m2), true) else Spend(m2);
    Autostart(if Lucky(m3.luck) then SetLink(Spend(m3), true) else Spend(m3))
  }

  lemma SettledReports(m2: Machine, ok: bool)
    requires Settled(m2, ok)
    ensures Settled(ReportsFrom(m2), ok)
  {
    hide SetEnabled, SetLink, Autostart, Settled;
    SettledStays(m2, ok, true);
    SettledStays(Spend(m2), ok, true);
    var m3 := if Lucky(m2.luck) then SetEnabled(Spend(m2), true) else Spend(m2);
    SettledStays(m3, ok, true);
    SettledStays(Spend(m3), ok, true);
    SettledStays(if Lucky(m3.luck) then SetLink(Spend(m3), true) else Spend(m3), ok, true);
  }

  /** The reports of a device that is there, while nothing was tried: outcome `k` says whether it is
      up, the next whether it has its link, and the later ones whether it can be claimed and is up. */
  function ReportedStart(m: Machine, luck: seq<bool>, k: nat): Option<nat>
  {
    var on := m.face.enabled || Outcome(luck, k);
    if m.flags.forceLink && !m.face.enabled && Outcome(luck, k) then Some(k + 1)
    else if Outcome(luck, k + 1) && on then Some(k + 2)
    else if m.face.claimed then (if on && m.flags.forceLink then Some(k + 2) else None)
    else if Outcome(luck, k + 2) && (on || Outcome(luck, k + 3)) && (m.flags.forceLink || Outcome(luck, k + 1))
    then Some(k + 4)
    else None
  }

  ghost predicate Ends(r: Machine, luck: seq<bool>, start: Option<nat>)
  {
    match start
    case Some(k) => Settled(r, Outcome(luck, k))
    case None => Downed(r) && r.shell.sm == SIdle
  }

  lemma Reports(m: Machine, luck: seq<bool>, k: nat)
    requires Untried(m, luck, k) && m.face.available && m.face.autostart && m.flags.hasDev && !m.face.linkState
    ensures Ends(ReportsFrom(m), luck, ReportedStart(m, luck, k))
  {
    hide SetEnabled, SetLink, SetUp, Settled, CheckState;
    NextOutcome(luck, k);
    ReportUp(m, luck, k);
    var m3 := if Lucky(m.luck) then SetEnabled(Spend(m), true) else Spend(m);
    if m.flags.forceLink && !m.face.enabled && Outcome(luck, k) {
      SettledRest(m3, Outcome(luck, k + 1));
    } else {
      LinkReport(m3, luck, k + 1);
    }
  }

  lemma SettledRest(m3: Machine, ok: bool)
    requires Settled(m3, ok)
    ensures Settled(Autostart(if Lucky(m3.luck) then SetLink(Spend(m3), true) else Spend(m3)), ok)
  {
    hide SetLink, Autostart, Settled;
    SettledStays(m3, ok, true);
    SettledStays(Spend(m3), ok, true);
    SettledStays(if Lucky(m3.luck) then SetLink(Spend(m3), true) else Spend(m3), ok, true);
  }

  function LinkedStart(m: Machine, luck: seq<bool>, k: nat): Option<nat>
  {
    if Outcome(luck, k) && m.face.enabled then Some(k + 1)
    else if m.face.claimed then (if m.face.enabled && m.flags.forceLink then Some(k + 1) else None)
    else if Outcome(luck, k + 1) && (m.face.enabled || Outcome(luck, k + 2)) && (m.flags.forceLink || Outcome(luck, k))
    then Some(k + 3)
    else None
  }

  lemma LinkReport(m: Machine, luck: seq<bool>, k: nat)
    requires Untried(m, luck, k) && m.face.available && m.face.autostart && m.flags.hasDev && !m.face.linkState
    ensures Ends(Autostart(if Lucky(m.luck) then SetLink(Spend(m), true) else Spend(m)), luck, LinkedStart(m, luck, k))
  {
    hide SetLink, CheckState, Settled;
    ReportLink(m, luck, k);
    var r := if Lucky(m.luck) then SetLink(Spend(m), true) else Spend(m);
    if Outcome(luck, k) && m.face.enabled {
      hide SetUp;
      SettledStays(r, Outcome(luck, k + 1), true);
    } else if m.face.claimed {
      ClaimedIs(r.(face := r.face.(autostart := true)));
      Look(r, luck, k + 1);
      assert r.(face := r.face.(autostart := true)) == r;
      assert Autostart(r) == CheckState(r);
    } else {
      hide SetUp;
      ClaimAndLook(r, luck, k + 1);
    }
  }

  lemma Resumes(m: Machine, luck: seq<bool>)
    requires Untried(m, luck, 0) && m.face.autostart && !m.face.available && !m.face.claimed && !m.face.linkState
    ensures Ends(Resume(m), luck, FirstStart(m.flags, m.face.enabled, luck))
  {
    hide SetEnabled, SetLink, SetUp, Settled, CheckState, ReportsFrom;
    NextOutcome(luck, 0);
    var n := Spend(m).(face := m.face.(available := true));
    if !Outcome(luck, 0) {
      RestingReports(Spend(m));
    } else if !m.flags.hasDev {
      StartsAtOnce(n, luck);
      SettledReports(SetUp(n), Outcome(luck, 1));
    } else {
      ClaimAndLook(n, luck, 1);
      var r := SetUp(n);
      if Outcome(luck, 1) && (m.face.enabled || Outcome(luck, 2)) && m.flags.forceLink {
        SettledReports(r, Outcome(luck, 3));
      } else {
        Reports(r, luck, if Outcome(luck, 1) then 3 else 2);
      }
    }
  }

  lemma StartsAtOnce(n: Machine, luck: seq<bool>)
    requires Untried(n, luck, 1) && n.face.available && n.face.autostart && !n.flags.hasDev
    ensures Settled(SetUp(n), Outcome(luck, 1))
  {
    NextOutcome(luck, 1);
  }

  /** The interface is not to start by itself, or its device is not there: nothing is tried. */
  predicate Resting(m: Machine)
  {
    Downed(m) && !(m.face.autostart && m.face.available) && m.shell.sm == SIdle
  }

  lemma RestingStays(m: Machine)
    requires Resting(m)
    ensures Resting(Spend(m)) && Resting(SetEnabled(m, true)) && Resting(SetLink(m, true)) && Autostart(m) == m
    ensures !m.face.autostart ==> Resting(SetAvailable(m, true))
  {
    hide DoSetUp;
  }

  lemma RestingReports(m2: Machine)
    requires Resting(m2)
    ensures Resting(ReportsFrom(m2))
  {
    hide SetEnabled, SetLink, Autostart, Resting;
    RestingStays(m2);
    RestingStays(Spend(m2));
    var m3 := if Lucky(m2.luck) then SetEnabled(Spend(m2), true) else Spend(m2);
    RestingStays(m3);
    RestingStays(Spend(m3));
    RestingStays(if Lucky(m3.luck) then SetLink(Spend(m3), true) else Spend(m3));
  }

  lemma NoAutostart(m: Machine)
    requires Downed(m) && !m.face.autostart && m.shell.sm == SIdle
    ensures Resting(Resume(m))
  {
    hide SetAvailable, ReportsFrom;
    RestingStays(m);
    RestingStays(Spend(m));
    RestingReports(if Lucky(m.luck) then SetAvailable(Spend(m), true) else Spend(m));
  }

  /** A reload of an interface that is down leaves it stuck. */
  predicate SticksAgain(m: Machine, luck: seq<bool>)
  {
    var later := From(luck, if Releases(m) then 1 else 0);
    var start := FirstStart(m.flags, StillEnabled(m, luck), later);
    m.face.autostart && start.Some? && !Outcome(later, start.value)
  }

  /** A reload of an interface that is down leaves it stuck exactly if the interface is to start by
      itself, what the device reports lets it reach the script, and the first start fails. It comes up
      exactly if the first start succeeds. */
  lemma ReloadSticksIff(m: Machine, luck: seq<bool>)
    requires Downed(m)
    ensures var r := Next(m, Happening(Reconfigured(false), luck));
            var later := From(luck, if Releases(m) then 1 else 0);
            var start := FirstStart(m.flags, StillEnabled(m, luck), later);
            && (Stuck(r) <==> SticksAgain(m, luck)) && (Stuck(r) ==> !r.shell.timer)
            && (r.face.state != IfsDown <==> m.face.autostart && start.Some? && Outcome(later, start.value))
  {
    hide Cleanup, SetEnabled, SetLink, SetUp, Resume, FirstStart;
    var n := m.(luck := luck, face := m.face.(config := IfcNormal));
    CleanedUp(n, luck);
    var c := SetLink(Cleanup(n), false);
    assert Next(m, Happening(Reconfigured(false), luck)) == Resume(c) by { ReloadIs(m, luck); }
    if m.face.autostart {
      Resumes(c, From(luck, if Releases(m) then 1 else 0));
    } else {
      NoAutostart(c);
    }
  }

  lemma ReloadIs(m: Machine, luck: seq<bool>)
    requires Downed(m)
    ensures var n := m.(luck := luck, face := m.face.(config := IfcNormal));
            Next(m, Happening(Reconfigured(false), luck)) == Resume(SetLink(Cleanup(n), false))
  {
    hide Cleanup, SetEnabled, SetLink, SetUp, SetAvailable;
  }

  // ----- what gets a stuck interface out

  lemma QuietlyVia(m: Machine, n: Machine, r: Machine)
    requires Quietly(m, n) && Quietly(n, r)
    ensures Quietly(m, r)
  {
    var a, b, c := m.trace.events, n.trace.events, r.trace.events;
    forall k | |a| <= k < |c| ensures c[k] in {UpFailed, LinkUp} {
      if k < |b| {
        assert c[k] == b[k];
      }
    }
  }

  /** While the interface is not up, the steps of a reload raise no more than that. */
  ghost predicate QuietStep(m: Machine, r: Machine)
  {
    r.face.state != IfsUp && Quietly(m, r)
  }

  lemma QuietCheckState(m: Machine)
    requires m.face.state != IfsUp
    ensures QuietStep(m, CheckState(m))
  {
  }

  lemma QuietSetLink(m: Machine, b: bool)
    requires m.face.state != IfsUp
    ensures QuietStep(m, SetLink(m, b)) && QuietStep(m, SetEnabled(m, b))
  {
    hide CheckState;
    QuietCheckState(m.(face := m.face.(linkState := b)));
    QuietCheckState(m.(face := m.face.(enabled := b)));
  }

  lemma QuietSetUp(m: Machine)
    requires m.face.state != IfsUp
    ensures QuietStep(m, SetUp(m))
  {
    hide CheckState, DoSetUp, SetEnabled, Quietly;
    var m1 := m.(face := m.face.(autostart := true));
    QuietDoSetUp(m1);
    QuietlyFrame(m, m1, DoSetUp(m1));
    var c := ClaimMain(m1);
    var d := Spend(Spend(m1).(face := m1.face.(claimed := true)));
    QuietSetLink(d, true);
    QuietlyFrame(m, d, SetEnabled(d, true));
    if !m.face.claimed && Lucky(m1.luck) && Lucky(Spend(m1).luck) {
      assert c == SetEnabled(d, true);
    } else {
      QuietlyFrame(m, c, c);
    }
    QuietCheckState(c);
    QuietlyVia(m, c, CheckState(c));
  }

  lemma QuietDoSetUp(m: Machine)
    ensures QuietStep(m, DoSetUp(m))
  {
  }

  lemma QuietlyFrame(m: Machine, n: Machine, r: Machine)
    requires m.flags == n.flags && m.trace == n.trace
    ensures Quietly(n, r) ==> Quietly(m, r)
    ensures Quietly(m, n)
  {
  }

  lemma QuietReports(m2: Machine)
    requires m2.face.state != IfsUp
    ensures QuietStep(m2, ReportsFrom(m2))
  {
    hide SetEnabled, SetLink, SetUp, Quietly;
    QuietSetLink(Spend(m2), true);
    QuietlyFrame(m2, Spend(m2), SetEnabled(Spend(m2), true));
    var m3 := if Lucky(m2.luck) then SetEnabled(Spend(m2), true) else Spend(m2);
    QuietSetLink(Spend(m3), true);
    QuietlyFrame(m3, Spend(m3), SetLink(Spend(m3), true));
    var m4 := if Lucky(m3.luck) then SetLink(Spend(m3), true) else Spend(m3);
    QuietSetUp(m4);
    QuietlyFrame(m4, m4, m4);
    QuietlyVia(m2, m3, m4);
    QuietlyVia(m2, m4, Autostart(m4));
  }

  lemma QuietReload(m: Machine, luck: seq<bool>)
    requires Downed(m)
    ensures QuietStep(m, Next(m, Happening(Reconfigured(false), luck)))
  {
    hide SetEnabled, SetLink, SetUp, Quietly, ReportsFrom, Cleanup, Resume;
    var n := m.(luck := luck, face := m.face.(config := IfcNormal));
    ReloadIs(m, luck);
    CleanupIsQuiet(n);
    var c := SetLink(Cleanup(n), false);
    QuietlyFrame(m, n, c);
    QuietResume(c);
    QuietlyVia(m, c, Resume(c));
  }

  lemma CleanupIsQuiet(n: Machine)
    requires Downed(n)
    ensures QuietStep(n, SetLink(Cleanup(n), false))
  {
    hide CheckState;
    var c := Cleanup(n);
    assert c.trace == n.trace && c.face.state == IfsDown && c.flags == n.flags;
    QuietSetLink(c, false);
  }

  lemma QuietResume(m: Machine)
    requires m.face.state != IfsUp
    ensures QuietStep(m, Resume(m))
  {
    hide SetUp, Quietly, ReportsFrom;
    var n := Spend(m).(face := m.face.(available := true));
    QuietSetUp(n);
    QuietlyFrame(m, n, SetUp(n));
    QuietlyFrame(m, n, n);
    QuietlyFrame(m, Spend(m), Spend(m));
    var m2 := if Lucky(m.luck) then SetAvailable(Spend(m), true) else Spend(m);
    QuietReports(m2);
    QuietlyVia(m, m2, ReportsFrom(m2));
  }

  /** The events that get a stuck runner out of its setup state: its checkup timeout, a renewal or a
      command that starts a process, a lost L3 device, what scripts and users tell it, and a reload,
      unless the interface is to start by itself and the first start fails. */
  predicate Leaves(m: Machine, e: Happening)
  {
    match e.step
    case CheckupFired => m.shell.checkup && m.face.autostart
    case Renewed => m.flags.renew && Lucky(e.luck)
    case RunNotified => Lucky(e.luck)
    case LinkUpNotified(_) => Lucky(e.luck)
    case SetupFailedNotified => true
    case L3LinkDown => true
    case Reconfigured(remove) => remove || !SticksAgain(m, e.luck)
    case _ => false
  }

  /** An event gets a stuck interface out exactly if it is one of those. Every other event, bring-up
      requests among them, leaves it stuck and raises at most failures and link events. */
  lemma StuckUnlessLeaves(m: Machine, e: Happening)
    requires Stuck(m) && TimerOk(m.shell)
    ensures Stuck(Next(m, e)) <==> !Leaves(m, e)
    ensures !Leaves(m, e) ==> StaysStuck(m, Next(m, e))
  {
    hide SetAvailable, SetEnabled, SetLink, SetUp, SticksAgain;
    var n := m.(luck := e.luck);
    match e.step
    case Available(b) => StuckSetAvailable(n, b);
    case Enabled(b) => StuckSetEnabled(n, b);
    case Link(b) => StuckSetLink(n, b);
    case UserUp => StuckSetUp(n);
    case Reconfigured(remove) =>
      LeavesByConfig(n);
      if !remove {
        hide Next;
        ReloadSticksIff(m, e.luck);
        QuietReload(m, e.luck);
      }
    case _ =>
  }

  lemma LeavesByConfig(m: Machine)
    requires Stuck(m)
    ensures SetConfig(m, IfcRemove).face.freed
  {
    hide Cleanup;
  }

  /** Over every run: the interface is stuck until such an event comes, whatever else happens. */
  lemma {:induction false} StuckUntilLeaves(m: Machine, es: seq<Happening>)
    requires Stuck(m) && TimerOk(m.shell)
    requires forall k :: 0 <= k < |es| ==> !Leaves(RunFrom(m, es[..k]), es[k])
    ensures StaysStuck(m, RunFrom(m, es))
  {
    hide Next, Leaves;
    if es != [] {
      var n := |es| - 1;
      forall k | 0 <= k < n ensures !Leaves(RunFrom(m, es[..n][..k]), es[..n][k]) {
        assert es[..n][..k] == es[..k];
      }
      StuckUntilLeaves(m, es[..n]);
      var r := RunFrom(m, es[..n]);
      assert !Leaves(r, es[n]);
      StuckUnlessLeaves(r, es[n]);
      StuckCompose(m, r, Next(r, es[n]));
    }
  }

  lemma StuckCompose(m: Machine, r: Machine, t: Machine)
    requires StaysStuck(m, r) && StaysStuck(r, t)
    ensures StaysStuck(m, t)
  {
    QuietlyVia(m, r, t);
  }

  // ----- how it begins and how it ends

  /** Every new interface gets stuck when its device is linked, becomes available and can be claimed,
      and its script cannot be started. */
  lemma StuckIsReached(flags: Flags)
    ensures var start := if flags.hasDev then [true, true, false] else [false];
            Stuck(RunFrom(Initial(flags), [Happening(Link(true), []), Happening(Available(true), start)]))
  {
    hide Next;
    var start := if flags.hasDev then [true, true, false] else [false];
    var e1, e2 := Happening(Link(true), []), Happening(Available(true), start);
    assert [e1, e2][..1] == [e1] && [e1][..0] == [];
    var m := Initial(flags);
    LinkArrives(m);
    var n := Next(m, e1);
    assert RunFrom(m, [e1]) == Next(RunFrom(m, []), e1) == n;
    assert RunFrom(m, [e1, e2]) == Next(RunFrom(m, [e1]), e2);
    BecomesAvailable(n, start);
    BringUpStartsIff(n.(face := n.face.(available := true)), start);
  }

  lemma LinkArrives(m: Machine)
    requires Downed(m) && !m.face.available && !m.face.linkState
    ensures Next(m, Happening(Link(true), [])) == Emit(m, LinkUp).(luck := [], face := m.face.(linkState := true))
  {
  }

  lemma BecomesAvailable(m: Machine, luck: seq<bool>)
    requires Downed(m) && !m.face.available && m.face.autostart
    ensures Next(m, Happening(Available(true), luck))
            == Next(m.(face := m.face.(available := true)), Happening(UserUp, luck))
  {
    hide SetUp;
  }

  /** The way out without a reload: when the handler reports that setup failed, the runner tears
      down and is idle again after the teardown timeout, so that requests start the script whenever
      they reach it. */
  lemma FailureReportFreesRunner(m: Machine, l1: seq<bool>, l2: seq<bool>)
    requires Stuck(m)
    ensures var r := Next(Next(m, Happening(SetupFailedNotified, l1)), Happening(TimerFired, l2));
            && r.face == m.face && r.shell.sm == SIdle && !r.shell.script && !r.shell.proto
            && r.trace.events == m.trace.events
            && forall luck :: Started(Next(r, Happening(UserUp, luck))) <==> Reaches(r, luck) && StartSucceeds(r, luck)
  {
    var t := Next(m, Happening(SetupFailedNotified, l1));
    assert t.shell.sm == STeardown && t.shell.timer && t.face == m.face && t.trace == m.trace;
    var r := Next(t, Happening(TimerFired, l2));
    forall luck ensures Started(Next(r, Happening(UserUp, luck))) <==> Reaches(r, luck) && StartSucceeds(r, luck) {
      BringUpStartsIff(r, luck);
    }
  }

  /** A request is lost, without any failed start, when it comes while the runner of an interface
      that is down is being torn down: it finds the runner busy, and the IFPEV_DOWN at the end of the
      teardown is ignored. Nothing is left that would try again. */
  lemma RequestDuringTeardownIsLost(m: Machine, l1: seq<bool>, l2: seq<bool>, l3: seq<bool>)
    requires Downed(m) && m.shell.sm == SIdle
    ensures var a := Next(m, Happening(SetupFailedNotified, l1));
            var b := Next(a, Happening(UserUp, l2));
            var r := Next(b, Happening(TimerFired, l3));
            && Downed(r) && r.face.autostart && r.shell.sm == SIdle
            && !r.shell.script && !r.shell.proto && !r.shell.timer
  {
    var a := Next(m, Happening(SetupFailedNotified, l1));
    assert a.face == m.face && a.shell.sm == STeardown && a.shell.timer;
    BringUpStartsIff(a, l2);
    var b := Next(a, Happening(UserUp, l2));
    AtTimeout(b, l3);
  }

  lemma AtTimeout(m: Machine, luck: seq<bool>)
    requires Downed(m) && m.shell.sm == STeardown && m.shell.timer
    ensures var r := Next(m, Happening(TimerFired, luck));
            && r.face == m.face && r.shell.sm == SIdle && !r.shell.script && !r.shell.proto && !r.shell.timer
  {
  }
}
