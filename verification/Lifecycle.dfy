/** An interface and its shell protocol handler (interface.c, proto-shell.c).

    Two coupled state machines: the interface (`IFS_*`) and the handler's script runner
    (`S_*`). Each event of the event loop is one atomic step. Whether a process can be
    started, a device claimed, and so on, comes from outside as a sequence of outcomes.
 */
module Lifecycle {
  import opened HotplugQueue
  import opened Options

  datatype IfState = IfsSetup | IfsUp | IfsTeardown | IfsDown
  datatype Sm = SIdle | SSetup | SSetupAbort | STeardown
  datatype Config = IfcNormal | IfcReload | IfcRemove
  datatype Task = NoTask | ScriptTask | ProtoTask

  /** The handler's flags and the interface options that a run does not change. */
  datatype Flags = Flags(hasDev: bool, forceLink: bool, dynamic: bool, noTask: bool, renew: bool, checkup: bool)

  /** The fields of `struct interface` that steer it. */
  datatype Face = Face(
    state: IfState, available: bool, autostart: bool, enabled: bool,
    linkState: bool, linkEvent: bool, claimed: bool, config: Config, freed: bool)

  /** The fields of `struct proto_shell_state`: `script` and `proto` say whether the two
      processes are live, `timer` and `checkup` whether the timeouts are armed. */
  datatype Shell = Shell(sm: Sm, script: bool, proto: bool, timer: bool, checkup: bool, renewPending: bool)

  /** What was said so far: the interface events, how often IFPEV_DOWN was sent, and how often
      while a process was live. */
  datatype Trace = Trace(events: seq<Event>, downs: nat, dirtyDowns: nat)

  /** `luck` are the outcomes of system calls still to come in the current step. */
  datatype Machine = Machine(flags: Flags, face: Face, shell: Shell, trace: Trace, luck: seq<bool>)

  const FRESH_SHELL := Shell(SIdle, false, false, false, false, false)

  function Initial(flags: Flags): Machine
  {
    Machine(flags, Face(IfsDown, false, true, false, false, false, false, IfcNormal, false),
            FRESH_SHELL, Trace([], 0, 0), [])
  }

  predicate Lucky(luck: seq<bool>)
  {
    luck == [] || luck[0]
  }

  function Spend(m: Machine): Machine
  {
    m.(luck := if m.luck == [] then [] else m.luck[1..])
  }

  function Say(t: Trace, ev: Event): Trace
  {
    t.(events := t.events + [ev])
  }

  function Emit(m: Machine, ev: Event): Machine
  {
    m.(trace := Say(m.trace, ev))
  }

  function WithState(m: Machine, st: IfState): Machine
  {
    m.(face := m.face.(state := st))
  }

  // ----- proto-shell.c: the commands

  /** PROTO_CMD_TEARDOWN needs a process. */
  predicate StartsTeardown(sh: Shell)
  {
    sh.sm == SIdle || (sh.sm == SSetup && !sh.script)
  }

  /** proto_shell_handler, PROTO_CMD_TEARDOWN. `started` tells whether netifd_start_process,
      which kills an old script first, could start the teardown script. */
  function ShellTeardown(sh: Shell, started: bool): Shell
  {
    if StartsTeardown(sh) then sh.(renewPending := false, sm := STeardown, timer := true, script := started)
    else if sh.sm == SSetup then sh.(timer := true, renewPending := false, sm := SSetupAbort)
    else sh
  }

  function ProtoTeardown(m: Machine): Machine
  {
    if StartsTeardown(m.shell) then Spend(m).(shell := ShellTeardown(m.shell, Lucky(m.luck)))
    else m.(shell := ShellTeardown(m.shell, false))
  }

  /** proto_shell_handler, PROTO_CMD_SETUP, in the idle state */
  function ShellSetup(sh: Shell, started: bool): Shell
  {
    sh.(sm := SSetup, script := started)
  }

  /** proto_shell_handler, PROTO_CMD_RENEW */
  function ProtoRenew(m: Machine): Machine
  {
    if !m.flags.renew then m
    else if m.shell.script then m.(shell := m.shell.(renewPending := true))
    else Spend(m).(shell := m.shell.(renewPending := false, script := Lucky(m.luck)))
  }

  // ----- interface.c

  /** mark_interface_down */
  function MarkDown(m: Machine): Machine
  {
    if m.face.state == IfsDown then m
    else
      Machine(m.flags, m.face.(linkEvent := false, state := IfsDown), m.shell,
              Say(m.trace, if m.face.state == IfsSetup then UpFailed else Down), m.luck)
  }

  /** __interface_set_up; the handler refuses unless it is idle, and fails when the setup script
      cannot be started. */
  function DoSetUp(m: Machine): Machine
  {
    var m1 := WithState(m, IfsSetup);
    if m.shell.sm != SIdle then MarkDown(m1)
    else
      var m2 := Spend(m1).(shell := ShellSetup(m.shell, Lucky(m.luck)));
      if Lucky(m.luck) then m2 else MarkDown(m2)
  }

  function LinkOk(m: Machine): bool
  {
    m.face.linkState || m.flags.forceLink
  }

  function BeginTeardown(m: Machine): Machine
  {
    m.(face := m.face.(state := IfsTeardown, config := if m.flags.dynamic then IfcRemove else m.face.config))
  }

  /** interface_check_state */
  function CheckState(m: Machine): Machine
  {
    match m.face.state
    case IfsUp => if !m.face.enabled || !LinkOk(m) then ProtoTeardown(BeginTeardown(m)) else m
    case IfsSetup => if !m.face.enabled || !LinkOk(m) then ProtoTeardown(BeginTeardown(m)) else m
    case IfsDown => if m.face.available && m.face.autostart && m.face.enabled && LinkOk(m) then DoSetUp(m) else m
    case IfsTeardown => m
  }

  /** interface_set_enabled */
  function SetEnabled(m: Machine, b: bool): Machine
  {
    if m.face.enabled == b then m else CheckState(m.(face := m.face.(enabled := b)))
  }

  /** interface_set_link_state */
  function SetLink(m: Machine, b: bool): Machine
  {
    if m.face.linkState == b then m
    else
      var m1 := CheckState(m.(face := m.face.(linkState := b)));
      var first := b && m1.flags.forceLink && m1.face.state == IfsUp && !m1.face.linkEvent;
      var m2 := if first then Emit(m1, LinkUp).(face := m1.face.(linkEvent := true)) else m1;
      Emit(m2, LinkUp)
  }

  /** device_claim on the main device; the device may report that it came up. */
  function ClaimMain(m: Machine): Machine
  {
    if m.face.claimed then m
    else if !Lucky(m.luck) then Spend(m)
    else
      var m1 := Spend(m).(face := m.face.(claimed := true));
      if Lucky(m1.luck) then SetEnabled(Spend(m1), true) else Spend(m1)
  }

  /** device_release on the main device, with the interface down; the device may report that
      it went down. */
  function ReleaseMain(m: Machine): Machine
  {
    if !m.flags.hasDev || !m.face.claimed then m
    else Spend(m).(face := m.face.(claimed := false, enabled := m.face.enabled && !Lucky(m.luck)))
  }

  /** interface_set_up */
  function SetUp(m: Machine): Machine
  {
    var m1 := m.(face := m.face.(autostart := true));
    if m1.face.state != IfsDown || !m1.face.available then m1
    else if !m1.flags.hasDev then DoSetUp(m1)
    else
      var m2 := ClaimMain(m1);
      if m2.face.claimed then CheckState(m2) else m2
  }

  /** __interface_set_down */
  function DoSetDown(m: Machine): Machine
  {
    match m.face.state
    case IfsUp => ProtoTeardown(Emit(BeginTeardown(m), Down))
    case IfsSetup => ProtoTeardown(BeginTeardown(m))
    case IfsDown => ReleaseMain(m)
    case IfsTeardown => m
  }

  /** interface_set_available */
  function SetAvailable(m: Machine, b: bool): Machine
  {
    if m.face.available == b then m
    else
      var m1 := m.(face := m.face.(available := b));
      if !b then DoSetDown(m1) else if m1.face.autostart then SetUp(m1) else m1
  }

  /** interface_cleanup_state: the protocol state goes, with its processes and timers. */
  function Cleanup(m: Machine): Machine
  {
    var m1 := SetAvailable(m, false);
    m1.(shell := FRESH_SHELL, face := m1.face.(state := IfsDown, claimed := false))
  }

  /** interface_do_reload: a fresh protocol state, and the device attached anew, which may
      report that it is there, up, and linked. */
  function Reload(m: Machine): Machine
  {
    var m1 := SetLink(Cleanup(m), false);
    var m2 := if Lucky(m1.luck) then SetAvailable(Spend(m1), true) else Spend(m1);
    var m3 := if Lucky(m2.luck) then SetEnabled(Spend(m2), true) else Spend(m2);
    if Lucky(m3.luck) then SetLink(Spend(m3), true) else Spend(m3)
  }

  /** interface_do_free */
  function Free(m: Machine): Machine
  {
    var m1 := Cleanup(m);
    m1.(face := m1.face.(freed := true))
  }

  function Autostart(m: Machine): Machine
  {
    if m.face.autostart then SetUp(m) else m
  }

  /** interface_handle_config_change */
  function HandleConfig(m: Machine): Machine
  {
    var m1 := m.(face := m.face.(config := IfcNormal));
    match m.face.config
    case IfcRemove => Free(m1)
    case IfcReload => Autostart(Reload(m1))
    case IfcNormal => Autostart(m1)
  }

  /** set_config_state */
  function SetConfig(m: Machine, c: Config): Machine
  {
    var m1 := m.(face := m.face.(config := c));
    if m1.face.state == IfsDown then HandleConfig(m1) else DoSetDown(m1)
  }

  /** IFPEV_UP */
  function ProtoUp(m: Machine, updated: bool): Machine
  {
    if m.face.state == IfsSetup then Emit(WithState(m, IfsUp), Up)
    else if m.face.state == IfsUp && updated then Emit(m, Update)
    else m
  }

  function CountDown(m: Machine): Machine
  {
    var live := if m.shell.script || m.shell.proto then 1 else 0;
    m.(trace := m.trace.(downs := m.trace.downs + 1, dirtyDowns := m.trace.dirtyDowns + live))
  }

  /** IFPEV_DOWN */
  function ProtoDown(m: Machine): Machine
  {
    var m1 := CountDown(m);
    if m1.face.state == IfsDown then m1 else HandleConfig(ReleaseMain(MarkDown(m1)))
  }

  /** IFPEV_LINK_LOST */
  function LinkLost(m: Machine): Machine
  {
    if m.face.state != IfsUp then m else WithState(MarkDown(m), IfsSetup)
  }

  // ----- proto-shell.c: the events

  /** All processes are gone: the runner is idle, its timeouts cancelled. */
  function Idle(m: Machine): Machine
  {
    m.(shell := m.shell.(timer := false, checkup := false, sm := SIdle))
  }

  /** The setup script has ended. */
  function SetupScriptEnds(m: Machine): Machine
  {
    var m1 := if m.shell.renewPending then ProtoRenew(m)
              else if !m.flags.noTask && !m.shell.proto then ProtoTeardown(m)
              else m;
    if m1.shell.sm == SSetup && m1.flags.checkup then m1.(shell := m1.shell.(checkup := true)) else m1
  }

  /** proto_shell_task_finish */
  function TaskFinish(m: Machine, task: Task): Machine
  {
    match m.shell.sm
    case SIdle =>
      if task == ProtoTask then ProtoTeardown(LinkLost(m))
      else if task == ScriptTask && m.shell.renewPending then ProtoRenew(m)
      else m
    case SSetup =>
      if task == ProtoTask then ProtoTeardown(m)
      else if task == ScriptTask then SetupScriptEnds(m)
      else m
    case SSetupAbort => if m.shell.script || m.shell.proto then m else ProtoTeardown(Idle(m))
    case STeardown => if m.shell.script || m.shell.proto then m else ProtoDown(Idle(m))
  }

  /** proto_shell_teardown_timeout_cb; a timeout that fires is no longer armed. */
  function TimerFires(m: Machine): Machine
  {
    TaskFinish(m.(shell := m.shell.(timer := false, script := false, proto := false)), NoTask)
  }

  predicate Leaving(sh: Shell)
  {
    sh.sm == STeardown || sh.sm == SSetupAbort
  }

  /** proto_shell_update_link with "link-up" */
  function NotifyLinkUp(m: Machine, updated: bool): Machine
  {
    if Leaving(m.shell) then m
    else if !Lucky(m.luck) then Spend(m)
    else
      var m1 := ProtoUp(Spend(m), updated);
      m1.(shell := m1.shell.(sm := SIdle))
  }

  /** proto_shell_update_link without */
  function NotifyLinkDown(m: Machine): Machine
  {
    if Leaving(m.shell) then m else LinkLost(m)
  }

  /** proto_shell_run_command */
  function NotifyRun(m: Machine): Machine
  {
    if Leaving(m.shell) then m else Spend(m).(shell := m.shell.(proto := Lucky(m.luck)))
  }

  /** proto_shell_setup_failed */
  function NotifySetupFailed(m: Machine): Machine
  {
    match m.shell.sm
    case SIdle => ProtoTeardown(LinkLost(m))
    case SSetup => ProtoTeardown(m)
    case SSetupAbort => m
    case STeardown => m
  }

  /** proto_shell_if_down_cb: the interface a host route depended on went away. */
  function HostDepLost(m: Machine): Machine
  {
    if m.shell.sm == SIdle then ProtoTeardown(LinkLost(m)) else m
  }

  /** proto_shell_checkup_timeout_cb */
  function CheckupFires(m: Machine): Machine
  {
    var m1 := m.(shell := m.shell.(checkup := false));
    if !m1.face.autostart || m1.face.state == IfsUp then m1 else ProtoTeardown(m1)
  }

  /** interface_set_down */
  function SetDown(m: Machine): Machine
  {
    DoSetDown(m.(face := m.face.(autostart := false)))
  }

  function ScriptExits(m: Machine): Machine
  {
    TaskFinish(m.(shell := m.shell.(script := false)), ScriptTask)
  }

  function ProtoExits(m: Machine): Machine
  {
    TaskFinish(m.(shell := m.shell.(proto := false)), ProtoTask)
  }

  /** One event of the event loop. Processes end and timeouts fire only while live or armed;
      a freed interface hears nothing. */
  datatype Step =
    | ScriptExit
    | ProtoExit
    | TimerFired
    | CheckupFired
    | Available(b: bool)
    | Enabled(b: bool)
    | Link(b: bool)
    | UserUp
    | UserDown
    | Renewed
    | L3LinkDown
    | HostDepDown
    | Reconfigured(remove: bool)
    | DataParsed(updated: bool)
    | LinkUpNotified(updated: bool)
    | LinkDownNotified
    | RunNotified
    | SetupFailedNotified
    | RestartBlocked

  function Handle(m: Machine, s: Step): Machine
  {
    match s
    case ScriptExit => if m.shell.script then ScriptExits(m) else m
    case ProtoExit => if m.shell.proto then ProtoExits(m) else m
    case TimerFired => if m.shell.timer then TimerFires(m) else m
    case CheckupFired => if m.shell.checkup then CheckupFires(m) else m
    case Available(b) => SetAvailable(m, b)
    case Enabled(b) => SetEnabled(m, b)
    case Link(b) => SetLink(m, b)
    case UserUp => SetUp(m)
    case UserDown => SetDown(m)
    case Renewed => ProtoRenew(m)
    case L3LinkDown => ProtoTeardown(m)
    case HostDepDown => HostDepLost(m)
    case Reconfigured(remove) => SetConfig(m, if remove then IfcRemove else IfcReload)
    case DataParsed(updated) => if updated && m.face.state == IfsUp then Emit(m, Update) else m
    case LinkUpNotified(updated) => NotifyLinkUp(m, updated)
    case LinkDownNotified => NotifyLinkDown(m)
    case RunNotified => NotifyRun(m)
    case SetupFailedNotified => NotifySetupFailed(m)
    case RestartBlocked => m.(face := m.face.(autostart := false))
  }

  /** A step with the outcomes of its system calls. */
  datatype Happening = Happening(step: Step, luck: seq<bool>)

  function Next(m: Machine, e: Happening): Machine
  {
    if m.face.freed then m else Handle(m.(luck := e.luck), e.step)
  }

  function RunFrom(m: Machine, es: seq<Happening>): Machine
  {
    if es == [] then m else Next(RunFrom(m, es[..|es| - 1]), es[|es| - 1])
  }

  // ----- the invariant

  /** The last of the up, down and up-failed events. */
  function LastState(events: seq<Event>): Option<Event>
  {
    if events == [] then None
    else if IsState(events[|events| - 1]) then Some(events[|events| - 1])
    else LastState(events[..|events| - 1])
  }

  /** The last of the up and down events was "up". */
  predicate SaidUp(events: seq<Event>)
  {
    if events == [] then false
    else if events[|events| - 1] == Up then true
    else if events[|events| - 1] == Down then false
    else SaidUp(events[..|events| - 1])
  }

  /** "Up" is never raised twice without "down" between, and "update" only while up. */
  ghost predicate WellRaised(events: seq<Event>)
  {
    forall k :: 0 <= k < |events| ==>
      && (events[k] == Up ==> !SaidUp(events[..k]))
      && (events[k] == Update ==> SaidUp(events[..k]) && LastState(events[..k]) == Some(Up))
  }

  /** The events raised fit the interface state. */
  ghost predicate EventsOk(st: IfState, t: Trace)
  {
    && WellRaised(t.events)
    && (st == IfsUp ==> SaidUp(t.events) && LastState(t.events) == Some(Up))
    && (st == IfsSetup || st == IfsDown ==> !SaidUp(t.events))
  }

  /** The teardown timeout is armed exactly while a teardown or abort is under way. */
  ghost predicate TimerOk(sh: Shell)
  {
    sh.timer <==> Leaving(sh)
  }

  /** Moreover an interface that is being torn down has a teardown or abort under way, and
      IFPEV_DOWN is never sent while a process lives. */
  ghost predicate Inv(m: Machine)
  {
    && EventsOk(m.face.state, m.trace) && TimerOk(m.shell) && m.trace.dirtyDowns == 0
    && (m.face.state == IfsTeardown ==> Leaving(m.shell))
  }

  // ----- every step keeps it

  lemma SayOk(t: Trace, ev: Event)
    requires WellRaised(t.events)
    requires ev == Up ==> !SaidUp(t.events)
    requires ev == Update ==> SaidUp(t.events) && LastState(t.events) == Some(Up)
    ensures WellRaised(Say(t, ev).events)
    ensures SaidUp(Say(t, ev).events) == (ev == Up || (ev != Down && SaidUp(t.events)))
    ensures LastState(Say(t, ev).events) == if IsState(ev) then Some(ev) else LastState(t.events)
  {
    var es := t.events + [ev];
    assert es[..|t.events|] == t.events;
    forall k | 0 <= k < |t.events| ensures es[..k] == t.events[..k] {
    }
  }

  /** Only the script runner changed. */
  ghost predicate OnlyShell(m: Machine, r: Machine)
  {
    r.face == m.face && r.trace == m.trace && r.flags == m.flags
  }

  lemma ProtoTeardownOk(m: Machine)
    requires TimerOk(m.shell)
    ensures OnlyShell(m, ProtoTeardown(m)) && TimerOk(ProtoTeardown(m).shell) && Leaving(ProtoTeardown(m).shell)
    ensures Leaving(m.shell) ==> ProtoTeardown(m).shell == m.shell
  {
  }

  lemma ProtoRenewOk(m: Machine)
    requires TimerOk(m.shell)
    ensures OnlyShell(m, ProtoRenew(m)) && TimerOk(ProtoRenew(m).shell) && ProtoRenew(m).shell.sm == m.shell.sm
  {
  }

  lemma MarkDownOk(m: Machine)
    requires EventsOk(m.face.state, m.trace)
    ensures EventsOk(IfsDown, MarkDown(m).trace) && MarkDown(m).face.state == IfsDown
    ensures MarkDown(m).shell == m.shell && MarkDown(m).luck == m.luck
    ensures MarkDown(m).trace.events
            == m.trace.events + (match m.face.state case IfsDown => [] case IfsSetup => [UpFailed] case _ => [Down])
    ensures MarkDown(m).trace.downs == m.trace.downs && MarkDown(m).trace.dirtyDowns == m.trace.dirtyDowns
    ensures MarkDown(m).face == m.face.(state := IfsDown, linkEvent := MarkDown(m).face.linkEvent)
  {
    hide WellRaised, SaidUp, LastState;
    SayOk(m.trace, UpFailed);
    SayOk(m.trace, Down);
  }

  /** Events are only ever added. */
  ghost predicate Grows(m: Machine, r: Machine)
  {
    m.trace.events <= r.trace.events
  }

  /** A step that sends no IFPEV_DOWN; it leaves an interface that is being torn down alone. */
  ghost predicate Quiet(m: Machine, r: Machine)
  {
    && Inv(r) && Grows(m, r) && r.trace.downs == m.trace.downs && r.face.freed == m.face.freed
    && (m.face.state == IfsTeardown ==> r.face.state == IfsTeardown && r.shell == m.shell)
  }

  lemma DoSetUpOk(m: Machine)
    requires Inv(m) && m.face.state == IfsDown
    ensures Quiet(m, DoSetUp(m))
  {
    hide WellRaised, SaidUp, LastState, MarkDown;
    var m1 := WithState(m, IfsSetup);
    MarkDownOk(m1);
    MarkDownOk(Spend(m1).(shell := ShellSetup(m.shell, Lucky(m.luck))));
  }

  lemma CheckStateOk(m: Machine)
    requires Inv(m)
    ensures Quiet(m, CheckState(m))
  {
    hide WellRaised, SaidUp, LastState, ProtoTeardown, DoSetUp;
    if m.face.state == IfsDown {
      DoSetUpOk(m);
    } else {
      ProtoTeardownOk(BeginTeardown(m));
    }
  }

  lemma SetEnabledOk(m: Machine, b: bool)
    requires Inv(m)
    ensures Quiet(m, SetEnabled(m, b))
  {
    hide EventsOk, CheckState;
    CheckStateOk(m.(face := m.face.(enabled := b)));
  }

  lemma SetLinkOk(m: Machine, b: bool)
    requires Inv(m)
    ensures Quiet(m, SetLink(m, b))
  {
    hide WellRaised, SaidUp, LastState, CheckState;
    if m.face.linkState != b {
      var m0 := m.(face := m.face.(linkState := b));
      CheckStateOk(m0);
      SayOk(CheckState(m0).trace, LinkUp);
      SayOk(Say(CheckState(m0).trace, LinkUp), LinkUp);
    }
  }

  lemma ClaimMainOk(m: Machine)
    requires Inv(m) && m.face.state == IfsDown
    ensures Quiet(m, ClaimMain(m))
  {
    hide EventsOk, SetEnabled;
    SetEnabledOk(Spend(Spend(m).(face := m.face.(claimed := true))), true);
  }

  lemma SetUpOk(m: Machine)
    requires Inv(m)
    ensures Quiet(m, SetUp(m))
  {
    hide EventsOk, CheckState, ClaimMain, DoSetUp;
    var m1 := m.(face := m.face.(autostart := true));
    if m1.face.state == IfsDown {
      DoSetUpOk(m1);
      ClaimMainOk(m1);
      CheckStateOk(ClaimMain(m1));
    }
  }

  lemma DoSetDownOk(m: Machine)
    requires Inv(m)
    ensures Quiet(m, DoSetDown(m)) && (m.face.state == IfsDown ==> DoSetDown(m).face.state == IfsDown)
  {
    hide WellRaised, SaidUp, LastState, ProtoTeardown;
    if m.face.state == IfsUp {
      SayOk(m.trace, Down);
      ProtoTeardownOk(Emit(BeginTeardown(m), Down));
    } else if m.face.state == IfsSetup {
      ProtoTeardownOk(BeginTeardown(m));
    }
  }

  lemma SetAvailableOk(m: Machine, b: bool)
    requires Inv(m)
    ensures Quiet(m, SetAvailable(m, b))
    ensures m.face.state == IfsDown && !b ==> SetAvailable(m, b).face.state == IfsDown
  {
    hide EventsOk, SetUp, DoSetDown;
    var m1 := m.(face := m.face.(available := b));
    DoSetDownOk(m1);
    SetUpOk(m1);
  }

  lemma CleanupOk(m: Machine)
    requires Inv(m) && m.face.state == IfsDown
    ensures Quiet(m, Cleanup(m)) && Cleanup(m).face.state == IfsDown
  {
    hide EventsOk, SetAvailable;
    SetAvailableOk(m, false);
  }

  lemma ReloadOk(m: Machine)
    requires Inv(m) && m.face.state == IfsDown
    ensures Inv(Reload(m)) && Grows(m, Reload(m))
    ensures Reload(m).trace.downs == m.trace.downs && Reload(m).face.freed == m.face.freed
  {
    hide EventsOk, SetAvailable, SetLink, SetEnabled, Cleanup;
    CleanupOk(m);
    SetLinkOk(Cleanup(m), false);
    var m1 := SetLink(Cleanup(m), false);
    SetAvailableOk(Spend(m1), true);
    var m2 := if Lucky(m1.luck) then SetAvailable(Spend(m1), true) else Spend(m1);
    SetEnabledOk(Spend(m2), true);
    var m3 := if Lucky(m2.luck) then SetEnabled(Spend(m2), true) else Spend(m2);
    SetLinkOk(Spend(m3), true);
  }

  lemma HandleConfigOk(m: Machine)
    requires Inv(m) && m.face.state == IfsDown
    ensures Inv(HandleConfig(m)) && Grows(m, HandleConfig(m)) && HandleConfig(m).trace.downs == m.trace.downs
  {
    hide EventsOk, SetUp, Reload, Cleanup;
    var m1 := m.(face := m.face.(config := IfcNormal));
    CleanupOk(m1);
    ReloadOk(m1);
    SetUpOk(Reload(m1));
    SetUpOk(m1);
  }

  lemma SetConfigOk(m: Machine, c: Config)
    requires Inv(m)
    ensures Inv(SetConfig(m, c)) && SetConfig(m, c).trace.downs == m.trace.downs
    ensures m.face.state == IfsTeardown ==> Quiet(m, SetConfig(m, c))
  {
    hide EventsOk, HandleConfig, DoSetDown;
    var m1 := m.(face := m.face.(config := c));
    if m1.face.state == IfsDown {
      HandleConfigOk(m1);
    } else {
      DoSetDownOk(m1);
    }
  }

  lemma ProtoUpOk(m: Machine, updated: bool)
    requires Inv(m) && !Leaving(m.shell)
    ensures Quiet(m, ProtoUp(m, updated)) && ProtoUp(m, updated).shell == m.shell
    ensures ProtoUp(m, updated).face.state != IfsTeardown
  {
    hide WellRaised, SaidUp, LastState;
    if m.face.state == IfsSetup {
      SayOk(m.trace, Up);
    } else if m.face.state == IfsUp {
      SayOk(m.trace, Update);
    }
  }

  lemma LinkLostOk(m: Machine)
    requires Inv(m)
    ensures Quiet(m, LinkLost(m)) && LinkLost(m).shell == m.shell
  {
    hide WellRaised, SaidUp, LastState, MarkDown;
    MarkDownOk(m);
  }

  /** IFPEV_DOWN, sent with no process live. */
  lemma ProtoDownOk(m: Machine)
    requires EventsOk(m.face.state, m.trace) && TimerOk(m.shell) && m.trace.dirtyDowns == 0
    requires m.shell.sm == SIdle && !m.shell.script && !m.shell.proto
    ensures Inv(ProtoDown(m)) && ProtoDown(m).trace.downs == m.trace.downs + 1
    ensures m.face.state == IfsTeardown ==> m.trace.events + [Down] <= ProtoDown(m).trace.events
  {
    hide WellRaised, SaidUp, LastState, MarkDown, HandleConfig;
    var m1 := CountDown(m);
    MarkDownOk(m1);
    HandleConfigOk(ReleaseMain(MarkDown(m1)));
  }

  /** How far a teardown still is from its IFPEV_DOWN, in firings of the teardown timeout. */
  function Remaining(sh: Shell): nat
  {
    match sh.sm
    case SSetupAbort => 2
    case STeardown => 1
    case SIdle => 0
    case SSetup => 0
  }

  /** A step of a teardown under way: it ends with one IFPEV_DOWN, which first of all raises "down"
      for an interface in teardown, or goes on, no further away
      from it, with the interface as it was. */
  ghost predicate TearsDown(m: Machine, r: Machine)
  {
    || (&& r.trace.downs == m.trace.downs + 1
        && (m.face.state == IfsTeardown ==> m.trace.events + [Down] <= r.trace.events))
    || (&& r.trace.downs == m.trace.downs && Leaving(r.shell) && Remaining(r.shell) <= Remaining(m.shell)
        && (m.face.state == IfsTeardown ==> r.face.state == IfsTeardown) && r.face.freed == m.face.freed)
  }

  lemma TaskFinishOk(m: Machine, task: Task)
    requires EventsOk(m.face.state, m.trace) && m.trace.dirtyDowns == 0
    requires m.face.state == IfsTeardown ==> Leaving(m.shell)
    requires TimerOk(m.shell) || (Leaving(m.shell) && !m.shell.script && !m.shell.proto)
    ensures Inv(TaskFinish(m, task)) && TaskFinish(m, task).trace.downs <= m.trace.downs + 1
    ensures Leaving(m.shell) ==> TearsDown(m, TaskFinish(m, task))
    ensures Leaving(m.shell) && !m.shell.script && !m.shell.proto ==>
              TaskFinish(m, task).trace.downs > m.trace.downs
              || Remaining(TaskFinish(m, task).shell) < Remaining(m.shell)
  {
    hide WellRaised, SaidUp, LastState, MarkDown, ProtoDown, LinkLost, ProtoTeardown, ProtoRenew;
    match m.shell.sm
    case SIdle =>
      LinkLostOk(m);
      ProtoTeardownOk(LinkLost(m));
      ProtoRenewOk(m);
    case SSetup =>
      ProtoTeardownOk(m);
      ProtoRenewOk(m);
    case SSetupAbort =>
      AbortEnds(m);
    case STeardown =>
      if !m.shell.script && !m.shell.proto {
        ProtoDownOk(Idle(m));
      }
  }

  lemma AbortEnds(m: Machine)
    requires m.shell.sm == SSetupAbort
    ensures OnlyShell(m, ProtoTeardown(Idle(m))) && ProtoTeardown(Idle(m)).shell.sm == STeardown
    ensures TimerOk(ProtoTeardown(Idle(m)).shell)
  {
  }

  /** The invariant, and progress of a teardown under way. */
  ghost predicate GoodStep(m: Machine, s: Step, r: Machine)
  {
    && Inv(r) && r.trace.downs <= m.trace.downs + 1
    && (m.face.state == IfsTeardown ==> TearsDown(m, r))
    && (m.face.state == IfsTeardown && s == TimerFired ==>
          r.trace.downs > m.trace.downs || Remaining(r.shell) < Remaining(m.shell))
  }

  lemma HandleTask(m: Machine, s: Step)
    requires Inv(m) && (s == ScriptExit || s == ProtoExit || s == TimerFired)
    ensures GoodStep(m, s, Handle(m, s))
  {
    hide WellRaised, SaidUp, LastState, TaskFinish;
    var sh := m.shell;
    if s == ScriptExit {
      TaskFinishOk(m.(shell := sh.(script := false)), ScriptTask);
    } else if s == ProtoExit {
      TaskFinishOk(m.(shell := sh.(proto := false)), ProtoTask);
    } else if sh.timer {
      TaskFinishOk(m.(shell := sh.(timer := false, script := false, proto := false)), NoTask);
    }
  }

  lemma HandleFace(m: Machine, s: Step)
    requires Inv(m)
    requires s.Available? || s.Enabled? || s.Link? || s.UserUp? || s.UserDown? || s.Reconfigured? || s.DataParsed?
    ensures GoodStep(m, s, Handle(m, s))
  {
    hide WellRaised, SaidUp, LastState, SetAvailable, SetEnabled, SetLink, SetUp, DoSetDown, SetConfig;
    match s
    case Available(b) => SetAvailableOk(m, b);
    case Enabled(b) => SetEnabledOk(m, b);
    case Link(b) => SetLinkOk(m, b);
    case UserUp => SetUpOk(m);
    case UserDown => DoSetDownOk(m.(face := m.face.(autostart := false)));
    case Reconfigured(remove) => SetConfigOk(m, if remove then IfcRemove else IfcReload);
    case DataParsed(updated) => if updated && m.face.state == IfsUp { SayOk(m.trace, Update); }
  }

  lemma HandleShell(m: Machine, s: Step)
    requires Inv(m)
    requires s.CheckupFired? || s.Renewed? || s.L3LinkDown? || s.HostDepDown? || s.SetupFailedNotified?
    ensures GoodStep(m, s, Handle(m, s))
  {
    hide WellRaised, SaidUp, LastState, LinkLost, ProtoTeardown, ProtoRenew;
    ProtoTeardownOk(m.(shell := m.shell.(checkup := false)));
    ProtoRenewOk(m);
    ProtoTeardownOk(m);
    LinkLostOk(m);
    ProtoTeardownOk(LinkLost(m));
  }

  lemma HandleNotify(m: Machine, s: Step)
    requires Inv(m)
    requires s.LinkUpNotified? || s.LinkDownNotified? || s.RunNotified? || s.RestartBlocked?
    ensures GoodStep(m, s, Handle(m, s))
  {
    hide WellRaised, SaidUp, LastState, LinkLost, ProtoUp;
    if s.LinkUpNotified? && !Leaving(m.shell) {
      ProtoUpOk(Spend(m), s.updated);
    }
    LinkLostOk(m);
  }

  /** Every event of the loop keeps the invariant; while a teardown is under way it brings it
      no further from its end, and a firing of the timeout brings it closer. */
  lemma HandleOk(m: Machine, s: Step)
    requires Inv(m)
    ensures GoodStep(m, s, Handle(m, s))
  {
    hide Handle, GoodStep, Inv;
    if s == ScriptExit || s == ProtoExit || s == TimerFired {
      HandleTask(m, s);
    } else if s.CheckupFired? || s.Renewed? || s.L3LinkDown? || s.HostDepDown? || s.SetupFailedNotified? {
      HandleShell(m, s);
    } else if s.LinkUpNotified? || s.LinkDownNotified? || s.RunNotified? || s.RestartBlocked? {
      HandleNotify(m, s);
    } else {
      HandleFace(m, s);
    }
  }

  // ----- whole runs

  lemma InitialOk(flags: Flags)
    ensures Inv(Initial(flags))
  {
  }

  lemma NextOk(m: Machine, e: Happening)
    requires Inv(m)
    ensures Inv(Next(m, e)) && Next(m, e).trace.downs <= m.trace.downs + 1
    ensures m.face.state == IfsTeardown && !m.face.freed ==> TearsDown(m, Next(m, e))
    ensures m.face.state == IfsTeardown && !m.face.freed && e.step == TimerFired ==>
              Next(m, e).trace.downs > m.trace.downs || Remaining(Next(m, e).shell) < Remaining(m.shell)
  {
    hide Handle, EventsOk;
    if !m.face.freed {
      HandleOk(m.(luck := e.luck), e.step);
    }
  }

  lemma {:induction false} RunKeepsInv(m: Machine, es: seq<Happening>)
    requires Inv(m)
    ensures Inv(RunFrom(m, es))
  {
    hide Next, Inv;
    if es != [] {
      RunKeepsInv(m, es[..|es| - 1]);
      NextOk(RunFrom(m, es[..|es| - 1]), es[|es| - 1]);
    }
  }

  /** Over every run: "up" is never raised twice without "down" between, "update" only between an
      "up" and the next "down"; the teardown timeout is armed exactly while a teardown or abort is
      under way, and it is whenever the interface is being torn down; and IFPEV_DOWN is never sent
      while a process lives. */
  lemma RunSafe(flags: Flags, es: seq<Happening>)
    ensures var m := RunFrom(Initial(flags), es);
            && WellRaised(m.trace.events)
            && (m.shell.timer <==> Leaving(m.shell))
            && (m.face.state == IfsTeardown ==> Leaving(m.shell))
            && m.trace.dirtyDowns == 0
  {
    hide Next;
    InitialOk(flags);
    RunKeepsInv(Initial(flags), es);
  }

  function Firings(es: seq<Happening>): nat
  {
    if es == [] then 0
    else Firings(es[..|es| - 1]) + (if es[|es| - 1].step == TimerFired then 1 else 0)
  }

  /** A teardown in progress after `es`, in the state it started from. */
  ghost predicate StillLeaving(m: Machine, es: seq<Happening>)
  {
    var r := RunFrom(m, es);
    && r.trace.downs == m.trace.downs && r.face.state == IfsTeardown && !r.face.freed
    && Remaining(r.shell) + Firings(es) <= 2
  }

  lemma {:induction false} TeardownProgress(m: Machine, es: seq<Happening>)
    requires Inv(m) && m.face.state == IfsTeardown && !m.face.freed
    ensures StillLeaving(m, es) || exists k :: 0 < k <= |es| && FirstDown(m, es, k)
  {
    hide Next, EventsOk;
    if es != [] {
      var n := |es| - 1;
      TeardownProgress(m, es[..n]);
      if StillLeaving(m, es[..n]) {
        var r := RunFrom(m, es[..n]);
        RunKeepsInv(m, es[..n]);
        NextOk(r, es[n]);
        if Next(r, es[n]).trace.downs == m.trace.downs + 1 {
          assert es[..|es|] == es;
          assert FirstDown(m, es, |es|);
        }
      } else {
        var k :| 0 < k <= n && FirstDown(m, es[..n], k);
        assert es[..n][..k] == es[..k] && es[..n][..k - 1] == es[..k - 1];
        assert FirstDown(m, es, k);
      }
    }
  }

  /** Step `k` of `es` sends the first IFPEV_DOWN; it finds the interface still in teardown, and
      "down" is the next event raised. */
  ghost predicate FirstDown(m: Machine, es: seq<Happening>, k: nat)
    requires 0 < k <= |es|
  {
    && RunFrom(m, es[..k]).trace.downs == m.trace.downs + 1
    && RunFrom(m, es[..k - 1]).trace.downs == m.trace.downs
    && RunFrom(m, es[..k - 1]).face.state == IfsTeardown
    && RunFrom(m, es[..k - 1]).trace.events + [Down] <= RunFrom(m, es[..k]).trace.events
  }

  /** Teardown always finishes: whatever the processes, the devices, the user and the
      configuration do meanwhile, by the second firing of the teardown timeout the handler has
      sent its IFPEV_DOWN, exactly once, and until then the interface stays in teardown; that step
      raises "down". */
  lemma {:induction false} TeardownFinishes(m: Machine, es: seq<Happening>)
    requires Inv(m) && m.face.state == IfsTeardown && !m.face.freed && Firings(es) >= 2
    ensures exists k :: 0 < k <= |es| && FirstDown(m, es, k)
  {
    hide Next, EventsOk;
    TeardownProgress(m, es);
    if StillLeaving(m, es) {
      RunKeepsInv(m, es);
    }
  }
}
