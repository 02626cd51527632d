/** The event handlers of an interface with a shell protocol, as they update their fields
    (interface.c, proto-shell.c). Each is proved equal to the step of the state machine in
    `Lifecycle`, about which the properties of whole runs are proved. */
module ShellInterface {
  import opened HotplugQueue
  import opened Lifecycle

  class Interface {
    const flags: Flags
    var face: Face
    var shell: Shell
    var luck: seq<bool>
    ghost var trace: Trace

    ghost function State(): Machine
      reads this
    {
      Machine(flags, face, shell, trace, luck)
    }

    constructor (flags: Flags)
      ensures State() == Initial(flags)
    {
      this.flags := flags;
      face := Face(IfsDown, false, true, false, false, false, false, IfcNormal, false);
      shell, trace, luck := FRESH_SHELL, Trace([], 0, 0), [];
    }

    /** The outcome of a system call. */
    method Try() returns (ok: bool)
      modifies this
      ensures ok == Lucky(old(luck)) && State() == Spend(old(State()))
    {
      ok := luck == [] || luck[0];
      luck := if luck == [] then [] else luck[1..];
    }

    method Raise(ghost ev: Event)
      modifies this
      ensures State() == Emit(old(State()), ev)
    {
      trace := Say(trace, ev);
    }

    // ----- proto-shell.c: commands

    method TeardownCommand()
      modifies this
      ensures State() == ProtoTeardown(old(State()))
    {
      if shell.sm == SSetup && shell.script {
        shell := shell.(timer := true, renewPending := false, sm := SSetupAbort);
        return;
      }
      if shell.sm == STeardown || shell.sm == SSetupAbort {
        return;
      }
      shell := shell.(renewPending := false, sm := STeardown, timer := true);
      var ok := Try();
      shell := shell.(script := ok);
    }

    method SetupCommand() returns (ok: bool)
      modifies this
      ensures old(shell).sm != SIdle ==> !ok && State() == old(State())
      ensures old(shell).sm == SIdle ==>
                ok == Lucky(old(luck)) && State() == Spend(old(State())).(shell := ShellSetup(old(shell), ok))
    {
      if shell.sm != SIdle {
        return false;
      }
      ok := Try();
      shell := shell.(sm := SSetup, script := ok);
    }

    method RenewCommand()
      modifies this
      ensures State() == ProtoRenew(old(State()))
    {
      if !flags.renew {
        return;
      }
      if shell.script {
        shell := shell.(renewPending := true);
        return;
      }
      shell := shell.(renewPending := false);
      var ok := Try();
      shell := shell.(script := ok);
    }

    // ----- interface.c

    /** mark_interface_down */
    method MarkInterfaceDown()
      modifies this
      ensures State() == MarkDown(old(State()))
    {
      var state := face.state;
      if state == IfsDown {
        return;
      }
      face := face.(linkEvent := false, state := IfsDown);
      if state == IfsSetup {
        Raise(UpFailed);
      } else {
        Raise(Down);
      }
    }

    /** __interface_set_up */
    method StartSetup()
      modifies this
      ensures State() == DoSetUp(old(State()))
    {
      face := face.(state := IfsSetup);
      var ok := SetupCommand();
      if !ok {
        MarkInterfaceDown();
      }
    }

    method EnterTeardown()
      modifies this
      ensures State() == BeginTeardown(old(State()))
    {
      face := face.(state := IfsTeardown);
      if flags.dynamic {
        face := face.(config := IfcRemove);
      }
    }

    /** interface_check_state */
    method Check()
      modifies this
      ensures State() == CheckState(old(State()))
    {
      var linkState := face.linkState || flags.forceLink;
      match face.state
      case IfsUp =>
        if !face.enabled || !linkState {
          EnterTeardown();
          TeardownCommand();
        }
      case IfsSetup =>
        if !face.enabled || !linkState {
          EnterTeardown();
          TeardownCommand();
        }
      case IfsDown =>
        if face.available && face.autostart && face.enabled && linkState {
          StartSetup();
        }
      case IfsTeardown =>
    }

    /** interface_set_enabled */
    method Enable(b: bool)
      modifies this
      ensures State() == SetEnabled(old(State()), b)
    {
      if face.enabled != b {
        face := face.(enabled := b);
        Check();
      }
    }

    /** interface_set_link_state */
    method ChangeLink(b: bool)
      modifies this
      ensures State() == SetLink(old(State()), b)
    {
      if face.linkState == b {
        return;
      }
      face := face.(linkState := b);
      Check();
      if b && flags.forceLink && face.state == IfsUp && !face.linkEvent {
        Raise(LinkUp);
        face := face.(linkEvent := true);
      }
      Raise(LinkUp);
    }

    /** device_claim on the main device */
    method ClaimDevice()
      modifies this
      ensures State() == ClaimMain(old(State()))
    {
      if face.claimed {
        return;
      }
      var ok := Try();
      if !ok {
        return;
      }
      face := face.(claimed := true);
      var cameUp := Try();
      if cameUp {
        Enable(true);
      }
    }

    /** device_release on the main device */
    method ReleaseDevice()
      modifies this
      ensures State() == ReleaseMain(old(State()))
    {
      if !flags.hasDev || !face.claimed {
        return;
      }
      face := face.(claimed := false);
      var wentDown := Try();
      if wentDown {
        face := face.(enabled := false);
      }
    }

    /** interface_set_up */
    method BringUp()
      modifies this
      ensures State() == SetUp(old(State()))
    {
      face := face.(autostart := true);
      if face.state != IfsDown || !face.available {
        return;
      }
      if flags.hasDev {
        ClaimDevice();
        if face.claimed {
          Check();
        }
      } else {
        StartSetup();
      }
    }

    /** __interface_set_down */
    method TakeDown()
      modifies this
      ensures State() == DoSetDown(old(State()))
    {
      match face.state
      case IfsUp =>
        EnterTeardown();
        Raise(Down);
        TeardownCommand();
      case IfsSetup =>
        EnterTeardown();
        TeardownCommand();
      case IfsDown => ReleaseDevice();
      case IfsTeardown =>
    }

    /** interface_set_available */
    method ChangeAvailable(b: bool)
      modifies this
      ensures State() == SetAvailable(old(State()), b)
    {
      if face.available == b {
        return;
      }
      face := face.(available := b);
      if b {
        if face.autostart {
          BringUp();
        }
      } else {
        TakeDown();
      }
    }

    /** interface_cleanup_state */
    method CleanupState()
      modifies this
      ensures State() == Cleanup(old(State()))
    {
      ChangeAvailable(false);
      shell := FRESH_SHELL;
      face := face.(state := IfsDown, claimed := false);
    }

    /** interface_do_reload */
    method DoReload()
      modifies this
      ensures State() == Reload(old(State()))
    {
      CleanupState();
      ChangeLink(false);
      var seen := Try();
      if seen {
        ChangeAvailable(true);
      }
      seen := Try();
      if seen {
        Enable(true);
      }
      seen := Try();
      if seen {
        ChangeLink(true);
      }
    }

    /** interface_handle_config_change */
    method HandleConfigChange()
      modifies this
      ensures State() == HandleConfig(old(State()))
    {
      var config := face.config;
      face := face.(config := IfcNormal);
      match config {
        case IfcRemove =>
          CleanupState();
          face := face.(freed := true);
          return;
        case IfcReload => DoReload();
        case IfcNormal =>
      }
      if face.autostart {
        BringUp();
      }
    }

    /** set_config_state */
    method ChangeConfig(c: Config)
      modifies this
      ensures State() == SetConfig(old(State()), c)
    {
      face := face.(config := c);
      if face.state == IfsDown {
        HandleConfigChange();
      } else {
        TakeDown();
      }
    }

    /** interface_proto_event_cb */
    method ProtoEventUp(updated: bool)
      modifies this
      ensures State() == ProtoUp(old(State()), updated)
    {
      if face.state != IfsSetup {
        if face.state == IfsUp && updated {
          Raise(Update);
        }
        return;
      }
      face := face.(state := IfsUp);
      Raise(Up);
    }

    method ProtoEventDown()
      modifies this
      ensures State() == ProtoDown(old(State()))
    {
      trace := CountDown(State()).trace;
      if face.state == IfsDown {
        return;
      }
      MarkInterfaceDown();
      ReleaseDevice();
      HandleConfigChange();
    }

    method ProtoEventLinkLost()
      modifies this
      ensures State() == LinkLost(old(State()))
    {
      if face.state != IfsUp {
        return;
      }
      MarkInterfaceDown();
      face := face.(state := IfsSetup);
    }

    // ----- proto-shell.c: events

    /** proto_shell_task_finish */
    method FinishTask(task: Task)
      modifies this
      ensures State() == TaskFinish(old(State()), task)
    {
      match shell.sm
      case SIdle =>
        if task == ProtoTask {
          ProtoEventLinkLost();
          TeardownCommand();
        } else if task == ScriptTask && shell.renewPending {
          RenewCommand();
        }
      case SSetup =>
        if task == ProtoTask {
          TeardownCommand();
        } else if task == ScriptTask {
          if shell.renewPending {
            RenewCommand();
          } else if !flags.noTask && !shell.proto {
            TeardownCommand();
          }
          if shell.sm == SSetup && flags.checkup {
            shell := shell.(checkup := true);
          }
        }
      case SSetupAbort =>
        if !shell.script && !shell.proto {
          shell := shell.(timer := false, checkup := false, sm := SIdle);
          TeardownCommand();
        }
      case STeardown =>
        if !shell.script && !shell.proto {
          shell := shell.(timer := false, checkup := false, sm := SIdle);
          ProtoEventDown();
        }
    }

    /** One event of the loop, with the outcomes of its system calls. */
    method Dispatch(e: Happening)
      modifies this
      ensures State() == Next(old(State()), e)
    {
      if face.freed {
        return;
      }
      luck := e.luck;
      if e.step.ScriptExit? || e.step.ProtoExit? || e.step.TimerFired? || e.step.CheckupFired? {
        DispatchTask(e.step);
      } else if e.step.LinkUpNotified? || e.step.LinkDownNotified? || e.step.RunNotified?
                || e.step.SetupFailedNotified? || e.step.HostDepDown? {
        DispatchNotify(e.step);
      } else {
        DispatchFace(e.step);
      }
    }

    /** proto_shell_script_cb, proto_shell_task_cb, proto_shell_teardown_timeout_cb and
        proto_shell_checkup_timeout_cb */
    method DispatchTask(s: Lifecycle.Step)
      requires s.ScriptExit? || s.ProtoExit? || s.TimerFired? || s.CheckupFired?
      modifies this
      ensures State() == Handle(old(State()), s)
    {
      match s
      case ScriptExit =>
        if shell.script {
          shell := shell.(script := false);
          FinishTask(ScriptTask);
        }
      case ProtoExit =>
        if shell.proto {
          shell := shell.(proto := false);
          FinishTask(ProtoTask);
        }
      case TimerFired =>
        if shell.timer {
          shell := shell.(timer := false, script := false, proto := false);
          FinishTask(NoTask);
        }
      case CheckupFired =>
        if shell.checkup {
          shell := shell.(checkup := false);
          if face.autostart && face.state != IfsUp {
            TeardownCommand();
          }
        }
    }

    /** proto_shell_notify and proto_shell_if_down_cb */
    method DispatchNotify(s: Lifecycle.Step)
      requires s.LinkUpNotified? || s.LinkDownNotified? || s.RunNotified? || s.SetupFailedNotified? || s.HostDepDown?
      modifies this
      ensures State() == Handle(old(State()), s)
    {
      if shell.sm == STeardown || shell.sm == SSetupAbort {
        return;
      }
      match s
      case LinkUpNotified(updated) =>
        var ok := Try();
        if ok {
          ProtoEventUp(updated);
          shell := shell.(sm := SIdle);
        }
      case LinkDownNotified => ProtoEventLinkLost();
      case RunNotified =>
        var ok := Try();
        shell := shell.(proto := ok);
      case SetupFailedNotified =>
        if shell.sm == SIdle {
          ProtoEventLinkLost();
        }
        TeardownCommand();
      case HostDepDown =>
        if shell.sm == SIdle {
          ProtoEventLinkLost();
          TeardownCommand();
        }
    }

    /** Device, configuration and user events. */
    method DispatchFace(s: Lifecycle.Step)
      requires s.Available? || s.Enabled? || s.Link? || s.UserUp? || s.UserDown? || s.Renewed? || s.L3LinkDown?
            || s.Reconfigured? || s.DataParsed? || s.RestartBlocked?
      modifies this
      ensures State() == Handle(old(State()), s)
    {
      match s
      case Available(b) => ChangeAvailable(b);
      case Enabled(b) => Enable(b);
      case Link(b) => ChangeLink(b);
      case UserUp => BringUp();
      case UserDown =>
        face := face.(autostart := false);
        TakeDown();
      case Renewed => RenewCommand();
      case L3LinkDown => TeardownCommand();
      case Reconfigured(remove) => ChangeConfig(if remove then IfcRemove else IfcReload);
      case DataParsed(updated) =>
        if updated && face.state == IfsUp {
          Raise(Update);
        }
      case RestartBlocked => face := face.(autostart := false);
    }

    /** A whole run of the daemon, from a new interface. */
    method Serve(es: seq<Happening>)
      requires State() == Initial(flags)
      modifies this
      ensures State() == RunFrom(Initial(flags), es) && Inv(State())
    {
      hide Inv;
      assert es[..0] == [];
      for i := 0 to |es|
        invariant State() == RunFrom(Initial(flags), es[..i])
      {
        assert es[..i + 1][..i] == es[..i];
        Dispatch(es[i]);
      }
      assert es[..|es|] == es;
      InitialOk(flags);
      RunKeepsInv(Initial(flags), es);
    }
  }
}
