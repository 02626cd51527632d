/** What every step does to an interface and its script runner, read off their fields (interface.c,
    proto-shell.c): when the interface comes up, loses its link, goes down and starts again, which
    events that raises, and which commands its runner is given. */
module InterfaceSteps {
  import opened FailedStart
  import opened HotplugQueue
  import opened Lifecycle
  import opened Options

  type Step = Lifecycle.Step

  // ----- what a step means to the interface

  /** The interface is told to go down: by the user, for want of its device, or for a new
      configuration. */
  predicate Asked(m: Machine, s: Step)
  {
    s == UserDown || s.Reconfigured? || (s == Available(false) && m.face.available)
  }

  /** Its device is not enabled, or not linked, any more. */
  predicate Withdrawn(m: Machine, s: Step)
  {
    match s
    case Enabled(b) => b != m.face.enabled && !(b && LinkOk(m))
    case Link(b) => b != m.face.linkState && !(m.face.enabled && (b || m.flags.forceLink))
    case _ => false
  }

  /** The protocol handler reports that the connection was lost. */
  predicate LosesLink(m: Machine, s: Step)
  {
    match s
    case LinkDownNotified => !Leaving(m.shell)
    case ProtoExit => m.shell.sm == SIdle && m.shell.proto
    case HostDepDown => m.shell.sm == SIdle
    case SetupFailedNotified => m.shell.sm == SIdle
    case _ => false
  }

  /** The protocol handler reports that the connection is there, and its device can be claimed. */
  predicate Connects(m: Machine, e: Happening)
  {
    e.step.LinkUpNotified? && !Leaving(m.shell) && Lucky(e.luck)
  }

  /** The last process of a teardown is gone. */
  predicate Ends(m: Machine, s: Step)
  {
    m.shell.sm == STeardown
    && match s
       case ScriptExit => m.shell.script && !m.shell.proto
       case ProtoExit => m.shell.proto && !m.shell.script
       case TimerFired => m.shell.timer
       case _ => false
  }

  function NewState(m: Machine, e: Happening): IfState
  {
    match m.face.state
    case IfsUp =>
      if ToTeardown(m, e.step) then IfsTeardown else if LosesLink(m, e.step) then IfsSetup else IfsUp
    case IfsSetup =>
      if ToTeardown(m, e.step) then IfsTeardown else if Connects(m, e) then IfsUp else IfsSetup
    case IfsTeardown => IfsTeardown
    case IfsDown => IfsDown
  }

  /** A change of link is raised, twice when a forced link is real for the first time while up. */
  function LinkEvents(m: Machine, s: Step): seq<Event>
  {
    if !s.Link? || s.b == m.face.linkState then []
    else if s.b && m.flags.forceLink && m.face.state == IfsUp && m.face.enabled && !m.face.linkEvent
    then [LinkUp, LinkUp]
    else [LinkUp]
  }

  function Raised(m: Machine, e: Happening): seq<Event>
  {
    match m.face.state
    case IfsUp =>
      if Asked(m, e.step) || LosesLink(m, e.step) then [Down]
      else if e.step == DataParsed(true) || (Connects(m, e) && e.step.updated) then [Update]
      else LinkEvents(m, e.step)
    case IfsSetup => if Connects(m, e) then [Up] else LinkEvents(m, e.step)
    case _ => LinkEvents(m, e.step)
  }

  /** The fields that a step sets by itself */
  function Given(f: Face, s: Step): Face
  {
    f.(available := if s.Available? then s.b else f.available,
       autostart := s.UserUp? || (f.autostart && !s.UserDown? && !s.RestartBlocked?),
       enabled := if s.Enabled? then s.b else f.enabled,
       linkState := if s.Link? then s.b else f.linkState,
       config := if s.Reconfigured? then (if s.remove then IfcRemove else IfcReload) else f.config)
  }

  predicate ToTeardown(m: Machine, s: Step)
  {
    (m.face.state == IfsUp || m.face.state == IfsSetup) && (Asked(m, s) || Withdrawn(m, s))
  }

  /** All fields of the interface */
  function FieldsAfter(m: Machine, e: Happening): Face
  {
    var f := Given(m.face, e.step).(state := NewState(m, e));
    if ToTeardown(m, e.step) then f.(config := if m.flags.dynamic then IfcRemove else f.config)
    else if m.face.state == IfsUp && LosesLink(m, e.step) then f.(linkEvent := false)
    else f.(linkEvent := f.linkEvent || |LinkEvents(m, e.step)| == 2)
  }

  // ----- what a step means to the script runner

  /** The runner is told to tear down: it starts the teardown script, unless its setup script has to
      be aborted first, or it is tearing down already. `ok` tells whether the script can be started. */
  function TornDown(sh: Shell, ok: bool): Shell
  {
    if Leaving(sh) then sh
    else if sh.sm == SSetup && sh.script then Shell(SSetupAbort, true, sh.proto, true, sh.checkup, false)
    else Shell(STeardown, ok, sh.proto, true, sh.checkup, false)
  }

  /** The runner is told to renew, which waits for a running script. */
  function Renewed(flags: Flags, sh: Shell, ok: bool): Shell
  {
    if !flags.renew then sh
    else if sh.script then sh.(renewPending := true)
    else sh.(script := ok, renewPending := false)
  }

  /** All processes of an abort are gone: now the teardown script is started. */
  function Aborted(sh: Shell, ok: bool): Shell
  {
    Shell(STeardown, ok, false, true, false, false)
  }

  /** The script has ended, whatever it was. */
  function AfterScript(flags: Flags, sh: Shell, ok: bool): Shell
  {
    match sh.sm
    case SIdle => if sh.renewPending then Renewed(flags, sh, ok) else sh
    case SSetup =>
      if sh.renewPending then Renewed(flags, sh, ok).(checkup := sh.checkup || flags.checkup)
      else if flags.noTask || sh.proto then sh.(checkup := sh.checkup || flags.checkup)
      else TornDown(sh, ok)
    case SSetupAbort => if sh.proto then sh else Aborted(sh, ok)
    case STeardown => sh
  }

  function RunnerAfter(m: Machine, e: Happening): Shell
  {
    var sh, ok := m.shell, Lucky(e.luck);
    if ToTeardown(m, e.step) then TornDown(sh, ok)
    else
      match e.step
      case ScriptExit => if sh.script then AfterScript(m.flags, sh.(script := false), ok) else sh
      case ProtoExit =>
        if !sh.proto then sh
        else if sh.sm == SSetupAbort && !sh.script then Aborted(sh, ok)
        else TornDown(sh.(proto := false), ok)
      case TimerFired => if sh.timer then Aborted(sh, ok) else sh
      case CheckupFired =>
        if !sh.checkup then sh
        else if m.face.autostart && m.face.state != IfsUp then TornDown(sh.(checkup := false), ok)
        else sh.(checkup := false)
      case Renewed => Renewed(m.flags, sh, ok)
      case L3LinkDown => TornDown(sh, ok)
      case HostDepDown => if sh.sm == SIdle then TornDown(sh, ok) else sh
      case SetupFailedNotified => TornDown(sh, ok)
      case LinkUpNotified(_) => if Connects(m, e) then sh.(sm := SIdle) else sh
      case RunNotified => if Leaving(sh) then sh else sh.(proto := ok)
      case _ => sh
  }

  // ----- every step of an interface that is not down

  /** The state, the events raised, the fields and the runner after a step */
  ghost predicate AsTold(m: Machine, e: Happening, r: Machine)
  {
    && r.face == FieldsAfter(m, e) && r.shell == RunnerAfter(m, e) && r.flags == m.flags
    && r.trace == m.trace.(events := m.trace.events + Raised(m, e))
  }

  lemma TeardownIs(m: Machine)
    ensures ProtoTeardown(m) == m.(shell := TornDown(m.shell, Lucky(m.luck)), luck := ProtoTeardown(m).luck)
  {
  }

  lemma RenewIs(m: Machine)
    ensures ProtoRenew(m) == m.(shell := Renewed(m.flags, m.shell, Lucky(m.luck)), luck := ProtoRenew(m).luck)
  {
  }

  lemma LinkLostIs(m: Machine)
    ensures LinkLost(m)
            == if m.face.state != IfsUp then m
               else m.(face := m.face.(state := IfsSetup, linkEvent := false),
                       trace := m.trace.(events := m.trace.events + [Down]))
  {
  }

  /** Which steps may mean what */
  lemma Kinds(m: Machine, e: Happening)
    ensures Asked(m, e.step) ==> OfUser(e.step)
    ensures Withdrawn(m, e.step) ==> OfDevice(e.step)
    ensures LosesLink(m, e.step) ==> OfConnection(e.step)
    ensures Connects(m, e) ==> e.step.LinkUpNotified?
    ensures LinkEvents(m, e.step) != [] ==> e.step.Link?
  {
  }

  predicate OfDevice(s: Step)
  {
    s.Enabled? || s.Link?
  }

  predicate OfUser(s: Step)
  {
    s.Available? || s.UserUp? || s.UserDown? || s.Reconfigured?
  }

  // The runner's own steps

  predicate OfRunner(s: Step)
  {
    s.ScriptExit? || s.TimerFired? || s.CheckupFired? || s.Renewed? || s.L3LinkDown? || s.RunNotified?
  }

  lemma RunnerTables(m: Machine, e: Happening)
    requires m.face.state != IfsDown && OfRunner(e.step)
    ensures NewState(m, e) == m.face.state && FieldsAfter(m, e) == m.face && Raised(m, e) == []
  {
    hide Asked, Withdrawn, LosesLink, Connects, LinkEvents, TornDown;
    Kinds(m, e);
  }

  lemma RunnerTold(m: Machine, e: Happening, r: Machine)
    requires m.face.state != IfsDown && OfRunner(e.step)
    requires r == m.(shell := RunnerAfter(m, e), luck := r.luck)
    ensures AsTold(m, e, r)
  {
    hide RunnerAfter, FieldsAfter, Raised, OfRunner;
    RunnerTables(m, e);
    assert m.trace.events + [] == m.trace.events;
  }

  lemma ScriptExits(m: Machine, e: Happening)
    requires !m.face.freed && e.step == ScriptExit && !Ends(m, e.step)
    ensures var r := Next(m, e);
            r == m.(shell := if m.shell.script then AfterScript(m.flags, m.shell.(script := false), Lucky(e.luck))
                             else m.shell, luck := r.luck)
  {
    hide ProtoTeardown, ProtoRenew, LinkLost, ProtoDown;
    var t := m.(luck := e.luck, shell := m.shell.(script := false));
    TeardownIs(t);
    TeardownIs(Idle(t));
    RenewIs(t);
  }

  lemma TimerExits(m: Machine, e: Happening)
    requires !m.face.freed && e.step == TimerFired && !Ends(m, e.step) && TimerOk(m.shell)
    ensures var r := Next(m, e);
            r == m.(shell := if m.shell.timer then Aborted(m.shell, Lucky(e.luck)) else m.shell, luck := r.luck)
  {
    hide ProtoTeardown, ProtoRenew, LinkLost, ProtoDown;
    TeardownIs(Idle(m.(luck := e.luck, shell := m.shell.(timer := false, script := false, proto := false))));
  }

  lemma OthersExit(m: Machine, e: Happening)
    requires !m.face.freed && OfRunner(e.step) && e.step != ScriptExit && e.step != TimerFired
    ensures var r := Next(m, e);
            r == m.(shell := RunnerAfter(m, e), luck := r.luck)
  {
    hide ProtoTeardown, ProtoRenew, TornDown, Renewed;
    var n := m.(luck := e.luck);
    TeardownIs(n);
    TeardownIs(n.(shell := n.shell.(checkup := false)));
    RenewIs(n);
  }

  lemma RunnerIs(m: Machine, e: Happening)
    requires !m.face.freed && !Ends(m, e.step) && TimerOk(m.shell) && OfRunner(e.step)
    ensures var r := Next(m, e);
            r == m.(shell := RunnerAfter(m, e), luck := r.luck)
  {
    hide Next, Ends;
    if e.step == ScriptExit {
      ScriptExits(m, e);
    } else if e.step == TimerFired {
      TimerExits(m, e);
    } else {
      OthersExit(m, e);
    }
  }

  lemma RunnerTells(m: Machine, e: Happening)
    requires !m.face.freed && m.face.state != IfsDown && !Ends(m, e.step) && TimerOk(m.shell) && OfRunner(e.step)
    ensures AsTold(m, e, Next(m, e))
  {
    hide Next, AsTold, Ends;
    RunnerIs(m, e);
    RunnerTold(m, e, Next(m, e));
  }

  // Steps that may lose the connection

  predicate OfConnection(s: Step)
  {
    s.LinkDownNotified? || s.ProtoExit? || s.HostDepDown? || s.SetupFailedNotified?
  }

  /** The connection is lost if it was there. */
  function Lost(m: Machine, e: Happening): Machine
  {
    if m.face.state == IfsUp && LosesLink(m, e.step)
    then m.(face := m.face.(state := IfsSetup, linkEvent := false),
            trace := m.trace.(events := m.trace.events + [Down]))
    else m
  }

  lemma ConnectionTables(m: Machine, e: Happening)
    requires m.face.state != IfsDown && OfConnection(e.step)
    ensures FieldsAfter(m, e) == Lost(m, e).face
    ensures Raised(m, e) == if m.face.state == IfsUp && LosesLink(m, e.step) then [Down] else []
  {
    hide Asked, Withdrawn, LosesLink, Connects, LinkEvents, TornDown;
    Kinds(m, e);
  }

  lemma ConnectionTold(m: Machine, e: Happening, r: Machine)
    requires m.face.state != IfsDown && OfConnection(e.step)
    requires r == Lost(m, e).(shell := RunnerAfter(m, e), luck := r.luck)
    ensures AsTold(m, e, r)
  {
    hide RunnerAfter, FieldsAfter, Raised, LosesLink, OfConnection;
    ConnectionTables(m, e);
    assert m.trace.events + [] == m.trace.events;
  }

  lemma ConnectionIs(m: Machine, e: Happening)
    requires !m.face.freed && !Ends(m, e.step) && OfConnection(e.step)
    ensures var r := Next(m, e);
            r == Lost(m, e).(shell := RunnerAfter(m, e), luck := r.luck)
  {
    hide ProtoTeardown, LinkLost, ProtoDown;
    var n := m.(luck := e.luck);
    var t := n.(shell := n.shell.(proto := false));
    LinkLostIs(n);
    LinkLostIs(t);
    TeardownIs(n);
    TeardownIs(LinkLost(n));
    TeardownIs(t);
    TeardownIs(LinkLost(t));
    TeardownIs(Idle(t));
  }

  lemma ConnectionTells(m: Machine, e: Happening)
    requires !m.face.freed && m.face.state != IfsDown && !Ends(m, e.step) && OfConnection(e.step)
    ensures AsTold(m, e, Next(m, e))
  {
    hide AsTold, Next, Ends, Lost;
    ConnectionIs(m, e);
    ConnectionTold(m, e, Next(m, e));
  }

  // Steps that only tell

  predicate OfNotes(s: Step)
  {
    s.LinkUpNotified? || s.DataParsed? || s.RestartBlocked?
  }

  lemma NotesTables(m: Machine, e: Happening)
    requires m.face.state != IfsDown && OfNotes(e.step)
    ensures FieldsAfter(m, e)
            == m.face.(state := if m.face.state == IfsSetup && Connects(m, e) then IfsUp else m.face.state,
                       autostart := m.face.autostart && e.step != RestartBlocked)
    ensures Raised(m, e)
            == if m.face.state == IfsSetup && Connects(m, e) then [Up]
               else if m.face.state == IfsUp && (e.step == DataParsed(true) || (Connects(m, e) && e.step.updated))
               then [Update]
               else []
    ensures RunnerAfter(m, e) == if Connects(m, e) then m.shell.(sm := SIdle) else m.shell
  {
    hide Asked, Withdrawn, LosesLink, Connects, LinkEvents, TornDown;
    Kinds(m, e);
  }

  lemma NotesAre(m: Machine, e: Happening)
    requires !m.face.freed && OfNotes(e.step)
    ensures var r := Next(m, e);
            r == if Connects(m, e)
                 then ProtoUp(m, e.step.updated).(shell := m.shell.(sm := SIdle), luck := r.luck)
                 else if e.step == DataParsed(true) && m.face.state == IfsUp then Emit(m.(luck := e.luck), Update)
                 else m.(luck := r.luck, face := Given(m.face, e.step))
  {
  }

  lemma NotesTell(m: Machine, e: Happening)
    requires !m.face.freed && m.face.state != IfsDown && OfNotes(e.step)
    ensures AsTold(m, e, Next(m, e))
  {
    hide Next, FieldsAfter, Raised, RunnerAfter, Connects;
    NotesTables(m, e);
    NotesAre(m, e);
    Kinds(m, e);
    assert m.trace.events + [] == m.trace.events;
  }

  // Steps of the device

  /** An interface that is told to tear down */
  function Torn(m: Machine, said: seq<Event>, luck: seq<bool>): Machine
  {
    m.(face := m.face.(state := IfsTeardown, config := if m.flags.dynamic then IfcRemove else m.face.config),
       trace := m.trace.(events := m.trace.events + said), shell := TornDown(m.shell, Lucky(m.luck)), luck := luck)
  }

  lemma CheckedIs(m: Machine)
    requires m.face.state != IfsDown
    ensures var r := CheckState(m);
            r == if m.face.state != IfsTeardown && !(m.face.enabled && LinkOk(m)) then Torn(m, [], r.luck) else m
  {
    hide ProtoTeardown, DoSetUp, TornDown;
    assert m.trace.events + [] == m.trace.events;
    TeardownIs(BeginTeardown(m));
  }

  lemma DownIs(m: Machine)
    requires m.face.state != IfsDown
    ensures var r := DoSetDown(m);
            r == if m.face.state == IfsTeardown then m
                 else Torn(m, if m.face.state == IfsUp then [Down] else [], r.luck)
  {
    hide ProtoTeardown, TornDown;
    assert m.trace.events + [] == m.trace.events;
    TeardownIs(BeginTeardown(m));
    TeardownIs(Emit(BeginTeardown(m), Down));
  }

  lemma DeviceTables(m: Machine, e: Happening)
    requires m.face.state != IfsDown && OfDevice(e.step)
    ensures FieldsAfter(m, e)
            == if ToTeardown(m, e.step)
               then Given(m.face, e.step).(state := IfsTeardown,
                                           config := if m.flags.dynamic then IfcRemove else m.face.config)
               else Given(m.face, e.step).(linkEvent := m.face.linkEvent || |LinkEvents(m, e.step)| == 2)
    ensures Raised(m, e) == LinkEvents(m, e.step)
    ensures RunnerAfter(m, e) == if ToTeardown(m, e.step) then TornDown(m.shell, Lucky(e.luck)) else m.shell
  {
    hide Asked, Withdrawn, LosesLink, Connects, LinkEvents, TornDown;
    Kinds(m, e);
  }

  lemma EnabledIs(m: Machine, e: Happening)
    requires !m.face.freed && m.face.state != IfsDown && e.step.Enabled?
    ensures var r, t := Next(m, e), m.(luck := e.luck, face := Given(m.face, e.step));
            r == if ToTeardown(m, e.step) then Torn(t, [], r.luck) else t
  {
    hide CheckState, TornDown;
    CheckedIs(m.(luck := e.luck, face := Given(m.face, e.step)));
  }

  lemma LinkIs(m: Machine, e: Happening)
    requires !m.face.freed && m.face.state != IfsDown && e.step.Link?
    ensures var r, t := Next(m, e), m.(luck := e.luck, face := Given(m.face, e.step));
            r == if ToTeardown(m, e.step) then Torn(t, [LinkUp], r.luck)
                 else t.(trace := m.trace.(events := m.trace.events + LinkEvents(m, e.step)),
                         face := t.face.(linkEvent := m.face.linkEvent || |LinkEvents(m, e.step)| == 2))
  {
    hide CheckState, TornDown;
    assert m.trace.events + [] == m.trace.events;
    assert m.trace.events + [LinkUp] + [LinkUp] == m.trace.events + [LinkUp, LinkUp];
    CheckedIs(m.(luck := e.luck, face := Given(m.face, e.step)));
  }

  lemma TornLinks(m: Machine, s: Step)
    requires ToTeardown(m, s)
    ensures LinkEvents(m, s) == if s.Link? then [LinkUp] else []
  {
  }

  lemma DeviceTells(m: Machine, e: Happening)
    requires !m.face.freed && m.face.state != IfsDown && OfDevice(e.step)
    ensures AsTold(m, e, Next(m, e))
  {
    hide Next, ToTeardown, TornDown, FieldsAfter, Raised, RunnerAfter, LinkEvents;
    DeviceTables(m, e);
    Kinds(m, e);
    assert m.trace.events + [] == m.trace.events;
    if ToTeardown(m, e.step) {
      TornLinks(m, e.step);
    }
    if e.step.Link? {
      LinkIs(m, e);
    } else {
      EnabledIs(m, e);
    }
  }

  // Steps of the user

  lemma UserTables(m: Machine, e: Happening)
    requires m.face.state != IfsDown && OfUser(e.step)
    ensures FieldsAfter(m, e)
            == var f := Given(m.face, e.step);
               if ToTeardown(m, e.step)
               then f.(state := IfsTeardown, config := if m.flags.dynamic then IfcRemove else f.config)
               else f
    ensures ToTeardown(m, e.step) <==> (m.face.state == IfsUp || m.face.state == IfsSetup) && Asked(m, e.step)
    ensures Raised(m, e) == if m.face.state == IfsUp && Asked(m, e.step) then [Down] else []
    ensures RunnerAfter(m, e) == if ToTeardown(m, e.step) then TornDown(m.shell, Lucky(e.luck)) else m.shell
  {
    hide Asked, Withdrawn, LosesLink, Connects, LinkEvents, TornDown;
    Kinds(m, e);
  }

  lemma UserIs(m: Machine, e: Happening)
    requires !m.face.freed && m.face.state != IfsDown && OfUser(e.step)
    ensures var r, t := Next(m, e), m.(luck := e.luck, face := Given(m.face, e.step));
            r == if m.face.state != IfsTeardown && Asked(m, e.step)
                 then Torn(t, if m.face.state == IfsUp then [Down] else [], r.luck)
                 else t
  {
    hide DoSetDown, HandleConfig, ClaimMain, CheckState, DoSetUp, TornDown;
    DownIs(m.(luck := e.luck, face := Given(m.face, e.step)));
  }

  lemma UserTells(m: Machine, e: Happening)
    requires !m.face.freed && m.face.state != IfsDown && OfUser(e.step)
    ensures AsTold(m, e, Next(m, e))
  {
    hide Next, OfUser, Asked, Given, ToTeardown, TornDown, FieldsAfter, Raised, RunnerAfter;
    UserIs(m, e);
    UserTables(m, e);
    assert m.trace.events + [] == m.trace.events;
  }

  /** For every step and every outcome, while the interface is not down and no teardown ends: its
      state, the events that are raised, its fields and its runner afterwards. */
  lemma StepsAreAsTold(m: Machine, e: Happening)
    requires Inv(m) && !m.face.freed && m.face.state != IfsDown && !Ends(m, e.step)
    ensures AsTold(m, e, Next(m, e))
  {
    hide Next, AsTold, EventsOk, Ends;
    if OfRunner(e.step) {
      RunnerTells(m, e);
    } else if OfConnection(e.step) {
      ConnectionTells(m, e);
    } else if OfDevice(e.step) {
      DeviceTells(m, e);
    } else if OfUser(e.step) {
      UserTells(m, e);
    } else {
      NotesTell(m, e);
    }
  }

  // ----- the end of a teardown

  /** The interface when the last process of a teardown is gone, before it starts again: it is down and
      has let go of its device, its runner is idle, and it has raised what it owes. */
  function Ended(m: Machine, luck: seq<bool>): Machine
  {
    var held := m.flags.hasDev && m.face.claimed;
    var owed := match m.face.state case IfsDown => [] case IfsSetup => [UpFailed] case _ => [Down];
    Machine(m.flags,
            if m.face.state == IfsDown then m.face
            else m.face.(state := IfsDown, linkEvent := false, claimed := m.face.claimed && !m.flags.hasDev,
                         enabled := m.face.enabled && !(held && Lucky(luck)), config := IfcNormal),
            Shell(SIdle, false, false, false, false, m.shell.renewPending),
            m.trace.(events := m.trace.events + owed, downs := m.trace.downs + 1),
            if held && m.face.state != IfsDown then Rest(luck) else luck)
  }

  lemma EndsIs(m: Machine, e: Happening)
    requires !m.face.freed && Ends(m, e.step)
    ensures Next(m, e)
            == ProtoDown(m.(luck := e.luck, shell := Shell(SIdle, false, false, false, false, m.shell.renewPending)))
  {
    hide ProtoDown, ProtoTeardown, ProtoRenew, LinkLost;
  }

  lemma DownEndsIs(n: Machine)
    requires !n.shell.script && !n.shell.proto
    ensures ProtoDown(n)
            == var d := n.(trace := n.trace.(downs := n.trace.downs + 1));
               if n.face.state == IfsDown then d else HandleConfig(ReleaseMain(MarkDown(d)))
  {
    hide HandleConfig, ReleaseMain, MarkDown;
    assert n.trace.dirtyDowns + 0 == n.trace.dirtyDowns;
  }

  lemma EndedIs(m: Machine, luck: seq<bool>)
    requires m.face.state != IfsDown
    ensures var n := m.(luck := luck, shell := Shell(SIdle, false, false, false, false, m.shell.renewPending),
                        trace := m.trace.(downs := m.trace.downs + 1));
            ReleaseMain(MarkDown(n)) == Ended(m, luck).(face := Ended(m, luck).face.(config := m.face.config))
  {
  }

  /** When a teardown ends, the interface has raised "down", or "up failed" if it had not come up. Then
      it goes if it was to be removed; it is reloaded if its configuration changed; and otherwise it
      starts again like on a request if it is to start by itself. An interface that is down already
      does nothing. */
  lemma TeardownEnds(m: Machine, e: Happening)
    requires !m.face.freed && Ends(m, e.step)
    ensures var r, d := Next(m, e), Ended(m, e.luck);
            if m.face.state == IfsDown then r == d
            else match m.face.config
                 case IfcRemove => r.face.freed && r.face.state == IfsDown && r.trace == d.trace && r.flags == d.flags
                 case IfcReload => r == Next(d, Happening(Reconfigured(false), d.luck))
                 case IfcNormal => r == if m.face.autostart then Next(d, Happening(UserUp, d.luck)) else d
  {
    hide Next, ProtoDown, HandleConfig, ReleaseMain, MarkDown;
    EndsIs(m, e);
    var n := m.(luck := e.luck, shell := Shell(SIdle, false, false, false, false, m.shell.renewPending));
    DownEndsIs(n);
    assert m.trace.events + [] == m.trace.events;
    if m.face.state != IfsDown {
      EndedIs(m, e.luck);
      ConfigIs(Ended(m, e.luck), m.face.config);
    }
  }

  lemma ConfigIs(d: Machine, c: Config)
    requires d.face.state == IfsDown && !d.face.freed && d.face.config == IfcNormal
    ensures var r := HandleConfig(d.(face := d.face.(config := c)));
            match c
            case IfcRemove => r.face.freed && r.face.state == IfsDown && r.trace == d.trace && r.flags == d.flags
            case IfcReload => r == Next(d, Happening(Reconfigured(false), d.luck))
            case IfcNormal => r == if d.face.autostart then Next(d, Happening(UserUp, d.luck)) else d
  {
    hide SetUp, Reload;
    assert d.face.(config := c).(config := IfcNormal) == d.face;
    assert d.(luck := d.luck) == d;
  }

  /** A reload of an interface that is down starts its script. */
  predicate ReloadStarts(m: Machine, luck: seq<bool>)
  {
    var later := From(luck, if Releases(m) then 1 else 0);
    var start := FirstStart(m.flags, StillEnabled(m, luck), later);
    m.face.autostart && start.Some? && Outcome(later, start.value)
  }

  /** After a teardown the interface is not down any more exactly if it was not down before and is to
      start by itself, and the script is reached and can be started; apart from what it owes it
      raises nothing but failures and link events then. */
  lemma RestartsIff(m: Machine, e: Happening)
    requires !m.face.freed && Ends(m, e.step)
    ensures var r, d := Next(m, e), Ended(m, e.luck);
            && (r.face.state != IfsDown
                <==> m.face.state != IfsDown
                     && match m.face.config
                        case IfcRemove => false
                        case IfcReload => ReloadStarts(d, d.luck)
                        case IfcNormal => m.face.autostart && Reaches(d, d.luck) && StartSucceeds(d, d.luck))
            && r.face.state != IfsUp && Quietly(d, r)
  {
    hide Next, Ended, FirstStart, Reaches, StartSucceeds, Quietly;
    TeardownEnds(m, e);
    var d := Ended(m, e.luck);
    EndedDowned(m, e.luck);
    QuietlyFrame(d, d, d);
    if m.face.state != IfsDown {
      match m.face.config
      case IfcRemove => RemovedIsQuiet(m, e);
      case IfcReload =>
        ReloadSticksIff(d, d.luck);
        QuietReload(d, d.luck);
      case IfcNormal =>
        BringUpStartsIff(d, d.luck);
        QuietRequest(d, d.luck);
    }
  }

  lemma EndedDowned(m: Machine, luck: seq<bool>)
    requires !m.face.freed
    ensures Downed(Ended(m, luck)) && Ended(m, luck).face.autostart == m.face.autostart
  {
  }

  lemma QuietRequest(d: Machine, luck: seq<bool>)
    requires Downed(d)
    ensures QuietStep(d, Next(d, Happening(UserUp, luck)))
  {
    hide SetUp, Quietly;
    QuietSetUp(d.(luck := luck));
    QuietlyFrame(d, d.(luck := luck), SetUp(d.(luck := luck)));
  }

  lemma RemovedIsQuiet(m: Machine, e: Happening)
    requires !m.face.freed && Ends(m, e.step) && m.face.state != IfsDown && m.face.config == IfcRemove
    ensures Quietly(Ended(m, e.luck), Next(m, e)) && Next(m, e).face.state == IfsDown
  {
    hide Next, Ended;
    TeardownEnds(m, e);
  }

  // ----- every step of an interface that is down

  /** The step starts the setup script. */
  predicate Starts(m: Machine, e: Happening)
  {
    match e.step
    case UserUp => Reaches(m, e.luck) && StartSucceeds(m, e.luck)
    case Available(b) =>
      var n := m.(face := m.face.(available := true));
      b && !m.face.available && m.face.autostart && Reaches(n, e.luck) && StartSucceeds(n, e.luck)
    case Enabled(b) => b && !m.face.enabled && Ready(m) && LinkOk(m) && Lucky(e.luck)
    case Link(b) =>
      b != m.face.linkState && m.face.enabled && Ready(m) && (b || m.flags.forceLink) && Lucky(e.luck)
    case Reconfigured(remove) => !remove && ReloadStarts(m, e.luck)
    case _ => false
  }

  /** The interface is to start by itself, its device is there, and its runner is idle. */
  predicate Ready(m: Machine)
  {
    m.face.available && m.face.autostart && m.shell.sm == SIdle
  }

  /** An interface that is down leaves that state exactly by a step that starts its script; with
      another step it may fail, but raises nothing else except link events. */
  ghost predicate DownAsTold(m: Machine, e: Happening, r: Machine)
  {
    && (r.face.state != IfsDown <==> Starts(m, e)) && QuietStep(m, r)
    && (Starts(m, e) && !e.step.Reconfigured? ==> Started(r))
  }

  lemma DownRequest(m: Machine, e: Happening)
    requires Downed(m) && (e.step == UserUp || e.step.Available? || e.step == UserDown)
    ensures DownAsTold(m, e, Next(m, e))
  {
    hide Next, Reaches, StartSucceeds, Quietly;
    var n := if e.step.Available? then m.(face := m.face.(available := true)) else m;
    BringUpStartsIff(n, e.luck);
    QuietRequest(n, e.luck);
    QuietlyFrame(m, n, Next(n, Happening(UserUp, e.luck)));
    if e.step != UserUp {
      AvailableIs(m, e);
    }
  }

  lemma AvailableIs(m: Machine, e: Happening)
    requires Downed(m) && (e.step.Available? || e.step == UserDown)
    ensures var r := Next(m, e);
            if e.step == Available(true) && !m.face.available && m.face.autostart
            then r == Next(m.(face := m.face.(available := true)), Happening(UserUp, e.luck))
            else r.face.state == IfsDown && r.trace == m.trace && r.flags == m.flags && Quietly(m, r)
                 && r.shell == m.shell && r.face.autostart == (m.face.autostart && e.step != UserDown)
                 && (Lets(m, e.step) ==> r.face.claimed == (m.face.claimed && !m.flags.hasDev))
  {
    hide SetUp;
  }

  /** An interface that is down and is told to go down lets go of its device. */
  predicate Lets(m: Machine, s: Step)
  {
    s == UserDown || (s == Available(false) && m.face.available)
  }

  lemma DownDevice(m: Machine, e: Happening)
    requires Downed(m) && OfDevice(e.step)
    ensures DownAsTold(m, e, Next(m, e))
  {
    hide Quietly, CheckState;
    var n := m.(luck := e.luck, face := Given(m.face, e.step));
    QuietSetLink(m.(luck := e.luck), e.step.b);
    QuietlyFrame(m, m.(luck := e.luck), Next(m, e));
    if n.face.available && n.face.autostart {
      CheckStateIs(n);
    } else {
      NotReadyIs(n);
    }
  }

  lemma NotReadyIs(n: Machine)
    requires Downed(n) && !(n.face.available && n.face.autostart)
    ensures CheckState(n) == n
  {
  }

  lemma DownReload(m: Machine, e: Happening)
    requires Downed(m) && e.step.Reconfigured?
    ensures DownAsTold(m, e, Next(m, e))
  {
    if e.step.remove {
      hide Quietly, Cleanup;
      CleanedUp(m.(luck := e.luck, face := m.face.(config := IfcNormal)), e.luck);
      RemovalIs(m, e);
    } else {
      hide Next, Quietly, FirstStart;
      assert e == Happening(Reconfigured(false), e.luck);
      ReloadSticksIff(m, e.luck);
      QuietReload(m, e.luck);
    }
  }

  lemma RemovalIs(m: Machine, e: Happening)
    requires Downed(m) && e.step == Reconfigured(true)
    ensures Next(m, e).face.state == IfsDown && Quietly(m, Next(m, e))
  {
  }

  /** The other steps leave it down; what its runner does is the same as in other states. */
  lemma DownOther(m: Machine, e: Happening)
    requires Downed(m) && !Ends(m, e.step) && TimerOk(m.shell)
    requires OfRunner(e.step) || OfConnection(e.step) || OfNotes(e.step)
    ensures var r := Next(m, e);
            && r.face == Given(m.face, e.step) && r.shell == RunnerAfter(m, e) && r.flags == m.flags
            && r.trace == m.trace
  {
    hide Next, Ends, RunnerAfter;
    if OfRunner(e.step) {
      RunnerIs(m, e);
    } else if OfConnection(e.step) {
      ConnectionIs(m, e);
    } else {
      NotesAre(m, e);
      NotesRunner(m, e);
    }
  }

  lemma NotesRunner(m: Machine, e: Happening)
    requires OfNotes(e.step)
    ensures RunnerAfter(m, e) == if Connects(m, e) then m.shell.(sm := SIdle) else m.shell
  {
    Kinds(m, e);
  }

  /** For every step and every outcome, while the interface is down and no teardown ends. */
  lemma DownStepsAreAsTold(m: Machine, e: Happening)
    requires Inv(m) && Downed(m) && !Ends(m, e.step)
    ensures DownAsTold(m, e, Next(m, e))
  {
    hide Next, EventsOk, Ends, Quietly, Given, RunnerAfter;
    if e.step == UserUp || e.step.Available? || e.step == UserDown {
      DownRequest(m, e);
    } else if OfDevice(e.step) {
      DownDevice(m, e);
    } else if e.step.Reconfigured? {
      DownReload(m, e);
    } else {
      DownOther(m, e);
      GivenState(m.face, e.step);
      QuietlyFrame(m, Next(m, e), Next(m, e));
    }
  }

  lemma GivenState(f: Face, s: Step)
    ensures Given(f, s).state == f.state
  {
  }

  // ----- coming up and going away

  /** An interface comes up exactly when its handler reports the connection while it is being set up,
      its runner is not being torn down, and its device can be claimed. That raises "up", once, and
      nothing else, and leaves the runner idle. */
  lemma ComesUpIff(m: Machine, e: Happening)
    requires Inv(m) && !m.face.freed && m.face.state != IfsUp
    ensures var r := Next(m, e);
            && (r.face.state == IfsUp <==> m.face.state == IfsSetup && Connects(m, e))
            && (r.face.state == IfsUp ==> r.trace.events == m.trace.events + [Up] && r.shell.sm == SIdle)
  {
    hide Next, EventsOk;
    if Ends(m, e.step) {
      hide Ended, Quietly;
      RestartsIff(m, e);
    } else if m.face.state == IfsDown {
      DownStepsAreAsTold(m, e);
    } else {
      hide Raised, Asked, Withdrawn, LosesLink, RunnerAfter, FieldsAfter;
      StepsAreAsTold(m, e);
      UpTables(m, e);
    }
  }

  lemma UpTables(m: Machine, e: Happening)
    requires m.face.state != IfsUp && m.face.state != IfsDown
    ensures FieldsAfter(m, e).state == IfsUp <==> m.face.state == IfsSetup && Connects(m, e)
    ensures m.face.state == IfsSetup && Connects(m, e) ==>
              Raised(m, e) == [Up] && RunnerAfter(m, e).sm == SIdle
  {
    hide Asked, Withdrawn, LosesLink, Connects, LinkEvents, TornDown;
    Kinds(m, e);
  }

  /** An interface stops being up exactly when it is told to go down, its device is not enabled or
      linked any more, its handler reports that the connection was lost, or a teardown ends. All but
      the second raise "down" at once; after that one it is owed until the teardown ends. */
  lemma LeavesUpIff(m: Machine, e: Happening)
    requires Inv(m) && !m.face.freed && m.face.state == IfsUp
    ensures var r, s := Next(m, e), e.step;
            && (r.face.state != IfsUp <==> Asked(m, s) || Withdrawn(m, s) || LosesLink(m, s) || Ends(m, s))
            && (Asked(m, s) || LosesLink(m, s) || Ends(m, s) ==> m.trace.events + [Down] <= r.trace.events)
            && (Asked(m, s) || Withdrawn(m, s) ==> r.face.state == IfsTeardown && Leaving(r.shell))
            && (LosesLink(m, s) ==> r.face.state == IfsSetup)
            && (Withdrawn(m, s) ==> r.trace.events == m.trace.events + LinkEvents(m, s))
  {
    hide Next, EventsOk, Asked, Withdrawn, LosesLink, LinkEvents, TornDown;
    Kinds(m, e);
    if Ends(m, e.step) {
      hide Ended;
      RestartsIff(m, e);
      EndedSays(m, e.luck);
      EndsAlone(m, e.step);
    } else {
      StepsAreAsTold(m, e);
      TornLeaves(m.shell, Lucky(e.luck));
    }
  }

  lemma TornLeaves(sh: Shell, ok: bool)
    ensures Leaving(TornDown(sh, ok))
  {
  }

  lemma EndedSays(m: Machine, luck: seq<bool>)
    requires m.face.state == IfsUp
    ensures Ended(m, luck).trace.events == m.trace.events + [Down]
  {
  }

  lemma EndsAlone(m: Machine, s: Step)
    requires Ends(m, s)
    ensures !Asked(m, s) && !Withdrawn(m, s) && !LosesLink(m, s)
  {
  }

  /** While being set up, an interface leaves that state exactly when it comes up, is told to go down,
      its device is not enabled or linked any more, or a teardown ends; only the first and the last
      raise anything but a link event, and the last "up failed". */
  lemma LeavesSetupIff(m: Machine, e: Happening)
    requires Inv(m) && !m.face.freed && m.face.state == IfsSetup
    ensures var r, s := Next(m, e), e.step;
            && (!Ends(m, s) ==> (r.face.state != IfsSetup <==> Asked(m, s) || Withdrawn(m, s) || Connects(m, e)))
            && (!Ends(m, s) ==>
                  r.trace.events == m.trace.events + if Connects(m, e) then [Up] else LinkEvents(m, s))
            && (Asked(m, s) || Withdrawn(m, s) ==> r.face.state == IfsTeardown && Leaving(r.shell))
            && (Ends(m, s) ==> m.trace.events + [UpFailed] <= r.trace.events)
  {
    hide Next, EventsOk, Asked, Withdrawn, LosesLink, LinkEvents, TornDown, Connects;
    Kinds(m, e);
    if Ends(m, e.step) {
      hide Ended;
      RestartsIff(m, e);
      EndedFails(m, e.luck);
      EndsAlone(m, e.step);
    } else {
      StepsAreAsTold(m, e);
      TornLeaves(m.shell, Lucky(e.luck));
    }
  }

  lemma EndedFails(m: Machine, luck: seq<bool>)
    requires m.face.state == IfsSetup
    ensures Ended(m, luck).trace.events == m.trace.events + [UpFailed]
  {
  }

  /** A run: a new interface without a device becomes available, its script reports the connection, and
      the interface is up. */
  lemma NewInterfaceComesUp(flags: Flags)
    requires !flags.hasDev
    ensures var r := RunFrom(Initial(flags), [Happening(Available(true), []), Happening(LinkUpNotified(false), [])]);
            r.face.state == IfsUp && r.shell.sm == SIdle && r.trace.events == [Up]
  {
    hide Next;
    var e1, e2 := Happening(Available(true), []), Happening(LinkUpNotified(false), []);
    var m := Initial(flags);
    var n := Next(m, e1);
    assert [e1, e2][..1] == [e1] && [e1][..0] == [];
    assert RunFrom(m, [e1]) == Next(RunFrom(m, []), e1) == n;
    assert RunFrom(m, [e1, e2]) == Next(RunFrom(m, [e1]), e2);
    InitialOk(m.flags);
    NextOk(m, e1);
    FirstStarts(m);
    ComesUpIff(n, e2);
  }

  lemma FirstStarts(m: Machine)
    requires m == Initial(m.flags) && !m.flags.hasDev
    ensures var n := Next(m, Happening(Available(true), []));
            n.face.state == IfsSetup && !n.face.freed && !Leaving(n.shell) && n.trace.events == []
  {
  }
}
