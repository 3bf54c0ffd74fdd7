/**
 One process object, the goroutines around it and the command at work on it. Any
 list of steps that the lifecycle machine can take is carried out on the real
 fields, and what the machine's runs keep is then seen on the object.
 */
module World {
  import opened Common
  import opened Lifecycle
  import opened Process
  import opened LifecycleSafety
  import opened WholeCommands
  import RestartRate
  import RestartWindow

  ghost predicate Good(s: System) {
    Inv(s.shared, s.command) && Dated(s.shared)
  }

  lemma BackgroundStaysDated(cfg: Settings, s: Shared, b: Background)
    requires Dated(s) && BackgroundEnabled(cfg, s, b)
    ensures Dated(BackgroundStep(cfg, s, b))
  {
  }

  lemma CommandStaysDated(cfg: Settings, s: Shared, c: Command, ok: bool)
    requires Dated(s)
    ensures Dated(Advance(cfg, s, c, ok).shared)
  {
    if !(c.pc.StartInstall? && s.state == Starting) {
      RestartRate.CommandRecordsNothing(cfg, s, c, ok);
    }
  }

  lemma StaysGood(cfg: Settings, s: System, step: Step)
    requires Good(s) && Enabled(cfg, s, step)
    ensures Good(Apply(cfg, s, step))
  {
    StepKeepsInv(cfg, s, step);
    match step
    case Bg(b) => BackgroundStaysDated(cfg, s.shared, b);
    case Begin(_) =>
    case Cmd(ok) => CommandStaysDated(cfg, s.shared, s.command.value, ok);
  }

  /** The goroutines, children and the clock are the same. */
  ghost predicate SameSurroundings(s: Shared, t: Shared) {
    t.monitors == s.monitors && t.nextChild == s.nextChild && t.clock == s.clock
  }

  lemma TickTouchesOnlyTheProcess(cfg: Settings, s: Shared) returns (t: Shared)
    ensures t == HandleExited(cfg, s) && SameSurroundings(s, t)
  {
    t := HandleExited(cfg, s);
  }

  lemma UnwellIsNotCleared(cfg: Settings, s: Shared, longEnough: bool)
    requires CanBegin(cfg, s, HealthRestart)
    ensures BackgroundStep(cfg, s, TickRunning(longEnough)) == s
  {
  }

  class World {
    const process: Process
    var command: Option<Command>
    var monitors: map<ChildId, Monitor>
    var nextChild: ChildId
    var clock: RestartWindow.Time
    /** The machine in the state the world is in. */
    ghost var sys: System

    ghost predicate Shows(s: Shared)
      reads this, process, process.history
    {
      process.Shows(s) && monitors == s.monitors && nextChild == s.nextChild && clock == s.clock
    }

    ghost predicate Valid()
      reads this, process, process.history
    {
      Shows(sys.shared) && command == sys.command && Good(sys)
    }

    constructor (cfg: Settings)
      ensures Valid() && fresh(process) && fresh(process.history) && process.cfg == cfg && sys == START
    {
      process := new Process(cfg);
      command, monitors, nextChild, clock := None, map[], 0, 0;
      sys := START;
      new;
      StartsSafe();
    }

    // ---------- single steps ----------

    /** A step of a child or of its monitor. */
    method TakeMonitor(b: Background)
      requires Shows(sys.shared) && BackgroundEnabled(process.cfg, sys.shared, b)
      requires b.MonitorBegins? || b.MonitorReaps? || b.MonitorUpdates? || b.MonitorEnds?
      modifies this`monitors, process
      ensures Shows(BackgroundStep(process.cfg, sys.shared, b))
    {
      match b
      case MonitorBegins(k) => monitors := monitors[k := Waiting(process.cmd, process.monitorDone)];
      case MonitorReaps(k, code) => monitors := monitors[k := Returned(code, monitors[k].done)];
      case MonitorUpdates(k) =>
        var m := monitors[k];
        var closed := process.ReportExit(sys.shared, k, m.code);
        monitors := monitors[k := Updated(m.done)];
      case MonitorEnds(k) => monitors := monitors[k := Gone];
    }

    /** The tick looks at a process that may have exited. */
    method TakeTick()
      requires Shows(sys.shared) && Dated(sys.shared)
      modifies process
      ensures Shows(HandleExited(process.cfg, sys.shared))
    {
      ghost var t := TickTouchesOnlyTheProcess(process.cfg, sys.shared);
      var dispatched := process.HandleExitedProcess(sys.shared, clock);
      assert process.Shows(t) && SameSurroundings(sys.shared, t);
    }

    /** The tick looks at a process that may be running; a health restart is begun as a command. */
    method TakeLook(longEnough: bool)
      requires Shows(sys.shared)
      modifies process
      ensures Shows(BackgroundStep(process.cfg, sys.shared, TickRunning(longEnough)))
    {
      if process.Unwell() {
        UnwellIsNotCleared(process.cfg, sys.shared, longEnough);
      } else {
        var fires := process.CheckRunning(sys.shared, longEnough);
      }
    }

    /** A restart goroutine wakes up, or a health check reports. */
    method TakeTimer(b: Background)
      requires Shows(sys.shared) && BackgroundEnabled(process.cfg, sys.shared, b) && (b.Wake? || b.HealthOk? || b.HealthFails?)
      modifies process
      ensures Shows(BackgroundStep(process.cfg, sys.shared, b))
    {
      match b
      case Wake => var goes := process.WakeUp(sys.shared);
      case HealthOk => process.RecordHealth(sys.shared, true);
      case HealthFails => process.RecordHealth(sys.shared, false);
    }

    /** A step in the background. */
    method TakeBackground(b: Background)
      requires Shows(sys.shared) && Dated(sys.shared) && BackgroundEnabled(process.cfg, sys.shared, b)
      modifies this`monitors, this`clock, process
      ensures Shows(BackgroundStep(process.cfg, sys.shared, b))
    {
      if b.MonitorBegins? || b.MonitorReaps? || b.MonitorUpdates? || b.MonitorEnds? {
        TakeMonitor(b);
      } else if b.TickExited? {
        TakeTick();
      } else if b.TickRunning? {
        TakeLook(b.longEnough);
      } else if b.Passes? {
        clock := clock + b.time;
      } else if !b.ChildDies? {
        TakeTimer(b);
      }
    }

    method TakeBegin(kind: Kind)
      requires Shows(sys.shared) && CanBegin(process.cfg, sys.shared, kind)
      modifies this`command, process
      ensures Shows(BeginCommand(sys.shared, kind).shared) && command == BeginCommand(sys.shared, kind).command
    {
      match kind
      case UserStart => command := Some(Command(kind, StartCheck));
      case UserStop => command := Some(Command(kind, StopBegin));
      case UserRestart => command := Some(Command(kind, RestartBegin));
      case DelayedRestart => command := Some(Command(kind, DelayedCheck));
      case HealthRestart =>
        var fires := process.CheckRunning(sys.shared, false);
        command := Some(Command(kind, RestartBegin));
    }

    /** A start comes to take the process over. */
    method TakeStart(c: Command, ok: bool)
      requires Shows(sys.shared) && (c.pc.StartCheck? || c.pc.StartWait? || c.pc.StartClaim?)
      modifies this`command, process
      ensures Shows(Advance(process.cfg, sys.shared, c, ok).shared)
      ensures command == Advance(process.cfg, sys.shared, c, ok).command
    {
      match c.pc
      case StartCheck =>
        var r := process.CheckStart(sys.shared, c.kind);
        command := AfterStart(c.kind, r);
      case StartWait(_) => command := Some(Command(c.kind, StartClaim));
      case StartClaim =>
        var r := process.ClaimStart(sys.shared, c.kind, ok);
        command := AfterStart(c.kind, r);
    }

    /** A start comes to fork its child. */
    method TakeFork(c: Command, ok: bool)
      requires Shows(sys.shared) && (c.pc.StartSocket? || c.pc.StartFork? || c.pc.StartFailed?)
      modifies this`command, this`nextChild, process
      ensures Shows(Advance(process.cfg, sys.shared, c, ok).shared)
      ensures command == Advance(process.cfg, sys.shared, c, ok).command
    {
      match c.pc
      case StartSocket =>
        var r := process.AttachSocket(sys.shared, c.kind, ok);
        command := AfterStart(c.kind, r);
      case StartFork =>
        if ok {
          command := Some(Command(c.kind, StartInstall(nextChild)));
          nextChild := nextChild + 1;
        } else {
          command := Some(Command(c.kind, StartFailed));
        }
      case StartFailed =>
        var r := process.FailStart(sys.shared, c.kind);
        command := AfterStart(c.kind, r);
    }

    /** The child of a start is installed, killed, or gets its monitor. */
    method TakeChild(c: Command, ok: bool)
      requires Shows(sys.shared) && Dated(sys.shared)
      requires c.pc.StartInstall? || c.pc.StartKill? || c.pc.StartSpawn?
      modifies this`command, this`monitors, process, process.history
      ensures Shows(Advance(process.cfg, sys.shared, c, ok).shared)
      ensures command == Advance(process.cfg, sys.shared, c, ok).command
    {
      match c.pc
      case StartInstall(k) =>
        var r := process.InstallChild(sys.shared, c.kind, k, clock);
        command := AfterStart(c.kind, r);
      case StartKill(_) => command := AfterStart(c.kind, Returns(true));
      case StartSpawn(k) =>
        monitors := monitors[k := Spawned];
        command := AfterStart(c.kind, Returns(false));
    }

    /** A section of a stop, or its wait. */
    method TakeStop(c: Command, ok: bool)
      requires Shows(sys.shared) && (c.pc.StopBegin? || c.pc.StopWait? || c.pc.StopFinish?)
      modifies this`command, process
      ensures Shows(Advance(process.cfg, sys.shared, c, ok).shared)
      ensures command == Advance(process.cfg, sys.shared, c, ok).command
    {
      match c.pc
      case StopBegin =>
        var r := process.BeginStop(sys.shared, c.kind);
        command := AfterStop(c.kind, r);
      case StopWait(_) => command := Some(Command(c.kind, StopFinish));
      case StopFinish =>
        var r := process.FinishStop(sys.shared, c.kind);
        command := AfterStop(c.kind, r);
    }

    /** A restart begins, or goes on after its stop. */
    method TakeRestart(c: Command, ok: bool)
      requires Shows(sys.shared) && (c.pc.RestartBegin? || c.pc.RestartBetween?)
      modifies this`command, process
      ensures Shows(Advance(process.cfg, sys.shared, c, ok).shared)
      ensures command == Advance(process.cfg, sys.shared, c, ok).command
    {
      match c.pc
      case RestartBegin =>
        var r := process.BeginRestart(sys.shared, c.kind);
        command := AfterStart(c.kind, r);
      case RestartBetween =>
        var r := process.BetweenStopAndStart(sys.shared, c.kind);
        command := AfterStart(c.kind, r);
    }

    /** A delayed restart looks once more before it starts the process. */
    method TakeRecheck(c: Command, ok: bool)
      requires Shows(sys.shared) && c.pc.DelayedCheck?
      modifies this`command, process
      ensures Shows(Advance(process.cfg, sys.shared, c, ok).shared)
      ensures command == Advance(process.cfg, sys.shared, c, ok).command
    {
      var r := process.RecheckDelayed(sys.shared, c.kind);
      command := AfterStart(c.kind, r);
    }

    /** A delayed or a health restart has failed. */
    method TakeFailure(c: Command, ok: bool)
      requires Shows(sys.shared) && (c.pc.DelayedFailed? || c.pc.HealthFailed?)
      modifies this`command, process
      ensures Shows(Advance(process.cfg, sys.shared, c, ok).shared)
      ensures command == Advance(process.cfg, sys.shared, c, ok).command
    {
      if c.pc.DelayedFailed? {
        process.FailDelayed(sys.shared, c.kind);
      } else {
        process.FailHealthRestart(sys.shared, c.kind);
      }
      command := None;
    }

    method TakeCommand(c: Command, ok: bool)
      requires Shows(sys.shared) && Dated(sys.shared)
      modifies this`command, this`monitors, this`nextChild, process, process.history
      ensures Shows(Advance(process.cfg, sys.shared, c, ok).shared)
      ensures command == Advance(process.cfg, sys.shared, c, ok).command
    {
      match c.pc {
        case StartCheck => TakeStart(c, ok);
        case StartWait(_) => TakeStart(c, ok);
        case StartClaim => TakeStart(c, ok);
        case StartSocket => TakeFork(c, ok);
        case StartFork => TakeFork(c, ok);
        case StartFailed => TakeFork(c, ok);
        case StartInstall(_) => TakeChild(c, ok);
        case StartKill(_) => TakeChild(c, ok);
        case StartSpawn(_) => TakeChild(c, ok);
        case RestartBegin => TakeRestart(c, ok);
        case RestartBetween => TakeRestart(c, ok);
        case DelayedCheck => TakeRecheck(c, ok);
        case DelayedFailed => TakeFailure(c, ok);
        case HealthFailed => TakeFailure(c, ok);
        case _ => TakeStop(c, ok);
      }
    }

    /** Any step the machine can take is taken on the real fields. */
    method Take(step: Step)
      requires Valid() && Enabled(process.cfg, sys, step)
      modifies this, process, process.history
      ensures Valid() && sys == Apply(process.cfg, old(sys), step)
    {
      StaysGood(process.cfg, sys, step);
      match step {
        case Bg(b) => TakeBackground(b);
        case Begin(kind) => TakeBegin(kind);
        case Cmd(ok) => TakeCommand(command.value, ok);
      }
      sys := Apply(process.cfg, sys, step);
    }

    // ---------- runs ----------

    /** What the object shows of the children nobody has reaped. */
    ghost predicate Accounts()
      reads this, process
    {
      && (forall k :: k in sys.shared.unreaped ==>
            (process.state == Running || process.state == Stopping) && process.cmd == Some(k) && process.pid == k + 1)
      && |sys.shared.unreaped| <= 1
      && (process.state == Running ==> process.cmd.Some? && process.pid > 0)
    }

    /** Whatever the goroutines and serialized commands do, the object keeps account of its children. */
    method Run(steps: seq<Step>)
      requires Valid() && Possible(process.cfg, sys, steps)
      modifies this, process, process.history
      ensures Valid() && sys == Reached(process.cfg, old(sys), steps) && Accounts()
      decreases |steps|
    {
      if steps != [] {
        Run(steps[..|steps| - 1]);
        Take(steps[|steps| - 1]);
      }
      InvAccountsForChildren(sys.shared, sys.command);
    }

    /** What happens in the background while a stop waits is possible, and lasts until it can go on. */
    ghost predicate LetsStop(during: seq<Background>)
      reads this, process
      requires command == sys.command == None
    {
      var s := Apply(process.cfg, Apply(process.cfg, sys, Begin(UserStop)), Cmd(true));
      s.command.Some? ==> WaitEndsAfter(process.cfg, s, during)
    }

    /** A whole stop: whatever the background does while it waits, the process is left stopped. */
    method Stop(during: seq<Background>)
      requires Valid() && command.None? && LetsStop(during)
      modifies this, process, process.history
      ensures Valid() && command.None? && process.state == Stopped && sys.shared.unreaped == {}
      ensures old(process.state) == Running ==> process.cmd.None? && process.pid == 0
    {
      RunningHasChild(sys.shared, sys.command);
      Take(Begin(UserStop));
      Take(Cmd(true));
      if command.Some? {
        BackgroundKeepsCommand(process.cfg, sys, during);
        Run(Bgs(during));
        Take(Cmd(true));
        Take(Cmd(true));
      }
      InvAccountsForChildren(sys.shared, sys.command);
    }

    /** The object runs this child and no other, and has recorded one more start, just now. */
    ghost predicate RunsNow(child: ChildId, before: seq<RestartWindow.Time>)
      reads this, process, process.history
    {
      && process.state == Running && process.cmd == Some(child) && process.pid == child + 1
      && sys.shared.unreaped == {child} && child in sys.shared.alive && nextChild == child + 1
      && process.history.starts == before + [clock]
    }

    /** A whole start by the user, of a process that does not run. */
    method Start(starting: seq<Background>)
      requires Valid() && command.None? && process.state in {Stopped, Exited, Fatal}
      requires LetsStart(process.cfg, sys.shared, UserStart, starting)
      modifies this, process, process.history
      ensures Valid() && command.None? && RunsNow(old(nextChild), old(process.history.starts))
    {
      WholeStart(process.cfg, sys, starting);
      ghost var s := sys.shared;
      Run(StartSteps(process.cfg, starting));
      FreshIsOnly(s, sys.shared);
    }

    /** A whole restart by the user, whatever the background does while the old child is stopped. */
    method Restart(stopping: seq<Background>, starting: seq<Background>)
      requires Valid() && command.None? && process.state in {Running, Exited, Stopped}
      requires LetsRestart(process.cfg, sys.shared, stopping, starting)
      modifies this, process, process.history
      ensures Valid() && command.None? && RunsNow(old(nextChild), old(process.history.starts))
    {
      WholeRestart(process.cfg, sys, stopping, starting);
      ghost var s := sys.shared;
      Run(RestartSteps(process.cfg, process.state == Running, stopping, starting));
      FreshIsOnly(s, sys.shared);
    }
  }

  lemma FreshIsOnly(s: Shared, t: Shared)
    requires RunsFresh(s, t) && Inv(t, None)
    ensures t.unreaped == {s.nextChild} && t.pid == s.nextChild + 1
  {
    InvAccountsForChildren(t, None);
    assert ChildOk(t, s.nextChild);
    OnlyElement(t.unreaped, s.nextChild);
  }

  lemma OnlyElement(s: set<ChildId>, k: ChildId)
    requires k in s && |s| <= 1
    ensures s == {k}
  {
    assert |s - {k}| == |s| - 1;
    assert s - {k} == {};
  }

  lemma RunningHasChild(s: Shared, c: Option<Command>)
    requires Inv(s, c)
    ensures s.state == Running ==> s.cmd.Some?
  {
    if s.waitCh.Some? {
      assert ChildOk(s, s.waitCh.value);
    }
  }

  /** The background can always let a stop end. */
  lemma StopsCanEnd(w: World) returns (during: seq<Background>)
    requires w.Valid() && w.command.None?
    ensures w.LetsStop(during)
  {
    var cfg := w.process.cfg;
    var s := Apply(cfg, w.sys, Begin(UserStop));
    StepKeepsInv(cfg, w.sys, Begin(UserStop));
    StepKeepsInv(cfg, s, Cmd(true));
    var t := Apply(cfg, s, Cmd(true));
    during := [];
    if t.command.Some? {
      during := EveryWaitEnds(cfg, t, []);
    }
  }
}
