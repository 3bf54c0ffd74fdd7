/**
 The process object. Each method is one critical section of its lock, with the
 fields updated in place; its contract says which step of the lifecycle machine
 it carries out. World puts these sections together.
 */
module Process {
  import opened Common
  import opened Lifecycle
  import RestartWindow

  /** How a section leaves the call it belongs to. */
  datatype Outcome = Returns(failed: bool) | Continues(pc: Pc)

  /** The command after a section of a start or a restart. */
  function AfterStart(kind: Kind, r: Outcome): Option<Command> {
    match r
    case Continues(pc) => Some(Command(kind, pc))
    case Returns(failed) =>
      if failed && kind == DelayedRestart then Some(Command(kind, DelayedFailed))
      else if failed && kind == HealthRestart then Some(Command(kind, HealthFailed))
      else None
  }

  /** The command after a section of a stop, which never fails; a restart goes on with its start. */
  function AfterStop(kind: Kind, r: Outcome): Option<Command> {
    match r
    case Continues(pc) => Some(Command(kind, pc))
    case Returns(_) => if kind == UserStop then None else Some(Command(kind, RestartBetween))
  }

  /** No start is dated later than now. */
  ghost predicate Dated(s: Shared) {
    s.starts != [] ==> s.starts[|s.starts| - 1] <= s.clock
  }

  class Process {
    const cfg: Settings
    const history: RestartWindow.RestartHistory
    var state: ProcState
    var cmd: Option<ChildId>
    var pid: nat
    var waitCh: Option<ChildId>
    var monitorDone: Option<ChildId>
    var retries: int
    var exitCode: int
    var healthy: bool
    var restartFired: bool

    /** The object holds the process fields of a machine state. */
    ghost predicate Shows(s: Shared)
      reads this, history
    {
      && ShowsFields(s) && ShowsHistory(s)
    }

    ghost predicate ShowsFields(s: Shared)
      reads this
    {
      && state == s.state && cmd == s.cmd && pid == s.pid && waitCh == s.waitCh && monitorDone == s.monitorDone
      && retries == s.retries && exitCode == s.exitCode && healthy == s.healthy && restartFired == s.restartFired
    }

    ghost predicate ShowsHistory(s: Shared)
      reads history
    {
      && history.Valid() && history.maxCount == cfg.maxCount && history.windowSecs == cfg.windowSecs
      && history.timestamps == s.stamps && history.starts == s.starts
    }

    constructor (cfg: Settings)
      ensures this.cfg == cfg && Shows(FRESH) && fresh(history)
    {
      this.cfg := cfg;
      history := new RestartWindow.RestartHistory(cfg.maxCount, cfg.windowSecs);
      state, cmd, pid, waitCh, monitorDone := Stopped, None, 0, None, None;
      retries, exitCode, healthy, restartFired := 0, 0, false, false;
    }

    // ---------- start ----------

    method CheckStart(ghost s: Shared, kind: Kind) returns (r: Outcome)
      requires Shows(s)
      ensures Advance(cfg, s, Command(kind, StartCheck), true) == Turn(s, AfterStart(kind, r))
    {
      if state == Running {
        return Returns(true);
      }
      r := Continues(StartWait(monitorDone));
    }

    method ClaimStart(ghost s: Shared, kind: Kind, userKnown: bool) returns (r: Outcome)
      requires Shows(s)
      modifies this
      ensures Shows(Advance(cfg, s, Command(kind, StartClaim), userKnown).shared)
      ensures AfterStart(kind, r) == Advance(cfg, s, Command(kind, StartClaim), userKnown).command
    {
      if state == Running || state == Starting || state == Stopping {
        return Returns(true);
      }
      cmd := None;
      state := Starting;
      retries := retries + 1;
      healthy := false;
      if !userKnown {
        state := Exited;
        return Returns(true);
      }
      r := Continues(if cfg.hasSocket then StartSocket else StartFork);
    }

    method AttachSocket(ghost s: Shared, kind: Kind, attached: bool) returns (r: Outcome)
      requires Shows(s)
      modifies this
      ensures Shows(Advance(cfg, s, Command(kind, StartSocket), attached).shared)
      ensures AfterStart(kind, r) == Advance(cfg, s, Command(kind, StartSocket), attached).command
    {
      if !attached {
        state := Exited;
        return Returns(true);
      }
      if state != Starting {
        return Returns(true);
      }
      r := Continues(StartFork);
    }

    method FailStart(ghost s: Shared, kind: Kind) returns (r: Outcome)
      requires Shows(s)
      modifies this
      ensures Shows(Advance(cfg, s, Command(kind, StartFailed), true).shared)
      ensures AfterStart(kind, r) == Advance(cfg, s, Command(kind, StartFailed), true).command
    {
      state := Exited;
      r := Returns(true);
    }

    method InstallChild(ghost s: Shared, kind: Kind, child: ChildId, now: RestartWindow.Time) returns (r: Outcome)
      requires Shows(s) && now == s.clock && Dated(s)
      modifies this, history
      ensures Shows(Advance(cfg, s, Command(kind, StartInstall(child)), true).shared)
      ensures AfterStart(kind, r) == Advance(cfg, s, Command(kind, StartInstall(child)), true).command
    {
      if state != Starting {
        return Continues(StartKill(child));
      }
      TakeChild(child);
      history.AddRestartTimestamp(now);
      ghost var t := Install(cfg, s, child);
      assert ShowsHistory(t);
      r := Continues(StartSpawn(child));
    }

    method TakeChild(child: ChildId)
      modifies this
      ensures waitCh == monitorDone == cmd == Some(child) && pid == child + 1 && state == Running
      ensures retries == old(retries) && exitCode == old(exitCode) && healthy == old(healthy) && restartFired == old(restartFired)
    {
      waitCh := Some(child);
      monitorDone := Some(child);
      cmd := Some(child);
      pid := child + 1;
      state := Running;
    }

    // ---------- stop and restart ----------

    method BeginStop(ghost s: Shared, kind: Kind) returns (r: Outcome)
      requires Shows(s)
      modifies this
      ensures Shows(Advance(cfg, s, Command(kind, StopBegin), true).shared)
      ensures AfterStop(kind, r) == Advance(cfg, s, Command(kind, StopBegin), true).command
    {
      if cmd == None {
        state := Stopped;
        return Returns(false);
      }
      if state != Running && state != Stopping {
        state := Stopped;
        return Returns(false);
      }
      state := Stopping;
      r := Continues(StopWait(waitCh));
    }

    method FinishStop(ghost s: Shared, kind: Kind) returns (r: Outcome)
      requires Shows(s)
      modifies this
      ensures Shows(Advance(cfg, s, Command(kind, StopFinish), true).shared)
      ensures AfterStop(kind, r) == Advance(cfg, s, Command(kind, StopFinish), true).command
    {
      if state == Stopping {
        state := Stopped;
      }
      cmd := None;
      pid := 0;
      r := Returns(false);
    }

    method BeginRestart(ghost s: Shared, kind: Kind) returns (r: Outcome)
      requires Shows(s)
      modifies this
      ensures Shows(Advance(cfg, s, Command(kind, RestartBegin), true).shared)
      ensures AfterStart(kind, r) == Advance(cfg, s, Command(kind, RestartBegin), true).command
    {
      if state == Fatal {
        return Returns(true);
      }
      if state == Stopping || state == Starting {
        return Returns(false);
      }
      if state == Running {
        state := Stopping;
      }
      r := Continues(StopBegin);
    }

    method BetweenStopAndStart(ghost s: Shared, kind: Kind) returns (r: Outcome)
      requires Shows(s)
      ensures Advance(cfg, s, Command(kind, RestartBetween), true) == Turn(s, AfterStart(kind, r))
    {
      if state == Running || state == Starting {
        return Returns(false);
      }
      r := Continues(StartCheck);
    }

    // ---------- the monitor goroutine ----------

    /** The exit of the child is reported; `closed` is the channel that is closed, if any. */
    method ReportExit(ghost s: Shared, ghost k: ChildId, code: int) returns (closed: Option<ChildId>)
      requires Shows(s) && k in s.monitors && s.monitors[k].Returned? && s.monitors[k].code == code
      modifies this
      ensures Shows(BackgroundStep(cfg, s, MonitorUpdates(k)))
      ensures Close(s.waitClosed, closed) == BackgroundStep(cfg, s, MonitorUpdates(k)).waitClosed
    {
      closed := None;
      if waitCh != None {
        closed := waitCh;
        waitCh := None;
      }
      exitCode := code;
      if state != Stopping {
        state := Exited;
      }
    }

    // ---------- the tick ----------

    /** `dispatched` says that a restart goroutine is to be started. */
    method HandleExitedProcess(ghost s: Shared, now: RestartWindow.Time) returns (dispatched: bool)
      requires Shows(s) && now == s.clock && Dated(s)
      modifies this
      ensures Shows(HandleExited(cfg, s))
      ensures HandleExited(cfg, s).sleeping == s.sleeping + (if dispatched then 1 else 0)
    {
      if !cfg.autoRestart {
        return false;
      }
      if state != Exited {
        return false;
      }
      if !ShouldRestartOnExitCode(cfg, exitCode) {
        state := Fatal;
        return false;
      }
      dispatched := Schedule(s, now);
    }

    /** The exit code permits a restart: one is scheduled, unless the limits forbid it. */
    method Schedule(ghost s: Shared, now: RestartWindow.Time) returns (dispatched: bool)
      requires Shows(s) && now == s.clock && Dated(s)
      requires cfg.autoRestart && state == Exited && ShouldRestartOnExitCode(cfg, exitCode)
      modifies this
      ensures Shows(HandleExited(cfg, s))
      ensures HandleExited(cfg, s).sleeping == s.sleeping + (if dispatched then 1 else 0)
    {
      ClearIfExpected();
      var exceeded := history.RestartRateExceeded(now);
      assert exceeded == RateExceeded(cfg, s);
      if exceeded {
        state := Fatal;
        return false;
      }
      if retries > cfg.limit {
        state := Fatal;
        return false;
      }
      state := Starting;
      dispatched := true;
    }

    /** An expected exit code clears the counter. */
    method ClearIfExpected()
      modifies this`retries
      ensures retries == if exitCode in cfg.exitCodes then 0 else old(retries)
    {
      var i := 0;
      while i < |cfg.exitCodes|
        invariant i <= |cfg.exitCodes| && exitCode !in cfg.exitCodes[..i]
        invariant retries == old(retries)
      {
        if exitCode == cfg.exitCodes[i] {
          retries := 0;
          return;
        }
        i := i + 1;
      }
      assert cfg.exitCodes[..i] == cfg.exitCodes;
    }

    /** A look at the running process would begin a health restart. */
    predicate Unwell()
      reads this
    {
      state == Running && cfg.healthRestart && cfg.hasHealthCheck && !healthy && !restartFired
    }

    /** One look at a running process: a health restart begins, or the counter may be cleared. */
    method CheckRunning(ghost s: Shared, longEnough: bool) returns (fires: bool)
      requires Shows(s)
      modifies this
      ensures fires == old(Unwell()) == CanBegin(cfg, s, HealthRestart)
      ensures Shows(if fires then BeginCommand(s, HealthRestart).shared else BackgroundStep(cfg, s, TickRunning(longEnough)))
    {
      if state == Stopping {
        return false;
      }
      if cfg.startSecs > 0 && longEnough && (healthy || !cfg.hasHealthCheck) {
        retries := 0;
      }
      if cfg.healthRestart && !healthy && cfg.hasHealthCheck {
        if state != Running {
          return false;
        }
        if restartFired {
          return false;
        }
        restartFired := true;
        return true;
      }
      fires := false;
    }

    /** A check succeeded, or enough of them failed. */
    method RecordHealth(ghost s: Shared, ok: bool)
      requires Shows(s) && cfg.hasHealthCheck
      modifies this
      ensures Shows(BackgroundStep(cfg, s, if ok then HealthOk else HealthFails))
    {
      healthy := ok;
      if ok {
        restartFired := false;
      }
    }

    method FailHealthRestart(ghost s: Shared, ghost kind: Kind)
      requires Shows(s)
      modifies this
      ensures Shows(Advance(cfg, s, Command(kind, HealthFailed), true).shared)
    {
      if state == Running || state == Starting {
        return;
      }
      if retries > cfg.limit {
        state := Fatal;
      }
    }

    // ---------- the restart goroutine ----------

    /** The goroutine wakes up; `goes` says that it goes on to restart the process. */
    method WakeUp(ghost s: Shared) returns (goes: bool)
      requires Shows(s) && s.sleeping > 0
      modifies this
      ensures Shows(BackgroundStep(cfg, s, Wake))
      ensures BackgroundStep(cfg, s, Wake).woken == s.woken + (if goes then 1 else 0)
    {
      if state == Stopped || state == Stopping {
        return false;
      }
      if state == Starting && restartFired {
        restartFired := false;
        state := Exited;
        return false;
      }
      if state == Starting {
        state := Exited;
      }
      goes := true;
    }

    method RecheckDelayed(ghost s: Shared, kind: Kind) returns (r: Outcome)
      requires Shows(s)
      ensures Advance(cfg, s, Command(kind, DelayedCheck), true) == Turn(s, AfterStart(kind, r))
    {
      if state != Exited {
        return Returns(false);
      }
      r := Continues(StartCheck);
    }

    method FailDelayed(ghost s: Shared, ghost kind: Kind)
      requires Shows(s)
      modifies this
      ensures Shows(Advance(cfg, s, Command(kind, DelayedFailed), true).shared)
    {
      if state == Stopped || state == Stopping || state == Starting {
        return;
      }
      if retries > cfg.limit {
        state := Fatal;
      }
    }
  }
}
