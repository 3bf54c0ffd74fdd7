/**
 The life of one supervised process as a machine. Each critical section of the
 process lock is one step; the child, its monitor goroutine, the one-second
 tick, the sleeping restart goroutines and the health checks take steps of
 their own between the steps of commands.
 */
module Lifecycle {
  import opened Common
  import RestartWindow

  datatype ProcState = Stopped | Starting | Running | Stopping | Exited | Fatal

  datatype Settings = Settings(
    autoRestart: bool, limit: int, restartCodes: seq<int>, noRestartCodes: seq<int>, exitCodes: seq<int>,
    startSecs: int, hasHealthCheck: bool, healthRestart: bool, hasSocket: bool, maxCount: int, windowSecs: int)

  /** Children are known by the order in which they were forked. */
  type ChildId = nat

  /** The goroutine that waits for a child, with what it read from the process when it began. */
  datatype Monitor =
    | Spawned
    | Waiting(cmd: Option<ChildId>, done: Option<ChildId>)
    | Returned(code: int, done: Option<ChildId>)
    | Updated(done: Option<ChildId>)
    | Gone

  /**
   The fields of the process, the goroutines and children around it, and a
   record of what happened. A start installs one child together with two
   channels, all known by the child's id. `stamps` are the start times the
   process keeps, `starts` all there were.
   */
  datatype Shared = Shared(
    state: ProcState, cmd: Option<ChildId>, pid: nat, waitCh: Option<ChildId>, monitorDone: Option<ChildId>,
    retries: int, exitCode: int, healthy: bool, restartFired: bool,
    alive: set<ChildId>, nextChild: ChildId, monitors: map<ChildId, Monitor>, sleeping: nat, woken: nat,
    unreaped: set<ChildId>, unsettled: set<ChildId>,
    waitClosed: multiset<ChildId>, doneClosed: multiset<ChildId>,
    clock: RestartWindow.Time, stamps: seq<RestartWindow.Time>, starts: seq<RestartWindow.Time>,
    attempts: nat, dispatched: nat, healthRestarts: nat, healthSuccesses: nat, flagResets: nat)

  const FRESH := Shared(
    Stopped, None, 0, None, None, 0, 0, false, false, {}, 0, map[], 0, 0, {}, {}, multiset{}, multiset{}, 0, [], [], 0, 0, 0, 0, 0)

  // ---------- the restart policy ----------

  /** An allow list of exit codes is consulted before a deny list. */
  predicate ShouldRestartOnExitCode(cfg: Settings, code: int): (r: bool)
    ensures r <==> code in cfg.restartCodes || (cfg.restartCodes == [] && code !in cfg.noRestartCodes)
  {
    if |cfg.restartCodes| > 0 then code in cfg.restartCodes
    else if |cfg.noRestartCodes| > 0 then code !in cfg.noRestartCodes
    else true
  }

  /** The counter is cleared; the record of attempts since the last clearing starts over. */
  function ResetRetries(s: Shared): Shared {
    s.(retries := 0, attempts := 0, dispatched := 0)
  }

  /** The stamps a process keeps when it starts at `now`. */
  function Stamped(cfg: Settings, stamps: seq<RestartWindow.Time>, now: RestartWindow.Time): seq<RestartWindow.Time> {
    RestartWindow.After(stamps + [now], now - RestartWindow.WindowLength(cfg.windowSecs))
  }

  predicate RateExceeded(cfg: Settings, s: Shared) {
    cfg.maxCount > 0 && |RestartWindow.After(s.stamps, s.clock - RestartWindow.WindowLength(cfg.windowSecs))| >= cfg.maxCount
  }

  /** What the tick does about an exited process: nothing, give up, or schedule a restart. */
  function HandleExited(cfg: Settings, s: Shared): Shared {
    if !cfg.autoRestart || s.state != Exited then s
    else if !ShouldRestartOnExitCode(cfg, s.exitCode) then s.(state := Fatal)
    else
      var t := if s.exitCode in cfg.exitCodes then ResetRetries(s) else s;
      if RateExceeded(cfg, s) || t.retries > cfg.limit then t.(state := Fatal)
      else t.(state := Starting, sleeping := t.sleeping + 1)
  }

  /** An exited process that is to be restarted can be: its budget is not used up, or is given anew. */
  predicate HasBudget(cfg: Settings, s: Shared) {
    if s.exitCode in cfg.exitCodes then 0 <= cfg.limit else s.retries <= cfg.limit
  }

  /** The tick would dispatch a restart. */
  predicate WouldDispatch(cfg: Settings, s: Shared) {
    && cfg.autoRestart && s.state == Exited && ShouldRestartOnExitCode(cfg, s.exitCode)
    && !RateExceeded(cfg, s) && HasBudget(cfg, s)
  }

  /** The counter as the tick leaves it. */
  function Budgeted(cfg: Settings, s: Shared): Shared {
    if s.exitCode in cfg.exitCodes then ResetRetries(s) else s
  }

  /** When the tick dispatches a restart, when it gives up, and that it does nothing else. */
  lemma PolicyDecides(cfg: Settings, s: Shared)
    ensures HandleExited(cfg, s) ==
            if WouldDispatch(cfg, s) then Budgeted(cfg, s).(state := Starting, sleeping := s.sleeping + 1)
            else if !cfg.autoRestart || s.state != Exited then s
            else if ShouldRestartOnExitCode(cfg, s.exitCode) then Budgeted(cfg, s).(state := Fatal)
            else s.(state := Fatal)
  {
  }

  // ---------- background steps ----------

  datatype Background =
    | ChildDies(child: ChildId)
    | MonitorBegins(id: ChildId)
    | MonitorReaps(id: ChildId, code: int)
    | MonitorUpdates(id: ChildId)
    | MonitorEnds(id: ChildId)
    | TickExited
    | TickRunning(longEnough: bool)
    | Wake
    | HealthOk
    | HealthFails
    | Passes(time: nat)

  ghost predicate BackgroundEnabled(cfg: Settings, s: Shared, step: Background) {
    match step
    case ChildDies(c) => c in s.alive
    case MonitorBegins(k) => k in s.monitors && s.monitors[k] == Spawned
    case MonitorReaps(k, _) =>
      k in s.monitors && s.monitors[k].Waiting? && s.monitors[k].cmd.Some? && s.monitors[k].cmd.value !in s.alive
    case MonitorUpdates(k) => k in s.monitors && s.monitors[k].Returned?
    case MonitorEnds(k) =>
      k in s.monitors && (s.monitors[k].Updated? || (s.monitors[k].Waiting? && s.monitors[k].cmd.None?))
    case TickExited => true
    case TickRunning(_) => true
    case Wake => s.sleeping > 0
    case HealthOk => cfg.hasHealthCheck
    case HealthFails => cfg.hasHealthCheck
    case Passes(_) => true
  }

  /** Closing a channel; a missing one is not closed. */
  function Close(closed: multiset<ChildId>, ch: Option<ChildId>): multiset<ChildId> {
    if ch.Some? then closed + multiset{ch.value} else closed
  }

  function BackgroundStep(cfg: Settings, s: Shared, step: Background): Shared
    requires BackgroundEnabled(cfg, s, step)
  {
    match step
    case ChildDies(c) => s.(alive := s.alive - {c})
    case MonitorBegins(k) => s.(monitors := s.monitors[k := Waiting(s.cmd, s.monitorDone)])
    case MonitorReaps(k, code) =>
      s.(monitors := s.monitors[k := Returned(code, s.monitors[k].done)],
         unreaped := s.unreaped - {s.monitors[k].cmd.value})
    case MonitorUpdates(k) =>
      var m := s.monitors[k];
      s.(monitors := s.monitors[k := Updated(m.done)], unsettled := s.unsettled - {k},
         waitClosed := Close(s.waitClosed, s.waitCh), waitCh := None,
         exitCode := m.code, state := if s.state != Stopping then Exited else s.state)
    case MonitorEnds(k) =>
      s.(monitors := s.monitors[k := Gone], doneClosed := Close(s.doneClosed, s.monitors[k].done))
    case TickExited => HandleExited(cfg, s)
    case TickRunning(longEnough) =>
      if s.state != Stopping && cfg.startSecs > 0 && longEnough && (s.healthy || !cfg.hasHealthCheck)
      then ResetRetries(s) else s
    case Wake =>
      var t := s.(sleeping := s.sleeping - 1);
      if s.state == Stopped || s.state == Stopping then t
      else if s.state == Starting && s.restartFired then
        t.(restartFired := false, state := Exited, flagResets := s.flagResets + 1)
      else
        t.(state := if s.state == Starting then Exited else s.state, woken := s.woken + 1)
    case HealthOk => s.(healthy := true, restartFired := false, healthSuccesses := s.healthSuccesses + 1)
    case HealthFails => s.(healthy := false)
    case Passes(time) => s.(clock := s.clock + time)
  }

  // ---------- commands ----------

  datatype Kind = UserStart | UserStop | UserRestart | DelayedRestart | HealthRestart

  /** The place of a command between two of its steps. */
  datatype Pc =
    | StartCheck
    | StartWait(done: Option<ChildId>)
    | StartClaim
    | StartSocket
    | StartFork
    | StartFailed
    | StartInstall(child: ChildId)
    | StartKill(child: ChildId)
    | StartSpawn(child: ChildId)
    | StopBegin
    | StopWait(ch: Option<ChildId>)
    | StopFinish
    | RestartBegin
    | RestartBetween
    | DelayedCheck
    | DelayedFailed
    | HealthFailed

  datatype Command = Command(kind: Kind, pc: Pc)

  datatype Turn = Turn(shared: Shared, command: Option<Command>)

  ghost predicate CanBegin(cfg: Settings, s: Shared, kind: Kind) {
    match kind
    case DelayedRestart => s.woken > 0
    case HealthRestart =>
      cfg.healthRestart && cfg.hasHealthCheck && !s.healthy && s.state == Running && !s.restartFired
    case _ => true
  }

  function BeginCommand(s: Shared, kind: Kind): Turn {
    match kind
    case UserStart => Turn(s, Some(Command(kind, StartCheck)))
    case UserStop => Turn(s, Some(Command(kind, StopBegin)))
    case UserRestart => Turn(s, Some(Command(kind, RestartBegin)))
    case DelayedRestart =>
      Turn(s.(woken := if s.woken > 0 then s.woken - 1 else 0), Some(Command(kind, DelayedCheck)))
    case HealthRestart =>
      Turn(s.(restartFired := true, healthRestarts := s.healthRestarts + 1), Some(Command(kind, RestartBegin)))
  }

  /** What follows a start that has returned. */
  function StartReturns(s: Shared, kind: Kind, failed: bool): Turn {
    Turn(s,
          if failed && kind == DelayedRestart then Some(Command(kind, DelayedFailed))
          else if failed && kind == HealthRestart then Some(Command(kind, HealthFailed))
          else None)
  }

  function StopReturns(s: Shared, kind: Kind): Turn {
    Turn(s, if kind == UserStop then None else Some(Command(kind, RestartBetween)))
  }

  function Go(s: Shared, kind: Kind, pc: Pc): Turn {
    Turn(s, Some(Command(kind, pc)))
  }

  /** Waiting steps need their channel closed; `ok` false means giving up after the kill timeout. */
  ghost predicate CanAdvance(s: Shared, c: Command, ok: bool) {
    match c.pc
    case StartWait(done) => done.Some? ==> done.value in s.doneClosed
    case StopWait(ch) => ok && ch.Some? ==> ch.value in s.waitClosed
    case _ => true
  }

  /** One step of a command; `ok` decides where the outside world can make it fail. */
  function Advance(cfg: Settings, s: Shared, c: Command, ok: bool): Turn {
    match c.pc
    case StartCheck => if s.state == Running then StartReturns(s, c.kind, true) else Go(s, c.kind, StartWait(s.monitorDone))
    case StartWait(_) => Go(s, c.kind, StartClaim)
    case StartClaim => Claim(cfg, s, c.kind, ok)
    case StartSocket =>
      if !ok then StartReturns(s.(state := Exited), c.kind, true)
      else if s.state != Starting then StartReturns(s, c.kind, true)
      else Go(s, c.kind, StartFork)
    case StartFork =>
      if !ok then Go(s, c.kind, StartFailed)
      else Go(s.(alive := s.alive + {s.nextChild}, nextChild := s.nextChild + 1), c.kind, StartInstall(s.nextChild))
    case StartFailed => StartReturns(s.(state := Exited), c.kind, true)
    case StartInstall(k) => if s.state != Starting then Go(s, c.kind, StartKill(k)) else Go(Install(cfg, s, k), c.kind, StartSpawn(k))
    case StartKill(k) => StartReturns(s.(alive := s.alive - {k}), c.kind, true)
    case StartSpawn(k) => StartReturns(s.(monitors := s.monitors[k := Spawned]), c.kind, false)
    case StopBegin =>
      if s.cmd.None? || (s.state != Running && s.state != Stopping) then StopReturns(s.(state := Stopped), c.kind)
      else Go(s.(state := Stopping), c.kind, StopWait(s.waitCh))
    case StopWait(_) => Go(s, c.kind, StopFinish)
    case StopFinish =>
      StopReturns(s.(state := if s.state == Stopping then Stopped else s.state, cmd := None, pid := 0), c.kind)
    case RestartBegin =>
      if s.state == Fatal then StartReturns(s, c.kind, true)
      else if s.state == Stopping || s.state == Starting then Turn(s, None)
      else Go(s.(state := if s.state == Running then Stopping else s.state), c.kind, StopBegin)
    case RestartBetween => if s.state == Running || s.state == Starting then Turn(s, None) else Go(s, c.kind, StartCheck)
    case DelayedCheck => if s.state != Exited then Turn(s, None) else Go(s, c.kind, StartCheck)
    case DelayedFailed =>
      Turn(if s.state in {Stopped, Stopping, Starting} || s.retries <= cfg.limit then s else s.(state := Fatal), None)
    case HealthFailed =>
      Turn(if s.state in {Running, Starting} || s.retries <= cfg.limit then s else s.(state := Fatal), None)
  }

  /** The start takes the process over, unless it is in other hands; looking up the user can fail. */
  function Claim(cfg: Settings, s: Shared, kind: Kind, ok: bool): Turn {
    if s.state in {Running, Starting, Stopping} then StartReturns(s, kind, true)
    else
      var t := s.(cmd := None, state := Starting, retries := s.retries + 1, healthy := false, attempts := s.attempts + 1,
                  dispatched := if kind == DelayedRestart then s.dispatched + 1 else s.dispatched);
      if !ok then StartReturns(t.(state := Exited), kind, true)
      else Go(t, kind, if cfg.hasSocket then StartSocket else StartFork)
  }

  /** The forked child becomes the process, with fresh channels. */
  function Install(cfg: Settings, s: Shared, k: ChildId): Shared {
    s.(waitCh := Some(k), monitorDone := Some(k), cmd := Some(k), pid := k + 1, state := Running,
       unreaped := s.unreaped + {k}, unsettled := s.unsettled + {k},
       stamps := Stamped(cfg, s.stamps, s.clock), starts := s.starts + [s.clock])
  }

  // ---------- one command at a time ----------

  /** The process with the command that is being carried out. */
  datatype System = System(shared: Shared, command: Option<Command>)

  const START := System(FRESH, None)

  /** The user has just asked for a first start. */
  const ASKED := System(FRESH, Some(Command(UserStart, StartCheck)))

  datatype Step = Bg(step: Background) | Begin(kind: Kind) | Cmd(ok: bool)

  /** Commands are carried out one after the other, and a stop waits for its child (ok after a kill). */
  ghost predicate Enabled(cfg: Settings, s: System, step: Step) {
    match step
    case Bg(b) => BackgroundEnabled(cfg, s.shared, b)
    case Begin(kind) => s.command.None? && CanBegin(cfg, s.shared, kind)
    case Cmd(ok) =>
      s.command.Some? && CanAdvance(s.shared, s.command.value, ok) && (s.command.value.pc.StopWait? ==> ok)
  }

  function Apply(cfg: Settings, s: System, step: Step): System
    requires Enabled(cfg, s, step)
  {
    match step
    case Bg(b) => s.(shared := BackgroundStep(cfg, s.shared, b))
    case Begin(kind) => var a := BeginCommand(s.shared, kind); System(a.shared, a.command)
    case Cmd(ok) => var a := Advance(cfg, s.shared, s.command.value, ok); System(a.shared, a.command)
  }

  ghost function Init(steps: seq<Step>): seq<Step>
    requires steps != []
  {
    steps[..|steps| - 1]
  }

  /** The steps can be taken one after the other. */
  ghost predicate Possible(cfg: Settings, from: System, steps: seq<Step>)
    decreases |steps|, 0
  {
    steps == [] || (Possible(cfg, from, Init(steps)) && Enabled(cfg, Reached(cfg, from, Init(steps)), steps[|steps| - 1]))
  }

  /** Where a run leads. */
  ghost function Reached(cfg: Settings, from: System, steps: seq<Step>): System
    requires Possible(cfg, from, steps)
    decreases |steps|, 1
  {
    if steps == [] then from else Apply(cfg, Reached(cfg, from, Init(steps)), steps[|steps| - 1])
  }
}
