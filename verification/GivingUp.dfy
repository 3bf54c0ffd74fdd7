/**
 A process that only crashes: one user start, then nothing but the child's
 deaths, failing starts and the supervisor's own restarts. It is started
 max(limit, 0) + 1 times, and once more at most for every dispatch that overlaps
 a pending restart; then it is given up.
 */
module GivingUp {
  import opened Common
  import opened Lifecycle
  import opened CrashLoop
  import LifecycleSafety
  import RetryCounter

  /** The exit code allows a restart and is not an expected one. */
  predicate Permitted(cfg: Settings, code: int) {
    ShouldRestartOnExitCode(cfg, code) && code !in cfg.exitCodes
  }

  /** Restarts are on, and nothing but the counter limits them. */
  predicate OnlyCounts(cfg: Settings) {
    cfg.autoRestart && cfg.maxCount <= 0
  }

  /**
   A step of the crash loop: no user command, no health restart, no look at a
   start that has lasted, and a tick sees only exit codes after which it restarts.
   */
  ghost predicate CrashStep(cfg: Settings, s: System, step: Step) {
    && Enabled(cfg, s, step)
    && match step
       case Bg(TickExited) => s.shared.state == Exited ==> Permitted(cfg, s.shared.exitCode)
       case Bg(TickRunning(_)) => !RetryCounter.Clears(cfg, s.shared, step)
       case Begin(kind) => kind == DelayedRestart
       case _ => true
  }

  /** Steps that look on and do nothing for the restart. */
  ghost predicate Looks(s: System, step: Step) {
    match step
    case Bg(HealthOk) => true
    case Bg(HealthFails) => true
    case Bg(Passes(_)) => true
    case Bg(TickRunning(_)) => true
    case Bg(TickExited) => s.shared.state != Exited
    case _ => false
  }

  ghost predicate CrashRun(cfg: Settings, steps: seq<Step>)
    decreases |steps|
  {
    steps != [] ==>
      CrashRun(cfg, Init(steps)) && Possible(cfg, ASKED, Init(steps))
      && CrashStep(cfg, Reached(cfg, ASKED, Init(steps)), steps[|steps| - 1])
  }

  // ---------- the shape of the loop ----------

  function AllAttempts(cfg: Settings): int {
    Max(cfg.limit, 0) + 1
  }

  /** The command has taken the process over and has not installed its child. */
  predicate Forking(pc: Pc) {
    pc.StartSocket? || pc.StartFork? || pc.StartFailed? || pc.StartInstall?
  }

  /** Only starts are at work, and the user's is the first. */
  ghost predicate Starts(c: Command) {
    && (c.kind == UserStart || c.kind == DelayedRestart)
    && (BeforeClaim(c.pc) || Forking(c.pc) || c.pc.StartKill? || c.pc.StartSpawn? || c.pc.DelayedFailed?)
    && (c.kind == UserStart ==> !c.pc.DelayedCheck? && !c.pc.DelayedFailed?)
  }

  /** The user's start waits to take the process over. */
  predicate FirstWaits(c: Option<Command>) {
    c.Some? && c.value.kind == UserStart && BeforeClaim(c.value.pc)
  }

  /** The process as it is before the first attempt. */
  predicate Untouched(s: Shared) {
    s.state == Stopped && s.attempts == 0 && s.sleeping == 0 && s.woken == 0
  }

  ghost predicate Shape(cfg: Settings, s: Shared, c: Option<Command>) {
    && s.attempts == s.retries && !s.restartFired
    && (c.Some? ==> Starts(c.value))
    && s.state != Stopping
    && (if FirstWaits(c) then Untouched(s) else s.state != Stopped && s.attempts >= 1)
    && (s.state == Starting ==> s.sleeping > 0 || (c.Some? && Forking(c.value.pc)))
    && (s.state == Fatal ==> s.attempts >= AllAttempts(cfg))
  }

  ghost predicate LoopInv(cfg: Settings, s: System) {
    LifecycleSafety.Inv(s.shared, s.command) && Shape(cfg, s.shared, s.command)
  }

  // ---------- the measure ----------

  /** Starts that are pending, the user's among them. */
  function Outstanding(s: System): nat {
    s.shared.sleeping + s.shared.woken + (if s.command.Some? && BeforeClaim(s.command.value.pc) then 1 else 0)
  }

  function MonitorRank(s: Shared): nat {
    if s.monitorDone.None? || s.monitorDone.value !in s.monitors then 0
    else match s.monitors[s.monitorDone.value]
      case Spawned => 40
      case Waiting(_, _) => 30
      case Returned(_, _) => 20
      case Updated(_) => 10
      case Gone => 0
  }

  function CommandRank(c: Option<Command>): nat {
    if c.None? then 0
    else match c.value.pc
      case StartSocket => 82
      case StartFork => 81
      case StartInstall(_) => 78
      case StartFailed => 70
      case StartKill(_) => 60
      case StartSpawn(_) => 50
      case DelayedCheck => 5
      case StartCheck => 4
      case StartWait(_) => 3
      case StartClaim => 2
      case _ => 1
  }

  /** What an exited process may still cause: more, when its next restart is not pending yet. */
  function ExitRank(s: System): nat {
    if s.shared.state != Exited then 0 else if Outstanding(s) == 0 then 9 else 1
  }

  function Fuel(cfg: Settings, s: System): int {
    100 * (AllAttempts(cfg) - s.shared.attempts) + 8 * s.shared.sleeping + 6 * s.shared.woken
    + CommandRank(s.command) + MonitorRank(s.shared) + ExitRank(s) + |s.shared.alive|
  }

  // ---------- every step ----------

  /** A step keeps the shape and burns fuel. */
  ghost predicate Burns(cfg: Settings, s: System, step: Step)
    requires Enabled(cfg, s, step)
  {
    var t := Apply(cfg, s, step);
    Shape(cfg, t.shared, t.command) && Fuel(cfg, t) < Fuel(cfg, s)
  }

  lemma MonitorIsCurrent(s: Shared, c: Option<Command>, k: ChildId)
    requires LifecycleSafety.Inv(s, c) && k in s.monitors && !s.monitors[k].Gone?
    ensures s.monitorDone == Some(k)
    ensures s.monitors[k].Returned? ==> s.waitCh == Some(k) && (s.state == Running || s.state == Stopping)
    ensures s.monitors[k].Waiting? ==> s.monitors[k].cmd == Some(k)
  {
    assert LifecycleSafety.ChildOk(s, k);
  }

  lemma MonitorBurns(cfg: Settings, s: System, b: Background)
    requires b.MonitorBegins? || b.MonitorReaps? || b.MonitorUpdates? || b.MonitorEnds?
    requires LoopInv(cfg, s) && Enabled(cfg, s, Bg(b))
    ensures Burns(cfg, s, Bg(b))
  {
    MonitorIsCurrent(s.shared, s.command, b.id);
  }

  lemma WakeBurns(cfg: Settings, s: System)
    requires LoopInv(cfg, s) && Enabled(cfg, s, Bg(Wake))
    ensures Burns(cfg, s, Bg(Wake))
  {
  }

  lemma DeathBurns(cfg: Settings, s: System, child: ChildId)
    requires LoopInv(cfg, s) && Enabled(cfg, s, Bg(ChildDies(child)))
    ensures Burns(cfg, s, Bg(ChildDies(child)))
  {
  }

  lemma LookingIsFree(cfg: Settings, s: System, b: Background)
    requires LoopInv(cfg, s) && CrashStep(cfg, s, Bg(b)) && Looks(s, Bg(b))
    ensures Shape(cfg, Apply(cfg, s, Bg(b)).shared, s.command) && Fuel(cfg, Apply(cfg, s, Bg(b))) == Fuel(cfg, s)
  {
  }

  /** What the tick does in the loop. */
  lemma TickDecides(cfg: Settings, s: Shared)
    requires OnlyCounts(cfg) && s.state == Exited && Permitted(cfg, s.exitCode)
    ensures HandleExited(cfg, s) ==
            if s.retries > cfg.limit then s.(state := Fatal) else s.(state := Starting, sleeping := s.sleeping + 1)
  {
    PolicyDecides(cfg, s);
  }

  /** A tick burns fuel, or pours a little in when its dispatch overlaps a pending restart. */
  lemma TickBurns(cfg: Settings, s: System)
    requires OnlyCounts(cfg) && LoopInv(cfg, s) && CrashStep(cfg, s, Bg(TickExited)) && s.shared.state == Exited
    ensures var t := Apply(cfg, s, Bg(TickExited));
            && Shape(cfg, t.shared, t.command)
            && Fuel(cfg, t) < Fuel(cfg, s) + 9 * OverlapsAt(cfg, s, Bg(TickExited))
  {
    TickDecides(cfg, s.shared);
  }

  lemma BeginBurns(cfg: Settings, s: System)
    requires LoopInv(cfg, s) && Enabled(cfg, s, Begin(DelayedRestart))
    ensures Burns(cfg, s, Begin(DelayedRestart))
  {
  }

  lemma CheckBurns(cfg: Settings, s: System, ok: bool)
    requires LoopInv(cfg, s) && Enabled(cfg, s, Cmd(ok)) && BeforeClaim(s.command.value.pc) && !s.command.value.pc.StartClaim?
    ensures Burns(cfg, s, Cmd(ok))
  {
  }

  lemma ClaimBurns(cfg: Settings, s: System, ok: bool)
    requires LoopInv(cfg, s) && Enabled(cfg, s, Cmd(ok)) && s.command.value.pc.StartClaim?
    ensures Burns(cfg, s, Cmd(ok))
  {
  }

  lemma ForkBurns(cfg: Settings, s: System, ok: bool)
    requires LoopInv(cfg, s) && Enabled(cfg, s, Cmd(ok))
    requires s.command.value.pc.StartSocket? || s.command.value.pc.StartFailed?
    ensures Burns(cfg, s, Cmd(ok))
  {
  }

  lemma ChildBurns(cfg: Settings, s: System, ok: bool)
    requires LoopInv(cfg, s) && Enabled(cfg, s, Cmd(ok)) && s.command.value.pc.StartFork?
    ensures Burns(cfg, s, Cmd(ok))
  {
  }

  lemma InstallBurns(cfg: Settings, s: System, ok: bool)
    requires LoopInv(cfg, s) && Enabled(cfg, s, Cmd(ok)) && s.command.value.pc.StartInstall?
    ensures Burns(cfg, s, Cmd(ok))
  {
  }

  lemma KillBurns(cfg: Settings, s: System, ok: bool)
    requires LoopInv(cfg, s) && Enabled(cfg, s, Cmd(ok)) && s.command.value.pc.StartKill?
    ensures Burns(cfg, s, Cmd(ok))
  {
    NoMoreAlive(s.shared.alive, s.command.value.pc.child);
  }

  lemma NoMoreAlive(alive: set<ChildId>, k: ChildId)
    ensures |alive - {k}| <= |alive|
  {
    if k in alive {
      assert |alive - {k}| == |alive| - 1;
    } else {
      assert alive - {k} == alive;
    }
  }

  lemma SpawnBurns(cfg: Settings, s: System, ok: bool)
    requires LoopInv(cfg, s) && Enabled(cfg, s, Cmd(ok)) && s.command.value.pc.StartSpawn?
    ensures Burns(cfg, s, Cmd(ok))
  {
  }

  lemma FailureBurns(cfg: Settings, s: System, ok: bool)
    requires LoopInv(cfg, s) && Enabled(cfg, s, Cmd(ok)) && s.command.value.pc.DelayedFailed?
    ensures Burns(cfg, s, Cmd(ok))
  {
  }

  lemma CommandBurns(cfg: Settings, s: System, ok: bool)
    requires LoopInv(cfg, s) && Enabled(cfg, s, Cmd(ok))
    ensures Burns(cfg, s, Cmd(ok))
  {
    var pc := s.command.value.pc;
    if pc.StartClaim? {
      ClaimBurns(cfg, s, ok);
    } else if BeforeClaim(pc) {
      CheckBurns(cfg, s, ok);
    } else if pc.StartInstall? {
      InstallBurns(cfg, s, ok);
    } else if pc.StartFork? {
      ChildBurns(cfg, s, ok);
    } else if Forking(pc) {
      ForkBurns(cfg, s, ok);
    } else if pc.StartKill? {
      KillBurns(cfg, s, ok);
    } else if pc.StartSpawn? {
      SpawnBurns(cfg, s, ok);
    } else {
      FailureBurns(cfg, s, ok);
    }
  }

  /** How much an effective step and its fuel may come to, over the fuel before it. */
  ghost function Poured(cfg: Settings, s: System, step: Step): nat
    requires Enabled(cfg, s, step)
  {
    8 * OverlapsAt(cfg, s, step)
  }

  ghost function Effect(s: System, step: Step): nat {
    if Looks(s, step) then 0 else 1
  }

  lemma BackgroundBurns(cfg: Settings, s: System, b: Background)
    requires LoopInv(cfg, s) && CrashStep(cfg, s, Bg(b)) && !Looks(s, Bg(b)) && !b.TickExited?
    ensures Burns(cfg, s, Bg(b))
  {
    match b
    case ChildDies(child) => DeathBurns(cfg, s, child);
    case Wake => WakeBurns(cfg, s);
    case _ => MonitorBurns(cfg, s, b);
  }

  lemma BackgroundKeeps(cfg: Settings, s: System, b: Background)
    requires OnlyCounts(cfg) && LoopInv(cfg, s) && CrashStep(cfg, s, Bg(b))
    ensures Shape(cfg, Apply(cfg, s, Bg(b)).shared, s.command)
    ensures Effect(s, Bg(b)) + Fuel(cfg, Apply(cfg, s, Bg(b))) <= Fuel(cfg, s) + Poured(cfg, s, Bg(b))
  {
    if Looks(s, Bg(b)) {
      LookingIsFree(cfg, s, b);
    } else if b.TickExited? {
      TickBurns(cfg, s);
    } else {
      BackgroundBurns(cfg, s, b);
    }
  }

  lemma LoopStep(cfg: Settings, s: System, step: Step)
    requires OnlyCounts(cfg) && LoopInv(cfg, s) && CrashStep(cfg, s, step)
    ensures LoopInv(cfg, Apply(cfg, s, step))
    ensures Effect(s, step) + Fuel(cfg, Apply(cfg, s, step)) <= Fuel(cfg, s) + Poured(cfg, s, step)
  {
    LifecycleSafety.StepKeepsInv(cfg, s, step);
    match step
    case Bg(b) => BackgroundKeeps(cfg, s, b);
    case Begin(_) => BeginBurns(cfg, s);
    case Cmd(ok) => CommandBurns(cfg, s, ok);
  }

  // ---------- attempts ----------

  /** The attempts, and those still outstanding, are within the limit but for overlaps. */
  ghost predicate WithinAttempts(cfg: Settings, s: System, overlaps: nat) {
    s.shared.attempts + Outstanding(s) <= AllAttempts(cfg) + overlaps
  }

  lemma BackgroundAttempts(cfg: Settings, s: System, b: Background, overlaps: nat)
    requires OnlyCounts(cfg) && LoopInv(cfg, s) && CrashStep(cfg, s, Bg(b)) && WithinAttempts(cfg, s, overlaps)
    ensures WithinAttempts(cfg, Apply(cfg, s, Bg(b)), overlaps + OverlapsAt(cfg, s, Bg(b)))
  {
    if b.TickExited? && s.shared.state == Exited {
      TickDecides(cfg, s.shared);
    }
  }

  lemma CheckAttempts(cfg: Settings, s: System, ok: bool, overlaps: nat)
    requires Enabled(cfg, s, Cmd(ok)) && BeforeClaim(s.command.value.pc) && WithinAttempts(cfg, s, overlaps)
    ensures WithinAttempts(cfg, Apply(cfg, s, Cmd(ok)), overlaps)
  {
  }

  lemma LateAttempts(cfg: Settings, s: System, ok: bool, overlaps: nat)
    requires LoopInv(cfg, s) && Enabled(cfg, s, Cmd(ok)) && !BeforeClaim(s.command.value.pc) && WithinAttempts(cfg, s, overlaps)
    ensures WithinAttempts(cfg, Apply(cfg, s, Cmd(ok)), overlaps)
  {
    LateCommandDispatchesNothing(cfg, s.shared, s.command.value, ok);
    StaysLate(cfg, s.shared, s.command.value, ok);
  }

  lemma StaysLate(cfg: Settings, s: Shared, c: Command, ok: bool)
    requires Starts(c) && !BeforeClaim(c.pc)
    ensures var a := Advance(cfg, s, c, ok).command; a.Some? ==> !BeforeClaim(a.value.pc)
  {
  }

  lemma CommandAttempts(cfg: Settings, s: System, ok: bool, overlaps: nat)
    requires LoopInv(cfg, s) && Enabled(cfg, s, Cmd(ok)) && WithinAttempts(cfg, s, overlaps)
    ensures WithinAttempts(cfg, Apply(cfg, s, Cmd(ok)), overlaps)
  {
    if BeforeClaim(s.command.value.pc) {
      CheckAttempts(cfg, s, ok, overlaps);
    } else {
      LateAttempts(cfg, s, ok, overlaps);
    }
  }

  lemma StepAttempts(cfg: Settings, s: System, step: Step, overlaps: nat)
    requires OnlyCounts(cfg) && LoopInv(cfg, s) && CrashStep(cfg, s, step) && WithinAttempts(cfg, s, overlaps)
    ensures WithinAttempts(cfg, Apply(cfg, s, step), overlaps + OverlapsAt(cfg, s, step))
  {
    match step
    case Bg(b) => BackgroundAttempts(cfg, s, b, overlaps);
    case Begin(_) =>
    case Cmd(ok) => CommandAttempts(cfg, s, ok, overlaps);
  }

  // ---------- whole runs ----------

  lemma LoopBegins(cfg: Settings)
    ensures LoopInv(cfg, ASKED) && Fuel(cfg, ASKED) == 100 * AllAttempts(cfg) + 4 && WithinAttempts(cfg, ASKED, 0)
  {
    LifecycleSafety.StartsSafe();
    LifecycleSafety.BeginKeeps(cfg, FRESH, UserStart);
  }

  /** The steps of a run that do something. */
  ghost function Effective(cfg: Settings, steps: seq<Step>): nat
    requires Possible(cfg, ASKED, steps)
    decreases |steps|
  {
    if steps == [] then 0
    else Effective(cfg, Init(steps)) + Effect(Reached(cfg, ASKED, Init(steps)), steps[|steps| - 1])
  }

  /** What holds after some steps of the loop, of which some were effective and some overlapped. */
  ghost predicate LoopSoFar(cfg: Settings, s: System, effective: nat, overlaps: nat) {
    && LoopInv(cfg, s) && WithinAttempts(cfg, s, overlaps)
    && effective + Fuel(cfg, s) <= 100 * AllAttempts(cfg) + 4 + 8 * overlaps
  }

  lemma SoFarStep(cfg: Settings, s: System, step: Step, effective: nat, overlaps: nat)
    requires OnlyCounts(cfg) && CrashStep(cfg, s, step) && LoopSoFar(cfg, s, effective, overlaps)
    ensures LoopSoFar(cfg, Apply(cfg, s, step), effective + Effect(s, step), overlaps + OverlapsAt(cfg, s, step))
  {
    LoopStep(cfg, s, step);
    StepAttempts(cfg, s, step, overlaps);
  }

  lemma {:induction false} LoopRun(cfg: Settings, steps: seq<Step>)
    requires OnlyCounts(cfg) && Possible(cfg, ASKED, steps) && CrashRun(cfg, steps)
    ensures LoopSoFar(cfg, Reached(cfg, ASKED, steps), Effective(cfg, steps), CountOverlaps(cfg, ASKED, steps))
    decreases |steps|
  {
    if steps == [] {
      LoopBegins(cfg);
    } else {
      LoopRun(cfg, Init(steps));
      SoFarStep(cfg, Reached(cfg, ASKED, Init(steps)), steps[|steps| - 1],
                Effective(cfg, Init(steps)), CountOverlaps(cfg, ASKED, Init(steps)));
    }
  }

  lemma FuelLeft(cfg: Settings, s: System, overlaps: nat)
    requires WithinAttempts(cfg, s, overlaps)
    ensures Fuel(cfg, s) >= -100 * overlaps
  {
  }

  /**
   The loop ends, and its attempts are counted: both the effective steps and the
   attempts of a run are bounded by the limit and the overlaps of the run.
   */
  lemma CrashLoopEnds(cfg: Settings, steps: seq<Step>)
    requires OnlyCounts(cfg) && Possible(cfg, ASKED, steps) && CrashRun(cfg, steps)
    ensures Effective(cfg, steps) <= 100 * AllAttempts(cfg) + 4 + 108 * CountOverlaps(cfg, ASKED, steps)
    ensures var s := Reached(cfg, ASKED, steps).shared;
            && s.attempts <= AllAttempts(cfg) + CountOverlaps(cfg, ASKED, steps)
            && (s.state == Fatal ==> s.attempts >= AllAttempts(cfg))
  {
    LoopRun(cfg, steps);
    FuelLeft(cfg, Reached(cfg, ASKED, steps), CountOverlaps(cfg, ASKED, steps));
  }

  // ---------- the end ----------

  /** Nothing more can happen but looking on. */
  ghost predicate Over(cfg: Settings, s: System) {
    forall step :: CrashStep(cfg, s, step) ==> Looks(s, step)
  }

  /** A step that does something, and is no overlapping dispatch. */
  ghost predicate MovesOn(cfg: Settings, s: System, step: Step) {
    CrashStep(cfg, s, step) && !Looks(s, step) && OverlapsAt(cfg, s, step) == 0
  }

  lemma CommandMovesOn(cfg: Settings, s: System)
    requires LoopInv(cfg, s) && s.command.Some?
    ensures exists step :: MovesOn(cfg, s, step)
  {
    if CanAdvance(s.shared, s.command.value, true) {
      assert MovesOn(cfg, s, Cmd(true));
    } else {
      var k := s.command.value.pc.done.value;
      assert LifecycleSafety.ChildOk(s.shared, k);
      MonitorMovesOn(cfg, s, k);
    }
  }

  lemma MonitorMovesOn(cfg: Settings, s: System, k: ChildId)
    requires LoopInv(cfg, s) && k in s.shared.monitors && !s.shared.monitors[k].Gone?
    ensures exists step :: MovesOn(cfg, s, step)
  {
    MonitorIsCurrent(s.shared, s.command, k);
    var b := match s.shared.monitors[k]
      case Spawned => MonitorBegins(k)
      case Waiting(_, _) => if k in s.shared.alive then ChildDies(k) else MonitorReaps(k, 1)
      case Returned(_, _) => MonitorUpdates(k)
      case _ => MonitorEnds(k);
    assert MovesOn(cfg, s, Bg(b));
  }

  lemma PendingMovesOn(cfg: Settings, s: System)
    requires LoopInv(cfg, s) && s.command.None? && Pending(s) > 0
    ensures exists step :: MovesOn(cfg, s, step)
  {
    var step := if s.shared.sleeping > 0 then Bg(Wake) else Begin(DelayedRestart);
    assert MovesOn(cfg, s, step);
  }

  lemma ProcessMovesOn(cfg: Settings, s: System)
    requires OnlyCounts(cfg) && LoopInv(cfg, s) && s.command.None? && Pending(s) == 0 && s.shared.state != Fatal
    requires s.shared.state == Exited ==> Permitted(cfg, s.shared.exitCode)
    ensures exists step :: MovesOn(cfg, s, step)
  {
    if s.shared.state == Running {
      var k := s.shared.waitCh.value;
      assert LifecycleSafety.ChildOk(s.shared, k);
      MonitorMovesOn(cfg, s, k);
    } else {
      assert MovesOn(cfg, s, Bg(TickExited));
    }
  }

  /** If anything can be done at all, something can be done without an overlap. */
  lemma CanMoveOn(cfg: Settings, s: System)
    requires OnlyCounts(cfg) && LoopInv(cfg, s) && !Over(cfg, s)
    ensures exists step :: MovesOn(cfg, s, step)
  {
    var step :| CrashStep(cfg, s, step) && !Looks(s, step);
    if s.command.Some? {
      CommandMovesOn(cfg, s);
    } else if Pending(s) > 0 {
      PendingMovesOn(cfg, s);
    } else {
      assert MovesOn(cfg, s, step);
    }
  }

  /**
   A crash loop that cannot go on is fatal, after its attempts and no more than
   one for each overlap besides, unless it exited with a code that the policy
   treats otherwise.
   */
  lemma CrashLoopGivesUp(cfg: Settings, steps: seq<Step>)
    requires OnlyCounts(cfg) && Possible(cfg, ASKED, steps) && CrashRun(cfg, steps)
    requires Over(cfg, Reached(cfg, ASKED, steps))
    requires Permitted(cfg, Reached(cfg, ASKED, steps).shared.exitCode)
    ensures var s := Reached(cfg, ASKED, steps);
            && s.shared.state == Fatal && s.command.None?
            && AllAttempts(cfg) <= s.shared.attempts <= AllAttempts(cfg) + CountOverlaps(cfg, ASKED, steps)
  {
    LoopRun(cfg, steps);
    var s := Reached(cfg, ASKED, steps);
    if s.command.Some? {
      CommandMovesOn(cfg, s);
    } else if Pending(s) > 0 {
      PendingMovesOn(cfg, s);
    } else if s.shared.state != Fatal {
      ProcessMovesOn(cfg, s);
    }
  }

  ghost predicate Finishes(cfg: Settings, steps: seq<Step>, longer: seq<Step>) {
    steps <= longer && Possible(cfg, ASKED, longer) && CrashRun(cfg, longer) && Over(cfg, Reached(cfg, ASKED, longer))
  }

  lemma LongerRun(cfg: Settings, steps: seq<Step>, step: Step)
    requires Possible(cfg, ASKED, steps) && CrashRun(cfg, steps) && MovesOn(cfg, Reached(cfg, ASKED, steps), step)
    ensures Possible(cfg, ASKED, steps + [step]) && CrashRun(cfg, steps + [step])
    ensures Reached(cfg, ASKED, steps + [step]) == Apply(cfg, Reached(cfg, ASKED, steps), step)
    ensures CountOverlaps(cfg, ASKED, steps + [step]) == CountOverlaps(cfg, ASKED, steps)
  {
    assert Init(steps + [step]) == steps;
  }

  /** Every run of the loop, overlaps or not, can be continued until it is over. */
  lemma {:induction false} CrashLoopCanFinish(cfg: Settings, steps: seq<Step>)
    requires OnlyCounts(cfg) && Possible(cfg, ASKED, steps) && CrashRun(cfg, steps)
    ensures exists longer :: Finishes(cfg, steps, longer)
    decreases Fuel(cfg, Reached(cfg, ASKED, steps)) + 100 * CountOverlaps(cfg, ASKED, steps)
  {
    var s := Reached(cfg, ASKED, steps);
    LoopRun(cfg, steps);
    FuelLeft(cfg, s, CountOverlaps(cfg, ASKED, steps));
    if Over(cfg, s) {
      assert Finishes(cfg, steps, steps);
    } else {
      CanMoveOn(cfg, s);
      var step :| MovesOn(cfg, s, step);
      LoopStep(cfg, s, step);
      LongerRun(cfg, steps, step);
      CrashLoopCanFinish(cfg, steps + [step]);
      var longer :| Finishes(cfg, steps + [step], longer);
      assert steps <= longer;
      assert Finishes(cfg, steps, longer);
    }
  }
}
