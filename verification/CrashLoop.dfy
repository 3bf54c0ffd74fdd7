/**
 How often a process is started again. Restarts that the tick dispatches are
 bounded between two resets of the counter, up to dispatches that overlap a
 pending restart; a process that only crashes is given up after its attempts.
 */
module CrashLoop {
  import opened Common
  import opened Lifecycle

  function Max(a: int, b: int): int {
    if a < b then b else a
  }

  // ---------- dispatched restarts in any run ----------

  /** The delayed restart has not taken the process over yet. */
  predicate BeforeClaim(pc: Pc) {
    pc.DelayedCheck? || pc.StartCheck? || pc.StartWait? || pc.StartClaim?
  }

  function Active(c: Option<Command>): nat {
    if c.Some? && c.value.kind == DelayedRestart && BeforeClaim(c.value.pc) then 1 else 0
  }

  /** The restart goroutines that have not yet taken the process over or given up. */
  function Pending(s: System): nat {
    s.shared.sleeping + s.shared.woken + Active(s.command)
  }

  /** A tick that dispatches a restart although one is pending. */
  ghost predicate Overlaps(cfg: Settings, s: System, step: Step)
    requires Enabled(cfg, s, step)
  {
    step.Bg? && step.step.TickExited? && Apply(cfg, s, step).shared.sleeping > s.shared.sleeping && Pending(s) > 0
  }

  ghost function CountOverlaps(cfg: Settings, from: System, steps: seq<Step>): nat
    requires Possible(cfg, from, steps)
    decreases |steps|
  {
    if steps == [] then 0
    else CountOverlaps(cfg, from, Init(steps)) + OverlapsAt(cfg, Reached(cfg, from, Init(steps)), steps[|steps| - 1])
  }

  /** Since the last reset, no more restarts were dispatched than the counter shows. */
  ghost predicate Counted(s: Shared) {
    s.dispatched <= s.retries && s.attempts == s.retries
  }

  ghost function Owed(s: System): nat {
    s.shared.dispatched + Pending(s)
  }

  lemma BackgroundDispatches(cfg: Settings, s: System, b: Background)
    requires Enabled(cfg, s, Bg(b)) && Counted(s.shared)
    ensures var t := Apply(cfg, s, Bg(b));
            && Counted(t.shared)
            && (Owed(t) <= Owed(s) || Owed(t) <= Max(cfg.limit + 1, 0) || (Overlaps(cfg, s, Bg(b)) && Owed(t) <= Owed(s) + 1))
  {
  }

  lemma BeginDispatches(cfg: Settings, s: System, kind: Kind)
    requires Enabled(cfg, s, Begin(kind)) && Counted(s.shared)
    ensures Counted(Apply(cfg, s, Begin(kind)).shared) && Owed(Apply(cfg, s, Begin(kind))) <= Owed(s)
  {
  }

  /** Past its claim, a command is no pending restart. */
  lemma LateCommandIsNotPending(cfg: Settings, s: Shared, c: Command, ok: bool)
    requires !BeforeClaim(c.pc) && (c.pc.RestartBetween? ==> c.kind != DelayedRestart)
    ensures Active(Advance(cfg, s, c, ok).command) == 0
  {
  }

  lemma LateCommandDispatchesNothing(cfg: Settings, s: Shared, c: Command, ok: bool)
    requires !BeforeClaim(c.pc)
    ensures var a := Advance(cfg, s, c, ok);
            && a.shared.retries == s.retries && a.shared.attempts == s.attempts
            && a.shared.dispatched == s.dispatched && a.shared.sleeping == s.sleeping && a.shared.woken == s.woken
  {
  }

  lemma EarlyCommandClaimsOnce(cfg: Settings, s: Shared, c: Command, ok: bool)
    requires Counted(s) && BeforeClaim(c.pc)
    ensures var a := Advance(cfg, s, c, ok);
            && Counted(a.shared)
            && a.shared.dispatched + Active(a.command) <= s.dispatched + Active(Some(c))
            && a.shared.sleeping == s.sleeping && a.shared.woken == s.woken
  {
  }

  /** A delayed restart never stops the process. */
  ghost predicate KindOk(c: Option<Command>) {
    c.Some? && c.value.kind == DelayedRestart ==>
      !c.value.pc.RestartBegin? && !c.value.pc.StopBegin? && !c.value.pc.StopWait? && !c.value.pc.StopFinish?
      && !c.value.pc.RestartBetween?
  }

  lemma StepKeepsKind(cfg: Settings, s: System, step: Step)
    requires Enabled(cfg, s, step) && KindOk(s.command)
    ensures KindOk(Apply(cfg, s, step).command)
  {
  }

  lemma StepDispatches(cfg: Settings, s: System, step: Step)
    requires Enabled(cfg, s, step) && Counted(s.shared) && KindOk(s.command)
    ensures var t := Apply(cfg, s, step);
            && Counted(t.shared)
            && (Owed(t) <= Owed(s) || Owed(t) <= Max(cfg.limit + 1, 0) || (Overlaps(cfg, s, step) && Owed(t) <= Owed(s) + 1))
  {
    match step
    case Bg(b) => BackgroundDispatches(cfg, s, b);
    case Begin(kind) => BeginDispatches(cfg, s, kind);
    case Cmd(ok) =>
      if BeforeClaim(s.command.value.pc) {
        EarlyCommandClaimsOnce(cfg, s.shared, s.command.value, ok);
      } else {
        LateCommandIsNotPending(cfg, s.shared, s.command.value, ok);
        LateCommandDispatchesNothing(cfg, s.shared, s.command.value, ok);
      }
  }

  ghost predicate Within(cfg: Settings, s: System, overlaps: nat) {
    Counted(s.shared) && KindOk(s.command) && Owed(s) <= Max(cfg.limit + 1, 0) + overlaps
  }

  ghost function OverlapsAt(cfg: Settings, s: System, step: Step): nat
    requires Enabled(cfg, s, step)
  {
    if Overlaps(cfg, s, step) then 1 else 0
  }

  lemma StepStaysWithin(cfg: Settings, s: System, step: Step, overlaps: nat)
    requires Enabled(cfg, s, step) && Within(cfg, s, overlaps)
    ensures Within(cfg, Apply(cfg, s, step), overlaps + OverlapsAt(cfg, s, step))
  {
    StepDispatches(cfg, s, step);
    StepKeepsKind(cfg, s, step);
  }

  lemma {:induction false} RunStaysWithin(cfg: Settings, steps: seq<Step>)
    requires Possible(cfg, START, steps)
    ensures Within(cfg, Reached(cfg, START, steps), CountOverlaps(cfg, START, steps))
    decreases |steps|
  {
    if steps != [] {
      RunStaysWithin(cfg, Init(steps));
      StepStaysWithin(cfg, Reached(cfg, START, Init(steps)), steps[|steps| - 1], CountOverlaps(cfg, START, Init(steps)));
    }
  }

  /**
   In every run, the restarts dispatched since the last reset, with those still
   pending, number at most limit + 1 and the overlapping dispatches of the run.
   */
  lemma DispatchesAreBounded(cfg: Settings, steps: seq<Step>)
    requires Possible(cfg, START, steps)
    ensures Owed(Reached(cfg, START, steps)) <= Max(cfg.limit + 1, 0) + CountOverlaps(cfg, START, steps)
  {
    RunStaysWithin(cfg, steps);
  }

  // ---------- settings under which nothing is ever dispatched ----------

  /** After this exit code a restart can be dispatched: it is permitted, and the counter can be low enough. */
  predicate Usable(cfg: Settings, code: int) {
    ShouldRestartOnExitCode(cfg, code) && (cfg.limit >= 1 || cfg.startSecs > 0 || code in cfg.exitCodes)
  }

  ghost predicate CanDispatch(cfg: Settings) {
    cfg.autoRestart && cfg.limit >= 0 && exists code :: Usable(cfg, code)
  }

  /** The counter is never cleared. */
  ghost predicate NeverResets(cfg: Settings) {
    cfg.startSecs <= 0 && forall code :: code in cfg.exitCodes ==> !(cfg.autoRestart && ShouldRestartOnExitCode(cfg, code))
  }

  /** No start has taken the process over yet. */
  ghost predicate Unclaimed(s: System) {
    && s.shared.state == Stopped && s.shared.monitors == map[] && s.shared.cmd.None?
    && (s.command.Some? ==>
          var pc := s.command.value.pc;
          pc.StartCheck? || pc.StartWait? || pc.StartClaim? || pc.StopBegin? || pc.RestartBegin? || pc.RestartBetween?)
  }

  ghost predicate Undispatched(cfg: Settings, s: System) {
    && s.shared.sleeping == 0 && s.shared.woken == 0 && s.shared.dispatched == 0 && s.shared.retries >= 0
    && (s.command.Some? ==> s.command.value.kind != DelayedRestart)
    && (NeverResets(cfg) ==> s.shared.retries >= 1 || Unclaimed(s))
  }

  lemma TickDispatchesNothing(cfg: Settings, s: System)
    requires !CanDispatch(cfg) && Undispatched(cfg, s)
    ensures Undispatched(cfg, s.(shared := HandleExited(cfg, s.shared)))
  {
    if cfg.autoRestart && s.shared.state == Exited && ShouldRestartOnExitCode(cfg, s.shared.exitCode) {
      assert !Usable(cfg, s.shared.exitCode) || cfg.limit < 0;
      if cfg.limit == 0 {
        forall code | code in cfg.exitCodes ensures !ShouldRestartOnExitCode(cfg, code) {
          assert !Usable(cfg, code);
        }
      }
    }
  }

  lemma BackgroundDispatchesNothing(cfg: Settings, s: System, b: Background)
    requires !CanDispatch(cfg) && Undispatched(cfg, s) && Enabled(cfg, s, Bg(b)) && !b.TickExited?
    ensures Undispatched(cfg, Apply(cfg, s, Bg(b)))
  {
  }

  lemma BeginDispatchesNothing(cfg: Settings, s: System, kind: Kind)
    requires Undispatched(cfg, s) && Enabled(cfg, s, Begin(kind))
    ensures Undispatched(cfg, Apply(cfg, s, Begin(kind)))
  {
  }

  lemma CommandKeepsItsKind(cfg: Settings, s: Shared, c: Command, ok: bool)
    ensures var a := Advance(cfg, s, c, ok).command; a.Some? ==> a.value.kind == c.kind
  {
  }

  lemma FirstClaimCounts(cfg: Settings, s: System, ok: bool)
    requires Unclaimed(s) && Enabled(cfg, s, Cmd(ok))
    ensures var t := Apply(cfg, s, Cmd(ok)); t.shared.retries > s.shared.retries || Unclaimed(t)
  {
  }

  lemma EarlyCommandDispatchesNothing(cfg: Settings, s: Shared, c: Command, ok: bool)
    requires BeforeClaim(c.pc) && c.kind != DelayedRestart
    ensures var a := Advance(cfg, s, c, ok).shared;
            && a.retries >= s.retries
            && a.dispatched == s.dispatched && a.sleeping == s.sleeping && a.woken == s.woken
  {
  }

  lemma CommandDispatchesNothing(cfg: Settings, s: System, ok: bool)
    requires Undispatched(cfg, s) && Enabled(cfg, s, Cmd(ok))
    ensures Undispatched(cfg, Apply(cfg, s, Cmd(ok)))
  {
    var c := s.command.value;
    CommandKeepsItsKind(cfg, s.shared, c, ok);
    if BeforeClaim(c.pc) {
      EarlyCommandDispatchesNothing(cfg, s.shared, c, ok);
    } else {
      LateCommandDispatchesNothing(cfg, s.shared, c, ok);
    }
    if Unclaimed(s) {
      FirstClaimCounts(cfg, s, ok);
    }
  }

  lemma {:induction false} RunDispatchesNothing(cfg: Settings, from: System, steps: seq<Step>)
    requires !CanDispatch(cfg) && Undispatched(cfg, from) && Possible(cfg, from, steps)
    ensures Undispatched(cfg, Reached(cfg, from, steps))
    decreases |steps|
  {
    if steps != [] {
      RunDispatchesNothing(cfg, from, Init(steps));
      var s := Reached(cfg, from, Init(steps));
      match steps[|steps| - 1]
      case Bg(b) =>
        if b.TickExited? {
          TickDispatchesNothing(cfg, s);
        } else {
          BackgroundDispatchesNothing(cfg, s, b);
        }
      case Begin(kind) => BeginDispatchesNothing(cfg, s, kind);
      case Cmd(ok) => CommandDispatchesNothing(cfg, s, ok);
    }
  }
}
