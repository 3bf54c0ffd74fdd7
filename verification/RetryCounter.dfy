/**
 What the retry counter counts: the attempts since it was last cleared, and it
 is cleared only after a start that lasted, or by an expected exit code.
 */
module RetryCounter {
  import opened Common
  import opened Lifecycle

  /** A look at a process that has run long enough, in good health if anything checks it. */
  ghost predicate Lasted(cfg: Settings, s: Shared, step: Step) {
    && step == Bg(TickRunning(true)) && cfg.startSecs > 0 && s.state != Stopping
    && (cfg.hasHealthCheck ==> s.healthy)
  }

  /** A tick at an exited process that is to be restarted after an expected exit code. */
  ghost predicate Expected(cfg: Settings, s: Shared, step: Step) {
    && step == Bg(TickExited) && cfg.autoRestart && s.state == Exited && s.exitCode in cfg.exitCodes
    && (if cfg.restartCodes != [] then s.exitCode in cfg.restartCodes else s.exitCode !in cfg.noRestartCodes)
  }

  ghost predicate Clears(cfg: Settings, s: Shared, step: Step) {
    Lasted(cfg, s, step) || Expected(cfg, s, step)
  }

  /** A start takes the process over. */
  ghost predicate Attempts(s: System, step: Step) {
    && step.Cmd? && s.command.Some? && s.command.value.pc.StartClaim?
    && s.shared.state in {Stopped, Exited, Fatal}
  }

  /** The attempts of a run since the counter was last cleared. */
  ghost function AttemptsSince(cfg: Settings, from: System, steps: seq<Step>): nat
    requires Possible(cfg, from, steps)
    decreases |steps|
  {
    if steps == [] then 0
    else
      var s, step := Reached(cfg, from, Init(steps)), steps[|steps| - 1];
      if Clears(cfg, s.shared, step) then 0
      else AttemptsSince(cfg, from, Init(steps)) + (if Attempts(s, step) then 1 else 0)
  }

  lemma TickCounts(cfg: Settings, s: Shared)
    ensures HandleExited(cfg, s).retries == if Expected(cfg, s, Bg(TickExited)) then 0 else s.retries
  {
    PolicyDecides(cfg, s);
  }

  lemma BackgroundCounts(cfg: Settings, s: Shared, b: Background)
    requires BackgroundEnabled(cfg, s, b) && !b.TickExited?
    ensures BackgroundStep(cfg, s, b).retries == if Clears(cfg, s, Bg(b)) then 0 else s.retries
  {
  }

  lemma ClaimCounts(cfg: Settings, s: Shared, kind: Kind, ok: bool)
    ensures Claim(cfg, s, kind, ok).shared.retries == s.retries + if s.state in {Stopped, Exited, Fatal} then 1 else 0
  {
    match s.state {
      case Stopped =>
      case Starting =>
      case Running =>
      case Stopping =>
      case Exited =>
      case Fatal =>
    }
  }

  lemma CommandCounts(cfg: Settings, s: Shared, c: Command, ok: bool)
    requires !c.pc.StartClaim?
    ensures Advance(cfg, s, c, ok).shared.retries == s.retries
  {
  }

  lemma StepCounts(cfg: Settings, s: System, step: Step)
    requires Enabled(cfg, s, step)
    ensures Apply(cfg, s, step).shared.retries ==
            if Clears(cfg, s.shared, step) then 0 else s.shared.retries + (if Attempts(s, step) then 1 else 0)
  {
    match step
    case Bg(b) =>
      if b.TickExited? {
        TickCounts(cfg, s.shared);
      } else {
        BackgroundCounts(cfg, s.shared, b);
      }
    case Begin(_) =>
    case Cmd(ok) =>
      if s.command.value.pc.StartClaim? {
        ClaimCounts(cfg, s.shared, s.command.value.kind, ok);
      } else {
        CommandCounts(cfg, s.shared, s.command.value, ok);
      }
  }

  /** In every run the counter is the number of attempts since it was last cleared. */
  lemma {:induction false} CounterCounts(cfg: Settings, steps: seq<Step>)
    requires Possible(cfg, START, steps)
    ensures Reached(cfg, START, steps).shared.retries == AttemptsSince(cfg, START, steps)
    decreases |steps|
  {
    if steps != [] {
      CounterCounts(cfg, Init(steps));
      StepCounts(cfg, Reached(cfg, START, Init(steps)), steps[|steps| - 1]);
    }
  }
}
