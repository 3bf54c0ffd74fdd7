/**
 When a health restart may begin, told from the run alone: the process runs, the
 last word on its health was bad, and none has fired since the last good one.
 */
module HealthFlags {
  import opened Common
  import opened Lifecycle
  import RetryCounter

  /** The last word on the health of the process; a start that takes it over withdraws a good one. */
  ghost function LastWord(cfg: Settings, from: System, steps: seq<Step>): bool
    requires Possible(cfg, from, steps)
    decreases |steps|
  {
    if steps == [] then false
    else if steps[|steps| - 1] == Bg(HealthOk) then true
    else if steps[|steps| - 1] == Bg(HealthFails) then false
    else LastWord(cfg, from, Init(steps)) && !RetryCounter.Attempts(Reached(cfg, from, Init(steps)), steps[|steps| - 1])
  }

  /** A health restart has fired, and neither a good check nor a restart that gave way to it came after. */
  ghost function Fired(cfg: Settings, from: System, steps: seq<Step>): bool
    requires Possible(cfg, from, steps)
    decreases |steps|
  {
    if steps == [] then false
    else if steps[|steps| - 1] == Begin(HealthRestart) then true
    else if steps[|steps| - 1] == Bg(HealthOk) then false
    else if steps[|steps| - 1] == Bg(Wake) then
      Fired(cfg, from, Init(steps)) && Reached(cfg, from, Init(steps)).shared.state != Starting
    else Fired(cfg, from, Init(steps))
  }

  ghost predicate Tells(s: Shared, healthy: bool, fired: bool) {
    s.healthy == healthy && s.restartFired == fired
  }

  lemma TickTells(cfg: Settings, s: Shared)
    ensures Tells(HandleExited(cfg, s), s.healthy, s.restartFired)
  {
    PolicyDecides(cfg, s);
  }

  lemma BackgroundTells(cfg: Settings, s: Shared, b: Background)
    requires BackgroundEnabled(cfg, s, b) && !b.TickExited?
    ensures Tells(BackgroundStep(cfg, s, b), b.HealthOk? || (s.healthy && !b.HealthFails?),
                  s.restartFired && !b.HealthOk? && !(b.Wake? && s.state == Starting))
  {
  }

  lemma ClaimTells(cfg: Settings, s: Shared, kind: Kind, ok: bool)
    ensures var t := Claim(cfg, s, kind, ok).shared;
            Tells(t, s.healthy && s.state !in {Stopped, Exited, Fatal}, s.restartFired)
  {
    match s.state {
      case Stopped =>
      case Starting =>
      case Running =>
      case Stopping =>
      case Exited =>
      case Fatal =>
    }
  }

  lemma CommandTells(cfg: Settings, s: Shared, c: Command, ok: bool)
    requires !c.pc.StartClaim?
    ensures Tells(Advance(cfg, s, c, ok).shared, s.healthy, s.restartFired)
  {
  }

  lemma {:induction false} FlagsTell(cfg: Settings, steps: seq<Step>)
    requires Possible(cfg, START, steps)
    ensures Tells(Reached(cfg, START, steps).shared, LastWord(cfg, START, steps), Fired(cfg, START, steps))
    decreases |steps|
  {
    if steps != [] {
      FlagsTell(cfg, Init(steps));
      var s := Reached(cfg, START, Init(steps));
      match steps[|steps| - 1]
      case Bg(b) =>
        if b.TickExited? {
          TickTells(cfg, s.shared);
        } else {
          BackgroundTells(cfg, s.shared, b);
        }
      case Begin(_) =>
      case Cmd(ok) =>
        if s.command.value.pc.StartClaim? {
          ClaimTells(cfg, s.shared, s.command.value.kind, ok);
        } else {
          CommandTells(cfg, s.shared, s.command.value, ok);
        }
    }
  }

  /** In every run a health restart can begin exactly then, and only when the settings ask for it. */
  lemma HealthRestartBeginsIff(cfg: Settings, steps: seq<Step>)
    requires Possible(cfg, START, steps)
    ensures Enabled(cfg, Reached(cfg, START, steps), Begin(HealthRestart)) <==>
            && cfg.healthRestart && cfg.hasHealthCheck
            && Reached(cfg, START, steps).command.None? && Reached(cfg, START, steps).shared.state == Running
            && !LastWord(cfg, START, steps) && !Fired(cfg, START, steps)
  {
    FlagsTell(cfg, steps);
  }
}
