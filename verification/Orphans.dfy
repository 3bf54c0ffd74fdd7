/**
 No child is forgotten: whatever lives is the installed child of the process, or
 in the hands of a start that is about to install it or to kill it.
 */
module Orphans {
  import opened Common
  import opened Lifecycle
  import opened LifecycleSafety

  ghost predicate InHand(c: Option<Command>, k: ChildId) {
    c.Some? && (c.value.pc == StartInstall(k) || c.value.pc == StartKill(k))
  }

  ghost predicate NoOrphan(s: Shared, c: Option<Command>) {
    forall k :: k in s.alive ==> k in s.unreaped || InHand(c, k)
  }

  lemma BackgroundOrphansNone(cfg: Settings, s: Shared, c: Option<Command>, b: Background)
    requires Inv(s, c) && NoOrphan(s, c) && BackgroundEnabled(cfg, s, b)
    ensures NoOrphan(BackgroundStep(cfg, s, b), c)
  {
    if b.TickExited? {
      PolicyDecides(cfg, s);
    } else if b.MonitorReaps? {
      assert ChildOk(s, b.id);
    }
  }

  lemma StartOrphansNone(cfg: Settings, s: Shared, c: Command, ok: bool)
    requires NoOrphan(s, Some(c)) && (c.pc.StartFork? || c.pc.StartInstall? || c.pc.StartKill?)
    ensures NoOrphan(Advance(cfg, s, c, ok).shared, Advance(cfg, s, c, ok).command)
  {
  }

  /** The other sections fork and kill nothing. */
  lemma OthersTouchNoChild(cfg: Settings, s: Shared, c: Command, ok: bool)
    requires !(c.pc.StartFork? || c.pc.StartInstall? || c.pc.StartKill?)
    ensures Advance(cfg, s, c, ok).shared.alive == s.alive && Advance(cfg, s, c, ok).shared.unreaped == s.unreaped
  {
  }

  lemma StepOrphansNone(cfg: Settings, s: System, step: Step)
    requires Inv(s.shared, s.command) && NoOrphan(s.shared, s.command) && Enabled(cfg, s, step)
    ensures NoOrphan(Apply(cfg, s, step).shared, Apply(cfg, s, step).command)
  {
    match step
    case Bg(b) => BackgroundOrphansNone(cfg, s.shared, s.command, b);
    case Begin(_) =>
    case Cmd(ok) =>
      var c := s.command.value;
      if c.pc.StartFork? || c.pc.StartInstall? || c.pc.StartKill? {
        StartOrphansNone(cfg, s.shared, c, ok);
      } else {
        OthersTouchNoChild(cfg, s.shared, c, ok);
      }
  }

  /** In every run, a living child is installed and unreaped, or a start still has it in hand. */
  lemma {:induction false} RunsOrphanNone(cfg: Settings, steps: seq<Step>)
    requires Possible(cfg, START, steps)
    ensures NoOrphan(Reached(cfg, START, steps).shared, Reached(cfg, START, steps).command)
    decreases |steps|
  {
    if steps != [] {
      RunsOrphanNone(cfg, Init(steps));
      StartsSafe();
      RunKeepsInv(cfg, START, Init(steps));
      StepOrphansNone(cfg, Reached(cfg, START, Init(steps)), steps[|steps| - 1]);
    }
  }

  /** So between commands a process that neither runs nor is being stopped has no living child. */
  lemma IdleHasNoChild(cfg: Settings, steps: seq<Step>)
    requires Possible(cfg, START, steps) && Reached(cfg, START, steps).command.None?
    requires Reached(cfg, START, steps).shared.state != Running
    ensures Reached(cfg, START, steps).shared.alive == {}
  {
    RunsOrphanNone(cfg, steps);
    StartsSafe();
    RunKeepsInv(cfg, START, steps);
    var s := Reached(cfg, START, steps).shared;
    InvAccountsForChildren(s, None);
    assert forall k :: k !in s.alive;
  }
}
