/**
 How commands end when they do not come through: an outside call fails, the
 process is in no state for them, or it has changed hands meanwhile.
 */
module Outcomes {
  import opened Common
  import opened Lifecycle
  import opened Crowds
  import opened WholeCommands

  // ---------- an outside call fails ----------

  /** A restart of the supervisor's own gives up a process whose counter is over the limit; a user's start does not. */
  function FailedState(cfg: Settings, retries: int, kind: Kind): ProcState {
    if (kind == DelayedRestart || kind == HealthRestart) && retries > cfg.limit then Fatal else Exited
  }

  function TailSteps(kind: Kind): seq<Step> {
    if kind == DelayedRestart || kind == HealthRestart then [Cmd(true)] else []
  }

  function Failing(kind: Kind): Option<Command> {
    if kind == DelayedRestart then Some(Command(kind, DelayedFailed))
    else if kind == HealthRestart then Some(Command(kind, HealthFailed))
    else None
  }

  lemma {:induction false} TailEnds(cfg: Settings, from: System, p: seq<Step>, s: Shared, kind: Kind)
    requires Goes(cfg, from, p, System(s, Failing(kind))) && s.state == Exited
    ensures Goes(cfg, from, p + TailSteps(kind), System(s.(state := FailedState(cfg, s.retries, kind)), None))
  {
    if kind == DelayedRestart || kind == HealthRestart {
      CommandGoesOn(cfg, from, p, s, Failing(kind).value);
    } else {
      assert p + [] == p;
    }
  }

  lemma {:induction false} ForkFails(cfg: Settings, s: Shared, kind: Kind)
    requires s.state == Starting
    ensures Goes(cfg, System(s, Some(Command(kind, StartFork))), [Cmd(false), Cmd(true)] + TailSteps(kind),
                 System(s.(state := FailedState(cfg, s.retries, kind)), None))
  {
    var from := System(s, Some(Command(kind, StartFork)));
    assert Goes(cfg, from, [], from);
    GoesOn(cfg, from, [], from, Cmd(false));
    assert [] + [Cmd(false)] == [Cmd(false)];
    CommandGoesOn(cfg, from, [Cmd(false)], s, Command(kind, StartFailed));
    assert [Cmd(false)] + [Cmd(true)] == [Cmd(false), Cmd(true)];
    TailEnds(cfg, from, [Cmd(false), Cmd(true)], s.(state := Exited), kind);
  }

  lemma {:induction false} SocketFails(cfg: Settings, s: Shared, kind: Kind)
    ensures Goes(cfg, System(s, Some(Command(kind, StartSocket))), [Cmd(false)] + TailSteps(kind),
                 System(s.(state := FailedState(cfg, s.retries, kind)), None))
  {
    var from := System(s, Some(Command(kind, StartSocket)));
    assert Goes(cfg, from, [], from);
    GoesOn(cfg, from, [], from, Cmd(false));
    assert [] + [Cmd(false)] == [Cmd(false)];
    TailEnds(cfg, from, [Cmd(false)], s.(state := Exited), kind);
  }

  lemma {:induction false} ClaimFails(cfg: Settings, s: Shared, kind: Kind)
    requires s.state in {Stopped, Exited, Fatal}
    ensures Advance(cfg, s, Command(kind, StartClaim), false) == Turn(Claimed(s, kind).(state := Exited), Failing(kind))
  {
  }

  /** The user to run as is unknown: the attempt counts all the same. */
  lemma {:induction false} UserIsUnknown(cfg: Settings, s: Shared, kind: Kind)
    requires s.state in {Stopped, Exited, Fatal}
    ensures Goes(cfg, System(s, Some(Command(kind, StartClaim))), [Cmd(false)] + TailSteps(kind),
                 System(Claimed(s, kind).(state := FailedState(cfg, s.retries + 1, kind)), None))
  {
    var from := System(s, Some(Command(kind, StartClaim)));
    var t := Claimed(s, kind).(state := Exited);
    assert Goes(cfg, from, [], from);
    GoesOn(cfg, from, [], from, Cmd(false));
    assert [] + [Cmd(false)] == [Cmd(false)];
    ClaimFails(cfg, s, kind);
    assert Apply(cfg, from, Cmd(false)) == System(t, Failing(kind));
    TailEnds(cfg, from, [Cmd(false)], t, kind);
  }

  // ---------- a command is refused ----------

  /** The command ends at its first section. */
  ghost predicate EndsAtOnce(cfg: Settings, s: Shared, kind: Kind, t: Shared) {
    Goes(cfg, System(s, None), [Begin(kind), Cmd(true)], System(t, None))
  }

  lemma {:induction false} FirstSection(cfg: Settings, s: Shared, kind: Kind, c: Command)
    requires kind == UserStart || kind == UserStop || kind == UserRestart
    requires BeginCommand(s, kind) == Turn(s, Some(c)) && CanAdvance(s, c, true)
    ensures Goes(cfg, System(s, None), [Begin(kind), Cmd(true)],
                 System(Advance(cfg, s, c, true).shared, Advance(cfg, s, c, true).command))
  {
    var from := System(s, None);
    assert Goes(cfg, from, [], from);
    GoesOn(cfg, from, [], from, Begin(kind));
    assert [] + [Begin(kind)] == [Begin(kind)];
    CommandGoesOn(cfg, from, [Begin(kind)], s, c);
    assert [Begin(kind)] + [Cmd(true)] == [Begin(kind), Cmd(true)];
  }

  /** A running process is not started again. */
  lemma {:induction false} StartOfRunning(cfg: Settings, s: Shared)
    requires s.state == Running
    ensures EndsAtOnce(cfg, s, UserStart, s)
  {
    FirstSection(cfg, s, UserStart, Command(UserStart, StartCheck));
  }

  /** A fatal process is not restarted, nor one that is starting or stopping. */
  lemma {:induction false} RestartRefused(cfg: Settings, s: Shared)
    requires s.state in {Fatal, Starting, Stopping}
    ensures EndsAtOnce(cfg, s, UserRestart, s)
  {
    FirstSection(cfg, s, UserRestart, Command(UserRestart, RestartBegin));
  }

  /** A process that does not run is stopped without waiting for anything. */
  lemma {:induction false} StopOfIdle(cfg: Settings, s: Shared)
    requires s.cmd.None? || s.state !in {Running, Stopping}
    ensures EndsAtOnce(cfg, s, UserStop, s.(state := Stopped))
  {
    FirstSection(cfg, s, UserStop, Command(UserStop, StopBegin));
  }

  // ---------- the process has changed hands ----------

  /** A start that lost the process before it forked leaves everything as it is. */
  lemma {:induction false} StartGivesWay(cfg: Settings, s: Shared, kind: Kind)
    ensures s.state in {Running, Starting, Stopping} ==>
              Advance(cfg, s, Command(kind, StartClaim), true) == Turn(s, Failing(kind))
    ensures s.state != Starting ==> Advance(cfg, s, Command(kind, StartSocket), true) == Turn(s, Failing(kind))
  {
  }

  /** A start that lost the process while it forked kills its child and leaves the rest as it is. */
  lemma {:induction false} StartKillsItsChild(cfg: Settings, s: Shared, kind: Kind, k: ChildId)
    requires s.state != Starting
    ensures var a := Advance(cfg, s, Command(kind, StartInstall(k)), true);
            && a.shared == s && a.command.Some?
            && Advance(cfg, s, a.command.value, true) == Turn(s.(alive := s.alive - {k}), Failing(kind))
  {
  }

  lemma {:induction false} RestartGivesWay(cfg: Settings, s: Shared, kind: Kind)
    ensures s.state in {Running, Starting} ==> Advance(cfg, s, Command(kind, RestartBetween), true) == Turn(s, None)
    ensures s.state != Exited ==> Advance(cfg, s, Command(DelayedRestart, DelayedCheck), true) == Turn(s, None)
  {
  }

  /**
   A sleeping restart that wakes up: it bails out when the process was stopped or
   a health restart has taken over, and goes on otherwise.
   */
  lemma {:induction false} WakeDecides(cfg: Settings, s: Shared)
    requires s.sleeping > 0
    ensures var t := BackgroundStep(cfg, s, Wake);
            && t.sleeping == s.sleeping - 1
            && t.woken == s.woken + (if s.state in {Stopped, Stopping} || (s.state == Starting && s.restartFired) then 0 else 1)
            && t.state == (if s.state == Starting then Exited else s.state)
            && t.restartFired == (s.restartFired && s.state != Starting)
            && t.retries == s.retries && t.cmd == s.cmd && t.pid == s.pid && t.waitCh == s.waitCh
  {
  }
}
