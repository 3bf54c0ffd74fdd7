/**
 Whole commands whose outside calls succeed and whose waits are ended by children
 and monitors winding down: a start leaves a fresh child running, and so does a
 restart, whatever the background does while it stops the old one.
 */
module WholeCommands {
  import opened Common
  import opened Lifecycle
  import opened LifecycleSafety
  import opened Crowds

  /** The steps lead from one state to the other. */
  ghost predicate Goes(cfg: Settings, from: System, steps: seq<Step>, to: System) {
    Possible(cfg, from, steps) && Reached(cfg, from, steps) == to
  }

  lemma {:induction false} GoesOn(cfg: Settings, from: System, steps: seq<Step>, s: System, step: Step)
    requires Goes(cfg, from, steps, s) && Enabled(cfg, s, step)
    ensures Goes(cfg, from, steps + [step], Apply(cfg, s, step))
  {
    Extended(cfg, from, steps, step);
  }

  /** A command goes on, and its outside calls succeed. */
  lemma {:induction false} CommandGoesOn(cfg: Settings, from: System, steps: seq<Step>, s: Shared, c: Command)
    requires Goes(cfg, from, steps, System(s, Some(c))) && CanAdvance(s, c, true)
    ensures Goes(cfg, from, steps + [Cmd(true)], System(Advance(cfg, s, c, true).shared, Advance(cfg, s, c, true).command))
  {
    GoesOn(cfg, from, steps, System(s, Some(c)), Cmd(true));
  }

  lemma {:induction false} LastApart(p: seq<Step>, q: seq<Step>)
    requires q != []
    ensures p + Init(q) + [q[|q| - 1]] == p + q
  {
  }

  lemma {:induction false} GoesFar(cfg: Settings, from: System, p: seq<Step>, s: System, q: seq<Step>)
    requires Goes(cfg, from, p, s) && Possible(cfg, s, q)
    ensures Goes(cfg, from, p + q, Reached(cfg, s, q))
    decreases |q|
  {
    if q == [] {
      assert p + q == p;
    } else {
      GoesFar(cfg, from, p, s, Init(q));
      GoesOn(cfg, from, p + Init(q), Reached(cfg, s, Init(q)), q[|q| - 1]);
      LastApart(p, q);
    }
  }

  // ---------- the background during a wait ----------

  ghost predicate AllWindDown(bs: seq<Background>) {
    forall i :: 0 <= i < |bs| ==> WindsDown(bs[i])
  }

  /** What the background leaves as it is. */
  ghost predicate SameStarts(s: Shared, t: Shared) {
    t.nextChild == s.nextChild && t.starts == s.starts && t.monitorDone == s.monitorDone && t.clock >= s.clock
  }

  lemma {:induction false} TickStartsNone(cfg: Settings, s: Shared)
    ensures SameStarts(s, HandleExited(cfg, s))
  {
    PolicyDecides(cfg, s);
  }

  lemma {:induction false} BackgroundStartsNone(cfg: Settings, s: Shared, b: Background)
    requires BackgroundEnabled(cfg, s, b)
    ensures SameStarts(s, BackgroundStep(cfg, s, b))
  {
    if b.TickExited? {
      TickStartsNone(cfg, s);
    }
  }

  lemma {:induction false} BackgroundRunStartsNone(cfg: Settings, s: System, bs: seq<Background>)
    requires Possible(cfg, s, Bgs(bs))
    ensures SameStarts(s.shared, Reached(cfg, s, Bgs(bs)).shared)
    decreases |bs|
  {
    if bs != [] {
      var before := bs[..|bs| - 1];
      assert Init(Bgs(bs)) == Bgs(before);
      BackgroundRunStartsNone(cfg, s, before);
      BackgroundStartsNone(cfg, Reached(cfg, s, Bgs(before)).shared, bs[|bs| - 1]);
    }
  }

  /** Winding down does not change the state of a process that does not run. */
  lemma {:induction false} WindingKeepsState(cfg: Settings, s: System, b: Background)
    requires Inv(s.shared, s.command) && BackgroundEnabled(cfg, s.shared, b) && WindsDown(b)
    requires s.shared.state in {Stopped, Exited, Fatal}
    ensures BackgroundStep(cfg, s.shared, b).state == s.shared.state && BackgroundStep(cfg, s.shared, b).clock == s.shared.clock
  {
    if b.MonitorUpdates? {
      NoReportAtRest(s.shared, s.command, b.id);
    }
  }

  lemma {:induction false} NoReportAtRest(s: Shared, c: Option<Command>, k: ChildId)
    requires Inv(s, c) && s.state in {Stopped, Exited, Fatal} && k in s.monitors
    ensures !s.monitors[k].Returned?
  {
    assert ChildOk(s, k);
  }

  lemma {:induction false} WindingRunKeepsState(cfg: Settings, s: System, bs: seq<Background>)
    requires Inv(s.shared, s.command) && Possible(cfg, s, Bgs(bs)) && AllWindDown(bs)
    requires s.shared.state in {Stopped, Exited, Fatal}
    ensures Reached(cfg, s, Bgs(bs)).shared.state == s.shared.state
    ensures Reached(cfg, s, Bgs(bs)).shared.clock == s.shared.clock
    decreases |bs|
  {
    if bs != [] {
      var before := bs[..|bs| - 1];
      assert Init(Bgs(bs)) == Bgs(before);
      WindingRunKeepsState(cfg, s, before);
      RunKeepsInv(cfg, s, Bgs(before));
      WindingKeepsState(cfg, Reached(cfg, s, Bgs(before)), bs[|bs| - 1]);
    }
  }

  // ---------- a start ----------

  /** The steps of a start that has waited: it takes over, forks, installs its child and spawns the monitor. */
  function ForkSteps(cfg: Settings): seq<Step> {
    ClaimSteps(cfg) + [Cmd(true), Cmd(true), Cmd(true)]
  }

  function ClaimSteps(cfg: Settings): seq<Step> {
    if cfg.hasSocket then [Cmd(true), Cmd(true), Cmd(true)] else [Cmd(true), Cmd(true)]
  }

  /** The wait is over. */
  lemma {:induction false} WaitRuns(cfg: Settings, from: System, p: seq<Step>, s: Shared, kind: Kind)
    requires Goes(cfg, from, p, System(s, Some(Command(kind, StartWait(s.monitorDone))))) && CanStart(s)
    ensures Goes(cfg, from, p + [Cmd(true)], System(s, Some(Command(kind, StartClaim))))
  {
    CommandGoesOn(cfg, from, p, s, Command(kind, StartWait(s.monitorDone)));
  }

  lemma {:induction false} ClaimRuns(cfg: Settings, from: System, p: seq<Step>, s: Shared, kind: Kind)
    requires Goes(cfg, from, p, System(s, Some(Command(kind, StartClaim)))) && CanStart(s)
    ensures Goes(cfg, from, p + [Cmd(true)],
                 System(Claimed(s, kind), Some(Command(kind, if cfg.hasSocket then StartSocket else StartFork))))
  {
    CommandGoesOn(cfg, from, p, s, Command(kind, StartClaim));
  }

  lemma {:induction false} ForkRuns(cfg: Settings, from: System, p: seq<Step>, s: Shared, kind: Kind)
    requires Goes(cfg, from, p, System(s, Some(Command(kind, StartFork)))) && s.state == Starting
    ensures Goes(cfg, from, p + [Cmd(true)] + [Cmd(true)] + [Cmd(true)], System(Forked(cfg, s), None))
  {
    var k := s.nextChild;
    CommandGoesOn(cfg, from, p, s, Command(kind, StartFork));
    var t := s.(alive := s.alive + {k}, nextChild := k + 1);
    CommandGoesOn(cfg, from, p + [Cmd(true)], t, Command(kind, StartInstall(k)));
    CommandGoesOn(cfg, from, p + [Cmd(true)] + [Cmd(true)], Install(cfg, t, k), Command(kind, StartSpawn(k)));
  }

  lemma {:induction false} SocketRuns(cfg: Settings, from: System, p: seq<Step>, s: Shared, kind: Kind)
    requires cfg.hasSocket && s.state == Starting && Goes(cfg, from, p, System(s, Some(Command(kind, StartSocket))))
    ensures Goes(cfg, from, p + [Cmd(true)], System(s, Some(Command(kind, StartFork))))
  {
    CommandGoesOn(cfg, from, p, s, Command(kind, StartSocket));
  }

  /** The start has taken the process over and is about to fork. */
  lemma {:induction false} ClaimedRuns(cfg: Settings, from: System, p: seq<Step>, s: Shared, kind: Kind)
    requires Goes(cfg, from, p, System(s, Some(Command(kind, StartWait(s.monitorDone))))) && CanStart(s)
    ensures Goes(cfg, from, p + ClaimSteps(cfg), System(Claimed(s, kind), Some(Command(kind, StartFork))))
  {
    WaitRuns(cfg, from, p, s, kind);
    ClaimRuns(cfg, from, p + [Cmd(true)], s, kind);
    if cfg.hasSocket {
      SocketRuns(cfg, from, p + [Cmd(true)] + [Cmd(true)], Claimed(s, kind), kind);
      assert p + [Cmd(true)] + [Cmd(true)] + [Cmd(true)] == p + ClaimSteps(cfg);
    } else {
      assert p + [Cmd(true)] + [Cmd(true)] == p + ClaimSteps(cfg);
    }
  }

  lemma {:induction false} ThreeMore(p: seq<Step>, q: seq<Step>)
    ensures p + q + [Cmd(true)] + [Cmd(true)] + [Cmd(true)] == p + (q + [Cmd(true), Cmd(true), Cmd(true)])
  {
  }

  lemma {:induction false} StartRuns(cfg: Settings, from: System, p: seq<Step>, s: Shared, kind: Kind)
    requires Goes(cfg, from, p, System(s, Some(Command(kind, StartWait(s.monitorDone))))) && CanStart(s)
    ensures Goes(cfg, from, p + ForkSteps(cfg), System(StartedUp(cfg, s, kind), None))
  {
    ClaimedRuns(cfg, from, p, s, kind);
    ForkRuns(cfg, from, p + ClaimSteps(cfg), Claimed(s, kind), kind);
    ThreeMore(p, ClaimSteps(cfg));
  }

  /** The process runs a child that did not exist before, and one more start is recorded. */
  ghost predicate RunsFresh(s: Shared, t: Shared) {
    && t.state == Running && t.cmd == Some(s.nextChild) && t.nextChild == s.nextChild + 1
    && s.nextChild in t.alive && s.nextChild in t.unreaped
    && t.starts == s.starts + [t.clock]
  }

  /** A start that waits for the last monitor. */
  function WaitsToStart(s: Shared, kind: Kind): System {
    System(s, Some(Command(kind, StartWait(s.monitorDone))))
  }

  /** While a start waits, children and monitors wind down until it can go on. */
  ghost predicate LetsStart(cfg: Settings, s: Shared, kind: Kind, starting: seq<Background>) {
    AllWindDown(starting) && WaitEndsAfter(cfg, WaitsToStart(s, kind), starting)
  }

  lemma {:induction false} WaitThenStart(cfg: Settings, from: System, p: seq<Step>, s: Shared, kind: Kind, starting: seq<Background>)
    requires Goes(cfg, from, p, WaitsToStart(s, kind)) && Inv(s, WaitsToStart(s, kind).command)
    requires s.state in {Stopped, Exited, Fatal} && LetsStart(cfg, s, kind, starting)
    ensures Possible(cfg, from, p + Bgs(starting) + ForkSteps(cfg))
    ensures var t := Reached(cfg, from, p + Bgs(starting) + ForkSteps(cfg)); t.command.None? && RunsFresh(s, t.shared)
  {
    var mid := WaitsToStart(s, kind);
    GoesFar(cfg, from, p, mid, Bgs(starting));
    BackgroundKeepsCommand(cfg, mid, starting);
    BackgroundRunStartsNone(cfg, mid, starting);
    WindingRunKeepsState(cfg, mid, starting);
    var u := Reached(cfg, mid, Bgs(starting)).shared;
    StartRuns(cfg, from, p + Bgs(starting), u, kind);
    FreshAfterWait(cfg, s, u, kind);
  }

  lemma {:induction false} FreshAfterWait(cfg: Settings, s: Shared, u: Shared, kind: Kind)
    requires SameStarts(s, u)
    ensures RunsFresh(s, StartedUp(cfg, u, kind))
  {
  }

  function StartSteps(cfg: Settings, starting: seq<Background>): seq<Step> {
    [Begin(UserStart), Cmd(true)] + Bgs(starting) + ForkSteps(cfg)
  }

  lemma {:induction false} StartBegins(cfg: Settings, s: System)
    requires s.command.None? && s.shared.state in {Stopped, Exited, Fatal}
    ensures Goes(cfg, s, [Begin(UserStart), Cmd(true)], WaitsToStart(s.shared, UserStart))
  {
    assert Goes(cfg, s, [], s);
    GoesOn(cfg, s, [], s, Begin(UserStart));
    assert [] + [Begin(UserStart)] == [Begin(UserStart)];
    CommandGoesOn(cfg, s, [Begin(UserStart)], s.shared, Command(UserStart, StartCheck));
    assert [Begin(UserStart)] + [Cmd(true)] == [Begin(UserStart), Cmd(true)];
  }

  /** A user's start of a process that does not run leaves it running. */
  lemma {:induction false} WholeStart(cfg: Settings, s: System, starting: seq<Background>)
    requires Inv(s.shared, s.command) && s.command.None? && s.shared.state in {Stopped, Exited, Fatal}
    requires LetsStart(cfg, s.shared, UserStart, starting)
    ensures Possible(cfg, s, StartSteps(cfg, starting))
    ensures var t := Reached(cfg, s, StartSteps(cfg, starting)); t.command.None? && RunsFresh(s.shared, t.shared)
  {
    var p := [Begin(UserStart), Cmd(true)];
    StartBegins(cfg, s);
    RunKeepsInv(cfg, s, p);
    WaitThenStart(cfg, s, p, s.shared, UserStart, starting);
  }

  // ---------- a restart ----------

  /** A restart that waits for the child to be reaped. */
  function WaitsToStop(s: Shared): System {
    System(s.(state := Stopping), Some(Command(UserRestart, StopWait(s.waitCh))))
  }

  /** The process between the two halves of a restart. */
  ghost function BetweenHalves(cfg: Settings, s: Shared, stopping: seq<Background>): Shared
    requires s.state == Running ==> WaitEndsAfter(cfg, WaitsToStop(s), stopping)
  {
    if s.state == Running then
      Reached(cfg, WaitsToStop(s), Bgs(stopping)).shared.(state := Stopped, cmd := None, pid := 0)
    else s.(state := Stopped)
  }

  ghost predicate LetsRestart(cfg: Settings, s: Shared, stopping: seq<Background>, starting: seq<Background>) {
    && (s.state == Running ==> WaitEndsAfter(cfg, WaitsToStop(s), stopping))
    && LetsStart(cfg, BetweenHalves(cfg, s, stopping), UserRestart, starting)
  }

  function RestartSteps(cfg: Settings, running: bool, stopping: seq<Background>, starting: seq<Background>): seq<Step> {
    [Begin(UserRestart), Cmd(true), Cmd(true)] + (if running then Bgs(stopping) + [Cmd(true), Cmd(true)] else [])
    + [Cmd(true), Cmd(true)] + Bgs(starting) + ForkSteps(cfg)
  }

  lemma {:induction false} RestartTakesOver(cfg: Settings, s: System)
    requires s.command.None? && s.shared.state in {Running, Exited, Stopped}
    ensures Goes(cfg, s, [Begin(UserRestart)] + [Cmd(true)],
                 System(s.shared.(state := if s.shared.state == Running then Stopping else s.shared.state),
                        Some(Command(UserRestart, StopBegin))))
  {
    assert Goes(cfg, s, [], s);
    GoesOn(cfg, s, [], s, Begin(UserRestart));
    assert [] + [Begin(UserRestart)] == [Begin(UserRestart)];
    CommandGoesOn(cfg, s, [Begin(UserRestart)], s.shared, Command(UserRestart, RestartBegin));
  }

  lemma {:induction false} RestartBegins(cfg: Settings, s: System)
    requires Inv(s.shared, s.command) && s.command.None? && s.shared.state in {Running, Exited, Stopped}
    ensures Goes(cfg, s, [Begin(UserRestart), Cmd(true), Cmd(true)],
                 if s.shared.state == Running then WaitsToStop(s.shared)
                 else System(s.shared.(state := Stopped), Some(Command(UserRestart, RestartBetween))))
  {
    if s.shared.waitCh.Some? {
      assert ChildOk(s.shared, s.shared.waitCh.value);
    }
    RestartTakesOver(cfg, s);
    var t := if s.shared.state == Running then s.shared.(state := Stopping) else s.shared;
    CommandGoesOn(cfg, s, [Begin(UserRestart)] + [Cmd(true)], t, Command(UserRestart, StopBegin));
    assert [Begin(UserRestart)] + [Cmd(true)] + [Cmd(true)] == [Begin(UserRestart), Cmd(true), Cmd(true)];
  }

  lemma {:induction false} RestartStops(cfg: Settings, from: System, p: seq<Step>, s: Shared, stopping: seq<Background>)
    requires Goes(cfg, from, p, WaitsToStop(s)) && Inv(from.shared, from.command)
    requires s.state == Running && WaitEndsAfter(cfg, WaitsToStop(s), stopping)
    ensures Goes(cfg, from, p + (Bgs(stopping) + [Cmd(true), Cmd(true)]),
                 System(BetweenHalves(cfg, s, stopping), Some(Command(UserRestart, RestartBetween))))
    ensures SameStarts(s, BetweenHalves(cfg, s, stopping))
  {
    var mid := WaitsToStop(s);
    GoesFar(cfg, from, p, mid, Bgs(stopping));
    RunKeepsInv(cfg, from, p + Bgs(stopping));
    BackgroundKeepsCommand(cfg, mid, stopping);
    BackgroundRunStartsNone(cfg, mid, stopping);
    var u := Reached(cfg, mid, Bgs(stopping)).shared;
    var q := p + Bgs(stopping);
    CommandGoesOn(cfg, from, q, u, Command(UserRestart, StopWait(s.waitCh)));
    CommandGoesOn(cfg, from, q + [Cmd(true)], u, Command(UserRestart, StopFinish));
    assert q + [Cmd(true)] + [Cmd(true)] == p + (Bgs(stopping) + [Cmd(true), Cmd(true)]);
  }

  lemma {:induction false} RestartStarts(cfg: Settings, from: System, p: seq<Step>, s: Shared)
    requires Goes(cfg, from, p, System(s, Some(Command(UserRestart, RestartBetween)))) && s.state == Stopped
    ensures Goes(cfg, from, p + [Cmd(true), Cmd(true)], WaitsToStart(s, UserRestart))
  {
    CommandGoesOn(cfg, from, p, s, Command(UserRestart, RestartBetween));
    CommandGoesOn(cfg, from, p + [Cmd(true)], s, Command(UserRestart, StartCheck));
    assert p + [Cmd(true)] + [Cmd(true)] == p + [Cmd(true), Cmd(true)];
  }

  /** A user's restart of a process that runs, has exited or is stopped leaves it running a fresh child. */
  lemma {:induction false} WholeRestart(cfg: Settings, s: System, stopping: seq<Background>, starting: seq<Background>)
    requires Inv(s.shared, s.command) && s.command.None? && s.shared.state in {Running, Exited, Stopped}
    requires LetsRestart(cfg, s.shared, stopping, starting)
    ensures Possible(cfg, s, RestartSteps(cfg, s.shared.state == Running, stopping, starting))
    ensures var t := Reached(cfg, s, RestartSteps(cfg, s.shared.state == Running, stopping, starting));
            t.command.None? && RunsFresh(s.shared, t.shared)
  {
    var p := [Begin(UserRestart), Cmd(true), Cmd(true)];
    RestartBegins(cfg, s);
    if s.shared.state == Running {
      RestartStops(cfg, s, p, s.shared, stopping);
      p := p + (Bgs(stopping) + [Cmd(true), Cmd(true)]);
    } else {
      assert p + [] == p;
      p := p + [];
    }
    var between := BetweenHalves(cfg, s.shared, stopping);
    RestartStarts(cfg, s, p, between);
    p := p + [Cmd(true), Cmd(true)];
    RunKeepsInv(cfg, s, p);
    WaitThenStart(cfg, s, p, between, UserRestart, starting);
  }

  // ---------- the waits can always end ----------

  lemma {:induction false} StartsCanEnd(cfg: Settings, s: Shared, kind: Kind) returns (starting: seq<Background>)
    requires Inv(s, WaitsToStart(s, kind).command)
    ensures LetsStart(cfg, s, kind, starting)
  {
    starting := EveryWaitEnds(cfg, WaitsToStart(s, kind), []);
  }

  lemma {:induction false} StopsCanEnd(cfg: Settings, s: Shared) returns (stopping: seq<Background>)
    requires Inv(WaitsToStop(s).shared, WaitsToStop(s).command)
    ensures WaitEndsAfter(cfg, WaitsToStop(s), stopping)
  {
    stopping := EveryWaitEnds(cfg, WaitsToStop(s), []);
  }

  /** Children and monitors can wind down so that a user's start comes through. */
  lemma {:induction false} StartCanComeThrough(cfg: Settings, s: System) returns (starting: seq<Background>)
    requires Inv(s.shared, s.command) && s.command.None? && s.shared.state in {Stopped, Exited, Fatal}
    ensures LetsStart(cfg, s.shared, UserStart, starting)
  {
    StepKeepsInv(cfg, s, Begin(UserStart));
    StepKeepsInv(cfg, Apply(cfg, s, Begin(UserStart)), Cmd(true));
    starting := StartsCanEnd(cfg, s.shared, UserStart);
  }

  /** And so that a user's restart does. */
  lemma {:induction false} RestartCanComeThrough(cfg: Settings, s: System) returns (stopping: seq<Background>, starting: seq<Background>)
    requires Inv(s.shared, s.command) && s.command.None? && s.shared.state in {Running, Exited, Stopped}
    ensures LetsRestart(cfg, s.shared, stopping, starting)
  {
    var p := [Begin(UserRestart), Cmd(true), Cmd(true)];
    RestartBegins(cfg, s);
    RunKeepsInv(cfg, s, p);
    stopping := [];
    if s.shared.state == Running {
      stopping := StopsCanEnd(cfg, s.shared);
      RestartStops(cfg, s, p, s.shared, stopping);
      p := p + (Bgs(stopping) + [Cmd(true), Cmd(true)]);
    }
    var between := BetweenHalves(cfg, s.shared, stopping);
    RestartStarts(cfg, s, p, between);
    RunKeepsInv(cfg, s, p + [Cmd(true), Cmd(true)]);
    starting := StartsCanEnd(cfg, between, UserRestart);
  }
}
