/**
 A process with any number of commands at work is safe when the commands are
 serialized and the stops patient. Runs without one of these rules show that
 each is needed.
 */
module LifecycleWitness {
  import opened Common
  import opened Lifecycle
  import opened Crowds
  import LifecycleSafety

  const IDLE := Crowd(FRESH, [])

  /** With both rules no child is lost and no channel is closed twice. */
  lemma BothRulesAreSafe(cfg: Settings, kinds: set<Kind>, gap: Option<nat>, c: Crowd)
    requires Leads(Scene(cfg, Rules(true, true, kinds, gap), IDLE), c)
    ensures LifecycleSafety.ChildrenAccountedFor(c.shared)
    ensures LifecycleSafety.ClosedAtMostOnce(c.shared.waitClosed) && LifecycleSafety.ClosedAtMostOnce(c.shared.doneClosed)
  {
    var steps := LeadsBySteps(Scene(cfg, Rules(true, true, kinds, gap), IDLE), c);
    LifecycleSafety.RunsAccountForChildren(cfg, steps);
  }

  // ---------- stops that give up ----------

  function ImpatientScene(cfg: Settings): Scene {
    Scene(cfg, Rules(true, false, EVERY_KIND, None), IDLE)
  }

  /** The first child runs. */
  function Running1(cfg: Settings): Shared {
    StartedUp(cfg, FRESH, UserStart)
  }

  lemma FirstStart(sc: Scene)
    requires sc.from == IDLE && UserStart in sc.rules.kinds
    ensures Leads(sc, Crowd(Running1(sc.cfg), []))
    ensures JustStarted(Running1(sc.cfg), 0)
  {
    LeadsNowhere(sc);
    var c := Move1(sc, IDLE, Launch(UserStart));
    StartUp(sc, UserStart, FRESH, []);
  }

  /** The first child runs and a stop has given it up. */
  function Abandoned(cfg: Settings): Shared {
    Running1(cfg).(state := Stopped, cmd := None, pid := 0, monitors := map[0 := Waiting(Some(0), Some(0))])
  }

  /** The first child runs under its monitor and a stop begins. */
  lemma FirstStop(cfg: Settings) returns (s: Shared)
    ensures s == Running1(cfg).(monitors := map[0 := Waiting(Some(0), Some(0))])
    ensures Leads(ImpatientScene(cfg), Crowd(s, [] + [Command(UserStop, StopBegin)]))
  {
    var sc := ImpatientScene(cfg);
    FirstStart(sc);
    var c := Move1(sc, Crowd(Running1(cfg), []), Around(MonitorBegins(0)));
    s := c.shared;
    assert s.monitors == map[0 := Waiting(Some(0), Some(0))];
    c := Move1(sc, c, Launch(UserStop));
  }

  lemma ImpatientStop(cfg: Settings)
    ensures Leads(ImpatientScene(cfg), Crowd(Abandoned(cfg), []))
  {
    var sc := ImpatientScene(cfg);
    var s := FirstStop(cfg);
    Forward(sc, s, [], Command(UserStop, StopBegin), true);
    Forward(sc, s.(state := Stopping), [], Command(UserStop, StopWait(Some(0))), false);
    Forward(sc, s.(state := Stopping), [], Command(UserStop, StopFinish), true);
  }

  /** A child that was given up dies, and its monitor has reaped it. */
  lemma ChildReaped(sc: Scene, s: Shared) returns (c: Crowd)
    requires Leads(sc, Crowd(s, [])) && 0 in s.alive
    requires 0 in s.monitors && s.monitors[0].Waiting? && s.monitors[0].cmd == Some(0)
    ensures Leads(sc, c) && c.commands == [] && c.shared.state == s.state
    ensures 0 in c.shared.monitors && c.shared.monitors[0].Returned?
  {
    c := Move1(sc, Crowd(s, []), Around(ChildDies(0)));
    c := Move1(sc, c, Around(MonitorReaps(0, 1)));
  }

  lemma AbandonedLives(cfg: Settings)
    ensures var s := Abandoned(cfg);
            s.state == Stopped && 0 in s.unreaped && 0 in s.alive && 0 in s.monitors && s.monitors[0] == Waiting(Some(0), Some(0))
  {
  }

  /**
   Whatever the settings, a stop that runs into its timer leaves a child nobody
   has reaped in a stopped process, and the process leaves that state when the
   child dies, although no command is at work.
   */
  lemma PatienceIsNeeded(cfg: Settings)
    ensures exists c :: Leads(ImpatientScene(cfg), c) && c.shared.state == Stopped && 0 in c.shared.unreaped
    ensures exists c, d :: Leads(ImpatientScene(cfg), c) && Follows(ImpatientScene(cfg), c, d)
                           && c.commands == [] == d.commands && c.shared.state == Stopped && d.shared.state == Exited
  {
    ImpatientStop(cfg);
    AbandonedLives(cfg);
    var a := Crowd(Abandoned(cfg), []);
    assert a.shared.state == Stopped && 0 in a.shared.unreaped;
    var c := ChildReaped(ImpatientScene(cfg), Abandoned(cfg));
    LeavesStopped(ImpatientScene(cfg), c);
  }

  lemma LeavesStopped(sc: Scene, c: Crowd)
    requires c.shared.state == Stopped && 0 in c.shared.monitors && c.shared.monitors[0].Returned?
    ensures exists d :: Follows(sc, c, d) && d.commands == c.commands && d.shared.state == Exited
  {
    var d := Moved(sc, c, Around(MonitorUpdates(0)));
    assert Follows(sc, c, d);
  }

  // ---------- commands that overlap ----------

  function ParallelScene(cfg: Settings): Scene {
    Scene(cfg, Rules(false, true, EVERY_KIND, None), IDLE)
  }

  /** One retry, no rate limit, and an exit code after which the process is restarted. */
  predicate OneRetry(cfg: Settings, code: int) {
    && cfg.autoRestart && cfg.limit == 1 && cfg.maxCount <= 0
    && ShouldRestartOnExitCode(cfg, code) && code !in cfg.exitCodes
  }

  /** The first child has crashed, and a second has passed. */
  function CrashedThen(cfg: Settings, code: int): Shared {
    var s := Crashed(Running1(cfg), 0, code);
    s.(clock := s.clock + SECOND)
  }

  lemma CrashedOnce(cfg: Settings, code: int)
    requires OneRetry(cfg, code)
    ensures var s := Crashed(Running1(cfg), 0, code);
            WouldDispatch(cfg, s) && Budgeted(cfg, s) == s && CanStart(s) && !s.restartFired && s.woken == 0 && s.retries == 1
  {
  }

  /** The first child has crashed and a delayed restart is about to start the process. */
  lemma DelayedRestartUnderWay(cfg: Settings, code: int)
    requires OneRetry(cfg, code)
    ensures Leads(ParallelScene(cfg), Crowd(CrashedThen(cfg, code), [Command(DelayedRestart, StartCheck)]))
  {
    var sc := ParallelScene(cfg);
    FirstStart(sc);
    Crash(sc, Crowd(Running1(cfg), []), 0, code);
    CrashedOnce(cfg, code);
    var s := Crashed(Running1(cfg), 0, code);
    WakeUp(sc, s, []);
    RestartBegins(sc, Woken(cfg, s));
    assert Woken(cfg, s).(woken := 0) == CrashedThen(cfg, code);
  }

  /**
   A user start that overlaps a delayed restart: the failing restart declares
   a running process, with a child nobody has reaped, fatal.
   */
  lemma SerialityIsNeededForStates(cfg: Settings, code: int)
    requires OneRetry(cfg, code)
    ensures exists c :: Leads(ParallelScene(cfg), c) && c.shared.state == Fatal && c.shared.unreaped != {}
  {
    var sc := ParallelScene(cfg);
    DelayedRestartUnderWay(cfg, code);
    CrashedOnce(cfg, code);
    var s := CrashedThen(cfg, code);
    var delayed := [Command(DelayedRestart, StartCheck)];
    var c := Move1(sc, Crowd(s, delayed), Launch(UserStart));
    StartUp(sc, UserStart, s, delayed);
    FailsOverRunning(sc, StartedUp(cfg, s, UserStart), s.nextChild);
  }

  lemma FailsOverRunning(sc: Scene, t: Shared, k: ChildId)
    requires Leads(sc, Crowd(t, [Command(DelayedRestart, StartCheck)]))
    requires t.state == Running && t.retries > sc.cfg.limit && k in t.unreaped
    ensures exists c :: Leads(sc, c) && c.shared.state == Fatal && c.shared.unreaped != {}
  {
    assert [] + [Command(DelayedRestart, StartCheck)] == [Command(DelayedRestart, StartCheck)];
    Forward(sc, t, [], Command(DelayedRestart, StartCheck), true);
    Forward(sc, t, [], Command(DelayedRestart, DelayedFailed), true);
    var bad := Crowd(t.(state := Fatal), []);
    assert Leads(sc, bad) && k in bad.shared.unreaped;
  }

  const STOP_WAITS := Command(UserStop, StopWait(Some(0)))

  /** A stop of a running process waits for its child. */
  lemma StopWaits(cfg: Settings, s: Shared, others: seq<Command>)
    requires Leads(ParallelScene(cfg), Crowd(s, others)) && s.cmd.Some? && s.state in {Running, Stopping}
    ensures Leads(ParallelScene(cfg), Crowd(s.(state := Stopping), others + [Command(UserStop, StopWait(s.waitCh))]))
  {
    var c := Move1(ParallelScene(cfg), Crowd(s, others), Launch(UserStop));
    Forward(ParallelScene(cfg), s, others, Command(UserStop, StopBegin), true);
  }

  /** Two stops wait for the first child, which dies. */
  lemma TwoStops(cfg: Settings) returns (s: Shared)
    ensures Leads(ParallelScene(cfg), Crowd(s, [STOP_WAITS] + [STOP_WAITS]))
    ensures s == Crashed(Running1(cfg).(state := Stopping), 0, 1)
  {
    var sc := ParallelScene(cfg);
    FirstStart(sc);
    s := Running1(cfg);
    StopWaits(cfg, s, []);
    s := s.(state := Stopping);
    assert [] + [STOP_WAITS] == [STOP_WAITS];
    StopWaits(cfg, s, [STOP_WAITS]);
    Crash(sc, Crowd(s, [STOP_WAITS] + [STOP_WAITS]), 0, 1);
    s := Crashed(s, 0, 1);
  }

  /** The stop that began last ends. */
  lemma StopEnds(cfg: Settings, s: Shared, others: seq<Command>)
    requires Leads(ParallelScene(cfg), Crowd(s, others + [STOP_WAITS])) && 0 in s.waitClosed
    ensures Leads(ParallelScene(cfg),
                  Crowd(s.(state := if s.state == Stopping then Stopped else s.state, cmd := None, pid := 0), others))
  {
    Forward(ParallelScene(cfg), s, others, STOP_WAITS, true);
    Forward(ParallelScene(cfg), s, others, Command(UserStop, StopFinish), true);
  }

  /**
   Whatever the settings: two stops wait for the same child, and a start
   between their ends loses its handle to the second.
   */
  lemma SerialityIsNeededForHandles(cfg: Settings)
    ensures exists c :: Leads(ParallelScene(cfg), c) && c.shared.state == Running && c.shared.cmd.None?
                        && 1 in c.shared.unreaped
  {
    var sc := ParallelScene(cfg);
    var s := TwoStops(cfg);
    StopEnds(cfg, s, [STOP_WAITS]);
    s := s.(state := Stopped, cmd := None, pid := 0);
    var c := Move1(sc, Crowd(s, [STOP_WAITS]), Launch(UserStart));
    StartUp(sc, UserStart, s, [STOP_WAITS]);
    s := StartedUp(cfg, s, UserStart);
    assert [] + [STOP_WAITS] == [STOP_WAITS];
    StopEnds(cfg, s, []);
    var bad := Crowd(s.(cmd := None, pid := 0), []);
    assert Leads(sc, bad) && 1 in bad.shared.unreaped;
  }
}
