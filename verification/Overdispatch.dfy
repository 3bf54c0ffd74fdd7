/**
 How far restarts that overlap can go. A restart that waits for a slow hook
 leaves the process exited, so further ticks may dispatch further restarts; when
 the hook ends they all start the process, one after the other.
 */
module Overdispatch {
  import opened Common
  import opened Lifecycle
  import opened Crowds
  import opened CrashLoop
  import RestartWindow

  const JUST_ASKED := Crowd(FRESH, [Command(UserStart, StartCheck)])

  /** The configured window in nanoseconds, a minute by default. */
  function Window(cfg: Settings): (w: int)
    ensures w == RestartWindow.WindowLength(cfg.windowSecs)
  {
    1_000_000_000 * if cfg.windowSecs > 0 then cfg.windowSecs else 60
  }

  /** Stops and starts are orderly, and delayed restarts may begin. */
  ghost predicate Orderly(sc: Scene) {
    sc.rules.serialized && sc.rules.patient && DelayedRestart in sc.rules.kinds
  }

  // ---------- the first child exits ----------

  /** A running process has proved healthy, if anything checks it, and for long enough. */
  function Settled(cfg: Settings, s: Shared): Shared {
    var t :=
      if cfg.hasHealthCheck then s.(healthy := true, restartFired := false, healthSuccesses := s.healthSuccesses + 1) else s;
    if cfg.startSecs > 0 then ResetRetries(t) else t
  }

  lemma Settle(sc: Scene, s: Shared)
    requires Leads(sc, Crowd(s, [])) && s.state == Running
    ensures Leads(sc, Crowd(Settled(sc.cfg, s), []))
  {
    var c := Crowd(s, []);
    if sc.cfg.hasHealthCheck {
      c := Move1(sc, c, Around(HealthOk));
    }
    c := Move1(sc, c, Around(TickRunning(true)));
  }

  /** A settled child exits, and its hook goes on for a whole window. */
  function FirstExit(cfg: Settings, code: int): Shared {
    var s := Reported(Settled(cfg, StartedUp(cfg, FRESH, UserStart)), 0, code);
    s.(clock := s.clock + Window(cfg))
  }

  lemma SlowExit(sc: Scene, s: Shared, code: int)
    requires Leads(sc, Crowd(s, [])) && JustStarted(s, 0)
    ensures Leads(sc, Crowd(Reported(s, 0, code).(clock := s.clock + Window(sc.cfg)), []))
  {
    Report(sc, Crowd(s, []), 0, code);
    var c := Move1(sc, Crowd(Reported(s, 0, code), []), Around(Passes(Window(sc.cfg))));
  }

  lemma FirstExitReached(sc: Scene, code: int)
    requires Leads(sc, JUST_ASKED)
    ensures Leads(sc, Crowd(FirstExit(sc.cfg, code), []))
  {
    assert [] + [Command(UserStart, StartCheck)] == JUST_ASKED.commands;
    StartUp(sc, UserStart, FRESH, []);
    Settle(sc, StartedUp(sc.cfg, FRESH, UserStart));
    SettledRuns(sc.cfg);
    SlowExit(sc, Settled(sc.cfg, StartedUp(sc.cfg, FRESH, UserStart)), code);
  }

  lemma SettledRuns(cfg: Settings)
    ensures JustStarted(Settled(cfg, StartedUp(cfg, FRESH, UserStart)), 0)
  {
  }

  lemma FirstStampIsOld(cfg: Settings)
    ensures RestartWindow.After(Stamped(cfg, [], 0), 0) == []
  {
    var w := Window(cfg);
    assert [] + [0] == [0] && [0][..0] == [];
    assert RestartWindow.After([0], 0 - w) == [0];
    assert RestartWindow.After([0], 0) == [];
  }

  lemma FirstExitDispatches(cfg: Settings, code: int)
    requires cfg.autoRestart && cfg.limit >= 0 && Usable(cfg, code)
    ensures WouldDispatch(cfg, FirstExit(cfg, code)) && !FirstExit(cfg, code).restartFired
  {
    FirstStampIsOld(cfg);
    var s := FirstExit(cfg, code);
    assert s.stamps == Stamped(cfg, [], 0) && s.clock - Window(cfg) == 0;
    assert s.retries <= 1 && (cfg.startSecs > 0 ==> s.retries == 0);
  }

  // ---------- many dispatches, many restarts ----------

  lemma {:induction false} DispatchMany(sc: Scene, s: Shared, n: nat) returns (t: Shared)
    requires Leads(sc, Crowd(s, [])) && WouldDispatch(sc.cfg, s) && !s.restartFired
    ensures Leads(sc, Crowd(t, []))
    ensures t == (if n == 0 then s else Budgeted(sc.cfg, s)).(woken := s.woken + n, clock := t.clock)
    decreases n
  {
    if n == 0 {
      t := s;
    } else {
      WakeUp(sc, s, []);
      WouldDispatchAgain(sc.cfg, s);
      t := DispatchMany(sc, Woken(sc.cfg, s), n - 1);
    }
  }

  /** A woken restart starts the process, and the child exits at once. */
  lemma RestartOnce(sc: Scene, s: Shared) returns (t: Shared)
    requires Orderly(sc) && Leads(sc, Crowd(s, [])) && CanStart(s) && s.state == Exited && s.woken > 0
    ensures Leads(sc, Crowd(t, [])) && CanStart(t) && t.state == Exited && t.woken == s.woken - 1
    ensures t.dispatched == s.dispatched + 1 && t.clock == s.clock && t.starts == s.starts + [s.clock]
  {
    RestartBegins(sc, s);
    var u := s.(woken := s.woken - 1);
    assert [] + [Command(DelayedRestart, StartCheck)] == [Command(DelayedRestart, StartCheck)];
    StartUp(sc, DelayedRestart, u, []);
    var v := StartedUp(sc.cfg, u, DelayedRestart);
    assert JustStarted(v, s.nextChild);
    Crash(sc, Crowd(v, []), s.nextChild, 1);
    t := Crashed(v, s.nextChild, 1);
  }

  lemma StartNow(starts: seq<int>, now: int, w: int)
    requires w > 0
    ensures RestartWindow.InWindow(starts + [now], now, w) == RestartWindow.InWindow(starts, now, w) + 1
  {
    assert (starts + [now])[..|starts|] == starts;
  }

  lemma {:induction false} RestartMany(sc: Scene, s: Shared, n: nat) returns (t: Shared)
    requires Orderly(sc) && Leads(sc, Crowd(s, [])) && CanStart(s) && s.state == Exited && s.woken >= n
    ensures Leads(sc, Crowd(t, []))
    ensures t.dispatched == s.dispatched + n && t.clock == s.clock
    ensures RestartWindow.InWindow(t.starts, t.clock, Window(sc.cfg)) == RestartWindow.InWindow(s.starts, s.clock, Window(sc.cfg)) + n
    decreases n
  {
    if n == 0 {
      t := s;
    } else {
      var u := RestartOnce(sc, s);
      StartNow(s.starts, s.clock, Window(sc.cfg));
      t := RestartMany(sc, u, n - 1);
    }
  }

  /** The run starts the process automatically at least `n` times, without a reset and within one instant. */
  ghost predicate Floods(cfg: Settings, s: Shared, n: nat) {
    s.dispatched >= n && RestartWindow.InWindow(s.starts, s.clock, Window(cfg)) >= n
  }

  lemma ManyRestarts(sc: Scene, n: nat) returns (c: Crowd)
    requires Orderly(sc) && Leads(sc, JUST_ASKED) && CanDispatch(sc.cfg)
    ensures Leads(sc, c) && Floods(sc.cfg, c.shared, n)
  {
    var code :| Usable(sc.cfg, code);
    FirstExitReached(sc, code);
    FirstExitDispatches(sc.cfg, code);
    var s := DispatchMany(sc, FirstExit(sc.cfg, code), n);
    HookEnds(sc, Crowd(s, []), 0, Some(0));
    var t := s.(monitors := s.monitors[0 := Gone], doneClosed := Close(s.doneClosed, Some(0)));
    assert CanStart(t);
    var u := RestartMany(sc, t, n);
    c := Crowd(u, []);
  }

  // ---------- for all settings ----------

  /**
   Whatever the limit: unless nothing can ever be dispatched, a run with one user
   start restarts the process any number of times within one instant.
   */
  lemma RestartsAreUnbounded(cfg: Settings, n: nat, gap: nat) returns (steps: seq<Step>)
    requires CanDispatch(cfg)
    ensures Possible(cfg, ASKED, steps) && OnlyKinds(steps, {DelayedRestart}) && Spaced(cfg, ASKED, steps, gap)
    ensures Floods(cfg, Reached(cfg, ASKED, steps).shared, n)
  {
    var sc := Scene(cfg, Rules(true, true, {DelayedRestart}, Some(gap)), JUST_ASKED);
    LeadsNowhere(sc);
    var c := ManyRestarts(sc, n);
    steps := LeadsBySteps(sc, c);
  }

  ghost predicate KeepsToLimit(cfg: Settings) {
    forall steps :: Possible(cfg, START, steps) ==> Owed(Reached(cfg, START, steps)) <= Max(cfg.limit + 1, 0)
  }

  lemma DispatchingBreaksLimit(cfg: Settings)
    requires CanDispatch(cfg)
    ensures !KeepsToLimit(cfg)
  {
    var sc := Scene(cfg, Rules(true, true, EVERY_KIND, None), Crowd(FRESH, []));
    LeadsNowhere(sc);
    var c := Move1(sc, sc.from, Launch(UserStart));
    assert c == JUST_ASKED;
    var d := ManyRestarts(sc, cfg.limit + 2);
    var steps := LeadsBySteps(sc, d);
    assert Possible(cfg, START, steps) && Owed(Reached(cfg, START, steps)) > cfg.limit + 1;
  }

  /**
   Between two resets every run keeps to limit + 1 dispatched and pending
   restarts if and only if no run dispatches any.
   */
  lemma KeepsToLimitIff(cfg: Settings)
    ensures KeepsToLimit(cfg) <==> !CanDispatch(cfg)
  {
    if CanDispatch(cfg) {
      DispatchingBreaksLimit(cfg);
    } else {
      forall steps | Possible(cfg, START, steps) ensures Owed(Reached(cfg, START, steps)) <= Max(cfg.limit + 1, 0) {
        RunDispatchesNothing(cfg, START, steps);
      }
    }
  }
}
