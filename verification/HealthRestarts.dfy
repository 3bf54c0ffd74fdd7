/**
 Health restarts consult no window. What keeps them apart is their latch: a second
 one needs a successful check and then enough failing ones after the last start.
 With that gap between them, how many starts can fall into one window is exact.
 */
module HealthRestarts {
  import opened Common
  import opened Lifecycle
  import opened Crowds
  import opened CrashLoop
  import opened Overdispatch
  import opened RestartWindow
  import opened RestartRate

  /** The most starts one window can hold: two at its beginning, and one after every gap. */
  function MostSpaced(w: int, gap: nat): int
    requires gap > 0
  {
    2 + (w - 1) / gap
  }

  /** As many gaps as that fit into the window, and no more. */
  lemma GapsFit(w: int, gap: nat)
    requires gap > 0 && w > 0
    ensures MostSpaced(w, gap) >= 2 && gap * (MostSpaced(w, gap) - 2) <= w - 1
    ensures forall k: int :: gap * k <= w - 1 ==> k <= MostSpaced(w, gap) - 2
  {
    var q := (w - 1) / gap;
    assert w - 1 == gap * q + (w - 1) % gap;
    forall k: int ensures gap * k <= w - 1 ==> k <= q {
      if k > q {
        MoreGaps(gap, q + 1, k);
        assert gap * (q + 1) == gap * q + gap;
      }
    }
  }

  lemma MoreGaps(gap: nat, a: int, b: int)
    requires a <= b
    ensures gap * a <= gap * b
  {
  }

  ghost predicate HealthRestartsAllowed(sc: Scene) {
    sc.cfg.healthRestart && sc.cfg.hasHealthCheck && HealthRestart in sc.rules.kinds && sc.rules.gap.Some?
  }

  // ---------- a run full of health restarts ----------

  /** A process that has just been found unhealthy and may be restarted for it. */
  ghost predicate Sick(s: Shared, k: ChildId) {
    JustStarted(s, k) && s.state == Running && !s.healthy && !s.restartFired
  }

  /** A health restart takes the process over. */
  function TakenOver(s: Shared): Shared {
    s.(restartFired := true, healthRestarts := s.healthRestarts + 1, state := Stopping)
  }

  lemma HealthTakesOver(sc: Scene, s: Shared, k: ChildId)
    requires HealthRestartsAllowed(sc) && Rested(s, sc.rules.gap.value)
    requires Leads(sc, Crowd(s, [])) && Sick(s, k)
    ensures Leads(sc, Crowd(TakenOver(s), [] + [Command(HealthRestart, StopWait(Some(k)))]))
  {
    var c := Move1(sc, Crowd(s, []), Launch(HealthRestart));
    var u := s.(restartFired := true, healthRestarts := s.healthRestarts + 1);
    Forward(sc, u, [], Command(HealthRestart, RestartBegin), true);
    Forward(sc, TakenOver(s), [], Command(HealthRestart, StopBegin), true);
  }

  /** Its child dies, and the stop inside it ends. */
  lemma HealthStops(sc: Scene, s: Shared, k: ChildId) returns (t: Shared)
    requires Leads(sc, Crowd(s, [] + [Command(HealthRestart, StopWait(Some(k)))])) && JustStarted(s, k) && s.state == Stopping
    ensures Leads(sc, Crowd(t, [] + [Command(HealthRestart, RestartBetween)]))
    ensures CanStart(t) && t.state == Stopped && SameRecord(s, t)
  {
    Crash(sc, Crowd(s, [] + [Command(HealthRestart, StopWait(Some(k)))]), k, 1);
    t := Crashed(s, k, 1);
    Forward(sc, t, [], Command(HealthRestart, StopWait(Some(k))), true);
    Forward(sc, t, [], Command(HealthRestart, StopFinish), true);
    t := t.(state := Stopped, cmd := None, pid := 0);
  }

  /** It starts the process again, which is soon found unhealthy once more. */
  lemma HealthRestartOnce(sc: Scene, s: Shared, k: ChildId) returns (t: Shared, n: ChildId)
    requires HealthRestartsAllowed(sc) && Rested(s, sc.rules.gap.value)
    requires Leads(sc, Crowd(s, [])) && Sick(s, k)
    ensures Leads(sc, Crowd(t, [])) && Sick(t, n) && Rested(t, sc.rules.gap.value)
    ensures t.clock == s.clock + sc.rules.gap.value && t.starts == s.starts + [s.clock]
  {
    HealthTakesOver(sc, s, k);
    var u := HealthStops(sc, TakenOver(s), k);
    Forward(sc, u, [], Command(HealthRestart, RestartBetween), true);
    StartUp(sc, HealthRestart, u, []);
    n := u.nextChild;
    t := StartedUp(sc.cfg, u, HealthRestart);
    t := Relapse(sc, t, n, sc.rules.gap.value);
  }

  /** A running process passes a check and fails enough of them in the time given. */
  lemma Relapse(sc: Scene, s: Shared, k: ChildId, gap: nat) returns (t: Shared)
    requires sc.cfg.hasHealthCheck && Leads(sc, Crowd(s, [])) && JustStarted(s, k) && s.state == Running
    ensures Leads(sc, Crowd(t, [])) && Sick(t, k) && t.clock == s.clock + gap && t.starts == s.starts
  {
    var c := Move1(sc, Crowd(s, []), Around(HealthOk));
    c := Move1(sc, c, Around(HealthFails));
    c := Move1(sc, c, Around(Passes(gap)));
    t := c.shared;
  }

  lemma AnotherGap(gap: nat, n: nat)
    requires n > 0
    ensures gap * n == gap + gap * (n - 1)
  {
  }

  /** Health restarts a gap apart, as many as fit into the window that begins at `x`. */
  lemma {:induction false} HealthRestartMany(sc: Scene, s: Shared, k: ChildId, n: nat, x: Time) returns (t: Shared)
    requires HealthRestartsAllowed(sc) && Rested(s, sc.rules.gap.value)
    requires Leads(sc, Crowd(s, [])) && Sick(s, k) && x <= s.clock
    requires n > 0 ==> s.clock + sc.rules.gap.value * (n - 1) < x + Window(sc.cfg)
    ensures Leads(sc, Crowd(t, []))
    ensures InWindow(t.starts, x, Window(sc.cfg)) == InWindow(s.starts, x, Window(sc.cfg)) + n
    decreases n
  {
    if n == 0 {
      t := s;
    } else {
      var gap := sc.rules.gap.value;
      var u, m := HealthRestartOnce(sc, s, k);
      assert (s.starts + [s.clock])[..|s.starts|] == s.starts;
      if n > 1 {
        AnotherGap(gap, n - 1);
      } else {
        assert gap * (n - 1) == 0;
      }
      t := HealthRestartMany(sc, u, m, n - 1, x);
    }
  }

  lemma FirstChildIsSick(cfg: Settings)
    ensures var s := StartedUp(cfg, FRESH, UserStart);
            Sick(s, 0) && s.clock == 0 && s.healthRestarts == 0 && s.starts == [0]
  {
  }

  /**
   Health restarts consult no window: alone, each a gap after the start before it
   but for the first, they fill a window with two starts and one more for every
   gap that fits into it.
   */
  lemma HealthRestartsFillWindow(cfg: Settings, gap: nat) returns (steps: seq<Step>)
    requires cfg.healthRestart && cfg.hasHealthCheck && gap > 0
    ensures Possible(cfg, ASKED, steps) && OnlyKinds(steps, {HealthRestart}) && Spaced(cfg, ASKED, steps, gap)
    ensures InWindow(Reached(cfg, ASKED, steps).shared.starts, 0, Window(cfg)) == MostSpaced(Window(cfg), gap)
  {
    var sc := Scene(cfg, Rules(true, true, {HealthRestart}, Some(gap)), JUST_ASKED);
    LeadsNowhere(sc);
    assert [] + [Command(UserStart, StartCheck)] == JUST_ASKED.commands;
    StartUp(sc, UserStart, FRESH, []);
    FirstChildIsSick(cfg);
    var s := StartedUp(cfg, FRESH, UserStart);
    var n := MostSpaced(Window(cfg), gap) - 1;
    GapsFit(Window(cfg), gap);
    var t := HealthRestartMany(sc, s, 0, n, 0);
    assert s.starts == [0] && [0][..0] == [];
    assert InWindow(s.starts, 0, Window(cfg)) == 1;
    steps := LeadsBySteps(sc, Crowd(t, []));
  }

  // ---------- starts a gap apart ----------

  /** Each start but the first two keeps the gap. */
  ghost predicate Apart(starts: seq<Time>, gap: nat, from: nat) {
    && (forall i :: 0 < i < |starts| ==> starts[i - 1] <= starts[i])
    && (forall i :: from < i < |starts| ==> starts[i - 1] + gap <= starts[i])
  }

  /** Where all starts keep the gap, a window of length `w` holds one, and one more for every gap. */
  lemma {:induction false} SpacedFit(starts: seq<Time>, gap: nat, x: Time, w: int)
    requires gap > 0 && Apart(starts, gap, 0)
    ensures InWindow(starts, x, w) > 0 ==> gap * (InWindow(starts, x, w) - 1) <= w - 1
    decreases |starts|
  {
    if starts != [] {
      var n := |starts| - 1;
      var before, e := starts[..n], starts[n];
      if x <= e < x + w {
        var v := e - gap + 1 - x;
        SpacedFit(before, gap, x, v);
        forall i | 0 <= i < n ensures before[i] <= e - gap {
          LastIsLatest(before, gap, 0, i);
        }
        EarlierOnly(before, x, w, v);
        if InWindow(before, x, v) > 0 {
          AnotherGap(gap, InWindow(before, x, v));
        } else {
          assert InWindow(starts, x, w) == 1;
        }
      } else {
        SpacedFit(before, gap, x, w);
      }
    }
  }

  lemma {:induction false} LastIsLatest(starts: seq<Time>, gap: nat, from: nat, i: nat)
    requires Apart(starts, gap, from) && i < |starts|
    ensures starts[i] <= starts[|starts| - 1]
  {
    if i < |starts| - 1 {
      LastIsLatest(starts[..|starts| - 1], gap, from, i);
    }
  }

  /** A window may be cut where no start follows. */
  lemma {:induction false} EarlierOnly(starts: seq<Time>, x: Time, w: int, v: int)
    requires v <= w && forall i :: 0 <= i < |starts| ==> starts[i] < x + v
    ensures InWindow(starts, x, w) == InWindow(starts, x, v)
  {
    if starts != [] {
      EarlierOnly(starts[..|starts| - 1], x, w, v);
    }
  }

  lemma {:induction false} AllButFirst(starts: seq<Time>, x: Time, w: int)
    requires starts != []
    ensures InWindow(starts, x, w) <= 1 + InWindow(starts[1..], x, w)
  {
    var n := |starts| - 1;
    if n > 0 {
      AllButFirst(starts[..n], x, w);
      assert starts[..n][1..] == starts[1..][..n - 1];
    }
  }

  lemma ApartFits(starts: seq<Time>, gap: nat, x: Time, w: int)
    requires gap > 0 && w > 0 && Apart(starts, gap, 1)
    ensures InWindow(starts, x, w) <= MostSpaced(w, gap)
  {
    GapsFit(w, gap);
    if starts != [] {
      AllButFirst(starts, x, w);
      SpacedFit(starts[1..], gap, x, w);
      var k := InWindow(starts[1..], x, w);
      if k > 0 {
        assert gap * (k - 1) <= w - 1;
      }
    }
  }

  // ---------- spaced runs ----------

  /** The starts keep the gap, and so will the one that is under way. */
  ghost predicate SpacedSoFar(s: System, gap: nat) {
    && Apart(s.shared.starts, gap, 1)
    && (s.shared.starts != [] ==> s.shared.starts[|s.shared.starts| - 1] <= s.shared.clock)
    && (s.shared.healthRestarts == 0 ==> |s.shared.starts| + (if Heading(s.command) then 1 else 0) <= 1)
    && (Heading(s.command) && |s.shared.starts| > 1 ==>
          s.shared.clock >= s.shared.starts[|s.shared.starts| - 1] + gap)
  }

  /** No start is recorded or set under way, and no health restart begins. */
  ghost predicate NoneBegun(s: System, t: System) {
    && t.shared.starts == s.shared.starts && t.shared.clock >= s.shared.clock
    && t.shared.healthRestarts == s.shared.healthRestarts && (Heading(t.command) ==> Heading(s.command))
  }

  lemma NoneBegunKeeps(s: System, t: System, gap: nat)
    requires SpacedSoFar(s, gap) && NoneBegun(s, t)
    ensures SpacedSoFar(t, gap)
  {
  }

  lemma TickBeginsNone(cfg: Settings, s: Shared)
    ensures var t := HandleExited(cfg, s);
            t.starts == s.starts && t.clock == s.clock && t.healthRestarts == s.healthRestarts
  {
  }

  lemma BackgroundBeginsNone(cfg: Settings, s: System, b: Background)
    requires Enabled(cfg, s, Bg(b)) && !b.TickExited?
    ensures NoneBegun(s, Apply(cfg, s, Bg(b)))
  {
  }

  lemma BeginKeepsSpaced(cfg: Settings, s: System, kind: Kind, gap: nat)
    requires SpacedSoFar(s, gap) && Enabled(cfg, s, Begin(kind)) && KeepsGap(s, Begin(kind), gap)
    requires kind == UserStop || kind == HealthRestart
    ensures SpacedSoFar(Apply(cfg, s, Begin(kind)), gap)
  {
  }

  lemma CommandBeginsNone(cfg: Settings, s: Shared, c: Command, ok: bool)
    ensures Advance(cfg, s, c, ok).shared.healthRestarts == s.healthRestarts
  {

  }

  lemma InstallKeepsSpaced(cfg: Settings, s: System, ok: bool, gap: nat)
    requires SpacedSoFar(s, gap) && Enabled(cfg, s, Cmd(ok)) && Installs(s)
    ensures SpacedSoFar(Apply(cfg, s, Cmd(ok)), gap)
  {
    InstallStartsOne(cfg, s, ok);
    CommandBeginsNone(cfg, s.shared, s.command.value, ok);
    OneMoreApart(s, Apply(cfg, s, Cmd(ok)), gap);
  }

  lemma OneMoreApart(s: System, t: System, gap: nat)
    requires SpacedSoFar(s, gap) && Heading(s.command) && !Heading(t.command)
    requires t.shared.starts == s.shared.starts + [s.shared.clock] && t.shared.clock == s.shared.clock
    requires t.shared.healthRestarts == s.shared.healthRestarts
    ensures SpacedSoFar(t, gap)
  {
  }

  lemma CommandKeepsSpaced(cfg: Settings, s: System, ok: bool, gap: nat)
    requires SpacedSoFar(s, gap) && StopOnlyStops(s.command) && Enabled(cfg, s, Cmd(ok))
    ensures SpacedSoFar(Apply(cfg, s, Cmd(ok)), gap)
  {
    if Installs(s) {
      InstallKeepsSpaced(cfg, s, ok, gap);
    } else {
      CommandRecordsNothing(cfg, s.shared, s.command.value, ok);
      CommandBeginsNone(cfg, s.shared, s.command.value, ok);
      HeadingEndsOnce(cfg, s.shared, s.command.value, ok);
      NoneBegunKeeps(s, Apply(cfg, s, Cmd(ok)), gap);
    }
  }

  lemma BackgroundKeepsSpaced(cfg: Settings, s: System, b: Background, gap: nat)
    requires SpacedSoFar(s, gap) && Enabled(cfg, s, Bg(b))
    ensures SpacedSoFar(Apply(cfg, s, Bg(b)), gap)
  {
    if b.TickExited? {
      TickBeginsNone(cfg, s.shared);
    } else {
      BackgroundBeginsNone(cfg, s, b);
    }
    NoneBegunKeeps(s, Apply(cfg, s, Bg(b)), gap);
  }

  lemma StepKeepsSpaced(cfg: Settings, s: System, step: Step, gap: nat)
    requires SpacedSoFar(s, gap) && StopOnlyStops(s.command) && Enabled(cfg, s, step) && KeepsGap(s, step, gap)
    requires step.Begin? ==> step.kind == UserStop || step.kind == HealthRestart
    ensures SpacedSoFar(Apply(cfg, s, step), gap)
  {
    match step
    case Bg(b) => BackgroundKeepsSpaced(cfg, s, b, gap);
    case Begin(kind) => BeginKeepsSpaced(cfg, s, kind, gap);
    case Cmd(ok) => CommandKeepsSpaced(cfg, s, ok, gap);
  }

  const NO_USER_START := {UserStop, DelayedRestart, HealthRestart}

  /** Without dispatches, the starts of a spaced run keep the gap. */
  lemma {:induction false} SpacedRun(cfg: Settings, steps: seq<Step>, gap: nat)
    requires !CanDispatch(cfg) && cfg.maxCount > 0
    requires Possible(cfg, ASKED, steps) && OnlyKinds(steps, NO_USER_START) && Spaced(cfg, ASKED, steps, gap)
    ensures SpacedSoFar(Reached(cfg, ASKED, steps), gap)
    decreases |steps|
  {
    if steps != [] {
      SpacedRun(cfg, Init(steps), gap);
      RunIsRated(cfg, Init(steps));
      RunDispatchesNothing(cfg, ASKED, Init(steps));
      StepKeepsSpaced(cfg, Reached(cfg, ASKED, Init(steps)), steps[|steps| - 1], gap);
    }
  }

  /** Then no window holds more starts than gaps fit. */
  lemma SpacedRunsFit(cfg: Settings, steps: seq<Step>, gap: nat)
    requires !CanDispatch(cfg) && cfg.maxCount > 0 && gap > 0
    requires Possible(cfg, ASKED, steps) && OnlyKinds(steps, NO_USER_START) && Spaced(cfg, ASKED, steps, gap)
    ensures Limited(Reached(cfg, ASKED, steps).shared.starts, Window(cfg), MostSpaced(Window(cfg), gap))
  {
    SpacedRun(cfg, steps, gap);
    forall x ensures InWindow(Reached(cfg, ASKED, steps).shared.starts, x, Window(cfg)) <= MostSpaced(Window(cfg), gap) {
      ApartFits(Reached(cfg, ASKED, steps).shared.starts, gap, x, Window(cfg));
    }
  }

  // ---------- for all settings ----------

  /** In no spaced run that one user start begins does a window hold too many starts. */
  ghost predicate KeepsToWindow(cfg: Settings, gap: nat) {
    forall steps :: Possible(cfg, ASKED, steps) && OnlyKinds(steps, NO_USER_START) && Spaced(cfg, ASKED, steps, gap) ==>
      Limited(Reached(cfg, ASKED, steps).shared.starts, Window(cfg), cfg.maxCount)
  }

  lemma OverfullWindow(cfg: Settings, gap: nat, steps: seq<Step>, x: Time)
    requires Possible(cfg, ASKED, steps) && OnlyKinds(steps, NO_USER_START) && Spaced(cfg, ASKED, steps, gap)
    requires InWindow(Reached(cfg, ASKED, steps).shared.starts, x, Window(cfg)) > cfg.maxCount
    ensures !KeepsToWindow(cfg, gap)
  {
    assert !Limited(Reached(cfg, ASKED, steps).shared.starts, Window(cfg), cfg.maxCount);
  }

  lemma {:induction false} QuietRunsAreChecked(cfg: Settings, steps: seq<Step>)
    requires !CanDispatch(cfg) && !(cfg.healthRestart && cfg.hasHealthCheck)
    requires Possible(cfg, ASKED, steps) && OnlyKinds(steps, NO_USER_START)
    ensures CountUnchecked(cfg, ASKED, steps) == 0
    decreases |steps|
  {
    if steps != [] {
      QuietRunsAreChecked(cfg, Init(steps));
      RunDispatchesNothing(cfg, ASKED, Init(steps));
      RunDispatchesNothing(cfg, ASKED, steps);
      assert Unchecked(cfg, Reached(cfg, ASKED, Init(steps)), steps[|steps| - 1]) == 0;
    }
  }

  lemma QuietRunsKeepToLimit(cfg: Settings, gap: nat)
    requires cfg.maxCount > 0 && !CanDispatch(cfg) && !(cfg.healthRestart && cfg.hasHealthCheck)
    ensures KeepsToWindow(cfg, gap)
  {
    forall steps | Possible(cfg, ASKED, steps) && OnlyKinds(steps, NO_USER_START)
      ensures Limited(Reached(cfg, ASKED, steps).shared.starts, Window(cfg), cfg.maxCount)
    {
      QuietRunsAreChecked(cfg, steps);
      CheckedRunsKeepToLimit(cfg, steps);
    }
  }

  lemma SpacedRunsKeepToLimit(cfg: Settings, gap: nat)
    requires cfg.maxCount > 0 && !CanDispatch(cfg) && gap > 0 && MostSpaced(Window(cfg), gap) <= cfg.maxCount
    ensures KeepsToWindow(cfg, gap)
  {
    forall steps | Possible(cfg, ASKED, steps) && OnlyKinds(steps, NO_USER_START) && Spaced(cfg, ASKED, steps, gap)
      ensures Limited(Reached(cfg, ASKED, steps).shared.starts, Window(cfg), cfg.maxCount)
    {
      SpacedRunsFit(cfg, steps, gap);
      LimitedByMore(Reached(cfg, ASKED, steps).shared.starts, Window(cfg), MostSpaced(Window(cfg), gap), cfg.maxCount);
    }
  }

  lemma LimitedByMore(starts: seq<Time>, w: int, few: int, more: int)
    requires Limited(starts, w, few) && few <= more
    ensures Limited(starts, w, more)
  {
    forall x ensures InWindow(starts, x, w) <= more {
      assert InWindow(starts, x, w) <= few;
    }
  }

  /**
   For every positive limit and gap: the window holds in all spaced runs that one
   user start begins if and only if no restart can be dispatched, and no health
   restart can begin or as many starts as gaps allow are within the limit.
   */
  lemma KeepsToWindowIff(cfg: Settings, gap: nat)
    requires cfg.maxCount > 0 && gap > 0
    ensures KeepsToWindow(cfg, gap) <==>
              !CanDispatch(cfg) && (!(cfg.healthRestart && cfg.hasHealthCheck) || MostSpaced(Window(cfg), gap) <= cfg.maxCount)
  {
    if CanDispatch(cfg) {
      var steps := RestartsAreUnbounded(cfg, cfg.maxCount + 1, gap);
      OverfullWindow(cfg, gap, steps, Reached(cfg, ASKED, steps).shared.clock);
    } else if !(cfg.healthRestart && cfg.hasHealthCheck) {
      QuietRunsKeepToLimit(cfg, gap);
    } else if MostSpaced(Window(cfg), gap) <= cfg.maxCount {
      SpacedRunsKeepToLimit(cfg, gap);
    } else {
      var steps := HealthRestartsFillWindow(cfg, gap);
      OverfullWindow(cfg, gap, steps, 0);
    }
  }
}
