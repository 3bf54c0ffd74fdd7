/**
 The lifecycle with any number of commands at work on one process, and the
 pieces from which its runs are put together. Rules restrict it: which commands
 may be launched, whether they are serialized, whether stops are patient (they
 end because the child was reaped, not because the timer ran out), and how far
 health restarts keep from the start before them.
 */
module Crowds {
  import opened Common
  import opened Lifecycle
  import RestartWindow

  datatype Rules = Rules(serialized: bool, patient: bool, kinds: set<Kind>, gap: Option<nat>)

  const EVERY_KIND := {UserStart, UserStop, UserRestart, DelayedRestart, HealthRestart}

  datatype Crowd = Crowd(shared: Shared, commands: seq<Command>)

  /** What is fixed during a run: the settings, the rules and where it begins. */
  datatype Scene = Scene(cfg: Settings, rules: Rules, from: Crowd)

  datatype Move = Around(background: Background) | Launch(kind: Kind) | Go(index: nat, ok: bool)

  /** No health restart yet, or the last start is long enough ago. */
  predicate Rested(s: Shared, gap: nat) {
    s.healthRestarts > 0 && s.starts != [] ==> s.clock >= s.starts[|s.starts| - 1] + gap
  }

  ghost predicate Allowed(sc: Scene, c: Crowd, m: Move) {
    match m
    case Around(b) => BackgroundEnabled(sc.cfg, c.shared, b)
    case Launch(kind) =>
      && CanBegin(sc.cfg, c.shared, kind) && kind in sc.rules.kinds && (sc.rules.serialized ==> c.commands == [])
      && (sc.rules.gap.Some? && kind == HealthRestart ==> Rested(c.shared, sc.rules.gap.value))
    case Go(i, ok) =>
      i < |c.commands| && CanAdvance(c.shared, c.commands[i], ok) && (sc.rules.patient && c.commands[i].pc.StopWait? ==> ok)
  }

  /** The command at a place goes on, or ends and leaves. */
  function Replaced(commands: seq<Command>, i: nat, c: Option<Command>): seq<Command>
    requires i < |commands|
  {
    if c.Some? then commands[i := c.value] else commands[..i] + commands[i + 1..]
  }

  function Moved(sc: Scene, c: Crowd, m: Move): Crowd
    requires Allowed(sc, c, m)
  {
    match m
    case Around(b) => c.(shared := BackgroundStep(sc.cfg, c.shared, b))
    case Launch(kind) => var a := BeginCommand(c.shared, kind); Crowd(a.shared, c.commands + [a.command.value])
    case Go(i, ok) =>
      var a := Advance(sc.cfg, c.shared, c.commands[i], ok); Crowd(a.shared, Replaced(c.commands, i, a.command))
  }

  ghost predicate Follows(sc: Scene, c: Crowd, d: Crowd) {
    exists m :: Allowed(sc, c, m) && d == Moved(sc, c, m)
  }

  ghost predicate IsRun(sc: Scene, run: seq<Crowd>) {
    && run != [] && run[0] == sc.from
    && forall i :: 0 <= i < |run| - 1 ==> Follows(sc, run[i], run[i + 1])
  }

  ghost predicate Leads(sc: Scene, c: Crowd) {
    exists run :: IsRun(sc, run) && run[|run| - 1] == c
  }

  lemma LeadsNowhere(sc: Scene)
    ensures Leads(sc, sc.from)
  {
    assert IsRun(sc, [sc.from]);
  }

  lemma Move1(sc: Scene, c: Crowd, m: Move) returns (d: Crowd)
    requires Leads(sc, c) && Allowed(sc, c, m)
    ensures Leads(sc, d) && d == Moved(sc, c, m)
  {
    d := Moved(sc, c, m);
    var run :| IsRun(sc, run) && run[|run| - 1] == c;
    assert Follows(sc, c, d);
    assert IsRun(sc, run + [d]);
  }

  // ---------- under both rules the crowd is the system with one command ----------

  function Only(commands: seq<Command>): Option<Command> {
    if commands == [] then None else Some(commands[0])
  }

  function Alone(c: Crowd): System {
    System(c.shared, Only(c.commands))
  }

  /** Only commands of the given kinds are begun. */
  ghost predicate OnlyKinds(steps: seq<Step>, kinds: set<Kind>) {
    forall i :: 0 <= i < |steps| && steps[i].Begin? ==> steps[i].kind in kinds
  }

  /** A first health restart may begin at any time, a later one only some time after the last start. */
  ghost predicate KeepsGap(s: System, step: Step, gap: nat) {
    step == Begin(HealthRestart) ==> Rested(s.shared, gap)
  }

  /** Health restarts keep a gap from the start before them, but for the first. */
  ghost predicate Spaced(cfg: Settings, from: System, steps: seq<Step>, gap: nat)
    requires Possible(cfg, from, steps)
    decreases |steps|
  {
    steps != [] ==>
      Spaced(cfg, from, Init(steps), gap) && KeepsGap(Reached(cfg, from, Init(steps)), steps[|steps| - 1], gap)
  }

  lemma MoveIsStep(sc: Scene, c: Crowd, m: Move) returns (step: Step)
    requires sc.rules.serialized && sc.rules.patient && |c.commands| <= 1 && Allowed(sc, c, m)
    ensures Enabled(sc.cfg, Alone(c), step) && Alone(Moved(sc, c, m)) == Apply(sc.cfg, Alone(c), step)
    ensures |Moved(sc, c, m).commands| <= 1 && (step.Begin? ==> step.kind in sc.rules.kinds)
    ensures sc.rules.gap.Some? ==> KeepsGap(Alone(c), step, sc.rules.gap.value)
  {
    step := match m
      case Around(b) => Bg(b)
      case Launch(kind) => Begin(kind)
      case Go(_, ok) => Cmd(ok);
  }

  lemma {:induction false} Extended(cfg: Settings, from: System, steps: seq<Step>, step: Step)
    requires Possible(cfg, from, steps) && Enabled(cfg, Reached(cfg, from, steps), step)
    ensures Possible(cfg, from, steps + [step])
    ensures Reached(cfg, from, steps + [step]) == Apply(cfg, Reached(cfg, from, steps), step)
  {
    assert Init(steps + [step]) == steps;
  }

  lemma {:induction false} RunIsSteps(sc: Scene, run: seq<Crowd>) returns (steps: seq<Step>)
    requires sc.rules.serialized && sc.rules.patient && |sc.from.commands| <= 1 && IsRun(sc, run)
    ensures Possible(sc.cfg, Alone(sc.from), steps) && OnlyKinds(steps, sc.rules.kinds)
    ensures sc.rules.gap.Some? ==> Spaced(sc.cfg, Alone(sc.from), steps, sc.rules.gap.value)
    ensures Reached(sc.cfg, Alone(sc.from), steps) == Alone(run[|run| - 1]) && |run[|run| - 1].commands| <= 1
    decreases |run|
  {
    if |run| == 1 {
      steps := [];
    } else {
      var before := run[..|run| - 1];
      forall i | 0 <= i < |before| - 1 ensures Follows(sc, before[i], before[i + 1]) {
        assert Follows(sc, run[i], run[i + 1]);
      }
      var earlier := RunIsSteps(sc, before);
      assert Follows(sc, run[|run| - 2], run[|run| - 2 + 1]);
      var m :| Allowed(sc, run[|run| - 2], m) && run[|run| - 1] == Moved(sc, run[|run| - 2], m);
      var step := MoveIsStep(sc, run[|run| - 2], m);
      Extended(sc.cfg, Alone(sc.from), earlier, step);
      steps := earlier + [step];
      assert Init(steps) == earlier;
    }
  }

  /** What a crowd under both rules reaches, the system reaches by steps. */
  lemma LeadsBySteps(sc: Scene, c: Crowd) returns (steps: seq<Step>)
    requires sc.rules.serialized && sc.rules.patient && |sc.from.commands| <= 1 && Leads(sc, c)
    ensures Possible(sc.cfg, Alone(sc.from), steps) && OnlyKinds(steps, sc.rules.kinds)
    ensures sc.rules.gap.Some? ==> Spaced(sc.cfg, Alone(sc.from), steps, sc.rules.gap.value)
    ensures Reached(sc.cfg, Alone(sc.from), steps) == Alone(c) && |c.commands| <= 1
  {
    var run :| IsRun(sc, run) && run[|run| - 1] == c;
    steps := RunIsSteps(sc, run);
  }

  // ---------- a start that meets no obstacle ----------

  /** The command launched last takes a step. */
  lemma Forward(sc: Scene, s: Shared, others: seq<Command>, x: Command, ok: bool)
    requires Leads(sc, Crowd(s, others + [x])) && CanAdvance(s, x, ok) && (x.pc.StopWait? ==> sc.rules.patient ==> ok)
    ensures var a := Advance(sc.cfg, s, x, ok);
            Leads(sc, Crowd(a.shared, if a.command.Some? then others + [a.command.value] else others))
  {
    var c := Crowd(s, others + [x]);
    assert c.commands[|others|] == x;
    var d := Move1(sc, c, Go(|others|, ok));
    var a := Advance(sc.cfg, s, x, ok);
    assert d.commands == if a.command.Some? then others + [a.command.value] else others;
  }

  function Claimed(s: Shared, kind: Kind): Shared {
    s.(cmd := None, state := Starting, retries := s.retries + 1, healthy := false, attempts := s.attempts + 1,
       dispatched := if kind == DelayedRestart then s.dispatched + 1 else s.dispatched)
  }

  function Forked(cfg: Settings, s: Shared): Shared {
    var k := s.nextChild;
    var t := Install(cfg, s.(alive := s.alive + {k}, nextChild := k + 1), k);
    t.(monitors := s.monitors[k := Spawned])
  }

  function StartedUp(cfg: Settings, s: Shared, kind: Kind): Shared {
    Forked(cfg, Claimed(s, kind))
  }

  /** Nothing runs, and the last monitor is through. */
  ghost predicate CanStart(s: Shared) {
    s.state in {Stopped, Exited, Fatal} && (s.monitorDone.Some? ==> s.monitorDone.value in s.doneClosed)
  }

  lemma StartToClaim(sc: Scene, kind: Kind, s: Shared, others: seq<Command>)
    requires Leads(sc, Crowd(s, others + [Command(kind, StartCheck)])) && CanStart(s)
    ensures Leads(sc, Crowd(Claimed(s, kind), others + [Command(kind, if sc.cfg.hasSocket then StartSocket else StartFork)]))
  {
    Forward(sc, s, others, Command(kind, StartCheck), true);
    Forward(sc, s, others, Command(kind, StartWait(s.monitorDone)), true);
    Forward(sc, s, others, Command(kind, StartClaim), true);
  }

  lemma StartFromFork(sc: Scene, kind: Kind, t: Shared, others: seq<Command>)
    requires Leads(sc, Crowd(t, others + [Command(kind, StartFork)])) && t.state == Starting
    ensures Leads(sc, Crowd(Forked(sc.cfg, t), others))
  {
    var k := t.nextChild;
    Forward(sc, t, others, Command(kind, StartFork), true);
    var u := t.(alive := t.alive + {k}, nextChild := k + 1);
    Forward(sc, u, others, Command(kind, StartInstall(k)), true);
    Forward(sc, Install(sc.cfg, u, k), others, Command(kind, StartSpawn(k)), true);
  }

  lemma StartUp(sc: Scene, kind: Kind, s: Shared, others: seq<Command>)
    requires Leads(sc, Crowd(s, others + [Command(kind, StartCheck)])) && CanStart(s)
    ensures Leads(sc, Crowd(StartedUp(sc.cfg, s, kind), others))
  {
    StartToClaim(sc, kind, s, others);
    if sc.cfg.hasSocket {
      Forward(sc, Claimed(s, kind), others, Command(kind, StartSocket), true);
    }
    StartFromFork(sc, kind, Claimed(s, kind), others);
  }

  // ---------- a child that dies ----------

  /** A child that was just started has died, and its monitor has reported it. */
  function Reported(s: Shared, k: ChildId, code: int): Shared {
    s.(alive := s.alive - {k}, monitors := s.monitors[k := Updated(Some(k))], unreaped := s.unreaped - {k},
       unsettled := s.unsettled - {k}, waitClosed := s.waitClosed + multiset{k},
       waitCh := None, exitCode := code, state := if s.state == Running then Exited else s.state)
  }

  /** The monitor, and the hook it runs, have ended as well. */
  function Crashed(s: Shared, k: ChildId, code: int): Shared {
    var t := Reported(s, k, code);
    t.(monitors := s.monitors[k := Gone], doneClosed := s.doneClosed + multiset{k})
  }

  ghost predicate JustStarted(s: Shared, k: ChildId) {
    && k in s.monitors && s.monitors[k] == Spawned && k in s.alive && s.state in {Running, Stopping}
    && s.cmd == Some(k) && s.monitorDone == Some(k) && s.waitCh == Some(k)
  }

  lemma Report(sc: Scene, c: Crowd, k: ChildId, code: int)
    requires Leads(sc, c) && JustStarted(c.shared, k)
    ensures Leads(sc, Crowd(Reported(c.shared, k, code), c.commands))
  {
    var d := Move1(sc, c, Around(ChildDies(k)));
    d := Move1(sc, d, Around(MonitorBegins(k)));
    d := Move1(sc, d, Around(MonitorReaps(k, code)));
    d := Move1(sc, d, Around(MonitorUpdates(k)));
    assert d.shared.monitors == c.shared.monitors[k := Updated(Some(k))];
  }

  lemma HookEnds(sc: Scene, c: Crowd, k: ChildId, done: Option<ChildId>)
    requires Leads(sc, c) && k in c.shared.monitors && c.shared.monitors[k] == Updated(done)
    ensures Leads(sc, Crowd(c.shared.(monitors := c.shared.monitors[k := Gone],
                                      doneClosed := Close(c.shared.doneClosed, done)), c.commands))
  {
    var d := Move1(sc, c, Around(MonitorEnds(k)));
  }

  lemma Crash(sc: Scene, c: Crowd, k: ChildId, code: int)
    requires Leads(sc, c) && JustStarted(c.shared, k)
    ensures Leads(sc, Crowd(Crashed(c.shared, k, code), c.commands))
  {
    Report(sc, c, k, code);
    HookEnds(sc, Crowd(Reported(c.shared, k, code), c.commands), k, Some(k));
    assert Reported(c.shared, k, code).monitors[k := Gone] == c.shared.monitors[k := Gone];
  }

  // ---------- a restart that the tick dispatches ----------

  const SECOND := 1_000_000_000

  /** A dispatched restart has slept its second out. */
  function Woken(cfg: Settings, s: Shared): Shared {
    Budgeted(cfg, s).(woken := s.woken + 1, clock := s.clock + SECOND)
  }

  /** The tick would dispatch once more. */
  lemma WouldDispatchAgain(cfg: Settings, s: Shared)
    requires WouldDispatch(cfg, s)
    ensures WouldDispatch(cfg, Woken(cfg, s)) && Budgeted(cfg, Woken(cfg, s)) == Woken(cfg, s)
  {
    var w := RestartWindow.WindowLength(cfg.windowSecs);
    RestartWindow.AfterShrinks(s.stamps, s.clock - w, s.clock + SECOND - w);
  }

  /** A tick dispatches a restart, which sleeps its second out. */
  lemma WakeUp(sc: Scene, s: Shared, others: seq<Command>)
    requires Leads(sc, Crowd(s, others)) && WouldDispatch(sc.cfg, s) && !s.restartFired
    ensures Leads(sc, Crowd(Woken(sc.cfg, s), others))
  {
    PolicyDecides(sc.cfg, s);
    var c := Move1(sc, Crowd(s, others), Around(TickExited));
    c := Move1(sc, c, Around(Passes(SECOND)));
    c := Move1(sc, c, Around(Wake));
    assert c.shared == Woken(sc.cfg, s);
  }

  /** A woken restart is about to start the process. */
  lemma RestartBegins(sc: Scene, s: Shared)
    requires Leads(sc, Crowd(s, [])) && DelayedRestart in sc.rules.kinds && s.state == Exited && s.woken > 0
    ensures Leads(sc, Crowd(s.(woken := s.woken - 1), [Command(DelayedRestart, StartCheck)]))
  {
    var t := s.(woken := s.woken - 1);
    var c := Move1(sc, Crowd(s, []), Launch(DelayedRestart));
    assert c == Crowd(t, [] + [Command(DelayedRestart, DelayedCheck)]);
    Forward(sc, t, [], Command(DelayedRestart, DelayedCheck), true);
  }
}
