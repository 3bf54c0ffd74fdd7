/**
 What holds in every reachable state of the lifecycle when commands on the
 process are serialized and a stop waits until its child is reaped.
 */
module LifecycleSafety {
  import opened Common
  import opened Lifecycle

  // ---------- the invariant ----------

  /** The monitor has yet to report the exit of its child; before it is spawned it is missing. */
  ghost predicate Unreported(s: Shared, k: ChildId) {
    k in s.monitors ==> s.monitors[k].Spawned? || s.monitors[k].Waiting? || s.monitors[k].Returned?
  }

  /** What holds of one child, its monitor and its two channels. */
  ghost predicate ChildOk(s: Shared, k: ChildId) {
    && (k in s.monitors ==>
          && k < s.nextChild
          && (!s.monitors[k].Gone? ==> s.monitorDone == Some(k))
          && (s.monitors[k].Waiting? ==> s.monitors[k].cmd == Some(k))
          && (s.monitors[k].Waiting? || s.monitors[k].Returned? || s.monitors[k].Updated? ==> s.monitors[k].done == Some(k)))
    && s.waitClosed[k] == (if k in s.monitors && !Unreported(s, k) then 1 else 0)
    && s.doneClosed[k] == (if k in s.monitors && s.monitors[k].Gone? then 1 else 0)
    && (k in s.unsettled <==> s.monitorDone == Some(k) && Unreported(s, k))
    && (k in s.unreaped <==> k in s.unsettled && (k in s.monitors ==> !s.monitors[k].Returned?))
    && (s.waitCh == Some(k) <==> k in s.unsettled)
    && (k in s.unsettled ==> (s.state == Running || s.state == Stopping) && s.cmd == Some(k) && s.pid == k + 1)
  }

  /** The last monitor has finished. */
  ghost predicate Quiet(s: Shared) {
    s.monitorDone.Some? ==> s.monitorDone.value in s.monitors && s.monitors[s.monitorDone.value].Gone?
  }

  /** A forked child that is not installed yet. */
  ghost predicate NewChild(s: Shared, k: ChildId) {
    k < s.nextChild && k !in s.monitors
  }

  /** What holds of the process where a command stands. */
  ghost predicate PlaceOk(s: Shared, c: Command) {
    match c.pc
    case StartCheck => c.kind != UserStart ==> s.waitCh.None?
    case StartWait(done) => s.waitCh.None? && done == s.monitorDone
    case StartClaim => s.waitCh.None? && Quiet(s)
    case StartSocket => s.waitCh.None? && Quiet(s)
    case StartFork => s.waitCh.None? && Quiet(s)
    case StartFailed => s.waitCh.None? && Quiet(s)
    case StartInstall(k) => s.waitCh.None? && Quiet(s) && NewChild(s, k)
    case StartKill(k) => s.waitCh.None?
    case StartSpawn(k) => s.monitorDone == Some(k) && NewChild(s, k)
    case StopBegin => true
    case StopWait(ch) => s.state == Stopping && (s.waitCh == ch || (s.waitCh.None? && ch.Some? && ch.value in s.waitClosed))
    case StopFinish => s.state == Stopping && s.waitCh.None?
    case RestartBegin => c.kind != UserStop
    case RestartBetween => s.state == Stopped
    case DelayedCheck => true
    case DelayedFailed => s.waitCh.None?
    case HealthFailed => s.waitCh.None?
  }

  ghost predicate InStop(c: Option<Command>) {
    c.Some? && ((c.value.pc.StopBegin? && c.value.kind != UserStop) || c.value.pc.StopWait? || c.value.pc.StopFinish?)
  }

  ghost predicate InSpawn(c: Option<Command>, k: ChildId) {
    c.Some? && c.value.pc == StartSpawn(k)
  }

  ghost predicate Inv(s: Shared, c: Option<Command>) {
    && (forall k :: ChildOk(s, k))
    && (s.state == Running ==> s.waitCh.Some?)
    && (s.state == Stopping ==> InStop(c))
    && (s.monitorDone.Some? ==> s.monitorDone.value in s.monitors || InSpawn(c, s.monitorDone.value))
    && (c.Some? ==> PlaceOk(s, c.value))
  }

  // ---------- every step keeps it ----------

  lemma MonitorKeeps(cfg: Settings, s: Shared, c: Option<Command>, b: Background)
    requires b.MonitorBegins? || b.MonitorReaps? || b.MonitorUpdates? || b.MonitorEnds?
    requires Inv(s, c) && BackgroundEnabled(cfg, s, b)
    ensures Inv(BackgroundStep(cfg, s, b), c)
  {
    var t := BackgroundStep(cfg, s, b);
    assert ChildOk(s, b.id);
    forall k ensures ChildOk(t, k) {
      assert ChildOk(s, k);
    }
  }

  /** The children, their monitors and channels are untouched. */
  ghost predicate SameChildren(s: Shared, t: Shared) {
    && t.monitors == s.monitors && t.nextChild == s.nextChild && t.monitorDone == s.monitorDone
    && t.waitClosed == s.waitClosed && t.doneClosed == s.doneClosed && t.waitCh == s.waitCh
    && t.unsettled == s.unsettled && t.unreaped == s.unreaped && t.cmd == s.cmd && t.pid == s.pid
  }

  /** The state may change among those in which no child is installed. */
  ghost predicate StateMayChange(s: Shared, t: Shared) {
    t.state == s.state || (s.state in {Starting, Exited} && t.state in {Starting, Exited, Fatal})
  }

  lemma UntouchedChildrenKeep(s: Shared, t: Shared, c: Option<Command>)
    requires Inv(s, c) && SameChildren(s, t) && StateMayChange(s, t)
    ensures Inv(t, c)
  {
    forall k ensures ChildOk(t, k) {
      assert ChildOk(s, k);
    }
  }

  lemma TickTouchesNoChild(cfg: Settings, s: Shared)
    ensures SameChildren(s, HandleExited(cfg, s)) && StateMayChange(s, HandleExited(cfg, s))
  {
  }

  lemma OthersTouchNoChild(cfg: Settings, s: Shared, b: Background)
    requires !b.MonitorBegins? && !b.MonitorReaps? && !b.MonitorUpdates? && !b.MonitorEnds? && !b.TickExited?
    requires BackgroundEnabled(cfg, s, b)
    ensures SameChildren(s, BackgroundStep(cfg, s, b)) && StateMayChange(s, BackgroundStep(cfg, s, b))
  {
  }

  lemma BackgroundKeeps(cfg: Settings, s: Shared, c: Option<Command>, b: Background)
    requires Inv(s, c) && BackgroundEnabled(cfg, s, b)
    ensures Inv(BackgroundStep(cfg, s, b), c)
  {
    if b.MonitorBegins? || b.MonitorReaps? || b.MonitorUpdates? || b.MonitorEnds? {
      MonitorKeeps(cfg, s, c, b);
    } else {
      if b.TickExited? {
        TickTouchesNoChild(cfg, s);
      } else {
        OthersTouchNoChild(cfg, s, b);
      }
      UntouchedChildrenKeep(s, BackgroundStep(cfg, s, b), c);
    }
  }

  lemma BeginKeeps(cfg: Settings, s: Shared, kind: Kind)
    requires Inv(s, None) && CanBegin(cfg, s, kind)
    ensures Inv(BeginCommand(s, kind).shared, BeginCommand(s, kind).command)
  {
    var t := BeginCommand(s, kind).shared;
    forall k ensures ChildOk(t, k) {
      assert ChildOk(s, k);
    }
  }

  lemma StartKeeps(cfg: Settings, s: Shared, c: Command, ok: bool)
    requires c.pc.StartCheck? || c.pc.StartWait? || c.pc.StartClaim? || c.pc.StartSocket? || c.pc.StartFork?
    requires Inv(s, Some(c)) && CanAdvance(s, c, ok)
    ensures Inv(Advance(cfg, s, c, ok).shared, Advance(cfg, s, c, ok).command)
  {
    var t := Advance(cfg, s, c, ok).shared;
    forall k ensures ChildOk(t, k) {
      assert ChildOk(s, k);
    }
    if s.monitorDone.Some? {
      assert ChildOk(s, s.monitorDone.value);
    }
    assert ChildOk(s, s.nextChild);
    if s.waitCh.Some? {
      assert ChildOk(s, s.waitCh.value);
    }
  }

  lemma InstallKeeps(cfg: Settings, s: Shared, c: Command, ok: bool)
    requires c.pc.StartFailed? || c.pc.StartInstall? || c.pc.StartKill? || c.pc.StartSpawn?
    requires Inv(s, Some(c))
    ensures Inv(Advance(cfg, s, c, ok).shared, Advance(cfg, s, c, ok).command)
  {
    var t := Advance(cfg, s, c, ok).shared;
    if s.monitorDone.Some? {
      assert ChildOk(s, s.monitorDone.value);
    }
    forall k ensures ChildOk(t, k) {
      assert ChildOk(s, k);
    }
  }

  lemma BeginStopKeeps(cfg: Settings, s: Shared, c: Command, ok: bool)
    requires c.pc.StopBegin?
    requires Inv(s, Some(c))
    ensures Inv(Advance(cfg, s, c, ok).shared, Advance(cfg, s, c, ok).command)
  {
    var t := Advance(cfg, s, c, ok).shared;
    if s.waitCh.Some? {
      assert ChildOk(s, s.waitCh.value);
    }
    forall k ensures ChildOk(t, k) {
      assert ChildOk(s, k);
    }
  }

  lemma BeginRestartKeeps(cfg: Settings, s: Shared, c: Command, ok: bool)
    requires c.pc.RestartBegin?
    requires Inv(s, Some(c))
    ensures Inv(Advance(cfg, s, c, ok).shared, Advance(cfg, s, c, ok).command)
  {
    var t := Advance(cfg, s, c, ok).shared;
    if s.waitCh.Some? {
      assert ChildOk(s, s.waitCh.value);
    }
    forall k ensures ChildOk(t, k) {
      assert ChildOk(s, k);
    }
  }

  lemma EndStopKeeps(cfg: Settings, s: Shared, c: Command, ok: bool)
    requires c.pc.StopWait? || c.pc.StopFinish?
    requires Inv(s, Some(c)) && CanAdvance(s, c, ok) && (c.pc.StopWait? ==> ok)
    ensures Inv(Advance(cfg, s, c, ok).shared, Advance(cfg, s, c, ok).command)
  {
    var t := Advance(cfg, s, c, ok).shared;
    if c.pc.StopWait? && c.pc.ch.Some? {
      assert ChildOk(s, c.pc.ch.value);
    }
    forall k ensures ChildOk(t, k) {
      assert ChildOk(s, k);
    }
  }

  lemma TailKeeps(cfg: Settings, s: Shared, c: Command, ok: bool)
    requires c.pc.RestartBetween? || c.pc.DelayedCheck? || c.pc.DelayedFailed? || c.pc.HealthFailed?
    requires Inv(s, Some(c))
    ensures Inv(Advance(cfg, s, c, ok).shared, Advance(cfg, s, c, ok).command)
  {
    var t := Advance(cfg, s, c, ok).shared;
    if s.waitCh.Some? {
      assert ChildOk(s, s.waitCh.value);
    }
    forall k ensures ChildOk(t, k) {
      assert ChildOk(s, k);
    }
  }

  lemma AdvanceKeeps(cfg: Settings, s: Shared, c: Command, ok: bool)
    requires Inv(s, Some(c)) && CanAdvance(s, c, ok) && (c.pc.StopWait? ==> ok)
    ensures Inv(Advance(cfg, s, c, ok).shared, Advance(cfg, s, c, ok).command)
  {
    match c.pc
    case StartCheck => StartKeeps(cfg, s, c, ok);
    case StartWait(_) => StartKeeps(cfg, s, c, ok);
    case StartClaim => StartKeeps(cfg, s, c, ok);
    case StartSocket => StartKeeps(cfg, s, c, ok);
    case StartFork => StartKeeps(cfg, s, c, ok);
    case StartFailed => InstallKeeps(cfg, s, c, ok);
    case StartInstall(_) => InstallKeeps(cfg, s, c, ok);
    case StartKill(_) => InstallKeeps(cfg, s, c, ok);
    case StartSpawn(_) => InstallKeeps(cfg, s, c, ok);
    case StopBegin => BeginStopKeeps(cfg, s, c, ok);
    case StopWait(_) => EndStopKeeps(cfg, s, c, ok);
    case StopFinish => EndStopKeeps(cfg, s, c, ok);
    case RestartBegin => BeginRestartKeeps(cfg, s, c, ok);
    case _ => TailKeeps(cfg, s, c, ok);
  }

  lemma StepKeepsInv(cfg: Settings, s: System, step: Step)
    requires Inv(s.shared, s.command) && Enabled(cfg, s, step)
    ensures Inv(Apply(cfg, s, step).shared, Apply(cfg, s, step).command)
  {
    match step
    case Bg(b) => BackgroundKeeps(cfg, s.shared, s.command, b);
    case Begin(kind) => BeginKeeps(cfg, s.shared, kind);
    case Cmd(ok) => AdvanceKeeps(cfg, s.shared, s.command.value, ok);
  }

  lemma {:induction false} RunKeepsInv(cfg: Settings, from: System, steps: seq<Step>)
    requires Inv(from.shared, from.command) && Possible(cfg, from, steps)
    ensures Inv(Reached(cfg, from, steps).shared, Reached(cfg, from, steps).command)
    decreases |steps|
  {
    if steps != [] {
      RunKeepsInv(cfg, from, Init(steps));
      StepKeepsInv(cfg, Reached(cfg, from, Init(steps)), steps[|steps| - 1]);
    }
  }

  lemma StartsSafe()
    ensures Inv(FRESH, None)
  {
    forall k ensures ChildOk(FRESH, k) {
    }
  }

  // ---------- children ----------

  /** An unreaped child is the installed one, of a process that runs or is being stopped. */
  ghost predicate ChildrenAccountedFor(s: Shared) {
    && (forall k :: k in s.unreaped ==>
          (s.state == Running || s.state == Stopping) && s.cmd == Some(k) && s.pid == k + 1)
    && |s.unreaped| <= 1
    && (s.state == Running ==> s.cmd.Some? && s.pid > 0)
  }

  ghost predicate ClosedAtMostOnce(closed: multiset<ChildId>) {
    forall k :: closed[k] <= 1
  }

  lemma InvAccountsForChildren(s: Shared, c: Option<Command>)
    requires Inv(s, c)
    ensures ChildrenAccountedFor(s) && ClosedAtMostOnce(s.waitClosed) && ClosedAtMostOnce(s.doneClosed)
  {
    forall k ensures k in s.unreaped ==> k in s.unsettled && s.cmd == Some(k) && ChildOk(s, k) {
      assert ChildOk(s, k);
    }
    forall k ensures s.waitClosed[k] <= 1 && s.doneClosed[k] <= 1 {
      assert ChildOk(s, k);
    }
    if s.waitCh.Some? {
      assert ChildOk(s, s.waitCh.value);
    }
    if k :| k in s.unreaped {
      assert s.unreaped == {k};
    }
  }

  /**
   Whatever the children, monitors, ticks and sleeping goroutines do between
   the steps of serialized commands, no child is lost and no channel is closed
   twice.
   */
  lemma RunsAccountForChildren(cfg: Settings, steps: seq<Step>)
    requires Possible(cfg, START, steps)
    ensures ChildrenAccountedFor(Reached(cfg, START, steps).shared)
    ensures ClosedAtMostOnce(Reached(cfg, START, steps).shared.waitClosed)
    ensures ClosedAtMostOnce(Reached(cfg, START, steps).shared.doneClosed)
  {
    StartsSafe();
    RunKeepsInv(cfg, START, steps);
    var s := Reached(cfg, START, steps);
    InvAccountsForChildren(s.shared, s.command);
  }

  // ---------- stopping ----------

  /** The step with which a stop returns, alone or inside a restart. */
  ghost predicate StopReturnsBy(cfg: Settings, s: System, step: Step)
    requires Enabled(cfg, s, step)
  {
    && step.Cmd? && (s.command.value.pc.StopBegin? || s.command.value.pc.StopFinish?)
    && (Apply(cfg, s, step).command.None? || Apply(cfg, s, step).command.value.pc.RestartBetween?)
  }

  lemma StopLeavesStopped(cfg: Settings, steps: seq<Step>, last: Step)
    requires Possible(cfg, START, steps) && Enabled(cfg, Reached(cfg, START, steps), last)
    requires StopReturnsBy(cfg, Reached(cfg, START, steps), last)
    ensures Apply(cfg, Reached(cfg, START, steps), last).shared.state == Stopped
    ensures Apply(cfg, Reached(cfg, START, steps), last).shared.unreaped == {}
  {
    StartsSafe();
    RunKeepsInv(cfg, START, steps);
    var s := Reached(cfg, START, steps);
    StepKeepsInv(cfg, s, last);
    var t := Apply(cfg, s, last);
    InvAccountsForChildren(t.shared, t.command);
  }

  /** Nobody has asked for the process to run. */
  ghost predicate AtRest(s: System) {
    && s.shared.state == Stopped
    && (s.command.Some? ==> s.command.value.pc.DelayedCheck? || s.command.value == Command(UserStop, StopBegin))
  }

  ghost predicate NotStarting(step: Step) {
    step != Begin(UserStart) && step != Begin(UserRestart)
  }

  lemma StoppedHasNoReport(s: Shared, c: Option<Command>)
    requires Inv(s, c) && s.state == Stopped
    ensures forall k :: k in s.monitors ==> !s.monitors[k].Returned?
  {
    forall k | k in s.monitors ensures !s.monitors[k].Returned? {
      assert ChildOk(s, k);
    }
  }

  lemma StepStaysAtRest(cfg: Settings, s: System, step: Step)
    requires Inv(s.shared, s.command) && AtRest(s) && Enabled(cfg, s, step) && NotStarting(step)
    ensures AtRest(Apply(cfg, s, step))
  {
    StoppedHasNoReport(s.shared, s.command);
  }

  lemma {:induction false} RunStaysAtRest(cfg: Settings, from: System, steps: seq<Step>)
    requires Inv(from.shared, from.command) && AtRest(from) && Possible(cfg, from, steps)
    requires forall i :: 0 <= i < |steps| ==> NotStarting(steps[i])
    ensures AtRest(Reached(cfg, from, steps))
    decreases |steps|
  {
    if steps != [] {
      RunStaysAtRest(cfg, from, Init(steps));
      RunKeepsInv(cfg, from, Init(steps));
      StepStaysAtRest(cfg, Reached(cfg, from, Init(steps)), steps[|steps| - 1]);
    }
  }

  /**
   A stopped process stays stopped, whatever old monitors, ticks, sleeping
   restarts, health checks and further stops do, until a user starts it.
   */
  lemma StoppedUntilUserStarts(cfg: Settings, before: seq<Step>, more: seq<Step>)
    requires Possible(cfg, START, before)
    requires Reached(cfg, START, before).shared.state == Stopped && Reached(cfg, START, before).command.None?
    requires Possible(cfg, Reached(cfg, START, before), more)
    requires forall i :: 0 <= i < |more| ==> NotStarting(more[i])
    ensures Reached(cfg, Reached(cfg, START, before), more).shared.state == Stopped
  {
    StartsSafe();
    RunKeepsInv(cfg, START, before);
    RunStaysAtRest(cfg, Reached(cfg, START, before), more);
  }

  // ---------- a waiting command is never stuck ----------

  /** How many steps of a child and its monitor remain before both channels are closed. */
  ghost function Remaining(s: Shared, k: ChildId): nat {
    if k !in s.monitors then 0
    else match s.monitors[k]
      case Spawned => if k in s.alive then 5 else 4
      case Waiting(_, _) => if k in s.alive then 4 else 3
      case Returned(_, _) => 2
      case Updated(_) => 1
      case Gone => 0
  }

  /** A step of a child or of its monitor. */
  predicate WindsDown(b: Background) {
    b.ChildDies? || b.MonitorBegins? || b.MonitorReaps? || b.MonitorUpdates? || b.MonitorEnds?
  }

  /** The child last installed, or its monitor, can take a step towards closing the channels. */
  ghost predicate Serves(cfg: Settings, s: Shared, b: Background) {
    && WindsDown(b) && BackgroundEnabled(cfg, s, b) && s.monitorDone.Some?
    && Remaining(BackgroundStep(cfg, s, b), s.monitorDone.value) < Remaining(s, s.monitorDone.value)
  }

  lemma MonitorServes(cfg: Settings, s: Shared, k: ChildId)
    requires ChildOk(s, k) && s.monitorDone == Some(k) && k in s.monitors && !s.monitors[k].Gone?
    ensures exists b :: Serves(cfg, s, b)
  {
    var b := match s.monitors[k]
      case Spawned => MonitorBegins(k)
      case Waiting(_, _) => if k in s.alive then ChildDies(k) else MonitorReaps(k, 0)
      case Returned(_, _) => MonitorUpdates(k)
      case _ => MonitorEnds(k);
    assert Serves(cfg, s, b);
  }

  lemma InvServes(cfg: Settings, s: System)
    requires Inv(s.shared, s.command) && s.command.Some? && !Enabled(cfg, s, Cmd(true))
    ensures exists b :: Serves(cfg, s.shared, b)
  {
    var c := s.command.value;
    var k := if c.pc.StartWait? then c.pc.done.value else c.pc.ch.value;
    assert ChildOk(s.shared, k);
    MonitorServes(cfg, s.shared, k);
  }

  /** No deadlock: a command that cannot go on waits for a child or a monitor that can. */
  lemma WaitingCommandsAreServed(cfg: Settings, steps: seq<Step>)
    requires Possible(cfg, START, steps) && Reached(cfg, START, steps).command.Some?
    ensures Enabled(cfg, Reached(cfg, START, steps), Cmd(true)) || exists b :: Serves(cfg, Reached(cfg, START, steps).shared, b)
  {
    StartsSafe();
    RunKeepsInv(cfg, START, steps);
    if !Enabled(cfg, Reached(cfg, START, steps), Cmd(true)) {
      InvServes(cfg, Reached(cfg, START, steps));
    }
  }

  function Bgs(bs: seq<Background>): seq<Step> {
    seq(|bs|, i requires 0 <= i < |bs| => Bg(bs[i]))
  }

  /** The background steps leave the command where it is, and then it can go on. */
  ghost predicate WaitEndsAfter(cfg: Settings, s: System, bs: seq<Background>) {
    Possible(cfg, s, Bgs(bs)) && Enabled(cfg, Reached(cfg, s, Bgs(bs)), Cmd(true))
  }

  lemma {:induction false} BackgroundKeepsCommand(cfg: Settings, s: System, bs: seq<Background>)
    requires Possible(cfg, s, Bgs(bs))
    ensures Reached(cfg, s, Bgs(bs)).command == s.command
    decreases |bs|
  {
    if bs != [] {
      assert Init(Bgs(bs)) == Bgs(bs[..|bs| - 1]);
      BackgroundKeepsCommand(cfg, s, bs[..|bs| - 1]);
    }
  }

  lemma {:induction false} OneMoreInBackground(cfg: Settings, s: System, bs: seq<Background>, b: Background)
    requires Possible(cfg, s, Bgs(bs)) && BackgroundEnabled(cfg, Reached(cfg, s, Bgs(bs)).shared, b)
    ensures Possible(cfg, s, Bgs(bs + [b]))
    ensures var t := Reached(cfg, s, Bgs(bs));
            && Reached(cfg, s, Bgs(bs + [b])).shared == BackgroundStep(cfg, t.shared, b)
            && Reached(cfg, s, Bgs(bs + [b])).shared.monitorDone == t.shared.monitorDone
  {
    assert Init(Bgs(bs + [b])) == Bgs(bs);
    BackgroundInstallsNothing(cfg, Reached(cfg, s, Bgs(bs)).shared, b);
  }

  /** From some place on, only children and monitors take steps. */
  ghost predicate WindsFrom(bs: seq<Background>, n: nat) {
    forall i :: n <= i < |bs| ==> WindsDown(bs[i])
  }

  lemma {:induction false} WindsFromEarlier(bs: seq<Background>, b: Background, more: seq<Background>)
    requires bs + [b] <= more && WindsFrom(more, |bs| + 1) && WindsDown(b)
    ensures bs <= more && WindsFrom(more, |bs|)
  {
    assert more[|bs|] == (bs + [b])[|bs|];
  }

  /** However far the background has come, it can come so far that a command goes on. */
  lemma {:induction false} EveryWaitEnds(cfg: Settings, s: System, bs: seq<Background>) returns (more: seq<Background>)
    requires Inv(s.shared, s.command) && s.command.Some? && Possible(cfg, s, Bgs(bs))
    ensures bs <= more && WaitEndsAfter(cfg, s, more)
    ensures WindsFrom(more, |bs|)
    decreases var t := Reached(cfg, s, Bgs(bs)).shared;
              if t.monitorDone.Some? then Remaining(t, t.monitorDone.value) else 0
  {
    var t := Reached(cfg, s, Bgs(bs));
    RunKeepsInv(cfg, s, Bgs(bs));
    BackgroundKeepsCommand(cfg, s, bs);
    if Enabled(cfg, t, Cmd(true)) {
      more := bs;
    } else {
      InvServes(cfg, t);
      var b :| Serves(cfg, t.shared, b);
      OneMoreInBackground(cfg, s, bs, b);
      more := EveryWaitEnds(cfg, s, bs + [b]);
      WindsFromEarlier(bs, b, more);
    }
  }

  lemma BackgroundInstallsNothing(cfg: Settings, s: Shared, b: Background)
    requires BackgroundEnabled(cfg, s, b)
    ensures BackgroundStep(cfg, s, b).monitorDone == s.monitorDone
  {
  }

  // ---------- health restarts ----------

  /** The health restarts that no successful check and no cleared flag has paid for yet. */
  ghost function Unpaid(s: Shared): int {
    s.healthRestarts - s.healthSuccesses - s.flagResets - (if s.restartFired then 1 else 0)
  }

  lemma BackgroundPays(cfg: Settings, s: Shared, b: Background)
    requires BackgroundEnabled(cfg, s, b)
    ensures Unpaid(BackgroundStep(cfg, s, b)) <= Unpaid(s)
  {
  }

  lemma StartOwesNothing(cfg: Settings, s: Shared, c: Command, ok: bool)
    requires c.pc.StartCheck? || c.pc.StartWait? || c.pc.StartClaim? || c.pc.StartSocket? || c.pc.StartFork?
             || c.pc.StartFailed? || c.pc.StartInstall? || c.pc.StartKill? || c.pc.StartSpawn?
    ensures Unpaid(Advance(cfg, s, c, ok).shared) == Unpaid(s)
  {
  }

  lemma StopOwesNothing(cfg: Settings, s: Shared, c: Command, ok: bool)
    requires c.pc.StopBegin? || c.pc.StopWait? || c.pc.StopFinish? || c.pc.RestartBegin? || c.pc.RestartBetween?
             || c.pc.DelayedCheck? || c.pc.DelayedFailed? || c.pc.HealthFailed?
    ensures Unpaid(Advance(cfg, s, c, ok).shared) == Unpaid(s)
  {
  }

  lemma AdvanceOwesNothing(cfg: Settings, s: Shared, c: Command, ok: bool)
    ensures Unpaid(Advance(cfg, s, c, ok).shared) == Unpaid(s)
  {
    if c.pc.StopBegin? || c.pc.StopWait? || c.pc.StopFinish? || c.pc.RestartBegin? || c.pc.RestartBetween?
      || c.pc.DelayedCheck? || c.pc.DelayedFailed? || c.pc.HealthFailed? {
      StopOwesNothing(cfg, s, c, ok);
    } else {
      StartOwesNothing(cfg, s, c, ok);
    }
  }

  lemma StepPays(cfg: Settings, s: System, step: Step)
    requires Enabled(cfg, s, step)
    ensures Unpaid(Apply(cfg, s, step).shared) <= Unpaid(s.shared)
  {
    match step
    case Bg(b) => BackgroundPays(cfg, s.shared, b);
    case Begin(_) =>
    case Cmd(ok) => AdvanceOwesNothing(cfg, s.shared, s.command.value, ok);
  }

  /** Every health restart but one is paid for by a successful check or a cleared flag. */
  lemma {:induction false} HealthRestartsAreBounded(cfg: Settings, steps: seq<Step>)
    requires Possible(cfg, START, steps)
    ensures var s := Reached(cfg, START, steps).shared;
            s.healthRestarts <= s.healthSuccesses + s.flagResets + 1
    ensures Unpaid(Reached(cfg, START, steps).shared) <= 0
    decreases |steps|
  {
    if steps != [] {
      HealthRestartsAreBounded(cfg, Init(steps));
      StepPays(cfg, Reached(cfg, START, Init(steps)), steps[|steps| - 1]);
    }
  }
}
