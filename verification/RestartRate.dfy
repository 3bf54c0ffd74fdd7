/**
 The sliding window over whole runs of the lifecycle. The tick consults the
 stamps the process keeps when it dispatches a restart; a start records its
 stamp when it installs its child, and much may happen in between.
 */
module RestartRate {
  import opened Common
  import opened Lifecycle
  import opened Crowds
  import opened CrashLoop
  import opened Overdispatch
  import opened RestartWindow

  // ---------- starts on their way ----------

  /** The command will install a child, if nothing stops it. */
  predicate Heading(c: Option<Command>) {
    && c.Some? && c.value.kind != UserStop
    && !c.value.pc.StartFailed? && !c.value.pc.StartKill? && !c.value.pc.StartSpawn?
    && !c.value.pc.DelayedFailed? && !c.value.pc.HealthFailed?
  }

  /** The starts that are pending or under way. */
  function Tickets(s: System): nat {
    s.shared.sleeping + s.shared.woken + (if Heading(s.command) then 1 else 0)
  }

  /**
   Starts that no check of their own stands for: a user's, a health restart, and
   a restart dispatched while another start is pending or under way.
   */
  ghost function Unchecked(cfg: Settings, s: System, step: Step): nat
    requires Enabled(cfg, s, step)
  {
    match step
    case Begin(kind) => if kind == UserStart || kind == UserRestart || kind == HealthRestart then 1 else 0
    case Bg(b) =>
      if b.TickExited? && Apply(cfg, s, step).shared.sleeping > s.shared.sleeping && Tickets(s) > 0 then 1 else 0
    case Cmd(_) => 0
  }

  ghost function CountUnchecked(cfg: Settings, from: System, steps: seq<Step>): nat
    requires Possible(cfg, from, steps)
    decreases |steps|
  {
    if steps == [] then 0
    else CountUnchecked(cfg, from, Init(steps)) + Unchecked(cfg, Reached(cfg, from, Init(steps)), steps[|steps| - 1])
  }

  // ---------- the invariant ----------

  /** The kept stamps stand for all starts, and none is later than now. */
  ghost predicate Kept(cfg: Settings, s: Shared) {
    Pruned(s.stamps, s.starts, Window(cfg)) && (s.starts != [] ==> s.starts[|s.starts| - 1] <= s.clock)
  }

  /**
   At the last check there was room in the window for the starts since then and
   those on their way, but for the unchecked ones.
   */
  ghost predicate Room(cfg: Settings, s: System, extra: nat, check: Time) {
    check <= s.shared.clock && |After(s.shared.starts, check - Window(cfg))| + Tickets(s) <= cfg.maxCount + extra
  }

  ghost predicate Rated(cfg: Settings, s: System, extra: nat) {
    && Kept(cfg, s.shared) && Limited(s.shared.starts, Window(cfg), cfg.maxCount + extra)
    && Tickets(s) <= extra + 1
    && exists check :: Room(cfg, s, extra, check)
  }

  // ---------- steps ----------

  /** Nothing was started, and no start was set on its way. */
  ghost predicate NothingNew(s: System, t: System) {
    && t.shared.stamps == s.shared.stamps && t.shared.starts == s.shared.starts
    && t.shared.clock >= s.shared.clock && Tickets(t) <= Tickets(s)
  }

  lemma NothingNewKeeps(cfg: Settings, s: System, t: System, extra: nat)
    requires Rated(cfg, s, extra) && NothingNew(s, t)
    ensures Rated(cfg, t, extra)
  {
    var check :| Room(cfg, s, extra, check);
    assert Room(cfg, t, extra, check);
  }

  lemma OneMoreKeeps(cfg: Settings, s: System, t: System, extra: nat)
    requires Rated(cfg, s, extra)
    requires t.shared.stamps == s.shared.stamps && t.shared.starts == s.shared.starts && t.shared.clock == s.shared.clock
    requires Tickets(t) <= Tickets(s) + 1
    ensures Rated(cfg, t, extra + 1)
  {
    var check :| Room(cfg, s, extra, check);
    assert Room(cfg, t, extra + 1, check);
    forall x ensures InWindow(t.shared.starts, x, Window(cfg)) <= cfg.maxCount + (extra + 1) {
      assert InWindow(s.shared.starts, x, Window(cfg)) <= cfg.maxCount + extra;
    }
  }

  /** The verdict from the kept stamps is the verdict on all starts. */
  lemma VerdictCounts(cfg: Settings, s: Shared)
    requires cfg.maxCount > 0 && Kept(cfg, s)
    ensures RateExceeded(cfg, s) <==> |After(s.starts, s.clock - Window(cfg))| >= cfg.maxCount
    ensures RateExceeded(cfg, s) <==> |Younger(s.starts, s.clock, Window(cfg))| >= cfg.maxCount
  {
    PrunedAgrees(s.stamps, s.starts, Window(cfg), s.clock);
    AfterCounts(s.starts, s.clock, Window(cfg));
  }

  /** A step keeps the invariant, when it is counted as it should be. */
  ghost predicate Counts(cfg: Settings, s: System, step: Step, extra: nat)
    requires Enabled(cfg, s, step)
  {
    Rated(cfg, Apply(cfg, s, step), extra + Unchecked(cfg, s, step))
  }

  /** The clock and what is known of past starts. */
  ghost predicate SameRecord(s: Shared, t: Shared) {
    t.stamps == s.stamps && t.starts == s.starts && t.clock == s.clock
  }

  lemma TickAddsOne(cfg: Settings, s: Shared)
    ensures var t := HandleExited(cfg, s);
            && SameRecord(s, t) && t.woken == s.woken
            && t.sleeping == s.sleeping + (if WouldDispatch(cfg, s) then 1 else 0)
  {
    PolicyDecides(cfg, s);
  }

  /** A dispatch with no other start on its way is covered by the check it has just passed. */
  lemma CheckedDispatchKeeps(cfg: Settings, s: System, t: System, extra: nat)
    requires cfg.maxCount > 0 && Rated(cfg, s, extra) && Tickets(s) == 0 && !RateExceeded(cfg, s.shared)
    requires SameRecord(s.shared, t.shared) && Tickets(t) == 1
    ensures Rated(cfg, t, extra)
  {
    VerdictCounts(cfg, s.shared);
    assert Room(cfg, t, extra, s.shared.clock);
  }

  lemma TickKeeps(cfg: Settings, s: System, extra: nat)
    requires cfg.maxCount > 0 && Rated(cfg, s, extra)
    ensures Counts(cfg, s, Bg(TickExited), extra)
  {
    var t := s.(shared := HandleExited(cfg, s.shared));
    TickAddsOne(cfg, s.shared);
    if t.shared.sleeping == s.shared.sleeping {
      NothingNewKeeps(cfg, s, t, extra);
    } else if Tickets(s) == 0 {
      CheckedDispatchKeeps(cfg, s, t, extra);
    } else {
      OneMoreKeeps(cfg, s, t, extra);
    }
  }

  lemma BackgroundAddsNothing(cfg: Settings, s: System, b: Background)
    requires Enabled(cfg, s, Bg(b)) && !b.TickExited?
    ensures NothingNew(s, Apply(cfg, s, Bg(b)))
  {
  }

  lemma BackgroundKeeps(cfg: Settings, s: System, b: Background, extra: nat)
    requires cfg.maxCount > 0 && Rated(cfg, s, extra) && Enabled(cfg, s, Bg(b))
    ensures Counts(cfg, s, Bg(b), extra)
  {
    if b.TickExited? {
      TickKeeps(cfg, s, extra);
    } else {
      BackgroundAddsNothing(cfg, s, b);
      NothingNewKeeps(cfg, s, Apply(cfg, s, Bg(b)), extra);
    }
  }

  lemma BeginKeeps(cfg: Settings, s: System, kind: Kind, extra: nat)
    requires Rated(cfg, s, extra) && Enabled(cfg, s, Begin(kind))
    ensures Counts(cfg, s, Begin(kind), extra)
  {
    var t := Apply(cfg, s, Begin(kind));
    if kind == UserStop || kind == DelayedRestart {
      NothingNewKeeps(cfg, s, t, extra);
    } else {
      OneMoreKeeps(cfg, s, t, extra);
    }
  }

  /** The command is about to install its child. */
  ghost predicate Installs(s: System) {
    s.command.Some? && s.command.value.pc.StartInstall? && s.shared.state == Starting && Heading(s.command)
  }

  lemma StartRecordsNothing(cfg: Settings, s: Shared, c: Command, ok: bool)
    requires c.pc.StartCheck? || c.pc.StartWait? || c.pc.StartClaim? || c.pc.StartSocket? || c.pc.StartFork? || c.pc.StartFailed?
    ensures SameRecord(s, Advance(cfg, s, c, ok).shared)
  {
  }

  lemma ChildRecordsNothing(cfg: Settings, s: Shared, c: Command, ok: bool)
    requires (c.pc.StartInstall? && s.state != Starting) || c.pc.StartKill? || c.pc.StartSpawn?
    ensures SameRecord(s, Advance(cfg, s, c, ok).shared)
  {
  }

  lemma StopRecordsNothing(cfg: Settings, s: Shared, c: Command, ok: bool)
    requires c.pc.StopBegin? || c.pc.StopWait? || c.pc.StopFinish? || c.pc.RestartBegin? || c.pc.RestartBetween?
             || c.pc.DelayedCheck? || c.pc.DelayedFailed? || c.pc.HealthFailed?
    ensures SameRecord(s, Advance(cfg, s, c, ok).shared)
  {
  }

  lemma CommandRecordsNothing(cfg: Settings, s: Shared, c: Command, ok: bool)
    requires !(c.pc.StartInstall? && s.state == Starting)
    ensures SameRecord(s, Advance(cfg, s, c, ok).shared)
  {
    if c.pc.StartInstall? || c.pc.StartKill? || c.pc.StartSpawn? {
      ChildRecordsNothing(cfg, s, c, ok);
    } else if c.pc.StartCheck? || c.pc.StartWait? || c.pc.StartClaim? || c.pc.StartSocket? || c.pc.StartFork? || c.pc.StartFailed? {
      StartRecordsNothing(cfg, s, c, ok);
    } else {
      StopRecordsNothing(cfg, s, c, ok);
    }
  }

  lemma CommandDispatchesNothing(cfg: Settings, s: Shared, c: Command, ok: bool)
    ensures var t := Advance(cfg, s, c, ok).shared; t.sleeping == s.sleeping && t.woken == s.woken
  {
  }

  lemma HeadingEndsOnce(cfg: Settings, s: Shared, c: Command, ok: bool)
    ensures Heading(Advance(cfg, s, c, ok).command) ==> Heading(Some(c))
  {
  }

  lemma CommandAddsNothing(cfg: Settings, s: System, ok: bool)
    requires Enabled(cfg, s, Cmd(ok)) && !(s.command.value.pc.StartInstall? && s.shared.state == Starting)
    ensures NothingNew(s, Apply(cfg, s, Cmd(ok)))
  {
    CommandRecordsNothing(cfg, s.shared, s.command.value, ok);
    CommandDispatchesNothing(cfg, s.shared, s.command.value, ok);
    HeadingEndsOnce(cfg, s.shared, s.command.value, ok);
  }

  /** One start less is on its way, and one more is recorded. */
  ghost predicate OneStarted(cfg: Settings, s: System, t: System) {
    && t.shared.starts == s.shared.starts + [s.shared.clock] && t.shared.clock == s.shared.clock
    && t.shared.stamps == Stamped(cfg, s.shared.stamps, s.shared.clock) && Tickets(t) == Tickets(s) - 1
  }

  lemma InstallStartsOne(cfg: Settings, s: System, ok: bool)
    requires Enabled(cfg, s, Cmd(ok)) && Installs(s)
    ensures OneStarted(cfg, s, Apply(cfg, s, Cmd(ok)))
  {
  }

  lemma OneStartedKeeps(cfg: Settings, s: System, t: System, extra: nat)
    requires Rated(cfg, s, extra) && OneStarted(cfg, s, t)
    ensures Rated(cfg, t, extra)
  {
    var w, now := Window(cfg), s.shared.clock;
    PrunedAdd(s.shared.stamps, s.shared.starts, w, now);
    var check :| Room(cfg, s, extra, check);
    CheckedStartKeepsLimit(s.shared.starts, w, cfg.maxCount + extra, check, now);
    AfterPush(s.shared.starts, now, check - w);
    assert Room(cfg, t, extra, check);
  }

  /** A user's stop never starts anything. */
  ghost predicate StopOnlyStops(c: Option<Command>) {
    c.Some? && c.value.kind == UserStop ==> c.value.pc.StopBegin? || c.value.pc.StopWait? || c.value.pc.StopFinish?
  }

  lemma StopStaysStop(cfg: Settings, s: System, step: Step)
    requires StopOnlyStops(s.command) && Enabled(cfg, s, step)
    ensures StopOnlyStops(Apply(cfg, s, step).command)
  {
  }

  ghost predicate RatedSoFar(cfg: Settings, s: System, extra: nat) {
    Rated(cfg, s, extra) && StopOnlyStops(s.command)
  }

  lemma CommandKeeps(cfg: Settings, s: System, ok: bool, extra: nat)
    requires RatedSoFar(cfg, s, extra) && Enabled(cfg, s, Cmd(ok))
    ensures Counts(cfg, s, Cmd(ok), extra)
  {
    if Installs(s) {
      InstallStartsOne(cfg, s, ok);
      OneStartedKeeps(cfg, s, Apply(cfg, s, Cmd(ok)), extra);
    } else {
      CommandAddsNothing(cfg, s, ok);
      NothingNewKeeps(cfg, s, Apply(cfg, s, Cmd(ok)), extra);
    }
  }

  lemma StepKeeps(cfg: Settings, s: System, step: Step, extra: nat)
    requires cfg.maxCount > 0 && RatedSoFar(cfg, s, extra) && Enabled(cfg, s, step)
    ensures Counts(cfg, s, step, extra)
  {
    match step
    case Bg(b) => BackgroundKeeps(cfg, s, b, extra);
    case Begin(kind) => BeginKeeps(cfg, s, kind, extra);
    case Cmd(ok) => CommandKeeps(cfg, s, ok, extra);
  }

  // ---------- runs ----------

  lemma BeginsRated(cfg: Settings)
    requires cfg.maxCount > 0
    ensures RatedSoFar(cfg, ASKED, 0)
  {
    assert Room(cfg, ASKED, 0, 0);
  }

  lemma SoFarKeeps(cfg: Settings, s: System, step: Step, extra: nat)
    requires cfg.maxCount > 0 && RatedSoFar(cfg, s, extra) && Enabled(cfg, s, step)
    ensures RatedSoFar(cfg, Apply(cfg, s, step), extra + Unchecked(cfg, s, step))
  {
    StepKeeps(cfg, s, step, extra);
    StopStaysStop(cfg, s, step);
  }

  lemma {:induction false} RunIsRated(cfg: Settings, steps: seq<Step>)
    requires cfg.maxCount > 0 && Possible(cfg, ASKED, steps)
    ensures RatedSoFar(cfg, Reached(cfg, ASKED, steps), CountUnchecked(cfg, ASKED, steps))
    decreases |steps|
  {
    if steps == [] {
      BeginsRated(cfg);
    } else {
      RunIsRated(cfg, Init(steps));
      SoFarKeeps(cfg, Reached(cfg, ASKED, Init(steps)), steps[|steps| - 1], CountUnchecked(cfg, ASKED, Init(steps)));
    }
  }

  /**
   In every run that a user start begins, no window holds more starts than the
   limit and the unchecked starts of the run.
   */
  lemma WindowIsBounded(cfg: Settings, steps: seq<Step>)
    requires cfg.maxCount > 0 && Possible(cfg, ASKED, steps)
    ensures Limited(Reached(cfg, ASKED, steps).shared.starts, Window(cfg), cfg.maxCount + CountUnchecked(cfg, ASKED, steps))
  {
    RunIsRated(cfg, steps);
  }

  /** Without a further user start, a health restart or an overlap, the limit holds in every window. */
  lemma CheckedRunsKeepToLimit(cfg: Settings, steps: seq<Step>)
    requires cfg.maxCount > 0 && Possible(cfg, ASKED, steps) && CountUnchecked(cfg, ASKED, steps) == 0
    ensures Limited(Reached(cfg, ASKED, steps).shared.starts, Window(cfg), cfg.maxCount)
    ensures forall x :: |StampsIn(Reached(cfg, ASKED, steps).shared.starts, x, Window(cfg))| <= cfg.maxCount
  {
    WindowIsBounded(cfg, steps);
    forall x ensures |StampsIn(Reached(cfg, ASKED, steps).shared.starts, x, Window(cfg))| <= cfg.maxCount {
      InWindowCounts(Reached(cfg, ASKED, steps).shared.starts, x, Window(cfg));
    }
  }
}
