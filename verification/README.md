# GoSupervisor, verified

GoSupervisor starts, watches, restarts and stops child processes. This project
models the parts of it that decide something: the order in which processes are
started, what happens to a process while several goroutines work on it, when it
is restarted and when it is given up, the bounded structures around it, and the
transformations of its configuration. Everything is Dafny 4.11;
`dafny verify dfyconfig.toml` checks the whole project.

The modules follow the program:

- `Dependencies`, `EdgeCounting`, `DependencySort`, `GroupSort`, `CycleFinder`:
  the dependency relation, the two Kahn sorts and the depth-first cycle finder.
  Go's map iteration order is an arbitrary choice (`:|`).
- `Lifecycle`, `LifecycleSafety`, `Crowds`, `LifecycleWitness`: the life of one
  process. Each critical section of the process lock is one atomic step. The
  child, its monitor goroutine, the one-second tick, sleeping restart goroutines,
  health checks and the clock interleave freely with the steps of a command.
- `Orphans`, `WholeCommands`, `Outcomes`: what becomes of children and commands,
  whether they come through or not.
- `Process`, `World`: the process object with its fields updated in place, one
  method for each critical section, and the goroutines around it. `World` carries
  out any run of the machine on these fields, and whole starts, stops and
  restarts.
- `RetryCounter`, `CrashLoop`, `Overdispatch`, `GivingUp`, `RestartWindow`,
  `RestartRate`, `HealthRestarts`, `HealthFlags`, `HealthLatch`: the restart policy. The stamps of the sliding window are part of
  the machine: a start records one, and the tick decides from them.
- `RateLimiter`, `EventListener`, `RingBuffer`, `ResourceHistory`, `LogCounter`:
  bounded structures, each against a simple account of what it should hold.
- `ConfigInclude`, `ProcessTemplate`, `FcgiName`, `ShellQuote`, `Reload`:
  configuration.

Two hypotheses are laid on the lifecycle. A stop ends because its child was
reaped, not because the five-second timer after the kill ran out; and commands
on one process (start, stop, restart, the tail of a delayed restart, a health
restart) are carried out one after the other. `Crowds` has one machine with both
hypotheses as switches; `LifecycleWitness` proves it safe with both and gives
runs that go wrong without either.

What was found, where a law one would expect does not hold as such:

- The sort compares only lengths. It succeeds with the wrong names exactly when
  some program reaches a cycle and as many do as there are missing names
  (`Dependencies.CoincidenceIsWrong`). Cycles are only warned about, so a reload
  can meet such a selection: `Reload.MisleadingReload` reports success, has
  replaced an untouched process and left a modified one as it was.
- A restart that waits for the old monitor leaves the process EXITED, so the
  tick may dispatch a second one. Restarts between two resets are bounded by
  limit + 1 plus the number of such overlapping dispatches
  (`CrashLoop.DispatchesAreBounded`). Whether all runs keep to limit + 1 depends
  on the settings alone: they do if and only if no restart can be dispatched at
  all (`Overdispatch.KeepsToLimitIff`); otherwise a run with one user start
  restarts the process any number of times within one instant.
- The same overlaps, and health restarts, which consult no window, start a
  process more often than `RestartMaxCount` allows. Every window holds at most
  that number plus the unchecked starts of the run (`RestartRate.WindowIsBounded`);
  without such starts the limit holds. Of a single run no equivalence is stated:
  an unchecked start breaks the limit only when it falls into a full window.
  Over the settings there is one. After a first health restart the next needs a
  successful check and then enough failing ones, so it keeps a gap from the start
  before it: (1 + max(threshold, 1)) check intervals, by
  `HealthLatch.FiresAgainAfterCycle`. In runs with one user start that keep the
  gap, the limit holds for every window of length w if and only if no restart can
  be dispatched, and no health restart can begin or 2 + (w - 1) / gap starts are
  within the limit (`HealthRestarts.KeepsToWindowIff`).
- Evicting idle buckets is invisible, and the bound burst + rps * T holds, if
  and only if burst <= 300 * rps.
- An OK removes the head of the listener's queue. If the answered event was
  evicted meanwhile, an event that was never sent is lost: exactly when more
  events were pushed after it than the queue had room for.
- Quoting loses empty arguments, and only those.
- Expanded process names are distinct if and only if a process number marker is
  expanded; `fcgiBaseName` recovers the program name if and only if that name
  holds no marker of its own.

Where the documentation and the code differ, the code is followed: the retry
check is `>` (internal/process/monitor.go:135), `RestartCodes` is decided before
`NoRestartCodes` (internal/process/process.go:1132-1138), and the comment at
internal/process/monitor.go:223 speaks of a reset in `Start` for
`StartSecs <= 0` that the code does not have.

## Model

| member | source | states |
|---|---|---|
| `LifecycleSafety.RunsAccountForChildren` | internal/process/process.go:188-601 | in every reachable state under both hypotheses an installed child that is not reaped exists only in RUNNING or STOPPING, is the one `Cmd` and `PID` name, and is the only one; RUNNING means `Cmd` and `PID` are set; each `waitCh` and `monitorDone` is closed at most once |
| `LifecycleSafety.StepKeepsInv` | internal/process/process.go:188-601 | the invariant behind it is kept by every step of a background actor, every beginning of a command and every step of a command |
| `LifecycleSafety.BackgroundKeeps` | internal/process/process.go:742-799 | monitor goroutine, child death, ticks, waking goroutines and health checks keep the invariant wherever a command stands |
| `LifecycleSafety.AdvanceKeeps` | internal/process/process.go:188-630 | each critical section of start, stop and restart, and the tails of delayed and health restarts, keep the invariant |
| `LifecycleSafety.RunKeepsInv` | internal/process/monitor.go:89-211 | the invariant holds after any run from any state that has it |
| `LifecycleSafety.StopLeavesStopped` | internal/process/process.go:468-601 | every stop that returns, alone or inside a restart, leaves the process STOPPED with no unreaped child |
| `LifecycleSafety.StoppedUntilUserStarts` | internal/process/monitor.go:161-189 | no run of old monitors, ticks, sleeping and woken restarts, health checks and further stops leaves STOPPED; only a user start or restart does |
| `LifecycleSafety.WaitingCommandsAreServed` | internal/process/process.go:201-206 | no deadlock: in every reachable state a command that waits for a channel waits for a child or a monitor that can take a step towards closing it |
| `LifecycleSafety.HealthRestartsAreBounded` | internal/process/monitor.go:228-248 | over whole runs health restarts number at most 1 + successful checks + flag resets by waking goroutines |
| `LifecycleWitness.BothRulesAreSafe` | internal/process/process.go:188-601 | the machine with any number of concurrent commands is safe when both hypotheses are laid on it |
| `LifecycleWitness.PatienceIsNeeded` | internal/process/process.go:555-576 | for all settings: with serialized commands but a stop that runs into its timer, a STOPPED process has an unreaped child, and a STOPPED process with no command at work becomes EXITED |
| `LifecycleWitness.SerialityIsNeededForStates` | internal/process/monitor.go:189-201 | with one retry left, a user start overlapping a delayed restart ends in FATAL with an unreaped child |
| `LifecycleWitness.SerialityIsNeededForHandles` | internal/process/process.go:567-584 | for all settings: two overlapping stops and a start between their ends leave RUNNING with `Cmd` cleared |
| `Crowds.LeadsBySteps` | internal/process/process.go:188-601 | with both hypotheses the machine with many commands does what the machine with one command at a time does |
| `LifecycleSafety.EveryWaitEnds` | internal/process/process.go:201-206 | however far the background has come, it can go on so that a waiting command proceeds |
| `Process.Process.HandleExitedProcess` | internal/process/monitor.go:89-150 | the tick's section on an exited process, with the in-place window check and the loop over the expected codes, performs the policy and dispatches exactly when the policy does |
| `Process.Process.CheckRunning` | internal/process/monitor.go:213-241 | one look at a running process either begins a health restart, exactly when one can begin, or performs the counter reset |
| `World.World.Take` | internal/process/process.go:188-630 | every step of the machine, and so every critical section of start, stop, restart, monitor, tick and restart goroutine, is carried out on the real fields and keeps the invariant |
| `World.World.Run` | internal/process/process.go:188-601 | after any list of steps the object is where the machine's run leads, and accounts for its children |
| `World.World.Stop` | internal/process/process.go:468-601 | a whole stop, whatever the background does while it waits, leaves the object STOPPED with no unreaped child; a running process has `Cmd` and `PID` cleared |
| `World.World.Start` | internal/process/process.go:188-466 | a whole start by the user of a STOPPED, EXITED or FATAL process, whose outside calls succeed and whose wait children and monitors end, leaves it RUNNING one fresh child, which `Cmd` and `PID` name, with one more start recorded |
| `World.World.Restart` | internal/process/process.go:603-630 | a whole restart by the user of a RUNNING, EXITED or STOPPED process does the same, whatever the background does while the old child is stopped |
| `WholeCommands.RestartCanComeThrough` | internal/process/process.go:603-630 | from every valid state the background can let such a restart come through |
| `WholeCommands.StartCanComeThrough` | internal/process/process.go:201-206 | and such a start |
| `World.StopsCanEnd` | internal/process/process.go:513-564 | from every valid state the background can let a stop end |
| `Orphans.RunsOrphanNone` | internal/process/process.go:421-434 | in every run a living child is the installed, unreaped one, or in the hands of a start that will install or kill it |
| `Orphans.IdleHasNoChild` | internal/process/process.go:421-434 | between commands a process that does not run has no living child |
| `Outcomes.ForkFails` | internal/process/process.go:385-401 | a start whose fork fails ends EXITED; a delayed or health restart over the limit ends FATAL |
| `Outcomes.SocketFails` | internal/process/process.go:312-333 | the same when the socket cannot be attached |
| `Outcomes.UserIsUnknown` | internal/process/process.go:255-263 | the same when the user is unknown, and the attempt counts |
| `Outcomes.StartKillsItsChild` | internal/process/process.go:421-434 | a start that lost the process while it forked kills its child and changes nothing else |
| `Outcomes.RestartRefused` | internal/process/process.go:603-612 | a restart of a FATAL, STARTING or STOPPING process changes nothing |
| `Outcomes.StopOfIdle` | internal/process/process.go:473-506 | a stop of a process that does not run waits for nothing and leaves it STOPPED |
| `Outcomes.WakeDecides` | internal/process/monitor.go:161-179 | a sleeping restart bails out when the process was stopped or a health restart has taken over, whose flag it clears, and goes on otherwise |
| `RetryCounter.CounterCounts` | internal/process/monitor.go:222-226 | in every run the counter is the number of attempts since it was last cleared, and it is cleared only by a look at a process that has run longer than a positive `StartSecs` in good health, or by an expected exit code after which it is restarted |
| `HealthFlags.HealthRestartBeginsIff` | internal/process/monitor.go:228-239 | in every run a health restart can begin exactly when it is configured, the process runs and no command is at work, the last word on its health was bad, and none has fired since the last good check |
| `Lifecycle.ShouldRestartOnExitCode` | internal/process/process.go:1132-1140 | an allow list decides alone; the deny list counts only without one |
| `Lifecycle.PolicyDecides` | internal/process/monitor.go:89-150 | for every exited process: a restart is dispatched exactly when the code permits it, the stamps leave room and the budget is not used up (an expected code gives it anew); else it is FATAL |
| `CrashLoop.DispatchesAreBounded` | internal/process/monitor.go:112-150 | in every run, restarts dispatched since the last reset together with those pending number at most max(limit + 1, 0) plus the overlapping dispatches of the run |
| `CrashLoop.StepDispatches` | internal/process/monitor.go:135-150 | only a tick within the limit, or an overlapping one, adds to dispatched and pending restarts; the counter is the number of attempts since its reset |
| `CrashLoop.RunDispatchesNothing` | internal/process/monitor.go:91-146 | under settings that rule out every dispatch no run has one |
| `Overdispatch.KeepsToLimitIff` | internal/process/monitor.go:112-150 | for all settings: every run keeps to max(limit + 1, 0) dispatched and pending restarts if and only if restarts are off, the limit is negative, or no exit code is both permitted and met with a counter low enough |
| `Overdispatch.RestartsAreUnbounded` | internal/process/monitor.go:148-191 | for all other settings and every n: a run with one user start and no reset between restarts the process n times within one instant |
| `GivingUp.CrashLoopEnds` | internal/process/monitor.go:89-211 | every run of the crash loop has at most 100 * (max(limit, 0) + 1) + 4 effective steps and 108 for each overlap; it makes at most max(limit, 0) + 1 attempts and one for each overlap; FATAL is reached with no fewer |
| `GivingUp.CrashLoopGivesUp` | internal/process/monitor.go:135-146 | a crash loop with a permitted exit code that can only look on is FATAL after max(limit, 0) + 1 attempts and at most one more for each overlap: exactly max(limit, 0) + 1 without overlaps |
| `GivingUp.CrashLoopCanFinish` | internal/process/monitor.go:89-211 | every run of the loop, with or without overlaps, can be continued to such an end |
| `GivingUp.LoopStep` | internal/process/process.go:218-222 | every step keeps the shape of the loop; an effective step makes the measure smaller, but for an overlapping dispatch, which adds a bounded amount |
| `RestartRate.WindowIsBounded` | internal/process/process.go:443-445 | in every run that one user start begins, every half-open window holds at most `RestartMaxCount` starts and the unchecked ones: further user starts, health restarts, and restarts dispatched while another start is on its way |
| `RestartRate.CheckedRunsKeepToLimit` | internal/process/process.go:1094-1129 | in every run without an unchecked start, every window holds at most `RestartMaxCount` starts |
| `HealthRestarts.KeepsToWindowIff` | internal/process/monitor.go:122-148 | for every positive limit, every gap and all settings: the limit holds in all runs with one user start, in which each health restart but the first keeps the gap from the start before it, if and only if no restart can be dispatched, and no health restart can begin or 2 + (window - 1) / gap starts are within the limit |
| `HealthRestarts.HealthRestartsFillWindow` | internal/process/monitor.go:228-248 | a run of health restarts that keep the gap and put exactly 2 + (window - 1) / gap starts into one window, whatever `RestartMaxCount` is |
| `HealthRestarts.SpacedRunsFit` | internal/process/monitor.go:228-248 | without dispatches, no window of any run that keeps the gap holds more than that number of starts |
| `RestartRate.VerdictCounts` | internal/process/process.go:1112-1129 | in the runs the verdict from the pruned stamps is the verdict on all starts younger than the window, 1_000_000_000 nanoseconds for each configured second or a minute by default |
| `RestartWindow.InWindowCounts` | internal/process/process.go:1112-1129 | the number of stamps in a window is the number of places that hold one |
| `RestartWindow.CheckedStartKeepsLimit` | internal/process/process.go:1112-1129 | one checked start keeps every window within the limit |
| `RestartWindow.PrunedAgrees` | internal/process/process.go:1094-1110 | at every later time the pruned list shows what the full history shows |
| `RestartWindow.Compact` | internal/process/process.go:1101-1109 | the in-place compaction keeps exactly the stamps after the cutoff, in order |
| `RestartWindow.RestartHistory.AddRestartTimestamp` | internal/process/process.go:1094-1110 | records a start and keeps the list pruned |
| `RestartWindow.RestartHistory.RestartRateExceeded` | internal/process/process.go:1112-1129 | exceeded exactly when the limit is positive and at least that many recorded starts are younger than the configured number of seconds, or than 60 when it is not positive |
| `HealthLatch.HealthState.Record` | internal/process/process.go:1022-1045 | after any checks, healthy holds exactly when some check succeeded and fewer than threshold failures followed the last success; restore and fail events alternate, restore first |
| `HealthLatch.HealthyMeans` | internal/process/process.go:1027-1045 | healthy means that some check succeeded and fewer than threshold checks, all failures, came after it |
| `HealthLatch.TrailingFailuresMeaning` | internal/process/process.go:1027-1045 | the failure count is the number of failures after the last success |
| `HealthLatch.FiresAgainAfterCycle` | internal/process/process.go:1027-1045 | after a health restart the next can fire only after 1 + max(threshold, 1) checks of the new process |
| `CycleFinder.FindDependencyCycle` | internal/config/config.go:1284-1327 | no edge is reported exactly when the relation is acyclic, and a reported edge closes a real cycle, for every graph |
| `CycleFinder.Finder.Dfs` | internal/config/config.go:1294-1314 | the three-colour search: what turns black reaches no cycle, what it reports lies on one |
| `CycleFinder.ValidateAndSort` | internal/process/process.go:1509-1568 | on every closed graph the cycle finder finds nothing if and only if the sort succeeds, and then the order is a permutation of the keys with dependencies first |
| `DependencySort.TopologicalSort` | internal/process/process.go:1509-1568 | for every graph: succeeds exactly when the length test passes, and then lists exactly the nodes no cycle is reachable from, dependencies first, in the release order of a FIFO queue with priority batches |
| `DependencySort.FifoIsLayered` | internal/process/process.go:1546-1561 | such an order is non-decreasing in the longest dependency chain |
| `DependencySort.RootsFirst` | internal/process/process.go:1537-1544 | the roots are a prefix, sorted by priority |
| `DependencySort.SortByPriority` | internal/process/process.go:1571-1585 | a permutation, sorted by priority |
| `EdgeCounting.CountEdges` | internal/process/process.go:1510-1535 | in-degrees count pending dependencies, with repetitions, and the neighbour lists reverse the relation |
| `EdgeCounting.Release` | internal/process/process.go:1552-1558 | decrementing the neighbours of a finished node releases exactly the nodes whose last dependency it was |
| `Dependencies.AcyclicIffGrounded` | internal/config/config.go:1284-1327 | acyclic means that no walk from any key repeats a name |
| `Dependencies.ClosedPassesIffAcyclic` | internal/process/process.go:1563-1565 | on closed graphs the length test is the cycle test |
| `Dependencies.AcyclicPassesIffClosed` | internal/process/process.go:1563-1565 | on acyclic graphs the sort succeeds if and only if every dependency is a key |
| `Dependencies.LengthTestCounts` | internal/process/process.go:1563-1565 | for every graph the sort succeeds if and only if as many names are missing as keys reach a cycle |
| `Dependencies.CoincidenceIsWrong` | internal/process/process.go:1563-1565 | it succeeds with the wrong names if and only if that number is not zero |
| `Dependencies.CoincidenceWitness` | internal/process/process.go:1563-1565 | a cyclic open graph on which the sort succeeds with the wrong names |
| `Dependencies.ExhaustedListIsGroundedNodes` | internal/process/process.go:1546-1561 | when the queue runs dry, the result is exactly the nodes from which no cycle is reachable |
| `GroupSort.TopologicalSortForGroup` | internal/process/process.go:1325-1385 | always a permutation of the group; it begins with the least topological order, by dictionary order of the names, of what can be ordered, and for an acyclic group that is all of it |
| `GroupSort.OrderByName` | internal/process/process.go:1354-1375 | the sorted-queue Kahn sort gives an order below every other by dictionary order of the names |
| `GroupSort.LeqMeans` | internal/process/process.go:1361 | the comparison is dictionary order: a prefix first, else the smaller of the first characters that differ |
| `GroupSort.GroupGraphMeans` | internal/process/process.go:1327-1351 | the edges are the dependencies between two members of the group |
| `GroupSort.GreedyIsLeast` | internal/process/process.go:1363-1375 | always taking the least available name gives the least order |
| `GroupSort.LeastIsUnique` | internal/process/process.go:1325-1385 | there is only one least order, whatever the map iteration order was |
| `GroupSort.GroupGraphClosed` | internal/process/process.go:1327-1351 | the group-induced graph is closed |
| `RateLimiter.IntervalBound` | internal/web/ratelimit.go:64-87 | for each client and interval of length T, allowed requests number at most burst + rps * T |
| `RateLimiter.RequestCosts` | internal/web/ratelimit.go:64-87 | an allowed request costs one token, a refused one nothing, and no other client is touched |
| `RateLimiter.PacedIsAllowed` | internal/web/ratelimit.go:72-87 | a client that lets 1 / rps seconds pass between its requests is never refused |
| `RateLimiter.EvictionInvisibleIff` | internal/web/ratelimit.go:43-87 | eviction never changes an answer, and the bound holds, if and only if burst <= 300 * rps |
| `RateLimiter.SameAnswers` | internal/web/ratelimit.go:43-62 | under that condition a limiter that evicts answers every run like one that never does |
| `RateLimiter.AbuseGranted` | internal/web/ratelimit.go:43-62 | a client that waits for its eviction gets twice the burst |
| `RateLimiter.Limiter.constructor` | internal/web/ratelimit.go:26-41 | the defaults: 100 requests per second, twice the rate as burst |
| `RateLimiter.Limiter.Allow` | internal/web/ratelimit.go:64-87 | allows exactly when a token is available, charges it, and keeps tokens within 0..burst |
| `RateLimiter.Limiter.Cleanup` | internal/web/ratelimit.go:43-62 | evicts exactly the buckets idle for more than five minutes |
| `EventListener.PushedIsAccountedFor` | internal/eventlistener/listener.go:31-92 | in every run the queue is a suffix of the push history of at most the capacity, and pushed = queued + evicted + acknowledged |
| `EventListener.RunKeepsInv` | internal/eventlistener/listener.go:320-359 | the invariant of queue and protocol loop over every interleaving |
| `EventListener.NextSendIsNew` | internal/eventlistener/listener.go:337-347 | what is sent was never answered OK, and sent indices never decrease |
| `EventListener.AcknowledgedIffOk` | internal/eventlistener/listener.go:349-357 | in every run an event is acknowledged if and only if OK was read while its answer was awaited |
| `EventListener.OtherAnswersRemoveNothing` | internal/eventlistener/listener.go:349-357 | any other payload leaves queue and records as they are |
| `EventListener.OneSendForEachReady` | internal/eventlistener/listener.go:326-347 | every send answers one READY line, and no other line leads to one |
| `EventListener.RetriedUnlessEvicted` | internal/eventlistener/listener.go:349-357 | an event that OK has never answered is the next one sent, unless it was evicted |
| `EventListener.OkRemovesAnswered` | internal/eventlistener/listener.go:349-357 | an OK removes the answered event exactly when no more events were pushed after it than there was room for; else it was evicted and one that was never sent is removed |
| `EventListener.LostEventWitness` | internal/eventlistener/listener.go:349-357 | for every capacity, a run that loses an event: one send, as many pushes, OK |
| `EventListener.EventQueue.Push` | internal/eventlistener/listener.go:44-56 | appends and evicts the oldest at capacity |
| `EventListener.EventQueue.Pop` | internal/eventlistener/listener.go:58-69 | shows the head without removing it; fails exactly when closed and empty |
| `EventListener.EventQueue.RemoveFirst` | internal/eventlistener/listener.go:79-86 | drops the head, if any |
| `EventListener.Listener.Emit` | internal/eventlistener/listener.go:44-56 | a push on the real queue is the machine's push |
| `EventListener.Listener.ReadLine` | internal/eventlistener/listener.go:326-335 | only READY leaves the first phase |
| `EventListener.Listener.SendNext` | internal/eventlistener/listener.go:337-347 | sends the event the machine sends |
| `EventListener.Listener.ReadResult` | internal/eventlistener/listener.go:349-357 | only an OK payload removes |
| `RingBuffer.RingBuffer.Push` | internal/process/ringbuffer.go:23-32 | the buffer keeps representing the last pushes |
| `RingBuffer.RingBuffer.Len` | internal/process/ringbuffer.go:34-43 | the number of retained values |
| `RingBuffer.RingBuffer.SnapshotAll` | internal/process/ringbuffer.go:45-61 | the last min(count, capacity) pushes in order |
| `RingBuffer.RingBuffer.SnapshotLast` | internal/process/ringbuffer.go:63-77 | the last min(n, count, capacity) pushes in order |
| `RingBuffer.WriteSlot` | internal/process/ringbuffer.go:23-32 | writing one slot and wrapping the position appends to the unrolled contents |
| `ResourceHistory.Snapshot` | internal/process/resource_history.go:25-39 | with non-decreasing timestamps, exactly the retained samples not older than the cutoff; all of them for a span that is not positive |
| `LogCounter.RunConserves` | internal/logger/logger.go:63-75 | with any number of concurrent writers, accepted bytes = counter + maxSize * subtractions and triggers never exceed bytes / maxSize |
| `LogCounter.QuietRunSubtractsAll` | internal/logger/logger.go:63-75 | when no writer is under way and no write exceeded maxSize, at least bytes / maxSize subtractions were made |
| `LogCounter.TriggersExact` | internal/logger/logger.go:63-75 | with one writer, triggers equal floor(bytes / maxSize) exactly when the counter is below maxSize |
| `LogCounter.WriteAll` | internal/logger/logger.go:63-75 | one writer with writes no larger than maxSize rotates exactly floor(bytes / maxSize) times |
| `LogCounter.TurnsTriggerExactly` | internal/logger/logger.go:63-75 | writers that take turns, with writes no larger than maxSize, trigger exactly floor(bytes / maxSize) times |
| `LogCounter.CountingWriter.Write` | internal/logger/logger.go:63-75 | one write conserves bytes, triggers when the limit is reached, and keeps the counter below the limit for writes no larger than it |
| `ConfigInclude.LoadsIffNoRepetition` | internal/config/config.go:210-287 | loading succeeds exactly when the depth-first unfolding exists and no file occurs in it twice, and then gives the combination of its preorder |
| `ConfigInclude.LastDefinitionWins` | internal/config/config.go:250-276 | programs, event listeners and FastCGI programs are last-definition-wins over the preorder |
| `ConfigInclude.FirstServerWins` | internal/config/config.go:277-280 | the server section is the first one in the preorder |
| `ConfigInclude.UnfoldingLoads` | internal/config/config.go:210-287 | for any visited set, loading a tree succeeds exactly when its preorder is fresh |
| `ConfigInclude.Loader.LoadWithIncludes` | internal/config/config.go:210-287 | the in-place loader terminates (files not yet visited become fewer) and agrees with the recursive account |
| `ProcessTemplate.ExpandTemplate` | internal/config/config.go:1330-1355 | terminates because markers become fewer, and expands each well-formed marker with the padded number up to the first malformed one |
| `ProcessTemplate.ExpandProgramConfig` | internal/config/config.go:1403-1435 | `NumProcs` expanded copies, numbered from 1, whose names are pairwise distinct if and only if there is at most one or a marker is expanded |
| `ProcessTemplate.SprintfPads` | internal/config/config.go:1351-1352 | a number is printed in decimal, filled from the left to the given width, with zeros when the width begins with one and blanks otherwise |
| `ProcessTemplate.ReplacesEverywhere` | internal/config/config.go:1331 | every occurrence of the program name marker is replaced and nothing else |
| `ProcessTemplate.InstanceFields` | internal/config/config.go:1410-1430 | each field of a copy is expanded from the same field, the name from the name template |
| `ProcessTemplate.ExpandDistinct` | internal/config/config.go:1330-1355 | different process numbers give different names, with several padded markers and with widths `fmt` rejects |
| `ProcessTemplate.NamesDistinctIff` | internal/config/config.go:1403-1435 | the same for the list of copies |
| `ProcessTemplate.ExpandEnvironment` | internal/config/config.go:1424-1427 | every environment value is expanded, no key changes |
| `FcgiName.BaseNameRecovers` | internal/process/process.go:729-740 | for the numbered template and a non-empty program name, every sibling's base name is the program name if and only if that name holds no process number marker |
| `FcgiName.SiblingsShareName` | internal/process/process.go:729-740 | one direction, for one sibling |
| `FcgiName.MarkerSpoilsName` | internal/process/process.go:729-740 | the other direction: with a marker in the name, no sibling recovers it |
| `ShellQuote.RoundTrip` | internal/fcgi/socket.go:119-121 | splitting the joined output by the rules of sections 2.2.1 and 2.2.2 of POSIX XCU gives back the list if and only if no argument is empty |
| `ShellQuote.QuotedWords` | internal/fcgi/socket.go:202-217 | in general it gives back the non-empty arguments in order |
| `ShellQuote.QuoteArgs` | internal/fcgi/socket.go:202-208 | every argument is escaped in place |
| `Reload.Manager.Reload` | cmd/gosupervisor/main.go:443-514 | replaces exactly the names the sort lists, or the modified ones when it fails; ends with exactly the new names and configurations, unchanged processes being the same untouched objects and each modified name replaced once, if and only if the sort of the modified subset did not succeed by coincidence; new processes are started when they are to start by themselves, and what was removed or replaced has been stopped for good |
| `Reload.Manager.CompareConfigs` | internal/process/process.go:1418-1435 | the three lists are exactly the added, removed and modified names, without repetition |
| `Reload.Manager.ReplaceOrder` | cmd/gosupervisor/main.go:478-487 | the order holds every modified name once, whether or not the sort succeeded, exactly when there is no coincidence; dependencies come first on a closed acyclic subset |
| `Reload.AcyclicNeverCoincides` | cmd/gosupervisor/main.go:478-487 | an acyclic configuration has no subset whose sort succeeds by coincidence |
| `Reload.SyncedIff` | cmd/gosupervisor/main.go:443-514 | the result is in step with the configuration if and only if every modified name was in the order |
| `Reload.NothingToDo` | cmd/gosupervisor/main.go:443-514 | a second reload of the same configuration changes nothing |
| `Reload.MisleadingReload` | cmd/gosupervisor/main.go:478-506 | a reload of a cyclic configuration that reports success, replaces an unmodified process and leaves a modified one as it was |

## Left out

- fork and exec, signals, umask, limits, cgroups, user lookup, hooks and probes: each is a step that may succeed, fail or take any time.
- FastCGI socket reference counts at manager level: not conserved across automatic restarts.
- Prometheus counters, web handlers, templates, authentication, SSE, the control socket and the command line client: input and output.
- INI, YAML and JSON parsing field by field, log file rename and compression, state file, webhooks.
- The scheduler: a run is a sequence of atomic steps; `World` takes the steps of a run one after the other, it has no threads of its own.
- `RestartCount`, `LastRestart`, `StartTime`, `StopTime`, `ResourceHealthy` and, outside `HealthLatch`, `healthCheckFailures`: fields that critical sections write and no decision modelled here reads; how long a process has run is an input of the tick.
- `PID`: a child's number in fork order plus one; reuse of numbers by the operating system is not modelled.
- Health checks inside `Lifecycle` may report at any time and one failing report may clear the flag, which allows more runs than the code has; the threshold is in `HealthLatch`, and where the time between checks matters the runs are those that keep a gap.
- Timers: ticks, health checks and commands may come at any moment, also faster than the one-second tick; each dispatched restart of the runs in `Overdispatch` sleeps its full second.
- HealthRestarts.KeepsToWindowIff: the gap between a start and the next health restart is a parameter; that the check loop keeps (1 + max(threshold, 1)) intervals is stated in numbers of checks by HealthLatch.FiresAgainAfterCycle, the ticker that spaces the checks is not part of this model.
- The clock is a parameter that does not go backwards, float64 is `real`, and int and int64 do not wrap.
- GivingUp.CrashLoopEnds: counts steps, not time; a child that never dies makes no step. The loop has no rate limit and no reset of the counter.
- RestartRate.CheckedRunsKeepToLimit: one direction; the converse fails for a run, since an unchecked start may fall into a window that has room.
- `sort.Slice` in `sortByPriority`: the order among equal priorities is one of those allowed.
- DependencySort.SortByPriority: sortedness is stated when every name has a process; a name without one compares with no other in the source, whose sort then promises nothing.
- DependencySort.RootsFirst: the priority order of the roots is stated under the same condition.
- ProcessTemplate.ExpandTemplate: process numbers are not negative, as in every call.
- ShellQuote.RoundTrip: quoting and blank splitting only; tilde, comments and other expansions are not part of the splitter.
- EventListener.Listener.ReadResult: the payload is taken as read; the byte-level framing of RESULT lines is not part of this model.
- Reload.Manager.Reload: the new configuration is a parameter, and starting order among added processes is any order, as in the source.
