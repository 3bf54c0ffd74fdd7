/** The health state a running check loop keeps: a success latches it, enough failures release it. */
module HealthLatch {

  datatype Event = Restored | Failed

  /** The number of failures after the last success, or since the beginning. */
  function TrailingFailures(checks: seq<bool>): nat {
    if checks == [] || checks[|checks| - 1] then 0 else 1 + TrailingFailures(checks[..|checks| - 1])
  }

  /** Some check succeeded, and too few failures followed to be unhealthy again. */
  ghost predicate ShouldBeHealthy(checks: seq<bool>, threshold: int) {
    true in checks && (TrailingFailures(checks) == 0 || TrailingFailures(checks) < threshold)
  }

  /** Restored and Failed take turns, and Restored is first. */
  ghost predicate Alternates(events: seq<Event>) {
    forall i :: 0 <= i < |events| ==> events[i] == if i % 2 == 0 then Restored else Failed
  }

  class HealthState {
    const threshold: int
    var healthy: bool
    var failures: nat
    var restartFired: bool
    /** The results seen and the events recorded since the checks began. */
    ghost var checks: seq<bool>
    ghost var events: seq<Event>
    /** A health restart had fired when the checks began. */
    ghost const firedBefore: bool

    ghost predicate Valid()
      reads this
    {
      && failures == TrailingFailures(checks)
      && (healthy <==> ShouldBeHealthy(checks, threshold))
      && Alternates(events)
      && (healthy <==> |events| % 2 == 1)
      && (restartFired <==> firedBefore && true !in checks)
    }

    /** A start clears the flag and the failure count; the restart latch survives it. */
    constructor (threshold: int, restartFired: bool)
      ensures Valid() && this.threshold == threshold && this.restartFired == restartFired && firedBefore == restartFired
      ensures checks == [] && events == []
    {
      this.threshold := threshold;
      this.restartFired := restartFired;
      firedBefore := restartFired;
      healthy, failures, checks, events := false, 0, [], [];
    }

    /** The outcome of one probe, applied under the lock. */
    method Record(ok: bool)
      requires Valid()
      modifies this
      ensures Valid() && checks == old(checks) + [ok]
      ensures restartFired == (old(restartFired) && !ok)
      ensures events == old(events) + if healthy && !old(healthy) then [Restored]
                                      else if !healthy && old(healthy) then [Failed] else []
    {
      var wasHealthy := healthy;
      assert (checks + [ok])[..|checks|] == checks;
      checks := checks + [ok];
      if ok {
        failures := 0;
        healthy := true;
        restartFired := false;
        if !wasHealthy {
          events := events + [Restored];
        }
      } else {
        failures := failures + 1;
        if failures >= threshold {
          healthy := false;
          if wasHealthy {
            events := events + [Failed];
          }
        }
      }
    }
  }

  /** The count is what its name says: it ends the list, only failures are in it, and a success precedes it. */
  lemma {:induction false} TrailingFailuresMeaning(checks: seq<bool>)
    ensures TrailingFailures(checks) <= |checks|
    ensures forall i :: |checks| - TrailingFailures(checks) <= i < |checks| ==> !checks[i]
    ensures TrailingFailures(checks) < |checks| ==> checks[|checks| - TrailingFailures(checks) - 1]
    ensures true in checks <==> TrailingFailures(checks) < |checks|
  {
    if checks != [] && !checks[|checks| - 1] {
      TrailingFailuresMeaning(checks[..|checks| - 1]);
      assert checks == checks[..|checks| - 1] + [false];
    }
  }

  /**
   After a health restart the next one can only fire when a check has succeeded
   and enough have failed since the checks began.
   */
  lemma FiresAgainAfterCycle(h: HealthState)
    requires h.Valid() && h.firedBefore && !h.healthy && !h.restartFired
    ensures |h.checks| >= 1 + (if h.threshold > 1 then h.threshold else 1)
  {
    TrailingFailuresMeaning(h.checks);
  }

  /** The failures after a success that ends them are counted from there. */
  lemma {:induction false} FailuresAfter(checks: seq<bool>, i: nat)
    requires i < |checks| && checks[i] && forall j :: i < j < |checks| ==> !checks[j]
    ensures TrailingFailures(checks) == |checks| - 1 - i
  {
    if i < |checks| - 1 {
      FailuresAfter(checks[..|checks| - 1], i);
    }
  }

  /** Some check succeeded, and fewer than the threshold, all of them failures, came after it. */
  ghost predicate RecentSuccess(checks: seq<bool>, threshold: int) {
    exists i :: 0 <= i < |checks| && checks[i] && |checks| - 1 - i < threshold && forall j :: i < j < |checks| ==> !checks[j]
  }

  lemma HealthyMeans(checks: seq<bool>, threshold: int)
    requires threshold >= 1
    ensures ShouldBeHealthy(checks, threshold) <==> RecentSuccess(checks, threshold)
  {
    TrailingFailuresMeaning(checks);
    if ShouldBeHealthy(checks, threshold) {
      var i := |checks| - TrailingFailures(checks) - 1;
      assert checks[i];
    }
    if RecentSuccess(checks, threshold) {
      var i :| 0 <= i < |checks| && checks[i] && |checks| - 1 - i < threshold && forall j :: i < j < |checks| ==> !checks[j];
      FailuresAfter(checks, i);
    }
  }
}
