/** The sliding window that limits how often a process is restarted. */
module RestartWindow {

  /** Nanoseconds. */
  type Time = int

  function WindowLength(secs: int): (w: int)
    ensures w > 0
    ensures w == if secs > 0 then 1_000_000_000 * secs else 60_000_000_000
  {
    1_000_000_000 * if secs <= 0 then 60 else secs
  }

  /** The stamps strictly after `cutoff`, in order. */
  function After(s: seq<Time>, cutoff: Time): seq<Time> {
    if s == [] then []
    else After(s[..|s| - 1], cutoff) + if s[|s| - 1] > cutoff then [s[|s| - 1]] else []
  }

  /** How many stamps lie in the half-open window of length `w` that begins at `x`. */
  function InWindow(s: seq<Time>, x: Time, w: int): nat {
    if s == [] then 0
    else InWindow(s[..|s| - 1], x, w) + if x <= s[|s| - 1] < x + w then 1 else 0
  }

  /** The places of the stamps younger than `age` at `now`. */
  ghost function Younger(s: seq<Time>, now: Time, age: int): set<nat> {
    set i | 0 <= i < |s| && now - s[i] < age
  }

  /** Filtering keeps exactly the younger stamps. */
  lemma {:induction false} AfterCounts(s: seq<Time>, now: Time, age: int)
    ensures |After(s, now - age)| == |Younger(s, now, age)|
  {
    if s == [] {
      assert Younger(s, now, age) == {};
    } else {
      var n := |s| - 1;
      AfterCounts(s[..n], now, age);
      assert Younger(s, now, age) == Younger(s[..n], now, age) + if now - s[n] < age then {n} else {};
    }
  }

  /** The places of the stamps in the half-open window of length `w` that begins at `x`. */
  ghost function StampsIn(s: seq<Time>, x: Time, w: int): set<nat> {
    set i | 0 <= i < |s| && x <= s[i] < x + w
  }

  lemma {:induction false} InWindowCounts(s: seq<Time>, x: Time, w: int)
    ensures InWindow(s, x, w) == |StampsIn(s, x, w)|
  {
    if s == [] {
      assert StampsIn(s, x, w) == {};
    } else {
      var n := |s| - 1;
      InWindowCounts(s[..n], x, w);
      assert StampsIn(s, x, w) == StampsIn(s[..n], x, w) + if x <= s[n] < x + w then {n} else {};
    }
  }

  lemma AfterPush(s: seq<Time>, t: Time, cutoff: Time)
    ensures After(s + [t], cutoff) == After(s, cutoff) + if t > cutoff then [t] else []
  {
    assert (s + [t])[..|s|] == s;
  }

  /** Dropping what an earlier cutoff drops changes nothing for a later one. */
  lemma {:induction false} AfterAfter(s: seq<Time>, early: Time, late: Time)
    requires early <= late
    ensures After(After(s, early), late) == After(s, late)
  {
    if s != [] {
      var n := |s| - 1;
      AfterAfter(s[..n], early, late);
      if s[n] > early {
        AfterPush(After(s[..n], early), s[n], late);
      } else {
        assert After(s, early) == After(s[..n], early);
      }
    }
  }

  /** A later cutoff leaves no more. */
  lemma {:induction false} AfterShrinks(s: seq<Time>, early: Time, late: Time)
    requires early <= late
    ensures |After(s, late)| <= |After(s, early)|
  {
    if s != [] {
      AfterShrinks(s[..|s| - 1], early, late);
    }
  }

  /** A window that begins after `cutoff` holds no more than what is counted after it. */
  lemma {:induction false} WindowWithinAfter(s: seq<Time>, x: Time, w: int, cutoff: Time)
    requires cutoff < x
    ensures InWindow(s, x, w) <= |After(s, cutoff)|
  {
    if s != [] {
      WindowWithinAfter(s[..|s| - 1], x, w, cutoff);
    }
  }

  /** No window of length `w` holds more than `maxCount` stamps. */
  ghost predicate Limited(starts: seq<Time>, w: int, maxCount: int) {
    forall x :: InWindow(starts, x, w) <= maxCount
  }

  /** A start that was checked since the previous one keeps every window within the limit. */
  lemma CheckedStartKeepsLimit(starts: seq<Time>, w: int, maxCount: int, check: Time, at: Time)
    requires Limited(starts, w, maxCount) && check <= at && |After(starts, check - w)| < maxCount
    ensures Limited(starts + [at], w, maxCount)
  {
    forall x ensures InWindow(starts + [at], x, w) <= maxCount {
      assert (starts + [at])[..|starts|] == starts;
      if x <= at < x + w {
        WindowWithinAfter(starts, x, w, check - w);
      }
    }
  }

  /** `kept` is what remains of `starts` when only the window before the newest start matters. */
  ghost predicate Pruned(kept: seq<Time>, starts: seq<Time>, w: int) {
    (starts == [] ==> kept == []) && (starts != [] ==> kept == After(starts, starts[|starts| - 1] - w))
  }

  /** The newest stamp is not in the future. */
  ghost predicate NotLater(starts: seq<Time>, now: Time) {
    starts != [] ==> starts[|starts| - 1] <= now
  }

  /** From any later time the pruned list and the full history look the same. */
  lemma {:induction false} PrunedAgrees(kept: seq<Time>, starts: seq<Time>, w: int, now: Time)
    requires Pruned(kept, starts, w) && NotLater(starts, now)
    ensures After(kept, now - w) == After(starts, now - w)
  {
    if starts != [] {
      AfterAfter(starts, starts[|starts| - 1] - w, now - w);
    }
  }

  lemma {:induction false} PrunedAdd(kept: seq<Time>, starts: seq<Time>, w: int, now: Time)
    requires Pruned(kept, starts, w) && NotLater(starts, now)
    ensures Pruned(After(kept + [now], now - w), starts + [now], w)
  {
    PrunedAgrees(kept, starts, w, now);
    AfterPush(kept, now, now - w);
    AfterPush(starts, now, now - w);
    NewestIs(starts, now);
  }

  lemma NewestIs(starts: seq<Time>, now: Time)
    ensures starts + [now] != [] && (starts + [now])[|starts + [now]| - 1] == now
  {
  }

  /** Moves the stamps after `cutoff` to the front of the list and cuts off the rest. */
  method Compact(all: seq<Time>, cutoff: Time) returns (list: seq<Time>)
    ensures list == After(all, cutoff)
  {
    list := all;
    var n := 0;
    for i := 0 to |all|
      invariant n <= i && |list| == |all|
      invariant list[..n] == After(all[..i], cutoff)
      invariant forall k :: i <= k < |all| ==> list[k] == all[k]
    {
      var ts := list[i];
      assert all[..i + 1] == all[..i] + [ts];
      AfterPush(all[..i], ts, cutoff);
      if ts > cutoff {
        list := list[n := ts];
        assert list[..n + 1] == list[..n] + [ts];
        n := n + 1;
      }
    }
    assert all[..|all|] == all;
    list := list[..n];
  }

  class RestartHistory {
    const maxCount: int
    const windowSecs: int
    var timestamps: seq<Time>
    /** Every successful start, including those the list has dropped. */
    ghost var starts: seq<Time>

    ghost function Newest(): Time
      reads this
      requires starts != []
    {
      starts[|starts| - 1]
    }

    ghost predicate Valid()
      reads this
    {
      Pruned(timestamps, starts, WindowLength(windowSecs))
    }

    constructor (maxCount: int, windowSecs: int)
      ensures Valid() && starts == [] && this.maxCount == maxCount && this.windowSecs == windowSecs
    {
      this.maxCount, this.windowSecs := maxCount, windowSecs;
      timestamps, starts := [], [];
    }

    /** Records a start and compacts the list in place. */
    method AddRestartTimestamp(now: Time)
      requires Valid() && (starts != [] ==> Newest() <= now)
      modifies this
      ensures Valid() && starts == old(starts) + [now]
      ensures timestamps == After(old(timestamps) + [now], now - WindowLength(windowSecs))
    {
      PrunedAdd(timestamps, starts, WindowLength(windowSecs), now);
      starts := starts + [now];
      timestamps := timestamps + [now];
      timestamps := Compact(timestamps, now - WindowLength(windowSecs));
    }

    /** The verdict from the pruned list is the verdict from the full history, at any later time. */
    method RestartRateExceeded(now: Time) returns (exceeded: bool)
      requires Valid() && (starts != [] ==> Newest() <= now)
      ensures exceeded <==> maxCount > 0 && |After(timestamps, now - WindowLength(windowSecs))| >= maxCount
      ensures exceeded <==>
                maxCount > 0 && |Younger(starts, now, 1_000_000_000 * if windowSecs > 0 then windowSecs else 60)| >= maxCount
    {
      if maxCount <= 0 {
        return false;
      }
      var cutoff := now - WindowLength(windowSecs);
      var count := 0;
      for i := 0 to |timestamps|
        invariant count == |After(timestamps[..i], cutoff)|
      {
        assert timestamps[..i + 1] == timestamps[..i] + [timestamps[i]];
        AfterPush(timestamps[..i], timestamps[i], cutoff);
        if timestamps[i] > cutoff {
          count := count + 1;
        }
      }
      assert timestamps[..|timestamps|] == timestamps;
      PrunedAgrees(timestamps, starts, WindowLength(windowSecs), now);
      AfterCounts(starts, now, WindowLength(windowSecs));
      exceeded := count >= maxCount;
    }
  }
}
