/** The fixed-size ring buffer behind the event log and the resource history. */
module RingBuffer {

  /** The last `n` elements of a list, or all of them if there are fewer. */
  function Last<T>(s: seq<T>, n: nat): seq<T> {
    if n <= |s| then s[|s| - n..] else s
  }

  lemma LastOfLast<T>(s: seq<T>, n: nat, m: nat)
    requires m <= n
    ensures Last(Last(s, n), m) == Last(s, m)
  {
  }

  lemma LastOfPush<T>(s: seq<T>, v: T, n: nat)
    requires n > 0
    ensures Last(s + [v], n) == if |s| >= n then Last(s, n)[1..] + [v] else Last(s, n) + [v]
  {
  }

  /** The slots of a ring read in chronological order. */
  function Unrolled<T>(slots: seq<T>, pos: nat, full: bool): seq<T>
    requires pos < |slots|
  {
    if full then slots[pos..] + slots[..pos] else slots[..pos]
  }

  /** The slots hold the most recent elements of `pushed`. */
  ghost predicate Holds<T>(slots: seq<T>, pos: nat, full: bool, pushed: seq<T>) {
    && pos < |slots|
    && (full <==> |pushed| >= |slots|)
    && Unrolled(slots, pos, full) == Last(pushed, |slots|)
  }

  lemma WriteFull<T>(slots: seq<T>, pos: nat, v: T)
    requires pos < |slots|
    ensures var next := if pos + 1 < |slots| then pos + 1 else 0;
            Unrolled(slots[pos := v], next, true) == Unrolled(slots, pos, true)[1..] + [v]
  {
    var after := slots[pos := v];
    assert after[pos + 1..] == slots[pos + 1..] && after[..pos + 1] == slots[..pos] + [v];
    assert Unrolled(slots, pos, true)[1..] == slots[pos + 1..] + slots[..pos];
    if pos + 1 == |slots| {
      assert after[0..] == after[..pos + 1];
    }
  }

  lemma WriteFree<T>(slots: seq<T>, pos: nat, v: T)
    requires pos < |slots|
    ensures var next := if pos + 1 < |slots| then pos + 1 else 0;
            Unrolled(slots[pos := v], next, next == 0) == Unrolled(slots, pos, false) + [v]
  {
    var after := slots[pos := v];
    assert after[..pos + 1] == slots[..pos] + [v];
    if pos + 1 == |slots| {
      assert after[0..] + after[..0] == after[..pos + 1];
    }
  }

  /** Overwriting the oldest slot of a full ring, or the next free one, appends at the end. */
  lemma WriteSlot<T>(slots: seq<T>, pos: nat, full: bool, pushed: seq<T>, v: T)
    requires Holds(slots, pos, full, pushed)
    ensures var next := if pos + 1 < |slots| then pos + 1 else 0;
            Holds(slots[pos := v], next, full || next == 0, pushed + [v])
  {
    LastOfPush(pushed, v, |slots|);
    if full {
      WriteFull(slots, pos, v);
    } else {
      WriteFree(slots, pos, v);
      assert |pushed| == |Unrolled(slots, pos, false)| == pos;
    }
  }

  lemma SlotAt<T>(slots: seq<T>, pos: nat, full: bool, j: nat)
    requires pos < |slots| && j < |Unrolled(slots, pos, full)|
    ensures Unrolled(slots, pos, full)[j] ==
            slots[if !full then j else if pos + j < |slots| then pos + j else pos + j - |slots|]
  {
  }

  /** An index that has passed the end of the ring at most once. */
  method Wrap(x: int, c: int) returns (r: nat)
    requires 0 <= x < 2 * c
    ensures r == if x < c then x else x - c
  {
    if x >= c {
      assert x == c * 1 + (x - c);
    }
    r := x % c;
  }

  class RingBuffer<T(0)> {
    const capacity: nat
    const buf: array<T>
    var pos: nat
    var full: bool
    /** Everything ever pushed, oldest first. */
    ghost var pushed: seq<T>

    ghost predicate Valid()
      reads this, buf
    {
      capacity == buf.Length && Holds(buf[..], pos, full, pushed)
    }

    constructor (n: nat)
      requires n > 0
      ensures Valid() && fresh(buf) && capacity == n && pushed == []
    {
      capacity := n;
      buf := new T[n];
      pos := 0;
      full := false;
      pushed := [];
    }

    method Push(v: T)
      requires Valid()
      modifies this, buf
      ensures Valid() && pushed == old(pushed) + [v]
    {
      WriteSlot(buf[..], pos, full, pushed, v);
      buf[pos] := v;
      assert buf[..] == old(buf[..])[pos := v];
      pos := Wrap(pos + 1, capacity);
      if pos == 0 {
        full := true;
      }
      pushed := pushed + [v];
    }

    method Len() returns (n: nat)
      requires Valid()
      ensures n == |Last(pushed, capacity)|
    {
      if full {
        return capacity;
      }
      return pos;
    }

    /** All retained elements, oldest first. */
    method SnapshotAll() returns (r: seq<T>)
      requires Valid()
      ensures r == Last(pushed, capacity)
    {
      if full {
        r := [];
        for i := 0 to capacity
          invariant r == Last(pushed, capacity)[..i]
        {
          SlotAt(buf[..], pos, full, i);
          var idx := Wrap(pos + i, capacity);
          r := r + [buf[idx]];
        }
      } else {
        r := buf[..pos];
      }
    }

    /** The most recent `n` elements, oldest first. */
    method SnapshotLast(n: nat) returns (r: seq<T>)
      requires Valid()
      ensures r == Last(Last(pushed, capacity), n)
      ensures n <= capacity ==> r == Last(pushed, n)
    {
      var size := if full then capacity else pos;
      var m := if n > size then size else n;
      ghost var kept := Last(pushed, capacity);
      r := [];
      for i := 0 to m
        invariant |r| == i && forall k :: 0 <= k < i ==> r[k] == kept[size - m + k]
      {
        var idx := Wrap(pos - m + i + capacity, capacity);
        SlotAt(buf[..], pos, full, size - m + i);
        assert buf[idx] == buf[..][idx];
        r := r + [buf[idx]];
      }
      assert r == kept[size - m..];
      if n <= capacity {
        LastOfLast(pushed, capacity, n);
      }
    }
  }
}

/** The per-process history of resource samples. */
module ResourceHistory {
  import opened RingBuffer

  datatype Sample = Sample(timestamp: int, cpu: real, memory: nat)

  function NotOlder(s: seq<Sample>, cutoff: int): seq<Sample> {
    if s == [] then []
    else (if s[0].timestamp >= cutoff then [s[0]] else []) + NotOlder(s[1..], cutoff)
  }

  ghost predicate Chronological(s: seq<Sample>) {
    forall i, j :: 0 <= i < j < |s| ==> s[i].timestamp <= s[j].timestamp
  }

  lemma {:induction false} NotOlderIsSuffix(s: seq<Sample>, cutoff: int, n: nat)
    requires Chronological(s) && n <= |s|
    requires forall i :: 0 <= i < n ==> s[i].timestamp < cutoff
    requires n < |s| ==> s[n].timestamp >= cutoff
    ensures NotOlder(s, cutoff) == s[n..]
  {
    if s != [] {
      if n > 0 {
        NotOlderIsSuffix(s[1..], cutoff, n - 1);
      } else {
        NotOlderIsSuffix(s[1..], cutoff, 0);
        assert s == [s[0]] + s[1..];
      }
    }
  }

  /** The retained samples, limited to the last `since` when that is positive. */
  method Snapshot(history: RingBuffer<Sample>, since: int, now: int) returns (r: seq<Sample>)
    requires history.Valid()
    ensures since <= 0 ==> r == Last(history.pushed, history.capacity)
    ensures since > 0 && Chronological(history.pushed) ==>
              r == NotOlder(Last(history.pushed, history.capacity), now - since)
  {
    var all := history.SnapshotAll();
    if since <= 0 {
      return all;
    }
    var cutoff := now - since;
    var n := 0;
    while n < |all| && all[n].timestamp < cutoff
      invariant n <= |all|
      invariant forall i :: 0 <= i < n ==> all[i].timestamp < cutoff
    {
      n := n + 1;
    }
    if Chronological(history.pushed) {
      NotOlderIsSuffix(all, cutoff, n);
    }
    r := all[n..];
  }
}
