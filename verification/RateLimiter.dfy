/** The per-client token bucket of the web interface, with eviction of idle buckets. */
module RateLimiter {

  /** Seconds on a clock that never runs backwards. */
  type Time = real

  /** Buckets idle for longer than this are dropped. */
  const IDLE_LIMIT: Time := 300.0

  datatype Rate = Rate(rps: int, burst: int) {
    predicate Positive() {
      rps > 0 && burst > 0
    }

    /** The burst is refilled within the idle limit. */
    predicate RefillsBeforeEviction() {
      burst <= 300 * rps
    }

    function Refill(elapsed: Time): real {
      elapsed * (rps as real)
    }
  }

  datatype Bucket = Bucket(tokens: real, lastTime: Time)
  type Buckets = map<string, Bucket>

  function Capped(r: Rate, tokens: real): real {
    if tokens > r.burst as real then r.burst as real else tokens
  }

  /** The tokens a client has at time `t`; a client without a bucket has the full burst. */
  function Available(r: Rate, m: Buckets, ip: string, t: Time): real {
    if ip in m then Capped(r, m[ip].tokens + r.Refill(t - m[ip].lastTime)) else r.burst as real
  }

  ghost predicate WellFormed(r: Rate, m: Buckets, clock: Time) {
    r.Positive() && forall ip :: ip in m ==> 0.0 <= m[ip].tokens <= r.burst as real && m[ip].lastTime <= clock
  }

  /** What one request leaves behind: its bucket is settled at `now`. */
  function Charge(r: Rate, m: Buckets, ip: string, now: Time): Buckets {
    var a := Available(r, m, ip, now);
    m[ip := Bucket(if a >= 1.0 then a - 1.0 else a, now)]
  }

  function Evict(m: Buckets, now: Time): Buckets {
    map ip | ip in m && now - m[ip].lastTime <= IDLE_LIMIT :: m[ip]
  }

  class Limiter {
    const rate: Rate
    var buckets: Buckets
    ghost var clock: Time

    ghost predicate Valid()
      reads this
    {
      WellFormed(rate, buckets, clock)
    }

    constructor (rps: int, burst: int)
      ensures Valid() && buckets == map[] && clock == 0.0
      ensures rate.rps == if rps <= 0 then 100 else rps
      ensures rate.burst == if burst <= 0 then 2 * rate.rps else burst
    {
      var r := if rps <= 0 then 100 else rps;
      rate := Rate(r, if burst <= 0 then r * 2 else burst);
      buckets := map[];
      clock := 0.0;
    }

    method Allow(ip: string, now: Time) returns (ok: bool)
      requires Valid() && clock <= now
      modifies this
      ensures Valid() && clock == now
      ensures ok <==> Available(rate, old(buckets), ip, now) >= 1.0
      ensures forall other :: other != ip ==> (other in buckets <==> other in old(buckets))
      ensures forall other :: other != ip && other in buckets ==> buckets[other] == old(buckets)[other]
      ensures buckets == Charge(rate, old(buckets), ip, now)
    {
      clock := now;
      if ip !in buckets {
        buckets := buckets[ip := Bucket(rate.burst as real - 1.0, now)];
        return true;
      }
      var b := buckets[ip];
      var elapsed := now - b.lastTime;
      RefillIsPositive(rate, elapsed);
      var tokens := b.tokens + rate.Refill(elapsed);
      if tokens > rate.burst as real {
        tokens := rate.burst as real;
      }
      ok := tokens >= 1.0;
      if ok {
        tokens := tokens - 1.0;
      }
      buckets := buckets[ip := Bucket(tokens, now)];
    }

    /** One tick of the cleanup loop; the map is walked in an arbitrary order. */
    method Cleanup(now: Time)
      requires Valid() && clock <= now
      modifies this
      ensures Valid() && clock == now
      ensures buckets == Evict(old(buckets), now)
      ensures forall ip :: ip in buckets <==> ip in old(buckets) && now - old(buckets)[ip].lastTime <= 300.0
      ensures forall ip :: ip in buckets ==> buckets[ip] == old(buckets)[ip]
    {
      clock := now;
      var todo := buckets.Keys;
      while todo != {}
        invariant todo <= old(buckets).Keys && clock == now
        invariant buckets == map ip | ip in old(buckets) && (ip in todo || now - old(buckets)[ip].lastTime <= IDLE_LIMIT)
                                    :: old(buckets)[ip]
      {
        var ip :| ip in todo;
        todo := todo - {ip};
        if now - buckets[ip].lastTime > IDLE_LIMIT {
          buckets := buckets - {ip};
        }
      }
    }
  }

  // ---------- refilling ----------

  lemma RefillIsPositive(r: Rate, elapsed: Time)
    requires r.Positive() && elapsed >= 0.0
    ensures r.Refill(elapsed) >= 0.0
  {
  }

  lemma RefillAdds(r: Rate, a: Time, b: Time)
    ensures r.Refill(a + b) == r.Refill(a) + r.Refill(b)
  {
  }

  /** Waiting from `t` to `u` adds at most the refill of that time, and no token is lost. */
  lemma AvailableGrows(r: Rate, m: Buckets, clock: Time, ip: string, t: Time, u: Time)
    requires WellFormed(r, m, clock) && clock <= t <= u
    ensures 0.0 <= Available(r, m, ip, t) <= r.burst as real
    ensures Available(r, m, ip, t) <= Available(r, m, ip, u) <= Available(r, m, ip, t) + r.Refill(u - t)
  {
    RefillIsPositive(r, u - t);
    if ip in m {
      RefillIsPositive(r, t - m[ip].lastTime);
      RefillAdds(r, t - m[ip].lastTime, u - t);
      assert (t - m[ip].lastTime) + (u - t) == u - m[ip].lastTime;
    }
  }

  lemma IdleBucketIsFull(r: Rate, m: Buckets, clock: Time, ip: string, now: Time, t: Time)
    requires WellFormed(r, m, clock) && r.RefillsBeforeEviction() && ip in m
    requires now - m[ip].lastTime > IDLE_LIMIT && now <= t
    ensures Available(r, m, ip, t) == r.burst as real
  {
    var elapsed := t - m[ip].lastTime;
    RefillAdds(r, IDLE_LIMIT, elapsed - IDLE_LIMIT);
    RefillIsPositive(r, elapsed - IDLE_LIMIT);
    assert r.Refill(IDLE_LIMIT) >= r.burst as real;
  }

  /** Evicting idle buckets leaves every client's tokens as they were. */
  lemma EvictKeepsAvailable(r: Rate, m: Buckets, clock: Time, ip: string, now: Time, t: Time)
    requires WellFormed(r, m, clock) && r.RefillsBeforeEviction() && clock <= now <= t
    ensures Available(r, Evict(m, now), ip, t) == Available(r, m, ip, t)
  {
    if ip in m && ip !in Evict(m, now) {
      IdleBucketIsFull(r, m, clock, ip, now, t);
    }
  }

  // ---------- runs ----------

  datatype Op = Request(ip: string, now: Time) | Tick(now: Time)

  /** The state after one operation, with eviction switched on or off. */
  function Step(r: Rate, m: Buckets, op: Op, evicting: bool): Buckets {
    match op
    case Request(ip, now) => Charge(r, m, ip, now)
    case Tick(now) => if evicting then Evict(m, now) else m
  }

  ghost predicate InOrder(ops: seq<Op>, from: Time) {
    ops == [] || (from <= ops[0].now && InOrder(ops[1..], ops[0].now))
  }

  /** Who asked and what was answered, in order. */
  function Answers(r: Rate, m: Buckets, ops: seq<Op>, evicting: bool): seq<(string, bool)>
    decreases |ops|
  {
    if ops == [] then []
    else
      (if ops[0].Request? then [(ops[0].ip, Available(r, m, ops[0].ip, ops[0].now) >= 1.0)] else [])
      + Answers(r, Step(r, m, ops[0], evicting), ops[1..], evicting)
  }

  function Allowed(answers: seq<(string, bool)>, ip: string): nat {
    if answers == [] then 0
    else (if answers[0] == (ip, true) then 1 else 0) + Allowed(answers[1..], ip)
  }

  lemma StepWellFormed(r: Rate, m: Buckets, clock: Time, op: Op, evicting: bool)
    requires WellFormed(r, m, clock) && clock <= op.now
    ensures WellFormed(r, Step(r, m, op, evicting), op.now)
  {
    if op.Request? {
      AvailableGrows(r, m, clock, op.ip, op.now, op.now);
    }
  }

  /** What remains for a client at `t` after one operation at or before `t`. */
  lemma StepAvailable(r: Rate, m: Buckets, clock: Time, op: Op, evicting: bool, ip: string, t: Time)
    requires WellFormed(r, m, clock) && clock <= op.now <= t
    requires evicting ==> r.RefillsBeforeEviction()
    ensures var a := Available(r, m, ip, op.now);
            var spent := if op == Request(ip, op.now) && a >= 1.0 then 1.0 else 0.0;
            Available(r, Step(r, m, op, evicting), ip, t) <= a - spent + r.Refill(t - op.now)
  {
    AvailableGrows(r, m, clock, ip, op.now, t);
    StepWellFormed(r, m, clock, op, evicting);
    match op
    case Request(who, now) =>
      AvailableGrows(r, Step(r, m, op, evicting), now, ip, now, t);
      if who == ip {
        assert r.Refill(now - now) == 0.0;
      }
    case Tick(now) =>
      if evicting {
        EvictKeepsAvailable(r, m, clock, ip, now, t);
      }
  }

  ghost function End(ops: seq<Op>, from: Time): Time {
    if ops == [] then from else ops[|ops| - 1].now
  }

  /** Tokens are conserved: answers granted are paid from what was available plus what was refilled. */
  lemma {:induction false} RunIsPaid(r: Rate, m: Buckets, clock: Time, ops: seq<Op>, evicting: bool, ip: string,
                                     from: Time, to: Time)
    requires WellFormed(r, m, clock) && clock <= from <= to && InOrder(ops, from) && End(ops, from) <= to
    requires evicting ==> r.RefillsBeforeEviction()
    ensures Allowed(Answers(r, m, ops, evicting), ip) as real <= Available(r, m, ip, from) + r.Refill(to - from)
    decreases |ops|
  {
    AvailableGrows(r, m, clock, ip, from, to);
    if ops != [] {
      var op, rest := ops[0], ops[1..];
      var m' := Step(r, m, op, evicting);
      StepWellFormed(r, m, clock, op, evicting);
      AvailableGrows(r, m, clock, ip, from, op.now);
      StepAvailable(r, m, clock, op, evicting, ip, op.now);
      EndAfterFirst(ops, from);
      RunIsPaid(r, m', op.now, rest, evicting, ip, op.now, to);
      RefillAdds(r, op.now - from, to - op.now);
      assert (op.now - from) + (to - op.now) == to - from;
      assert r.Refill(op.now - op.now) == 0.0;
      FirstAnswer(r, m, ops, evicting, ip);
    }
  }

  lemma {:induction false} EndAfterFirst(ops: seq<Op>, from: Time)
    requires ops != [] && InOrder(ops, from)
    ensures ops[0].now <= End(ops, from) && End(ops[1..], ops[0].now) == End(ops, from)
    decreases |ops|
  {
    if |ops| > 1 {
      EndAfterFirst(ops[1..], ops[0].now);
    }
  }

  lemma FirstAnswer(r: Rate, m: Buckets, ops: seq<Op>, evicting: bool, ip: string)
    requires ops != []
    ensures Allowed(Answers(r, m, ops, evicting), ip) ==
            Allowed(Answers(r, Step(r, m, ops[0], evicting), ops[1..], evicting), ip)
            + if ops[0] == Request(ip, ops[0].now) && Available(r, m, ip, ops[0].now) >= 1.0 then 1 else 0
  {
    var rest := Answers(r, Step(r, m, ops[0], evicting), ops[1..], evicting);
    if ops[0].Request? {
      var first := (ops[0].ip, Available(r, m, ops[0].ip, ops[0].now) >= 1.0);
      assert Answers(r, m, ops, evicting) == [first] + rest;
      assert ([first] + rest)[1..] == rest;
    } else {
      assert Answers(r, m, ops, evicting) == rest;
    }
  }

  /** The tokens of an interval are the rate times its length. */
  lemma RefillMeans(r: Rate, elapsed: Time) returns (tokens: real)
    ensures tokens == r.Refill(elapsed) == elapsed * (r.rps as real)
  {
    tokens := r.Refill(elapsed);
  }

  lemma PaidFromBurst(r: Rate, m: Buckets, clock: Time, ops: seq<Op>, evicting: bool, ip: string, from: Time, to: Time)
    requires WellFormed(r, m, clock) && clock <= from <= to && InOrder(ops, from) && End(ops, from) <= to
    requires evicting ==> r.RefillsBeforeEviction()
    ensures Allowed(Answers(r, m, ops, evicting), ip) as real <= r.burst as real + r.Refill(to - from)
  {
    RunIsPaid(r, m, clock, ops, evicting, ip, from, to);
    AvailableGrows(r, m, clock, ip, from, from);
  }

  /** In any interval a client is granted at most the burst, and the rate times the length of the interval. */
  lemma IntervalBound(r: Rate, m: Buckets, clock: Time, ops: seq<Op>, evicting: bool, ip: string, from: Time, length: Time)
    requires WellFormed(r, m, clock) && clock <= from && length >= 0.0 && InOrder(ops, from) && End(ops, from) <= from + length
    requires evicting ==> r.burst <= 300 * r.rps
    ensures Allowed(Answers(r, m, ops, evicting), ip) as real <= r.burst as real + length * (r.rps as real)
  {
    var tokens := RefillMeans(r, length);
    assert Allowed(Answers(r, m, ops, evicting), ip) as real <= r.burst as real + tokens by {
      assert from + length - from == length;
      PaidFromBurst(r, m, clock, ops, evicting, ip, from, from + length);
    }
  }

  // ---------- what a request costs ----------

  /** A request that is allowed costs one token, one that is refused costs nothing, and neither touches another client. */
  lemma RequestCosts(r: Rate, m: Buckets, clock: Time, ip: string, now: Time, other: string, t: Time)
    requires WellFormed(r, m, clock) && clock <= now <= t
    ensures var a := Available(r, m, ip, now);
            && (a >= 1.0 ==> Available(r, Charge(r, m, ip, now), ip, now) == a - 1.0)
            && (a < 1.0 ==> Available(r, Charge(r, m, ip, now), ip, t) == Available(r, m, ip, t))
    ensures other != ip ==> Available(r, Charge(r, m, ip, now), other, t) == Available(r, m, other, t)
  {
    var a := Available(r, m, ip, now);
    assert r.Refill(0.0) == 0.0;
    if a < 1.0 {
      RefillAdds(r, now - m[ip].lastTime, t - now);
    }
  }

  lemma OneTokenInTime(rps: real, elapsed: Time)
    requires rps > 0.0 && elapsed >= 1.0 / rps
    ensures elapsed * rps >= 1.0
  {
    assert (1.0 / rps) * rps == 1.0;
  }

  lemma RefillsOne(r: Rate, elapsed: Time)
    requires r.Positive() && elapsed >= 1.0 / (r.rps as real)
    ensures r.Refill(elapsed) >= 1.0
  {
    OneTokenInTime(r.rps as real, elapsed);
  }

  lemma EnoughTokens(r: Rate, tokens: real, refill: real)
    requires r.Positive() && tokens >= 0.0 && refill >= 1.0
    ensures Capped(r, tokens + refill) >= 1.0
  {
  }

  /** A client that lets 1 / rps seconds pass between its requests is never refused. */
  lemma PacedIsAllowed(r: Rate, m: Buckets, clock: Time, ip: string, now: Time)
    requires WellFormed(r, m, clock) && clock <= now
    requires ip in m ==> now - m[ip].lastTime >= 1.0 / (r.rps as real)
    ensures Available(r, m, ip, now) >= 1.0
  {
    if ip in m {
      RefillsOne(r, now - m[ip].lastTime);
      EnoughTokens(r, m[ip].tokens, r.Refill(now - m[ip].lastTime));
    }
  }

  // ---------- eviction is invisible exactly when buckets refill in time ----------

  ghost predicate SameView(r: Rate, m: Buckets, n: Buckets, clock: Time) {
    forall ip, t :: clock <= t ==> Available(r, m, ip, t) == Available(r, n, ip, t)
  }

  lemma {:induction false} SameAnswers(r: Rate, m: Buckets, n: Buckets, clock: Time, ops: seq<Op>)
    requires WellFormed(r, m, clock) && WellFormed(r, n, clock) && SameView(r, m, n, clock) && InOrder(ops, clock)
    requires r.RefillsBeforeEviction()
    ensures Answers(r, m, ops, true) == Answers(r, n, ops, false)
    decreases |ops|
  {
    if ops != [] {
      var op := ops[0];
      var m', n' := Step(r, m, op, true), Step(r, n, op, false);
      StepWellFormed(r, m, clock, op, true);
      StepWellFormed(r, n, clock, op, false);
      forall ip, t | op.now <= t ensures Available(r, m', ip, t) == Available(r, n', ip, t) {
        assert Available(r, m, ip, t) == Available(r, n, ip, t);
        if op.Tick? {
          EvictKeepsAvailable(r, m, clock, ip, op.now, t);
        } else {
          assert Available(r, m, op.ip, op.now) == Available(r, n, op.ip, op.now);
        }
      }
      SameAnswers(r, m', n', op.now, ops[1..]);
      if op.Request? {
        assert Available(r, m, op.ip, op.now) == Available(r, n, op.ip, op.now);
      }
    }
  }

  function Flood(ip: string, count: nat, now: Time): seq<Op> {
    if count == 0 then [] else [Request(ip, now)] + Flood(ip, count - 1, now)
  }

  lemma {:induction false} FloodGranted(r: Rate, m: Buckets, clock: Time, ip: string, count: nat, now: Time, rest: seq<Op>,
                                        evicting: bool) returns (m': Buckets)
    requires WellFormed(r, m, clock) && clock <= now && Available(r, m, ip, now) >= count as real && count > 0
    requires InOrder(rest, now)
    ensures WellFormed(r, m', now) && ip in m' && m'[ip].lastTime == now
    ensures InOrder(Flood(ip, count, now) + rest, clock)
    ensures rest != [] ==> End(Flood(ip, count, now) + rest, clock) == End(rest, now)
    ensures rest == [] ==> End(Flood(ip, count, now) + rest, clock) == now
    ensures Allowed(Answers(r, m, Flood(ip, count, now) + rest, evicting), ip) ==
            count + Allowed(Answers(r, m', rest, evicting), ip)
    decreases count
  {
    var ops := Flood(ip, count, now) + rest;
    var first := Request(ip, now);
    var tail := Flood(ip, count - 1, now) + rest;
    assert ops == [first] + tail;
    assert ops[1..] == tail;
    StepWellFormed(r, m, clock, first, evicting);
    m' := Step(r, m, first, evicting);
    FirstAnswer(r, m, ops, evicting, ip);
    assert r.Refill(now - now) == 0.0;
    assert Available(r, m', ip, now) == Available(r, m, ip, now) - 1.0;
    if count > 1 {
      m' := FloodGranted(r, m', now, ip, count - 1, now, rest, evicting);
    } else {
      assert tail == rest;
    }
  }

  /** Exhaust a bucket, wait just past the idle limit, let it be evicted, and exhaust it again. */
  function Abuse(r: Rate, ip: string): seq<Op>
    requires r.Positive()
  {
    var again := IDLE_LIMIT + 1.0 / (2.0 * (r.rps as real));
    Flood(ip, r.burst, 0.0) + ([Tick(again)] + (Flood(ip, r.burst, again) + []))
  }

  lemma AbuseGranted(r: Rate, ip: string)
    requires r.Positive()
    ensures InOrder(Abuse(r, ip), 0.0)
    ensures End(Abuse(r, ip), 0.0) == IDLE_LIMIT + 1.0 / (2.0 * (r.rps as real))
    ensures Allowed(Answers(r, map[], Abuse(r, ip), true), ip) == 2 * r.burst
  {
    var again := IDLE_LIMIT + 1.0 / (2.0 * (r.rps as real));
    assert again > IDLE_LIMIT;
    var second := Flood(ip, r.burst, again) + [];
    var rest := [Tick(again)] + second;
    assert rest[1..] == second;
    var empty: Buckets := map[];
    var m2 := FloodGranted(r, empty, again, ip, r.burst, again, [], true);
    EndAfterFirst(second, again);
    assert InOrder(rest, 0.0);
    EndAfterFirst(rest, 0.0);
    var m1 := FloodGranted(r, empty, 0.0, ip, r.burst, 0.0, rest, true);
    FirstAnswer(r, m1, rest, true, ip);
    var m1' := Evict(m1, again);
    assert ip !in m1';
    StepWellFormed(r, m1, 0.0, Tick(again), true);
    var m3 := FloodGranted(r, m1', again, ip, r.burst, again, [], true);
  }

  ghost predicate EvictionInvisible(r: Rate) {
    forall ops :: InOrder(ops, 0.0) ==> Answers(r, map[], ops, true) == Answers(r, map[], ops, false)
  }

  ghost predicate BoundHolds(r: Rate) {
    forall ops, ip :: InOrder(ops, 0.0) ==>
      Allowed(Answers(r, map[], ops, true), ip) as real <= r.burst as real + End(ops, 0.0) * (r.rps as real)
  }

  /** Eviction changes no answer, and the bound holds with eviction, exactly when buckets refill before it. */
  lemma EvictionInvisibleIff(r: Rate)
    requires r.Positive()
    ensures EvictionInvisible(r) <==> r.burst <= 300 * r.rps
    ensures BoundHolds(r) <==> r.burst <= 300 * r.rps
  {
    if r.RefillsBeforeEviction() {
      RefillMakesInvisible(r);
    } else {
      AbuseShows(r);
    }
  }

  lemma RefillMakesInvisible(r: Rate)
    requires r.Positive() && r.RefillsBeforeEviction()
    ensures EvictionInvisible(r) && BoundHolds(r)
  {
    var empty: Buckets := map[];
    forall ops | InOrder(ops, 0.0) ensures Answers(r, empty, ops, true) == Answers(r, empty, ops, false) {
      SameAnswers(r, empty, empty, 0.0, ops);
    }
    forall ops, ip | InOrder(ops, 0.0)
      ensures Allowed(Answers(r, empty, ops, true), ip) as real <= r.burst as real + End(ops, 0.0) * (r.rps as real)
    {
      if ops != [] {
        EndAfterFirst(ops, 0.0);
      }
      IntervalBound(r, empty, 0.0, ops, true, ip, 0.0, End(ops, 0.0));
      assert End(ops, 0.0) - 0.0 == End(ops, 0.0);
    }
  }

  lemma AbuseShows(r: Rate)
    requires r.Positive() && !r.RefillsBeforeEviction()
    ensures !EvictionInvisible(r) && !BoundHolds(r)
  {
    var empty: Buckets := map[];
    var ops := Abuse(r, "client");
    AbuseGranted(r, "client");
    AbuseExceeds(r);
    var tokens := RefillMeans(r, End(ops, 0.0));
    IntervalBound(r, empty, 0.0, ops, false, "client", 0.0, End(ops, 0.0));
    assert End(ops, 0.0) - 0.0 == End(ops, 0.0);
    var with, without := Answers(r, empty, ops, true), Answers(r, empty, ops, false);
    assert Allowed(with, "client") != Allowed(without, "client");
    assert with != without;
  }

  lemma AbuseExceeds(r: Rate)
    requires r.Positive() && !r.RefillsBeforeEviction()
    ensures r.burst as real + r.Refill(IDLE_LIMIT + 1.0 / (2.0 * (r.rps as real))) < (2 * r.burst) as real
  {
    var rps := r.rps as real;
    RefillAdds(r, IDLE_LIMIT, 1.0 / (2.0 * rps));
    assert 1.0 / (2.0 * rps) * rps == 0.5;
    assert r.Refill(IDLE_LIMIT) == 300.0 * rps == (300 * r.rps) as real;
    assert r.burst >= 300 * r.rps + 1;
  }
}
