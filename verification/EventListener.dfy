/** The bounded event queue of a listener and the READY/RESULT loop that drains it. */
module EventListener {
  import opened Common

  datatype Event = Event(kind: string, name: string, pid: int, exitCode: int, message: string)

  // ---------- the queue ----------

  class EventQueue {
    const cap: nat
    var events: seq<Event>
    var closed: bool

    ghost predicate Valid()
      reads this
    {
      cap >= 1 && |events| <= cap
    }

    constructor (capacity: int)
      ensures Valid() && events == [] && !closed && cap == if capacity < 1 then 1 else capacity
    {
      cap := if capacity < 1 then 1 else capacity;
      events, closed := [], false;
    }

    /** Adds an event; a full queue drops its oldest one. */
    method Push(e: Event)
      requires Valid()
      modifies this
      ensures Valid() && closed == old(closed)
      ensures events == (if |old(events)| == cap then old(events)[1..] else old(events)) + [e]
    {
      if |events| >= cap {
        events := events[1..] + [e];
      } else {
        events := events + [e];
      }
    }

    /** The first event, which stays queued; nothing only from a closed, empty queue. */
    method Pop() returns (e: Option<Event>)
      requires Valid() && (events != [] || closed)
      ensures e.Some? <==> events != []
      ensures e.Some? ==> e.value == events[0]
    {
      if closed && |events| == 0 {
        return None;
      }
      return Some(events[0]);
    }

    method RemoveFirst()
      requires Valid()
      modifies this
      ensures Valid() && closed == old(closed)
      ensures events == if old(events) == [] then [] else old(events)[1..]
    {
      if |events| > 0 {
        events := events[1..];
      }
    }

    method Close()
      requires Valid()
      modifies this
      ensures Valid() && closed && events == old(events)
    {
      closed := true;
    }
  }

  // ---------- the protocol as a machine ----------

  /** Where the loop stands: reading a line, waiting for an event, or reading the result of one. */
  datatype Phase = WaitReady | WaitEvent | WaitResult(index: nat) | Stopped

  /**
   Events are known by their index in the push history; the queue holds the
   history from `off` on. `evicted` and `removed` tell why earlier ones left.
   */
  datatype State = State(
    history: seq<Event>, off: nat, closed: bool, phase: Phase,
    sent: seq<nat>, okayed: set<nat>, evicted: set<nat>, removed: set<nat>)

  const START := State([], 0, false, WaitReady, [], {}, {}, {})

  datatype Step =
    | Push(e: Event)
    | Close
    | Line(text: string)
    | Send
    | Drained
    | Reply(payload: string)
    | Broken

  ghost predicate Enabled(s: State, step: Step) {
    match step
    case Push(_) => true
    case Close => true
    case Line(_) => s.phase == WaitReady
    case Send => s.phase == WaitEvent && s.off < |s.history|
    case Drained => s.phase == WaitEvent && s.closed && s.off == |s.history|
    case Reply(_) => s.phase.WaitResult?
    case Broken => s.phase != WaitEvent && s.phase != Stopped
  }

  function Apply(cap: nat, s: State, step: Step): State {
    match step
    case Push(e) =>
      var t := s.(history := s.history + [e]);
      if |s.history| - s.off >= cap then t.(off := s.off + 1, evicted := s.evicted + {s.off}) else t
    case Close => s.(closed := true)
    case Line(text) => if text == "READY" then s.(phase := WaitEvent) else s
    case Send => s.(phase := WaitResult(s.off), sent := s.sent + [s.off])
    case Drained => s.(phase := Stopped)
    case Reply(payload) =>
      if payload == "OK" && s.phase.WaitResult? then
        s.(phase := WaitReady, off := s.off + 1, okayed := s.okayed + {s.phase.index}, removed := s.removed + {s.off})
      else
        s.(phase := WaitReady)
    case Broken => s.(phase := Stopped)
  }

  ghost function Init(steps: seq<Step>): seq<Step>
    requires steps != []
  {
    steps[..|steps| - 1]
  }

  /** The steps form a run: pushes and the one protocol loop, interleaved at will. */
  ghost predicate Possible(cap: nat, steps: seq<Step>)
    decreases |steps|, 0
  {
    steps == [] || (Possible(cap, Init(steps)) && Enabled(After(cap, Init(steps)), steps[|steps| - 1]))
  }

  ghost function After(cap: nat, steps: seq<Step>): State
    requires Possible(cap, steps)
    decreases |steps|, 1
  {
    if steps == [] then START else Apply(cap, After(cap, Init(steps)), steps[|steps| - 1])
  }

  // ---------- what every run keeps ----------

  /** The queue is a short suffix of the history, and every event that left did so for one reason. */
  ghost predicate Accounted(cap: nat, s: State) {
    && s.off <= |s.history| <= s.off + cap
    && s.evicted !! s.removed
    && (forall i :: i in s.evicted || i in s.removed <==> 0 <= i < s.off)
  }

  /** Sending never goes back, and never repeats an event that was answered OK. */
  ghost predicate Forward(s: State) {
    && (forall j, k :: 0 <= j < k < |s.sent| ==> s.sent[j] <= s.sent[k])
    && (forall i :: i in s.sent ==> i <= s.off)
    && (forall i :: i in s.okayed ==> i < s.off)
  }

  /** The event sent last is still first in the queue, or was evicted, or was answered OK. */
  ghost predicate LastSentTracked(s: State) {
    && (s.sent != [] ==>
          var i := s.sent[|s.sent| - 1]; i in s.okayed || i in s.evicted || (i == s.off && s.off < |s.history|))
    && (s.phase.WaitResult? ==>
          s.sent != [] && s.sent[|s.sent| - 1] == s.phase.index && s.off < |s.history| && s.phase.index !in s.okayed)
  }

  /** While a result is awaited the queue only loses events when it is full. */
  ghost predicate FullWhenEvicting(cap: nat, s: State) {
    s.phase.WaitResult? && s.off > s.phase.index ==> |s.history| == s.off + cap
  }

  ghost predicate Inv(cap: nat, s: State) {
    cap >= 1 && Accounted(cap, s) && Forward(s) && LastSentTracked(s) && FullWhenEvicting(cap, s)
  }

  lemma StepGoesForward(cap: nat, s: State, step: Step)
    requires Inv(cap, s) && Enabled(s, step)
    ensures Forward(Apply(cap, s, step)) && s.off <= Apply(cap, s, step).off
  {
    var t := Apply(cap, s, step);
    forall i | i in t.sent ensures i <= t.off {
      assert i in s.sent || i == s.off;
    }
  }

  lemma StepTracksLast(cap: nat, s: State, step: Step)
    requires Inv(cap, s) && Enabled(s, step)
    ensures LastSentTracked(Apply(cap, s, step))
  {
    if s.sent != [] {
      assert s.sent[|s.sent| - 1] in s.sent;
    }
  }

  lemma StepKeepsInv(cap: nat, s: State, step: Step)
    requires Inv(cap, s) && Enabled(s, step)
    ensures Inv(cap, Apply(cap, s, step))
  {
    StepGoesForward(cap, s, step);
    StepTracksLast(cap, s, step);
  }

  lemma {:induction false} RunKeepsInv(cap: nat, steps: seq<Step>)
    requires cap >= 1 && Possible(cap, steps)
    ensures Inv(cap, After(cap, steps))
  {
    if steps != [] {
      var s := After(cap, Init(steps));
      RunKeepsInv(cap, Init(steps));
      StepKeepsInv(cap, s, steps[|steps| - 1]);
    }
  }

  lemma {:induction false} IntervalSize(s: set<nat>, n: nat)
    requires forall i :: i in s <==> 0 <= i < n
    ensures |s| == n
  {
    if n > 0 {
      IntervalSize(s - {n - 1}, n - 1);
    } else {
      assert s == {};
    }
  }

  /** Pushed events are queued, evicted, or removed on an OK, and nothing else; at most `cap` are queued. */
  lemma PushedIsAccountedFor(cap: nat, steps: seq<Step>)
    requires cap >= 1 && Possible(cap, steps)
    ensures var s := After(cap, steps);
            && s.off <= |s.history| && |s.history[s.off..]| <= cap
            && |s.history| == |s.history[s.off..]| + |s.evicted| + |s.removed|
  {
    var s := After(cap, steps);
    RunKeepsInv(cap, steps);
    IntervalSize(s.evicted + s.removed, s.off);
    assert |s.evicted + s.removed| == |s.evicted| + |s.removed|;
  }

  /** The history index sent next is never smaller than one sent before, and was never answered OK. */
  lemma NextSendIsNew(cap: nat, steps: seq<Step>)
    requires cap >= 1 && Possible(cap, steps) && Enabled(After(cap, steps), Send)
    ensures var s := After(cap, steps);
            var i := Apply(cap, s, Send).phase.index;
            && !AnsweredOk(cap, steps, i) && (forall j :: j in s.sent ==> j <= i)
            && i !in s.evicted && i !in s.removed
  {
    AcknowledgedIffOk(cap, steps, After(cap, steps).off);
    RunKeepsInv(cap, steps);
  }

  /** At some step the answer to this event was read, and it was OK. */
  ghost predicate AnsweredOk(cap: nat, steps: seq<Step>, index: nat)
    requires Possible(cap, steps)
    decreases |steps|
  {
    steps != [] &&
    (AnsweredOk(cap, Init(steps), index)
     || (steps[|steps| - 1] == Reply("OK") && After(cap, Init(steps)).phase == WaitResult(index)))
  }

  /** Exactly the events that were answered OK are acknowledged. */
  lemma {:induction false} AcknowledgedIffOk(cap: nat, steps: seq<Step>, index: nat)
    requires Possible(cap, steps)
    ensures index in After(cap, steps).okayed <==> AnsweredOk(cap, steps, index)
  {
    if steps != [] {
      AcknowledgedIffOk(cap, Init(steps), index);
    }
  }

  /** Any other answer removes nothing, and the loop waits for the next READY. */
  lemma OtherAnswersRemoveNothing(cap: nat, steps: seq<Step>, payload: string)
    requires Possible(cap, steps) && After(cap, steps).phase.WaitResult? && payload != "OK"
    ensures After(cap, steps).(phase := WaitReady) == Apply(cap, After(cap, steps), Reply(payload))
  {
  }

  ghost function Readies(steps: seq<Step>): nat {
    if steps == [] then 0 else Readies(Init(steps)) + (if steps[|steps| - 1] == Line("READY") then 1 else 0)
  }

  /** Every send answers one READY, and other lines lead to none. */
  lemma {:induction false} OneSendForEachReady(cap: nat, steps: seq<Step>)
    requires Possible(cap, steps)
    ensures var s := After(cap, steps);
            && |s.sent| <= Readies(steps) <= |s.sent| + 1
            && (s.phase == WaitReady || s.phase.WaitResult? ==> Readies(steps) == |s.sent|)
            && (s.phase == WaitEvent ==> Readies(steps) == |s.sent| + 1)
  {
    if steps != [] {
      OneSendForEachReady(cap, Init(steps));
    }
  }

  /** An event not answered OK is the next one sent, unless it was evicted. */
  lemma RetriedUnlessEvicted(cap: nat, steps: seq<Step>)
    requires cap >= 1 && Possible(cap, steps) && Enabled(After(cap, steps), Send)
    requires After(cap, steps).sent != []
    ensures var s := After(cap, steps);
            var last := s.sent[|s.sent| - 1];
            !AnsweredOk(cap, steps, last) ==> (Apply(cap, s, Send).phase.index == last <==> last !in s.evicted)
  {
    AcknowledgedIffOk(cap, steps, After(cap, steps).sent[|After(cap, steps).sent| - 1]);
    RunKeepsInv(cap, steps);
  }

  /**
   An OK removes the event it answers exactly when that event was not evicted
   meanwhile, that is when no more events were pushed after it than the queue
   still had room for; otherwise it removes one that was never sent.
   */
  lemma OkRemovesAnswered(cap: nat, steps: seq<Step>)
    requires cap >= 1 && Possible(cap, steps) && After(cap, steps).phase.WaitResult?
    ensures var s := After(cap, steps);
            var t := Apply(cap, s, Reply("OK"));
            && t.removed - s.removed == {s.off}
            && (s.off == s.phase.index <==> s.phase.index !in s.evicted)
            && (s.phase.index in s.evicted <==> |s.history| > s.phase.index + cap)
            && (s.phase.index in s.evicted ==> s.off !in s.sent)
  {
    RunKeepsInv(cap, steps);
  }

  ghost function Pushes(e: Event, n: nat): seq<Step> {
    if n == 0 then [] else Pushes(e, n - 1) + [Push(e)]
  }

  /** One event is sent, and others are pushed before it is answered. */
  ghost function SentThenPushed(a: Event, b: Event, n: nat): seq<Step> {
    [Push(a), Line("READY"), Send] + Pushes(b, n)
  }

  lemma FirstIsSent(cap: nat, a: Event)
    requires cap >= 1
    ensures var steps := [Push(a), Line("READY"), Send];
            Possible(cap, steps) && After(cap, steps) == State([a], 0, false, WaitResult(0), [0], {}, {}, {})
  {
    var p: seq<Step> := [];
    Extend(cap, p, Push(a));
    p := p + [Push(a)];
    Extend(cap, p, Line("READY"));
    p := p + [Line("READY")];
    Extend(cap, p, Send);
    p := p + [Send];
    assert p == [Push(a), Line("READY"), Send];
  }

  lemma {:induction false} ThenPushed(cap: nat, a: Event, b: Event, n: nat)
    requires cap >= 1 && n <= cap
    ensures Possible(cap, SentThenPushed(a, b, n))
    ensures var s := After(cap, SentThenPushed(a, b, n));
            && |s.history| == n + 1 && s.phase == WaitResult(0) && s.sent == [0] && s.removed == {}
            && s.off == if n < cap then 0 else 1
  {
    if n == 0 {
      FirstIsSent(cap, a);
      assert SentThenPushed(a, b, 0) == [Push(a), Line("READY"), Send];
    } else {
      ThenPushed(cap, a, b, n - 1);
      Extend(cap, SentThenPushed(a, b, n - 1), Push(b));
      assert SentThenPushed(a, b, n) == SentThenPushed(a, b, n - 1) + [Push(b)];
    }
  }

  /** Whatever the room, as many pushes during delivery make the OK discard an event that was never sent. */
  lemma LostEventWitness(cap: nat, a: Event, b: Event)
    requires cap >= 1
    ensures var steps := SentThenPushed(a, b, cap) + [Reply("OK")];
            Possible(cap, steps) && 1 in After(cap, steps).removed && 1 !in After(cap, steps).sent
  {
    ThenPushed(cap, a, b, cap);
    Extend(cap, SentThenPushed(a, b, cap), Reply("OK"));
  }

  lemma Extend(cap: nat, steps: seq<Step>, step: Step)
    requires Possible(cap, steps) && Enabled(After(cap, steps), step)
    ensures Possible(cap, steps + [step]) && After(cap, steps + [step]) == Apply(cap, After(cap, steps), step)
  {
    assert Init(steps + [step]) == steps;
  }

  // ---------- the loop on a real queue ----------

  /** The place in the loop, without the history index the loop does not know. */
  datatype Place = AtReady | AtEvent | AtResult | AtEnd

  function PlaceOf(p: Phase): Place {
    match p
    case WaitReady => AtReady
    case WaitEvent => AtEvent
    case WaitResult(_) => AtResult
    case Stopped => AtEnd
  }

  class Listener {
    const queue: EventQueue
    var place: Place
    ghost var model: State

    /** The queue and the loop are what the machine says they are. */
    ghost predicate Valid()
      reads this, queue
    {
      && queue.Valid() && Inv(queue.cap, model)
      && queue.events == model.history[model.off..] && queue.closed == model.closed
      && place == PlaceOf(model.phase)
    }

    constructor (capacity: int)
      ensures Valid() && fresh(queue) && model == START
    {
      queue := new EventQueue(capacity);
      place := AtReady;
      model := START;
    }

    /** An event arrives from the supervisor. */
    method Emit(e: Event)
      requires Valid()
      modifies this, queue
      ensures Valid() && model == Apply(queue.cap, old(model), Push(e))
    {
      StepKeepsInv(queue.cap, model, Push(e));
      queue.Push(e);
      model := Apply(queue.cap, model, Push(e));
    }

    /** The loop reads a line and waits on for READY. */
    method ReadLine(text: string)
      requires Valid() && place == AtReady
      modifies this
      ensures Valid() && model == Apply(queue.cap, old(model), Line(text))
    {
      if text == "READY" {
        place := AtEvent;
      }
      model := Apply(queue.cap, model, Line(text));
    }

    /** The loop takes the first event, if any, and writes it to the child. */
    method SendNext() returns (e: Option<Event>)
      requires Valid() && place == AtEvent && (queue.events != [] || queue.closed)
      modifies this
      ensures Valid() && model == Apply(queue.cap, old(model), if e.Some? then Send else Drained)
      ensures e.Some? ==> e.value == model.history[model.phase.index]
    {
      e := queue.Pop();
      if e.None? {
        place := AtEnd;
        model := Apply(queue.cap, model, Drained);
        return;
      }
      StepKeepsInv(queue.cap, model, Send);
      place := AtResult;
      model := Apply(queue.cap, model, Send);
    }

    /** The loop reads the result and removes the first event on OK. */
    method ReadResult(payload: string)
      requires Valid() && place == AtResult
      modifies this, queue
      ensures Valid() && model == Apply(queue.cap, old(model), Reply(payload))
    {
      StepKeepsInv(queue.cap, model, Reply(payload));
      if payload == "OK" {
        queue.RemoveFirst();
      }
      place := AtReady;
      model := Apply(queue.cap, model, Reply(payload));
    }
  }
}
