/** The byte counter that decides when a log file is rotated. */
module LogCounter {

  /** The fixed settings of a counting writer; rotation is off without a positive size and a callback. */
  datatype Limits = Limits(maxSize: int, hasCallback: bool) {
    predicate Rotates() {
      maxSize > 0 && hasCallback
    }
  }

  lemma DivideExactly(bytes: int, size: int, q: int)
    requires size > 0
    ensures bytes / size == q <==> size * q <= bytes < size * q + size
  {
    QuotientBounds(size, q, bytes);
  }

  lemma Scaled(size: int, a: int, b: int)
    requires size > 0 && a <= b
    ensures size * a <= size * b
  {
  }

  // ---------- one writer ----------

  class CountingWriter {
    const limits: Limits
    var bytesWritten: int
    /** Bytes accepted so far, and how often rotation was asked for. */
    ghost var accepted: nat
    ghost var triggers: nat

    ghost predicate Valid()
      reads this
    {
      && bytesWritten >= 0
      && accepted == bytesWritten + if limits.Rotates() then limits.maxSize * triggers else 0
    }

    constructor (limits: Limits)
      ensures Valid() && this.limits == limits && bytesWritten == 0 && accepted == 0 && triggers == 0
    {
      this.limits := limits;
      bytesWritten, accepted, triggers := 0, 0, 0;
    }

    /** Counts `n` bytes the underlying writer took; `rotate` says whether the callback ran. */
    method Write(n: nat) returns (rotate: bool)
      requires Valid()
      modifies this
      ensures Valid() && accepted == old(accepted) + n
      ensures triggers == old(triggers) + if rotate then 1 else 0
      ensures rotate <==> limits.Rotates() && old(bytesWritten) + n >= limits.maxSize
      ensures limits.Rotates() && n <= limits.maxSize && old(bytesWritten) < limits.maxSize ==>
                bytesWritten < limits.maxSize
    {
      bytesWritten := bytesWritten + n;
      accepted := accepted + n;
      var total := bytesWritten;
      rotate := false;
      if limits.maxSize > 0 && total >= limits.maxSize && limits.hasCallback {
        bytesWritten := bytesWritten - limits.maxSize;
        if bytesWritten >= 0 {
          triggers := triggers + 1;
          rotate := true;
        }
      }
    }
  }

  /** For one writer the number of rotations is exact as soon as the counter is below the limit. */
  lemma TriggersExact(w: CountingWriter)
    requires w.Valid() && w.limits.Rotates()
    ensures w.triggers == w.accepted / w.limits.maxSize <==> w.bytesWritten < w.limits.maxSize
  {
    DivideExactly(w.accepted, w.limits.maxSize, w.triggers);
  }

  function Sum(writes: seq<nat>): nat {
    if writes == [] then 0 else Sum(writes[..|writes| - 1]) + writes[|writes| - 1]
  }

  /** One writer, whose writes are no larger than the limit, rotates exactly once for every full limit. */
  method WriteAll(limits: Limits, writes: seq<nat>) returns (w: CountingWriter, rotations: nat)
    requires limits.Rotates() && forall i :: 0 <= i < |writes| ==> writes[i] <= limits.maxSize
    ensures rotations == Sum(writes) / limits.maxSize
    ensures w.Valid() && w.accepted == Sum(writes) && w.triggers == rotations
  {
    w := new CountingWriter(limits);
    rotations := 0;
    for i := 0 to |writes|
      invariant w.Valid() && w.limits == limits && w.bytesWritten < limits.maxSize
      invariant w.accepted == Sum(writes[..i]) && w.triggers == rotations
    {
      assert writes[..i + 1][..i] == writes[..i];
      var rotate := w.Write(writes[i]);
      if rotate {
        rotations := rotations + 1;
      }
    }
    assert writes[..|writes|] == writes;
    TriggersExact(w);
  }

  // ---------- any number of writers ----------

  /**
   The shared counter with the writers that have added their bytes and not yet
   tested the total they saw. Each atomic operation on the counter is one step.
   */
  datatype State = State(counter: int, accepted: nat, subtractions: nat, triggers: nat, seen: map<nat, int>)

  const START := State(0, 0, 0, 0, map[])

  datatype Step = Add(writer: nat, n: nat) | Test(writer: nat)

  ghost predicate Enabled(s: State, step: Step) {
    if step.Add? then step.writer !in s.seen else step.writer in s.seen
  }

  function Apply(limits: Limits, s: State, step: Step): State
    requires Enabled(s, step)
  {
    match step
    case Add(w, n) =>
      State(s.counter + n, s.accepted + n, s.subtractions, s.triggers, s.seen[w := s.counter + n])
    case Test(w) =>
      if limits.Rotates() && s.seen[w] >= limits.maxSize then
        var counter := s.counter - limits.maxSize;
        State(counter, s.accepted, s.subtractions + 1, if counter >= 0 then s.triggers + 1 else s.triggers, s.seen - {w})
      else
        s.(seen := s.seen - {w})
  }

  /** The steps can be taken one after the other from the start. */
  ghost predicate Possible(limits: Limits, steps: seq<Step>)
    decreases |steps|, 0
  {
    steps == [] || (Possible(limits, Init(steps)) && Enabled(After(limits, Init(steps)), steps[|steps| - 1]))
  }

  ghost function Init(steps: seq<Step>): seq<Step>
    requires steps != []
  {
    steps[..|steps| - 1]
  }

  /** The state an interleaving leads to; every reachable state is one of these. */
  ghost function After(limits: Limits, steps: seq<Step>): State
    requires Possible(limits, steps)
    decreases |steps|, 1
  {
    if steps == [] then START else Apply(limits, After(limits, Init(steps)), steps[|steps| - 1])
  }

  /** Nothing is lost or counted twice, and rotations are covered by accepted bytes. */
  ghost predicate Conserved(limits: Limits, s: State) {
    && s.accepted == s.counter + limits.maxSize * s.subtractions
    && s.triggers <= s.subtractions
    && limits.maxSize * s.triggers <= s.accepted
  }

  lemma StepConserves(limits: Limits, s: State, step: Step)
    requires limits.Rotates() && Enabled(s, step) && Conserved(limits, s)
    ensures Conserved(limits, Apply(limits, s, step))
  {
    var s' := Apply(limits, s, step);
    assert limits.maxSize * (s.subtractions + 1) == limits.maxSize * s.subtractions + limits.maxSize;
    if s'.triggers > s.triggers {
      Scaled(limits.maxSize, s'.triggers, s'.subtractions);
    }
  }

  lemma QuotientBounds(size: int, q: int, bytes: int)
    requires size > 0
    ensures size * q <= bytes ==> q <= bytes / size
    ensures bytes < size * q + size ==> bytes / size <= q
  {
    var d := bytes / size;
    assert size * d <= bytes < size * d + size;
    if d < q {
      Scaled(size, d + 1, q);
    } else if q < d {
      Scaled(size, q + 1, d);
    }
  }

  /** In every interleaving, bytes are conserved and rotations never exceed bytes divided by the limit. */
  lemma {:induction false} RunConserves(limits: Limits, steps: seq<Step>)
    requires limits.Rotates() && Possible(limits, steps)
    ensures Conserved(limits, After(limits, steps))
    ensures After(limits, steps).triggers <= After(limits, steps).accepted / limits.maxSize
  {
    if steps != [] {
      RunConserves(limits, Init(steps));
      StepConserves(limits, After(limits, Init(steps)), steps[|steps| - 1]);
    }
    QuotientBounds(limits.maxSize, After(limits, steps).triggers, After(limits, steps).accepted);
  }

  /** The writers that saw a total at or above the limit and still have to subtract. */
  ghost function Owing(limits: Limits, s: State): set<nat> {
    set w | w in s.seen && s.seen[w] >= limits.maxSize
  }

  ghost predicate Settled(limits: Limits, s: State) {
    s.counter - limits.maxSize * |Owing(limits, s)| < limits.maxSize
  }

  lemma StepSettles(limits: Limits, s: State, step: Step)
    requires limits.Rotates() && Enabled(s, step) && Settled(limits, s)
    requires step.Add? ==> step.n <= limits.maxSize
    ensures Settled(limits, Apply(limits, s, step))
  {
    var s' := Apply(limits, s, step);
    var m := limits.maxSize;
    var k := |Owing(limits, s)|;
    Scaled(m, 0, k);
    match step
    case Add(w, n) =>
      if s'.counter >= m {
        assert Owing(limits, s') == Owing(limits, s) + {w};
        assert m * (k + 1) == m * k + m;
      } else {
        assert Owing(limits, s') == Owing(limits, s);
      }
    case Test(w) =>
      if s.seen[w] >= m {
        assert Owing(limits, s') == Owing(limits, s) - {w};
        assert m * (k - 1) == m * k - m;
      } else {
        assert Owing(limits, s') == Owing(limits, s);
      }
  }

  lemma {:induction false} RunSettles(limits: Limits, steps: seq<Step>)
    requires limits.Rotates() && Possible(limits, steps)
    requires forall step :: step in steps && step.Add? ==> step.n <= limits.maxSize
    ensures Settled(limits, After(limits, steps))
  {
    if steps != [] {
      RunSettles(limits, Init(steps));
      StepSettles(limits, After(limits, Init(steps)), steps[|steps| - 1]);
    } else {
      assert Owing(limits, START) == {};
    }
  }

  /** Once every writer is through, writes of at most the limit leave no whole limit unsubtracted. */
  lemma QuietRunSubtractsAll(limits: Limits, steps: seq<Step>)
    requires limits.Rotates() && Possible(limits, steps)
    requires forall step :: step in steps && step.Add? ==> step.n <= limits.maxSize
    requires After(limits, steps).seen == map[]
    ensures After(limits, steps).accepted / limits.maxSize <= After(limits, steps).subtractions
  {
    var last := After(limits, steps);
    RunConserves(limits, steps);
    RunSettles(limits, steps);
    assert Owing(limits, last) == {};
    QuotientBounds(limits.maxSize, last.subtractions, last.accepted);
  }

  // ---------- writers that take turns ----------

  /** No writer adds its bytes while another has still to test. */
  ghost predicate TakingTurns(limits: Limits, steps: seq<Step>)
    requires Possible(limits, steps)
    decreases |steps|
  {
    steps != [] ==>
      TakingTurns(limits, Init(steps)) && (steps[|steps| - 1].Add? ==> After(limits, Init(steps)).seen == map[])
  }

  /** At most one writer is under way, and it saw the counter as it is. */
  ghost predicate InTurn(limits: Limits, s: State) {
    && s.triggers == s.subtractions && s.counter >= 0
    && (s.seen == map[] ==> s.counter < limits.maxSize)
    && (s.seen != map[] ==> exists w :: s.seen == map[w := s.counter] && s.counter < 2 * limits.maxSize)
  }

  lemma StepInTurn(limits: Limits, s: State, step: Step)
    requires limits.Rotates() && Enabled(s, step) && InTurn(limits, s)
    requires step.Add? ==> step.n <= limits.maxSize && s.seen == map[]
    ensures InTurn(limits, Apply(limits, s, step))
  {
    var t := Apply(limits, s, step);
    if step.Add? {
      assert t.seen == map[step.writer := t.counter];
    } else {
      var w :| s.seen == map[w := s.counter] && s.counter < 2 * limits.maxSize;
      assert step.writer == w;
      assert t.seen == map[];
    }
  }

  lemma {:induction false} RunInTurn(limits: Limits, steps: seq<Step>)
    requires limits.Rotates() && Possible(limits, steps) && TakingTurns(limits, steps)
    requires forall step :: step in steps && step.Add? ==> step.n <= limits.maxSize
    ensures InTurn(limits, After(limits, steps))
  {
    if steps != [] {
      RunInTurn(limits, Init(steps));
      StepInTurn(limits, After(limits, Init(steps)), steps[|steps| - 1]);
    }
  }

  /** Writers that take turns rotate exactly as one writer does. */
  lemma TurnsTriggerExactly(limits: Limits, steps: seq<Step>)
    requires limits.Rotates() && Possible(limits, steps) && TakingTurns(limits, steps)
    requires forall step :: step in steps && step.Add? ==> step.n <= limits.maxSize
    requires After(limits, steps).seen == map[]
    ensures After(limits, steps).triggers == After(limits, steps).accepted / limits.maxSize
  {
    RunConserves(limits, steps);
    RunInTurn(limits, steps);
    DivideExactly(After(limits, steps).accepted, limits.maxSize, After(limits, steps).triggers);
  }
}
