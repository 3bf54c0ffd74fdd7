/** The start order of all processes: a FIFO Kahn sort whose batches are ordered by priority. */
module DependencySort {
  import opened Common
  import opened Dependencies
  import opened EdgeCounting

  /** The priorities of the processes the manager knows; other names have none. */
  type Priorities = map<Name, int>

  predicate Less(prio: Priorities, a: Name, b: Name) {
    a in prio && b in prio && prio[a] < prio[b]
  }

  ghost predicate Known(prio: Priorities, s: seq<Name>) {
    forall n :: n in s ==> n in prio
  }

  ghost predicate SortedByPriority(prio: Priorities, s: seq<Name>) {
    Known(prio, s) ==> forall i, j :: 0 <= i < j < |s| ==> prio[s[i]] <= prio[s[j]]
  }

  /**
   Orders names by priority. Nothing is promised about names of equal priority,
   nor about a list that holds a name without priority.
   */
  method SortByPriority(names: seq<Name>, prio: Priorities) returns (r: seq<Name>)
    ensures multiset(r) == multiset(names)
    ensures SortedByPriority(prio, r)
  {
    r := [];
    for i := 0 to |names|
      invariant multiset(r) == multiset(names[..i])
      invariant SortedByPriority(prio, r)
    {
      var x := names[i];
      var k := |r|;
      while k > 0 && Less(prio, x, r[k - 1])
        invariant 0 <= k <= |r|
        invariant forall j :: k <= j < |r| ==> Less(prio, x, r[j])
      {
        k := k - 1;
      }
      assert names[..i + 1] == names[..i] + [x];
      InsertKeepsSorted(prio, r, k, x);
      assert r == r[..k] + r[k..];
      r := r[..k] + [x] + r[k..];
    }
    assert names[..|names|] == names;
  }

  lemma InsertKeepsSorted(prio: Priorities, r: seq<Name>, k: nat, x: Name)
    requires k <= |r| && SortedByPriority(prio, r)
    requires k > 0 ==> !Less(prio, x, r[k - 1])
    requires forall j :: k <= j < |r| ==> Less(prio, x, r[j])
    ensures SortedByPriority(prio, r[..k] + [x] + r[k..])
  {
    if Known(prio, r[..k] + [x] + r[k..]) {
      InsertKnown(prio, r, k, x);
      forall i, j | 0 <= i < j <= |r| ensures prio[(r[..k] + [x] + r[k..])[i]] <= prio[(r[..k] + [x] + r[k..])[j]] {
        InsertOrdered(prio, r, k, x, i, j);
      }
    }
  }

  lemma InsertKnown(prio: Priorities, r: seq<Name>, k: nat, x: Name)
    requires k <= |r| && Known(prio, r[..k] + [x] + r[k..])
    ensures Known(prio, r) && x in prio
  {
    assert (r[..k] + [x] + r[k..])[k] == x;
    forall n | n in r ensures n in prio {
      InsertMember(r, k, x, n);
    }
  }

  lemma InsertOrdered(prio: Priorities, r: seq<Name>, k: nat, x: Name, i: nat, j: nat)
    requires k <= |r| && i < j <= |r| && x in prio && Known(prio, r) && SortedByPriority(prio, r)
    requires k > 0 ==> prio[r[k - 1]] <= prio[x]
    requires forall j :: k <= j < |r| ==> prio[x] < prio[r[j]]
    ensures var s := r[..k] + [x] + r[k..]; s[i] in prio && s[j] in prio && prio[s[i]] <= prio[s[j]]
  {
    InsertAt(r, k, x, i);
    InsertAt(r, k, x, j);
    if i < k == j {
      assert prio[r[i]] <= prio[r[k - 1]];
    }
  }

  lemma InsertMember(r: seq<Name>, k: nat, x: Name, n: Name)
    requires k <= |r| && n in r
    ensures n in r[..k] + [x] + r[k..]
  {
    assert r == r[..k] + r[k..];
  }

  lemma InsertAt(r: seq<Name>, k: nat, x: Name, j: nat)
    requires k <= |r| && j <= |r|
    ensures (r[..k] + [x] + r[k..])[j] == if j < k then r[j] else if j == k then x else r[j - 1]
  {
  }

  // ---------- the order the sort promises ----------

  /** The last dependency of `n` in `r` stands at index `k`; `k` is -1 when `n` has none. */
  ghost predicate ReleasedAt(g: Graph, r: seq<Name>, n: Name, k: int) {
    if k == -1 then Deps(g, n) == []
    else 0 <= k < |r| && r[k] in Deps(g, n) && forall d :: d in Deps(g, n) ==> d in r[..k + 1]
  }

  /** Earlier released comes first; within one batch, lower priority value comes first. */
  ghost predicate Before(prio: Priorities, rel: map<Name, int>, a: Name, b: Name)
    requires a in rel && b in rel
  {
    rel[a] < rel[b] || (rel[a] == rel[b] && (a in prio && b in prio ==> prio[a] <= prio[b]))
  }

  /** `rel` gives the release index of every name of `r`, and `r` follows it first in, first out. */
  ghost predicate Fifo(g: Graph, prio: Priorities, r: seq<Name>, rel: map<Name, int>) {
    && (forall i :: 0 <= i < |r| ==> r[i] in rel && rel[r[i]] < i && ReleasedAt(g, r, r[i], rel[r[i]]))
    && (forall i, j :: 0 <= i < j < |r| ==> rel[r[i]] <= rel[r[j]])
    && (forall i, j :: 0 <= i < j < |r| && Nodes(g) <= prio.Keys ==> Before(prio, rel, r[i], r[j]))
  }

  // ---------- the sort ----------

  ghost predicate Ranked(g: Graph, done: seq<Name>, all: seq<Name>, rel: map<Name, int>) {
    forall i :: 0 <= i < |all| ==>
                  all[i] in rel && rel[all[i]] < i && rel[all[i]] < |done| && ReleasedAt(g, done, all[i], rel[all[i]])
  }

  ghost predicate InOrder(known: bool, prio: Priorities, all: seq<Name>, rel: map<Name, int>)
    requires forall n :: n in all ==> n in rel
  {
    && (forall i, j :: 0 <= i < j < |all| ==> rel[all[i]] <= rel[all[j]])
    && (forall i, j :: 0 <= i < j < |all| && known ==> Before(prio, rel, all[i], all[j]))
  }

  ghost function Stamp(rel: map<Name, int>, batch: seq<Name>, k: int): map<Name, int> {
    rel + map n | n in batch :: k
  }

  ghost predicate Progress(g: Graph, prio: Priorities, done: seq<Name>, queue: seq<Name>, rel: map<Name, int>) {
    && NoDup(done + queue)
    && Ready(g, Elements(done), done + queue)
    && DepsFirst(g, done)
    && Ranked(g, done, done + queue, rel)
    && InOrder(Nodes(g) <= prio.Keys, prio, done + queue, rel)
  }

  method TopologicalSort(g: Graph, prio: Priorities) returns (r: Option<seq<Name>>)
    ensures r.Some? <==> LengthTestPasses(g)
    ensures r.Some? ==> NoDup(r.value) && Elements(r.value) == GroundedNodes(g)
    ensures r.Some? ==> DepsFirst(g, r.value)
    ensures r.Some? ==> exists rel :: Fifo(g, prio, r.value, rel)
  {
    var inDegree, dependents := CountEdges(g);
    var queue := ZeroDegree(g, inDegree);
    queue := SortQueue(queue, prio);
    var result: seq<Name> := [];
    ghost var rel := Stamp(map[], queue, -1);
    StartProgress(g, prio, queue, rel);
    assert Elements(result) == {};
    while queue != []
      invariant Counts(g, inDegree, Elements(result))
      invariant Progress(g, prio, result, queue, rel)
      decreases Nodes(g) - Elements(result)
    {
      var current := queue[0];
      ghost var done, waiting, before := result, queue, inDegree;
      HeadIsNew(g, prio, done, waiting, rel);
      queue := queue[1..];
      result := result + [current];
      var batch;
      inDegree, batch := Release(g, current, dependents[current], inDegree, Elements(done));
      batch := SortQueue(batch, prio);
      StepProgress(g, prio, done, waiting, rel, batch);
      rel := Stamp(rel, batch, |done|);
      queue := queue + batch;
    }
    Finished(g, prio, result, rel);
    NoDupSize(result);
    if |result| != |g| {
      return None;
    }
    return Some(result);
  }

  /** The nodes without unmet dependencies, collected in an arbitrary order. */
  method ZeroDegree(g: Graph, inDegree: map<Name, int>) returns (queue: seq<Name>)
    requires Counts(g, inDegree, {})
    ensures NoDup(queue)
    ensures forall n :: n in queue <==> n in inDegree && inDegree[n] == 0
  {
    queue := [];
    var todo := inDegree.Keys;
    while todo != {}
      invariant todo <= inDegree.Keys && NoDup(queue)
      invariant forall n :: n in queue <==> n in inDegree && n !in todo && inDegree[n] == 0
    {
      var n :| n in todo;
      todo := todo - {n};
      if inDegree[n] == 0 {
        NoDupAppend(queue, n);
        queue := queue + [n];
      }
    }
  }

  /** A list of distinct names, sorted by priority. */
  method SortQueue(names: seq<Name>, prio: Priorities) returns (r: seq<Name>)
    requires NoDup(names)
    ensures NoDup(r) && SortedByPriority(prio, r)
    ensures forall n :: n in r <==> n in names
  {
    r := SortByPriority(names, prio);
    PermutationFacts(names, r);
    assert forall n :: n in r <==> n in Elements(r);
    assert forall n :: n in names <==> n in Elements(names);
  }

  lemma StartProgress(g: Graph, prio: Priorities, queue: seq<Name>, rel: map<Name, int>)
    requires NoDup(queue) && SortedByPriority(prio, queue)
    requires Ready(g, {}, queue)
    requires rel == Stamp(map[], queue, -1)
    ensures Progress(g, prio, [], queue, rel)
  {
    var none: seq<Name> := [];
    assert none + queue == queue && Elements(none) == {};
    StartRanked(g, queue, rel);
    StepInOrder(Nodes(g) <= prio.Keys, prio, -1, none, map[], queue);
    Assemble(g, prio, none, queue, queue, rel);
  }

  lemma StartRanked(g: Graph, queue: seq<Name>, rel: map<Name, int>)
    requires forall n :: n in queue ==> Pending(Deps(g, n), {}) == 0
    requires rel == Stamp(map[], queue, -1)
    ensures Ranked(g, [], queue, rel) && DepsFirst(g, [])
  {
    forall n | n in queue ensures Deps(g, n) == [] {
      PendingNone(Deps(g, n));
    }
  }

  lemma Assemble(g: Graph, prio: Priorities, done: seq<Name>, queue: seq<Name>, all: seq<Name>, rel: map<Name, int>)
    requires all == done + queue && NoDup(all) && Ready(g, Elements(done), all) && DepsFirst(g, done)
    requires Ranked(g, done, all, rel) && InOrder(Nodes(g) <= prio.Keys, prio, all, rel)
    ensures Progress(g, prio, done, queue, rel)
  {
  }

  lemma HeadIsNew(g: Graph, prio: Priorities, done: seq<Name>, queue: seq<Name>, rel: map<Name, int>)
    requires queue != [] && Progress(g, prio, done, queue, rel)
    ensures queue[0] !in done && queue[0] in Nodes(g)
    ensures Elements(done + [queue[0]]) == Elements(done) + {queue[0]}
  {
    assert (done + queue)[|done|] == queue[0];
    assert forall i :: 0 <= i < |done| ==> (done + queue)[i] == done[i];
  }

  lemma StepProgress(g: Graph, prio: Priorities, done: seq<Name>, queue: seq<Name>, rel: map<Name, int>,
                     batch: seq<Name>)
    requires queue != [] && Progress(g, prio, done, queue, rel)
    requires Batch(g, Elements(done), queue[0], batch) && SortedByPriority(prio, batch)
    ensures Progress(g, prio, done + [queue[0]], queue[1..] + batch, Stamp(rel, batch, |done|))
  {
    var c := queue[0];
    var all := done + queue;
    HeadIsNew(g, prio, done, queue, rel);
    assert all[|done|] == c;
    Shuffle(done, queue, batch);
    StepReady(g, Elements(done), c, all, batch);
    JoinNoDup(all, batch);
    assert DepsFirst(g, done + [c]) by {
      assert ReleasedAt(g, done, c, rel[c]);
      StepDepsFirst(g, done, c, rel[c]);
    }
    StepRanked(g, done, c, all, rel, batch);
    assert forall n :: n in all ==> n in rel && rel[n] < |done|;
    StepInOrder(Nodes(g) <= prio.Keys, prio, |done|, all, rel, batch);
    Assemble(g, prio, done + [c], queue[1..] + batch, all + batch, Stamp(rel, batch, |done|));
  }

  lemma Shuffle(done: seq<Name>, queue: seq<Name>, batch: seq<Name>)
    requires queue != []
    ensures done + [queue[0]] + (queue[1..] + batch) == done + queue + batch
  {
    assert queue == [queue[0]] + queue[1..];
  }

  lemma StepReady(g: Graph, done: set<Name>, c: Name, all: seq<Name>, batch: seq<Name>)
    requires c !in done && Ready(g, done, all)
    requires Batch(g, done, c, batch)
    ensures Ready(g, done + {c}, all + batch)
    ensures forall n :: n in batch ==> n !in all
  {
    forall n ensures n in all + batch <==> n in Nodes(g) && Pending(Deps(g, n), done + {c}) == 0 {
      PendingStep(Deps(g, n), done, c);
      assert n in all + batch <==> n in all || n in batch;
    }
  }

  lemma StepDepsFirst(g: Graph, done: seq<Name>, c: Name, k: int)
    requires DepsFirst(g, done) && k < |done| && ReleasedAt(g, done, c, k)
    ensures DepsFirst(g, done + [c])
  {
    forall i, d | 0 <= i < |done + [c]| && d in Deps(g, (done + [c])[i]) ensures d in (done + [c])[..i] {
      assert (done + [c])[..i] == done[..i];
      if i == |done| {
        assert d in done[..k + 1] && done[..i] == done;
      }
    }
  }

  lemma StepRanked(g: Graph, done: seq<Name>, c: Name, all: seq<Name>, rel: map<Name, int>, batch: seq<Name>)
    requires Ranked(g, done, all, rel) && |done| < |all|
    requires Batch(g, Elements(done), c, batch) && forall n :: n in batch ==> n !in all
    ensures Ranked(g, done + [c], all + batch, Stamp(rel, batch, |done|))
  {
    var rel' := Stamp(rel, batch, |done|);
    var all' := all + batch;
    forall i | 0 <= i < |all'|
      ensures all'[i] in rel' && rel'[all'[i]] < i && rel'[all'[i]] <= |done|
      ensures ReleasedAt(g, done + [c], all'[i], rel'[all'[i]])
    {
      var n := all'[i];
      if i < |all| {
        assert n == all[i] && n in all && n !in batch;
        StillReleased(g, done, c, n, rel[n]);
      } else {
        assert n == batch[i - |all|];
        ReleasedByLast(g, done, c, n);
      }
    }
  }

  lemma StepInOrder(known: bool, prio: Priorities, k: int, all: seq<Name>, rel: map<Name, int>, batch: seq<Name>)
    requires forall n :: n in all ==> n in rel && n !in batch && rel[n] < k
    requires InOrder(known, prio, all, rel) && SortedByPriority(prio, batch) && (known ==> Known(prio, batch))
    ensures var rel' := Stamp(rel, batch, k);
            (forall n :: n in all + batch ==> n in rel') && InOrder(known, prio, all + batch, rel')
  {
    var rel' := Stamp(rel, batch, k);
    var all' := all + batch;
    forall i | 0 <= i < |all'|
      ensures all'[i] in rel'
      ensures if i < |all| then all'[i] == all[i] && rel'[all'[i]] == rel[all[i]]
              else all'[i] == batch[i - |all|] && rel'[all'[i]] == k
    {
      assert if i < |all| then all'[i] in all else all'[i] in batch;
    }
    forall i, j | 0 <= i < j < |all'| && known ensures Before(prio, rel', all'[i], all'[j]) {
      if j < |all| {
        assert Before(prio, rel, all[i], all[j]);
      }
    }
  }

  lemma StillReleased(g: Graph, done: seq<Name>, c: Name, n: Name, k: int)
    requires ReleasedAt(g, done, n, k)
    ensures ReleasedAt(g, done + [c], n, k)
  {
    if k != -1 {
      assert (done + [c])[..k + 1] == done[..k + 1];
    }
  }

  lemma ReleasedByLast(g: Graph, done: seq<Name>, c: Name, n: Name)
    requires Pending(Deps(g, n), Elements(done)) > 0 && Pending(Deps(g, n), Elements(done) + {c}) == 0
    ensures ReleasedAt(g, done + [c], n, |done|)
  {
    PendingZero(Deps(g, n), Elements(done));
    PendingZero(Deps(g, n), Elements(done) + {c});
    assert (done + [c])[..|done| + 1] == done + [c];
  }

  lemma Finished(g: Graph, prio: Priorities, result: seq<Name>, rel: map<Name, int>)
    requires Progress(g, prio, result, [], rel)
    ensures NoDup(result) && Fifo(g, prio, result, rel)
    ensures Elements(result) == GroundedNodes(g)
  {
    assert result + [] == result;
    forall i, j | 0 <= i < j < |result| && Nodes(g) <= prio.Keys ensures Before(prio, rel, result[i], result[j]) {
    }
    forall n | n in Nodes(g) && n !in result ensures exists d :: d in Deps(g, n) && d !in result {
      PendingZero(Deps(g, n), Elements(result));
    }
    ExhaustedListIsGroundedNodes(g, result);
  }

  // ---------- what first in, first out implies ----------

  /** The number of releases behind the name at index `i`. */
  ghost function Height(g: Graph, prio: Priorities, r: seq<Name>, rel: map<Name, int>, i: nat): nat
    requires Fifo(g, prio, r, rel) && i < |r|
    decreases i
  {
    if rel[r[i]] == -1 then 0
    else assert ReleasedAt(g, r, r[i], rel[r[i]]); 1 + Height(g, prio, r, rel, rel[r[i]])
  }

  lemma {:induction false} HeightMonotone(g: Graph, prio: Priorities, r: seq<Name>, rel: map<Name, int>, i: nat, j: nat)
    requires Fifo(g, prio, r, rel) && i <= j < |r|
    ensures Height(g, prio, r, rel, i) <= Height(g, prio, r, rel, j)
    decreases j
  {
    assert ReleasedAt(g, r, r[i], rel[r[i]]) && ReleasedAt(g, r, r[j], rel[r[j]]);
    if i < j && rel[r[i]] != -1 {
      HeightMonotone(g, prio, r, rel, rel[r[i]], rel[r[j]]);
    }
  }

  lemma {:induction false} ChainOfHeight(g: Graph, prio: Priorities, r: seq<Name>, rel: map<Name, int>, i: nat)
    returns (p: seq<Name>)
    requires Fifo(g, prio, r, rel) && i < |r|
    ensures IsPath(g, p) && p[0] == r[i] && |p| == Height(g, prio, r, rel, i) + 1
    decreases i
  {
    p := [r[i]];
    if rel[r[i]] != -1 {
      assert ReleasedAt(g, r, r[i], rel[r[i]]);
      var q := ChainOfHeight(g, prio, r, rel, rel[r[i]]);
      p := p + q;
      forall k | 0 < k < |p| ensures Link(g, p, k) {
        assert k > 1 ==> Link(g, q, k - 1);
      }
    }
  }

  lemma {:induction false} NoLongerChain(g: Graph, prio: Priorities, r: seq<Name>, rel: map<Name, int>, i: nat, p: seq<Name>)
    requires Fifo(g, prio, r, rel) && i < |r| && IsPath(g, p) && p[0] == r[i]
    ensures |p| <= Height(g, prio, r, rel, i) + 1
    decreases |p|
  {
    if |p| > 1 {
      assert Link(g, p, 1);
      var last := rel[r[i]];
      assert ReleasedAt(g, r, r[i], last);
      var k :| 0 <= k < last + 1 && r[..last + 1][k] == p[1];
      PathSlice(g, p, 1, |p|);
      NoLongerChain(g, prio, r, rel, k, p[1..|p|]);
      HeightMonotone(g, prio, r, rel, k, last);
    }
  }

  /** The FIFO queue lists the names layer by layer, by the length of their longest dependency chain. */
  lemma FifoIsLayered(g: Graph, prio: Priorities, r: seq<Name>, rel: map<Name, int>)
    requires Fifo(g, prio, r, rel)
    ensures forall i :: 0 <= i < |r| ==> LongestChain(g, r[i], Height(g, prio, r, rel, i))
    ensures forall i, j :: 0 <= i <= j < |r| ==> Height(g, prio, r, rel, i) <= Height(g, prio, r, rel, j)
  {
    forall i | 0 <= i < |r| ensures LongestChain(g, r[i], Height(g, prio, r, rel, i)) {
      var p := ChainOfHeight(g, prio, r, rel, i);
      forall q | IsPath(g, q) && q[0] == r[i] ensures |q| <= Height(g, prio, r, rel, i) + 1 {
        NoLongerChain(g, prio, r, rel, i, q);
      }
    }
    forall i, j | 0 <= i <= j < |r| ensures Height(g, prio, r, rel, i) <= Height(g, prio, r, rel, j) {
      HeightMonotone(g, prio, r, rel, i, j);
    }
  }

  /** The names without dependencies form a prefix, ordered by priority. */
  lemma RootsFirst(g: Graph, prio: Priorities, r: seq<Name>, rel: map<Name, int>, i: nat, j: nat)
    requires Fifo(g, prio, r, rel) && i < j < |r| && Deps(g, r[j]) == []
    ensures Deps(g, r[i]) == []
    ensures Nodes(g) <= prio.Keys && r[i] in Nodes(g) && r[j] in Nodes(g) ==> prio[r[i]] <= prio[r[j]]
  {
    assert ReleasedAt(g, r, r[i], rel[r[i]]) && ReleasedAt(g, r, r[j], rel[r[j]]);
    assert rel[r[i]] <= rel[r[j]];
    if Nodes(g) <= prio.Keys {
      assert Before(prio, rel, r[i], r[j]);
    }
  }
}
