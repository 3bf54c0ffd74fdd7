/** The start order of one process group: a Kahn sort over a queue kept in name order. */
module GroupSort {
  import opened Common
  import opened Dependencies
  import opened EdgeCounting

  datatype Program = Program(group: string, dependsOn: seq<Name>)

  // ---------- names in byte order ----------

  predicate Leq(a: string, b: string) {
    a == [] || (b != [] && (a[0] < b[0] || (a[0] == b[0] && Leq(a[1..], b[1..]))))
  }

  /** In dictionary order: a prefix comes first, and else the smaller of the first characters that differ. */
  ghost predicate NotAfter(a: string, b: string) {
    a <= b || exists i :: 0 <= i < |a| && i < |b| && a[..i] == b[..i] && a[i] < b[i]
  }

  lemma {:induction false} LeqIsNotAfter(a: string, b: string)
    ensures Leq(a, b) ==> NotAfter(a, b)
  {
    if Leq(a, b) && a != [] && a[0] == b[0] {
      LeqIsNotAfter(a[1..], b[1..]);
      if a[1..] <= b[1..] {
        assert a == [a[0]] + a[1..] && b == [a[0]] + b[1..];
      } else {
        var i :| 0 <= i < |a[1..]| && i < |b[1..]| && a[1..][..i] == b[1..][..i] && a[1..][i] < b[1..][i];
        assert a[..i + 1] == [a[0]] + a[1..][..i] && b[..i + 1] == [b[0]] + b[1..][..i];
        assert a[i + 1] < b[i + 1];
      }
    }
  }

  lemma {:induction false} PrefixIsLeq(a: string, b: string)
    requires a <= b
    ensures Leq(a, b)
  {
    if a != [] {
      assert a[0] == b[0];
      PrefixIsLeq(a[1..], b[1..]);
    }
  }

  lemma {:induction false} SmallerIsLeq(a: string, b: string, i: nat)
    requires i < |a| && i < |b| && a[..i] == b[..i] && a[i] < b[i]
    ensures Leq(a, b)
  {
    if i > 0 {
      assert a[0] == a[..i][0] == b[0];
      assert a[1..][..i - 1] == a[..i][1..] == b[1..][..i - 1];
      SmallerIsLeq(a[1..], b[1..], i - 1);
    }
  }

  /** The comparison is dictionary order. */
  lemma LeqMeans(a: string, b: string)
    ensures Leq(a, b) <==> NotAfter(a, b)
  {
    LeqIsNotAfter(a, b);
    if a <= b {
      PrefixIsLeq(a, b);
    } else if NotAfter(a, b) {
      var i :| 0 <= i < |a| && i < |b| && a[..i] == b[..i] && a[i] < b[i];
      SmallerIsLeq(a, b, i);
    }
  }

  lemma {:induction false} LeqTotal(a: string, b: string)
    ensures Leq(a, b) || Leq(b, a)
    ensures Leq(a, b) && Leq(b, a) ==> a == b
  {
    if a != [] && b != [] {
      LeqTotal(a[1..], b[1..]);
      assert a == [a[0]] + a[1..] && b == [b[0]] + b[1..];
    }
  }

  lemma {:induction false} LeqTransitive(a: string, b: string, c: string)
    requires Leq(a, b) && Leq(b, c)
    ensures Leq(a, c)
  {
    if a != [] && a[0] == b[0] == c[0] {
      LeqTransitive(a[1..], b[1..], c[1..]);
    }
  }

  ghost predicate InNameOrder(s: seq<Name>) {
    forall i, j :: 0 <= i < j < |s| ==> Leq(s[i], s[j])
  }

  /** Puts `x` into a list in name order. */
  function Insert(s: seq<Name>, x: Name): (r: seq<Name>)
    ensures multiset(r) == multiset(s) + multiset{x}
  {
    if s == [] || Leq(x, s[0]) then [x] + s
    else
      assert s == [s[0]] + s[1..];
      [s[0]] + Insert(s[1..], x)
  }

  lemma {:induction false} InsertInOrder(s: seq<Name>, x: Name)
    requires InNameOrder(s)
    ensures InNameOrder(Insert(s, x))
  {
    if s != [] {
      if Leq(x, s[0]) {
        forall j | 0 <= j < |s| ensures Leq(x, s[j]) {
          if j > 0 {
            LeqTransitive(x, s[0], s[j]);
          }
        }
      } else {
        LeqTotal(x, s[0]);
        InsertInOrder(s[1..], x);
        var t := Insert(s[1..], x);
        forall n | n in t ensures Leq(s[0], n) {
          assert n in multiset(t);
          assert n == x || n in s[1..];
        }
      }
    }
  }

  /** Sorting names, as the library sort does it: an ordered rearrangement. */
  method SortNames(names: seq<Name>) returns (r: seq<Name>)
    ensures multiset(r) == multiset(names)
    ensures InNameOrder(r)
  {
    r := [];
    for i := 0 to |names|
      invariant multiset(r) == multiset(names[..i])
      invariant InNameOrder(r)
    {
      assert names[..i + 1] == names[..i] + [names[i]];
      InsertInOrder(r, names[i]);
      r := Insert(r, names[i]);
    }
    assert names[..|names|] == names;
  }

  // ---------- the graph of one group ----------

  function Keep(deps: seq<Name>, members: set<Name>): (r: seq<Name>)
    ensures forall d :: d in r <==> d in deps && d in members
  {
    if deps == [] then []
    else
      assert deps == [deps[0]] + deps[1..];
      (if deps[0] in members then [deps[0]] else []) + Keep(deps[1..], members)
  }

  function Members(programs: map<Name, Program>, group: string): set<Name> {
    set n | n in programs && programs[n].group == group
  }

  /** The dependencies that stay within the group. */
  function GroupGraph(programs: map<Name, Program>, group: string): Graph {
    map n | n in Members(programs, group) :: Keep(programs[n].dependsOn, Members(programs, group))
  }

  lemma GroupGraphClosed(programs: map<Name, Program>, group: string)
    ensures Closed(GroupGraph(programs, group))
    ensures Nodes(GroupGraph(programs, group)) == Members(programs, group)
  {
  }

  lemma MembersMean(programs: map<Name, Program>, group: string, n: Name)
    ensures n in Members(programs, group) <==> n in programs && programs[n].group == group
  {
  }

  /** Its edges are the dependencies between two programs of the group. */
  lemma GroupGraphMeans(programs: map<Name, Program>, group: string, n: Name, d: Name)
    ensures d in Deps(GroupGraph(programs, group), n) <==>
            && n in programs && programs[n].group == group && d in programs[n].dependsOn
            && d in programs && programs[d].group == group
  {
  }

  // ---------- lexicographically least orders ----------

  ghost predicate Available(g: Graph, done: seq<Name>, x: Name) {
    x in Nodes(g) && x !in done && forall d :: d in Deps(g, x) ==> d in done
  }

  /** Every entry is the least name whose dependencies have all been listed before it. */
  ghost predicate Greedy(g: Graph, r: seq<Name>) {
    forall i, x :: 0 <= i < |r| && Available(g, r[..i], x) ==> Leq(r[i], x)
  }

  /** A dependency-ordered listing of everything that can be listed at all. */
  ghost predicate TopologicalOrder(g: Graph, r: seq<Name>) {
    NoDup(r) && Elements(r) == GroundedNodes(g) && DepsFirst(g, r)
  }

  /** `r` is `t`, or has the earlier name in dictionary order where they first differ. */
  ghost predicate LexLeq(r: seq<Name>, t: seq<Name>) {
    r == t || exists i :: 0 <= i < |r| && i < |t| && r[..i] == t[..i] && r[i] != t[i] && NotAfter(r[i], t[i])
  }

  lemma GreedyIsLeast(g: Graph, r: seq<Name>, t: seq<Name>)
    requires TopologicalOrder(g, r) && Greedy(g, r) && TopologicalOrder(g, t)
    ensures LexLeq(r, t)
  {
    NoDupSize(r);
    NoDupSize(t);
    var i := 0;
    while i < |r| && r[i] == t[i]
      invariant 0 <= i <= |r| && r[..i] == t[..i]
    {
      assert r[..i + 1] == r[..i] + [r[i]] && t[..i + 1] == t[..i] + [t[i]];
      i := i + 1;
    }
    if i < |r| {
      assert t[i] in Elements(t) && t[i] !in t[..i];
      assert Available(g, r[..i], t[i]);
      LeqMeans(r[i], t[i]);
    } else {
      assert r == r[..i] && t == t[..i];
    }
  }

  lemma SamePrefix(r: seq<Name>, t: seq<Name>, j: nat, i: nat)
    requires i < j <= |r| && j <= |t| && r[..j] == t[..j]
    ensures r[i] == t[i]
  {
    assert r[i] == r[..j][i];
  }

  lemma LeastIsUnique(r: seq<Name>, t: seq<Name>)
    requires LexLeq(r, t) && LexLeq(t, r)
    ensures r == t
  {
    if r != t {
      var i :| 0 <= i < |r| && i < |t| && r[..i] == t[..i] && r[i] != t[i] && NotAfter(r[i], t[i]);
      var j :| 0 <= j < |r| && j < |t| && t[..j] == r[..j] && t[j] != r[j] && NotAfter(t[j], r[j]);
      if i < j {
        SamePrefix(r, t, j, i);
      } else if j < i {
        SamePrefix(r, t, i, j);
      }
      LeqMeans(r[i], t[i]);
      LeqMeans(t[i], r[i]);
      LeqTotal(r[i], t[i]);
      assert false;
    }
  }

  // ---------- the sort ----------

  ghost predicate Progress(g: Graph, done: seq<Name>, queue: seq<Name>) {
    && NoDup(done + queue)
    && Ready(g, Elements(done), done + queue)
    && DepsFirst(g, done) && InNameOrder(queue) && Greedy(g, done)
  }

  /**
   The group in dependency order. The first `k` names are the lexicographically least
   order of what can be ordered; any others are on or behind a cycle.
   */
  method TopologicalSortForGroup(programs: map<Name, Program>, group: string) returns (r: seq<Name>, ghost k: nat)
    ensures NoDup(r) && Elements(r) == Members(programs, group)
    ensures k <= |r| && TopologicalOrder(GroupGraph(programs, group), r[..k])
    ensures forall t :: TopologicalOrder(GroupGraph(programs, group), t) ==> LexLeq(r[..k], t)
    ensures Acyclic(GroupGraph(programs, group)) ==> k == |r|
  {
    var g := GroupGraph(programs, group);
    GroupGraphClosed(programs, group);
    r := OrderByName(g);
    k := |r|;
    ghost var ordered := r;
    r := AppendRest(r, g.Keys);
    assert r[..k] == ordered;
    if Acyclic(g) {
      AcyclicIffGrounded(g);
      assert GroundedNodes(g) == Nodes(g);
      NoDupSize(r);
      NoDupSize(ordered);
    }
  }

  /** Kahn's algorithm, always taking the least name that is ready. */
  method OrderByName(g: Graph) returns (r: seq<Name>)
    ensures TopologicalOrder(g, r) && Elements(r) <= Nodes(g)
    ensures forall t :: TopologicalOrder(g, t) ==> LexLeq(r, t)
  {
    var inDegree, dependents := CountEdges(g);
    var queue := Roots(g, inDegree);
    r := [];
    assert Elements(r) == {};
    StartProgress(g, queue);
    while queue != []
      invariant Counts(g, inDegree, Elements(r))
      invariant Progress(g, r, queue)
      decreases Nodes(g) - Elements(r)
    {
      ghost var done, waiting := r, queue;
      var name := queue[0];
      HeadIsLeast(g, r, queue);
      queue := queue[1..];
      r := r + [name];
      var batch;
      inDegree, batch := Release(g, name, dependents[name], inDegree, Elements(done));
      queue := InsertAll(queue, batch);
      StepProgress(g, done, waiting, batch, queue);
    }
    Finished(g, r);
  }

  /** The names with no dependency in the group, in name order. */
  method Roots(g: Graph, inDegree: map<Name, int>) returns (queue: seq<Name>)
    requires Counts(g, inDegree, {})
    ensures NoDup(queue) && InNameOrder(queue)
    ensures forall n :: n in queue <==> n in inDegree && inDegree[n] == 0
  {
    var found: seq<Name> := [];
    var todo := inDegree.Keys;
    while todo != {}
      invariant todo <= inDegree.Keys && NoDup(found)
      invariant forall n :: n in found <==> n in inDegree && n !in todo && inDegree[n] == 0
    {
      var n :| n in todo;
      todo := todo - {n};
      if inDegree[n] == 0 {
        NoDupAppend(found, n);
        found := found + [n];
      }
    }
    queue := SortNames(found);
    PermutationFacts(found, queue);
    assert forall n :: n in queue <==> n in Elements(queue);
    assert forall n :: n in found <==> n in Elements(found);
  }

  /** Each released name is appended and the queue sorted again. */
  method InsertAll(queue: seq<Name>, batch: seq<Name>) returns (r: seq<Name>)
    requires InNameOrder(queue)
    ensures InNameOrder(r) && multiset(r) == multiset(queue) + multiset(batch)
  {
    r := queue;
    for i := 0 to |batch|
      invariant InNameOrder(r) && multiset(r) == multiset(queue) + multiset(batch[..i])
    {
      assert batch[..i + 1] == batch[..i] + [batch[i]];
      r := SortNames(r + [batch[i]]);
    }
    assert batch[..|batch|] == batch;
  }

  /** The members not reached by the sort, appended in an arbitrary order. */
  method AppendRest(ordered: seq<Name>, members: set<Name>) returns (r: seq<Name>)
    requires NoDup(ordered) && Elements(ordered) <= members
    ensures ordered <= r && NoDup(r) && Elements(r) == members
  {
    r := ordered;
    var todo := members;
    while todo != {}
      invariant todo <= members && ordered <= r && NoDup(r)
      invariant members - todo <= Elements(r) <= members
    {
      var name :| name in todo;
      todo := todo - {name};
      if name !in r {
        NoDupAppend(r, name);
        r := r + [name];
      }
    }
  }

  lemma StartProgress(g: Graph, queue: seq<Name>)
    requires NoDup(queue) && InNameOrder(queue)
    requires Ready(g, {}, queue)
    ensures Progress(g, [], queue)
  {
    var none: seq<Name> := [];
    assert none + queue == queue && Elements(none) == {};
  }

  lemma HeadIsLeast(g: Graph, done: seq<Name>, queue: seq<Name>)
    requires queue != [] && Progress(g, done, queue)
    ensures queue[0] !in done && queue[0] in Nodes(g)
    ensures forall d :: d in Deps(g, queue[0]) ==> d in done
    ensures InNameOrder(queue[1..])
    ensures Elements(done + [queue[0]]) == Elements(done) + {queue[0]}
    ensures forall x :: Available(g, done, x) ==> Leq(queue[0], x)
  {
    var c := queue[0];
    assert (done + queue)[|done|] == c;
    assert forall i :: 0 <= i < |done| ==> (done + queue)[i] == done[i];
    PendingZero(Deps(g, c), Elements(done));
    forall x | Available(g, done, x) ensures Leq(c, x) {
      PendingZero(Deps(g, x), Elements(done));
      assert x in done + queue && x in queue;
      LeqTotal(c, c);
    }
  }

  lemma StepProgress(g: Graph, done: seq<Name>, queue: seq<Name>, batch: seq<Name>, queue': seq<Name>)
    requires queue != [] && Progress(g, done, queue)
    requires Batch(g, Elements(done), queue[0], batch)
    requires InNameOrder(queue') && multiset(queue') == multiset(queue[1..]) + multiset(batch)
    ensures Progress(g, done + [queue[0]], queue')
  {
    var c := queue[0];
    HeadIsLeast(g, done, queue);
    StepMembers(g, done, queue, batch, queue');
    StepGreedy(g, done, c);
  }

  lemma StepMembers(g: Graph, done: seq<Name>, queue: seq<Name>, batch: seq<Name>, queue': seq<Name>)
    requires queue != [] && NoDup(done + queue) && queue[0] !in done
    requires Ready(g, Elements(done), done + queue) && Batch(g, Elements(done), queue[0], batch)
    requires multiset(queue') == multiset(queue[1..]) + multiset(batch)
    ensures NoDup(done + [queue[0]] + queue')
    ensures Ready(g, Elements(done) + {queue[0]}, done + [queue[0]] + queue')
  {
    var c := queue[0];
    var all := done + queue;
    var was := all + batch;
    var now := done + [c] + queue';
    assert multiset(was) == multiset(now) by {
      assert queue == [c] + queue[1..];
    }
    forall n ensures n in now <==> n in Nodes(g) && Pending(Deps(g, n), Elements(done) + {c}) == 0 {
      PendingStep(Deps(g, n), Elements(done), c);
      assert n in now <==> n in multiset(now);
      assert n in was <==> n in multiset(was);
      assert n in was <==> n in all || n in batch;
    }
    JoinNoDup(all, batch);
    PermutationFacts(was, now);
  }

  lemma StepGreedy(g: Graph, done: seq<Name>, c: Name)
    requires DepsFirst(g, done) && Greedy(g, done)
    requires forall d :: d in Deps(g, c) ==> d in done
    requires forall x :: Available(g, done, x) ==> Leq(c, x)
    ensures DepsFirst(g, done + [c]) && Greedy(g, done + [c])
  {
    forall i | 0 <= i <= |done| ensures (done + [c])[..i] == done[..i] {
    }
    assert done[..|done|] == done;
  }

  lemma Finished(g: Graph, r: seq<Name>)
    requires Progress(g, r, [])
    ensures TopologicalOrder(g, r) && Elements(r) <= Nodes(g)
    ensures forall t :: TopologicalOrder(g, t) ==> LexLeq(r, t)
  {
    assert r + [] == r;
    forall n | n in Nodes(g) && n !in r ensures exists d :: d in Deps(g, n) && d !in r {
      PendingZero(Deps(g, n), Elements(r));
    }
    ExhaustedListIsGroundedNodes(g, r);
    forall t | TopologicalOrder(g, t) ensures LexLeq(r, t) {
      GreedyIsLeast(g, r, t);
    }
  }
}
