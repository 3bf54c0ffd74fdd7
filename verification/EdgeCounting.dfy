/**
 The bookkeeping both Kahn sorts share: the number of unmet dependencies of
 each node and the list of its dependents, repeated dependencies included.
 */
module EdgeCounting {
  import opened Common
  import opened Dependencies

  /** How many entries of `deps` are not yet in `done`. */
  ghost function Pending(deps: seq<Name>, done: set<Name>): nat {
    if deps == [] then 0
    else Pending(deps[..|deps| - 1], done) + if deps[|deps| - 1] in done then 0 else 1
  }

  lemma {:induction false} PendingNone(deps: seq<Name>)
    ensures Pending(deps, {}) == |deps|
  {
    if deps != [] {
      PendingNone(deps[..|deps| - 1]);
    }
  }

  lemma {:induction false} PendingZero(deps: seq<Name>, done: set<Name>)
    ensures Pending(deps, done) == 0 <==> forall d :: d in deps ==> d in done
  {
    if deps != [] {
      var k := |deps| - 1;
      PendingZero(deps[..k], done);
      assert deps == deps[..k] + [deps[k]];
    }
  }

  /** Marking `c` as done settles exactly its occurrences. */
  lemma {:induction false} PendingStep(deps: seq<Name>, done: set<Name>, c: Name)
    requires c !in done
    ensures Pending(deps, done) == Pending(deps, done + {c}) + Times(deps, c)
  {
    if deps != [] {
      var k := |deps| - 1;
      PendingStep(deps[..k], done, c);
      assert deps == deps[..k] + [deps[k]];
    }
  }

  ghost function Times(s: seq<Name>, x: Name): nat {
    multiset(s)[x]
  }

  lemma TimesPush(s: seq<Name>, i: nat, x: Name)
    requires i < |s|
    ensures Times(s[..i + 1], x) == Times(s[..i], x) + if s[i] == x then 1 else 0
  {
    assert s[..i + 1] == s[..i] + [s[i]];
  }

  lemma TimesPrefix(s: seq<Name>, i: nat, x: Name)
    requires i <= |s|
    ensures Times(s[..i], x) <= Times(s, x)
  {
    assert s == s[..i] + s[i..];
  }

  /** `inDegree` counts the unmet dependencies of every node. */
  ghost predicate Counts(g: Graph, inDegree: map<Name, int>, done: set<Name>) {
    && inDegree.Keys == Nodes(g)
    && forall n :: n in inDegree ==> inDegree[n] == Pending(Deps(g, n), done)
  }

  /** `all` holds exactly the nodes whose dependencies are all done. */
  ghost predicate Ready(g: Graph, done: set<Name>, all: seq<Name>) {
    forall n :: n in all <==> n in Nodes(g) && Pending(Deps(g, n), done) == 0
  }

  /** `batch` holds, once each, the nodes whose last unmet dependency is `c`. */
  ghost predicate Batch(g: Graph, done: set<Name>, c: Name, batch: seq<Name>) {
    && NoDup(batch)
    && forall n :: n in batch <==> n in Nodes(g) && Pending(Deps(g, n), done) > 0 && Pending(Deps(g, n), done + {c}) == 0
  }

  /** `dependents` lists `n` under `d` as often as `n` lists `d`. */
  ghost predicate Reverses(g: Graph, dependents: map<Name, seq<Name>>) {
    && dependents.Keys == Nodes(g)
    && forall d, n :: d in dependents ==> Times(dependents[d], n) == Times(Deps(g, n), d)
  }

  /** The counts after the nodes outside `todo` have been visited. */
  ghost predicate Visited(g: Graph, todo: set<Name>, inDegree: map<Name, int>, dependents: map<Name, seq<Name>>) {
    && (forall n :: n in inDegree ==> inDegree[n] == if n in todo then 0 else |Deps(g, n)|)
    && (forall d, n :: d in dependents ==>
          Times(dependents[d], n) == if n in todo then 0 else Times(Deps(g, n), d))
  }

  /** Visiting `node` adds its entries and nothing else. */
  ghost predicate AddsNode(g: Graph, node: Name, upTo: nat,
                           inDegree0: map<Name, int>, dependents0: map<Name, seq<Name>>,
                           inDegree: map<Name, int>, dependents: map<Name, seq<Name>>)
    requires upTo <= |Deps(g, node)|
  {
    && node in inDegree0 && inDegree == inDegree0[node := inDegree0[node] + upTo]
    && dependents.Keys == dependents0.Keys
    && forall d, n :: d in dependents ==>
         Times(dependents[d], n) ==
         Times(dependents0[d], n) + if n == node then Times(Deps(g, node)[..upTo], d) else 0
  }

  method CountEdges(g: Graph) returns (inDegree: map<Name, int>, dependents: map<Name, seq<Name>>)
    ensures Counts(g, inDegree, {})
    ensures Reverses(g, dependents)
  {
    inDegree := map n | n in Nodes(g) :: 0;
    dependents := map n | n in Nodes(g) :: [];
    var todo := g.Keys;
    while todo != {}
      invariant todo <= g.Keys && inDegree.Keys == dependents.Keys == Nodes(g)
      invariant Visited(g, todo, inDegree, dependents)
    {
      var node :| node in todo;
      ghost var inDegree0, dependents0 := inDegree, dependents;
      inDegree, dependents := CountNode(g, node, inDegree, dependents);
      VisitedStep(g, todo, node, inDegree0, dependents0, inDegree, dependents);
      todo := todo - {node};
    }
    forall n | n in inDegree ensures inDegree[n] == Pending(Deps(g, n), {}) {
      PendingNone(Deps(g, n));
    }
  }

  lemma VisitedStep(g: Graph, todo: set<Name>, node: Name,
                    inDegree0: map<Name, int>, dependents0: map<Name, seq<Name>>,
                    inDegree: map<Name, int>, dependents: map<Name, seq<Name>>)
    requires node in todo && Visited(g, todo, inDegree0, dependents0)
    requires AddsNode(g, node, |Deps(g, node)|, inDegree0, dependents0, inDegree, dependents)
    ensures Visited(g, todo - {node}, inDegree, dependents)
  {
    assert Deps(g, node)[..|Deps(g, node)|] == Deps(g, node);
  }

  /** One node of the counting loop: its dependencies are counted and reversed one by one. */
  method CountNode(g: Graph, node: Name, inDegree0: map<Name, int>, dependents0: map<Name, seq<Name>>)
    returns (inDegree: map<Name, int>, dependents: map<Name, seq<Name>>)
    requires node in g && inDegree0.Keys == dependents0.Keys == Nodes(g)
    ensures inDegree.Keys == Nodes(g)
    ensures AddsNode(g, node, |Deps(g, node)|, inDegree0, dependents0, inDegree, dependents)
  {
    inDegree, dependents := inDegree0, dependents0;
    assert forall d :: Times(Deps(g, node)[..0], d) == 0;
    for i := 0 to |g[node]|
      invariant AddsNode(g, node, i, inDegree0, dependents0, inDegree, dependents)
    {
      var dep := g[node][i];
      NextIsNode(g, node, dep);
      assert Deps(g, node)[..i + 1] == Deps(g, node)[..i] + [dep];
      inDegree := inDegree[node := inDegree[node] + 1];
      dependents := dependents[dep := dependents[dep] + [node]];
    }
    assert inDegree.Keys == inDegree0.Keys + {node} == Nodes(g);
  }

  /** The decrement loop after the first `i` neighbors. */
  ghost predicate Decremented(nodes: set<Name>, neighbors: seq<Name>, i: nat, inDegree0: map<Name, int>,
                              inDegree: map<Name, int>, batch: seq<Name>)
    requires i <= |neighbors|
  {
    && inDegree.Keys == inDegree0.Keys == nodes && NoDup(batch)
    && (forall n :: n in inDegree ==> inDegree[n] == inDegree0[n] - Times(neighbors[..i], n))
    && (forall n :: n in batch <==> n in inDegree && inDegree0[n] > 0 && inDegree[n] == 0)
  }

  lemma DecrementedStep(nodes: set<Name>, neighbors: seq<Name>, i: nat, inDegree0: map<Name, int>,
                        inDegree: map<Name, int>, batch: seq<Name>)
    requires i < |neighbors| && Decremented(nodes, neighbors, i, inDegree0, inDegree, batch)
    requires neighbors[i] in nodes && inDegree0[neighbors[i]] > Times(neighbors[..i], neighbors[i])
    ensures var n := neighbors[i];
            var degree := inDegree[n := inDegree[n] - 1];
            Decremented(nodes, neighbors, i + 1, inDegree0, degree, if degree[n] == 0 then batch + [n] else batch)
  {
    var n := neighbors[i];
    var degree := inDegree[n := inDegree[n] - 1];
    assert degree.Keys == nodes;
    forall x | x in degree ensures degree[x] == inDegree0[x] - Times(neighbors[..i + 1], x) {
      TimesPush(neighbors, i, x);
    }
    assert n !in batch;
    NoDupAppend(batch, n);
    assert forall x :: x in batch + [n] <==> x in batch || x == n;
  }

  /**
   The decrement loop run when `c` is taken from the queue. The batch holds
   exactly the nodes whose last unmet dependency was `c`, each once.
   */
  method Release(g: Graph, c: Name, neighbors: seq<Name>, inDegree0: map<Name, int>, ghost done: set<Name>)
    returns (inDegree: map<Name, int>, batch: seq<Name>)
    requires c !in done && Counts(g, inDegree0, done)
    requires forall n :: Times(neighbors, n) == Times(Deps(g, n), c)
    ensures Counts(g, inDegree, done + {c})
    ensures Batch(g, done, c, batch)
  {
    inDegree, batch := inDegree0, [];
    for i := 0 to |neighbors|
      invariant Decremented(Nodes(g), neighbors, i, inDegree0, inDegree, batch)
    {
      var n := neighbors[i];
      NeighborCount(g, c, neighbors, i, done);
      DecrementedStep(Nodes(g), neighbors, i, inDegree0, inDegree, batch);
      inDegree := inDegree[n := inDegree[n] - 1];
      if inDegree[n] == 0 {
        batch := batch + [n];
      }
    }
    assert neighbors[..|neighbors|] == neighbors;
    forall n | n in inDegree ensures inDegree[n] == Pending(Deps(g, n), done + {c}) {
      PendingStep(Deps(g, n), done, c);
    }
  }

  /** A listed neighbor is a node, and this occurrence of it has not been counted yet. */
  lemma NeighborCount(g: Graph, c: Name, neighbors: seq<Name>, i: nat, done: set<Name>)
    requires i < |neighbors| && c !in done
    requires forall n :: Times(neighbors, n) == Times(Deps(g, n), c)
    ensures neighbors[i] in Nodes(g)
    ensures Pending(Deps(g, neighbors[i]), done) > Times(neighbors[..i], neighbors[i])
  {
    var n := neighbors[i];
    TimesPush(neighbors, i, n);
    TimesPrefix(neighbors, i + 1, n);
    PendingStep(Deps(g, n), done, c);
    assert c in multiset(Deps(g, n));
    NextIsNode(g, n, c);
  }
}
