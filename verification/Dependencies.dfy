/**
 The dependency relation of process names (`DependsOn`), with the facts about
 paths and cycles that the ordering algorithms are judged by.
 */
module Dependencies {
  import opened Common

  type Name = string

  /** Each configured program with the names it depends on; a dependency need not be a key. */
  type Graph = map<Name, seq<Name>>

  function Deps(g: Graph, n: Name): seq<Name> {
    if n in g then g[n] else []
  }

  function Nodes(g: Graph): set<Name> {
    g.Keys + set n, d | n in g && d in g[n] :: d
  }

  /** Every dependency is itself a configured program. */
  ghost predicate Closed(g: Graph) {
    forall n, d :: n in g && d in g[n] ==> d in g
  }

  ghost predicate Link(g: Graph, p: seq<Name>, i: int)
    requires 0 < i < |p|
  {
    p[i] in Deps(g, p[i - 1])
  }

  /** A chain of programs, each depending on the next. */
  ghost predicate IsPath(g: Graph, p: seq<Name>) {
    |p| > 0 && forall i :: 0 < i < |p| ==> Link(g, p, i)
  }

  ghost predicate IsCycle(g: Graph, p: seq<Name>) {
    IsPath(g, p) && |p| > 1 && p[0] == p[|p| - 1]
  }

  ghost predicate Acyclic(g: Graph) {
    forall p :: !IsCycle(g, p)
  }

  /** No chain of dependencies that begins at `n` runs into a cycle. */
  ghost predicate Grounded(g: Graph, n: Name) {
    forall p :: IsPath(g, p) && p[0] == n ==> NoDup(p)
  }

  ghost function GroundedNodes(g: Graph): set<Name> {
    set n | n in Nodes(g) && Grounded(g, n)
  }

  /** The longest chain of dependencies that begins at `n` has `k` links. */
  ghost predicate LongestChain(g: Graph, n: Name, k: nat) {
    && (exists p :: IsPath(g, p) && p[0] == n && |p| == k + 1)
    && (forall p :: IsPath(g, p) && p[0] == n ==> |p| <= k + 1)
  }

  /** Every listed program comes after everything it depends on. */
  ghost predicate DepsFirst(g: Graph, r: seq<Name>) {
    forall i, d :: 0 <= i < |r| && d in Deps(g, r[i]) ==> d in r[..i]
  }

  // ---------- paths and cycles ----------

  lemma NextIsNode(g: Graph, n: Name, d: Name)
    requires d in Deps(g, n)
    ensures n in g && d in Nodes(g)
  {
  }

  lemma PathSlice(g: Graph, p: seq<Name>, i: nat, j: nat)
    requires IsPath(g, p) && i < j <= |p|
    ensures IsPath(g, p[i..j])
  {
    forall k | 0 < k < j - i ensures Link(g, p[i..j], k) {
      assert Link(g, p, i + k);
    }
  }

  lemma PathPush(g: Graph, p: seq<Name>, d: Name)
    requires IsPath(g, p) && d in Deps(g, p[|p| - 1])
    ensures IsPath(g, p + [d])
  {
    forall i | 0 < i < |p + [d]| ensures Link(g, p + [d], i) {
      if i < |p| {
        assert Link(g, p, i);
      }
    }
  }

  lemma AcyclicIffGrounded(g: Graph)
    ensures Acyclic(g) <==> forall n :: n in g ==> Grounded(g, n)
    ensures Acyclic(g) ==> forall n :: Grounded(g, n)
  {
    if Acyclic(g) {
      forall p | IsPath(g, p) ensures NoDup(p) {
        if !NoDup(p) {
          var i, j :| 0 <= i < j < |p| && p[i] == p[j];
          PathSlice(g, p, i, j + 1);
          assert IsCycle(g, p[i..j + 1]);
        }
      }
    } else {
      var p :| IsCycle(g, p);
      assert Link(g, p, 1);
      assert !NoDup(p);
      assert p[0] in g && !Grounded(g, p[0]);
    }
  }

  /** A chain that repeats a program can be started at the second link instead. */
  lemma DropFirstLink(g: Graph, p: seq<Name>) returns (q: seq<Name>)
    requires IsPath(g, p) && !NoDup(p)
    ensures IsPath(g, q) && !NoDup(q) && q[0] in Deps(g, p[0])
  {
    var i, j :| 0 <= i < j < |p| && p[i] == p[j];
    assert Link(g, p, 1);
    if i > 0 {
      PathSlice(g, p, 1, |p|);
      q := p[1..|p|];
      assert q[i - 1] == q[j - 1];
    } else {
      // The chain returns to its start, so it can be followed to p[1] a second time.
      PathSlice(g, p, 1, j + 1);
      q := p[1..j + 1];
      PathPush(g, q, p[1]);
      q := q + [p[1]];
      assert q[0] == q[|q| - 1];
    }
  }

  /** A program all of whose dependencies are grounded is grounded. */
  lemma GroundedFromDeps(g: Graph, n: Name)
    requires forall d :: d in Deps(g, n) ==> Grounded(g, d)
    ensures Grounded(g, n)
  {
    forall p | IsPath(g, p) && p[0] == n ensures NoDup(p) {
      if !NoDup(p) {
        var q := DropFirstLink(g, p);
        assert false;
      }
    }
  }

  // ---------- sets with no way out ----------

  ghost predicate DependsInto(g: Graph, n: Name, s: set<Name>) {
    exists d :: d in Deps(g, n) && d in s
  }

  ghost predicate Stuck(g: Graph, s: set<Name>) {
    forall n {:trigger DependsInto(g, n, s)} :: n in s ==> DependsInto(g, n, s)
  }

  lemma {:induction false} ExtendUntilRepeat(g: Graph, s: set<Name>, p: seq<Name>) returns (q: seq<Name>)
    requires Stuck(g, s) && IsPath(g, p) && NoDup(p) && Elements(p) <= s
    ensures IsPath(g, q) && q[0] == p[0] && !NoDup(q)
    decreases s - Elements(p)
  {
    var d := StepInside(g, s, p);
    var longer := p + [d];
    PathPush(g, p, d);
    if d in Elements(p) {
      NotNoDup(p, d);
      q := longer;
    } else {
      NoDupAppend(p, d);
      q := ExtendUntilRepeat(g, s, longer);
    }
  }

  lemma NotNoDup(p: seq<Name>, d: Name)
    requires d in p
    ensures !NoDup(p + [d])
  {
    var i :| 0 <= i < |p| && p[i] == d;
    assert (p + [d])[i] == (p + [d])[|p|];
  }

  lemma StepInside(g: Graph, s: set<Name>, p: seq<Name>) returns (d: Name)
    requires Stuck(g, s) && p != [] && Elements(p) <= s
    ensures d in s && d in Deps(g, p[|p| - 1])
  {
    assert p[|p| - 1] in Elements(p);
    assert DependsInto(g, p[|p| - 1], s);
    d :| d in Deps(g, p[|p| - 1]) && d in s;
  }

  /** From a set in which every member depends on a member, every chain can be driven into a cycle. */
  lemma StuckNotGrounded(g: Graph, s: set<Name>, n: Name)
    requires Stuck(g, s) && n in s
    ensures !Grounded(g, n)
  {
    assert IsPath(g, [n]) && NoDup([n]);
    var q := ExtendUntilRepeat(g, s, [n]);
  }

  // ---------- dependency-ordered lists ----------

  lemma {:induction false} ListedAreGrounded(g: Graph, r: seq<Name>)
    requires DepsFirst(g, r)
    ensures forall n :: n in r ==> Grounded(g, n)
  {
    if r != [] {
      var k := |r| - 1;
      forall i, d | 0 <= i < k && d in Deps(g, r[..k][i]) ensures d in r[..k][..i] {
        assert r[..k][..i] == r[..i];
      }
      ListedAreGrounded(g, r[..k]);
      assert Deps(g, r[k]) == Deps(g, r[k]);
      GroundedFromDeps(g, r[k]);
    }
  }

  /** When nothing outside `r` is ready, `r` lists exactly the grounded nodes. */
  lemma ExhaustedListIsGroundedNodes(g: Graph, r: seq<Name>)
    requires DepsFirst(g, r) && Elements(r) <= Nodes(g)
    requires forall n :: n in Nodes(g) && n !in r ==> exists d :: d in Deps(g, n) && d !in r
    ensures Elements(r) == GroundedNodes(g)
  {
    ListedAreGrounded(g, r);
    var rest := Nodes(g) - Elements(r);
    forall n | n in rest ensures DependsInto(g, n, rest) {
      var d :| d in Deps(g, n) && d !in r;
      NextIsNode(g, n, d);
    }
    forall n | n in rest ensures !Grounded(g, n) {
      StuckNotGrounded(g, rest, n);
    }
  }

  // ---------- what success of the length test means ----------

  /** The test at the end of the sort: as many names were listed as the graph has keys. */
  ghost predicate LengthTestPasses(g: Graph) {
    |GroundedNodes(g)| == |g|
  }

  lemma SubsetSameSize<T>(a: set<T>, b: set<T>)
    requires a <= b && |a| == |b|
    ensures a == b
  {
    if a != b {
      var x :| x in b && x !in a;
      SubsetSize(a, b - {x});
    }
  }

  lemma {:induction false} SubsetSize<T>(a: set<T>, b: set<T>)
    requires a <= b
    ensures |a| <= |b|
    decreases a
  {
    if a != {} {
      var x :| x in a;
      SubsetSize(a - {x}, b - {x});
    }
  }

  lemma KeysSize(g: Graph)
    ensures |g| == |g.Keys|
  {
  }

  /** On a closed graph the length test passes exactly when there is no cycle. */
  lemma ClosedPassesIffAcyclic(g: Graph)
    requires Closed(g)
    ensures LengthTestPasses(g) <==> Acyclic(g)
    ensures LengthTestPasses(g) ==> GroundedNodes(g) == g.Keys
  {
    AcyclicIffGrounded(g);
    KeysSize(g);
    assert Nodes(g) == g.Keys;
    if LengthTestPasses(g) {
      SubsetSameSize(GroundedNodes(g), g.Keys);
    }
    if Acyclic(g) {
      assert GroundedNodes(g) == g.Keys;
    }
  }

  /** Without cycles the length test passes exactly when no dependency is missing. */
  lemma AcyclicPassesIffClosed(g: Graph)
    requires Acyclic(g)
    ensures LengthTestPasses(g) <==> Closed(g)
    ensures LengthTestPasses(g) ==> GroundedNodes(g) == g.Keys
  {
    AcyclicIffGrounded(g);
    KeysSize(g);
    assert GroundedNodes(g) == Nodes(g);
    if LengthTestPasses(g) {
      SubsetSameSize(g.Keys, Nodes(g));
      forall n, d | n in g && d in g[n] ensures d in g {
        assert d in Nodes(g);
      }
    }
    if Closed(g) {
      assert Nodes(g) == g.Keys;
    }
  }

  /** The configured programs from which a chain of dependencies runs into a cycle. */
  ghost function Doomed(g: Graph): set<Name> {
    set n | n in g.Keys && !Grounded(g, n)
  }

  /** The dependencies that are not configured. */
  function Missing(g: Graph): set<Name> {
    Nodes(g) - g.Keys
  }

  /** As many programs are left out as missing names are let in. */
  ghost predicate Coincidence(g: Graph) {
    Doomed(g) != {} && |Doomed(g)| == |Missing(g)|
  }

  lemma DisjointSizes<T>(a: set<T>, b: set<T>)
    requires a !! b
    ensures |a + b| == |a| + |b|
  {
  }

  lemma MissingIsGrounded(g: Graph, n: Name)
    requires n !in g
    ensures Grounded(g, n)
  {
    GroundedFromDeps(g, n);
  }

  lemma GroundedParts(g: Graph)
    ensures GroundedNodes(g) == g.Keys - Doomed(g) + Missing(g)
  {
    forall n ensures n in GroundedNodes(g) <==> n in g.Keys - Doomed(g) + Missing(g) {
      if n !in g {
        MissingIsGrounded(g, n);
      }
    }
  }

  lemma PartSizes<T>(keys: set<T>, out: set<T>, more: set<T>)
    requires out <= keys && keys !! more
    ensures |keys - out + more| == |keys| - |out| + |more|
  {
    DisjointSizes(keys - out, more);
    DisjointSizes(keys - out, out);
    assert keys - out + out == keys;
  }

  lemma GroundedOrMissing(g: Graph)
    ensures GroundedNodes(g) == g.Keys - Doomed(g) + Missing(g)
    ensures |GroundedNodes(g)| == |g| - |Doomed(g)| + |Missing(g)|
  {
    GroundedParts(g);
    PartSizes(g.Keys, Doomed(g), Missing(g));
    KeysSize(g);
  }

  /** The length test passes exactly when as many names are missing as reach a cycle. */
  lemma LengthTestCounts(g: Graph)
    ensures LengthTestPasses(g) <==> |Doomed(g)| == |Missing(g)|
  {
    GroundedOrMissing(g);
  }

  /** It passes with the wrong names exactly by coincidence. */
  lemma CoincidenceIsWrong(g: Graph)
    ensures Coincidence(g) <==> LengthTestPasses(g) && GroundedNodes(g) != g.Keys
  {
    GroundedOrMissing(g);
    if n :| n in Doomed(g) {
      assert n !in GroundedNodes(g);
    }
    if Doomed(g) == {} && |Missing(g)| == 0 {
      assert Missing(g) == {};
    }
  }

  lemma AcyclicSubgraph(g: Graph, h: Graph)
    requires Acyclic(g)
    requires forall n :: n in h ==> n in g && h[n] == g[n]
    ensures Acyclic(h)
  {
    forall p ensures !IsCycle(h, p) {
      if IsCycle(h, p) {
        forall i | 0 < i < |p| ensures Link(g, p, i) {
          assert Link(h, p, i);
        }
        assert IsCycle(g, p);
      }
    }
  }

  ghost predicate SelfAndMissing(g: Graph) {
    g == map["a" := ["a"], "b" := ["x"]]
  }

  lemma SelfIsDoomed(g: Graph)
    requires SelfAndMissing(g)
    ensures !Grounded(g, "a")
  {
    assert "a" in Deps(g, "a");
    assert DependsInto(g, "a", {"a"});
    StuckNotGrounded(g, {"a"}, "a");
  }

  lemma RestIsGrounded(g: Graph)
    requires SelfAndMissing(g)
    ensures Grounded(g, "x") && Grounded(g, "b")
  {
    MissingIsGrounded(g, "x");
    GroundedFromDeps(g, "b");
  }

  lemma SelfAndMissingNodes(g: Graph)
    requires SelfAndMissing(g)
    ensures Nodes(g) == {"a", "b", "x"} && Missing(g) == {"x"}
  {
    assert "x" in g["b"] && g.Keys == {"a", "b"};
  }

  /** A cyclic graph with a missing dependency can pass the length test by coincidence. */
  lemma CoincidenceWitness(g: Graph)
    requires SelfAndMissing(g)
    ensures !Acyclic(g) && !Closed(g) && Coincidence(g) && LengthTestPasses(g) && GroundedNodes(g) == {"b", "x"}
  {
    SelfIsDoomed(g);
    RestIsGrounded(g);
    SelfAndMissingNodes(g);
    assert Doomed(g) == {"a"};
    CoincidenceIsWrong(g);
    AcyclicIffGrounded(g);
    assert "x" in g["b"] && "x" !in g;
  }
}
