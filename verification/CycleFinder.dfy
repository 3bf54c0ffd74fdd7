/** The three-colour depth-first search that validates a configuration's dependencies. */
module CycleFinder {
  import opened Common
  import opened Dependencies
  import opened DependencySort

  datatype Color = White | Gray | Black

  /** The dependency `a -> b` closes a real cycle: a chain leads from `b` back to `a`. */
  ghost predicate ClosesCycle(g: Graph, a: Name, b: Name) {
    b in Deps(g, a) && exists p :: IsPath(g, p) && p[0] == b && p[|p| - 1] == a
  }

  lemma ClosedEdgeMeansCycle(g: Graph, a: Name, b: Name)
    requires ClosesCycle(g, a, b)
    ensures !Acyclic(g)
  {
    var p :| IsPath(g, p) && p[0] == b && p[|p| - 1] == a;
    PathPush(g, p, b);
    assert IsCycle(g, p + [b]);
  }

  /** A gray dependency is on the current search path, and the rest of the path leads back. */
  lemma GrayClosesCycle(g: Graph, stack: seq<Name>, k: nat)
    requires IsPath(g, stack) && k < |stack| && stack[k] in Deps(g, stack[|stack| - 1])
    ensures ClosesCycle(g, stack[|stack| - 1], stack[k])
  {
    PathSlice(g, stack, k, |stack|);
    var p := stack[k..|stack|];
    assert p[0] == stack[k] && p[|p| - 1] == stack[|stack| - 1];
  }

  class Finder {
    const programs: Graph
    var color: map<Name, Color>

    constructor (g: Graph)
      ensures programs == g && color == map n | n in g :: White
    {
      programs := g;
      color := map n | n in g :: White;
    }

    /** A name that was never coloured is white. */
    function ColorOf(n: Name): Color
      reads this
    {
      if n in color then color[n] else White
    }

    ghost function Seen(): set<Name>
      reads this
    {
      set n | n in color && color[n] != White
    }

    /** The gray names are exactly the search path, and every black name is free of cycles. */
    ghost predicate Searching(stack: seq<Name>)
      reads this
    {
      && (forall n :: ColorOf(n) == Gray <==> n in stack)
      && (forall n :: ColorOf(n) == Black ==> Grounded(programs, n))
    }

    method Dfs(name: Name, ghost stack: seq<Name>) returns (cycle: Option<(Name, Name)>)
      requires ColorOf(name) == White && name in Nodes(programs)
      requires Searching(stack) && IsPath(programs, stack + [name])
      modifies this`color
      ensures cycle.Some? ==> ClosesCycle(programs, cycle.value.0, cycle.value.1)
      ensures cycle.None? ==> ColorOf(name) == Black && Searching(stack)
      ensures old(Seen()) <= Seen()
      ensures cycle.None? ==> forall n :: old(ColorOf(n)) == Black ==> ColorOf(n) == Black
      decreases Nodes(programs) - Seen()
    {
      color := color[name := Gray];
      ghost var here := stack + [name];
      assert forall n :: n in here <==> n in stack || n == name;
      if name !in programs {
        color := color[name := Black];
        GroundedFromDeps(programs, name);
        return None;
      }
      var deps := programs[name];
      for i := 0 to |deps|
        invariant Searching(here)
        invariant forall j :: 0 <= j < i ==> ColorOf(deps[j]) == Black
        invariant forall n :: old(ColorOf(n)) == Black ==> ColorOf(n) == Black
        invariant old(Seen()) + {name} <= Seen()
      {
        var dep := deps[i];
        NextIsNode(programs, name, dep);
        if ColorOf(dep) == Gray {
          ghost var k :| 0 <= k < |here| && here[k] == dep;
          GrayClosesCycle(programs, here, k);
          return Some((name, dep));
        }
        if ColorOf(dep) == White {
          PathPush(programs, here, dep);
          cycle := Dfs(dep, here);
          if cycle.Some? {
            return cycle;
          }
        }
      }
      assert forall d :: d in Deps(programs, name) ==> ColorOf(d) == Black;
      GroundedFromDeps(programs, name);
      color := color[name := Black];
      cycle := None;
    }
  }

  /** Reports a dependency that closes a cycle, or nothing when there is none. */
  method FindDependencyCycle(g: Graph) returns (cycle: Option<(Name, Name)>)
    ensures cycle.None? <==> Acyclic(g)
    ensures cycle.Some? ==> ClosesCycle(g, cycle.value.0, cycle.value.1)
  {
    var f := new Finder(g);
    var todo := g.Keys;
    while todo != {}
      invariant todo <= g.Keys && f.programs == g && f.Searching([])
      invariant forall n :: n in g && n !in todo ==> f.ColorOf(n) == Black
    {
      var name :| name in todo;
      todo := todo - {name};
      if f.ColorOf(name) == White {
        cycle := f.Dfs(name, []);
        if cycle.Some? {
          ClosedEdgeMeansCycle(g, cycle.value.0, cycle.value.1);
          return cycle;
        }
      }
    }
    AcyclicIffGrounded(g);
    cycle := None;
  }

  /**
   Validation followed by the start order: on a closed graph the search and the sort agree.
   No cycle is reported exactly when the sort succeeds, and then every program is listed once.
   */
  method ValidateAndSort(g: Graph, prio: Priorities) returns (cycle: Option<(Name, Name)>, order: Option<seq<Name>>)
    requires Closed(g)
    ensures cycle.None? <==> order.Some?
    ensures order.Some? ==> NoDup(order.value) && Elements(order.value) == g.Keys && DepsFirst(g, order.value)
  {
    cycle := FindDependencyCycle(g);
    order := TopologicalSort(g, prio);
    ClosedPassesIffAcyclic(g);
  }
}
