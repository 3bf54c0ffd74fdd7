/** Reloading the configuration into a running supervisor. */
module Reload {
  import opened Common
  import opened Dependencies
  import opened DependencySort

  datatype Config = Config(name: Name, dependsOn: seq<Name>, autoStart: bool, priority: int, body: string)

  type Configs = map<Name, Config>

  ghost predicate WellKeyed(configs: Configs) {
    forall n :: n in configs ==> configs[n].name == n
  }

  function DependencyGraph(configs: Configs, names: set<Name>): Graph {
    map n | n in names && n in configs :: configs[n].dependsOn
  }

  /** The names a reload replaces: what the sort lists, if it succeeds, or else the modified ones. */
  ghost function ReplacedNames(configs: Configs, modified: set<Name>): set<Name> {
    var g := DependencyGraph(configs, modified);
    if LengthTestPasses(g) then GroundedNodes(g) else modified
  }

  /** No selection of an acyclic configuration is sorted wrongly by coincidence. */
  lemma AcyclicNeverCoincides(configs: Configs, names: set<Name>)
    requires Acyclic(DependencyGraph(configs, configs.Keys))
    ensures !Coincidence(DependencyGraph(configs, names))
  {
    var h := DependencyGraph(configs, names);
    AcyclicSubgraph(DependencyGraph(configs, configs.Keys), h);
    AcyclicPassesIffClosed(h);
    CoincidenceIsWrong(h);
  }

  lemma NextElement(names: seq<Name>, i: nat)
    requires i < |names| && NoDup(names)
    ensures Elements(names[..i + 1]) == Elements(names[..i]) + {names[i]}
    ensures names[i] in Elements(names) && names[i] !in Elements(names[..i])
  {
    assert names[..i + 1] == names[..i] + [names[i]];
  }

  /** A process that was stopped for good has its context cancelled as well. */
  datatype RunState = Stopped | Running | Exited | Cancelled

  class Process {
    const config: Config
    var state: RunState

    constructor (config: Config)
      ensures this.config == config && state == Stopped
    {
      this.config := config;
      state := Stopped;
    }

    method Start()
      modifies this
      ensures state == Running || state == Exited
    {
      if * {
        state := Running;
      } else {
        state := Exited;
      }
    }

    method StopAndCancel()
      modifies this
      ensures state == Cancelled
    {
      state := Cancelled;
    }
  }

  /** What the manager shows for one name: the object, its configuration and its state. */
  datatype Entry = Entry(process: Process, config: Config, state: RunState)

  type View = map<Name, Entry>

  ghost function AddedNames(v: View, configs: Configs): set<Name> {
    configs.Keys - v.Keys
  }

  ghost function RemovedNames(v: View, configs: Configs): set<Name> {
    v.Keys - configs.Keys
  }

  ghost function ModifiedNames(v: View, configs: Configs): set<Name> {
    set n | n in v && n in configs && v[n].config != configs[n]
  }

  /** The manager runs exactly the given configuration. */
  ghost predicate InSync(v: View, configs: Configs) {
    v.Keys == configs.Keys && forall n :: n in v ==> v[n].config == configs[n]
  }

  /** The names outside `touched` show the very same object in the same state. */
  ghost predicate Kept(v: View, w: View, touched: set<Name>) {
    forall n :: n in v && n !in touched ==> n in w && w[n] == v[n]
  }

  /** A process that is to start by itself was started, which may have failed; any other was left alone. */
  predicate Begun(config: Config, state: RunState) {
    if config.autoStart then state == Running || state == Exited else state == Stopped
  }

  /** The given names show an object that was not there before, with their new configuration, started if need be. */
  ghost predicate Renewed(v: View, w: View, names: set<Name>, configs: Configs) {
    forall n :: n in names ==>
      && n in w && n in configs && w[n].config == configs[n] && Begun(configs[n], w[n].state)
      && forall k :: k in v ==> v[k].process != w[n].process
  }

  /** Removal, replacement and addition lead to the new configuration exactly when no modified name was left out. */
  lemma SyncedIff(v: View, w: View, configs: Configs, order: set<Name>)
    requires order <= configs.Keys
    requires Reworked(v, w, RemovedNames(v, configs), order, AddedNames(v, configs), configs)
    ensures InSync(w, configs) <==> ModifiedNames(v, configs) <= order
  {
    if !(ModifiedNames(v, configs) <= order) {
      var n :| n in ModifiedNames(v, configs) && n !in order;
      assert w[n] == v[n];
    }
  }

  /** The processes that these names stand for. */
  ghost function Objects(was: map<Name, Process>, names: set<Name>): set<Process> {
    set n | n in names && n in was :: was[n]
  }

  lemma OneMoreObject(was: map<Name, Process>, names: set<Name>, name: Name)
    ensures Objects(was, names + {name}) == Objects(was, names) + Objects(was, {name})
  {
  }

  /** They were stopped for good. */
  ghost predicate Gone(objects: set<Process>)
    reads objects
  {
    forall p :: p in objects ==> p.state == Cancelled
  }

  /** Every process stands under its own name. */
  ghost predicate OwnNames(was: map<Name, Process>) {
    forall n :: n in was ==> was[n].config.name == n
  }

  /** But for these names the processes are the same. */
  ghost predicate KeepsBut(was: map<Name, Process>, now: map<Name, Process>, names: set<Name>) {
    forall n :: n in was && n !in names ==> n in now && now[n] == was[n]
  }

  /** The names stand for these processes. */
  ghost predicate Stand(now: map<Name, Process>, names: set<Name>, objects: set<Process>) {
    forall n :: n in names ==> n in now && now[n] in objects
  }

  lemma RemovedAreGone(was: map<Name, Process>, now: map<Name, Process>, names: set<Name>)
    requires OwnNames(was) && OwnNames(now) && now == was - names
    ensures forall n :: n in names && n in was ==> was[n] !in now.Values
  {
  }

  class Manager {
    var processes: map<Name, Process>

    /** Every process is filed under its own name, so no two names share an object. */
    ghost predicate Valid()
      reads this
    {
      forall n :: n in processes ==> processes[n].config.name == n
    }

    ghost function View(): View
      reads this, processes.Values
    {
      map n | n in processes :: Entry(processes[n], processes[n].config, processes[n].state)
    }

    constructor ()
      ensures Valid() && processes == map[]
    {
      processes := map[];
    }

    /** The names that come, go and change, each once, in an arbitrary order. */
    method CompareConfigs(configs: Configs) returns (added: seq<Name>, removed: seq<Name>, modified: seq<Name>)
      ensures NoDup(added) && Elements(added) == AddedNames(View(), configs)
      ensures NoDup(removed) && Elements(removed) == RemovedNames(View(), configs)
      ensures NoDup(modified) && Elements(modified) == ModifiedNames(View(), configs)
    {
      added, removed, modified := [], [], [];
      var todo := processes.Keys;
      while todo != {}
        invariant todo <= processes.Keys
        invariant NoDup(removed) && Elements(removed) == RemovedNames(View(), configs) - todo
      {
        var n :| n in todo;
        todo := todo - {n};
        if n !in configs {
          NoDupAppend(removed, n);
          removed := removed + [n];
        }
      }
      todo := configs.Keys;
      while todo != {}
        invariant todo <= configs.Keys
        invariant NoDup(added) && Elements(added) == AddedNames(View(), configs) - todo
        invariant NoDup(modified) && Elements(modified) == ModifiedNames(View(), configs) - todo
      {
        var n :| n in todo;
        todo := todo - {n};
        if n !in processes {
          NoDupAppend(added, n);
          added := added + [n];
        } else if processes[n].config != configs[n] {
          NoDupAppend(modified, n);
          modified := modified + [n];
        }
      }
    }

    method StopAndRemove(name: Name)
      requires Valid()
      modifies this, if name in processes then {processes[name]} else {}
      ensures Valid() && View() == old(View()) - {name}
      ensures processes == old(processes) - {name}
      ensures name in old(processes) ==> old(processes[name]).state == Cancelled
    {
      if name in processes {
        processes[name].StopAndCancel();
      }
      processes := processes - {name};
    }

    method AddAndStart(config: Config)
      requires Valid()
      modifies this
      ensures Valid() && config.name in processes && fresh(processes[config.name])
      ensures processes == old(processes)[config.name := processes[config.name]]
      ensures var e := View()[config.name];
              View() == old(View())[config.name := e] && e.config == config && Begun(config, e.state)
    {
      var p := new Process(config);
      processes := processes[config.name := p];
      if config.autoStart {
        p.Start();
      }
    }

    /** Stops and removes the process of this name, if any, and adds the new one. */
    method Replace(config: Config)
      requires Valid()
      modifies this, if config.name in processes then {processes[config.name]} else {}
      ensures Valid() && config.name in processes && fresh(processes[config.name])
      ensures processes == old(processes)[config.name := processes[config.name]]
      ensures processes.Values <= old(processes.Values) + {processes[config.name]}
      ensures config.name in old(processes) ==> old(processes[config.name]).state == Cancelled
      ensures var e := View()[config.name];
              && View() == old(View())[config.name := e] && e.process == processes[config.name]
              && e.config == config && Begun(config, e.state)
    {
      StopAndRemove(config.name);
      AddAndStart(config);
    }

    /** Replaces one more name; `was` and `v` are the processes and their view before the first. */
    method ReplaceNext(name: Name, configs: Configs, ghost was: map<Name, Process>, ghost v: View, ghost done: set<Name>,
                       ghost gone: set<Process>)
      requires Valid() && WellKeyed(configs) && name in configs && name !in done
      requires KeepsBut(was, processes, done) && Gone(gone)
      requires Changed(v, View(), done, configs) && forall k :: k in v ==> allocated(v[k].process)
      modifies this, if name in processes then {processes[name]} else {}
      ensures Valid() && name in processes && fresh(processes[name])
      ensures processes == old(processes)[name := processes[name]]
      ensures processes.Values <= old(processes.Values) + {processes[name]}
      ensures KeepsBut(was, processes, done + {name}) && Gone(gone + Objects(was, {name}))
      ensures Changed(v, View(), done + {name}, configs)
    {
      ghost var w := View();
      assert Objects(was, {name}) <= if name in processes then {processes[name]} else {};
      Replace(configs[name]);
      ChangedStep(v, w, View(), done, name, configs);
    }

    /** How things stand after some of the names have been replaced, by new processes. */
    ghost predicate Replaced(v: View, was: map<Name, Process>, news: set<Process>, done: set<Name>, gone: set<Process>,
                             configs: Configs)
      reads this, processes.Values, gone
    {
      && Valid() && processes.Values <= was.Values + news && KeepsBut(was, processes, done)
      && Gone(gone) && Changed(v, View(), done, configs) && Stand(processes, done, news)
    }

    method ReplaceOne(name: Name, configs: Configs, ghost was: map<Name, Process>, ghost v: View, ghost news: set<Process>,
                      ghost done: set<Name>, ghost gone: set<Process>)
      requires WellKeyed(configs) && name in configs && name !in done
      requires Replaced(v, was, news, done, gone, configs) && forall k :: k in v ==> allocated(v[k].process)
      modifies this, if name in processes then {processes[name]} else {}
      ensures name in processes && fresh(processes[name])
      ensures Replaced(v, was, news + {processes[name]}, done + {name}, gone + Objects(was, {name}), configs)
    {
      ReplaceNext(name, configs, was, v, done, gone);
    }

    method RemoveAll(names: seq<Name>)
      requires Valid() && NoDup(names)
      modifies this, processes.Values
      ensures Valid() && processes.Values <= old(processes.Values)
      ensures View() == old(View()) - Elements(names) && processes == old(processes) - Elements(names)
      ensures Gone(Objects(old(processes), Elements(names)))
    {
      ghost var was := processes;
      for i := 0 to |names|
        invariant Valid() && processes.Values <= old(processes.Values)
        invariant View() == old(View()) - Elements(names[..i])
        invariant processes == was - Elements(names[..i]) && Gone(Objects(was, Elements(names[..i])))
      {
        NextElement(names, i);
        StopAndRemove(names[i]);
      }
      assert names[..|names|] == names;
    }

    /** Stops and removes each name and adds it again with its new configuration. */
    method ReplaceAll(names: seq<Name>, configs: Configs)
      requires Valid() && WellKeyed(configs) && NoDup(names) && Elements(names) <= configs.Keys
      modifies this, processes.Values
      ensures Valid() && forall p :: p in processes.Values ==> p in old(processes.Values) || fresh(p)
      ensures Changed(old(View()), View(), Elements(names), configs)
      ensures forall n :: n in names ==> fresh(View()[n].process)
      ensures Gone(Objects(old(processes), Elements(names)))
    {
      ghost var v, was, news, done, gone := View(), processes, {}, {}, {};
      for i := 0 to |names|
        invariant fresh(news) && done == Elements(names[..i]) && gone == Objects(was, done)
        invariant Replaced(v, was, news, done, gone, configs)
      {
        NextElement(names, i);
        ReplaceOne(names[i], configs, was, v, news, done, gone);
        OneMoreObject(was, done, names[i]);
        news, done, gone := news + {processes[names[i]]}, done + {names[i]}, gone + Objects(was, {names[i]});
      }
      assert names[..|names|] == names;
    }

    method AddAll(names: seq<Name>, configs: Configs, ghost gone: set<Process>)
      requires Gone(gone)
      requires Valid() && WellKeyed(configs) && NoDup(names) && Elements(names) <= configs.Keys
      modifies this
      ensures Gone(gone)
      ensures Valid()
      ensures Changed(old(View()), View(), Elements(names), configs)
      ensures forall n :: n in names ==> fresh(View()[n].process)
    {
      ghost var v := View();
      for i := 0 to |names|
        invariant Gone(gone)
        invariant Valid() && forall n :: n in v ==> v[n].process in old(processes.Values)
        invariant Changed(v, View(), Elements(names[..i]), configs)
        invariant forall n :: n in names[..i] ==> fresh(View()[n].process)
      {
        NextElement(names, i);
        ghost var w := View();
        AddAndStart(configs[names[i]]);
        ChangedStep(v, w, View(), Elements(names[..i]), names[i], configs);
      }
      assert names[..|names|] == names;
    }

    /** The order in which the modified processes are replaced: by dependency, or as found if the sort fails. */
    method ReplaceOrder(modified: seq<Name>, configs: Configs) returns (order: seq<Name>)
      requires NoDup(modified) && Elements(modified) <= configs.Keys
      ensures NoDup(order) && |order| == |modified| && Elements(order) == ReplacedNames(configs, Elements(modified))
      ensures var g := DependencyGraph(configs, Elements(modified));
              && (Elements(order) == Elements(modified) <==> !Coincidence(g))
              && (Acyclic(g) && Closed(g) ==> DepsFirst(g, order))
    {
      var g := DependencyGraph(configs, Elements(modified));
      var prio := map n | n in processes :: processes[n].config.priority;
      assert g.Keys == Elements(modified);
      KeysSize(g);
      NoDupSize(modified);
      var sorted := TopologicalSort(g, prio);
      if Acyclic(g) {
        AcyclicPassesIffClosed(g);
      }
      CoincidenceIsWrong(g);
      order := if sorted.Some? then sorted.value else modified;
      NoDupSize(order);
    }

    /** What a reload is going to do. */
    method PlanReload(configs: Configs) returns (plan: Plan)
      ensures Planned(View(), configs, plan)
    {
      var added, removed, modified := CompareConfigs(configs);
      var order := ReplaceOrder(modified, configs);
      plan := Plan(added, removed, order);
      PlanStands(View(), configs, plan, modified);
    }

    /** The first two phases of a reload: what goes and what changes is stopped for good. */
    method RemoveAndReplace(removed: seq<Name>, order: seq<Name>, configs: Configs) returns (ghost v1: View, ghost v2: View, ghost gone: set<Process>)
      requires Valid() && WellKeyed(configs) && NoDup(removed) && NoDup(order)
      requires Elements(order) <= configs.Keys && Elements(order) !! Elements(removed)
      modifies this, processes.Values
      ensures Valid()
      ensures v1 == old(View()) - Elements(removed) && v2 == View()
      ensures Changed(v1, v2, Elements(order), configs)
      ensures forall n :: n in order ==> fresh(v2[n].process)
      ensures gone == Objects(old(processes), Elements(removed) + Elements(order)) && Gone(gone)
    {
      ghost var was := processes;
      RemoveAll(removed);
      RemovedAreGone(was, processes, Elements(removed));
      v1 := View();
      ReplaceAll(order, configs);
      v2 := View();
      gone := Objects(was, Elements(removed) + Elements(order));
      assert gone == Objects(was, Elements(removed)) + Objects(was - Elements(removed), Elements(order));
    }

    /** The three phases of a reload, for an order that names only configured processes. */
    method ChangeAll(plan: Plan, configs: Configs, ghost v: View) returns (ghost gone: set<Process>)
      requires v == View() && Valid() && WellKeyed(configs) && Planned(v, configs, plan)
      requires Elements(plan.order) <= configs.Keys
      modifies this, processes.Values
      ensures Valid() && Outcome(v, View(), configs, plan.order)
      ensures gone == Objects(old(processes), Elements(plan.removed) + Elements(plan.order)) && Gone(gone)
    {
      ghost var v1, v2;
      v1, v2, gone := RemoveAndReplace(plan.removed, plan.order, configs);
      AddAll(plan.added, configs, gone);
      assert Outcome(v, View(), configs, plan.order) by {
        assert forall k :: k in v ==> allocated(v[k].process);
        ComposeChanges(v, v1, v2, View(), Elements(plan.removed), Elements(plan.order), Elements(plan.added), configs);
        ReloadOutcome(v, View(), configs, plan);
      }
    }

    /**
     Brings the running processes in line with a new configuration. `ok` is false
     when a name that is not configured would have to be started, which ends the
     program.
     */
    method Reload(configs: Configs) returns (ok: bool, ghost replaced: seq<Name>, ghost gone: set<Process>)
      requires Valid() && WellKeyed(configs)
      modifies this, processes.Values
      ensures ok <==> ReplacedNames(configs, ModifiedNames(old(View()), configs)) <= configs.Keys
      ensures ok ==> Valid() && Outcome(old(View()), View(), configs, replaced)
      ensures ok ==> Gone(gone) && gone == Objects(old(processes), RemovedNames(old(View()), configs) + Elements(replaced))
      ensures !ok ==> Coincidence(DependencyGraph(configs, ModifiedNames(old(View()), configs)))
    {
      ghost var v := View();
      var plan := PlanReload(configs);
      replaced := plan.order;
      ok := forall n :: n in plan.order ==> n in configs;
      gone := {};
      assert ok <==> Elements(plan.order) <= configs.Keys;
      if ok {
        gone := ChangeAll(plan, configs, v);
      } else {
        UnconfiguredMeansCoincidence(v, configs, plan);
      }
    }
  }

  datatype Plan = Plan(added: seq<Name>, removed: seq<Name>, order: seq<Name>)

  ghost predicate Planned(v: View, configs: Configs, plan: Plan) {
    var modified := ModifiedNames(v, configs);
    var g := DependencyGraph(configs, modified);
    && NoDup(plan.added) && Elements(plan.added) == AddedNames(v, configs)
    && NoDup(plan.removed) && Elements(plan.removed) == RemovedNames(v, configs)
    && NoDup(plan.order) && Elements(plan.order) == ReplacedNames(configs, modified)
    && (Elements(plan.order) == modified <==> !Coincidence(g))
    && (modified <= Elements(plan.order) ==> Elements(plan.order) == modified)
    && (Acyclic(g) && Closed(g) ==> DepsFirst(g, plan.order))
  }

  lemma SameSizeSubset(modified: seq<Name>, order: seq<Name>)
    requires NoDup(modified) && NoDup(order) && |modified| == |order|
    ensures Elements(modified) <= Elements(order) ==> Elements(order) == Elements(modified)
  {
    NoDupSize(modified);
    NoDupSize(order);
    if Elements(modified) <= Elements(order) {
      SubsetSameSize(Elements(modified), Elements(order));
    }
  }

  lemma PlanStands(v: View, configs: Configs, plan: Plan, modified: seq<Name>)
    requires NoDup(plan.added) && Elements(plan.added) == AddedNames(v, configs)
    requires NoDup(plan.removed) && Elements(plan.removed) == RemovedNames(v, configs)
    requires NoDup(modified) && Elements(modified) == ModifiedNames(v, configs)
    requires NoDup(plan.order) && |plan.order| == |modified|
    requires Elements(plan.order) == ReplacedNames(configs, Elements(modified))
    requires var g := DependencyGraph(configs, Elements(modified));
             && (Elements(plan.order) == Elements(modified) <==> !Coincidence(g))
             && (Acyclic(g) && Closed(g) ==> DepsFirst(g, plan.order))
    ensures Planned(v, configs, plan)
  {
    SameSizeSubset(modified, plan.order);
  }

  lemma UnconfiguredMeansCoincidence(v: View, configs: Configs, plan: Plan)
    requires Planned(v, configs, plan) && exists n :: n in plan.order && n !in configs
    ensures Coincidence(DependencyGraph(configs, ModifiedNames(v, configs)))
  {
    var n :| n in plan.order && n !in configs;
    assert n in Elements(plan.order);
  }

  /**
   The outcome of a completed reload: it has converged exactly when the length
   test did not pass by coincidence, and if nothing differed, nothing changed.
   */
  ghost predicate Outcome(v: View, w: View, configs: Configs, replaced: seq<Name>) {
    && NoDup(replaced) && Elements(replaced) == ReplacedNames(configs, ModifiedNames(v, configs))
    && (InSync(w, configs) <==> !Coincidence(DependencyGraph(configs, ModifiedNames(v, configs))))
    && (InSync(w, configs) ==> Converged(v, w, configs, replaced))
    && (InSync(v, configs) ==> w == v)
  }

  ghost predicate Changed(v: View, w: View, names: set<Name>, configs: Configs) {
    w.Keys == v.Keys + names && Kept(v, w, names) && Renewed(v, w, names, configs)
  }

  lemma ChangedStep(v: View, w: View, x: View, names: set<Name>, name: Name, configs: Configs)
    requires Changed(v, w, names, configs) && name in configs && name in x
    requires x == w[name := x[name]] && x[name].config == configs[name] && Begun(configs[name], x[name].state)
    requires forall k :: k in v ==> v[k].process != x[name].process
    ensures Changed(v, x, names + {name}, configs)
  {
  }

  /** The view after removing, replacing and adding. */
  ghost predicate Reworked(v: View, w: View, removed: set<Name>, order: set<Name>, added: set<Name>, configs: Configs) {
    && w.Keys == v.Keys - removed + order + added
    && Kept(v, w, removed + order + added) && Renewed(v, w, order + added, configs)
  }

  lemma ComposeChanges(v: View, v1: View, v2: View, w: View, removed: set<Name>, order: set<Name>, added: set<Name>,
                       configs: Configs)
    requires v1 == v - removed && Changed(v1, v2, order, configs) && Changed(v2, w, added, configs)
    requires forall n, k :: n in order && k in v ==> v[k].process != v2[n].process
    requires forall n, k :: n in added && k in v ==> v[k].process != w[n].process
    ensures Reworked(v, w, removed, order, added, configs)
  {
  }

  /** What a successful reload has done: each modified name replaced once, the unchanged ones left alone. */
  ghost predicate Converged(v: View, w: View, configs: Configs, replaced: seq<Name>) {
    var modified := ModifiedNames(v, configs);
    var g := DependencyGraph(configs, modified);
    && InSync(w, configs)
    && NoDup(replaced) && Elements(replaced) == modified
    && (Acyclic(g) && Closed(g) ==> DepsFirst(g, replaced))
    && Kept(v, w, RemovedNames(v, configs) + modified + AddedNames(v, configs))
    && Renewed(v, w, modified + AddedNames(v, configs), configs)
  }

  lemma ReloadOutcome(v: View, w: View, configs: Configs, plan: Plan)
    requires Planned(v, configs, plan) && Elements(plan.order) <= configs.Keys
    requires Reworked(v, w, RemovedNames(v, configs), Elements(plan.order), AddedNames(v, configs), configs)
    ensures Outcome(v, w, configs, plan.order)
  {
    SyncedIff(v, w, configs, Elements(plan.order));
    if InSync(w, configs) {
      HasConverged(v, w, configs, plan);
    }
    if InSync(v, configs) {
      NothingToDo(v, w, configs, plan);
    }
  }

  lemma HasConverged(v: View, w: View, configs: Configs, plan: Plan)
    requires Planned(v, configs, plan) && InSync(w, configs) && ModifiedNames(v, configs) <= Elements(plan.order)
    requires Reworked(v, w, RemovedNames(v, configs), Elements(plan.order), AddedNames(v, configs), configs)
    ensures Converged(v, w, configs, plan.order)
  {
    assert Elements(plan.order) == ModifiedNames(v, configs);
  }

  lemma NothingToDo(v: View, w: View, configs: Configs, plan: Plan)
    requires Planned(v, configs, plan) && InSync(v, configs)
    requires Reworked(v, w, RemovedNames(v, configs), Elements(plan.order), AddedNames(v, configs), configs)
    ensures w == v
  {
    assert ModifiedNames(v, configs) == {} && RemovedNames(v, configs) == {} && AddedNames(v, configs) == {};
    AcyclicEmpty(configs);
    assert Elements(plan.order) == {};
  }

  lemma AcyclicEmpty(configs: Configs)
    ensures !Coincidence(DependencyGraph(configs, {}))
  {
    var g := DependencyGraph(configs, {});
    assert g.Keys == {} && Nodes(g) == {};
    assert GroundedNodes(g) == {};
  }

  // ---------- a reload that goes wrong ----------

  function Plain(name: Name, dependsOn: seq<Name>): Config {
    Config(name, dependsOn, false, 0, "")
  }

  /** The new configuration: a depends on itself, b on x, and x is as it was. */
  const MISLEADING: Configs := map["a" := Plain("a", ["a"]), "b" := Plain("b", ["x"]), "x" := Plain("x", [])]

  /** What the modified names depend on. */
  lemma MisleadingGraph()
    ensures DependencyGraph(MISLEADING, {"a", "b"}) == map["a" := ["a"], "b" := ["x"]]
  {
    var g := DependencyGraph(MISLEADING, {"a", "b"});
    assert g.Keys == {"a", "b"} && g["a"] == ["a"] && g["b"] == ["x"];
  }

  lemma MisleadingCoincides()
    ensures Coincidence(DependencyGraph(MISLEADING, {"a", "b"}))
    ensures ReplacedNames(MISLEADING, {"a", "b"}) == {"b", "x"}
  {
    MisleadingGraph();
    CoincidenceWitness(map["a" := ["a"], "b" := ["x"]]);
  }

  lemma MisleadingNames()
    ensures WellKeyed(MISLEADING) && {"b", "x"} <= MISLEADING.Keys
  {
  }

  ghost predicate BeforeMisleading(v: View) {
    && v.Keys == {"a", "b", "x"}
    && v["a"].config == Plain("a", []) && v["b"].config == Plain("b", []) && v["x"].config == Plain("x", [])
  }

  lemma MisleadingModifies(v: View)
    requires BeforeMisleading(v)
    ensures ModifiedNames(v, MISLEADING) == {"a", "b"}
  {
  }

  lemma OutcomeMisleads(v: View, w: View, replaced: seq<Name>)
    requires BeforeMisleading(v) && Outcome(v, w, MISLEADING, replaced)
    ensures Elements(replaced) == {"b", "x"} && !InSync(w, MISLEADING)
  {
    MisleadingModifies(v);
    MisleadingCoincides();
  }

  method ThreeProcesses() returns (m: Manager)
    ensures fresh(m) && m.Valid() && BeforeMisleading(m.View()) && forall p :: p in m.processes.Values ==> fresh(p)
  {
    m := new Manager();
    m.AddAndStart(Plain("a", []));
    m.AddAndStart(Plain("b", []));
    m.AddAndStart(Plain("x", []));
  }

  /** The reload reports success, has replaced the untouched x, and left a as it was. */
  method MisleadingReload() returns (m: Manager, ok: bool, ghost replaced: seq<Name>)
    ensures ok && Elements(replaced) == {"b", "x"}
    ensures m.Valid() && !InSync(m.View(), MISLEADING)
  {
    m := ThreeProcesses();
    ghost var v := m.View();
    MisleadingNames();
    MisleadingModifies(v);
    MisleadingCoincides();
    ghost var gone;
    ok, replaced, gone := m.Reload(MISLEADING);
    OutcomeMisleads(v, m.View(), replaced);
  }
}
