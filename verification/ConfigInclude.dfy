/** Loading a configuration file together with the files it includes. */
module ConfigInclude {
  import opened Common

  /** Absolute, cleaned paths. */
  type Path = string

  /** The parsed body of one section. */
  type Section = string

  /** What a file's include patterns expand to, in order: files, or a pattern that is malformed. */
  datatype Include = Named(path: Path) | BadPattern

  datatype Config = Config(
    programs: map<string, Section>, listeners: map<string, Section>, fcgi: map<string, Section>,
    server: Option<Section>)

  datatype File = Unparsable | Parsed(own: Config, includes: seq<Include>)

  type Files = map<Path, File>

  const EMPTY := Config(map[], map[], map[], None)

  /** Later program definitions replace earlier ones; the first server section stays. */
  function Merge(a: Config, b: Config): Config {
    Config(a.programs + b.programs, a.listeners + b.listeners, a.fcgi + b.fcgi,
           if a.server.Some? then a.server else b.server)
  }

  lemma PlusLaws<K, V>(a: map<K, V>, b: map<K, V>, c: map<K, V>)
    ensures (a + b) + c == a + (b + c)
    ensures a + map[] == a && map[] + a == a
  {
  }

  lemma MergeLaws(a: Config, b: Config, c: Config)
    ensures Merge(Merge(a, b), c) == Merge(a, Merge(b, c))
    ensures Merge(a, EMPTY) == a && Merge(EMPTY, a) == a
  {
    PlusLaws(a.programs, b.programs, c.programs);
    PlusLaws(a.listeners, b.listeners, c.listeners);
    PlusLaws(a.fcgi, b.fcgi, c.fcgi);
  }

  // ---------- loading ----------

  datatype Outcome = Failed | Loaded(config: Config, visited: set<Path>)

  /** The result of loading `path` when the files in `visited` have been loaded before. */
  function Load(fs: Files, path: Path, visited: set<Path>): (r: Outcome)
    ensures r.Loaded? ==> visited <= r.visited
    decreases fs.Keys - visited, 0
  {
    if path in visited || path !in fs || fs[path].Unparsable? then Failed
    else LoadIncludes(fs, fs[path].includes, visited + {path}, fs[path].own)
  }

  function LoadIncludes(fs: Files, includes: seq<Include>, visited: set<Path>, config: Config): (r: Outcome)
    ensures r.Loaded? ==> visited <= r.visited
    decreases fs.Keys - visited, 1 + |includes|
  {
    if includes == [] then Loaded(config, visited)
    else if includes[0].BadPattern? then Failed
    else
      var inc := Load(fs, includes[0].path, visited);
      if inc.Failed? then Failed
      else LoadIncludes(fs, includes[1..], inc.visited, Merge(config, inc.config))
  }

  class Loader {
    const fs: Files
    var visited: set<Path>

    constructor (fs: Files)
      ensures this.fs == fs && visited == {}
    {
      this.fs := fs;
      visited := {};
    }

    /** Loads a file and, one after the other, what it includes. */
    method LoadWithIncludes(path: Path) returns (r: Option<Config>)
      modifies this
      ensures old(visited) <= visited
      ensures r.Some? <==> Load(fs, path, old(visited)).Loaded?
      ensures r.Some? ==> Load(fs, path, old(visited)) == Loaded(r.value, visited)
      decreases fs.Keys - visited
    {
      if path in visited {
        return None;
      }
      visited := visited + {path};
      if path !in fs || fs[path].Unparsable? {
        return None;
      }
      var config := fs[path].own;
      var includes := fs[path].includes;
      for i := 0 to |includes|
        invariant old(visited) + {path} <= visited
        invariant LoadIncludes(fs, includes, old(visited) + {path}, fs[path].own) ==
                  LoadIncludes(fs, includes[i..], visited, config)
      {
        if includes[i].BadPattern? {
          return None;
        }
        var inc := LoadWithIncludes(includes[i].path);
        if inc.None? {
          return None;
        }
        assert includes[i..][1..] == includes[i + 1..];
        config := Merge(config, inc.value);
      }
      r := Some(config);
    }
  }

  // ---------- the unfolding ----------

  /** A file with everything it includes, unfolded to the end. */
  datatype Tree = Node(path: Path, children: seq<Tree>)

  /** Every file of the tree parses, and its children are its includes in order. */
  ghost predicate Unfolds(fs: Files, t: Tree) {
    && t.path in fs && fs[t.path].Parsed?
    && UnfoldAll(fs, t.children, fs[t.path].includes)
  }

  ghost predicate UnfoldAll(fs: Files, ts: seq<Tree>, includes: seq<Include>) {
    && |ts| == |includes|
    && forall i :: 0 <= i < |ts| ==> includes[i] == Named(ts[i].path) && Unfolds(fs, ts[i])
  }

  function Preorder(t: Tree): seq<Path> {
    [t.path] + PreorderAll(t.children)
  }

  function PreorderAll(ts: seq<Tree>): seq<Path> {
    if ts == [] then [] else Preorder(ts[0]) + PreorderAll(ts[1..])
  }

  /** The files' own sections merged in the given order. */
  ghost function Combined(fs: Files, order: seq<Path>): Config {
    if order == [] then EMPTY
    else
      Merge(if order[0] in fs && fs[order[0]].Parsed? then fs[order[0]].own else EMPTY, Combined(fs, order[1..]))
  }

  lemma {:induction false} CombinedJoin(fs: Files, a: seq<Path>, b: seq<Path>)
    ensures Combined(fs, a + b) == Merge(Combined(fs, a), Combined(fs, b))
    decreases |a|
  {
    MergeLaws(Combined(fs, b), EMPTY, EMPTY);
    if a == [] {
      assert a + b == b;
    } else {
      assert (a + b)[1..] == a[1..] + b;
      CombinedJoin(fs, a[1..], b);
      var first := if a[0] in fs && fs[a[0]].Parsed? then fs[a[0]].own else EMPTY;
      MergeLaws(first, Combined(fs, a[1..]), Combined(fs, b));
    }
  }

  ghost predicate Fresh(order: seq<Path>, visited: set<Path>) {
    NoDup(order) && Elements(order) !! visited
  }

  lemma CommonElement(a: seq<Path>, b: seq<Path>, x: Path)
    requires x in a && x in b
    ensures !NoDup(a + b)
  {
    var i :| 0 <= i < |a| && a[i] == x;
    var j :| 0 <= j < |b| && b[j] == x;
    assert (a + b)[i] == (a + b)[|a| + j];
  }

  lemma FreshSplit(a: seq<Path>, b: seq<Path>, visited: set<Path>)
    ensures Fresh(a + b, visited) <==> Fresh(a, visited) && Fresh(b, visited + Elements(a))
    ensures Elements(a + b) == Elements(a) + Elements(b)
  {
    var s := a + b;
    assert forall x :: x in s <==> x in a || x in b;
    if Fresh(s, visited) {
      forall i, j | 0 <= i < j < |a| ensures a[i] != a[j] {
        assert a[i] == s[i] && a[j] == s[j];
      }
      forall i, j | 0 <= i < j < |b| ensures b[i] != b[j] {
        assert b[i] == s[|a| + i] && b[j] == s[|a| + j];
      }
      forall x | x in a ensures x !in b {
        if x in b {
          CommonElement(a, b, x);
        }
      }
    }
    if Fresh(a, visited) && Fresh(b, visited + Elements(a)) {
      assert forall x :: x in b ==> x in Elements(b) && x !in Elements(a);
      forall i, j | 0 <= i < j < |s| ensures s[i] != s[j] {
        assert (i < |a| ==> s[i] in a) && (j >= |a| ==> s[j] in b);
      }
    }
  }

  /** An unfolding without repetition loads, and loads to its sections merged in preorder. */
  lemma {:induction false} UnfoldingLoads(fs: Files, t: Tree, visited: set<Path>)
    requires Unfolds(fs, t)
    ensures if Fresh(Preorder(t), visited)
            then Load(fs, t.path, visited) == Loaded(Combined(fs, Preorder(t)), visited + Elements(Preorder(t)))
            else Load(fs, t.path, visited).Failed?
    decreases t, 0
  {
    FreshSplit([t.path], PreorderAll(t.children), visited);
    assert Elements([t.path]) == {t.path};
    assert Fresh([t.path], visited) <==> t.path !in visited;
    if t.path !in visited {
      ChildrenLoad(fs, t.children, fs[t.path].includes, visited + {t.path}, fs[t.path].own);
      assert ([t.path] + PreorderAll(t.children))[1..] == PreorderAll(t.children);
      assert visited + {t.path} + Elements(PreorderAll(t.children)) == visited + Elements(Preorder(t));
    }
  }

  lemma {:induction false} ChildrenLoad(fs: Files, ts: seq<Tree>, includes: seq<Include>, visited: set<Path>, config: Config)
    requires UnfoldAll(fs, ts, includes)
    ensures if Fresh(PreorderAll(ts), visited)
            then LoadIncludes(fs, includes, visited, config) ==
                 Loaded(Merge(config, Combined(fs, PreorderAll(ts))), visited + Elements(PreorderAll(ts)))
            else LoadIncludes(fs, includes, visited, config).Failed?
    decreases ts, 1
  {
    if ts == [] {
      MergeLaws(config, EMPTY, EMPTY);
      assert visited + Elements(PreorderAll(ts)) == visited;
    } else {
      var first, rest := Preorder(ts[0]), PreorderAll(ts[1..]);
      UnfoldingLoads(fs, ts[0], visited);
      FreshSplit(first, rest, visited);
      if Fresh(first, visited) {
        ChildrenLoad(fs, ts[1..], includes[1..], visited + Elements(first), Merge(config, Combined(fs, first)));
        CombinedJoin(fs, first, rest);
        MergeLaws(config, Combined(fs, first), Combined(fs, rest));
        assert visited + Elements(first) + Elements(rest) == visited + Elements(first + rest);
      }
    }
  }

  /** Whatever loads has a finite unfolding. */
  lemma {:induction false} LoadedUnfolds(fs: Files, path: Path, visited: set<Path>) returns (t: Tree)
    requires Load(fs, path, visited).Loaded?
    ensures t.path == path && Unfolds(fs, t)
    decreases fs.Keys - visited, 0
  {
    var ts := IncludesUnfold(fs, fs[path].includes, visited + {path}, fs[path].own);
    t := Node(path, ts);
  }

  lemma {:induction false} IncludesUnfold(fs: Files, includes: seq<Include>, visited: set<Path>, config: Config)
    returns (ts: seq<Tree>)
    requires LoadIncludes(fs, includes, visited, config).Loaded?
    ensures UnfoldAll(fs, ts, includes)
    decreases fs.Keys - visited, 1 + |includes|
  {
    if includes == [] {
      ts := [];
    } else {
      var inc := Load(fs, includes[0].path, visited);
      var t := LoadedUnfolds(fs, includes[0].path, visited);
      var rest := IncludesUnfold(fs, includes[1..], inc.visited, Merge(config, inc.config));
      ts := [t] + rest;
    }
  }

  /** A file loads exactly when its unfolding is finite, parses throughout and names no file twice. */
  lemma LoadsIffNoRepetition(fs: Files, root: Path)
    ensures Load(fs, root, {}).Loaded? <==>
            exists t: Tree :: t.path == root && Unfolds(fs, t) && NoDup(Preorder(t))
    ensures forall t: Tree :: t.path == root && Unfolds(fs, t) && NoDup(Preorder(t)) ==>
              Load(fs, root, {}) == Loaded(Combined(fs, Preorder(t)), Elements(Preorder(t)))
  {
    if Load(fs, root, {}).Loaded? {
      var t := LoadedUnfolds(fs, root, {});
      UnfoldingLoads(fs, t, {});
    }
    forall t: Tree | t.path == root && Unfolds(fs, t) && NoDup(Preorder(t))
      ensures Load(fs, root, {}) == Loaded(Combined(fs, Preorder(t)), Elements(Preorder(t)))
    {
      UnfoldingLoads(fs, t, {});
      assert {} + Elements(Preorder(t)) == Elements(Preorder(t));
    }
  }

  // ---------- which definition wins ----------

  ghost predicate AllParsed(fs: Files, order: seq<Path>) {
    forall p :: p in order ==> p in fs && fs[p].Parsed?
  }

  datatype Kind = Programs | Listeners | FcgiPrograms

  function Sections(c: Config, kind: Kind): map<string, Section> {
    match kind
    case Programs => c.programs
    case Listeners => c.listeners
    case FcgiPrograms => c.fcgi
  }

  /** The definition of `name` in the last file that has one. */
  ghost function LastDefinition(fs: Files, order: seq<Path>, kind: Kind, name: string): Option<Section>
    requires AllParsed(fs, order)
  {
    if order == [] then None
    else
      var last := fs[order[|order| - 1]].own;
      if name in Sections(last, kind) then Some(Sections(last, kind)[name])
      else LastDefinition(fs, order[..|order| - 1], kind, name)
  }

  lemma {:induction false} LastDefinitionWins(fs: Files, order: seq<Path>, kind: Kind, name: string)
    requires AllParsed(fs, order)
    ensures var merged := Sections(Combined(fs, order), kind);
            LastDefinition(fs, order, kind, name) == if name in merged then Some(merged[name]) else None
    decreases |order|
  {
    if order != [] {
      var k := |order| - 1;
      assert order == order[..k] + [order[k]];
      CombinedJoin(fs, order[..k], [order[k]]);
      MergeLaws(fs[order[k]].own, EMPTY, EMPTY);
      assert Combined(fs, [order[k]]) == fs[order[k]].own;
      LastDefinitionWins(fs, order[..k], kind, name);
    }
  }

  /** The server section comes from the first file in `order` that has one. */
  lemma {:induction false} FirstServerWins(fs: Files, order: seq<Path>)
    requires AllParsed(fs, order)
    ensures Combined(fs, order).server.None? ==> forall p :: p in order ==> fs[p].own.server.None?
    ensures Combined(fs, order).server.Some? ==>
              exists i :: 0 <= i < |order| && fs[order[i]].own.server == Combined(fs, order).server &&
                          forall j :: 0 <= j < i ==> fs[order[j]].own.server.None?
    decreases |order|
  {
    if order != [] {
      var rest := order[1..];
      FirstServerWins(fs, rest);
      assert order == [order[0]] + rest;
      if fs[order[0]].own.server.None? && Combined(fs, rest).server.Some? {
        var i :| 0 <= i < |rest| && fs[rest[i]].own.server == Combined(fs, rest).server &&
                 forall j :: 0 <= j < i ==> fs[rest[j]].own.server.None?;
        assert order[i + 1] == rest[i];
        forall j | 0 <= j < i + 1 ensures fs[order[j]].own.server.None? {
          assert j > 0 ==> order[j] == rest[j - 1];
        }
      }
    }
  }
}
