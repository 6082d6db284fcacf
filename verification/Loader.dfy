/** Loading a module: a depth-first walk over imports that lists every package after the
    packages it imports, or reports a cycle. */
module Loader {
  import opened Wrappers

  type Path = string

  /** An import after resolution: of a built-in package, of nothing, of a package whose
      `internal` directory forbids it, or of the package at a path. */
  datatype Import = Builtin | Unresolved(name: string) | Forbidden(name: string) | To(path: Path)

  /** What is found at a path: unreadable or unparsable, or a package. */
  datatype Package = Broken | Package(imports: seq<Import>)

  type Env = map<Path, Package>

  /** Resolution only yields paths at which something was found. */
  ghost predicate Resolves(env: Env) {
    forall p, i :: p in env && env[p].Package? && 0 <= i < |env[p].imports| && env[p].imports[i].To? ==> env[p].imports[i].path in env
  }

  datatype LoadedFile = LoadedFile(path: Path, direct: seq<Path>)

  datatype Error =
    | Unreadable(path: Path)
    | CannotResolve(name: string, from: Path)
    | InternalImport(name: string, from: Path)
    | ImportCycle(chain: seq<Path>)

  datatype Loaded = Ok(graph: seq<LoadedFile>) | Err(error: Error)

  ghost predicate Listed(graph: seq<LoadedFile>, p: Path) { exists i :: 0 <= i < |graph| && graph[i].path == p }

  /** The paths a package imports directly. */
  function Direct(imports: seq<Import>): seq<Path> {
    if imports == [] then [] else Direct(imports[..|imports|-1]) + (if imports[|imports|-1].To? then [imports[|imports|-1].path] else [])
  }

  ghost function Rest(env: Env, loading: seq<Path>): set<Path> { set p | p in env && p !in loading }

  /** LoadResolved: path p with the packages in loading under way and those in graph done. */
  ghost function Load(env: Env, p: Path, loading: seq<Path>, graph: seq<LoadedFile>): Loaded
    requires Resolves(env) && p in env
    decreases Rest(env, loading), 1, 0
  {
    if Listed(graph, p) then Ok(graph)
    else if p in loading then Err(ImportCycle(loading + [p]))
    else match env[p]
    case Broken => Err(Unreadable(p))
    case Package(imports) =>
      assert Rest(env, loading) == Rest(env, loading + [p]) + {p};
      match LoadImports(env, p, |imports|, loading + [p], graph)
      case Ok(g) => Ok(g + [LoadedFile(p, Direct(imports))])
      case Err(e) => Err(e)
  }

  /** The first n imports of p, in order. */
  ghost function LoadImports(env: Env, p: Path, n: nat, loading: seq<Path>, graph: seq<LoadedFile>): Loaded
    requires Resolves(env) && p in env && env[p].Package? && n <= |env[p].imports| && p in loading
    decreases Rest(env, loading), 2, n
  {
    if n == 0 then Ok(graph) else
    match LoadImports(env, p, n - 1, loading, graph)
    case Err(e) => Err(e)
    case Ok(g) =>
      match env[p].imports[n - 1]
      case Builtin => Ok(g)
      case Unresolved(name) => Err(CannotResolve(name, p))
      case Forbidden(name) => Err(InternalImport(name, p))
      case To(q) => Load(env, q, loading, g)
  }

  ghost function LoadModule(env: Env, entry: Path): Loaded
    requires Resolves(env)
  {
    if entry in env then Load(env, entry, [], []) else Err(Unreadable(entry))
  }

  // ---- The import graph -------------------------------------------------------------------

  ghost predicate Edge(env: Env, a: Path, b: Path) {
    a in env && env[a].Package? && To(b) in env[a].imports
  }

  /** A chain of imports. */
  ghost predicate Walk(env: Env, w: seq<Path>) {
    w != [] && forall i :: 0 <= i < |w| - 1 ==> Edge(env, w[i], w[i + 1])
  }

  ghost predicate Reaches(env: Env, a: Path, b: Path) {
    exists w :: Walk(env, w) && w[0] == a && w[|w|-1] == b
  }

  /** Some package reachable from the entry imports itself through a chain. */
  ghost predicate HasCycle(env: Env, entry: Path) {
    exists w :: Walk(env, w) && w[0] == entry && exists i :: 0 <= i < |w| - 1 && w[i] == w[|w|-1]
  }

  /** Every package reachable from the entry can be read and all its imports resolve. */
  ghost predicate Clean(env: Env, entry: Path) {
    forall p :: Reaches(env, entry, p) ==> p in env && CleanAt(env, p)
  }

  ghost predicate CleanAt(env: Env, p: Path)
    requires p in env
  {
    env[p].Package? && forall i :: 0 <= i < |env[p].imports| ==> env[p].imports[i].Builtin? || env[p].imports[i].To?
  }

  lemma WalkSnoc(env: Env, w: seq<Path>, p: Path)
    requires (w == [] || (Walk(env, w) && Edge(env, w[|w|-1], p)))
    ensures Walk(env, w + [p])
  {
  }

  lemma ReachesSelf(env: Env, p: Path)
    ensures Reaches(env, p, p)
  {
    assert Walk(env, [p]) && [p][0] == p;
  }

  lemma ReachesNext(env: Env, a: Path, b: Path, c: Path)
    requires Edge(env, a, b) && Reaches(env, b, c)
    ensures Reaches(env, a, c)
  {
    var w :| Walk(env, w) && w[0] == b && w[|w|-1] == c;
    var v := [a] + w;
    forall i | 0 <= i < |v| - 1 ensures Edge(env, v[i], v[i + 1]) {
      if i > 0 { assert v[i] == w[i - 1] && v[i + 1] == w[i]; }
    }
    assert Walk(env, v) && v[0] == a && v[|v|-1] == c;
  }

  // ---- Dependency order ----------------------------------------------------------------------

  /** Each package once, found, readable, resolved, with its direct imports, all of which
      are listed before it. */
  ghost predicate Ordered(env: Env, graph: seq<LoadedFile>) {
    forall i :: 0 <= i < |graph| ==> Placed(env, graph, i)
  }

  ghost predicate Placed(env: Env, graph: seq<LoadedFile>, i: nat)
    requires i < |graph|
  {
    var p := graph[i].path;
    && p in env && CleanAt(env, p) && graph[i].direct == Direct(env[p].imports)
    && (forall j :: 0 <= j < i ==> graph[j].path != p)
    && (forall q :: Edge(env, p, q) ==> Listed(graph[..i], q))
  }

  ghost predicate Disjoint(graph: seq<LoadedFile>, loading: seq<Path>) { forall p :: p in loading ==> !Listed(graph, p) }

  lemma ListedGrows(g: seq<LoadedFile>, g': seq<LoadedFile>, p: Path)
    requires g <= g' && Listed(g, p)
    ensures Listed(g', p)
  {
    var i :| 0 <= i < |g| && g[i].path == p;
    assert g'[i].path == p;
  }

  lemma OrderedSnoc(env: Env, g: seq<LoadedFile>, f: LoadedFile)
    requires Ordered(env, g) && f.path in env && CleanAt(env, f.path) && f.direct == Direct(env[f.path].imports)
    requires !Listed(g, f.path) && forall q :: Edge(env, f.path, q) ==> Listed(g, q)
    ensures Ordered(env, g + [f])
  {
    var g' := g + [f];
    forall i | 0 <= i < |g'| ensures Placed(env, g', i) {
      assert g'[..|g|] == g;
      if i < |g| {
        assert Placed(env, g, i) && g'[..i] == g[..i];
      }
    }
  }

  /** What a successful load of p adds: packages p reaches, p last unless it was there. */
  ghost predicate Adds(env: Env, p: Path, g: seq<LoadedFile>, g': seq<LoadedFile>) {
    && g <= g' && Ordered(env, g')
    && forall i :: |g| <= i < |g'| ==> Reaches(env, p, g'[i].path)
  }

  /** What one call of Load adds to the graph, and in which order. */
  lemma {:induction false} LoadOrders(env: Env, p: Path, loading: seq<Path>, graph: seq<LoadedFile>)
    requires Resolves(env) && p in env && Ordered(env, graph) && Disjoint(graph, loading) && Load(env, p, loading, graph).Ok?
    ensures var g := Load(env, p, loading, graph).graph;
      Adds(env, p, graph, g) && Listed(g, p) && Disjoint(g, loading) && (!Listed(graph, p) ==> g != [] && g[|g|-1].path == p)
    decreases Rest(env, loading), 1, 0
  {
    if !Listed(graph, p) {
      var imports := env[p].imports;
      var loading' := loading + [p];
      assert Rest(env, loading) == Rest(env, loading') + {p};
      LoadImportsOrders(env, p, |imports|, loading', graph);
      var g := LoadImports(env, p, |imports|, loading', graph).graph;
      var f := LoadedFile(p, Direct(imports));
      assert p in loading';
      AllImportsDone(env, p, g);
      OrderedSnoc(env, g, f);
      assert (g + [f])[|g|].path == p;
      ReachesSelf(env, p);
      forall q | q in loading ensures !Listed(g + [f], q) { assert q in loading' && !Listed(g, q); }
    }
  }

  lemma {:induction false} LoadImportsOrders(env: Env, p: Path, n: nat, loading: seq<Path>, graph: seq<LoadedFile>)
    requires Resolves(env) && p in env && env[p].Package? && n <= |env[p].imports| && p in loading
    requires Ordered(env, graph) && Disjoint(graph, loading) && LoadImports(env, p, n, loading, graph).Ok?
    ensures var g := LoadImports(env, p, n, loading, graph).graph;
      && Adds(env, p, graph, g) && Disjoint(g, loading)
      && forall i :: 0 <= i < n ==> ImportDone(env, p, i, g)
    decreases Rest(env, loading), 2, n
  {
    if n > 0 {
      LoadImportsOrders(env, p, n - 1, loading, graph);
      var g1 := LoadImports(env, p, n - 1, loading, graph).graph;
      var g := LoadImports(env, p, n, loading, graph).graph;
      if env[p].imports[n - 1].To? {
        var q := env[p].imports[n - 1].path;
        LoadOrders(env, q, loading, g1);
        forall i | |graph| <= i < |g| ensures Reaches(env, p, g[i].path) {
          if i >= |g1| { ReachesNext(env, p, q, g[i].path); }
        }
        forall i | 0 <= i < n - 1 ensures ImportDone(env, p, i, g) {
          assert ImportDone(env, p, i, g1);
          if env[p].imports[i].To? { ListedGrows(g1, g, env[p].imports[i].path); }
        }
      }
    }
  }

  lemma AllImportsDone(env: Env, p: Path, g: seq<LoadedFile>)
    requires p in env && env[p].Package? && forall i :: 0 <= i < |env[p].imports| ==> ImportDone(env, p, i, g)
    ensures CleanAt(env, p) && forall q :: Edge(env, p, q) ==> Listed(g, q)
  {
    forall i | 0 <= i < |env[p].imports| ensures env[p].imports[i].Builtin? || env[p].imports[i].To? {
      assert ImportDone(env, p, i, g);
    }
    forall q | Edge(env, p, q) ensures Listed(g, q) {
      var i :| 0 <= i < |env[p].imports| && env[p].imports[i] == To(q);
      assert ImportDone(env, p, i, g);
    }
  }

  ghost predicate ImportDone(env: Env, p: Path, i: nat, g: seq<LoadedFile>)
    requires p in env && env[p].Package? && i < |env[p].imports|
  {
    match env[p].imports[i]
    case Builtin => true
    case To(q) => Listed(g, q)
    case _ => false
  }

  /** What is listed is closed under imports. */
  lemma {:induction false} ListedWalk(env: Env, g: seq<LoadedFile>, w: seq<Path>)
    requires Ordered(env, g) && Walk(env, w) && Listed(g, w[0])
    ensures Listed(g, w[|w|-1])
    ensures |w| > 1 ==> exists i, j :: 0 <= i < j < |g| && g[i].path == w[|w|-1] && g[j].path == w[0]
    decreases |w|
  {
    if |w| > 1 {
      var j :| 0 <= j < |g| && g[j].path == w[0];
      assert Placed(env, g, j) && Edge(env, w[0], w[1]);
      var i :| 0 <= i < |g[..j]| && g[..j][i].path == w[1];
      assert g[i].path == w[1];
      ListedWalk(env, g, w[1..]);
      if |w| > 2 {
        var a, b :| 0 <= a < b < |g| && g[a].path == w[1..][|w[1..]|-1] && g[b].path == w[1];
        OnceOnly(env, g, b, i);
      }
    }
  }

  lemma OnceOnly(env: Env, g: seq<LoadedFile>, a: nat, b: nat)
    requires Ordered(env, g) && a < |g| && b < |g| && g[a].path == g[b].path
    ensures a == b
  {
    assert Placed(env, g, a) && Placed(env, g, b);
  }

  // ---- Cycles ----------------------------------------------------------------------------------

  /** The packages under way are a chain of imports that leads to p. */
  ghost predicate OnTheWay(env: Env, entry: Path, loading: seq<Path>, p: Path) {
    Walk(env, loading + [p]) && (loading + [p])[0] == entry
  }

  ghost predicate IsCycle(env: Env, entry: Path, chain: seq<Path>) {
    Walk(env, chain) && chain[0] == entry && exists i :: 0 <= i < |chain| - 1 && chain[i] == chain[|chain|-1]
  }

  /** What can go wrong and what then is the case. */
  ghost predicate Justified(env: Env, entry: Path, e: Error) {
    match e
    case ImportCycle(chain) => IsCycle(env, entry, chain)
    case Unreadable(p) => Reaches(env, entry, p) && (p !in env || env[p].Broken?)
    case CannotResolve(name, p) => Reaches(env, entry, p) && p in env && env[p].Package? && Unresolved(name) in env[p].imports
    case InternalImport(name, p) => Reaches(env, entry, p) && p in env && env[p].Package? && Forbidden(name) in env[p].imports
  }

  lemma {:induction false} LoadFails(env: Env, entry: Path, p: Path, loading: seq<Path>, graph: seq<LoadedFile>)
    requires Resolves(env) && p in env && OnTheWay(env, entry, loading, p) && Load(env, p, loading, graph).Err?
    ensures Justified(env, entry, Load(env, p, loading, graph).error)
    decreases Rest(env, loading), 1, 0
  {
    var w := loading + [p];
    assert Reaches(env, entry, p) by { assert Walk(env, w) && w[0] == entry && w[|w|-1] == p; }
    if p in loading {
      var i :| 0 <= i < |loading| && loading[i] == p;
      assert w[i] == w[|w|-1];
    } else if env[p].Package? {
      assert Rest(env, loading) == Rest(env, w) + {p};
      LoadImportsFails(env, entry, p, |env[p].imports|, w, graph);
    }
  }

  lemma {:induction false} LoadImportsFails(env: Env, entry: Path, p: Path, n: nat, loading: seq<Path>, graph: seq<LoadedFile>)
    requires Resolves(env) && p in env && env[p].Package? && n <= |env[p].imports|
    requires Walk(env, loading) && loading[0] == entry && loading[|loading|-1] == p
    requires LoadImports(env, p, n, loading, graph).Err?
    ensures Justified(env, entry, LoadImports(env, p, n, loading, graph).error)
    decreases Rest(env, loading), 2, n
  {
    assert Reaches(env, entry, p);
    if LoadImports(env, p, n - 1, loading, graph).Err? {
      LoadImportsFails(env, entry, p, n - 1, loading, graph);
    } else {
      var imp := env[p].imports[n - 1];
      assert imp in env[p].imports;
      if imp.To? {
        WalkSnoc(env, loading, imp.path);
        LoadFails(env, entry, imp.path, loading, LoadImports(env, p, n - 1, loading, graph).graph);
      }
    }
  }

  // ---- The theorems ------------------------------------------------------------------------------

  /** A module that loads: each package reachable from the entry is listed exactly once,
      after everything it imports, and the entry comes last. */
  lemma LoadedInDependencyOrder(env: Env, entry: Path)
    requires Resolves(env) && LoadModule(env, entry).Ok?
    ensures var g := LoadModule(env, entry).graph;
      && Ordered(env, g)
      && (forall p :: Listed(g, p) <==> Reaches(env, entry, p))
      && g != [] && g[|g|-1].path == entry
  {
    LoadOrders(env, entry, [], []);
    var g := LoadModule(env, entry).graph;
    forall p | Reaches(env, entry, p) ensures Listed(g, p) {
      var w :| Walk(env, w) && w[0] == entry && w[|w|-1] == p;
      ListedWalk(env, g, w);
    }
  }

  /** A reported cycle is one, and every other error names a reachable package it is true
      of. */
  lemma ErrorsAreReal(env: Env, entry: Path)
    requires Resolves(env) && LoadModule(env, entry).Err?
    ensures Justified(env, entry, LoadModule(env, entry).error)
  {
    if entry in env {
      LoadFails(env, entry, entry, [], []);
    } else {
      ReachesSelf(env, entry);
    }
  }

  /** Loading succeeds exactly when everything reachable is clean and nothing reachable
      imports itself. */
  lemma LoadsExactlyWhenPossible(env: Env, entry: Path)
    requires Resolves(env)
    ensures LoadModule(env, entry).Ok? <==> Clean(env, entry) && !HasCycle(env, entry)
  {
    if LoadModule(env, entry).Ok? {
      LoadedInDependencyOrder(env, entry);
      var g := LoadModule(env, entry).graph;
      forall p | Reaches(env, entry, p) ensures p in env && CleanAt(env, p) {
        var i :| 0 <= i < |g| && g[i].path == p;
        assert Placed(env, g, i);
      }
      forall w, i | Walk(env, w) && w[0] == entry && 0 <= i < |w| - 1 ensures w[i] != w[|w|-1] {
        NoWayBack(env, entry, g, w, i);
      }
    } else {
      ErrorsAreReal(env, entry);
    }
  }

  lemma NoWayBack(env: Env, entry: Path, g: seq<LoadedFile>, w: seq<Path>, i: nat)
    requires Ordered(env, g) && Listed(g, entry) && Walk(env, w) && w[0] == entry && i < |w| - 1
    ensures w[i] != w[|w|-1]
  {
    assert Walk(env, w[..i + 1]) && w[..i + 1][0] == entry;
    ListedWalk(env, g, w[..i + 1]);
    var v := w[i..];
    assert Walk(env, v) && v[0] == w[i] && v[|v|-1] == w[|w|-1];
    ListedWalk(env, g, v);
    var a, b :| 0 <= a < b < |g| && g[a].path == v[|v|-1] && g[b].path == v[0];
    if w[i] == w[|w|-1] { OnceOnly(env, g, a, b); }
  }

  /** When every import resolves, a cycle is reported exactly when there is one. */
  lemma CycleReportedExactlyWhenThereIsOne(env: Env, entry: Path)
    requires Resolves(env) && Clean(env, entry)
    ensures (LoadModule(env, entry).Err? && LoadModule(env, entry).error.ImportCycle?) <==> HasCycle(env, entry)
    ensures LoadModule(env, entry).Err? ==> LoadModule(env, entry).error.ImportCycle?
  {
    LoadsExactlyWhenPossible(env, entry);
    if LoadModule(env, entry).Err? { ErrorsAreReal(env, entry); }
  }
}
