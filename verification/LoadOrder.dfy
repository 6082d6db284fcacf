/** In which order imports are loaded, and which error is reported when there are several. */
module LoadOrder {
  import opened Wrappers
  import opened Loader
  import LoaderState

  // ---- Direct imports ---------------------------------------------------------------------

  /** at lists the positions of the imports that resolve to a path, in order. */
  ghost predicate Positions(imports: seq<Import>, at: seq<nat>) {
    && (forall k :: 0 <= k < |at| ==> at[k] < |imports| && imports[at[k]].To?)
    && (forall j, k :: 0 <= j < k < |at| ==> at[j] < at[k])
    && (forall i :: 0 <= i < |imports| && imports[i].To? ==> i in at)
  }

  /** ds are the paths at these positions. */
  ghost predicate PathsAt(imports: seq<Import>, at: seq<nat>, ds: seq<Path>) {
    |ds| == |at| && forall k :: 0 <= k < |at| ==> at[k] < |imports| && imports[at[k]] == To(ds[k])
  }

  lemma PositionsSnoc(imports: seq<Import>, imp: Import, at: seq<nat>)
    requires Positions(imports, at)
    ensures Positions(imports + [imp], if imp.To? then at + [|imports|] else at)
  {
    var all, at' := imports + [imp], if imp.To? then at + [|imports|] else at;
    forall i | 0 <= i < |all| && all[i].To? ensures i in at' {
      if i < |imports| { assert i in at; } else { assert at'[|at|] == |imports|; }
    }
  }

  lemma PathsAtSnoc(imports: seq<Import>, imp: Import, at: seq<nat>, ds: seq<Path>)
    requires PathsAt(imports, at, ds)
    ensures imp.To? ==> PathsAt(imports + [imp], at + [|imports|], ds + [imp.path])
    ensures PathsAt(imports + [imp], at, ds)
  {
  }

  /** The direct list of a package is its imports that resolve to a path, each where it
      stands, built-in ones left out. */
  lemma {:induction false} DirectIsTheImports(imports: seq<Import>) returns (at: seq<nat>)
    ensures Positions(imports, at) && PathsAt(imports, at, Direct(imports))
    decreases |imports|
  {
    at := [];
    if imports != [] {
      var front, last := imports[..|imports|-1], imports[|imports|-1];
      var rest := DirectIsTheImports(front);
      PositionsSnoc(front, last, rest);
      PathsAtSnoc(front, last, rest, Direct(front));
      assert imports == front + [last];
      assert Direct(front) + [] == Direct(front);
      at := if last.To? then rest + [|front|] else rest;
    }
  }

  /** So a path is in it if and only if an import resolves to it. */
  lemma DirectHas(imports: seq<Import>, q: Path)
    ensures q in Direct(imports) <==> To(q) in imports
  {
    var at := DirectIsTheImports(imports);
    if q in Direct(imports) {
      var k :| 0 <= k < |at| && Direct(imports)[k] == q;
      assert imports[at[k]] == To(q);
    }
    if To(q) in imports {
      var i :| 0 <= i < |imports| && imports[i] == To(q);
      assert i in at;
      var k :| 0 <= k < |at| && at[k] == i;
      assert Direct(imports)[k] == q;
    }
  }

  // ---- The order of the list ------------------------------------------------------------------

  /** a is listed before b. */
  ghost predicate Before(graph: seq<LoadedFile>, a: Path, b: Path) {
    exists i, j :: 0 <= i < j < |graph| && graph[i].path == a && graph[j].path == b
  }

  /** Fewer imports, a shorter list. */
  lemma {:induction false} FewerImports(env: Env, p: Path, n: nat, m: nat, loading: seq<Path>)
    requires Resolves(env) && p in env && env[p].Package? && n <= m <= |env[p].imports| && loading == [p]
    requires LoadImports(env, p, m, loading, []).Ok?
    ensures LoadImports(env, p, n, loading, []).Ok? && LoadImports(env, p, n, loading, []).graph <= LoadImports(env, p, m, loading, []).graph
    decreases m
  {
    if n < m {
      FewerImports(env, p, n, m - 1, loading);
      LoadImportsOrders(env, p, m - 1, loading, []);
      var imp := env[p].imports[m - 1];
      if imp.To? { LoadOrders(env, imp.path, loading, LoadImports(env, p, m - 1, loading, []).graph); }
    }
  }

  /** One of p's first n imports leads to q. */
  ghost predicate LedTo(env: Env, p: Path, n: nat, q: Path)
    requires p in env && env[p].Package? && n <= |env[p].imports|
  {
    exists h :: 0 <= h < n && env[p].imports[h].To? && Reaches(env, env[p].imports[h].path, q)
  }

  lemma {:induction false} LoadedSoFar(env: Env, p: Path, n: nat, loading: seq<Path>, i: nat)
    requires Resolves(env) && p in env && env[p].Package? && n <= |env[p].imports| && loading == [p]
    requires LoadImports(env, p, n, loading, []).Ok? && i < |LoadImports(env, p, n, loading, []).graph|
    ensures LedTo(env, p, n, LoadImports(env, p, n, loading, []).graph[i].path)
    decreases n
  {
    if n > 0 {
      FewerImports(env, p, n - 1, n, loading);
      LoadImportsOrders(env, p, n - 1, loading, []);
      var g := LoadImports(env, p, n - 1, loading, []).graph;
      var imp := env[p].imports[n - 1];
      if imp.To? { LoadOrders(env, imp.path, loading, g); }
      if i < |g| { LoadedSoFar(env, p, n - 1, loading, i); }
    }
  }

  lemma EntryIsLast(env: Env, entry: Path)
    requires Resolves(env) && LoadModule(env, entry).Ok? && env[entry].Package?
    ensures var r := LoadImports(env, entry, |env[entry].imports|, [entry], []); r.Ok? && r.graph <= LoadModule(env, entry).graph
  {
    assert [] + [entry] == [entry];
  }

  lemma LaterListedLater(env: Env, entry: Path, i: nat, a: Path, b: Path) returns (x: nat, y: nat)
    requires Resolves(env) && entry in env && env[entry].Package? && i < |env[entry].imports|
    requires LoadImports(env, entry, |env[entry].imports|, [entry], []).Ok?
    requires env[entry].imports[i] == To(a) && To(b) in env[entry].imports && !LedTo(env, entry, i + 1, b)
    ensures var g := LoadImports(env, entry, |env[entry].imports|, [entry], []).graph; x < y < |g| && g[x].path == a && g[y].path == b
  {
    var all := |env[entry].imports|;
    FewerImports(env, entry, i + 1, all, [entry]);
    var g1 := LoadImports(env, entry, i + 1, [entry], []).graph;
    x := ImportListed(env, entry, i + 1, i, a);
    var k :| 0 <= k < all && env[entry].imports[k] == To(b);
    y := ImportListed(env, entry, all, k, b);
    if y < |g1| { LoadedSoFar(env, entry, i + 1, [entry], y); }
  }

  /** Imports are loaded in the order they are written: import i of the entry comes before a
      later one that none of the imports up to i leads to. */
  lemma ImportsLoadInOrder(env: Env, entry: Path, i: nat, a: Path, b: Path)
    requires Resolves(env) && LoadModule(env, entry).Ok? && env[entry].Package? && i < |env[entry].imports|
    requires env[entry].imports[i] == To(a) && To(b) in env[entry].imports && !LedTo(env, entry, i + 1, b)
    ensures Before(LoadModule(env, entry).graph, a, b)
  {
    EntryIsLast(env, entry);
    var x, y := LaterListedLater(env, entry, i, a, b);
    var graph := LoadModule(env, entry).graph;
    assert graph[x].path == a && graph[y].path == b;
  }

  lemma ImportListed(env: Env, p: Path, n: nat, k: nat, q: Path) returns (x: nat)
    requires Resolves(env) && p in env && env[p].Package? && k < n <= |env[p].imports| && env[p].imports[k] == To(q)
    requires LoadImports(env, p, n, [p], []).Ok?
    ensures x < |LoadImports(env, p, n, [p], []).graph| && LoadImports(env, p, n, [p], []).graph[x].path == q
  {
    LoadImportsOrders(env, p, n, [p], []);
    var g := LoadImports(env, p, n, [p], []).graph;
    assert ImportDone(env, p, k, g);
    x :| 0 <= x < |g| && g[x].path == q;
  }

  // ---- Which error ------------------------------------------------------------------------------

  /** p and all it leads to can be loaded, and it leads to nothing under way. */
  ghost predicate Loadable(env: Env, p: Path, loading: seq<Path>) {
    Clean(env, p) && !HasCycle(env, p) && forall q :: q in loading ==> !Reaches(env, p, q)
  }

  lemma WalkFrom(env: Env, p: Path, q: Path, w: seq<Path>)
    requires Edge(env, p, q) && Walk(env, w) && w[0] == q
    ensures Walk(env, [p] + w)
  {
    var v := [p] + w;
    forall i | 0 <= i < |v| - 1 ensures Edge(env, v[i], v[i + 1]) {
      if i > 0 { assert v[i] == w[i - 1] && v[i + 1] == w[i]; }
    }
  }

  lemma ComesBack(env: Env, p: Path, q: Path)
    requires Edge(env, p, q) && Reaches(env, q, p)
    ensures HasCycle(env, p)
  {
    var w :| Walk(env, w) && w[0] == q && w[|w|-1] == p;
    WalkFrom(env, p, q, w);
    var v := [p] + w;
    assert Walk(env, v) && v[0] == p && v[0] == v[|v|-1] && 0 < |v| - 1;
  }

  lemma LoadableNext(env: Env, p: Path, q: Path, loading: seq<Path>)
    requires Loadable(env, p, loading) && Edge(env, p, q)
    ensures Loadable(env, q, loading + [p])
  {
    forall x | Reaches(env, q, x) ensures x in env && CleanAt(env, x) { ReachesNext(env, p, q, x); }
    forall w, i | Walk(env, w) && w[0] == q && 0 <= i < |w| - 1 ensures w[i] != w[|w|-1] {
      WalkFrom(env, p, q, w);
      var v := [p] + w;
      assert v[i + 1] == w[i] && v[|v|-1] == w[|w|-1];
    }
    forall x | x in loading + [p] ensures !Reaches(env, q, x) {
      if Reaches(env, q, x) {
        ReachesNext(env, p, q, x);
        if x == p { ComesBack(env, p, q); }
      }
    }
  }

  lemma {:induction false} LoadableLoads(env: Env, p: Path, loading: seq<Path>, graph: seq<LoadedFile>)
    requires Resolves(env) && p in env && Loadable(env, p, loading)
    ensures Load(env, p, loading, graph).Ok?
    decreases Rest(env, loading), 1, 0
  {
    ReachesSelf(env, p);
    if !Listed(graph, p) {
      assert p !in loading && CleanAt(env, p);
      assert Rest(env, loading) == Rest(env, loading + [p]) + {p};
      forall i | 0 <= i < |env[p].imports| && env[p].imports[i].To? ensures Loadable(env, env[p].imports[i].path, loading + [p]) {
        assert env[p].imports[i] in env[p].imports;
        LoadableNext(env, p, env[p].imports[i].path, loading);
      }
      ImportsLoad(env, p, |env[p].imports|, loading + [p], graph);
    }
  }

  lemma {:induction false} ImportsLoad(env: Env, p: Path, n: nat, loading: seq<Path>, graph: seq<LoadedFile>)
    requires Resolves(env) && p in env && env[p].Package? && n <= |env[p].imports| && p in loading
    requires forall i :: 0 <= i < n ==> env[p].imports[i].Builtin? || (env[p].imports[i].To? && Loadable(env, env[p].imports[i].path, loading))
    ensures LoadImports(env, p, n, loading, graph).Ok?
    decreases Rest(env, loading), 2, n
  {
    if n > 0 {
      ImportsLoad(env, p, n - 1, loading, graph);
      var imp := env[p].imports[n - 1];
      if imp.To? { LoadableLoads(env, imp.path, loading, LoadImports(env, p, n - 1, loading, graph).graph); }
    }
  }

  lemma ListedIsReadable(env: Env, g: seq<LoadedFile>, q: Path)
    requires Ordered(env, g) && Listed(g, q)
    ensures q in env && env[q].Package?
  {
    var i :| 0 <= i < |g| && g[i].path == q;
    assert Placed(env, g, i);
  }

  /** What is wrong with an import that cannot be loaded whatever has been loaded before. */
  function WrongWith(env: Env, entry: Path, imp: Import): Option<Error> {
    match imp
    case Builtin => None
    case Unresolved(name) => Some(CannotResolve(name, entry))
    case Forbidden(name) => Some(InternalImport(name, entry))
    case To(q) => if q == entry then Some(ImportCycle([entry, entry])) else if q in env && env[q].Broken? then Some(Unreadable(q)) else None
  }

  lemma NextFails(env: Env, entry: Path, i: nat, g: seq<LoadedFile>)
    requires Resolves(env) && entry in env && env[entry].Package? && i < |env[entry].imports|
    requires LoadImports(env, entry, i, [entry], []) == Ok(g) && WrongWith(env, entry, env[entry].imports[i]).Some?
    ensures LoadImports(env, entry, i + 1, [entry], []) == Err(WrongWith(env, entry, env[entry].imports[i]).value)
  {
    var imp := env[entry].imports[i];
    LoadImportsOrders(env, entry, i, [entry], []);
    if imp.To? {
      assert !Listed(g, imp.path) by {
        if imp.path == entry { assert entry in [entry]; } else if Listed(g, imp.path) { ListedIsReadable(env, g, imp.path); }
      }
      assert [entry] + [entry] == [entry, entry];
      if imp.path != entry { assert imp.path !in [entry]; }
    }
  }

  lemma ModuleFails(env: Env, entry: Path, e: Error)
    requires Resolves(env) && entry in env && env[entry].Package? && LoadImports(env, entry, |env[entry].imports|, [entry], []) == Err(e)
    ensures LoadModule(env, entry) == Err(e)
  {
    assert [] + [entry] == [entry];
  }

  /** The entry's imports before i, and all they lead to, can be loaded. */
  ghost predicate EarlierLoad(env: Env, entry: Path, i: nat)
    requires entry in env && env[entry].Package? && i <= |env[entry].imports|
  {
    forall h :: 0 <= h < i ==>
      env[entry].imports[h].Builtin? || (env[entry].imports[h].To? && Loadable(env, env[entry].imports[h].path, [entry]))
  }

  lemma EarlierLoads(env: Env, entry: Path, i: nat)
    requires Resolves(env) && entry in env && env[entry].Package? && i <= |env[entry].imports| && EarlierLoad(env, entry, i)
    ensures LoadImports(env, entry, i, [entry], []).Ok?
  {
    ImportsLoad(env, entry, i, [entry], []);
  }

  /** Of several things wrong the first in the order of imports is reported: if everything the
      entry's imports before i lead to can be loaded, the error is import i's. */
  lemma FirstErrorIsReported(env: Env, entry: Path, i: nat)
    requires Resolves(env) && entry in env && env[entry].Package? && i < |env[entry].imports|
    requires EarlierLoad(env, entry, i)
    ensures var wrong := WrongWith(env, entry, env[entry].imports[i]);
      wrong.Some? ==> LoadModule(env, entry) == Err(wrong.value)
  {
    var wrong := WrongWith(env, entry, env[entry].imports[i]);
    if wrong.Some? {
      EarlierLoads(env, entry, i);
      NextFails(env, entry, i, LoadImports(env, entry, i, [entry], []).graph);
      LoaderState.Fails(env, entry, i + 1, [entry], []);
      ModuleFails(env, entry, wrong.value);
    }
  }
}
