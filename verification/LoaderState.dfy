/** The loader's state, updated in place: the set of merged packages, the chain being
    loaded, and the growing list. */
module LoaderState {
  import opened Wrappers
  import opened Loader

  class LoadState {
    const env: Env
    var merged: set<Path>
    var loading: seq<Path>
    var graph: seq<LoadedFile>

    constructor (env: Env)
      ensures this.env == env && merged == {} && loading == [] && graph == []
    {
      this.env := env;
      merged, loading, graph := {}, [], [];
    }

    /** The merged set is the listed packages. */
    ghost predicate Valid()
      reads this
    {
      Resolves(env) && forall p :: p in merged <==> Listed(graph, p)
    }

    /** The depth-first walk over the mutable loader state. */
    method LoadResolved(p: Path) returns (error: Option<Error>)
      requires Valid() && p in env
      modifies this
      ensures match old(Load(env, p, loading, graph))
              case Ok(g) => error == None && graph == g && loading == old(loading) && Valid()
              case Err(e) => error == Some(e)
      decreases Rest(env, loading), 1
    {
      if p in merged { return None; }
      var i := 0;
      while i < |loading|
        invariant 0 <= i <= |loading| && p !in loading[..i] && loading == old(loading)
      {
        if loading[i] == p { return Some(ImportCycle(loading + [p])); }
        i := i + 1;
      }
      assert loading[..|loading|] == loading;
      match env[p]
      case Broken => return Some(Unreadable(p));
      case Package(imports) =>
        loading := loading + [p];
        assert Rest(env, old(loading)) == Rest(env, loading) + {p};
        var direct;
        error, direct := LoadImports(p, imports);
        if error.Some? { return; }
        Listing(graph, LoadedFile(p, direct));
        graph := graph + [LoadedFile(p, direct)];
        loading := loading[..|loading| - 1];
        merged := merged + {p};
    }

    /** The loop over a package's imports. */
    method LoadImports(p: Path, imports: seq<Import>) returns (error: Option<Error>, direct: seq<Path>)
      requires Valid() && p in env && env[p] == Package(imports) && p in loading
      modifies this
      ensures match old(Loader.LoadImports(env, p, |imports|, loading, graph))
              case Ok(g) => error == None && graph == g && loading == old(loading) && Valid() && direct == Direct(imports)
              case Err(e) => error == Some(e)
      decreases Rest(env, loading), 2
    {
      error, direct := None, [];
      ghost var g0 := graph;
      var n := 0;
      while n < |imports|
        invariant 0 <= n <= |imports| && Valid() && loading == old(loading) && error == None
        invariant direct == Direct(imports[..n])
        invariant Loader.LoadImports(env, p, n, loading, g0) == Ok(graph)
      {
        ghost var g := graph;
        assert imports[..n + 1][..n] == imports[..n];
        match imports[n] {
          case Builtin =>
          case Unresolved(name) =>
            Fails(env, p, n + 1, loading, g0);
            return Some(CannotResolve(name, p)), [];
          case Forbidden(name) =>
            Fails(env, p, n + 1, loading, g0);
            return Some(InternalImport(name, p)), [];
          case To(q) =>
            direct := direct + [q];
            error := LoadResolved(q);
            if error.Some? {
              Fails(env, p, n + 1, old(loading), g0);
              return error, [];
            }
        }
        n := n + 1;
      }
      assert imports[..|imports|] == imports;
    }
  }

  lemma Listing(g: seq<LoadedFile>, f: LoadedFile)
    ensures forall q :: Listed(g + [f], q) <==> Listed(g, q) || q == f.path
  {
    forall q ensures Listed(g + [f], q) <==> Listed(g, q) || q == f.path {
      if Listed(g, q) { ListedGrows(g, g + [f], q); }
      assert (g + [f])[|g|] == f;
    }
  }

  /** Once an import has failed, so has the whole list. */
  lemma {:induction false} Fails(env: Env, p: Path, n: nat, loading: seq<Path>, graph: seq<LoadedFile>)
    requires Resolves(env) && p in env && env[p].Package? && n <= |env[p].imports| && p in loading
    requires Loader.LoadImports(env, p, n, loading, graph).Err?
    ensures Loader.LoadImports(env, p, |env[p].imports|, loading, graph) == Loader.LoadImports(env, p, n, loading, graph)
    decreases |env[p].imports| - n
  {
    if n < |env[p].imports| { Fails(env, p, n + 1, loading, graph); }
  }
}
