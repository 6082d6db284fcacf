/** Reachability told by pointers: a chain of members that starts at what a handle holds. */
module GcPaths {
  import opened Wrappers
  import opened GcModel
  import opened GcHeap

  // ---- Any graph ------------------------------------------------------------------------

  /** Each element has an edge to the next. */
  ghost predicate Path<T>(g: map<T, set<T>>, w: seq<T>) {
    w != [] && forall i :: 0 <= i < |w| - 1 ==> w[i] in g && w[i + 1] in g[w[i]]
  }

  ghost predicate PathTo<T>(g: map<T, set<T>>, start: set<T>, w: seq<T>, o: T) { Path(g, w) && w[0] in start && w[|w|-1] == o }

  lemma {:induction false} PathReaches<T>(g: map<T, set<T>>, start: set<T>, w: seq<T>)
    requires Path(g, w) && w[0] in start
    ensures Reachable(g, start, w[|w|-1])
    decreases |w|
  {
    if |w| == 1 {
      StartReachable(g, start, w[0]);
    } else {
      var v := w[..|w|-1];
      PathReaches(g, start, v);
      ReachableGoesOn(g, start, v[|v|-1], w[|w|-1]);
    }
  }

  lemma {:induction false} StepsArePath<T>(g: map<T, set<T>>, start: set<T>, o: T, n: nat) returns (w: seq<T>)
    requires o in Reach(g, start, n)
    ensures PathTo(g, start, w, o)
    decreases n
  {
    if n == 0 {
      w := [o];
    } else if o in Reach(g, start, n - 1) {
      w := StepsArePath(g, start, o, n - 1);
    } else {
      var p :| p in Reach(g, start, n - 1) && p in g && o in g[p];
      var v := StepsArePath(g, start, p, n - 1);
      w := v + [o];
    }
  }

  /** What is reachable in some number of steps is what stands at the end of some path. */
  lemma ReachableIsPath<T>(g: map<T, set<T>>, start: set<T>, o: T)
    ensures Reachable(g, start, o) <==> exists w :: PathTo(g, start, w, o)
  {
    if Reachable(g, start, o) {
      var n: nat :| o in Reach(g, start, n);
      var w := StepsArePath(g, start, o, n);
    }
    if w :| PathTo(g, start, w, o) { PathReaches(g, start, w); }
  }

  // ---- The numbered heap -------------------------------------------------------------------

  /** Handle h holds the first object, each object has the next as a member, and all that
      are followed are in the heap. */
  ghost predicate Pointers(m: Mem, h: Hid, w: seq<Oid>) {
    && w != [] && h in m.handles && m.handles[h] == Some(w[0])
    && forall i :: 0 <= i < |w| - 1 ==> w[i] in m.objects && w[i] in m.edges && Some(w[i + 1]) in m.edges[w[i]]
  }

  /** The program can get at o. */
  ghost predicate PointedTo(m: Mem, o: Oid) { exists h, w :: Pointers(m, h, w) && w[|w|-1] == o }

  lemma PointersAreEdges(m: Mem, w: seq<Oid>, i: nat)
    requires i + 1 < |w|
    ensures (w[i] in Graph(m) && w[i + 1] in Graph(m)[w[i]]) <==> (w[i] in m.objects && w[i] in m.edges && Some(w[i + 1]) in m.edges[w[i]])
  {
    if w[i] in m.edges && Some(w[i + 1]) in m.edges[w[i]] { assert Some(w[i + 1]).value in Targets(m.edges[w[i]]); }
  }

  lemma PointedToIsReachable(m: Mem, o: Oid)
    ensures PointedTo(m, o) <==> Reachable(Graph(m), Held(m), o)
  {
    ReachableIsPath(Graph(m), Held(m), o);
    if PointedTo(m, o) {
      var h, w :| Pointers(m, h, w) && w[|w|-1] == o;
      forall i: nat | i < |w| - 1 ensures w[i] in Graph(m) && w[i + 1] in Graph(m)[w[i]] { PointersAreEdges(m, w, i); }
      assert PathTo(Graph(m), Held(m), w, o);
    }
    if w :| PathTo(Graph(m), Held(m), w, o) {
      var h :| h in m.handles && m.handles[h] == Some(w[0]);
      forall i: nat | i < |w| - 1 ensures w[i] in m.objects && w[i] in m.edges && Some(w[i + 1]) in m.edges[w[i]] {
        PointersAreEdges(m, w, i);
      }
      assert Pointers(m, h, w);
    }
  }

  /** In every run whatever the program can get at is in the heap, and a collection frees
      everything else and nothing more, however the pointers run. */
  lemma CollectKeepsWhatIsPointedTo(ops: seq<Op>, m: Mem, o: Oid)
    requires RunTo(EMPTY, ops, m)
    ensures PointedTo(m, o) ==> o in m.objects && o !in m.freed
    ensures o in Step(m, Collect).objects <==> PointedTo(m, o)
    ensures PointedTo(Step(m, Collect), o) <==> PointedTo(m, o)
  {
    PointedToIsReachable(m, o);
    PointedToIsReachable(Step(m, Collect), o);
    if PointedTo(m, o) { NothingReachableIsFreed(ops, m, o); }
    CollectIsExact(ops, m, o);
  }

  lemma FilterMember<T>(xs: seq<T>, s: set<T>, x: T)
    requires x in Filter(xs, s)
    ensures x in xs
  {
    FilterIs(xs, s);
  }

  /** What is kept keeps its order. */
  lemma {:induction false} FilterKeepsOrder<T>(xs: seq<T>, s: set<T>, i: nat, j: nat) returns (a: nat, b: nat)
    requires i < j < |Filter(xs, s)|
    ensures a < b < |xs| && xs[a] == Filter(xs, s)[i] && xs[b] == Filter(xs, s)[j]
    decreases |xs|
  {
    var front := xs[..|xs|-1];
    var f := Filter(front, s);
    if j < |f| {
      a, b := FilterKeepsOrder(front, s, i, j);
    } else {
      assert f[i] in f;
      FilterMember(front, s, f[i]);
      a :| 0 <= a < |front| && front[a] == f[i];
      b := |xs| - 1;
    }
  }

  // ---- Objects in memory ---------------------------------------------------------------------

  /** Each object has the next one as a member. */
  ghost predicate Members(os: seq<GCObject>, w: seq<GCObject>)
    reads os
  {
    w != [] && forall i :: 0 <= i < |w| - 1 ==> w[i] in os && w[i + 1] in w[i].members
  }

  /** Reachability in Heap.Collect's contract is by members. */
  lemma ReachableByMembers(os: seq<GCObject>, start: set<GCObject>, o: GCObject)
    ensures Reachable(Objects(os), start, o) <==> exists w :: Members(os, w) && w[0] in start && w[|w|-1] == o
  {
    var g := Objects(os);
    ReachableIsPath(g, start, o);
    if w :| PathTo(g, start, w, o) { assert Members(os, w); }
    if w :| Members(os, w) && w[0] in start && w[|w|-1] == o {
      forall i | 0 <= i < |w| - 1 ensures w[i] in g && w[i + 1] in g[w[i]] {}
      assert PathTo(g, start, w, o);
    }
  }
}
