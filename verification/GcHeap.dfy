/** The collector and the root registry as objects in memory: colours, the grey list, the
    sweep, and handles that register themselves. */
module GcHeap {
  import opened Wrappers
  import opened GcModel

  class GCObject {
    var black: bool
    var members: seq<GCObject?>

    constructor (members: seq<GCObject?>)
      ensures this.members == members && !black
    {
      black := false;
      this.members := members;
    }
  }

  /** What o traces: its members that are not null. */
  ghost function Edges(o: GCObject): set<GCObject>
    reads o
  {
    set c: GCObject | c in o.members
  }

  ghost function Elements(os: seq<GCObject>): set<GCObject> { set o | o in os }

  ghost function Objects(os: seq<GCObject>): map<GCObject, set<GCObject>>
    reads os
  {
    map o | o in os :: Edges(o)
  }

  class Heap {
    var objects: seq<GCObject>
    var roots: seq<Persistent>

    constructor ()
      ensures objects == [] && roots == []
    {
      objects, roots := [], [];
    }

    /** The objects the registered roots hold. */
    ghost function RootObjects(): set<GCObject>
      reads this, roots
    {
      set r | r in roots && r.p != null :: r.p
    }

    /** Roots and edges stay inside the heap. */
    ghost predicate Inside()
      reads this, roots, objects
    {
      && Distinct(objects)
      && (forall r :: r in roots && r.p != null ==> r.p in objects)
      && (forall o :: o in objects ==> Edges(o) <= Elements(objects))
    }

    method Make(members: seq<GCObject?>) returns (o: GCObject)
      modifies this`objects
      ensures fresh(o) && o.members == members && objects == old(objects) + [o]
    {
      o := new GCObject(members);
      objects := objects + [o];
    }

    /** Allocates and registers at once, so no collection can come between. */
    method MakeRooted(members: seq<GCObject?>) returns (h: Persistent)
      modifies this
      ensures fresh(h) && h.heap == this && h.p != null && fresh(h.p) && h.p.members == members
      ensures objects == old(objects) + [h.p] && roots == Attach(old(roots), h, true)
    {
      var o := new GCObject(members);
      objects := objects + [o];
      h := new Persistent.AlreadyLocked(this, o);
    }

    method AddRoot(r: Persistent)
      modifies this`roots
      ensures roots == old(roots) + [r]
    {
      roots := roots + [r];
    }

    /** Unregisters a handle; one that is not registered changes nothing. */
    method Remove(r: Persistent)
      modifies this`roots
      ensures roots == RemoveRoot(old(roots), r)
    {
      var i := 0;
      while i < |roots|
        invariant 0 <= i <= |roots| && roots == old(roots)
        invariant IndexOf(roots, r) == i + IndexOf(roots[i..], r)
      {
        if roots[i] == r {
          roots := roots[i := roots[|roots| - 1]];
          roots := roots[..|roots| - 1];
          return;
        }
        assert roots[i..][1..] == roots[i + 1..];
        i := i + 1;
      }
    }

    /** Mark and sweep. The objects kept are exactly those reachable from the roots, in
        their order; nothing else about them changes but the colour. */
    method Collect()
      requires Inside()
      modifies this`objects, objects
      ensures var g := old(Objects(objects)); var start := old(RootObjects());
        exists live: set<GCObject> ::
          && (forall o :: o in live <==> o in old(objects) && Reachable(g, start, o))
          && objects == Filter(old(objects), live)
      ensures forall o :: o in old(objects) ==> o.members == old(o.members)
    {
      ghost var g := Objects(objects);
      ghost var start := RootObjects();
      Whiten();
      var grey := GreyRoots();
      Mark(grey, g, start);
      ghost var live := Blacks();
      Sweep();
      assert forall o :: o in live <==> o in old(objects) && Reachable(g, start, o);
    }

    method Whiten()
      modifies objects
      ensures forall o :: o in objects ==> !o.black && o.members == old(o.members)
    {
      var i := 0;
      while i < |objects|
        invariant 0 <= i <= |objects|
        invariant forall o :: o in objects ==> o.members == old(o.members)
        invariant forall o :: o in objects[..i] ==> !o.black
      {
        objects[i].black := false;
        i := i + 1;
      }
      assert objects[..|objects|] == objects;
    }

    method GreyRoots() returns (grey: seq<GCObject>)
      ensures Elements(grey) == RootObjects()
    {
      grey := [];
      var i := 0;
      while i < |roots|
        invariant 0 <= i <= |roots|
        invariant forall o :: o in grey <==> exists r :: r in roots[..i] && r.p == o
      {
        var o := roots[i].p;
        if o != null { grey := grey + [o]; }
        i := i + 1;
      }
      assert roots[..|roots|] == roots;
    }

    ghost function Blacks(): set<GCObject>
      reads this, objects
    {
      set o | o in objects && o.black
    }

    /** The grey loop. Objects may stand on the grey list many times; each round blackens
        an object or uses up an entry. */
    method Mark(first: seq<GCObject>, ghost g: map<GCObject, set<GCObject>>, ghost start: set<GCObject>)
      requires Objects(objects) == g && Elements(first) == start <= Elements(objects) && Blacks() == {}
      requires forall o :: o in objects ==> Edges(o) <= Elements(objects)
      modifies objects
      ensures forall o :: o in objects ==> o.members == old(o.members)
      ensures forall o :: o in Blacks() <==> Reachable(g, start, o)
    {
      var grey := first;
      MarkingStarts(g, start);
      var i := 0;
      assert grey[0..] == grey;
      while i < |grey|
        invariant 0 <= i <= |grey| && Elements(grey) <= Elements(objects)
        invariant forall o :: o in objects ==> o.members == old(o.members)
        invariant Marking(g, start, Blacks(), Elements(grey[i..]))
        decreases Elements(objects) - Blacks(), |grey| - i
      {
        ghost var o, white := grey[i], Elements(objects) - Blacks();
        assert o in Elements(grey);
        grey := Round(grey, i, g, start);
        assert Elements(objects) - Blacks() == white - {o};
        i := i + 1;
      }
      assert Elements(grey[i..]) == {};
      forall o ensures o in Blacks() <==> Reachable(g, start, o) { MarkingEnds(g, start, Blacks(), o); }
    }

    /** Reading one grey entry: nothing happens if it is black already, else it turns black
        and is traced. */
    method Round(grey: seq<GCObject>, i: nat, ghost g: map<GCObject, set<GCObject>>, ghost start: set<GCObject>)
      returns (more: seq<GCObject>)
      requires i < |grey| && Objects(objects) == g && Elements(grey) <= Elements(objects)
      requires forall o :: o in objects ==> Edges(o) <= Elements(objects)
      requires Marking(g, start, Blacks(), Elements(grey[i..]))
      modifies objects
      ensures forall o :: o in objects ==> o.members == old(o.members)
      ensures |more| > i && Elements(more) <= Elements(objects) && Marking(g, start, Blacks(), Elements(more[i + 1..]))
      ensures Blacks() == old(Blacks()) + {grey[i]}
      ensures grey[i] in old(Blacks()) ==> more == grey
    {
      var o := grey[i];
      more := grey;
      assert o in Elements(grey) && o in objects;
      ghost var rest := Elements(grey[i + 1..]);
      ghost var before := Blacks();
      assert grey[i..] == [o] + grey[i + 1..];
      assert Elements(grey[i..]) == {o} + rest;
      MarkingStep(g, start, before, o, rest);
      if !o.black {
        o.black := true;
        ghost var after := before + {o};
        assert Blacks() == after;
        more := Trace(o, grey, i + 1);
        ghost var pending := rest + (g[o] - after);
        assert Elements(more[i + 1..]) == pending;
      }
    }

    /** Visiting o's members: those that are neither null nor black turn grey. */
    method Trace(o: GCObject, grey: seq<GCObject>, i: nat) returns (more: seq<GCObject>)
      requires i <= |grey| && Edges(o) <= Elements(objects) && Elements(grey) <= Elements(objects)
      ensures i <= |more| && Elements(more) <= Elements(objects)
      ensures Elements(more[i..]) == Elements(grey[i..]) + (Edges(o) - Blacks())
    {
      more := grey;
      var k := 0;
      while k < |o.members|
        invariant 0 <= k <= |o.members| && i <= |more| && Elements(more) <= Elements(objects)
        invariant forall c: GCObject :: c in more[i..] <==> c in grey[i..] || (c in o.members[..k] && !c.black)
      {
        var c := o.members[k];
        assert o.members[..k + 1] == o.members[..k] + [c];
        if c != null && !c.black {
          assert c in Edges(o);
          assert (more + [c])[i..] == more[i..] + [c];
          more := more + [c];
        }
        k := k + 1;
      }
      assert o.members[..|o.members|] == o.members;
    }

    /** Keeps the marked objects, in their order. */
    method Sweep()
      modifies this`objects
      ensures objects == Filter(old(objects), old(Blacks()))
    {
      ghost var black := Blacks();
      var keep := [];
      var i := 0;
      while i < |objects|
        invariant 0 <= i <= |objects| && objects == old(objects)
        invariant keep == Filter(objects[..i], black)
      {
        assert objects[..i + 1][..i] == objects[..i];
        if objects[i].black { keep := keep + [objects[i]]; }
        i := i + 1;
      }
      assert objects[..|objects|] == objects;
      objects := keep;
    }
  }

  /** A handle registers itself as a root while it holds an object. */
  class Persistent {
    const heap: Heap
    var p: GCObject?

    constructor AlreadyLocked(heap: Heap, p: GCObject?)
      modifies heap`roots
      ensures this.heap == heap && this.p == p && heap.roots == Attach(old(heap.roots), this, p != null)
    {
      this.heap, this.p := heap, p;
      new;
      AttachLocked();
    }

    constructor (heap: Heap, p: GCObject?)
      modifies heap`roots
      ensures this.heap == heap && this.p == p && heap.roots == Attach(old(heap.roots), this, p != null)
    {
      this.heap, this.p := heap, null;
      new;
      Reset(p);
    }

    /** The move constructor. */
    constructor Move(heap: Heap, o: Persistent)
      requires o.heap == heap
      modifies heap`roots, o`p
      ensures this.heap == heap && p == old(o.p) && o.p == null
      ensures heap.roots == Attach(Detach(old(heap.roots), o, old(o.p) != null), this, old(o.p) != null)
    {
      this.heap, this.p := heap, o.p;
      new;
      o.DetachLocked();
      o.p := null;
      AttachLocked();
    }

    method AttachLocked()
      modifies heap`roots
      ensures heap.roots == Attach(old(heap.roots), this, p != null)
    {
      if p != null { heap.AddRoot(this); }
    }

    method DetachLocked()
      modifies heap`roots
      ensures heap.roots == Detach(old(heap.roots), this, p != null)
    {
      if p != null { heap.Remove(this); }
    }

    /** Assignment of a pointer, null included. */
    method Reset(q: GCObject?)
      modifies heap`roots, this`p
      ensures p == q && heap.roots == Attach(Detach(old(heap.roots), this, old(p) != null), this, q != null)
    {
      DetachLocked();
      p := q;
      AttachLocked();
    }

    /** Move assignment; moving a handle onto itself does nothing. */
    method MoveFrom(o: Persistent)
      requires o.heap == heap
      modifies heap`roots, this`p, o`p
      ensures this == o ==> p == old(p) && heap.roots == old(heap.roots)
      ensures this != o ==> p == old(o.p) && o.p == null
      ensures this != o ==>
        heap.roots == Attach(Detach(Detach(old(heap.roots), this, old(p) != null), o, old(o.p) != null), this, old(o.p) != null)
    {
      if this == o { return; }
      DetachLocked();
      p := o.p;
      o.DetachLocked();
      o.p := null;
      AttachLocked();
    }

    /** The destructor. */
    method Destroy()
      modifies heap`roots
      ensures heap.roots == Detach(old(heap.roots), this, p != null)
    {
      DetachLocked();
    }
  }

  // ---- The heap of numbers --------------------------------------------------------------------

  ghost function Names(os: seq<GCObject>, name: map<GCObject, Oid>): seq<Oid>
    requires Elements(os) <= name.Keys
  {
    if os == [] then []
    else
      assert os == os[..|os|-1] + [os[|os|-1]];
      Names(os[..|os|-1], name) + [name[os[|os|-1]]]
  }

  ghost function Image(s: set<GCObject>, name: map<GCObject, Oid>): set<Oid>
    requires s <= name.Keys
  {
    set o | o in s :: name[o]
  }

  ghost predicate Injective(name: map<GCObject, Oid>) {
    forall o, q :: o in name && q in name && name[o] == name[q] ==> o == q
  }

  /** m is a heap with the objects os, the edges g and the held objects start, by their
      numbers. */
  ghost predicate Numbers(os: seq<GCObject>, g: map<GCObject, set<GCObject>>, start: set<GCObject>, name: map<GCObject, Oid>, m: Mem) {
    && Injective(name) && name.Keys == g.Keys == Elements(os) && start <= name.Keys
    && (forall o :: o in g ==> g[o] <= name.Keys)
    && m.objects == Names(os, name) && RootSet(m) == Image(start, name)
    && Graph(m).Keys == Image(name.Keys, name)
    && (forall o :: o in g ==> Graph(m)[name[o]] == Image(g[o], name))
  }

  /** The same objects are reached by the same number of steps. */
  lemma {:induction false} SameSteps(os: seq<GCObject>, g: map<GCObject, set<GCObject>>, start: set<GCObject>,
                                     name: map<GCObject, Oid>, m: Mem, n: nat)
    requires Numbers(os, g, start, name, m)
    ensures Reach(g, start, n) <= name.Keys && Reach(Graph(m), RootSet(m), n) == Image(Reach(g, start, n), name)
    decreases n
  {
    if n > 0 {
      SameSteps(os, g, start, name, m, n - 1);
      var r := Reach(g, start, n - 1);
      var r' := Image(r, name);
      forall x ensures x in Successors(Graph(m), r') <==> x in Image(Successors(g, r), name) {
        if x in Successors(Graph(m), r') {
          var y :| y in r' && y in Graph(m) && x in Graph(m)[y];
          var o :| o in r && name[o] == y;
          assert x in Image(g[o], name);
        }
        if x in Image(Successors(g, r), name) {
          var c :| c in Successors(g, r) && name[c] == x;
          var o :| o in r && o in g && c in g[o];
          assert name[o] in r' && x in Graph(m)[name[o]];
        }
      }
    }
  }

  lemma NamesSnoc(os: seq<GCObject>, o: GCObject, name: map<GCObject, Oid>)
    requires Elements(os) <= name.Keys && o in name
    ensures Elements(os + [o]) <= name.Keys && Names(os + [o], name) == Names(os, name) + [name[o]]
  {
    assert (os + [o])[..|os|] == os;
  }

  lemma {:induction false} FilterNames(os: seq<GCObject>, live: set<GCObject>, name: map<GCObject, Oid>, kept: set<Oid>)
    requires Elements(os) <= name.Keys && Injective(name)
    requires forall o :: o in os ==> (o in live <==> name[o] in kept)
    ensures Elements(Filter(os, live)) <= name.Keys && Filter(Names(os, name), kept) == Names(Filter(os, live), name)
    decreases |os|
  {
    if os != [] {
      var rest, o := os[..|os|-1], os[|os|-1];
      assert os == rest + [o];
      FilterNames(rest, live, name, kept);
      NamesSnoc(rest, o, name);
      assert o in os;
      assert (Names(rest, name) + [name[o]])[..|Names(rest, name)|] == Names(rest, name);
      var f := Filter(rest, live);
      assert f + [] == f && Names(f, name) + [] == Names(f, name);
      if o in live { NamesSnoc(f, o, name); }
    }
  }

  /** What Heap.Collect keeps, by its contract, is what a collection of the numbered heap
      keeps, in the same order. */
  lemma CollectIsTheStep(os: seq<GCObject>, g: map<GCObject, set<GCObject>>, start: set<GCObject>, live: set<GCObject>,
                         name: map<GCObject, Oid>, m: Mem)
    requires Numbers(os, g, start, name, m)
    requires forall o :: o in live <==> o in os && Reachable(g, start, o)
    ensures Elements(Filter(os, live)) <= name.Keys && Step(m, Collect).objects == Names(Filter(os, live), name)
  {
    forall o | o in os ensures o in live <==> name[o] in Live(m) {
      forall n: nat ensures o in Reach(g, start, n) <==> name[o] in Reach(Graph(m), RootSet(m), n) {
        SameSteps(os, g, start, name, m, n);
      }
      assert name[o] in Image(name.Keys, name);
      assert name[o] in m.objects;
    }
    FilterNames(os, live, name, Live(m));
  }
}
