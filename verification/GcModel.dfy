/** The collector's world as values: objects with edges, persistent handles, and the list
    of registered roots, over every run of allocations, handle operations and
    collections. */
module GcModel {
  import opened Wrappers

  // ---- Reachability --------------------------------------------------------------------

  /** What n steps along the edges of g lead to. */
  ghost function Reach<T>(g: map<T, set<T>>, start: set<T>, n: nat): set<T> {
    if n == 0 then start else Reach(g, start, n - 1) + Successors(g, Reach(g, start, n - 1))
  }

  ghost function Successors<T>(g: map<T, set<T>>, r: set<T>): set<T> {
    set o, c | o in r && o in g && c in g[o] :: c
  }

  ghost predicate Reachable<T>(g: map<T, set<T>>, start: set<T>, o: T) {
    exists n: nat :: o in Reach(g, start, n)
  }

  ghost predicate Closed<T>(g: map<T, set<T>>, s: set<T>) {
    forall o :: o in s && o in g ==> g[o] <= s
  }

  /** A closed set with the starting points in it has everything reachable in it. */
  lemma {:induction false} ReachStays<T>(g: map<T, set<T>>, start: set<T>, s: set<T>, n: nat)
    requires start <= s && Closed(g, s)
    ensures Reach(g, start, n) <= s
    decreases n
  {
    if n > 0 { ReachStays(g, start, s, n - 1); }
  }

  lemma ReachableGoesOn<T>(g: map<T, set<T>>, start: set<T>, o: T, c: T)
    requires Reachable(g, start, o) && o in g && c in g[o]
    ensures Reachable(g, start, c)
  {
    var n: nat :| o in Reach(g, start, n);
    assert c in Reach(g, start, n + 1);
  }

  lemma StartReachable<T>(g: map<T, set<T>>, start: set<T>, o: T)
    requires o in start
    ensures Reachable(g, start, o)
  {
    assert o in Reach(g, start, 0);
  }

  /** Only the edges of reachable objects matter. */
  lemma {:induction false} SameReach<T>(g: map<T, set<T>>, g': map<T, set<T>>, start: set<T>, n: nat)
    requires forall o :: o in g && Reachable(g, start, o) ==> o in g' && g'[o] == g[o]
    requires forall o :: o in g' ==> o in g
    ensures Reach(g', start, n) == Reach(g, start, n)
    decreases n
  {
    if n > 0 {
      SameReach(g, g', start, n - 1);
      var r := Reach(g, start, n - 1);
      assert Successors(g', r) == Successors(g, r) by {
        forall o | o in r ensures Reachable(g, start, o) {}
        forall c ensures c in Successors(g', r) <==> c in Successors(g, r) {}
      }
    }
  }

  /** Marking in progress: everything black or pending is reachable; the starting points,
      and what black objects lead to, are black or pending. */
  ghost predicate Marking<T>(g: map<T, set<T>>, start: set<T>, black: set<T>, pending: set<T>) {
    && (forall o :: o in black + pending ==> Reachable(g, start, o))
    && start <= black + pending
    && (forall o :: o in black && o in g ==> g[o] <= black + pending)
  }

  lemma MarkingStarts<T>(g: map<T, set<T>>, start: set<T>)
    ensures Marking(g, start, {}, start)
  {
    forall o | o in start ensures Reachable(g, start, o) { StartReachable(g, start, o); }
  }

  /** One entry o of the grey list is read, and rest is what stays pending without it. */
  lemma MarkingStep<T>(g: map<T, set<T>>, start: set<T>, black: set<T>, o: T, rest: set<T>)
    requires Marking(g, start, black, {o} + rest) && o in g
    ensures o in black ==> Marking(g, start, black, rest)
    ensures o !in black ==> Marking(g, start, black + {o}, rest + (g[o] - (black + {o})))
  {
    forall c | c in g[o] ensures Reachable(g, start, c) { ReachableGoesOn(g, start, o, c); }
  }

  /** When no grey entry is unread, the black objects are the reachable ones. */
  lemma MarkingEnds<T>(g: map<T, set<T>>, start: set<T>, black: set<T>, o: T)
    requires Marking(g, start, black, {})
    ensures o in black <==> Reachable(g, start, o)
  {
    if Reachable(g, start, o) {
      var n: nat :| o in Reach(g, start, n);
      assert black + {} == black;
      ReachStays(g, start, black, n);
    }
  }

  // ---- Lists -----------------------------------------------------------------------------

  /** The elements of xs that are in s, in order. */
  ghost function Filter<T>(xs: seq<T>, s: set<T>): seq<T> {
    if xs == [] then [] else Filter(xs[..|xs|-1], s) + if xs[|xs|-1] in s then [xs[|xs|-1]] else []
  }

  lemma {:induction false} FilterIs<T>(xs: seq<T>, s: set<T>)
    ensures forall x :: x in Filter(xs, s) <==> x in xs && x in s
    decreases |xs|
  {
    if xs != [] {
      FilterIs(xs[..|xs|-1], s);
      assert xs == xs[..|xs|-1] + [xs[|xs|-1]];
    }
  }

  ghost predicate Distinct<T>(xs: seq<T>) { forall i, j :: 0 <= i < j < |xs| ==> xs[i] != xs[j] }

  lemma {:induction false} FilterDistinct<T>(xs: seq<T>, s: set<T>)
    requires Distinct(xs)
    ensures Distinct(Filter(xs, s))
    decreases |xs|
  {
    if xs != [] {
      var rest, x := xs[..|xs|-1], xs[|xs|-1];
      FilterDistinct(rest, s);
      FilterIs(rest, s);
      assert x !in rest;
      assert forall y :: y in Filter(rest, s) ==> y != x;
    }
  }

  /** The index of the first h, or |xs|. */
  function IndexOf<T(==)>(xs: seq<T>, h: T): (i: nat)
    ensures i <= |xs| && (i < |xs| ==> xs[i] == h) && (i == |xs| ==> h !in xs)
    ensures forall j :: 0 <= j < i ==> xs[j] != h
  {
    if xs == [] then 0 else if xs[0] == h then 0 else 1 + IndexOf(xs[1..], h)
  }

  /** RemoveRoot_locked: the last entry takes the removed one's place. */
  function RemoveRoot<T(==)>(roots: seq<T>, h: T): seq<T> {
    var i := IndexOf(roots, h);
    if i == |roots| then roots else roots[i := roots[|roots|-1]][..|roots|-1]
  }

  /** How often x stands in xs. */
  function Count<T(==)>(xs: seq<T>, x: T): nat {
    if xs == [] then 0 else Count(xs[1..], x) + if xs[0] == x then 1 else 0
  }

  lemma {:induction false} CountAppend<T>(a: seq<T>, b: seq<T>, x: T)
    ensures Count(a + b, x) == Count(a, x) + Count(b, x)
    decreases |a|
  {
    if a == [] {
      assert a + b == b;
    } else {
      assert (a + b)[1..] == a[1..] + b;
      CountAppend(a[1..], b, x);
    }
  }

  lemma {:induction false} CountsMembers<T>(xs: seq<T>, x: T)
    ensures x in xs <==> Count(xs, x) > 0
    decreases |xs|
  {
    if xs != [] { CountsMembers(xs[1..], x); }
  }

  lemma CountOne<T>(y: T, x: T)
    ensures Count([y], x) == if y == x then 1 else 0
  {
    assert [y][1..] == [];
  }

  /** Exactly one entry goes and the others stay. */
  lemma RemoveRootTakesOne<T>(roots: seq<T>, h: T, x: T)
    ensures Count(RemoveRoot(roots, h), x) == Count(roots, x) - if x == h && h in roots then 1 else 0
  {
    var i := IndexOf(roots, h);
    if i < |roots| {
      var front, last := roots[..|roots|-1], roots[|roots|-1];
      assert roots == front + [last];
      CountAppend(front, [last], x);
      if i < |front| {
        SwapCounts(front, i, last, x);
        assert RemoveRoot(roots, h) == front[i := last];
        CountOne(last, x);
      } else {
        assert RemoveRoot(roots, h) == front;
        CountOne(h, x);
      }
    }
  }

  lemma SwapCounts<T>(xs: seq<T>, i: nat, y: T, x: T)
    requires i < |xs|
    ensures Count(xs[i := y], x) == Count(xs, x) - (if xs[i] == x then 1 else 0) + if y == x then 1 else 0
  {
    var a, b := xs[..i], xs[i + 1..];
    assert xs == a + ([xs[i]] + b) && xs[i := y] == a + ([y] + b);
    CountAppend(a, [xs[i]] + b, x);
    CountAppend(a, [y] + b, x);
    CountAppend([xs[i]], b, x);
    CountAppend([y], b, x);
    CountOne(xs[i], x);
    CountOne(y, x);
  }

  /** attach_locked and detach_locked, for a handle that holds an object or not. */
  function Attach<T>(roots: seq<T>, h: T, holds: bool): seq<T> { if holds then roots + [h] else roots }

  function Detach<T(==)>(roots: seq<T>, h: T, holds: bool): seq<T> { if holds then RemoveRoot(roots, h) else roots }

  // ---- The world ---------------------------------------------------------------------------

  /** Objects and handles are named by numbers; an object's number is never used again. */
  type Oid = nat
  type Hid = nat

  datatype Mem = Mem(objects: seq<Oid>, edges: map<Oid, seq<Option<Oid>>>, handles: map<Hid, Option<Oid>>, roots: seq<Hid>,
                     freed: set<Oid>, next: Oid)

  const EMPTY := Mem([], map[], map[], [], {}, 0)

  datatype Op =
    | Make(members: seq<Option<Oid>>)
    | MakeRooted(members: seq<Option<Oid>>, h: Hid)
    | Construct(h: Hid, p: Option<Oid>)
    | MoveConstruct(h: Hid, o: Hid)
    | MoveAssign(h: Hid, o: Hid)
    | Assign(h: Hid, p: Option<Oid>)
    | Destroy(h: Hid)
    | SetMember(x: Oid, i: nat, p: Option<Oid>)
    | Collect

  predicate LivePointer(m: Mem, p: Option<Oid>) { p.Some? ==> p.value in m.objects }

  /** What C++ asks of the caller: pointers passed are null or not yet freed, a handle is
      constructed once and used until it is destroyed. */
  predicate Enabled(m: Mem, op: Op) {
    match op
    case Make(members) => forall p :: p in members ==> LivePointer(m, p)
    case MakeRooted(members, h) => h !in m.handles && forall p :: p in members ==> LivePointer(m, p)
    case Construct(h, p) => h !in m.handles && LivePointer(m, p)
    case MoveConstruct(h, o) => h !in m.handles && o in m.handles
    case MoveAssign(h, o) => h in m.handles && o in m.handles
    case Assign(h, p) => h in m.handles && LivePointer(m, p)
    case Destroy(h) => h in m.handles
    case SetMember(x, i, p) => x in m.objects && x in m.edges && i < |m.edges[x]| && LivePointer(m, p)
    case Collect => true
  }

  function Targets(members: seq<Option<Oid>>): set<Oid> { set p | p in members && p.Some? :: p.value }

  function Graph(m: Mem): map<Oid, set<Oid>> { map o | o in m.objects && o in m.edges :: Targets(m.edges[o]) }

  /** What Collect starts from: the objects the registered roots hold. */
  function RootSet(m: Mem): set<Oid> { set h | h in m.roots && h in m.handles && m.handles[h].Some? :: m.handles[h].value }

  /** What the program can start from: the objects the handles hold. */
  function Held(m: Mem): set<Oid> { set h | h in m.handles && m.handles[h].Some? :: m.handles[h].value }

  ghost function Live(m: Mem): set<Oid> { set o | o in m.objects && Reachable(Graph(m), RootSet(m), o) }

  function Holds(m: Mem, h: Hid): bool { h in m.handles && m.handles[h].Some? }

  function Allocate(m: Mem, members: seq<Option<Oid>>): Mem {
    m.(objects := m.objects + [m.next], edges := m.edges[m.next := members], next := m.next + 1)
  }

  ghost function Step(m: Mem, op: Op): Mem
    requires Enabled(m, op)
  {
    match op
    case Make(members) => Allocate(m, members)
    case MakeRooted(members, h) =>
      Allocate(m, members).(handles := m.handles[h := Some(m.next)], roots := Attach(m.roots, h, true))
    case Construct(h, p) => m.(handles := m.handles[h := p], roots := Attach(m.roots, h, p.Some?))
    case MoveConstruct(h, o) =>
      var p := m.handles[o];
      m.(handles := m.handles[h := p][o := None], roots := Attach(Detach(m.roots, o, p.Some?), h, p.Some?))
    case MoveAssign(h, o) =>
      if h == o then m else
      var p := m.handles[o];
      m.(handles := m.handles[h := p][o := None],
         roots := Attach(Detach(Detach(m.roots, h, m.handles[h].Some?), o, p.Some?), h, p.Some?))
    case Assign(h, p) =>
      m.(handles := m.handles[h := p], roots := Attach(Detach(m.roots, h, m.handles[h].Some?), h, p.Some?))
    case Destroy(h) => m.(handles := m.handles - {h}, roots := Detach(m.roots, h, m.handles[h].Some?))
    case SetMember(x, i, p) => m.(edges := m.edges[x := m.edges[x][i := p]])
    case Collect =>
      m.(objects := Filter(m.objects, Live(m)), freed := m.freed + ((set o | o in m.objects) - Live(m)))
  }

  ghost predicate RunTo(m: Mem, ops: seq<Op>, m': Mem)
    decreases |ops|
  {
    if ops == [] then m' == m else Enabled(m, ops[0]) && RunTo(Step(m, ops[0]), ops[1..], m')
  }

  // ---- The invariant -----------------------------------------------------------------------

  /** The root list is exactly the handles that hold an object, once each. */
  ghost predicate RootsExact(m: Mem) {
    forall h :: Count(m.roots, h) == if Holds(m, h) then 1 else 0
  }

  /** Handles and objects point at objects that are there. */
  ghost predicate NoDangling(m: Mem) {
    && (forall h :: h in m.handles ==> LivePointer(m, m.handles[h]))
    && (forall o :: o in m.objects ==> o in m.edges && Targets(m.edges[o]) <= set q | q in m.objects)
  }

  ghost predicate Numbered(m: Mem) {
    && Distinct(m.objects)
    && (forall o :: o in m.objects ==> o < m.next && o !in m.freed)
    && (forall o :: o in m.freed ==> o < m.next)
  }

  ghost predicate Inv(m: Mem) { RootsExact(m) && NoDangling(m) && Numbered(m) }

  lemma RootSetIsHeld(m: Mem)
    requires RootsExact(m)
    ensures RootSet(m) == Held(m)
  {
    forall h | h in m.handles && m.handles[h].Some? ensures h in m.roots {
      assert Count(m.roots, h) == 1;
      CountsMembers(m.roots, h);
    }
  }

  /** A handle's entry in the list follows the handle. */
  lemma AttachExact(roots: seq<Hid>, h: Hid, holds: bool, x: Hid)
    ensures Count(Attach(roots, h, holds), x) == Count(roots, x) + if x == h && holds then 1 else 0
  {
    CountAppend(roots, [h], x);
    CountOne(h, x);
  }

  lemma DetachExact(roots: seq<Hid>, h: Hid, holds: bool, x: Hid)
    requires holds ==> Count(roots, h) == 1
    ensures Count(Detach(roots, h, holds), x) == Count(roots, x) - if x == h && holds then 1 else 0
  {
    RemoveRootTakesOne(roots, h, x);
    CountsMembers(roots, h);
  }

  lemma StepKeepsRoots(m: Mem, op: Op)
    requires RootsExact(m) && Enabled(m, op)
    ensures RootsExact(Step(m, op))
  {
    forall x { StepKeepsRoot(m, op, x); }
  }

  lemma StepKeepsRoot(m: Mem, op: Op, x: Hid)
    requires RootsExact(m) && Enabled(m, op)
    ensures Count(Step(m, op).roots, x) == if Holds(Step(m, op), x) then 1 else 0
  {
    match op
    case MakeRooted(_, h) => AttachExact(m.roots, h, true, x);
    case Construct(h, p) => AttachExact(m.roots, h, p.Some?, x);
    case MoveConstruct(h, o) => MovedRoots(m.roots, h, false, o, m.handles[o].Some?, x);
    case MoveAssign(h, o) => if h != o { MovedRoots(m.roots, h, m.handles[h].Some?, o, m.handles[o].Some?, x); }
    case Assign(h, p) =>
      DetachExact(m.roots, h, m.handles[h].Some?, x);
      AttachExact(Detach(m.roots, h, m.handles[h].Some?), h, p.Some?, x);
    case Destroy(h) => DetachExact(m.roots, h, m.handles[h].Some?, x);
    case _ =>
  }

  /** A move transfers the registration; the target's old one is given up first. */
  lemma MovedRoots(roots: seq<Hid>, h: Hid, had: bool, o: Hid, has: bool, x: Hid)
    requires h != o && Count(roots, h) == (if had then 1 else 0) && Count(roots, o) == if has then 1 else 0
    ensures Count(Attach(Detach(Detach(roots, h, had), o, has), h, has), x) ==
            if x == o then 0 else if x == h then (if has then 1 else 0) else Count(roots, x)
  {
    var r1 := Detach(roots, h, had);
    DetachExact(roots, h, had, x);
    DetachExact(roots, h, had, o);
    DetachExact(r1, o, has, x);
    AttachExact(Detach(r1, o, has), h, has, x);
  }

  lemma CollectKeepsObjects(m: Mem)
    requires Inv(m)
    ensures NoDangling(Step(m, Collect)) && Numbered(Step(m, Collect))
  {
    var m' := Step(m, Collect);
    FilterIs(m.objects, Live(m));
    FilterDistinct(m.objects, Live(m));
    RootSetIsHeld(m);
    forall h | h in m.handles && m.handles[h].Some? ensures m.handles[h].value in m'.objects {
      StartReachable(Graph(m), RootSet(m), m.handles[h].value);
    }
    forall o, c | o in m'.objects && c in Targets(m.edges[o]) ensures c in m'.objects {
      ReachableGoesOn(Graph(m), RootSet(m), o, c);
    }
  }

  lemma StepKeepsObjects(m: Mem, op: Op)
    requires Inv(m) && Enabled(m, op)
    ensures NoDangling(Step(m, op)) && Numbered(Step(m, op))
  {
    match op
    case Make(members) => AllocateKeepsObjects(m, members);
    case MakeRooted(members, _) => AllocateKeepsObjects(m, members);
    case SetMember(x, i, p) =>
      var members := m.edges[x];
      assert Targets(members[i := p]) <= Targets(members) + if p.Some? then {p.value} else {};
    case Collect => CollectKeepsObjects(m);
    case _ =>
  }

  lemma AllocateKeepsObjects(m: Mem, members: seq<Option<Oid>>)
    requires NoDangling(m) && Numbered(m) && forall p :: p in members ==> LivePointer(m, p)
    ensures NoDangling(Allocate(m, members)) && Numbered(Allocate(m, members))
  {
    var m' := Allocate(m, members);
    forall i | 0 <= i < |m.objects| ensures m.objects[i] != m.next { assert m.objects[i] in m.objects; }
    forall o | o in m'.objects ensures o in m'.edges && Targets(m'.edges[o]) <= set q | q in m'.objects {
      if o in m.objects {
        assert Targets(m.edges[o]) <= set q | q in m.objects;
      } else {
        forall c | c in Targets(members) ensures c in m.objects { assert LivePointer(m, Some(c)); }
      }
    }
  }

  lemma StepKeepsInv(m: Mem, op: Op)
    requires Inv(m) && Enabled(m, op)
    ensures Inv(Step(m, op))
  {
    StepKeepsRoots(m, op);
    StepKeepsObjects(m, op);
  }

  lemma {:induction false} RunKeepsInv(m: Mem, ops: seq<Op>, m': Mem)
    requires Inv(m) && RunTo(m, ops, m')
    ensures Inv(m')
    decreases |ops|
  {
    if ops != [] {
      StepKeepsInv(m, ops[0]);
      RunKeepsInv(Step(m, ops[0]), ops[1..], m');
    }
  }

  // ---- What follows ------------------------------------------------------------------------

  /** In every run the root list is exactly the handles that hold an object, once each. */
  lemma RootListIsExact(ops: seq<Op>, m: Mem, h: Hid)
    requires RunTo(EMPTY, ops, m)
    ensures Count(m.roots, h) == if Holds(m, h) then 1 else 0
  {
    RunKeepsInv(EMPTY, ops, m);
  }

  /** In every run, whatever a handle still leads to has not been freed. */
  lemma NothingReachableIsFreed(ops: seq<Op>, m: Mem, o: Oid)
    requires RunTo(EMPTY, ops, m) && Reachable(Graph(m), Held(m), o)
    ensures o in m.objects && o !in m.freed
  {
    RunKeepsInv(EMPTY, ops, m);
    var n: nat :| o in Reach(Graph(m), Held(m), n);
    ReachStays(Graph(m), Held(m), (set q | q in m.objects), n);
  }

  /** In every run a collection keeps exactly what the handles lead to, cycles and sharing
      included, and leaves its edges and its reachability as they were. */
  lemma CollectIsExact(ops: seq<Op>, m: Mem, o: Oid)
    requires RunTo(EMPTY, ops, m)
    ensures var m' := Step(m, Collect);
      && (o in m'.objects <==> Reachable(Graph(m), Held(m), o))
      && (Reachable(Graph(m'), Held(m'), o) <==> Reachable(Graph(m), Held(m), o))
      && (o in m'.freed <==> o in m.freed || (o in m.objects && !Reachable(Graph(m), Held(m), o)))
  {
    var m' := Step(m, Collect);
    RunKeepsInv(EMPTY, ops, m);
    RootSetIsHeld(m);
    FilterIs(m.objects, Live(m));
    if Reachable(Graph(m), Held(m), o) { NothingReachableIsFreed(ops, m, o); }
    assert Held(m') == Held(m);
    forall n: nat ensures Reach(Graph(m'), Held(m), n) == Reach(Graph(m), Held(m), n) {
      SameReach(Graph(m), Graph(m'), Held(m), n);
    }
  }

  /** Collecting twice in a row frees nothing the second time. */
  lemma CollectTwiceIsOnce(ops: seq<Op>, m: Mem)
    requires RunTo(EMPTY, ops, m)
    ensures Step(Step(m, Collect), Collect) == Step(m, Collect)
  {
    var m' := Step(m, Collect);
    RunKeepsInv(EMPTY, ops, m);
    StepKeepsInv(m, Collect);
    RootSetIsHeld(m);
    RootSetIsHeld(m');
    forall o | o in m'.objects ensures o in Live(m') {
      CollectIsExact(ops, m, o);
    }
    FilterAll(m'.objects, Live(m'));
    assert (set o | o in m'.objects) - Live(m') == {};
    assert m'.freed + {} == m'.freed;
  }

  lemma {:induction false} FilterAll<T>(xs: seq<T>, s: set<T>)
    requires forall x :: x in xs ==> x in s
    ensures Filter(xs, s) == xs
    decreases |xs|
  {
    if xs != [] {
      FilterAll(xs[..|xs|-1], s);
      assert xs == xs[..|xs|-1] + [xs[|xs|-1]];
    }
  }
}
