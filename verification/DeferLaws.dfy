/** What defer, panic, recover and named results are for, told of small functions step by
    step: the emitted function and Go's give the same, and this is what it is. */
module DeferLaws {
  import opened Wrappers
  import opened DeferModel
  import opened DeferProof

  function Lit(st: DStmt): Deferred { Deferred(Literal([st]), 0, None) }

  /** `defer d` and one more statement. */
  function Two(d: Deferred, b: Stmt): seq<Stmt> { [Defer(d), b] }

  // ---- Small bodies ------------------------------------------------------------------------

  /** Does not wait, and names no variable that might be gone. */
  predicate Plain(st: DStmt) { !st.DWait? && !st.DIf? && (st.h == World || st.h == Param) }

  predicate Small(k: Kind, d: Deferred, st: DStmt) {
    CodeOf(d) == [st] && Plain(st) && (d.callee.Literal? ==> d.arg == None) && (k != Named ==> !st.DSet? && !st.DUse?)
  }

  lemma HasOne(aim: Aim, st: DStmt)
    requires !st.DIf?
    ensures Has(aim, [st]) <==> Hits(aim, st)
    ensures Waits([st]) <==> st.DWait?
  {
    assert [st][1..] == [];
  }

  lemma ListOfOne(F: Shape, b: Stmt, v: bool)
    requires !b.If? && !b.While?
    ensures Escapes([b], v) <==> Escaping(b, v)
    ensures HasAwaited([b]) <==> Awaiting(b)
    ensures FineList(F, [b]) <==> Fine(F, b)
  {
    assert [b][1..] == [];
  }

  lemma ListOfTwo(F: Shape, a: Stmt, b: Stmt, v: bool)
    requires !a.If? && !a.While? && !b.If? && !b.While?
    ensures Escapes([a, b], v) <==> Escaping(a, v) || Escaping(b, v)
    ensures HasAwaited([a, b]) <==> Awaiting(a) || Awaiting(b)
    ensures FineList(F, [a, b]) <==> Fine(F, a) && Fine(F, b)
  {
    assert [a, b][1..] == [b];
    ListOfOne(F, b, v);
  }

  lemma SmallIsFine(k: Kind, d: Deferred, st: DStmt)
    requires Small(k, d, st)
    ensures FineDefer(Shape(k, false, false, false), d) && !Awaited(d)
  {
    HasOne(NamesInner, st);
    HasOne(NamesLocal, st);
    HasOne(Assigns, st);
    HasOne(Reads, st);
  }

  /** The second statement returns, panics, acts, or defers. */
  ghost predicate SmallStmt(k: Kind, b: Stmt) {
    match b
    case Return(e, inRange) => k == Named && !inRange
    case Panic(_) => true
    case Act(_) => true
    case Defer(d) => exists st :: Small(k, d, st)
    case _ => false
  }

  lemma TwoIsFine(k: Kind, d: Deferred, st: DStmt, b: Stmt)
    requires Small(k, d, st) && SmallStmt(k, b)
    ensures FineBody(k, Two(d, b))
  {
    var body, F := Two(d, b), Shape(k, false, false, false);
    SmallIsFine(k, d, st);
    if b.Defer? { var st' :| Small(k, b.d, st'); SmallIsFine(k, b.d, st'); }
    ListOfTwo(F, Defer(d), b, true);
    ListOfTwo(F, Defer(d), b, false);
    assert Fine(F, b) && !Escaping(b, false) && !Escaping(b, true) && !Awaiting(b);
    assert ShapeOf(k, body) == F;
  }

  lemma TwoInGo<H, V>(I: Interp<H, V>, k: Kind, d: Deferred, p: Pending<V>, b: Stmt, s: Store<H, V>, s1: Store<H, V>)
    requires GoRegister(I, d, 0, s) == (p, s1)
    ensures var o := Exec(I, k, b, G(s1, 0, [p]), 0); GoFunction(I, k, Two(d, b), s, 0) == GoEnd(I, k, o)
  {
    var g := G(s1, 0, [p]);
    assert Two(d, b)[1..] == [b] && [b][1..] == [] && [] + [p] == [p];
    assert Exec(I, k, Defer(d), G(s, 0, []), 0) == Norm(g);
    assert ExecList(I, k, Two(d, b), G(s, 0, []), 0) == ExecList(I, k, [b], g, 0) == Exec(I, k, b, g, 0);
  }

  lemma OneStep<H, V>(I: Interp<H, V>, p: Pending<V>, st: DStmt, l: Leaving<H, V>)
    requires p.code == [st]
    ensures GoDefers(I, [p], l) == GoStep(I, st, l.(s := BindOpt(I, p.d.param, p.v, l.s)))
  {
    var l1 := l.(s := BindOpt(I, p.d.param, p.v, l.s));
    assert [st][1..] == [] && [p][..0] == [];
    assert GoBody(I, [st], l1) == GoBody(I, [], GoStep(I, st, l1)) == GoStep(I, st, l1);
    assert GoDefers(I, [], GoCall(I, p, l)) == GoCall(I, p, l);
  }

  // ---- The laws ------------------------------------------------------------------------------

  /** `defer func() { r = e }(); return x`: the call runs once x has been assigned to the
      result, may read it, and what it assigns is what the caller gets. */
  lemma DeferredSeesAndSetsTheResult<H, V>(I: Interp<H, V>, e: nat, x: nat, s: Store<H, V>)
    ensures var body := Two(Lit(DSet(e, World)), Return(Some(x), false));
      var (v, s1) := (I.eval)(x, 0, s);
      var (u, s2) := (I.eval)(e, v, Store(s1.world, None));
      GoFunction(I, Named, body, s, 0) == CFunction(I, Named, body, s, 0) == Returned(Some(u), s2.world)
  {
    var st, b := DSet(e, World), Return(Some(x), false);
    var p: Pending<V> := Pending(Lit(st), [st], None, s.vars, 0, false);
    var (v, s1) := (I.eval)(x, 0, s);
    TwoInGo(I, Named, Lit(st), p, b, s, s);
    OneStep(I, p, st, Leaving(s1, v, None));
    TwoIsFine(Named, Lit(st), st, b);
    FunctionMeansTheSame(I, Named, Two(Lit(st), b), s, 0);
  }

  /** `defer func() { x = recover() }(); panic(e)`: the call is given the message, and the
      function returns, with a zero result if it has one. */
  lemma RecoveredPanicReturns<H, V>(I: Interp<H, V>, k: Kind, x: nat, e: nat, s: Store<H, V>)
    ensures var body := Two(Lit(DRecover(x, World)), Panic(e));
      var (m, s1) := (I.eval)(e, 0, s);
      var s2 := (I.give)(x, Some(m), Store(s1.world, None));
      GoFunction(I, k, body, s, 0) == CFunction(I, k, body, s, 0) == Returned(if k == Void then None else Some(0), s2.world)
  {
    var st := DRecover(x, World);
    var p: Pending<V> := Pending(Lit(st), [st], None, s.vars, 0, false);
    var (m, s1) := (I.eval)(e, 0, s);
    TwoInGo(I, k, Lit(st), p, Panic(e), s, s);
    OneStep(I, p, st, Leaving(s1, 0, Some(m)));
    TwoIsFine(k, Lit(st), st, Panic(e));
    FunctionMeansTheSame(I, k, Two(Lit(st), Panic(e)), s, 0);
  }

  /** `defer func() { act() }(); panic(e)`: the call runs, and the message goes on to the
      caller. */
  lemma UnrecoveredPanicGoesOn<H, V>(I: Interp<H, V>, k: Kind, a: nat, e: nat, s: Store<H, V>)
    ensures var body := Two(Lit(DAct(a, Param)), Panic(e));
      var (m, s1) := (I.eval)(e, 0, s);
      GoFunction(I, k, body, s, 0) == CFunction(I, k, body, s, 0) == Unwound(m, (I.act)(a, s1).world)
  {
    var st := DAct(a, Param);
    var p: Pending<V> := Pending(Lit(st), [st], None, s.vars, 0, false);
    var (m, s1) := (I.eval)(e, 0, s);
    TwoInGo(I, k, Lit(st), p, Panic(e), s, s);
    OneStep(I, p, st, Leaving(s1, 0, Some(m)));
    TwoIsFine(k, Lit(st), st, Panic(e));
    FunctionMeansTheSame(I, k, Two(Lit(st), Panic(e)), s, 0);
  }

  /** `defer func() { x = recover() }(); act()`: without a panic there is nothing to recover. */
  lemma NothingToRecover<H, V>(I: Interp<H, V>, x: nat, a: nat, s: Store<H, V>)
    ensures var body := Two(Lit(DRecover(x, Param)), Act(a));
      GoFunction(I, Void, body, s, 0) == CFunction(I, Void, body, s, 0) == Returned(None, (I.give)(x, None, (I.act)(a, s)).world)
  {
    var st := DRecover(x, Param);
    var p: Pending<V> := Pending(Lit(st), [st], None, s.vars, 0, false);
    TwoInGo(I, Void, Lit(st), p, Act(a), s, s);
    OneStep(I, p, st, Leaving((I.act)(a, s), 0, None));
    TwoIsFine(Void, Lit(st), st, Act(a));
    FunctionMeansTheSame(I, Void, Two(Lit(st), Act(a)), s, 0);
  }

  /** `defer f(e); act()`: f runs after act, and is given the value e had before it. */
  lemma ArgumentIsEvaluatedAtTheDefer<H, V>(I: Interp<H, V>, x: nat, e: nat, a: nat, b: nat, s: Store<H, V>)
    ensures var body := Two(Deferred(Name([DAct(a, World)]), x, Some(e)), Act(b));
      var (v, s1) := (I.eval)(e, 0, s);
      var s2 := (I.bind)(x, v, Store((I.act)(b, s1).world, None));
      GoFunction(I, Void, body, s, 0) == CFunction(I, Void, body, s, 0) == Returned(None, (I.act)(a, Store(s2.world, None)).world)
  {
    var st := DAct(a, World);
    var d := Deferred(Name([st]), x, Some(e));
    var (v, s1) := (I.eval)(e, 0, s);
    var p: Pending<V> := Pending(d, [st], Some(v), s1.vars, 0, false);
    TwoInGo(I, Void, d, p, Act(b), s, s1);
    OneStep(I, p, st, Leaving((I.act)(b, s1), 0, None));
    TwoIsFine(Void, d, st, Act(b));
    FunctionMeansTheSame(I, Void, Two(d, Act(b)), s, 0);
  }

  /** `defer func() { a() }(); defer func() { b() }()`: b runs, then a. */
  lemma LastDeferredRunsFirst<H, V>(I: Interp<H, V>, a: nat, b: nat, s: Store<H, V>)
    ensures var body := Two(Lit(DAct(a, Param)), Defer(Lit(DAct(b, Param))));
      GoFunction(I, Void, body, s, 0) == CFunction(I, Void, body, s, 0) == Returned(None, (I.act)(a, (I.act)(b, s)).world)
  {
    var st, st' := DAct(a, Param), DAct(b, Param);
    var p: Pending<V> := Pending(Lit(st), [st], None, s.vars, 0, false);
    var p': Pending<V> := Pending(Lit(st'), [st'], None, s.vars, 0, false);
    var l := Leaving(s, 0, None);
    TwoInGo(I, Void, Lit(st), p, Defer(Lit(st')), s, s);
    assert ([p] + [p'])[..1] == [p];
    OneStep(I, p', st', l);
    assert GoDefers(I, [p'], l) == GoCall(I, p', l) by { assert [p'][..0] == []; }
    OneStep(I, p, st, l.(s := (I.act)(b, s)));
    assert Small(Void, Lit(st'), st');
    TwoIsFine(Void, Lit(st), st, Defer(Lit(st')));
    FunctionMeansTheSame(I, Void, Two(Lit(st), Defer(Lit(st'))), s, 0);
  }
}
