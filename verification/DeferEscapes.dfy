/** Returns from inside range-over-func loops leave the deferred calls to the destructor:
    when that makes a difference. */
module DeferEscapes {
  import opened Wrappers
  import opened DeferModel
  import opened DeferProof
  import opened DeferWatch
  import opened DeferAnomalies

  // ---- A return from inside a range-over-func loop -----------------------------------------------

  lemma {:induction false} GoAppend<H, V>(I: Interp<H, V>, k: Kind, a: seq<Stmt>, b: seq<Stmt>, g: GState<H, V>, fuel: nat)
    ensures ExecList(I, k, a + b, g, fuel) ==
            var o := ExecList(I, k, a, g, fuel); if o.Norm? then ExecList(I, k, b, o.g, fuel) else o
    decreases |a|
  {
    if a == [] {
      assert a + b == b;
    } else {
      assert (a + b)[1..] == a[1..] + b;
      var o := Exec(I, k, a[0], g, fuel);
      if o.Norm? { GoAppend(I, k, a[1..], b, o.g, fuel); }
    }
  }

  lemma {:induction false} LowerAppend(k: Kind, a: seq<Stmt>, b: seq<Stmt>)
    ensures LowerList(k, a + b) == LowerList(k, a) + LowerList(k, b)
    decreases |a|
  {
    if a == [] {
      assert a + b == b;
    } else {
      assert (a + b)[1..] == a[1..] + b;
      LowerAppend(k, a[1..], b);
    }
  }

  /** A function that defers some calls and then returns from a range-over-func loop. */
  function DeferAll(ds: seq<Deferred>): seq<Stmt> {
    if ds == [] then [] else [Defer(ds[0])] + DeferAll(ds[1..])
  }

  function DeferThenReturn(ds: seq<Deferred>, e: Option<nat>): seq<Stmt> { DeferAll(ds) + [Return(e, true)] }

  predicate AllFaithful(ds: seq<Deferred>) { forall d :: d in ds ==> Faithful(Named, d) }

  predicate AnyHas(aim: Aim, ds: seq<Deferred>) { exists d :: d in ds && Has(aim, CodeOf(d)) }

  /** No call assigns the result or, if asked, reads it, or names a variable of the body. */
  predicate KeepOff(ds: seq<Deferred>, reads_: bool) {
    !AnyHas(Assigns, ds) && (reads_ ==> !AnyHas(Reads, ds)) && !AnyHas(NamesLocal, ds)
  }

  lemma {:induction false} DeferAllFine(F: Shape, ds: seq<Deferred>)
    requires forall d :: d in ds ==> FineDefer(F, d)
    ensures FineList(F, DeferAll(ds)) && !Escapes(DeferAll(ds), false) && !Escapes(DeferAll(ds), true)
    decreases |ds|
  {
    if ds != [] {
      assert ds[0] in ds;
      Behind(Defer(ds[0]), DeferAll(ds[1..]));
      DeferAllFine(F, ds[1..]);
    }
  }

  lemma {:induction false} FineThenReturn(F: Shape, sts: seq<Stmt>, e: Option<nat>)
    requires F.k == Named && FineList(F, sts) && !Escapes(sts, false) && !Escapes(sts, true)
    ensures FineList(F, sts + [Return(e, true)])
    ensures Escapes(sts + [Return(e, true)], false) && (Escapes(sts + [Return(e, true)], true) <==> e.Some?)
    decreases |sts|
  {
    if sts != [] {
      assert (sts + [Return(e, true)])[1..] == sts[1..] + [Return(e, true)];
      FineThenReturn(F, sts[1..], e);
    } else {
      assert sts + [Return(e, true)] == [Return(e, true)];
    }
  }

  lemma KeepOffAgrees<H, V>(I: Interp<H, V>, ds: seq<Deferred>, e: Option<nat>, s: Store<H, V>)
    requires AllFaithful(ds) && KeepOff(ds, e.Some?)
    ensures CFunction(I, Named, DeferThenReturn(ds, e), s, 0) == GoFunction(I, Named, DeferThenReturn(ds, e), s, 0)
  {
    var F := Shape(Named, true, e.Some?, HasAwaited(DeferThenReturn(ds, e)));
    DeferAllFine(F, ds);
    FineThenReturn(F, DeferAll(ds), e);
    assert ShapeOf(Named, DeferThenReturn(ds, e)) == F;
    FunctionMeansTheSame(I, Named, DeferThenReturn(ds, e), s, 0);
  }

  /** Go's function leaves with the value assigned before the calls run. */
  lemma ThenReturnsInGo<H, V>(I: Interp<H, V>, ds: seq<Deferred>, e: Option<nat>, s: Store<H, V>, g: GState<H, V>,
                              v: Option<int>, s1: Store<H, V>)
    requires ExecList(I, Named, DeferAll(ds), G(s, 0, []), 0) == Norm(g) && g.r == 0 && EvalOpt(I, e, 0, g.s) == (v, s1)
    ensures GoFunction(I, Named, DeferThenReturn(ds, e), s, 0)
            == GoLeave(Named, None, GoDefers(I, g.defers, Leaving(s1, Assigned(v, 0), None)))
  {
    GoAppend(I, Named, DeferAll(ds), [Return(e, true)], G(s, 0, []), 0);
  }

  lemma EscapeEmitted<H, V>(I: Interp<H, V>, e: Option<nat>, t: CState<H, V>, v: Option<int>, s1: Store<H, V>)
    requires EvalOpt(I, e, t.r, t.s) == (v, s1)
    ensures ExecCpps(I, LowerReturn(Named, e, true), t, 0) == CRet(Some(Assigned(v, t.r)), t.(s := s1))
  {
    ExecOne(I, if e.Some? then CReturn(e) else CReturnResult, t, 0);
  }

  lemma BodyEmitted<H, V>(I: Interp<H, V>, sts: seq<Stmt>, e: Option<nat>, s: Store<H, V>, t: CState<H, V>,
                          v: Option<int>, s1: Store<H, V>)
    requires ExecCpps(I, LowerList(Named, sts), Entry(s), 0) == CNorm(t) && EvalOpt(I, e, t.r, t.s) == (v, s1)
    ensures CBeforeDestroy(I, Named, sts + [Return(e, true)], s, 0) == CRet(Some(Assigned(v, t.r)), t.(s := s1))
  {
    LowerAppend(Named, sts, [Return(e, true)]);
    assert [Return(e, true)][1..] == [];
    assert LowerList(Named, [Return(e, true)]) == LowerReturn(Named, e, true) + [] == LowerReturn(Named, e, true);
    ExecAppend(I, LowerList(Named, sts), LowerReturn(Named, e, true), Entry(s), 0);
    EscapeEmitted(I, e, t, v, s1);
  }

  const DEFERRING := Shape(Named, false, false, true)

  /** The emitted one leaves with the value at hand and has the destructor run the calls, on
      the variable as it was. */
  lemma ThenReturnsEmitted<H, V>(I: Interp<H, V>, ds: seq<Deferred>, e: Option<nat>, s: Store<H, V>, g: GState<H, V>,
                                 v: Option<int>, s1: Store<H, V>) returns (t: CState<H, V>)
    requires AllFaithful(ds) && ExecList(I, Named, DeferAll(ds), G(s, 0, []), 0) == Norm(g) && g.r == 0
    requires EvalOpt(I, e, 0, g.s) == (v, s1)
    ensures InStep(DEFERRING, G(s1, 0, g.defers), t)
    ensures CFunction(I, Named, DeferThenReturn(ds, e), s, 0) == Ended(Some(Assigned(v, 0)), RunAll(I, true, t))
  {
    DeferAllFine(DEFERRING, ds);
    ListSame(I, DEFERRING, DeferAll(ds), G(s, 0, []), Entry(s), 0);
    var t0 := ExecCpps(I, LowerList(Named, DeferAll(ds)), Entry(s), 0).t;
    BodyEmitted(I, DeferAll(ds), e, s, t0, v, s1);
    t := t0.(s := s1);
  }

  // ---- Steering a list of calls ---------------------------------------------------------------------

  function AllCoins(aim: Aim, ds: seq<Deferred>): seq<bool> {
    if ds == [] then [] else Coins(aim, CodeOf(ds[|ds|-1])) + AllCoins(aim, ds[..|ds|-1])
  }

  /** The registered calls ps are those of ds. */
  predicate RegisteredFrom(ps: seq<Pending<int>>, ds: seq<Deferred>) {
    |ps| == |ds| && forall i :: 0 <= i < |ds| ==> ps[i].d == ds[i] && ps[i].code == CodeOf(ds[i])
  }

  lemma AnyLast(aim: Aim, ds: seq<Deferred>)
    requires ds != []
    ensures AnyHas(aim, ds) <==> Has(aim, CodeOf(ds[|ds|-1])) || AnyHas(aim, ds[..|ds|-1])
  {
    assert ds == ds[..|ds|-1] + [ds[|ds|-1]];
  }

  lemma {:induction false} DefersAssign(v: nat, ps: seq<Pending<int>>, ds: seq<Deferred>, l: Leaving<Oracle, int>)
    requires RegisteredFrom(ps, ds) && l.s.world.count >= v && l.s.world.coins == AllCoins(Assigns, ds)
    ensures l.r > v || AnyHas(Assigns, ds) ==> GoDefers(Watching(), ps, l).r > v
    decreases |ds|
  {
    if ds != [] {
      var n := |ds| - 1;
      AnyLast(Assigns, ds);
      BodyAssigns(v, ps[n].code, l.(s := BindOpt(Watching(), ps[n].d.param, ps[n].v, l.s)), AllCoins(Assigns, ds[..n]));
      DefersAssign(v, ps[..n], ds[..n], GoCall(Watching(), ps[n], l));
    }
  }

  lemma {:induction false} DefersPart(ps: seq<Pending<int>>, ds: seq<Deferred>, l: Leaving<Oracle, int>, m: Leaving<Oracle, int>)
    requires RegisteredFrom(ps, ds) && Paired(l, m) && l.r != m.r && l.s.world.coins == AllCoins(Reads, ds)
    requires !AnyHas(Assigns, ds)
    ensures Apart(l, m) || AnyHas(Reads, ds) ==> Apart(GoDefers(Watching(), ps, l), GoDefers(Watching(), ps, m))
    decreases |ds|
  {
    if ds != [] {
      var n, I := |ds| - 1, Watching();
      AnyLast(Reads, ds);
      AnyLast(Assigns, ds);
      var l1, m1 := l.(s := BindOpt(I, ps[n].d.param, ps[n].v, l.s)), m.(s := BindOpt(I, ps[n].d.param, ps[n].v, m.s));
      BodyParts(Reads, ps[n].code, l1, m1, AllCoins(Reads, ds[..n]));
      DefersPart(ps[..n], ds[..n], GoCall(I, ps[n], l), GoCall(I, ps[n], m));
    }
  }

  lemma {:induction false} DefersLose(ds: seq<Deferred>, t: CState<Oracle, int>)
    requires AllFaithful(ds) && RegisteredFrom(t.fns, ds) && t.s.world.coins == AllCoins(NamesLocal, ds)
    ensures t.ub || AnyHas(NamesLocal, ds) ==> RunAll(Watching(), true, t).ub
    decreases |ds|
  {
    if ds != [] {
      var n := |ds| - 1;
      var p := t.fns[n];
      assert ds[n] in ds;
      var t1 := t.(fns := t.fns[..n], ran := if Abandoned(p.d) then t.ran else t.ran + [p]);
      AnyLast(NamesLocal, ds);
      CallLoses(p, t1, AllCoins(NamesLocal, ds[..n]));
      DefersLose(ds[..n], CCall(Watching(), p, true, t1));
    }
  }

  lemma CallLoses(p: Pending<int>, t: CState<Oracle, int>, tail: seq<bool>)
    requires Faithful(Named, p.d) && p.code == CodeOf(p.d) && t.s.world.coins == Coins(NamesLocal, p.code) + tail
    ensures var u := CCall(Watching(), p, true, t);
      u.s.world.coins == tail && (t.ub || Has(NamesLocal, p.code) ==> u.ub)
  {
    if Awaited(p.d) {
      if Has(NamesLocal, p.code) { FewerNames(p.code); }
      BodyLost(NamesLocal, p.code, All, t.(s := Store(t.s.world, p.vars), r := p.r, pf := NO_PANIC), tail);
    } else {
      var (body, v, s1) := CEnter(Watching(), p, t.r, t.s);
      BodyLost(NamesLocal, p.code, OnlyParams, t.(s := BindOpt(Watching(), p.d.param, v, s1)), tail);
    }
  }

  /** Registering the calls moves time only, and leaves notes. */
  lemma {:induction false} RegisterAll(ds: seq<Deferred>, g: GState<Oracle, int>)
    requires AllFaithful(ds)
    ensures var o := ExecList(Watching(), Named, DeferAll(ds), g, 0);
      && o.Norm? && o.g.r == g.r && o.g.s.world.coins == g.s.world.coins && o.g.s.vars == g.s.vars
      && exists ps :: o.g.defers == g.defers + ps && RegisteredFrom(ps, ds)
    decreases |ds|
  {
    if ds == [] {
      assert g.defers == g.defers + [] && RegisteredFrom([], ds);
    } else {
      assert ds[0] in ds;
      assert DeferAll(ds)[0] == Defer(ds[0]) && DeferAll(ds)[1..] == DeferAll(ds[1..]);
      var (p, s1) := GoRegister(Watching(), ds[0], g.r, g.s);
      var g1 := G(s1, g.r, g.defers + [p]);
      RegisterAll(ds[1..], g1);
      var o := ExecList(Watching(), Named, DeferAll(ds[1..]), g1, 0);
      var ps :| o.g.defers == g1.defers + ps && RegisteredFrom(ps, ds[1..]);
      assert o.g.defers == g.defers + ([p] + ps);
      assert RegisteredFrom([p] + ps, ds);
    }
  }

  lemma RegisteredCalls(ds: seq<Deferred>, s: Watched) returns (g: GState<Oracle, int>)
    requires AllFaithful(ds)
    ensures ExecList(Watching(), Named, DeferAll(ds), G(s, 0, []), 0) == Norm(g)
    ensures g.r == 0 && g.s.world.coins == s.world.coins && g.s.vars == s.vars && RegisteredFrom(g.defers, ds)
  {
    RegisterAll(ds, G(s, 0, []));
    g := ExecList(Watching(), Named, DeferAll(ds), G(s, 0, []), 0).g;
    var ps :| g.defers == [] + ps && RegisteredFrom(ps, ds);
    assert g.defers == ps;
  }

  /** The value returned. */
  lemma ValueWatched(e: Option<nat>, s: Watched) returns (v: Option<int>, s1: Watched)
    ensures EvalOpt(Watching(), e, 0, s) == (v, s1) && s1.world.coins == s.world.coins && s1.vars == s.vars
    ensures s1.world.count >= Assigned(v, 0) && if e.Some? then Assigned(v, 0) > 0 else Assigned(v, 0) == 0
  {
    v, s1 := EvalOpt(Watching(), e, 0, s).0, EvalOpt(Watching(), e, 0, s).1;
  }

  lemma {:induction false} DefersNoNewPanic<H, V>(I: Interp<H, V>, ps: seq<Pending<V>>, l: Leaving<H, V>)
    requires l.panic == None
    ensures GoDefers(I, ps, l).panic == None
    decreases |ps|
  {
    if ps != [] {
      var p := ps[|ps|-1];
      NoNewPanic(I, p.code, l.(s := BindOpt(I, p.d.param, p.v, l.s)));
      DefersNoNewPanic(I, ps[..|ps|-1], GoCall(I, p, l));
    }
  }

  /** A function that defers some calls and returns from inside a range-over-func loop does
      what Go says, whatever its names mean, if and only if no call assigns the named
      result, or reads it when the return gives a value, or names a variable of the body. */
  lemma RangeReturnExactly(ds: seq<Deferred>, e: Option<nat>)
    requires AllFaithful(ds)
    ensures (forall I: Interp<Oracle, int>, s: Watched ::
               CFunction(I, Named, DeferThenReturn(ds, e), s, 0) == GoFunction(I, Named, DeferThenReturn(ds, e), s, 0))
            <==> KeepOff(ds, e.Some?)
  {
    if KeepOff(ds, e.Some?) {
      forall I: Interp<Oracle, int>, s: Watched
        ensures CFunction(I, Named, DeferThenReturn(ds, e), s, 0) == GoFunction(I, Named, DeferThenReturn(ds, e), s, 0)
      {
        KeepOffAgrees(I, ds, e, s);
      }
    } else {
      var s := RangeReturnDiffers(ds, e);
    }
  }

  lemma RangeReturnDiffers(ds: seq<Deferred>, e: Option<nat>) returns (s: Watched)
    requires AllFaithful(ds) && !KeepOff(ds, e.Some?)
    ensures CFunction(Watching(), Named, DeferThenReturn(ds, e), s, 0) != GoFunction(Watching(), Named, DeferThenReturn(ds, e), s, 0)
  {
    var aim := if AnyHas(NamesLocal, ds) then NamesLocal else if AnyHas(Assigns, ds) then Assigns else Reads;
    s := Store(Oracle(AllCoins(aim, ds), 0, []), Some(0));
    var g := RegisteredCalls(ds, s);
    var v, s1 := ValueWatched(e, g.s);
    ThenReturnsInGo(Watching(), ds, e, s, g, v, s1);
    var t := ThenReturnsEmitted(Watching(), ds, e, s, g, v, s1);
    if aim == NamesLocal { DefersLose(ds, t); } else { AnswersDiffer(aim, ds, g.defers, s1, Assigned(v, 0), t); }
  }

  /** The calls left to the destructor against the calls run before the result x is read. */
  lemma AnswersDiffer(aim: Aim, ds: seq<Deferred>, ps: seq<Pending<int>>, s: Watched, x: nat, t: CState<Oracle, int>)
    requires RegisteredFrom(ps, ds) && InStep(DEFERRING, G(s, 0, ps), t) && !AnyHas(NamesLocal, ds)
    requires s.vars.Some? && s.world.coins == AllCoins(aim, ds) && s.world.count >= x && AnyHas(aim, ds)
    requires aim == Assigns || (aim == Reads && !AnyHas(Assigns, ds) && x > 0)
    ensures GoLeave(Named, None, GoDefers(Watching(), ps, Leaving(s, x, None))) != Ended(Some(x), RunAll(Watching(), true, t))
  {
    var I, l, m := Watching(), Leaving(s, x, None), Leaving(s, 0, None);
    forall i | 0 <= i < |ps| ensures !Has(NamesLocal, ps[i].code) { assert ds[i] in ds; }
    RunAllSame(I, DEFERRING, true, m, t);
    DefersNoNewPanic(I, ps, l);
    DefersNoNewPanic(I, ps, m);
    if aim == Assigns { DefersAssign(x, ps, ds, l); } else { DefersPart(ps, ds, l, m); }
  }
}
