/** The emitted epilogue runs every registered call once, last in first out, and the
    function answers as Go says; where it does not, exactly when. */
module DeferProof {
  import opened Wrappers
  import opened DeferModel

  // ---- Which programs ---------------------------------------------------------------------

  /** The body assigns the result or, if asked, reads it. */
  predicate Touches(body: seq<DStmt>, reads_: bool) { Has(Assigns, body) || (reads_ && Has(Reads, body)) }

  /** Deferred calls that are emitted as Go means them: a literal without an argument, or a
      function by its name that does not wait. They must not name a variable of a block that
      can be left before they run; without a named result the list is run by its destructor,
      when all variables of the body are gone; and a waiting literal has only copies of the
      variables and of the result. */
  predicate Faithful(k: Kind, d: Deferred) {
    match d.callee
    case Literal(body) =>
      && d.arg.None? && !Has(NamesInner, body) && (Has(NamesLocal, body) ==> k == Named)
      && (Waits(body) ==> !Has(Names, body) && !Touches(body, true))
    case Name(body) => !Waits(body) && !Has(NamesInner, body) && (Has(NamesLocal, body) ==> k == Named)
    case _ => false
  }

  /** Some return, or some return of a value if asked, is in a range-over-func loop. */
  predicate Escapes(sts: seq<Stmt>, valued: bool)
    decreases sts, 0
  {
    sts != [] && (Escaping(sts[0], valued) || Escapes(sts[1..], valued))
  }

  predicate Escaping(st: Stmt, valued: bool)
    decreases st, 1
  {
    match st
    case If(_, thn, els) => Escapes(thn, valued) || Escapes(els, valued)
    case While(_, body) => Escapes(body, valued)
    case Return(e, inRange) => inRange && (valued ==> e.Some?)
    case _ => false
  }

  /** A function's result, whether it has returns, and returns of a value, in a
      range-over-func loop, and whether it defers a waiting literal. */
  datatype Shape = Shape(k: Kind, any: bool, valued: bool, awaits: bool)

  predicate WithinOf(F: Shape, st: Stmt) {
    (Escaping(st, false) ==> F.any) && (Escaping(st, true) ==> F.valued) && (Awaiting(st) ==> F.awaits)
  }

  predicate Within(F: Shape, sts: seq<Stmt>) {
    (Escapes(sts, false) ==> F.any) && (Escapes(sts, true) ==> F.valued) && (HasAwaited(sts) ==> F.awaits)
  }

  /** Only a named result can be touched, and no deferred call is emitted otherwise than Go
      means it. Those returns leave the result unassigned and the list to its destructor:
      in a function that has them no deferred call assigns the result nor, if they have a
      value, reads it, nor names a variable of the body. */
  predicate FineDefer(F: Shape, d: Deferred) {
    && Faithful(F.k, d) && (F.k != Named ==> !Touches(CodeOf(d), true))
    && (F.k == Named && F.any ==> !Touches(CodeOf(d), F.valued) && !Has(NamesLocal, CodeOf(d)))
  }

  /** Go's rules on results, and only such deferred calls. */
  predicate Fine(F: Shape, st: Stmt)
    decreases st, 1
  {
    match st
    case If(_, thn, els) => FineList(F, thn) && FineList(F, els)
    case While(_, body) => FineList(F, body)
    case Defer(d) => FineDefer(F, d)
    case Return(e, _) => (match F.k case Void => e.None? case Unnamed => e.Some? case Named => true)
    case Set(_) => F.k == Named
    case Use(_) => F.k == Named
    case _ => true
  }

  predicate FineList(F: Shape, sts: seq<Stmt>)
    decreases sts, 0
  {
    sts == [] || (Fine(F, sts[0]) && FineList(F, sts[1..]))
  }

  function ShapeOf(k: Kind, body: seq<Stmt>): Shape { Shape(k, Escapes(body, false), Escapes(body, true), HasAwaited(body)) }

  predicate FineBody(k: Kind, body: seq<Stmt>) { FineList(ShapeOf(k, body), body) }

  predicate FineCall<V>(F: Shape, p: Pending<V>) {
    FineDefer(F, p.d) && p.code == CodeOf(p.d) && !p.gone && (p.v.Some? ==> p.d.arg.Some?) && (Awaited(p.d) ==> F.awaits)
  }

  predicate FinePending<V>(F: Shape, ds: seq<Pending<V>>) { forall i :: 0 <= i < |ds| ==> FineCall(F, ds[i]) }

  /** The destructor does no harm: no call names a variable of the body, and no panic is in
      progress that a waiting literal might want to recover. */
  predicate Harmless<V>(F: Shape, panic: Option<int>, ds: seq<Pending<V>>) {
    (panic.Some? ==> !F.awaits) && forall i :: 0 <= i < |ds| ==> !Has(NamesLocal, ds[i].code)
  }

  // ---- Running the list --------------------------------------------------------------------

  /** The frame holds exactly the panic in progress. */
  ghost predicate Holds(pf: PanicFrame, p: Option<int>) {
    && pf.hasPending == p.Some?
    && (p.Some? ==> pf.pending == p.value && !pf.recovered)
  }

  ghost predicate Same<H, V>(l: Leaving<H, V>, t: CState<H, V>) {
    t.s == l.s && t.r == l.r && Holds(t.pf, l.panic) && !t.ub
  }

  lemma {:induction false} BodySame<H, V>(I: Interp<H, V>, body: seq<DStmt>, alive: Alive, l: Leaving<H, V>, t: CState<H, V>)
    requires Same(l, t) && (alive != All ==> !Has(NamesLocal, body))
    ensures Same(GoBody(I, body, l), CBody(I, body, alive, t))
    decreases body, 0
  {
    if body != [] {
      StepSame(I, body[0], alive, l, t);
      BodySame(I, body[1..], alive, GoStep(I, body[0], l), CStep(I, body[0], alive, t));
    }
  }

  lemma {:induction false} StepSame<H, V>(I: Interp<H, V>, d: DStmt, alive: Alive, l: Leaving<H, V>, t: CState<H, V>)
    requires Same(l, t) && (alive != All ==> !HasIn(NamesLocal, d))
    ensures Same(GoStep(I, d, l), CStep(I, d, alive, t))
    decreases d, 1
  {
    assert t.(ub := false) == t;
    if d.DIf? {
      var s' := DoTest(I, d.c, d.h, l.s).1;
      BodySame(I, d.thn, alive, l.(s := s'), t.(s := s'));
      BodySame(I, d.els, alive, l.(s := s'), t.(s := s'));
    }
  }

  /** A body that names no variable and does not touch the result does the same for any, and
      leaves them. */
  lemma {:induction false} BodyOfTheWorld<H, V>(I: Interp<H, V>, body: seq<DStmt>, l: Leaving<H, V>, vars: Option<V>, r: int)
    requires !Has(Names, body) && !Touches(body, true)
    ensures var m := GoBody(I, body, l);
      && m.r == l.r && m.s.vars == l.s.vars
      && GoBody(I, body, Leaving(Store(l.s.world, vars), r, l.panic)) == Leaving(Store(m.s.world, vars), r, m.panic)
    decreases body, 0
  {
    if body != [] {
      StepOfTheWorld(I, body[0], l, vars, r);
      BodyOfTheWorld(I, body[1..], GoStep(I, body[0], l), vars, r);
    }
  }

  lemma {:induction false} StepOfTheWorld<H, V>(I: Interp<H, V>, d: DStmt, l: Leaving<H, V>, vars: Option<V>, r: int)
    requires !HasIn(Names, d) && !HasIn(Assigns, d) && !HasIn(Reads, d)
    ensures var m := GoStep(I, d, l);
      && m.r == l.r && m.s.vars == l.s.vars
      && GoStep(I, d, Leaving(Store(l.s.world, vars), r, l.panic)) == Leaving(Store(m.s.world, vars), r, m.panic)
    decreases d, 1
  {
    if d.DIf? {
      var s' := DoTest(I, d.c, d.h, l.s).1;
      BodyOfTheWorld(I, d.thn, l.(s := s'), vars, r);
      BodyOfTheWorld(I, d.els, l.(s := s'), vars, r);
    }
  }

  lemma {:induction false} NoNewPanic<H, V>(I: Interp<H, V>, body: seq<DStmt>, l: Leaving<H, V>)
    requires l.panic == None
    ensures GoBody(I, body, l).panic == None
    decreases body, 0
  {
    if body != [] {
      var d := body[0];
      if d.DIf? {
        var s' := DoTest(I, d.c, d.h, l.s).1;
        NoNewPanic(I, d.thn, l.(s := s'));
        NoNewPanic(I, d.els, l.(s := s'));
      }
      NoNewPanic(I, body[1..], GoStep(I, d, l));
    }
  }

  function Reverse<T>(xs: seq<T>): seq<T> {
    if xs == [] then [] else [xs[|xs|-1]] + Reverse(xs[..|xs|-1])
  }

  /** A waiting literal that needs no copies. */
  lemma AwaitSame<H, V>(I: Interp<H, V>, p: Pending<V>, dead: bool, l: Leaving<H, V>, t: CState<H, V>)
    requires Same(l, t) && !Has(Names, p.code) && !Touches(p.code, true) && (dead ==> l.panic == None)
    ensures Same(GoBody(I, p.code, l), CAwait(I, p, dead, t))
  {
    var l1 := Leaving(Store(l.s.world, p.vars), p.r, l.panic);
    BodyOfTheWorld(I, p.code, l, p.vars, p.r);
    BodySame(I, p.code, All, l1, t.(s := l1.s, r := p.r, pf := if dead then NO_PANIC else t.pf));
    if dead { NoNewPanic(I, p.code, l); }
  }

  /** A call that is emitted as Go means it runs as Go says. */
  lemma CallSame<H, V>(I: Interp<H, V>, F: Shape, p: Pending<V>, dead: bool, l: Leaving<H, V>, t: CState<H, V>)
    requires Same(l, t) && FineCall(F, p) && (dead ==> !Has(NamesLocal, p.code) && (l.panic.Some? ==> !F.awaits))
    ensures Same(GoCall(I, p, l), CCall(I, p, dead, t)) && !Abandoned(p.d)
    ensures l.panic == None ==> GoCall(I, p, l).panic == None
  {
    var s1 := BindOpt(I, p.d.param, p.v, l.s);
    if l.panic == None { NoNewPanic(I, p.code, l.(s := s1)); }
    if Awaited(p.d) { AwaitSame(I, p, dead, l, t); } else { BodySame(I, p.code, if dead then OnlyParams else All, l.(s := s1), t.(s := s1)); }
  }

  lemma Regroup<T>(a: seq<T>, b: seq<T>, c: seq<T>)
    ensures a + b + c == a + (b + c) && [] + a == a && a + [] == a
  {
  }

  /** One round of RunAll's loop, and of Go's. */
  lemma RunLast<H, V>(I: Interp<H, V>, F: Shape, dead: bool, l: Leaving<H, V>, t: CState<H, V>) returns (l': Leaving<H, V>, u: CState<H, V>)
    requires t.fns != [] && Same(l, t) && FinePending(F, t.fns) && (dead ==> Harmless(F, l.panic, t.fns))
    ensures u.fns == t.fns[..|t.fns|-1] && u.ran == t.ran + [t.fns[|t.fns|-1]] && Same(l', u)
    ensures FinePending(F, u.fns) && (dead ==> Harmless(F, l'.panic, u.fns))
    ensures RunAll(I, dead, t) == RunAll(I, dead, u) && GoDefers(I, t.fns, l) == GoDefers(I, u.fns, l')
  {
    var p := t.fns[|t.fns|-1];
    var t1 := t.(fns := t.fns[..|t.fns|-1], ran := t.ran + [p]);
    CallSame(I, F, p, dead, l, t1);
    l', u := GoCall(I, p, l), CCall(I, p, dead, t1);
  }

  /** RunAll runs each registered call exactly once, last in first out, with the effects
      Go gives them. */
  lemma {:induction false} RunAllSame<H, V>(I: Interp<H, V>, F: Shape, dead: bool, l: Leaving<H, V>, t: CState<H, V>)
    requires Same(l, t) && FinePending(F, t.fns) && (dead ==> Harmless(F, l.panic, t.fns))
    ensures Same(GoDefers(I, t.fns, l), RunAll(I, dead, t))
    ensures RunAll(I, dead, t).ran == t.ran + Reverse(t.fns)
    ensures t.ran == [] ==> RunAll(I, dead, t).ran == Reverse(t.fns)
    decreases |t.fns|
  {
    var n := |t.fns|;
    if n == 0 {
      Regroup(t.ran, [], []);
    } else {
      var l', u := RunLast(I, F, dead, l, t);
      RunAllSame(I, F, dead, l', u);
      Regroup(t.ran, [t.fns[n - 1]], Reverse(t.fns[..n - 1]));
    }
    Regroup(Reverse(t.fns), [], []);
  }

  // ---- The result left alone -----------------------------------------------------------------

  /** A body that assigns nothing leaves the result; one that does not read it either
      does the same for any result. */
  lemma {:induction false} BodyApart<H, V>(I: Interp<H, V>, body: seq<DStmt>, l: Leaving<H, V>, r: int)
    requires !Has(Assigns, body)
    ensures GoBody(I, body, l).r == l.r
    ensures !Has(Reads, body) ==> GoBody(I, body, l.(r := r)) == GoBody(I, body, l).(r := r)
    decreases body, 0
  {
    if body != [] {
      StepApart(I, body[0], l, r);
      BodyApart(I, body[1..], GoStep(I, body[0], l), r);
    }
  }

  lemma {:induction false} StepApart<H, V>(I: Interp<H, V>, d: DStmt, l: Leaving<H, V>, r: int)
    requires !HasIn(Assigns, d)
    ensures GoStep(I, d, l).r == l.r
    ensures !HasIn(Reads, d) ==> GoStep(I, d, l.(r := r)) == GoStep(I, d, l).(r := r)
    decreases d, 1
  {
    if d.DIf? {
      var s' := DoTest(I, d.c, d.h, l.s).1;
      BodyApart(I, d.thn, l.(s := s'), r);
      BodyApart(I, d.els, l.(s := s'), r);
    }
  }

  predicate TouchFree<V>(ds: seq<Pending<V>>, reads_: bool) { forall i :: 0 <= i < |ds| ==> !Touches(ds[i].code, reads_) }

  lemma {:induction false} DefersApart<H, V>(I: Interp<H, V>, ds: seq<Pending<V>>, l: Leaving<H, V>, r: int)
    requires TouchFree(ds, false)
    ensures GoDefers(I, ds, l).r == l.r
    ensures TouchFree(ds, true) ==> GoDefers(I, ds, l.(r := r)) == GoDefers(I, ds, l).(r := r)
    decreases |ds|
  {
    if ds != [] {
      var p := ds[|ds|-1];
      BodyApart(I, p.code, l.(s := BindOpt(I, p.d.param, p.v, l.s)), r);
      DefersApart(I, ds[..|ds|-1], GoCall(I, p, l), r);
    }
  }

  // ---- The body ----------------------------------------------------------------------------

  /** Between statements: nothing has panicked, nothing has been run. */
  ghost predicate InStep<H, V>(F: Shape, g: GState<H, V>, t: CState<H, V>) {
    && t.s == g.s && t.r == g.r && t.fns == g.defers && t.ran == []
    && t.pf == PanicFrame(false, t.pf.pending, false) && !t.ub && FinePending(F, g.defers)
  }

  /** How the emitted statements end: a return of a named result has already run the
      list, or escaped with its value; one of another result holds the value; a panic
      stands at the end label. */
  ghost predicate Agree<H, V>(I: Interp<H, V>, F: Shape, o: Out<H, V>, c: COut<H, V>) {
    match o
    case Norm(g) => c.CNorm? && InStep(F, g, c.t)
    case Done(v, g) =>
      && c.CRet?
      && if F.k == Named then Ran(I, g, c.v, c.t) || Escaped(F, g, c.v, c.t)
         else c.v == v && (F.k == Void ==> v == None) && InStep(F, g, c.t)
    case Panicked(m, g) =>
      && c.CEnd? && Holds(c.t.pf, Some(m)) && FinePending(F, g.defers)
      && c.t == C(g.s, g.r, c.t.pf, g.defers, [], false)
    case OutOfFuel => c.CFuel?
  }

  /** The list has been run for Go state g, and v is the result it left. */
  ghost predicate Ran<H, V>(I: Interp<H, V>, g: GState<H, V>, v: Option<int>, t: CState<H, V>) {
    && Same(GoDefers(I, g.defers, Leaving(g.s, g.r, None)), t)
    && v == Some(t.r) && t.fns == [] && t.ran == Reverse(g.defers)
  }

  /** The list has not been run, v is Go's result so far, and if it was given as a value the
      variable may hold something else. */
  ghost predicate Escaped<H, V>(F: Shape, g: GState<H, V>, v: Option<int>, t: CState<H, V>) {
    F.any && v == Some(g.r) && InStep(F, g.(r := t.r), t) && (!F.valued ==> t.r == g.r)
  }

  lemma {:induction false} ExecAppend<H, V>(I: Interp<H, V>, a: seq<Cpp>, b: seq<Cpp>, t: CState<H, V>, fuel: nat)
    ensures ExecCpps(I, a + b, t, fuel) ==
            var c := ExecCpps(I, a, t, fuel); if c.CNorm? then ExecCpps(I, b, c.t, fuel) else c
    decreases |a|
  {
    if a == [] {
      assert a + b == b;
    } else {
      assert (a + b)[1..] == a[1..] + b;
      var c := ExecCpp(I, a[0], t, fuel);
      if c.CNorm? { ExecAppend(I, a[1..], b, c.t, fuel); }
    }
  }

  lemma ExecOne<H, V>(I: Interp<H, V>, c: Cpp, t: CState<H, V>, fuel: nat)
    ensures ExecCpps(I, [c], t, fuel) == ExecCpp(I, c, t, fuel)
  {
    assert [c][1..] == [];
  }

  lemma ExecRunAll<H, V>(I: Interp<H, V>, t: CState<H, V>, fuel: nat)
    ensures ExecCpps(I, [CRunAll, CReturnResult], t, fuel) == CRet(Some(RunAll(I, false, t).r), RunAll(I, false, t))
  {
    assert [CRunAll, CReturnResult][1..] == [CReturnResult];
    ExecOne(I, CReturnResult, RunAll(I, false, t), fuel);
  }

  /** A return ends at the epilogue with the result Go prescribes already assigned, or
      escapes with it. */
  lemma ReturnSame<H, V>(I: Interp<H, V>, F: Shape, e: Option<nat>, inRange: bool, g: GState<H, V>, t: CState<H, V>, fuel: nat)
    requires InStep(F, g, t) && Fine(F, Return(e, inRange)) && WithinOf(F, Return(e, inRange))
    ensures Agree(I, F, Exec(I, F.k, Return(e, inRange), g, fuel), ExecCpps(I, LowerReturn(F.k, e, inRange), t, fuel))
  {
    if F.k == Named && !inRange {
      var assign := if e.Some? then [CSet(e.value)] else [];
      ExecAppend(I, assign, [CRunAll, CReturnResult], t, fuel);
      if e.Some? { ExecOne(I, CSet(e.value), t, fuel); }
      var t1 := ExecCpps(I, assign, t, fuel).t;
      ExecRunAll(I, t1, fuel);
      RunAllSame(I, F, false, Leaving(t1.s, t1.r, None), t1);
    } else {
      ExecOne(I, LowerReturn(F.k, e, inRange)[0], t, fuel);
    }
  }

  lemma LeaveIsNothing<V>(F: Shape, n: nat, fns: seq<Pending<V>>)
    requires FinePending(F, fns)
    ensures Leave(n, fns) == fns
  {
    forall i | 0 <= i < |fns| ensures Leave(n, fns)[i] == fns[i] { assert FineCall(F, fns[i]); }
  }

  /** Leaving a block costs fine calls nothing. */
  lemma LeaveSame<H, V>(I: Interp<H, V>, F: Shape, o: Out<H, V>, c: COut<H, V>, n: nat)
    requires Agree(I, F, o, c)
    ensures LeaveBlock(n, c) == c
  {
    match o
    case Norm(g) => LeaveIsNothing(F, n, g.defers);
    case Panicked(_, g) => LeaveIsNothing(F, n, g.defers);
    case _ =>
  }

  lemma {:induction false} ListSame<H, V>(I: Interp<H, V>, F: Shape, sts: seq<Stmt>, g: GState<H, V>, t: CState<H, V>, fuel: nat)
    requires InStep(F, g, t) && FineList(F, sts) && Within(F, sts)
    ensures Agree(I, F, ExecList(I, F.k, sts, g, fuel), ExecCpps(I, LowerList(F.k, sts), t, fuel))
    decreases fuel, sts, 1
  {
    if sts != [] {
      StmtSame(I, F, sts[0], g, t, fuel);
      ExecAppend(I, Lower(F.k, sts[0]), LowerList(F.k, sts[1..]), t, fuel);
      var o := Exec(I, F.k, sts[0], g, fuel);
      if o.Norm? { ListSame(I, F, sts[1..], o.g, ExecCpps(I, Lower(F.k, sts[0]), t, fuel).t, fuel); }
    }
  }

  lemma {:induction false} StmtSame<H, V>(I: Interp<H, V>, F: Shape, st: Stmt, g: GState<H, V>, t: CState<H, V>, fuel: nat)
    requires InStep(F, g, t) && Fine(F, st) && WithinOf(F, st)
    ensures Agree(I, F, Exec(I, F.k, st, g, fuel), ExecCpps(I, Lower(F.k, st), t, fuel))
    decreases fuel, st, 2
  {
    match st
    case Act(a) => ExecOne(I, CAct(a), t, fuel);
    case Use(a) => ExecOne(I, CUse(a), t, fuel);
    case Set(e) => ExecOne(I, CSet(e), t, fuel);
    case If(c, thn, els) =>
      var s' := (I.test)(c, g.s).1;
      ListSame(I, F, thn, g.(s := s'), t.(s := s'), fuel);
      ListSame(I, F, els, g.(s := s'), t.(s := s'), fuel);
      LeaveSame(I, F, Exec(I, F.k, st, g, fuel), ExecCpps(I, LowerList(F.k, if (I.test)(c, g.s).0 then thn else els), t.(s := s'), fuel), |t.fns|);
      ExecOne(I, CIf(c, LowerList(F.k, thn), LowerList(F.k, els)), t, fuel);
    case While(c, body) =>
      WhileSame(I, F, st, g, t, fuel);
      ExecOne(I, CWhile(c, LowerList(F.k, body)), t, fuel);
    case Defer(d) => ExecOne(I, CPush(d), t, fuel);
    case Panic(e) => PanicRaised(I, F, e, g, t, fuel);
    case Return(e, inRange) => ReturnSame(I, F, e, inRange, g, t, fuel);
  }

  /** A panic statement stores its message before any deferred call runs. */
  lemma PanicRaised<H, V>(I: Interp<H, V>, F: Shape, e: nat, g: GState<H, V>, t: CState<H, V>, fuel: nat)
    requires InStep(F, g, t)
    ensures Agree(I, F, Exec(I, F.k, Panic(e), g, fuel), ExecCpps(I, Lower(F.k, Panic(e)), t, fuel))
  {
    var code := [CRaise, CPending(e), CGotoEnd];
    var t1 := t.(pf := t.pf.(hasPending := true));
    assert code[1..] == [CPending(e), CGotoEnd] && code[1..][1..] == [CGotoEnd];
    ExecOne(I, CGotoEnd, ExecCpp(I, CPending(e), t1, fuel).t, fuel);
  }

  lemma {:induction false} WhileSame<H, V>(I: Interp<H, V>, F: Shape, st: Stmt, g: GState<H, V>, t: CState<H, V>, fuel: nat)
    requires st.While? && InStep(F, g, t) && Fine(F, st) && WithinOf(F, st)
    ensures Agree(I, F, ExecWhile(I, F.k, st, g, fuel), ExecCWhile(I, CWhile(st.c, LowerList(F.k, st.body)), t, fuel))
    decreases fuel, st, 1
  {
    if fuel > 0 {
      var (b, s1) := (I.test)(st.c, g.s);
      if b {
        ListSame(I, F, st.body, g.(s := s1), t.(s := s1), fuel);
        var o := ExecList(I, F.k, st.body, g.(s := s1), fuel);
        LeaveSame(I, F, o, ExecCpps(I, LowerList(F.k, st.body), t.(s := s1), fuel), |t.fns|);
        if o.Norm? { WhileSame(I, F, st, o.g, ExecCpps(I, LowerList(F.k, st.body), t.(s := s1), fuel).t, fuel - 1); }
      }
    }
  }

  // ---- The function --------------------------------------------------------------------------

  /** What the destructors make of the list's outcome u. */
  lemma Destroyed<H, V>(k: Kind, v: Option<int>, l: Leaving<H, V>, u: CState<H, V>)
    requires Same(l, u) && match k case Void => v == None case Unnamed => true case Named => v == Some(l.r)
    ensures Ended(v, u) == GoLeave(k, v, l)
  {
  }

  /** What the epilogue does: a named result is read once the list has run, and where a
      waiting literal may be in the list it is run before the destructor can. */
  lemma EpilogueIs<H, V>(I: Interp<H, V>, k: Kind, awaits: bool, t: CState<H, V>, fuel: nat)
    ensures ExecCpps(I, Epilogue(k, awaits), t, fuel) ==
            var u := if k == Named || awaits then RunAll(I, false, t) else t;
            match k case Named => CRet(Some(u.r), u) case Unnamed => CRet(Some(0), u) case Void => CNorm(u)
  {
    var u := RunAll(I, false, t);
    match k
    case Named => ExecRunAll(I, t, fuel);
    case Unnamed =>
      assert [CRunAll, CReturnZero][1..] == [CReturnZero];
      ExecOne(I, CReturnZero, u, fuel);
      ExecOne(I, CReturnZero, t, fuel);
    case Void => ExecOne(I, CRunAll, t, fuel);
  }

  lemma NoLocals<V>(F: Shape, ds: seq<Pending<V>>)
    requires FinePending(F, ds) && (F.k == Named ==> F.any)
    ensures forall i :: 0 <= i < |ds| ==> !Has(NamesLocal, ds[i].code)
  {
    forall i | 0 <= i < |ds| ensures !Has(NamesLocal, ds[i].code) { assert FineCall(F, ds[i]); }
  }

  /** From the end label: the epilogue and the destructors answer as Go does. */
  lemma EndSame<H, V>(I: Interp<H, V>, F: Shape, g: GState<H, V>, m: Option<int>, t: CState<H, V>, fuel: nat)
    requires Holds(t.pf, m) && FinePending(F, g.defers) && t == C(g.s, g.r, t.pf, g.defers, [], false)
    ensures var c := ExecCpps(I, Epilogue(F.k, F.awaits), t, fuel);
      && (c.CRet? || (F.k == Void && c.CNorm?))
      && Destroy(I, if c.CRet? then c.v else None, c.t) == GoLeave(F.k, Some(0), GoDefers(I, g.defers, Leaving(g.s, g.r, m)))
      && RunAll(I, true, c.t).ran == Reverse(g.defers)
  {
    var l, live := Leaving(g.s, g.r, m), F.k == Named || F.awaits;
    if !live { NoLocals(F, g.defers); }
    RunAllSame(I, F, !live, l, t);
    EpilogueIs(I, F.k, F.awaits, t, fuel);
    EndsAs(I, F.k, GoDefers(I, g.defers, l), RunAll(I, !live, t), ExecCpps(I, Epilogue(F.k, F.awaits), t, fuel));
  }

  lemma EndsAs<H, V>(I: Interp<H, V>, k: Kind, l: Leaving<H, V>, u: CState<H, V>, c: COut<H, V>)
    requires Same(l, u) && (c.CRet? || c.CNorm?) && RunAll(I, true, c.t) == u
    requires match k case Named => c.CRet? && c.v == Some(u.r) case Unnamed => c.CRet? && c.v == Some(0) case Void => c.CNorm?
    ensures Destroy(I, if c.CRet? then c.v else None, c.t) == GoLeave(k, Some(0), l)
  {
    Destroyed(k, if c.CRet? then c.v else None, l, u);
  }

  /** From a return that left the list to the destructors. */
  lemma DoneSame<H, V>(I: Interp<H, V>, F: Shape, v: Option<int>, g: GState<H, V>, t: CState<H, V>)
    requires F.k != Named && (F.k == Void ==> v == None) && InStep(F, g, t)
    ensures Destroy(I, v, t) == GoLeave(F.k, v, GoDefers(I, g.defers, Leaving(g.s, g.r, None)))
    ensures RunAll(I, true, t).ran == Reverse(g.defers)
  {
    NoLocals(F, g.defers);
    RunAllSame(I, F, true, Leaving(g.s, g.r, None), t);
    Destroyed(F.k, v, GoDefers(I, g.defers, Leaving(g.s, g.r, None)), RunAll(I, true, t));
  }

  /** From a return of a named result in a range-over-func loop: the calls run too late to
      be seen in the value, but none of them looks. */
  lemma EscapeSame<H, V>(I: Interp<H, V>, F: Shape, v: Option<int>, g: GState<H, V>, t: CState<H, V>)
    requires F.k == Named && Escaped(F, g, v, t)
    ensures Destroy(I, v, t) == GoLeave(Named, v, GoDefers(I, g.defers, Leaving(g.s, g.r, None)))
    ensures RunAll(I, true, t).ran == Reverse(g.defers)
  {
    var l := Leaving(g.s, t.r, None);
    NoLocals(F, g.defers);
    RunAllSame(I, F, true, l, t);
    assert TouchFree(g.defers, F.valued);
    DefersApart(I, g.defers, l, g.r);
    DefersApart(I, g.defers, l.(r := g.r), g.r);
  }

  /** Every way out of the body: with the epilogue the destructors answer as Go does, having
      run each call registered so far exactly once, last in first out. */
  lemma LeavesSame<H, V>(I: Interp<H, V>, F: Shape, o: Out<H, V>, c: COut<H, V>, fuel: nat)
    requires Agree(I, F, o, c)
    ensures var e := ThenEpilogue(I, F.k, F.awaits, c, fuel);
      && ThenDestroy(I, e) == GoEnd(I, F.k, o)
      && (o.OutOfFuel? <==> e.CFuel?)
      && (!o.OutOfFuel? ==> RunAll(I, true, e.t).ran == Reverse(o.g.defers))
  {
    match o
    case Norm(g) => EndSame(I, F, g, None, c.t, fuel);
    case Panicked(m, g) => EndSame(I, F, g, Some(m), c.t, fuel);
    case Done(v, g) =>
      if F.k != Named {
        DoneSame(I, F, v, g, c.t);
      } else if Escaped(F, g, c.v, c.t) {
        EscapeSame(I, F, c.v, g, c.t);
      } else {
        Destroyed(Named, c.v, GoDefers(I, g.defers, Leaving(g.s, g.r, None)), c.t);
      }
    case OutOfFuel =>
  }

  /** The emitted function answers as Go says: the same value, the same state, the same
      unrecovered panic; or neither ends. */
  lemma FunctionMeansTheSame<H, V>(I: Interp<H, V>, k: Kind, body: seq<Stmt>, s: Store<H, V>, fuel: nat)
    requires FineBody(k, body)
    ensures CFunction(I, k, body, s, fuel) == GoFunction(I, k, body, s, fuel)
  {
    var F := ShapeOf(k, body);
    ListSame(I, F, body, G(s, 0, []), Entry(s), fuel);
    LeavesSame(I, F, ExecList(I, k, body, G(s, 0, []), fuel), ExecCpps(I, LowerList(k, body), Entry(s), fuel), fuel);
  }

  /** Every way out runs each call registered so far exactly once, last in first out. */
  lemma EveryDeferRunsOnce<H, V>(I: Interp<H, V>, k: Kind, body: seq<Stmt>, s: Store<H, V>, fuel: nat)
    requires FineBody(k, body) && !ExecList(I, k, body, G(s, 0, []), fuel).OutOfFuel?
    ensures !CBeforeDestroy(I, k, body, s, fuel).CFuel?
    ensures RunAll(I, true, CBeforeDestroy(I, k, body, s, fuel).t).ran == Reverse(ExecList(I, k, body, G(s, 0, []), fuel).g.defers)
  {
    var F := ShapeOf(k, body);
    ListSame(I, F, body, G(s, 0, []), Entry(s), fuel);
    LeavesSame(I, F, ExecList(I, k, body, G(s, 0, []), fuel), ExecCpps(I, LowerList(k, body), Entry(s), fuel), fuel);
  }
}
