/** Deferred calls that are not emitted as Go means them, and exactly which they are. */
module DeferAnomalies {
  import opened Wrappers
  import opened DeferModel
  import opened DeferProof
  import opened DeferWatch

  // ---- Deferred calls that are not emitted as Go means them -----------------------------------

  function ReturnOf(k: Kind): Option<nat> { if k == Void then None else Some(0) }

  /** What a return leaves in the result, r before it. */
  function Assigned(v: Option<int>, r: int): int { if v.Some? then v.value else r }

  /** A function that defers d in a block, does something and returns. */
  function Context(k: Kind, d: Deferred): seq<Stmt> { [If(0, [Defer(d)], []), Act(0), Return(ReturnOf(k), false)] }

  /** The result variable behind that return. */
  function ResultOf(k: Kind, v: Option<int>): int { if k == Named then Assigned(v, 0) else 0 }

  lemma BlockInGo<H, V>(I: Interp<H, V>, k: Kind, d: Deferred, s: Store<H, V>, s0: Store<H, V>, p: Pending<V>, s1: Store<H, V>)
    requires (I.test)(0, s) == (true, s0) && GoRegister(I, d, 0, s0) == (p, s1)
    ensures Exec(I, k, If(0, [Defer(d)], []), G(s, 0, []), 0) == Norm(G(s1, 0, [p]))
  {
    assert [Defer(d)][1..] == [] && [] + [p] == [p];
    assert Exec(I, k, Defer(d), G(s0, 0, []), 0) == Norm(G(s1, 0, [p]));
    assert ExecList(I, k, [Defer(d)], G(s0, 0, []), 0) == ExecList(I, k, [], G(s1, 0, [p]), 0);
  }

  /** What Go answers: the call runs once the value returned has been assigned. */
  lemma ContextInGo<H, V>(I: Interp<H, V>, k: Kind, d: Deferred, s: Store<H, V>, s0: Store<H, V>,
                          p: Pending<V>, s1: Store<H, V>, v: Option<int>, s2: Store<H, V>)
    requires (I.test)(0, s) == (true, s0) && GoRegister(I, d, 0, s0) == (p, s1)
    requires EvalOpt(I, ReturnOf(k), 0, (I.act)(0, s1)) == (v, s2)
    ensures GoFunction(I, k, Context(k, d), s, 0) == GoLeave(k, v, GoCall(I, p, Leaving(s2, ResultOf(k, v), None)))
  {
    var c := Return(ReturnOf(k), false);
    BlockInGo(I, k, d, s, s0, p, s1);
    assert Context(k, d)[1..] == [Act(0), c] && [Act(0), c][1..] == [c];
    var l := Leaving(s2, ResultOf(k, v), None);
    var g := G((I.act)(0, s1), 0, [p]);
    assert ExecList(I, k, [Act(0), c], G(s1, 0, [p]), 0) == ExecList(I, k, [c], g, 0) == Exec(I, k, c, g, 0);
    assert [p][..0] == [];
    assert GoDefers(I, [p], l) == GoDefers(I, [], GoCall(I, p, l)) == GoCall(I, p, l);
  }

  /** The same in the emitted function, where the call has left its block. */
  function Left<V>(p: Pending<V>): Pending<V> { if Has(NamesInner, p.code) then p.(gone := true) else p }

  function RanAs<V>(p: Pending<V>): seq<Pending<V>> { if Abandoned(p.d) then [] else [p] }

  lemma BlockEmitted<H, V>(I: Interp<H, V>, k: Kind, d: Deferred, s: Store<H, V>, s0: Store<H, V>, p: Pending<V>, s1: Store<H, V>)
    requires (I.test)(0, s) == (true, s0) && CRegister(I, d, 0, s0) == (p, s1)
    ensures ExecCpps(I, Lower(k, If(0, [Defer(d)], [])), Entry(s), 0) == CNorm(C(s1, 0, NO_PANIC, [Left(p)], [], false))
  {
    assert [Defer(d)][1..] == [] && [] + [p] == [p];
    assert LowerList(k, [Defer(d)]) == [CPush(d)];
    ExecOne(I, CIf(0, [CPush(d)], []), Entry(s), 0);
    ExecOne(I, CPush(d), Entry(s0), 0);
    assert Leave(0, [p]) == [Left(p)];
  }

  lemma OneCall<H, V>(I: Interp<H, V>, dead: bool, p: Pending<V>, t: CState<H, V>)
    requires t.fns == [] && t.ran == RanAs(p)
    ensures RunAll(I, dead, t.(fns := [p], ran := [])) == CCall(I, p, dead, t)
  {
    assert [p][..0] == [] && [] + [p] == [p];
  }

  lemma ReturnEmitted<H, V>(I: Interp<H, V>, k: Kind, p: Pending<V>, s: Store<H, V>, v: Option<int>, s2: Store<H, V>)
    requires EvalOpt(I, ReturnOf(k), 0, s) == (v, s2)
    ensures var u := CCall(I, p, k != Named, C(s2, ResultOf(k, v), NO_PANIC, [], RanAs(p), false));
      var c := ExecCpps(I, LowerReturn(k, ReturnOf(k), false), C(s, 0, NO_PANIC, [p], [], false), 0);
      c.CRet? && ThenDestroy(I, c) == Ended(if k == Named then Some(u.r) else v, u)
  {
    var t := C(s, 0, NO_PANIC, [p], [], false);
    var t1 := C(s2, ResultOf(k, v), NO_PANIC, [p], [], false);
    OneCall(I, k != Named, p, t1.(fns := [], ran := RanAs(p)));
    if k == Named {
      ExecAppend(I, [CSet(0)], [CRunAll, CReturnResult], t, 0);
      ExecOne(I, CSet(0), t, 0);
      ExecRunAll(I, t1, 0);
    } else {
      ExecOne(I, CReturn(ReturnOf(k)), t, 0);
    }
  }

  lemma ContextEmitted<H, V>(I: Interp<H, V>, k: Kind, d: Deferred, s: Store<H, V>, s0: Store<H, V>,
                             p: Pending<V>, s1: Store<H, V>, v: Option<int>, s2: Store<H, V>)
    requires (I.test)(0, s) == (true, s0) && CRegister(I, d, 0, s0) == (p, s1)
    requires EvalOpt(I, ReturnOf(k), 0, (I.act)(0, s1)) == (v, s2)
    ensures var u := CCall(I, Left(p), k != Named, C(s2, ResultOf(k, v), NO_PANIC, [], RanAs(Left(p)), false));
      CFunction(I, k, Context(k, d), s, 0) == Ended(if k == Named then Some(u.r) else v, u)
  {
    var c := Return(ReturnOf(k), false);
    var last := LowerReturn(k, ReturnOf(k), false);
    var t := C(s1, 0, NO_PANIC, [Left(p)], [], false);
    BlockEmitted(I, k, d, s, s0, p, s1);
    RestLowered(k);
    assert Context(k, d)[1..] == [Act(0), c];
    ExecAppend(I, Lower(k, If(0, [Defer(d)], [])), [CAct(0)] + last, Entry(s), 0);
    ExecAppend(I, [CAct(0)], last, t, 0);
    ExecOne(I, CAct(0), t, 0);
    ReturnEmitted(I, k, Left(p), (I.act)(0, s1), v, s2);
  }

  lemma RestLowered(k: Kind)
    ensures LowerList(k, [Act(0), Return(ReturnOf(k), false)]) == [CAct(0)] + LowerReturn(k, ReturnOf(k), false)
  {
    var c := Return(ReturnOf(k), false);
    assert [Act(0), c][1..] == [c] && [c][1..] == [];
    assert LowerList(k, [c]) == LowerReturn(k, ReturnOf(k), false) + LowerList(k, []);
    assert LowerReturn(k, ReturnOf(k), false) + [] == LowerReturn(k, ReturnOf(k), false);
  }

  // ---- The context under that meaning -----------------------------------------------------------

  /** coins for the call's body, behind the one that enters its block. */
  function Begin(coins: seq<bool>): Watched { Store(Oracle([true] + coins, 0, []), Some(0)) }

  function Began(coins: seq<bool>): Watched { Store(Oracle(coins, 1, [0]), Some(0)) }

  lemma Begins(coins: seq<bool>)
    ensures (Watching().test)(0, Begin(coins)) == (true, Began(coins))
  {
    assert ([true] + coins)[1..] == coins && [] + [0] == [0];
  }

  function One(b: bool): nat { if b then 1 else 0 }

  /** What is returned, and the store by then, if registering the call does nothing. */
  function Returning(k: Kind, coins: seq<bool>): (Option<int>, Watched) {
    EvalOpt(Watching(), ReturnOf(k), 0, (Watching().act)(0, Began(coins)))
  }

  /** What the call finds in Go: the variables have changed since it was registered. */
  lemma FoundInGo(k: Kind, d: Deferred, coins: seq<bool>) returns (p: Pending<int>, v: Option<int>, l: Leaving<Oracle, int>)
    ensures GoFunction(Watching(), k, Context(k, d), Begin(coins), 0) == GoLeave(k, v, GoCall(Watching(), p, l))
    ensures p.d == d && p.code == CodeOf(d) && p.v.Some? == d.arg.Some?
    ensures l.panic == None && l.s.vars == Some(1) && l.s.world.coins == coins && (k == Named ==> l.r > 0)
    ensures l.s.world.count == 2 + One(d.callee.Stored? || d.callee.Computed?) + One(d.arg.Some?) + One(k != Void)
    ensures l.r == ResultOf(k, v) <= l.s.world.count
    ensures d.arg.None? && !d.callee.Stored? && !d.callee.Computed? ==> (v, l.s) == Returning(k, coins)
  {
    var I := Watching();
    var (q, s1) := GoRegister(I, d, 0, Began(coins));
    var (w, s2) := EvalOpt(I, ReturnOf(k), 0, (I.act)(0, s1));
    Begins(coins);
    ContextInGo(I, k, d, Begin(coins), Began(coins), q, s1, w, s2);
    p, v, l := q, w, Leaving(s2, ResultOf(k, w), None);
  }

  /** What it finds in the emitted function, with copies from when it was pushed. */
  lemma FoundEmitted(k: Kind, d: Deferred, coins: seq<bool>) returns (p: Pending<int>, v: Option<int>, t: CState<Oracle, int>)
    ensures var u := CCall(Watching(), p, k != Named, t);
      CFunction(Watching(), k, Context(k, d), Begin(coins), 0) == Ended(if k == Named then Some(u.r) else v, u)
    ensures p.d == d && p.code == CodeOf(d) && p.v.Some? == (d.arg.Some? && !Awaited(d))
    ensures p.vars == Some(0) && p.r == 0 && p.gone == Has(NamesInner, CodeOf(d))
    ensures t.pf == NO_PANIC && !t.ub && t.s.vars == Some(1) && t.s.world.coins == coins
    ensures t.s.world.count == 2 + One(d.arg.Some? && !Awaited(d)) + One(k != Void) && t.r == ResultOf(k, v)
    ensures d.arg.None? ==> (v, t.s) == Returning(k, coins)
  {
    var I := Watching();
    var (q, s1) := CRegister(I, d, 0, Began(coins));
    var (w, s2) := EvalOpt(I, ReturnOf(k), 0, (I.act)(0, s1));
    Begins(coins);
    ContextEmitted(I, k, d, Begin(coins), Began(coins), q, s1, w, s2);
    p, v, t := Left(q), w, C(s2, ResultOf(k, w), NO_PANIC, [], RanAs(Left(q)), false);
  }

  // ---- The five ways to differ -------------------------------------------------------------------

  ghost predicate Differs(k: Kind, d: Deferred, coins: seq<bool>) {
    CFunction(Watching(), k, Context(k, d), Begin(coins), 0) != GoFunction(Watching(), k, Context(k, d), Begin(coins), 0)
  }

  function Alives(k: Kind, p: Pending<int>): Alive { if k != Named then OnlyParams else if p.gone then NoInner else All }

  /** The argument of a literal is evaluated once more, or not at all. */
  lemma LateArgument(k: Kind, d: Deferred)
    requires d.callee.Literal? && d.arg.Some?
    ensures Differs(k, d, [])
  {
    var I := Watching();
    var p, v, l := FoundInGo(k, d, []);
    var q, w, t := FoundEmitted(k, d, []);
    var l1 := l.(s := BindOpt(I, d.param, p.v, l.s));
    if Awaited(d) {
      BodyCounts(p.code, All, l1, t.(s := Store(t.s.world, q.vars), r := q.r, pf := if k != Named then NO_PANIC else t.pf));
    } else {
      var (body, a, s1) := CEnter(I, q, t.r, t.s);
      BodyCounts(body, Alives(k, q), l1, t.(s := BindOpt(I, d.param, a, s1)));
    }
  }

  /** A waiting function called by its name does nothing. */
  lemma NeverStarted(k: Kind, d: Deferred)
    requires Abandoned(d)
    ensures Differs(k, d, [])
  {
    var p, v, l := FoundInGo(k, d, []);
    var q, w, t := FoundEmitted(k, d, []);
    BodyCounts(p.code, All, l.(s := BindOpt(Watching(), d.param, p.v, l.s)), t);
  }

  /** A function value is evaluated late and is another one by then. */
  lemma LateCallee(k: Kind, d: Deferred)
    requires d.callee.Stored? || d.callee.Computed?
    ensures Differs(k, d, [])
  {
    var I := Watching();
    var p, v, l := FoundInGo(k, d, []);
    var q, w, t := FoundEmitted(k, d, []);
    var (body, a, s1) := CEnter(I, q, t.r, t.s);
    assert body == [DAct(0, World)];
    var t1 := t.(s := BindOpt(I, d.param, a, s1));
    BodyCounts(body, Alives(k, q), Leaving(t1.s, 0, None), t1);
  }

  /** A variable of the body, or of a block that has been left, is named after its end. */
  lemma NamesTheLost(k: Kind, d: Deferred, aim: Aim)
    requires !d.callee.Stored? && !d.callee.Computed? && !Waits(CodeOf(d)) && (d.callee.Literal? ==> d.arg.None?)
    requires Has(aim, CodeOf(d)) && (aim == NamesInner || (aim == NamesLocal && k != Named))
    ensures Differs(k, d, Coins(aim, CodeOf(d)))
  {
    var I := Watching();
    var coins := Coins(aim, CodeOf(d));
    var p, v, l := FoundInGo(k, d, coins);
    var q, w, t := FoundEmitted(k, d, coins);
    assert coins + [] == coins;
    BodyLost(aim, CodeOf(d), Alives(k, q), t.(s := BindOpt(I, d.param, q.v, t.s)), []);
  }

  /** A waiting literal works on copies: what it assigns is lost, what it reads is old. */
  lemma WorksOnCopies(k: Kind, d: Deferred) returns (coins: seq<bool>)
    requires Awaited(d) && d.arg.None? && (k != Named ==> !Touches(CodeOf(d), true))
    requires Has(Names, CodeOf(d)) || Touches(CodeOf(d), true)
    ensures Differs(k, d, coins)
  {
    var I := Watching();
    var body := CodeOf(d);
    var aim := if Has(Assigns, body) then Assigns else if Has(Names, body) then Names else Reads;
    coins := Coins(aim, body);
    assert coins + [] == coins;
    var p, v, l := FoundInGo(k, d, coins);
    var q, w, t := FoundEmitted(k, d, coins);
    var m := Leaving(Store(t.s.world, Some(0)), 0, None);
    var t1 := t.(s := m.s, r := 0);
    BodySame(I, body, All, m, t1);
    NoNewPanic(I, body, m);
    NoNewPanic(I, body, l);
    if aim == Assigns { BodyAssigns(t.r, body, l, []); } else { BodyParts(aim, body, l, m, []); }
    Unlike(k, v, GoBody(I, body, l), CBody(I, body, All, t1), t);
  }

  /** The answers differ if the copies have read, or failed to assign, something. */
  lemma Unlike(k: Kind, v: Option<int>, l: Leaving<Oracle, int>, c: CState<Oracle, int>, t: CState<Oracle, int>)
    requires l.panic == None && !c.ub && !c.pf.hasPending && (l.s.world != c.s.world || (k == Named && l.r != t.r))
    ensures GoLeave(k, v, l) != Ended(if k == Named then Some(t.r) else v, c.(r := t.r))
  {
  }

  // ---- Exactly which calls --------------------------------------------------------------------

  /** Every function that defers d in a block and has nothing but fine statements behind it,
      and no return from a range-over-func loop, does what Go says. */
  ghost predicate DeferredAsInGo(k: Kind, d: Deferred) {
    forall I: Interp<Oracle, int>, c: nat, rest: seq<Stmt>, s: Watched, fuel: nat :: FineBody(k, rest) && !Escapes(rest, false) ==>
      CFunction(I, k, [If(c, [Defer(d)], [])] + rest, s, fuel) == GoFunction(I, k, [If(c, [Defer(d)], [])] + rest, s, fuel)
  }

  lemma Behind(st: Stmt, rest: seq<Stmt>)
    ensures forall valued :: Escapes([st] + rest, valued) <==> Escaping(st, valued) || Escapes(rest, valued)
    ensures forall F :: FineList(F, [st] + rest) <==> Fine(F, st) && FineList(F, rest)
    ensures HasAwaited([st] + rest) <==> Awaiting(st) || HasAwaited(rest)
  {
    assert ([st] + rest)[1..] == rest;
  }

  lemma {:induction false} FineEitherWay(F: Shape, sts: seq<Stmt>, awaits: bool)
    requires FineList(F, sts)
    ensures FineList(F.(awaits := awaits), sts)
    decreases sts, 0
  {
    if sts != [] {
      FineStmtEitherWay(F, sts[0], awaits);
      FineEitherWay(F, sts[1..], awaits);
    }
  }

  lemma {:induction false} FineStmtEitherWay(F: Shape, st: Stmt, awaits: bool)
    requires Fine(F, st)
    ensures Fine(F.(awaits := awaits), st)
    decreases st, 1
  {
    match st
    case If(_, thn, els) => FineEitherWay(F, thn, awaits); FineEitherWay(F, els, awaits);
    case While(_, body) => FineEitherWay(F, body, awaits);
    case _ =>
  }

  lemma {:induction false} FewerNames(body: seq<DStmt>)
    requires Has(NamesInner, body) || Has(NamesLocal, body)
    ensures Has(Names, body)
    decreases body, 0
  {
    var d := body[0];
    if !HasIn(NamesInner, d) && !HasIn(NamesLocal, d) {
      FewerNames(body[1..]);
    } else if d.DIf? && d.h == World {
      if Has(NamesInner, d.thn) || Has(NamesLocal, d.thn) { FewerNames(d.thn); } else { FewerNames(d.els); }
    }
  }

  /** A function that defers a call and is fine otherwise does what Go says, whatever its
      names mean, if and only if the call is of a literal without an argument, or of a
      function by its name that does not wait; names no variable of an inner block, nor,
      without a named result, any variable of the body; and, if it is a waiting literal,
      names no variable at all and does not touch the result. */
  lemma DeferredAsInGoExactly(k: Kind, d: Deferred)
    requires k != Named ==> !Touches(CodeOf(d), true)
    ensures DeferredAsInGo(k, d) <==> Faithful(k, d)
  {
    if Faithful(k, d) {
      forall I: Interp<Oracle, int>, c: nat, rest: seq<Stmt>, s: Watched, fuel: nat | FineBody(k, rest) && !Escapes(rest, false)
        ensures CFunction(I, k, [If(c, [Defer(d)], [])] + rest, s, fuel) == GoFunction(I, k, [If(c, [Defer(d)], [])] + rest, s, fuel)
      {
        FineInBlock(k, d, c, rest);
        FunctionMeansTheSame(I, k, [If(c, [Defer(d)], [])] + rest, s, fuel);
      }
    } else {
      var coins := SomeDifference(k, d);
      ContextIsFine(k, d);
    }
  }

  lemma DeferInBlock(F: Shape, d: Deferred, c: nat)
    ensures var block := If(c, [Defer(d)], []);
      !Escaping(block, false) && !Escaping(block, true) && (FineDefer(F, d) ==> Fine(F, block))
  {
    var one := [Defer(d)];
    assert one[1..] == [];
    assert !Escapes(one, false) && !Escapes(one, true);
    assert FineList(F, one) == FineDefer(F, d);
  }

  lemma FineInBlock(k: Kind, d: Deferred, c: nat, rest: seq<Stmt>)
    requires Faithful(k, d) && FineBody(k, rest) && !Escapes(rest, false) && (k != Named ==> !Touches(CodeOf(d), true))
    ensures FineBody(k, [If(c, [Defer(d)], [])] + rest)
  {
    var block := If(c, [Defer(d)], []);
    Behind(block, rest);
    DeferInBlock(ShapeOf(k, [block] + rest), d, c);
    assert Escapes(rest, true) ==> Escapes(rest, false) by { if Escapes(rest, true) { ValuedEscapes(rest); } }
    FineEitherWay(ShapeOf(k, rest), rest, HasAwaited([block] + rest));
    assert ShapeOf(k, [block] + rest) == ShapeOf(k, rest).(awaits := HasAwaited([block] + rest));
  }

  lemma {:induction false} ValuedEscapes(sts: seq<Stmt>)
    requires Escapes(sts, true)
    ensures Escapes(sts, false)
    decreases sts, 0
  {
    match sts[0]
    case If(_, thn, els) =>
      if Escapes(thn, true) { ValuedEscapes(thn); } else if Escapes(els, true) { ValuedEscapes(els); } else { ValuedEscapes(sts[1..]); }
    case While(_, body) => if Escapes(body, true) { ValuedEscapes(body); } else { ValuedEscapes(sts[1..]); }
    case _ => if !Escaping(sts[0], true) { ValuedEscapes(sts[1..]); }
  }

  lemma ContextIsFine(k: Kind, d: Deferred)
    ensures var rest := [Act(0), Return(ReturnOf(k), false)];
      Context(k, d) == [If(0, [Defer(d)], [])] + rest && FineBody(k, rest) && !Escapes(rest, false)
  {
    var c := Return(ReturnOf(k), false);
    Behind(Act(0), [c]);
    Behind(c, []);
    assert [Act(0)] + [c] == [Act(0), c] && [c] + [] == [c];
  }

  lemma SomeDifference(k: Kind, d: Deferred) returns (coins: seq<bool>)
    requires !Faithful(k, d) && (k != Named ==> !Touches(CodeOf(d), true))
    ensures Differs(k, d, coins)
  {
    coins := [];
    if d.callee.Stored? || d.callee.Computed? {
      LateCallee(k, d);
    } else if d.callee.Literal? && d.arg.Some? {
      LateArgument(k, d);
    } else if Abandoned(d) {
      NeverStarted(k, d);
    } else if Awaited(d) {
      if !Has(Names, CodeOf(d)) && !Touches(CodeOf(d), true) { FewerNames(CodeOf(d)); }
      coins := WorksOnCopies(k, d);
    } else {
      var aim := if Has(NamesInner, CodeOf(d)) then NamesInner else NamesLocal;
      coins := Coins(aim, CodeOf(d));
      NamesTheLost(k, d, aim);
    }
  }
}
