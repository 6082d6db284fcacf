/** Functions for which the emitted code does not answer as Go does. */
module DeferExamples {
  import opened Wrappers
  import opened DeferModel
  import opened DeferProof
  import opened DeferEscapes

  /** Expression n has value n and nothing else happens. */
  function Numerals(): Interp<(), ()> {
    Interp((a, s) => s, (a, r, s) => s, (c, s) => (false, s), (e, r, s) => (e as int, s), (x, v, s) => s, (x, m, s) => s, v => [])
  }

  const NOTHING: Store<(), ()> := Store((), None)

  /** `defer func() { r = 2 }()` and then `return 1` inside a range-over-func loop. */
  lemma RangeReturnLosesTheDeferredAssignment()
    ensures var I := Numerals(); var body := [Defer(Deferred(Literal([DSet(2, World)]), 0, None)), Return(Some(1), true)];
      && GoFunction(I, Named, body, NOTHING, 0) == Returned(Some(2), ())
      && CFunction(I, Named, body, NOTHING, 0) == Returned(Some(1), ())
  {
    var I, code := Numerals(), [DSet(2, World)];
    var d := Deferred(Literal(code), 0, None);
    var p := Pending(d, code, None, None, 0, false);
    assert code[1..] == [] && CodeOf(d) == code;
    OneRegistered(d);
    assert DeferThenReturn([d], Some(1)) == [Defer(d), Return(Some(1), true)];
    ThenReturnsInGo(I, [d], Some(1), NOTHING, G(NOTHING, 0, [p]), Some(1), NOTHING);
    SetsTwo(p, 1);
    OneEscapes(d, p);
  }

  lemma OneEscapes(d: Deferred, p: Pending<()>)
    requires Faithful(Named, d) && p.v == None && p.code == [DSet(2, World)]
    requires ExecList(Numerals(), Named, DeferAll([d]), G(NOTHING, 0, []), 0) == Norm(G(NOTHING, 0, [p]))
    ensures CFunction(Numerals(), Named, DeferThenReturn([d], Some(1)), NOTHING, 0) == Returned(Some(1), ())
  {
    var t := ThenReturnsEmitted(Numerals(), [d], Some(1), NOTHING, G(NOTHING, 0, [p]), Some(1), NOTHING);
    assert [DSet(2, World)][1..] == [];
    SetsTwo(p, 0);
    RunAllSame(Numerals(), DEFERRING, true, Leaving(NOTHING, 0, None), t);
  }

  lemma OneRegistered(d: Deferred)
    requires d.callee.Literal? && d.arg == None
    ensures DeferAll([d]) == [Defer(d)]
    ensures ExecList(Numerals(), Named, [Defer(d)], G(NOTHING, 0, []), 0)
            == Norm(G(NOTHING, 0, [Pending(d, d.callee.body, None, None, 0, false)]))
  {
    var p: Pending<()> := Pending(d, d.callee.body, None, None, 0, false);
    assert [d][1..] == [] && DeferAll([]) == [] && [Defer(d)][1..] == [] && [] + [p] == [p];
  }

  lemma SetsTwo(p: Pending<()>, r: int)
    requires p.v == None && (p.code == [DSet(2, World)] || p.code == [DWait(0, World), DSet(2, World)])
    ensures GoDefers(Numerals(), [p], Leaving(NOTHING, r, None)) == Leaving(NOTHING, 2, None)
  {
    var I, l := Numerals(), Leaving(NOTHING, r, None);
    assert [p][..0] == [] && [DSet(2, World)][1..] == [] && [DWait(0, World), DSet(2, World)][1..] == [DSet(2, World)];
    assert GoBody(I, [DSet(2, World)], l) == Leaving(NOTHING, 2, None);
    assert GoCall(I, p, l) == Leaving(NOTHING, 2, None);
    assert GoDefers(I, [], Leaving(NOTHING, 2, None)) == Leaving(NOTHING, 2, None);
  }

  /** `defer func() { <-done; r = 2 }()` and then `return 1`, r being the named result. */
  lemma WaitingLiteralLosesTheAssignment()
    ensures var I := Numerals();
      var body := [Defer(Deferred(Literal([DWait(0, World), DSet(2, World)]), 0, None)), Return(Some(1), false)];
      && GoFunction(I, Named, body, NOTHING, 0) == Returned(Some(2), ())
      && CFunction(I, Named, body, NOTHING, 0) == Returned(Some(1), ())
  {
    var I, code := Numerals(), [DWait(0, World), DSet(2, World)];
    var d := Deferred(Literal(code), 0, None);
    var p: Pending<()> := Pending(d, code, None, None, 0, false);
    assert [Defer(d), Return(Some(1), false)] == [Defer(d)] + [Return(Some(1), false)];
    OneRegistered(d);
    TwoInGo(d, p);
    assert Waiting(code[0]) && Awaited(d);
    OnePushed(d, p);
    assert Ended(Some(1), RunAll(I, true, C(NOTHING, 1, NO_PANIC, [], [p], false))) == Returned(Some(1), ());
  }

  lemma TwoInGo(d: Deferred, p: Pending<()>)
    requires p.v == None && p.code == [DWait(0, World), DSet(2, World)]
    requires ExecList(Numerals(), Named, [Defer(d)], G(NOTHING, 0, []), 0) == Norm(G(NOTHING, 0, [p]))
    ensures GoFunction(Numerals(), Named, [Defer(d)] + [Return(Some(1), false)], NOTHING, 0) == Returned(Some(2), ())
  {
    GoAppend(Numerals(), Named, [Defer(d)], [Return(Some(1), false)], G(NOTHING, 0, []), 0);
    SetsTwo(p, 1);
  }

  lemma OnePushed(d: Deferred, p: Pending<()>)
    requires Awaited(d) && p == Pending(d, CodeOf(d), None, None, 0, false) && p.code == [DWait(0, World), DSet(2, World)]
    ensures CBeforeDestroy(Numerals(), Named, [Defer(d)] + [Return(Some(1), false)], NOTHING, 0)
            == CRet(Some(1), C(NOTHING, 1, NO_PANIC, [], [p], false))
  {
    var I, c := Numerals(), [Return(Some(1), false)];
    LowerAppend(Named, [Defer(d)], c);
    assert [Defer(d)][1..] == [] && LowerList(Named, [Defer(d)]) == [CPush(d)] && [] + [p] == [p];
    ExecAppend(I, [CPush(d)], LowerList(Named, c), Entry(NOTHING), 0);
    ExecOne(I, CPush(d), Entry(NOTHING), 0);
    OneReturned(p);
  }

  /** The return sets the result to 1, runs the list and reads it. */
  lemma OneReturned(p: Pending<()>)
    requires p.v == None && p.code == [DWait(0, World), DSet(2, World)] && Awaited(p.d)
    ensures ExecCpps(Numerals(), LowerList(Named, [Return(Some(1), false)]), C(NOTHING, 0, NO_PANIC, [p], [], false), 0)
            == CRet(Some(1), C(NOTHING, 1, NO_PANIC, [], [p], false))
  {
    var I, t := Numerals(), C(NOTHING, 0, NO_PANIC, [p], [], false);
    assert [Return(Some(1), false)][1..] == [];
    assert LowerList(Named, [Return(Some(1), false)]) == [CSet(1)] + [CRunAll, CReturnResult];
    ExecAppend(I, [CSet(1)], [CRunAll, CReturnResult], t, 0);
    ExecOne(I, CSet(1), t, 0);
    ExecRunAll(I, t.(r := 1), 0);
    CopySet(p);
  }

  /** The copy of the result is set, the result is not. */
  lemma CopySet(p: Pending<()>)
    requires p.v == None && p.code == [DWait(0, World), DSet(2, World)] && Awaited(p.d)
    ensures RunAll(Numerals(), false, C(NOTHING, 1, NO_PANIC, [p], [], false)) == C(NOTHING, 1, NO_PANIC, [], [p], false)
  {
    var I, t := Numerals(), C(NOTHING, 1, NO_PANIC, [], [p], false);
    var t0 := t.(s := Store((), p.vars), r := p.r);
    assert [p][..0] == [] && [] + [p] == [p] && p.code[1..] == [DSet(2, World)] && [DSet(2, World)][1..] == [];
    assert CBody(I, [DSet(2, World)], All, t0) == t0.(r := 2);
    assert CBody(I, p.code, All, t0) == t0.(r := 2);
    assert CCall(I, p, false, t) == t;
    assert RunAll(I, false, t) == t;
  }

  const USES_LOCAL := Deferred(Literal([DAct(0, Local)]), 0, None)

  /** `x := 1; defer func() { use(x) }()` in a function without a named result: x is gone
      when the list's destructor runs the call. */
  lemma VariablesAreGone<H, V>(I: Interp<H, V>, s: Store<H, V>)
    ensures GoFunction(I, Void, [Defer(USES_LOCAL)], s, 0) == Returned(None, (I.act)(0, s).world)
    ensures CFunction(I, Void, [Defer(USES_LOCAL)], s, 0) == Undefined
  {
    var p := Pending(USES_LOCAL, [DAct(0, Local)], None, s.vars, 0, false);
    UsedInGo(I, s, p);
    UsePushed(I, s, p);
    UsedWhenGone(I, C(s, 0, NO_PANIC, [p], [], false), p);
  }

  lemma UsePushed<H, V>(I: Interp<H, V>, s: Store<H, V>, p: Pending<V>)
    requires p == Pending(USES_LOCAL, [DAct(0, Local)], None, s.vars, 0, false)
    ensures CBeforeDestroy(I, Void, [Defer(USES_LOCAL)], s, 0) == CNorm(C(s, 0, NO_PANIC, [p], [], false))
  {
    var t := C(s, 0, NO_PANIC, [p], [], false);
    assert [DAct(0, Local)][1..] == [] && !Awaited(USES_LOCAL);
    assert [Defer(USES_LOCAL)][1..] == [] && !HasAwaited([Defer(USES_LOCAL)]);
    assert LowerList(Void, [Defer(USES_LOCAL)]) == [CPush(USES_LOCAL)] && [] + [p] == [p];
    ExecOne(I, CPush(USES_LOCAL), Entry(s), 0);
    assert ExecCpps(I, Epilogue(Void, false), t, 0) == CNorm(t);
  }

  lemma UsedInGo<H, V>(I: Interp<H, V>, s: Store<H, V>, p: Pending<V>)
    requires p == Pending(USES_LOCAL, [DAct(0, Local)], None, s.vars, 0, false)
    ensures GoFunction(I, Void, [Defer(USES_LOCAL)], s, 0) == Returned(None, (I.act)(0, s).world)
  {
    assert [Defer(USES_LOCAL)][1..] == [] && [] + [p] == [p] && [p][..0] == [] && [DAct(0, Local)][1..] == [];
    assert ExecList(I, Void, [Defer(USES_LOCAL)], G(s, 0, []), 0) == ExecList(I, Void, [], G(s, 0, [p]), 0);
    var l := Leaving((I.act)(0, s), 0, None);
    assert GoCall(I, p, Leaving(s, 0, None)) == GoBody(I, [], l) == l;
    assert GoDefers(I, [p], Leaving(s, 0, None)) == GoDefers(I, [], l) == l;
  }

  lemma UsedWhenGone<H, V>(I: Interp<H, V>, t: CState<H, V>, p: Pending<V>)
    requires p.d == USES_LOCAL && p.code == [DAct(0, Local)] && t.fns == [p]
    ensures RunAll(I, true, t).ub
  {
    assert [p][..0] == [] && p.code[1..] == [];
  }
}
