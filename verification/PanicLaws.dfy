/** What recover and an unrecovered panic answer, frame by frame, for any owner in any run. */
module PanicLaws {
  import opened Wrappers
  import opened PanicChains

  /** es ends with a call that panics and recovers. */
  function Recovers(m: int): seq<Event> { [Enter, Raise(m), Recover, Exit] }

  /** With a call that panics and does not. */
  function Panics(m: int): seq<Event> { [Enter, Raise(m), Exit] }

  /** With a call that recovers without a panic. */
  function Looks(): seq<Event> { [Enter, Recover, Exit] }

  /** With a call that panics, runs another one which tries to recover in its own frame, and
      then recovers itself. */
  function RecoversInside(m: int): seq<Event> { [Enter, Raise(m), Enter, Recover, Exit, Recover, Exit] }

  ghost predicate Was(es: seq<Event>, a: Alone) { RunAlone(es) == Some(a) }

  lemma Then(es: seq<Event>, e: Event, a: Alone)
    requires Was(es, a) && CanDo(|a.stack|, e)
    ensures Was(es + [e], DoAlone(a, e))
  {
    RunAloneSnoc(es, e);
  }

  /** What each event does when frame c is the innermost. */
  lemma OnTop(s: seq<Cell>, c: Cell, got: seq<Reply>, m: int)
    ensures DoAlone(Alone(s + [c], got), Raise(m)) == Alone(s + [Cell(true, m, c.recovered)], got)
    ensures c.hasPending ==> DoAlone(Alone(s + [c], got), Recover) == Alone(s + [Cell(false, c.pending, true)], got + [Recovered(Some(c.pending))])
    ensures !c.hasPending ==> DoAlone(Alone(s + [c], got), Recover) == Alone(s + [c], got + [Recovered(None)])
    ensures DoAlone(Alone(s + [c], got), Exit) == Alone(s, if c.hasPending && !c.recovered then got + [Unwound(c.pending)] else got)
  {
    assert (s + [c])[..|s|] == s;
  }

  lemma PanicsSoFar(es: seq<Event>, a: Alone, m: int)
    requires Was(es, a)
    ensures Was(es + [Enter, Raise(m)], a.(stack := a.stack + [Cell(true, m, false)]))
  {
    var c := Cell(false, 0, false);
    Then(es, Enter, a);
    OnTop(a.stack, c, a.got, m);
    Then(es + [Enter], Raise(m), a.(stack := a.stack + [c]));
    assert es + [Enter, Raise(m)] == es + [Enter] + [Raise(m)];
  }

  /** From a panicking frame: recover and leave. */
  lemma RecoversFromHere(es: seq<Event>, a: Alone, m: int)
    requires Was(es, a.(stack := a.stack + [Cell(true, m, false)]))
    ensures Was(es + [Recover, Exit], Alone(a.stack, a.got + [Recovered(Some(m))]))
  {
    var c, d, got := Cell(true, m, false), Cell(false, m, true), a.got + [Recovered(Some(m))];
    OnTop(a.stack, c, a.got, m);
    Then(es, Recover, a.(stack := a.stack + [c]));
    OnTop(a.stack, d, got, m);
    Then(es + [Recover], Exit, Alone(a.stack + [d], got));
    assert es + [Recover, Exit] == es + [Recover] + [Exit];
  }

  lemma RecoversAlone(es: seq<Event>, a: Alone, m: int)
    requires Was(es, a)
    ensures Was(es + Recovers(m), Alone(a.stack, a.got + [Recovered(Some(m))]))
  {
    PanicsSoFar(es, a, m);
    RecoversFromHere(es + [Enter, Raise(m)], a, m);
    assert es + [Enter, Raise(m)] + [Recover, Exit] == es + Recovers(m);
  }

  lemma PanicsAlone(es: seq<Event>, a: Alone, m: int)
    requires Was(es, a)
    ensures Was(es + Panics(m), Alone(a.stack, a.got + [Unwound(m)]))
  {
    var c := Cell(true, m, false);
    PanicsSoFar(es, a, m);
    OnTop(a.stack, c, a.got, m);
    Then(es + [Enter, Raise(m)], Exit, a.(stack := a.stack + [c]));
    assert es + [Enter, Raise(m)] + [Exit] == es + Panics(m);
  }

  lemma LooksAlone(es: seq<Event>, a: Alone)
    requires Was(es, a)
    ensures Was(es + Looks(), Alone(a.stack, a.got + [Recovered(None)]))
  {
    var c := Cell(false, 0, false);
    Then(es, Enter, a);
    OnTop(a.stack, c, a.got, 0);
    Then(es + [Enter], Recover, a.(stack := a.stack + [c]));
    OnTop(a.stack, c, a.got + [Recovered(None)], 0);
    Then(es + [Enter] + [Recover], Exit, Alone(a.stack + [c], a.got + [Recovered(None)]));
    assert es + [Enter] + [Recover] + [Exit] == es + Looks();
  }

  lemma RecoversInsideAlone(es: seq<Event>, a: Alone, m: int)
    requires Was(es, a)
    ensures Was(es + RecoversInside(m), Alone(a.stack, a.got + [Recovered(None)] + [Recovered(Some(m))]))
  {
    PanicsSoFar(es, a, m);
    LooksAlone(es + [Enter, Raise(m)], a.(stack := a.stack + [Cell(true, m, false)]));
    RecoversFromHere(es + [Enter, Raise(m)] + Looks(), a.(got := a.got + [Recovered(None)]), m);
    assert es + [Enter, Raise(m)] + Looks() + [Recover, Exit] == es + RecoversInside(m);
  }

  lemma {:induction false} PrefixRuns(es: seq<Event>, fs: seq<Event>)
    requires RunAlone(es + fs).Some?
    ensures RunAlone(es).Some?
    decreases |fs|
  {
    if fs == [] {
      assert es + fs == es;
    } else {
      assert (es + fs)[..|es + fs| - 1] == es + fs[..|fs|-1];
      PrefixRuns(es, fs[..|fs|-1]);
    }
  }

  /** Whatever else runs in between, the last thing an owner sees: the message it recovers, if
      the call it recovers in has panicked; nothing, if the panic is another frame's or there
      is none; and the message again where nobody recovers it. */
  lemma RepliesOfARun(acts: seq<Action>, w: World, o: Owner, es: seq<Event>, m: int)
    requires RunTo(START, acts, w)
    ensures var t := Thr(w, o);
      && (t.did == es + Recovers(m) ==> t.got != [] && t.got[|t.got|-1] == Recovered(Some(m)))
      && (t.did == es + Panics(m) ==> t.got != [] && t.got[|t.got|-1] == Unwound(m))
      && (t.did == es + Looks() ==> t.got != [] && t.got[|t.got|-1] == Recovered(None))
      && (t.did == es + RecoversInside(m) ==>
            |t.got| >= 2 && t.got[|t.got|-2] == Recovered(None) && t.got[|t.got|-1] == Recovered(Some(m)))
  {
    SameAsAlone(acts, w, o);
    forall fs: seq<Event> | Thr(w, o).did == es + fs ensures RunAlone(es).Some? { PrefixRuns(es, fs); }
    if RunAlone(es).Some? {
      var a := RunAlone(es).value;
      RecoversAlone(es, a, m);
      PanicsAlone(es, a, m);
      LooksAlone(es, a);
      RecoversInsideAlone(es, a, m);
    }
  }
}
