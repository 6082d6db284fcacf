/** The emitter itself: it numbers switches, keeps the jump stack and the pending label in
    place, and its methods produce the code that Lowering defines. Code is returned as
    trees rather than appended to a text stream. */
module LoweringEmitter {
  import opened Wrappers
  import opened ControlFlow
  import opened Lowering

  /** Code in front of what a lowering gives. */
  function After(code: seq<Cpp>, rest: Lowered): Lowered {
    match rest
    case Ok(more, k) => Ok(code + more, k)
    case Rejected => Rejected
  }

  lemma AfterAfter(a: seq<Cpp>, b: seq<Cpp>, rest: Lowered)
    ensures After(a, After(b, rest)) == After(a + b, rest)
  {
    if rest.Ok? { assert a + (b + rest.code) == a + b + rest.code; }
  }

  class Emitter {
    var tempId: nat
    var jumpStack: seq<Frame>
    var pending: Option<Name>

    constructor ()
      ensures tempId == 0 && jumpStack == [] && pending == None
    {
      tempId, jumpStack, pending := 0, [], None;
    }

    /** What a method promises that was to produce r: an error, or r's code, the jump
        stack as it was and the numbers r used taken. */
    twostate predicate Emits(r: Lowered, code: seq<Cpp>, ok: bool)
      reads this
    {
      && ok == r.Ok?
      && (ok ==> code == r.code && tempId == r.next && jumpStack == old(jumpStack) && pending == None)
    }

    /** Finds the frame a break leaves, innermost first. */
    method EmitBreak(l: Option<Name>) returns (code: seq<Cpp>, ok: bool)
      ensures ok == LowerBreak(l, jumpStack).Some? && (ok ==> code == [LowerBreak(l, jumpStack).value])
    {
      if l.Some? {
        var i := |jumpStack|;
        assert jumpStack[..i] == jumpStack;
        while i > 0
          invariant 0 <= i <= |jumpStack|
          invariant Named(jumpStack, l.value) == Named(jumpStack[..i], l.value)
        {
          i := i - 1;
          assert jumpStack[..i + 1][..i] == jumpStack[..i];
          var f := jumpStack[i];
          if f.name == l && BreakLabel(f).Some? { return [CGoto(BreakLabel(f).value)], true; }
        }
        return [], false;
      }
      if jumpStack != [] && BreakLabel(jumpStack[|jumpStack| - 1]).Some? {
        return [CGoto(BreakLabel(jumpStack[|jumpStack| - 1]).value)], true;
      }
      return [CBreak], true;
    }

    /** Finds the loop a continue goes round, passing over switches. */
    method EmitContinue(l: Option<Name>) returns (code: seq<Cpp>, ok: bool)
      ensures ok == LowerContinue(l, jumpStack).Some? && (ok ==> code == [LowerContinue(l, jumpStack).value])
    {
      var i := |jumpStack|;
      assert jumpStack[..i] == jumpStack;
      while i > 0
        invariant 0 <= i <= |jumpStack|
        invariant InnerLoop(jumpStack, l) == InnerLoop(jumpStack[..i], l)
      {
        i := i - 1;
        assert jumpStack[..i + 1][..i] == jumpStack[..i];
        var f := jumpStack[i];
        if f.Loop? && (l.None? || f.name == l) {
          if f.name.Some? { return [CGoto(CntOf(f.name.value))], true; }
          return [CContinue], true;
        }
      }
      return [], false;
    }

    /** Emits one statement; nested frames are gone again when it returns. */
    method EmitStmt(st: Stmt) returns (code: seq<Cpp>, ok: bool)
      requires pending == None
      modifies this
      ensures Emits(old(Lower(st, jumpStack, tempId)), code, ok)
      decreases st, 5
    {
      code, ok := [], true;
      match st {
        case Act(a) => code := [CAct(a)];
        case Block(body) =>
          code, ok := EmitStmtList(body);
          code := [CBlock(code)];
        case If(c, thn, els) =>
          var a, b;
          a, ok := EmitStmtList(thn);
          if ok { b, ok := EmitStmtList(els); code := [CIf(c, a, b)]; }
        case For(lab, _, _, _, _) =>
          code, ok := EmitLabeled(lab);
          var loop;
          loop, ok := EmitFor(st);
          code := code + loop;
        case Switch(lab, _, _, _) =>
          code, ok := EmitLabeled(lab);
          var sw;
          sw, ok := EmitSwitch(st);
          code := code + sw;
        case Break(l) => code, ok := EmitBreak(l);
        case Continue(l) => code, ok := EmitContinue(l);
        case Fallthrough => ok := false;
      }
    }

    /** The label statement; the name waits for the loop or switch that follows. */
    method EmitLabeled(lab: Option<Name>) returns (code: seq<Cpp>, ok: bool)
      requires pending == None
      modifies this`pending
      ensures ok && code == LabelOf(lab) && pending == lab
    {
      code, ok := LabelOf(lab), true;
      pending := lab;
    }

    method EmitStmtList(sts: seq<Stmt>) returns (code: seq<Cpp>, ok: bool)
      requires pending == None
      modifies this
      ensures Emits(old(LowerList(sts, jumpStack, tempId)), code, ok)
      decreases sts, 4
    {
      code, ok := [], true;
      ghost var J := jumpStack;
      ghost var all := LowerList(sts, J, tempId);
      var i := 0;
      while i < |sts|
        invariant 0 <= i <= |sts| && ok && jumpStack == J && pending == None
        invariant all == After(code, LowerList(sts[i..], J, tempId))
      {
        ghost var id := tempId;
        var more;
        more, ok := EmitStmt(sts[i]);
        if !ok { return; }
        assert sts[i..][1..] == sts[i + 1..];
        assert LowerList(sts[i..], J, id) == After(more, LowerList(sts[i + 1..], J, tempId));
        AfterAfter(code, more, LowerList(sts[i + 1..], J, tempId));
        code := code + more;
        i := i + 1;
      }
    }

    /** Pushes the frame of a loop. */
    method BeginLoop() returns (j: Frame)
      modifies this
      ensures j == Loop(old(pending)) && jumpStack == old(jumpStack) + [j] && pending == None && tempId == old(tempId)
    {
      j := Loop(pending);
      pending := None;
      jumpStack := jumpStack + [j];
    }

    /** Pops the frame of a loop and places its break label if one was used. */
    method EndLoop(j: Frame) returns (code: seq<Cpp>)
      requires jumpStack != []
      modifies this`jumpStack
      ensures jumpStack == old(jumpStack)[..|old(jumpStack)| - 1]
      ensures code == if BreakLabel(j).Some? then [CLabel(BreakLabel(j).value)] else []
    {
      jumpStack := jumpStack[..|jumpStack| - 1];
      code := if BreakLabel(j).Some? then [CLabel(BreakLabel(j).value)] else [];
    }

    /** A loop after its label: EmitForCond, EmitForInfinite and EmitForClassic. */
    method EmitFor(st: Stmt) returns (code: seq<Cpp>, ok: bool)
      requires st.For? && pending == st.lab
      modifies this
      ensures Emits(old(Lower(st, jumpStack, tempId)), LabelOf(st.lab) + code, ok)
      decreases st, 4
    {
      var j := BeginLoop();
      var body;
      body, ok := EmitStmtList(st.loop);
      if !ok { return [], false; }
      var head;
      if j.name.Some? {
        head := CFor(st.init, st.cond, None, body + ([CLabel(CntOf(j.name.value))] + ActOf(st.post)));
      } else {
        head := CFor(st.init, st.cond, st.post, body);
      }
      var tail := EndLoop(j);
      code := [head] + tail;
    }

    /** A switch after its label: the tests, remembering the last default, then the
        bodies under a new frame, then the end label. */
    method EmitSwitch(st: Stmt) returns (code: seq<Cpp>, ok: bool)
      requires st.Switch? && pending == st.swLabel
      modifies this
      ensures Emits(old(Lower(st, jumpStack, tempId)), LabelOf(st.swLabel) + code, ok)
      decreases st, 4
    {
      var id := tempId;
      tempId := tempId + 1;
      var tag := if st.tag.Some? then Some(id) else None;
      var decl := if st.tag.Some? then [CSet(id, st.tag.value)] else [];
      var tests := EmitTests(st.cases, tag, id);
      ghost var J := jumpStack;
      jumpStack := jumpStack + [Sw(pending, id)];
      pending := None;
      var bodies;
      bodies, ok := EmitCases(st.cases, id);
      if !ok { return [], false; }
      code := decl + (tests + (bodies + [CLabel(EndOf(id))]));
      jumpStack := jumpStack[..|jumpStack| - 1];
      if st.swInit.Some? { code := [CBlock([CAct(st.swInit.value)] + code)]; }
    }

    /** Emits the jumps of a switch; the default's comes last wherever it stands. */
    method EmitTests(cases: seq<Case>, tag: Option<nat>, id: nat) returns (code: seq<Cpp>)
      ensures code == Tests(cases, 0, tag, id)
    {
      code := [];
      var def, i := |cases|, 0;
      while i < |cases|
        invariant 0 <= i <= |cases|
        invariant def == DefaultBelow(cases, i)
        invariant Tests(cases, 0, tag, id) == code + Tests(cases, i, tag, id)
      {
        if cases[i].values == [] {
          def := i;
        } else {
          assert code + Tests(cases, i, tag, id) ==
                 (code + [CGotoIf(tag, cases[i].values, CaseOf(id, i))]) + Tests(cases, i + 1, tag, id);
          code := code + [CGotoIf(tag, cases[i].values, CaseOf(id, i))];
        }
        i := i + 1;
      }
      code := code + [CGoto(if def < |cases| then CaseOf(id, def) else EndOf(id))];
    }

    /** Emits the bodies of a switch behind their labels. */
    method EmitCases(cases: seq<Case>, id: nat) returns (code: seq<Cpp>, ok: bool)
      requires pending == None
      modifies this
      ensures Emits(old(LowerCases(cases, 0, jumpStack, id, tempId)), code, ok)
      decreases cases, 0
    {
      code, ok := [], true;
      ghost var J := jumpStack;
      ghost var all := LowerCases(cases, 0, J, id, tempId);
      var i := 0;
      while i < |cases|
        invariant 0 <= i <= |cases| && ok && jumpStack == J && pending == None
        invariant all == After(code, LowerCases(cases, i, J, id, tempId))
      {
        ghost var next := tempId;
        var c := cases[i];
        var ft := EndsWithFallthrough(c);
        var body;
        body, ok := EmitStmtList(if ft then c.body[..|c.body| - 1] else c.body);
        if !ok || (ft && i + 1 == |cases|) {
          assert LowerCases(cases, i, J, id, next) == Rejected;
          return [], false;
        }
        var one := [CLabel(CaseOf(id, i)), CBlock(body + [CGoto(if ft then CaseOf(id, i + 1) else EndOf(id))])];
        assert LowerCases(cases, i, J, id, next) == After(one, LowerCases(cases, i + 1, J, id, tempId));
        AfterAfter(code, one, LowerCases(cases, i + 1, J, id, tempId));
        code := code + one;
        i := i + 1;
      }
      assert After(code, Ok([], tempId)) == Ok(code, tempId);
    }
  }
}
