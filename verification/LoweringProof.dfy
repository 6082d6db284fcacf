/** The emitted labels and gotos do what the Go statements do. */
module LoweringProof {
  import opened Wrappers
  import opened ControlFlow
  import opened Lowering

  // ---- Lists of C++ statements -------------------------------------------------------

  /** What list b makes of the way the list before it ended. */
  ghost function Then<S>(I: Interp<S>, o: COut<S>, b: seq<Cpp>, fuel: nat): COut<S> {
    match o
    case CNorm(t) => ExecCpps(I, b, t, fuel)
    case CJump(l, t) => Seek(I, b, l, t, fuel)
    case _ => o
  }

  lemma {:induction false} ExecAppend<S>(I: Interp<S>, a: seq<Cpp>, b: seq<Cpp>, t: CState<S>, fuel: nat)
    ensures ExecCpps(I, a + b, t, fuel) == Then(I, ExecCpps(I, a, t, fuel), b, fuel)
    decreases |a|
  {
    if a == [] {
      assert a + b == b;
    } else {
      assert (a + b)[0] == a[0] && (a + b)[1..] == a[1..] + b;
      match ExecCpp(I, a[0], t, fuel)
      case CNorm(t') => ExecAppend(I, a[1..], b, t', fuel);
      case CJump(l, t') => SeekAppend(I, a[1..], b, l, t', fuel);
      case _ =>
    }
  }

  lemma {:induction false} SeekAppend<S>(I: Interp<S>, a: seq<Cpp>, b: seq<Cpp>, l: Lbl, t: CState<S>, fuel: nat)
    ensures Seek(I, a + b, l, t, fuel) == Then(I, Seek(I, a, l, t, fuel), b, fuel)
    decreases |a|
  {
    if a == [] {
      assert a + b == b;
    } else {
      assert (a + b)[0] == a[0] && (a + b)[1..] == a[1..] + b;
      if a[0] == CLabel(l) { ExecAppend(I, a[1..], b, t, fuel); } else { SeekAppend(I, a[1..], b, l, t, fuel); }
    }
  }

  lemma {:induction false} SeekMisses<S>(I: Interp<S>, cs: seq<Cpp>, l: Lbl, t: CState<S>, fuel: nat)
    requires CLabel(l) !in cs
    ensures Seek(I, cs, l, t, fuel) == CJump(l, t)
    decreases |cs|
  {
    if cs != [] { SeekMisses(I, cs[1..], l, t, fuel); }
  }

  lemma ExecOne<S>(I: Interp<S>, c: Cpp, t: CState<S>, fuel: nat)
    ensures ExecCpps(I, [c], t, fuel) == ExecCpp(I, c, t, fuel)
  {
    assert [c][1..] == [];
  }

  // ---- Labels ------------------------------------------------------------------------

  /** No statement carries a label of a statement around it. */
  predicate Scoped(st: Stmt, E: set<Name>)
    decreases st, 2
  {
    match st
    case Block(body) => ScopedList(body, E)
    case If(_, thn, els) => ScopedList(thn, E) && ScopedList(els, E)
    case For(lab, _, _, _, body) => (lab.Some? ==> lab.value !in E) && ScopedList(body, E + NameSet(lab))
    case Switch(lab, _, _, cases) => (lab.Some? ==> lab.value !in E) && ScopedCases(cases, E + NameSet(lab))
    case _ => true
  }

  function NameSet(n: Option<Name>): set<Name> { if n.Some? then {n.value} else {} }

  predicate ScopedList(sts: seq<Stmt>, E: set<Name>)
    decreases sts, 1
  {
    sts == [] || (Scoped(sts[0], E) && ScopedList(sts[1..], E))
  }

  predicate ScopedCases(cases: seq<Case>, E: set<Name>)
    decreases cases, 0
  {
    cases == [] || (ScopedList(cases[0].body, E) && ScopedCases(cases[1..], E))
  }

  lemma {:induction false} ScopedPrefix(sts: seq<Stmt>, n: nat, E: set<Name>)
    requires ScopedList(sts, E) && n <= |sts|
    ensures ScopedList(sts[..n], E)
    decreases n
  {
    if n > 0 {
      ScopedPrefix(sts[1..], n - 1, E);
      assert sts[..n][1..] == sts[1..][..n - 1];
    }
  }

  lemma {:induction false} ScopedCase(cases: seq<Case>, i: nat, E: set<Name>)
    requires ScopedCases(cases, E) && i < |cases|
    ensures ScopedList(cases[i].body, E) && ScopedList(Proper(cases[i]), E)
    decreases i
  {
    if i > 0 {
      ScopedCase(cases[1..], i - 1, E);
    } else if EndsWithFallthrough(cases[0]) {
      ScopedPrefix(cases[0].body, |cases[0].body| - 1, E);
    }
  }

  /** The jump stack's names are in E and its switch numbers below id. */
  ghost predicate StackOk(J: seq<Frame>, E: set<Name>, id: nat) {
    forall f :: f in J ==> NameSet(f.name) <= E && (f.Sw? ==> f.id < id)
  }

  /** A label some enclosing frame may be left through. */
  predicate Outer(l: Lbl, E: set<Name>, id: nat) {
    match l
    case BrkOf(n) => n in E
    case CntOf(n) => n in E
    case EndOf(k) => k < id
    case _ => false
  }

  /** A label that code numbered from id to k may define. */
  predicate Inner(l: Lbl, E: set<Name>, id: nat, k: nat) {
    match l
    case User(n) => n !in E
    case BrkOf(n) => n !in E
    case CntOf(n) => n !in E
    case EndOf(m) => id <= m < k
    case CaseOf(m, _) => id <= m < k
  }

  lemma {:induction false} NamedIn(J: seq<Frame>, n: Name)
    requires Named(J, n).Some?
    ensures Named(J, n).value in J && Named(J, n).value.name == Some(n)
    decreases |J|
  {
    if J[|J|-1].name != Some(n) { NamedIn(J[..|J|-1], n); }
  }

  lemma {:induction false} InnerLoopIn(J: seq<Frame>, n: Option<Name>)
    requires InnerLoop(J, n).Some?
    ensures InnerLoop(J, n).value in J && InnerLoop(J, n).value.Loop?
    ensures n != None ==> InnerLoop(J, n).value.name == n
    decreases |J|
  {
    if !(J[|J|-1].Loop? && (n == None || J[|J|-1].name == n)) { InnerLoopIn(J[..|J|-1], n); }
  }

  lemma JumpsGoOut(l: Option<Name>, J: seq<Frame>, E: set<Name>, id: nat)
    requires StackOk(J, E, id)
    ensures LowerBreak(l, J).Some? && LowerBreak(l, J).value.CGoto? ==> Outer(LowerBreak(l, J).value.l, E, id)
    ensures LowerContinue(l, J).Some? && LowerContinue(l, J).value.CGoto? ==> Outer(LowerContinue(l, J).value.l, E, id)
  {
    if l.Some? && Named(J, l.value).Some? { NamedIn(J, l.value); }
    if InnerLoop(J, l).Some? { InnerLoopIn(J, l); }
    if J != [] { assert J[|J|-1] in J; }
  }

  /** Every label at the top level of the code for st is one of its own. */
  ghost predicate OwnLabels(code: seq<Cpp>, E: set<Name>, id: nat, k: nat) {
    forall l :: CLabel(l) in code ==> Inner(l, E, id, k)
  }

  lemma {:induction false} TestsHaveNoLabels(cases: seq<Case>, i: nat, tag: Option<nat>, id: nat)
    requires i <= |cases|
    ensures forall l :: CLabel(l) !in Tests(cases, i, tag, id)
    decreases |cases| - i
  {
    if i < |cases| { TestsHaveNoLabels(cases, i + 1, tag, id); }
  }

  lemma {:induction false} CasesOwnLabels(cases: seq<Case>, i: nat, J: seq<Frame>, id: nat, next: nat)
    requires i <= |cases| && LowerCases(cases, i, J, id, next).Ok?
    ensures forall l :: CLabel(l) in LowerCases(cases, i, J, id, next).code ==> l.CaseOf? && l.id == id && i <= l.i < |cases|
    decreases |cases| - i
  {
    if i < |cases| { CasesOwnLabels(cases, i + 1, J, id, LowerList(Proper(cases[i]), J, next).next); }
  }

  lemma LowerOwnLabels(st: Stmt, J: seq<Frame>, E: set<Name>, id: nat)
    requires Lower(st, J, id).Ok? && Scoped(st, E)
    ensures OwnLabels(Lower(st, J, id).code, E, id, Lower(st, J, id).next)
  {
    if st.Switch? {
      TestsHaveNoLabels(st.cases, 0, if st.tag.Some? then Some(id) else None, id);
      CasesOwnLabels(st.cases, 0, J + [Sw(st.swLabel, id)], id, id + 1);
    }
  }

  lemma {:induction false} LowerListOwnLabels(sts: seq<Stmt>, J: seq<Frame>, E: set<Name>, id: nat)
    requires LowerList(sts, J, id).Ok? && ScopedList(sts, E)
    ensures OwnLabels(LowerList(sts, J, id).code, E, id, LowerList(sts, J, id).next)
    decreases |sts|
  {
    if sts != [] {
      LowerOwnLabels(sts[0], J, E, id);
      LowerListOwnLabels(sts[1..], J, E, Lower(sts[0], J, id).next);
    }
  }

  // ---- Agreement ----------------------------------------------------------------------

  /** The C++ list ended the way the Go statement did: break and continue as the jump
      stack says, never by a jump to a label of its own. */
  ghost predicate Agree<S>(J: seq<Frame>, o: Out<S>, c: COut<S>) {
    match o
    case Norm(s) => c.CNorm? && c.t.s == s
    case Brk(l, s) => LowerBreak(l, J).Some? && EndsBy(LowerBreak(l, J).value, s, c)
    case Cont(l, s) => LowerContinue(l, J).Some? && EndsBy(LowerContinue(l, J).value, s, c)
    case Misplaced => false
    case OutOfFuel => c.CFuel?
  }

  ghost predicate EndsBy<S>(j: Cpp, s: S, c: COut<S>) {
    match j
    case CGoto(l) => c.CJump? && c.l == l && c.t.s == s
    case CBreak => c.CBrk? && c.t.s == s
    case CContinue => c.CCont? && c.t.s == s
    case _ => false
  }

  /** A statement that did not end normally skips the code after it. */
  lemma SkipsRest<S>(I: Interp<S>, J: seq<Frame>, E: set<Name>, id: nat, o: Out<S>, c: COut<S>, rest: seq<Cpp>, k: nat, fuel: nat)
    requires StackOk(J, E, id) && Agree(J, o, c) && !o.Norm? && OwnLabels(rest, E, id, k)
    ensures Then(I, c, rest, fuel) == c
  {
    if o.Brk? { JumpsGoOut(o.lab, J, E, id); }
    if o.Cont? { JumpsGoOut(o.lab, J, E, id); }
    if c.CJump? { SeekMisses(I, rest, c.l, c.t, fuel); }
  }

  // ---- Statement by statement ------------------------------------------------------------

  lemma {:induction false} ListPreserved<S>(I: Interp<S>, sts: seq<Stmt>, J: seq<Frame>, E: set<Name>, id: nat, t: CState<S>, fuel: nat)
    requires StackOk(J, E, id) && ScopedList(sts, E) && LowerList(sts, J, id).Ok?
    ensures Agree(J, ExecList(I, sts, t.s, fuel), ExecCpps(I, LowerList(sts, J, id).code, t, fuel))
    decreases fuel, sts, 2
  {
    if sts != [] {
      var first := Lower(sts[0], J, id);
      var rest := LowerList(sts[1..], J, first.next);
      StmtPreserved(I, sts[0], J, E, id, t, fuel);
      ExecAppend(I, first.code, rest.code, t, fuel);
      var o := Exec(I, sts[0], t.s, fuel);
      var c := ExecCpps(I, first.code, t, fuel);
      if o.Norm? {
        ListPreserved(I, sts[1..], J, E, first.next, c.t, fuel);
      } else {
        LowerListOwnLabels(sts[1..], J, E, first.next);
        assert OwnLabels(rest.code, E, id, rest.next);
        SkipsRest(I, J, E, id, o, c, rest.code, rest.next, fuel);
      }
    }
  }

  /** A statement and its code agree under any jump stack that the emitter can have. */
  lemma {:induction false} StmtPreserved<S>(I: Interp<S>, st: Stmt, J: seq<Frame>, E: set<Name>, id: nat, t: CState<S>, fuel: nat)
    requires StackOk(J, E, id) && Scoped(st, E) && Lower(st, J, id).Ok?
    ensures Agree(J, Exec(I, st, t.s, fuel), ExecCpps(I, Lower(st, J, id).code, t, fuel))
    decreases fuel, st, 3
  {
    match st
    case Act(a) => ExecOne(I, CAct(a), t, fuel);
    case Block(body) =>
      ListPreserved(I, body, J, E, id, t, fuel);
      ExecOne(I, CBlock(LowerList(body, J, id).code), t, fuel);
    case If(c, thn, els) =>
      var a := LowerList(thn, J, id);
      var b := LowerList(els, J, a.next);
      var t1 := t.(s := (I.test)(c, t.s).1);
      ListPreserved(I, thn, J, E, id, t1, fuel);
      ListPreserved(I, els, J, E, a.next, t1, fuel);
      ExecOne(I, CIf(c, a.code, b.code), t, fuel);
    case For(_, _, _, _, _) => ForPreserved(I, st, J, E, id, t, fuel);
    case Switch(_, _, _, _) => SwitchPreserved(I, st, J, E, id, t, fuel);
    case Break(l) => ExecOne(I, LowerBreak(l, J).value, t, fuel);
    case Continue(l) => ExecOne(I, LowerContinue(l, J).value, t, fuel);
    case Fallthrough =>
  }

  // ---- Loops ---------------------------------------------------------------------------

  /** The C++ loop statement inside LoopCode. */
  function TheLoop(st: Stmt, body: seq<Cpp>): Cpp
    requires st.For?
  {
    if st.lab.Some? then LoopCode(st, body)[1] else LoopCode(st, body)[0]
  }

  /** How the C++ loop ends when the Go loop ends with o. */
  ghost predicate LoopAgree<S>(st: Stmt, J: seq<Frame>, o: Out<S>, c: COut<S>)
    requires st.For?
  {
    || Agree(J, o, c)
    || (o.Norm? && st.lab.Some? && c.CJump? && c.l == BrkOf(st.lab.value) && c.t.s == o.s)
  }

  /** What one more frame on the stack changes for break and continue. */
  lemma PushedLoop(J: seq<Frame>, lab: Option<Name>, l: Option<Name>)
    ensures LowerBreak(l, J + [Loop(lab)]) ==
            if l == None || l == lab then (if lab.Some? then Some(CGoto(BrkOf(lab.value))) else Some(CBreak)) else LowerBreak(l, J)
    ensures LowerContinue(l, J + [Loop(lab)]) ==
            if l == None || l == lab then (if lab.Some? then Some(CGoto(CntOf(lab.value))) else Some(CContinue)) else LowerContinue(l, J)
  {
    assert (J + [Loop(lab)])[..|J|] == J;
  }

  lemma PushedSwitch(J: seq<Frame>, lab: Option<Name>, id: nat, l: Option<Name>)
    ensures LowerBreak(l, J + [Sw(lab, id)]) == if l == None || l == lab then Some(CGoto(EndOf(id))) else LowerBreak(l, J)
    ensures LowerContinue(l, J + [Sw(lab, id)]) == LowerContinue(l, J)
  {
    assert (J + [Sw(lab, id)])[..|J|] == J;
  }

  lemma {:induction false} ForPreserved<S>(I: Interp<S>, st: Stmt, J: seq<Frame>, E: set<Name>, id: nat, t: CState<S>, fuel: nat)
    requires st.For? && StackOk(J, E, id) && Scoped(st, E) && Lower(st, J, id).Ok?
    ensures Agree(J, Exec(I, st, t.s, fuel), ExecCpps(I, Lower(st, J, id).code, t, fuel))
    decreases fuel, st, 2
  {
    var body := LowerList(st.loop, J + [Loop(st.lab)], id).code;
    var t1 := t.(s := RunOpt(I, st.init, t.s));
    LoopPreserved(I, st, J, E, id, t1, fuel);
    var o := Exec(I, st, t.s, fuel);
    var c := ExecCFor(I, TheLoop(st, body), t1, fuel);
    ExecOne(I, TheLoop(st, body), t, fuel);
    if st.lab.Some? {
      var n := st.lab.value;
      ExecAppend(I, [CLabel(User(n))], [TheLoop(st, body)] + [CLabel(BrkOf(n))], t, fuel);
      ExecAppend(I, [TheLoop(st, body)], [CLabel(BrkOf(n))], t, fuel);
      ExecOne(I, CLabel(User(n)), t, fuel);
      assert LoopCode(st, body) == [CLabel(User(n))] + ([TheLoop(st, body)] + [CLabel(BrkOf(n))]);
      if o.Norm? {
        LandsOn(I, BrkOf(n), c.t, fuel);
      } else {
        SkipsRest(I, J, E, id, o, c, [CLabel(BrkOf(n))], id, fuel);
      }
    }
  }

  lemma LandsOn<S>(I: Interp<S>, l: Lbl, t: CState<S>, fuel: nat)
    ensures Seek(I, [CLabel(l)], l, t, fuel) == CNorm(t) && ExecCpps(I, [CLabel(l)], t, fuel) == CNorm(t)
  {
    assert [CLabel(l)][1..] == [];
  }

  /** The end of a labelled body: the continue label, then the post statement. */
  lemma TailRuns<S>(I: Interp<S>, n: Name, post: Option<nat>, t: CState<S>, fuel: nat)
    ensures var tail := [CLabel(CntOf(n))] + ActOf(post); var t' := t.(s := RunOpt(I, post, t.s));
      ExecCpps(I, tail, t, fuel) == CNorm(t') && Seek(I, tail, CntOf(n), t, fuel) == CNorm(t')
  {
    var tail := [CLabel(CntOf(n))] + ActOf(post);
    assert tail[1..] == ActOf(post);
    if post.Some? { ExecOne(I, CAct(post.value), t, fuel); }
  }

  /** How the body of the C++ loop ends, the moved post statement included. */
  ghost predicate BodyAgree<S>(I: Interp<S>, st: Stmt, J: seq<Frame>, o: Out<S>, c: COut<S>)
    requires st.For?
  {
    var mine := o.Norm? || (o.Cont? && (o.lab == None || o.lab == st.lab));
    if mine then
      if st.lab.Some? then c.CNorm? && c.t.s == RunOpt(I, st.post, o.s)
      else (c.CNorm? || c.CCont?) && c.t.s == o.s
    else if o.Brk? && (o.lab == None || o.lab == st.lab) then
      if st.lab.Some? then c.CJump? && c.l == BrkOf(st.lab.value) && c.t.s == o.s else c.CBrk? && c.t.s == o.s
    else !c.CNorm? && !c.CCont? && !c.CBrk? && Agree(J, o, c)
  }

  lemma {:induction false} BodyPreserved<S>(I: Interp<S>, st: Stmt, J: seq<Frame>, E: set<Name>, id: nat, t: CState<S>, fuel: nat)
    requires st.For? && StackOk(J, E, id) && Scoped(st, E) && Lower(st, J, id).Ok?
    ensures var body := LowerList(st.loop, J + [Loop(st.lab)], id).code;
      BodyAgree(I, st, J, ExecList(I, st.loop, t.s, fuel), ExecCpps(I, TheLoop(st, body).loop, t, fuel))
    decreases fuel, st, 0
  {
    var J' := J + [Loop(st.lab)];
    var E' := E + NameSet(st.lab);
    var body := LowerList(st.loop, J', id).code;
    assert StackOk(J', E', id);
    ListPreserved(I, st.loop, J', E', id, t, fuel);
    var o := ExecList(I, st.loop, t.s, fuel);
    var c := ExecCpps(I, body, t, fuel);
    if o.Brk? { PushedLoop(J, st.lab, o.lab); JumpsGoOut(o.lab, J, E, id); NoPlainExit(o.lab, J); }
    if o.Cont? { PushedLoop(J, st.lab, o.lab); JumpsGoOut(o.lab, J, E, id); NoPlainExit(o.lab, J); }
    if st.lab.Some? {
      var n := st.lab.value;
      var tail := [CLabel(CntOf(n))] + ActOf(st.post);
      ExecAppend(I, body, tail, t, fuel);
      if c.CNorm? { TailRuns(I, n, st.post, c.t, fuel); }
      if c.CJump? {
        if c.l == CntOf(n) { TailRuns(I, n, st.post, c.t, fuel); } else { SeekMisses(I, tail, c.l, c.t, fuel); }
      }
    }
  }

  /** A jump to a label by name is never a plain break or continue. */
  lemma NoPlainExit(l: Option<Name>, J: seq<Frame>)
    ensures l.Some? && LowerBreak(l, J).Some? ==> LowerBreak(l, J).value.CGoto?
    ensures l.Some? && LowerContinue(l, J).Some? ==> LowerContinue(l, J).value.CGoto?
  {
    if l.Some? && InnerLoop(J, l).Some? { InnerLoopIn(J, l); }
  }

  /** The rounds of a loop and of its code agree one by one. */
  lemma {:induction false} LoopPreserved<S>(I: Interp<S>, st: Stmt, J: seq<Frame>, E: set<Name>, id: nat, t: CState<S>, fuel: nat)
    requires st.For? && StackOk(J, E, id) && Scoped(st, E) && Lower(st, J, id).Ok?
    ensures LoopAgree(st, J, ExecFor(I, st, t.s, fuel),
                      ExecCFor(I, TheLoop(st, LowerList(st.loop, J + [Loop(st.lab)], id).code), t, fuel))
    decreases fuel, st, 1
  {
    if fuel > 0 {
      var loop := TheLoop(st, LowerList(st.loop, J + [Loop(st.lab)], id).code);
      var (b, s1) := TestOpt(I, st.cond, t.s);
      if b {
        var t1 := t.(s := s1);
        BodyPreserved(I, st, J, E, id, t1, fuel);
        var c := ExecCpps(I, loop.loop, t1, fuel);
        if c.CNorm? || c.CCont? {
          LoopPreserved(I, st, J, E, id, c.t.(s := RunOpt(I, loop.post, c.t.s)), fuel - 1);
        }
      }
    }
  }

  // ---- Switches ---------------------------------------------------------------------------

  /** Where the chain of tests goes: the first matching case, else the default, else
      the end. */
  function Target(cases: seq<Case>, i: nat, id: nat): Lbl {
    if i < |cases| then CaseOf(id, i) else if Default(cases) < |cases| then CaseOf(id, Default(cases)) else EndOf(id)
  }

  /** The chain of tests jumps where Go's selection of a case goes. */
  lemma {:induction false} TestsJump<S>(I: Interp<S>, cases: seq<Case>, i: nat, tag: Option<nat>, id: nat, t: CState<S>, fuel: nat)
    requires i <= |cases|
    ensures var (d, s') := Dispatch(I, TagValue(t, tag), cases, i, t.s);
      ExecCpps(I, Tests(cases, i, tag, id), t, fuel) == CJump(Target(cases, d, id), t.(s := s'))
    decreases |cases| - i
  {
    if i == |cases| {
      ExecOne(I, CGoto(Target(cases, i, id)), t, fuel);
    } else {
      var (hit, s1) := Matches(I, TagValue(t, tag), cases[i].values, t.s);
      TestsJump(I, cases, i + 1, tag, id, t.(s := s1), fuel);
      if cases[i].values != [] {
        var test := CGotoIf(tag, cases[i].values, CaseOf(id, i));
        ExecAppend(I, [test], Tests(cases, i + 1, tag, id), t, fuel);
        ExecOne(I, test, t, fuel);
        if hit {
          TestsHaveNoLabels(cases, i + 1, tag, id);
          SeekMisses(I, Tests(cases, i + 1, tag, id), CaseOf(id, i), t.(s := s1), fuel);
        }
      }
    }
  }

  /** A goto into the bodies passes over the cases before its own and enters its own. */
  lemma SeekCase<S>(I: Interp<S>, start: Lbl, block: Cpp, tail: seq<Cpp>, l: Lbl, t: CState<S>, fuel: nat)
    requires block.CBlock?
    ensures Seek(I, [CLabel(start), block] + tail, l, t, fuel) ==
            if l == start then Then(I, ExecCpp(I, block, t, fuel), tail, fuel) else Seek(I, tail, l, t, fuel)
  {
    var all := [CLabel(start), block] + tail;
    assert all[1..] == [block] + tail && all[1..][1..] == tail;
  }

  /** Landing on case j of the emitted bodies, from case i's on, runs what Go runs from
      case j on. */
  lemma {:induction false} CasesPreserved<S>(I: Interp<S>, cases: seq<Case>, i: nat, j: nat, lab: Option<Name>, J: seq<Frame>,
                                             E: set<Name>, id: nat, next: nat, t: CState<S>, fuel: nat)
    requires StackOk(J, E, id) && id < next && ScopedCases(cases, E + NameSet(lab)) && i <= j < |cases|
    requires LowerCases(cases, i, J + [Sw(lab, id)], id, next).Ok?
    ensures var code := LowerCases(cases, i, J + [Sw(lab, id)], id, next).code;
      Agree(J, LeaveSwitch(lab, ExecCases(I, cases, j, t.s, fuel)),
            Seek(I, code + [CLabel(EndOf(id))], CaseOf(id, j), t, fuel))
    decreases fuel, cases, |cases| - i, 2
  {
    var J' := J + [Sw(lab, id)];
    var body := LowerList(Proper(cases[i]), J', next);
    var rest := LowerCases(cases, i + 1, J', id, body.next);
    var exit := CGoto(if EndsWithFallthrough(cases[i]) then CaseOf(id, i + 1) else EndOf(id));
    var block := CBlock(body.code + [exit]);
    var tail := rest.code + [CLabel(EndOf(id))];
    assert LowerCases(cases, i, J', id, next).code + [CLabel(EndOf(id))] == [CLabel(CaseOf(id, i)), block] + tail;
    SeekCase(I, CaseOf(id, i), block, tail, CaseOf(id, j), t, fuel);
    if i < j {
      CasesPreserved(I, cases, i + 1, j, lab, J, E, id, body.next, t, fuel);
    } else {
      CasePreserved(I, cases, i, lab, J, E, id, next, t, fuel);
    }
  }

  /** Case i itself and what its exit jump leads to. */
  lemma {:induction false} CasePreserved<S>(I: Interp<S>, cases: seq<Case>, i: nat, lab: Option<Name>, J: seq<Frame>,
                                            E: set<Name>, id: nat, next: nat, t: CState<S>, fuel: nat)
    requires StackOk(J, E, id) && id < next && ScopedCases(cases, E + NameSet(lab)) && i < |cases|
    requires LowerCases(cases, i, J + [Sw(lab, id)], id, next).Ok?
    ensures var body := LowerList(Proper(cases[i]), J + [Sw(lab, id)], next);
      var rest := LowerCases(cases, i + 1, J + [Sw(lab, id)], id, body.next);
      var exit := CGoto(if EndsWithFallthrough(cases[i]) then CaseOf(id, i + 1) else EndOf(id));
      Agree(J, LeaveSwitch(lab, ExecCases(I, cases, i, t.s, fuel)),
            Then(I, ExecCpp(I, CBlock(body.code + [exit]), t, fuel), rest.code + [CLabel(EndOf(id))], fuel))
    decreases fuel, cases, |cases| - i, 1
  {
    var J' := J + [Sw(lab, id)];
    var body := LowerList(Proper(cases[i]), J', next);
    var rest := LowerCases(cases, i + 1, J', id, body.next);
    var ft := EndsWithFallthrough(cases[i]);
    var exit := CGoto(if ft then CaseOf(id, i + 1) else EndOf(id));
    CaseBodyPreserved(I, cases, i, lab, J, E, id, next, t, fuel);
    var c := ExecCpp(I, CBlock(body.code + [exit]), t, fuel);
    if c.CJump? && ft && c.l == CaseOf(id, i + 1) {
      CasesPreserved(I, cases, i + 1, i + 1, lab, J, E, id, body.next, c.t, fuel);
    } else if c.CJump? && c.l == EndOf(id) {
      EndReached(I, cases, i + 1, J', id, body.next, c.t, fuel);
    } else if c.CJump? {
      CasesOwnLabels(cases, i + 1, J', id, body.next);
      SeekMisses(I, rest.code + [CLabel(EndOf(id))], c.l, c.t, fuel);
    }
  }

  /** Landing on the end label from anywhere among the bodies. */
  lemma EndReached<S>(I: Interp<S>, cases: seq<Case>, i: nat, J: seq<Frame>, id: nat, next: nat, t: CState<S>, fuel: nat)
    requires i <= |cases| && LowerCases(cases, i, J, id, next).Ok?
    ensures Seek(I, LowerCases(cases, i, J, id, next).code + [CLabel(EndOf(id))], EndOf(id), t, fuel) == CNorm(t)
  {
    var code := LowerCases(cases, i, J, id, next).code;
    CasesOwnLabels(cases, i, J, id, next);
    SeekAppend(I, code, [CLabel(EndOf(id))], EndOf(id), t, fuel);
    SeekMisses(I, code, EndOf(id), t, fuel);
    LandsOn(I, EndOf(id), t, fuel);
  }

  /** One braced case body: it leaves by its exit jump, by the end label for a break of
      this switch, or the way the body does. */
  lemma {:induction false} CaseBodyPreserved<S>(I: Interp<S>, cases: seq<Case>, i: nat, lab: Option<Name>, J: seq<Frame>,
                                                E: set<Name>, id: nat, next: nat, t: CState<S>, fuel: nat)
    requires StackOk(J, E, id) && id < next && ScopedCases(cases, E + NameSet(lab)) && i < |cases|
    requires LowerList(Proper(cases[i]), J + [Sw(lab, id)], next).Ok?
    ensures var body := LowerList(Proper(cases[i]), J + [Sw(lab, id)], next).code;
      var exit := CGoto(if EndsWithFallthrough(cases[i]) then CaseOf(id, i + 1) else EndOf(id));
      var o := ExecList(I, Proper(cases[i]), t.s, fuel);
      var c := ExecCpps(I, body + [exit], t, fuel);
      if o.Norm? then c.CJump? && c.l == exit.l && c.t.s == o.s
      else if o.Brk? && (o.lab == None || o.lab == lab) then c.CJump? && c.l == EndOf(id) && c.t.s == o.s
      else Agree(J, o, c) && !c.CNorm? && (c.CJump? ==> Outer(c.l, E, id))
    decreases fuel, cases, |cases| - i, 0
  {
    var J' := J + [Sw(lab, id)];
    var E' := E + NameSet(lab);
    var exit := CGoto(if EndsWithFallthrough(cases[i]) then CaseOf(id, i + 1) else EndOf(id));
    var body := LowerList(Proper(cases[i]), J', next).code;
    assert StackOk(J', E', next);
    ScopedCase(cases, i, E');
    ProperIsSmaller(cases, i);
    ListPreserved(I, Proper(cases[i]), J', E', next, t, fuel);
    var o := ExecList(I, Proper(cases[i]), t.s, fuel);
    var c := ExecCpps(I, body, t, fuel);
    ExecAppend(I, body, [exit], t, fuel);
    if c.CNorm? { ExecOne(I, exit, c.t, fuel); }
    if c.CJump? { SeekMisses(I, [exit], c.l, c.t, fuel); }
    if o.Brk? { PushedSwitch(J, lab, id, o.lab); JumpsGoOut(o.lab, J, E, id); NoPlainExit(o.lab, J); }
    if o.Cont? { PushedSwitch(J, lab, id, o.lab); JumpsGoOut(o.lab, J, E, id); }
  }

  lemma ProperIsSmaller(cases: seq<Case>, i: nat)
    requires i < |cases|
    ensures cases decreases to Proper(cases[i])
  {
  }

  /** The switch's code without its label and its init. */
  function Flat(st: Stmt, bodies: seq<Cpp>, id: nat): seq<Cpp>
    requires st.Switch?
  {
    (if st.tag.Some? then [CSet(id, st.tag.value)] else [])
    + (Tests(st.cases, 0, if st.tag.Some? then Some(id) else None, id) + (bodies + [CLabel(EndOf(id))]))
  }

  lemma {:induction false} FlatPreserved<S>(I: Interp<S>, st: Stmt, J: seq<Frame>, E: set<Name>, id: nat, t: CState<S>, fuel: nat)
    requires st.Switch? && StackOk(J, E, id) && Scoped(st, E)
    requires LowerCases(st.cases, 0, J + [Sw(st.swLabel, id)], id, id + 1).Ok?
    ensures var bodies := LowerCases(st.cases, 0, J + [Sw(st.swLabel, id)], id, id + 1).code;
      Agree(J, Exec(I, st.(swInit := None), t.s, fuel), ExecCpps(I, Flat(st, bodies, id), t, fuel))
    decreases fuel, st, 1
  {
    var J' := J + [Sw(st.swLabel, id)];
    var bodies := LowerCases(st.cases, 0, J', id, id + 1).code;
    var tag := if st.tag.Some? then Some(id) else None;
    var tests := Tests(st.cases, 0, tag, id);
    var rest := bodies + [CLabel(EndOf(id))];
    var t1 := t;
    if st.tag.Some? {
      var (v, s1) := (I.eval)(st.tag.value, t.s);
      t1 := CState(s1, t.tags[id := v]);
      ExecAppend(I, [CSet(id, st.tag.value)], tests + rest, t, fuel);
      ExecOne(I, CSet(id, st.tag.value), t, fuel);
    } else {
      assert Flat(st, bodies, id) == tests + rest;
    }
    ExecAppend(I, tests, rest, t1, fuel);
    TestsJump(I, st.cases, 0, tag, id, t1, fuel);
    var (d, s2) := Dispatch(I, TagValue(t1, tag), st.cases, 0, t1.s);
    var j := if d < |st.cases| then d else Default(st.cases);
    var t2 := t1.(s := s2);
    if j < |st.cases| {
      CasesPreserved(I, st.cases, 0, j, st.swLabel, J, E, id, id + 1, t2, fuel);
    } else {
      EndReached(I, st.cases, 0, J', id, id + 1, t2, fuel);
    }
  }

  /** A whole switch and its code agree. */
  lemma {:induction false} SwitchPreserved<S>(I: Interp<S>, st: Stmt, J: seq<Frame>, E: set<Name>, id: nat, t: CState<S>, fuel: nat)
    requires st.Switch? && StackOk(J, E, id) && Scoped(st, E) && Lower(st, J, id).Ok?
    ensures Agree(J, Exec(I, st, t.s, fuel), ExecCpps(I, Lower(st, J, id).code, t, fuel))
    decreases fuel, st, 2
  {
    var bodies := LowerCases(st.cases, 0, J + [Sw(st.swLabel, id)], id, id + 1).code;
    var flat := Flat(st, bodies, id);
    var t1 := t.(s := RunOpt(I, st.swInit, t.s));
    FlatPreserved(I, st, J, E, id, t1, fuel);
    WrapRuns(I, st.swInit, flat, t, fuel);
    LabelRuns(I, st.swLabel, if st.swInit.Some? then [CBlock([CAct(st.swInit.value)] + flat)] else flat, t, fuel);
  }

  lemma WrapRuns<S>(I: Interp<S>, init: Option<nat>, flat: seq<Cpp>, t: CState<S>, fuel: nat)
    ensures ExecCpps(I, if init.Some? then [CBlock([CAct(init.value)] + flat)] else flat, t, fuel) ==
            ExecCpps(I, flat, t.(s := RunOpt(I, init, t.s)), fuel)
  {
    if init.Some? {
      ExecAppend(I, [CAct(init.value)], flat, t, fuel);
      ExecOne(I, CAct(init.value), t, fuel);
      ExecOne(I, CBlock([CAct(init.value)] + flat), t, fuel);
    }
  }

  lemma LabelRuns<S>(I: Interp<S>, lab: Option<Name>, code: seq<Cpp>, t: CState<S>, fuel: nat)
    ensures ExecCpps(I, LabelOf(lab) + code, t, fuel) == ExecCpps(I, code, t, fuel)
  {
    if lab.Some? {
      ExecAppend(I, LabelOf(lab), code, t, fuel);
      ExecOne(I, CLabel(User(lab.value)), t, fuel);
    } else {
      assert LabelOf(lab) + code == code;
    }
  }
}
