/** Whole function bodies: which ones the emitter accepts, that the labels it emits are
    unique, and that the emitted body does what the Go body does. */
module LoweringTop {
  import opened Wrappers
  import opened ControlFlow
  import opened Lowering
  import opened LoweringProof

  // ---- Labels ------------------------------------------------------------------------

  function Is(n: Option<Name>, name: Name): nat { if n == Some(name) then 1 else 0 }

  /** How often a Go statement declares a label, at any depth. */
  function Declares(st: Stmt, n: Name): nat
    decreases st, 2
  {
    match st
    case Block(body) => ListDeclares(body, n)
    case If(_, thn, els) => ListDeclares(thn, n) + ListDeclares(els, n)
    case For(lab, _, _, _, body) => Is(lab, n) + ListDeclares(body, n)
    case Switch(lab, _, _, cases) => Is(lab, n) + CasesDeclare(cases, 0, n)
    case _ => 0
  }

  function ListDeclares(sts: seq<Stmt>, n: Name): nat
    decreases sts, 1
  {
    if sts == [] then 0 else Declares(sts[0], n) + ListDeclares(sts[1..], n)
  }

  function CasesDeclare(cases: seq<Case>, i: nat, n: Name): nat
    requires i <= |cases|
    decreases cases, |cases| - i
  {
    if i == |cases| then 0 else ListDeclares(cases[i].body, n) + CasesDeclare(cases, i + 1, n)
  }

  /** How often emitted code defines a label, at any depth. */
  function Defines(c: Cpp, l: Lbl): nat
    decreases c, 1
  {
    match c
    case CLabel(k) => if k == l then 1 else 0
    case CBlock(body) => ListDefines(body, l)
    case CIf(_, thn, els) => ListDefines(thn, l) + ListDefines(els, l)
    case CFor(_, _, _, body) => ListDefines(body, l)
    case _ => 0
  }

  function ListDefines(cs: seq<Cpp>, l: Lbl): nat
    decreases cs, 0
  {
    if cs == [] then 0 else Defines(cs[0], l) + ListDefines(cs[1..], l)
  }

  lemma {:induction false} DefinesAppend(a: seq<Cpp>, b: seq<Cpp>, l: Lbl)
    ensures ListDefines(a + b, l) == ListDefines(a, l) + ListDefines(b, l)
    decreases |a|
  {
    if a == [] {
      assert a + b == b;
    } else {
      assert (a + b)[1..] == a[1..] + b;
      DefinesAppend(a[1..], b, l);
    }
  }

  lemma DefinesOne(c: Cpp, l: Lbl)
    ensures ListDefines([c], l) == Defines(c, l)
  {
    assert [c][1..] == [];
  }

  /** A bound on how often code numbered from id to k may define l, when its statements
      declare l's name n times. */
  function Bound(l: Lbl, n: nat, id: nat, k: nat): nat {
    match l
    case EndOf(m) => if id <= m < k then 1 else 0
    case CaseOf(m, _) => if id <= m < k then 1 else 0
    case _ => n
  }

  /** The Go label an emitted label was made from. */
  function Origin(l: Lbl): Name {
    match l
    case User(n) => n
    case BrkOf(n) => n
    case CntOf(n) => n
    case _ => ""
  }

  lemma {:induction false} ListLabels(sts: seq<Stmt>, J: seq<Frame>, id: nat, l: Lbl)
    requires LowerList(sts, J, id).Ok?
    ensures var r := LowerList(sts, J, id); ListDefines(r.code, l) <= Bound(l, ListDeclares(sts, Origin(l)), id, r.next)
    decreases sts, 2
  {
    if sts != [] {
      var first := Lower(sts[0], J, id);
      StmtLabels(sts[0], J, id, l);
      ListLabels(sts[1..], J, first.next, l);
      DefinesAppend(first.code, LowerList(sts[1..], J, first.next).code, l);
    }
  }

  lemma {:induction false} StmtLabels(st: Stmt, J: seq<Frame>, id: nat, l: Lbl)
    requires Lower(st, J, id).Ok?
    ensures var r := Lower(st, J, id); ListDefines(r.code, l) <= Bound(l, Declares(st, Origin(l)), id, r.next)
    decreases st, 3
  {
    match st
    case Act(a) => DefinesOne(CAct(a), l);
    case Block(body) =>
      ListLabels(body, J, id, l);
      DefinesOne(CBlock(LowerList(body, J, id).code), l);
    case If(_, _, _) => IfLabels(st, J, id, l);
    case For(_, _, _, _, _) => ForLabels(st, J, id, l);
    case Switch(_, _, _, _) => SwitchStmtLabels(st, J, id, l);
    case Break(b) => DefinesOne(LowerBreak(b, J).value, l);
    case Continue(b) => DefinesOne(LowerContinue(b, J).value, l);
    case Fallthrough =>
  }

  lemma {:induction false} IfLabels(st: Stmt, J: seq<Frame>, id: nat, l: Lbl)
    requires st.If? && Lower(st, J, id).Ok?
    ensures var r := Lower(st, J, id); ListDefines(r.code, l) <= Bound(l, Declares(st, Origin(l)), id, r.next)
    decreases st, 2
  {
    var thn := LowerList(st.thn, J, id);
    ListLabels(st.thn, J, id, l);
    ListLabels(st.els, J, thn.next, l);
    DefinesOne(CIf(st.c, thn.code, LowerList(st.els, J, thn.next).code), l);
  }

  lemma {:induction false} ForLabels(st: Stmt, J: seq<Frame>, id: nat, l: Lbl)
    requires st.For? && Lower(st, J, id).Ok?
    ensures var r := Lower(st, J, id); ListDefines(r.code, l) <= Bound(l, Declares(st, Origin(l)), id, r.next)
    decreases st, 2
  {
    var body := LowerList(st.loop, J + [Loop(st.lab)], id);
    ListLabels(st.loop, J + [Loop(st.lab)], id, l);
    LoopLabels(st, body.code, l);
  }

  lemma {:induction false} SwitchStmtLabels(st: Stmt, J: seq<Frame>, id: nat, l: Lbl)
    requires st.Switch? && Lower(st, J, id).Ok?
    ensures var r := Lower(st, J, id); ListDefines(r.code, l) <= Bound(l, Declares(st, Origin(l)), id, r.next)
    decreases st, 2
  {
    var bodies := LowerCases(st.cases, 0, J + [Sw(st.swLabel, id)], id, id + 1);
    CasesLabels(st.cases, 0, J + [Sw(st.swLabel, id)], id, id + 1, l);
    SwitchLabels(st, bodies.code, id, l);
  }

  lemma LoopLabels(st: Stmt, body: seq<Cpp>, l: Lbl)
    requires st.For?
    ensures ListDefines(LoopCode(st, body), l) ==
            ListDefines(body, l) + if st.lab.Some? && l in {User(st.lab.value), BrkOf(st.lab.value), CntOf(st.lab.value)} then 1 else 0
  {
    var loop := TheLoop(st, body);
    DefinesOne(loop, l);
    if st.lab.Some? {
      var n := st.lab.value;
      assert LoopCode(st, body) == [CLabel(User(n))] + ([loop] + [CLabel(BrkOf(n))]);
      DefinesAppend([CLabel(User(n))], [loop] + [CLabel(BrkOf(n))], l);
      DefinesAppend([loop], [CLabel(BrkOf(n))], l);
      DefinesOne(CLabel(User(n)), l);
      DefinesOne(CLabel(BrkOf(n)), l);
      DefinesAppend(body, [CLabel(CntOf(n))] + ActOf(st.post), l);
      DefinesAppend([CLabel(CntOf(n))], ActOf(st.post), l);
      DefinesOne(CLabel(CntOf(n)), l);
      if st.post.Some? { DefinesOne(CAct(st.post.value), l); }
    }
  }

  lemma {:induction false} TestsDefineNothing(cases: seq<Case>, i: nat, tag: Option<nat>, id: nat, l: Lbl)
    requires i <= |cases|
    ensures ListDefines(Tests(cases, i, tag, id), l) == 0
    decreases |cases| - i
  {
    if i == |cases| {
      DefinesOne(Tests(cases, i, tag, id)[0], l);
    } else {
      TestsDefineNothing(cases, i + 1, tag, id, l);
      if cases[i].values != [] {
        var test := CGotoIf(tag, cases[i].values, CaseOf(id, i));
        DefinesAppend([test], Tests(cases, i + 1, tag, id), l);
        DefinesOne(test, l);
      }
    }
  }

  lemma FlatLabels(st: Stmt, bodies: seq<Cpp>, id: nat, l: Lbl)
    requires st.Switch?
    ensures ListDefines(Flat(st, bodies, id), l) == ListDefines(bodies, l) + if l == EndOf(id) then 1 else 0
  {
    var decl := if st.tag.Some? then [CSet(id, st.tag.value)] else [];
    var tests := Tests(st.cases, 0, if st.tag.Some? then Some(id) else None, id);
    TestsDefineNothing(st.cases, 0, if st.tag.Some? then Some(id) else None, id, l);
    DefinesAppend(decl, tests + (bodies + [CLabel(EndOf(id))]), l);
    if st.tag.Some? { DefinesOne(decl[0], l); }
    DefinesAppend(tests, bodies + [CLabel(EndOf(id))], l);
    DefinesAppend(bodies, [CLabel(EndOf(id))], l);
    DefinesOne(CLabel(EndOf(id)), l);
  }

  lemma SwitchLabels(st: Stmt, bodies: seq<Cpp>, id: nat, l: Lbl)
    requires st.Switch?
    ensures ListDefines(SwitchCode(st, bodies, id), l) ==
            ListDefines(bodies, l) + if l == EndOf(id) || (st.swLabel.Some? && l == User(st.swLabel.value)) then 1 else 0
  {
    var flat := Flat(st, bodies, id);
    FlatLabels(st, bodies, id, l);
    var core := if st.swInit.Some? then [CBlock([CAct(st.swInit.value)] + flat)] else flat;
    if st.swInit.Some? {
      DefinesOne(core[0], l);
      DefinesAppend([CAct(st.swInit.value)], flat, l);
      DefinesOne(CAct(st.swInit.value), l);
    }
    DefinesAppend(LabelOf(st.swLabel), core, l);
    if st.swLabel.Some? { DefinesOne(CLabel(User(st.swLabel.value)), l); }
  }

  lemma {:induction false} ProperDeclares(sts: seq<Stmt>, n: Name)
    requires sts != [] && sts[|sts|-1] == Fallthrough
    ensures ListDeclares(sts[..|sts|-1], n) == ListDeclares(sts, n)
    decreases |sts|
  {
    if |sts| > 1 {
      ProperDeclares(sts[1..], n);
      assert sts[1..][..|sts|-2] == sts[..|sts|-1][1..];
    }
  }

  /** The bound for the bodies of switch id from case i on. */
  function CasesBound(l: Lbl, n: nat, id: nat, i: nat, next: nat, k: nat): nat {
    if l.CaseOf? && l.id == id then (if i <= l.i then 1 else 0) else Bound(l, n, next, k)
  }

  lemma CasesBoundStep(l: Lbl, a: nat, b: nat, id: nat, i: nat, next: nat, m: nat, k: nat)
    requires id < next <= m <= k
    ensures (if l == CaseOf(id, i) then 1 else 0) + Bound(l, a, next, m) + CasesBound(l, b, id, i + 1, m, k)
            <= CasesBound(l, a + b, id, i, next, k)
  {
  }

  lemma {:induction false} CasesLabels(cases: seq<Case>, i: nat, J: seq<Frame>, id: nat, next: nat, l: Lbl)
    requires i <= |cases| && LowerCases(cases, i, J, id, next).Ok? && id < next
    ensures ListDefines(LowerCases(cases, i, J, id, next).code, l) <=
            CasesBound(l, CasesDeclare(cases, i, Origin(l)), id, i, next, LowerCases(cases, i, J, id, next).next)
    decreases cases, |cases| - i
  {
    if i < |cases| {
      var c := cases[i];
      var n := Origin(l);
      var body := LowerList(Proper(c), J, next);
      var rest := LowerCases(cases, i + 1, J, id, body.next);
      var exit := CGoto(if EndsWithFallthrough(c) then CaseOf(id, i + 1) else EndOf(id));
      ProperIsSmaller(cases, i);
      ListLabels(Proper(c), J, next, l);
      CasesLabels(cases, i + 1, J, id, body.next, l);
      assert ListDeclares(Proper(c), n) == ListDeclares(c.body, n) by {
        if EndsWithFallthrough(c) { ProperDeclares(c.body, n); }
      }
      CaseLabels(CaseOf(id, i), body.code, exit, rest.code, l);
      CasesBoundStep(l, ListDeclares(c.body, n), CasesDeclare(cases, i + 1, n), id, i, next, body.next, rest.next);
    }
  }

  lemma CaseLabels(start: Lbl, body: seq<Cpp>, exit: Cpp, rest: seq<Cpp>, l: Lbl)
    requires exit.CGoto?
    ensures ListDefines([CLabel(start), CBlock(body + [exit])] + rest, l) ==
            (if l == start then 1 else 0) + ListDefines(body, l) + ListDefines(rest, l)
  {
    var block := CBlock(body + [exit]);
    assert [CLabel(start), block] + rest == [CLabel(start)] + ([block] + rest);
    DefinesAppend([CLabel(start)], [block] + rest, l);
    DefinesAppend([block], rest, l);
    DefinesOne(CLabel(start), l);
    DefinesOne(block, l);
    DefinesAppend(body, [exit], l);
    DefinesOne(exit, l);
  }

  /** Go's rule for labels: none is declared twice in a function. */
  ghost predicate DistinctNames(body: seq<Stmt>) {
    forall n :: ListDeclares(body, n) <= 1
  }

  /** No label is defined twice in an emitted function, so every goto has one target. */
  lemma LabelsAreDistinct(body: seq<Stmt>, id: nat, l: Lbl)
    requires DistinctNames(body) && LowerList(body, [], id).Ok?
    ensures ListDefines(LowerList(body, [], id).code, l) <= 1
  {
    ListLabels(body, [], id, l);
  }

  function Left(n: Name, E: set<Name>): nat { if n in E then 0 else 1 }

  lemma {:induction false} DistinctListScoped(sts: seq<Stmt>, E: set<Name>)
    requires forall n :: ListDeclares(sts, n) <= Left(n, E)
    ensures ScopedList(sts, E)
    decreases sts, 1
  {
    if sts != [] {
      forall n ensures Declares(sts[0], n) <= Left(n, E) && ListDeclares(sts[1..], n) <= Left(n, E) {
        assert ListDeclares(sts, n) <= Left(n, E);
      }
      DistinctScoped(sts[0], E);
      DistinctListScoped(sts[1..], E);
    }
  }

  lemma {:induction false} DistinctScoped(st: Stmt, E: set<Name>)
    requires forall n :: Declares(st, n) <= Left(n, E)
    ensures Scoped(st, E)
    decreases st, 2
  {
    match st
    case Block(body) =>
      forall n ensures ListDeclares(body, n) <= Left(n, E) { assert Declares(st, n) <= Left(n, E); }
      DistinctListScoped(body, E);
    case If(_, thn, els) =>
      forall n ensures ListDeclares(thn, n) <= Left(n, E) && ListDeclares(els, n) <= Left(n, E) {
        assert Declares(st, n) <= Left(n, E);
      }
      DistinctListScoped(thn, E);
      DistinctListScoped(els, E);
    case For(lab, _, _, _, body) =>
      forall n ensures ListDeclares(body, n) <= Left(n, E + NameSet(lab)) { assert Declares(st, n) <= Left(n, E); }
      if lab.Some? { assert Declares(st, lab.value) <= Left(lab.value, E); }
      DistinctListScoped(body, E + NameSet(lab));
    case Switch(lab, _, _, cases) =>
      forall n ensures CasesDeclare(cases, 0, n) <= Left(n, E + NameSet(lab)) { assert Declares(st, n) <= Left(n, E); }
      if lab.Some? { assert Declares(st, lab.value) <= Left(lab.value, E); }
      DistinctCasesScoped(cases, 0, E + NameSet(lab));
      assert cases[0..] == cases;
    case _ =>
  }

  lemma {:induction false} DistinctCasesScoped(cases: seq<Case>, i: nat, E: set<Name>)
    requires i <= |cases| && forall n :: CasesDeclare(cases, i, n) <= Left(n, E)
    ensures ScopedCases(cases[i..], E)
    decreases cases, |cases| - i
  {
    if i < |cases| {
      forall n ensures ListDeclares(cases[i].body, n) <= Left(n, E) && CasesDeclare(cases, i + 1, n) <= Left(n, E) {
        assert CasesDeclare(cases, i, n) <= Left(n, E);
      }
      DistinctListScoped(cases[i].body, E);
      DistinctCasesScoped(cases, i + 1, E);
      assert cases[i..][1..] == cases[i + 1..];
    }
  }

  // ---- Legality ------------------------------------------------------------------------

  /** What surrounds a statement: the labels of the loops and switches around it, the
      labels of the loops alone, whether there is any of either kind. */
  datatype Around = Around(labels: set<Name>, loops: set<Name>, inAny: bool, inLoop: bool)

  /** Go's placement rules. A break needs a surrounding loop or switch, a continue a
      surrounding loop, with that label if it names one; a fallthrough ends a case that
      is not the last. */
  predicate Legal(st: Stmt, a: Around)
    decreases st, 3
  {
    match st
    case Act(_) => true
    case Block(body) => LegalList(body, a)
    case If(_, thn, els) => LegalList(thn, a) && LegalList(els, a)
    case For(lab, _, _, _, body) => LegalList(body, Around(a.labels + NameSet(lab), a.loops + NameSet(lab), true, true))
    case Switch(lab, _, _, cases) => LegalCases(cases, 0, a.(labels := a.labels + NameSet(lab), inAny := true))
    case Break(l) => if l.Some? then l.value in a.labels else a.inAny
    case Continue(l) => if l.Some? then l.value in a.loops else a.inLoop
    case Fallthrough => false
  }

  predicate LegalList(sts: seq<Stmt>, a: Around)
    decreases sts, 2
  {
    sts == [] || (Legal(sts[0], a) && LegalList(sts[1..], a))
  }

  predicate LegalCases(cases: seq<Case>, i: nat, a: Around)
    requires i <= |cases|
    decreases cases, |cases| - i
  {
    || i == |cases|
    || ((EndsWithFallthrough(cases[i]) ==> i + 1 < |cases|) && LegalList(Proper(cases[i]), a) && LegalCases(cases, i + 1, a))
  }

  /** What the jump stack says about the surroundings; an unlabelled break is let
      through anywhere. */
  function Surroundings(J: seq<Frame>): Around {
    Around(set f | f in J && f.name.Some? :: f.name.value,
           set f | f in J && f.Loop? && f.name.Some? :: f.name.value,
           true, exists f :: f in J && f.Loop?)
  }

  lemma {:induction false} NamedIff(J: seq<Frame>, n: Name)
    ensures Named(J, n).Some? <==> exists f :: f in J && f.name == Some(n)
    decreases |J|
  {
    if J != [] {
      NamedIff(J[..|J|-1], n);
      assert J == J[..|J|-1] + [J[|J|-1]];
    }
  }

  lemma {:induction false} InnerLoopIff(J: seq<Frame>, n: Option<Name>)
    ensures InnerLoop(J, n).Some? <==> exists f :: f in J && f.Loop? && (n == None || f.name == n)
    decreases |J|
  {
    if J != [] {
      InnerLoopIff(J[..|J|-1], n);
      assert J == J[..|J|-1] + [J[|J|-1]];
    }
  }

  lemma BreakIff(l: Option<Name>, J: seq<Frame>)
    ensures LowerBreak(l, J).Some? <==> (l.Some? ==> l.value in Surroundings(J).labels)
  {
    if l.Some? {
      NamedIff(J, l.value);
      if Named(J, l.value).Some? { NamedIn(J, l.value); }
    }
  }

  lemma ContinueIff(l: Option<Name>, J: seq<Frame>)
    ensures LowerContinue(l, J).Some? <==> if l.Some? then l.value in Surroundings(J).loops else Surroundings(J).inLoop
  {
    InnerLoopIff(J, l);
  }

  lemma SurroundingsPushed(J: seq<Frame>, f: Frame)
    ensures var a, b := Surroundings(J), Surroundings(J + [f]);
      && b.labels == a.labels + NameSet(f.name)
      && b.loops == a.loops + (if f.Loop? then NameSet(f.name) else {})
      && b.inLoop == (a.inLoop || f.Loop?)
  {
    var a, b := Surroundings(J), Surroundings(J + [f]);
    forall n ensures n in b.labels <==> n in a.labels + NameSet(f.name) {
      if f.name.Some? { assert f in J + [f]; }
    }
    forall n ensures n in b.loops <==> n in a.loops + (if f.Loop? then NameSet(f.name) else {}) {
      if f.name.Some? { assert f in J + [f]; }
    }
    assert f in J + [f];
  }

  lemma {:induction false} ListAccepted(sts: seq<Stmt>, J: seq<Frame>, id: nat)
    ensures LowerList(sts, J, id).Ok? <==> LegalList(sts, Surroundings(J))
    decreases sts, 2
  {
    if sts != [] {
      StmtAccepted(sts[0], J, id);
      if Lower(sts[0], J, id).Ok? { ListAccepted(sts[1..], J, Lower(sts[0], J, id).next); }
    }
  }

  /** The emitter accepts exactly the well placed statements. */
  lemma {:induction false} StmtAccepted(st: Stmt, J: seq<Frame>, id: nat)
    ensures Lower(st, J, id).Ok? <==> Legal(st, Surroundings(J))
    decreases st, 3
  {
    match st
    case Act(_) =>
    case Block(body) => ListAccepted(body, J, id);
    case If(_, thn, els) =>
      ListAccepted(thn, J, id);
      if LowerList(thn, J, id).Ok? { ListAccepted(els, J, LowerList(thn, J, id).next); }
    case For(lab, _, _, _, body) =>
      SurroundingsPushed(J, Loop(lab));
      ListAccepted(body, J + [Loop(lab)], id);
    case Switch(lab, _, _, cases) =>
      SurroundingsPushed(J, Sw(lab, id));
      assert Surroundings(J + [Sw(lab, id)]) == Surroundings(J).(labels := Surroundings(J).labels + NameSet(lab), inAny := true);
      CasesAccepted(cases, 0, J + [Sw(lab, id)], id, id + 1);
    case Break(l) => BreakIff(l, J);
    case Continue(l) => ContinueIff(l, J);
    case Fallthrough =>
  }

  lemma {:induction false} CasesAccepted(cases: seq<Case>, i: nat, J: seq<Frame>, id: nat, next: nat)
    requires i <= |cases|
    ensures LowerCases(cases, i, J, id, next).Ok? <==> LegalCases(cases, i, Surroundings(J))
    decreases cases, |cases| - i
  {
    if i < |cases| {
      ProperIsSmaller(cases, i);
      ListAccepted(Proper(cases[i]), J, next);
      var body := LowerList(Proper(cases[i]), J, next);
      if body.Ok? { CasesAccepted(cases, i + 1, J, id, body.next); }
    }
  }

  // ---- Whole bodies --------------------------------------------------------------------

  const NOWHERE := Around({}, {}, false, false)

  lemma {:induction false} MoreLegal(sts: seq<Stmt>, a: Around)
    requires LegalList(sts, a)
    ensures LegalList(sts, a.(inAny := true))
    decreases sts, 2
  {
    if sts != [] {
      MoreLegalStmt(sts[0], a);
      MoreLegal(sts[1..], a);
    }
  }

  lemma {:induction false} MoreLegalStmt(st: Stmt, a: Around)
    requires Legal(st, a)
    ensures Legal(st, a.(inAny := true))
    decreases st, 3
  {
    match st
    case Block(body) => MoreLegal(body, a);
    case If(_, thn, els) => MoreLegal(thn, a); MoreLegal(els, a);
    case _ =>
  }

  /** A plain break of a legal body never reaches the end of the body. */
  lemma {:induction false} LegalOutcome<S>(I: Interp<S>, sts: seq<Stmt>, a: Around, s: S, fuel: nat)
    requires LegalList(sts, a)
    ensures ExecList(I, sts, s, fuel).Brk? && ExecList(I, sts, s, fuel).lab == None ==> a.inAny
    decreases fuel, sts, 2
  {
    if sts != [] {
      LegalStmtOutcome(I, sts[0], a, s, fuel);
      var o := Exec(I, sts[0], s, fuel);
      if o.Norm? { LegalOutcome(I, sts[1..], a, o.s, fuel); }
    }
  }

  lemma {:induction false} LegalStmtOutcome<S>(I: Interp<S>, st: Stmt, a: Around, s: S, fuel: nat)
    requires Legal(st, a)
    ensures Exec(I, st, s, fuel).Brk? && Exec(I, st, s, fuel).lab == None ==> a.inAny
    decreases fuel, st, 3
  {
    match st
    case Block(body) => LegalOutcome(I, body, a, s, fuel);
    case If(c, thn, els) =>
      LegalOutcome(I, thn, a, (I.test)(c, s).1, fuel);
      LegalOutcome(I, els, a, (I.test)(c, s).1, fuel);
    case For(_, init, _, _, _) => LoopKeepsPlainBreaks(I, st, RunOpt(I, init, s), fuel);
    case Switch(_, _, _, _) =>
    case _ =>
  }

  lemma {:induction false} LoopKeepsPlainBreaks<S>(I: Interp<S>, st: Stmt, s: S, fuel: nat)
    requires st.For?
    ensures ExecFor(I, st, s, fuel).Brk? ==> ExecFor(I, st, s, fuel).lab != None
    decreases fuel
  {
    if fuel > 0 {
      var (b, s1) := TestOpt(I, st.cond, s);
      if b {
        var o := ExecList(I, st.loop, s1, fuel);
        if o.Norm? || (o.Cont? && (o.lab == None || o.lab == st.lab)) {
          LoopKeepsPlainBreaks(I, st, RunOpt(I, st.post, o.s), fuel - 1);
        }
      }
    }
  }

  /** The emitter accepts every legal body, and the emitted code ends exactly when the Go
      body does, in the same state and by no jump left over. */
  lemma BodyMeansTheSame<S>(I: Interp<S>, body: seq<Stmt>, t: CState<S>, fuel: nat)
    requires DistinctNames(body) && LegalList(body, NOWHERE)
    ensures LowerList(body, [], 0).Ok?
    ensures var o := ExecList(I, body, t.s, fuel); var c := ExecCpps(I, LowerList(body, [], 0).code, t, fuel);
      || (o.Norm? && c.CNorm? && c.t.s == o.s)
      || (o.OutOfFuel? && c.CFuel?)
  {
    assert Surroundings([]) == NOWHERE.(inAny := true);
    MoreLegal(body, NOWHERE);
    ListAccepted(body, [], 0);
    DistinctListScoped(body, {});
    ListPreserved(I, body, [], {}, 0, t, fuel);
    LegalOutcome(I, body, NOWHERE, t.s, fuel);
  }
}
