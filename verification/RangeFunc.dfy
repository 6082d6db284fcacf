/** `return`, `break` and `continue` inside range-over-func loops. Go leaves the loop
    directly; the emitted loop body is a lambda that answers whether to go on, and a
    return is a flag and a value that every enclosing loop passes outward. */
module RangeFunc {
  import opened Wrappers

  /** What the names in a program mean. An iterator has local state L: it starts, is
      asked for the next value as long as yield answers true, and stops, with whatever
      cleanup it does, once yield has answered false. */
  datatype Interp<!S, !L> = Interp(
    act: (nat, S) -> S, test: (nat, S) -> (bool, S), eval: (nat, S) -> (int, S), bind: (nat, int, S) -> S,
    start: (nat, S) -> (L, S), next: (nat, L, S) -> Step<S, L>, stop: (nat, L, S) -> S)

  datatype Step<S, L> = Yield(v: int, l: L, s: S) | Finish(s: S)

  // ---- Go --------------------------------------------------------------------------

  /** A bare return of a named result is a return of the expression that reads it: the
      result's name is emitted where a value would be. */
  datatype Stmt =
    | Act(a: nat)
    | If(c: nat, thn: seq<Stmt>, els: seq<Stmt>)
    | While(c: nat, body: seq<Stmt>)
    | Range(it: nat, x: nat, body: seq<Stmt>)
    | Return(e: Option<nat>)
    | Break
    | Continue

  datatype Out<S> = Norm(s: S) | Ret(v: Option<int>, s: S) | Brk(s: S) | Cont(s: S) | OutOfFuel

  function Exec<S, L>(I: Interp<S, L>, st: Stmt, s: S, fuel: nat): Out<S>
    decreases fuel, st, 2
  {
    match st
    case Act(a) => Norm((I.act)(a, s))
    case If(c, thn, els) =>
      var (b, s') := (I.test)(c, s);
      if b then ExecList(I, thn, s', fuel) else ExecList(I, els, s', fuel)
    case While(_, _) => ExecWhile(I, st, s, fuel)
    case Range(it, _, _) => var (l, s') := (I.start)(it, s); ExecRange(I, st, l, s', fuel)
    case Return(None) => Ret(None, s)
    case Return(Some(e)) => var (v, s') := (I.eval)(e, s); Ret(Some(v), s')
    case Break => Brk(s)
    case Continue => Cont(s)
  }

  function ExecList<S, L>(I: Interp<S, L>, sts: seq<Stmt>, s: S, fuel: nat): Out<S>
    decreases fuel, sts, 1
  {
    if sts == [] then Norm(s) else
    match Exec(I, sts[0], s, fuel)
    case Norm(s') => ExecList(I, sts[1..], s', fuel)
    case o => o
  }

  function ExecWhile<S, L>(I: Interp<S, L>, st: Stmt, s: S, fuel: nat): Out<S>
    requires st.While?
    decreases fuel, st, 1
  {
    if fuel == 0 then OutOfFuel else
    var (b, s1) := (I.test)(st.c, s);
    if !b then Norm(s1) else
    match ExecList(I, st.body, s1, fuel)
    case Norm(s2) => ExecWhile(I, st, s2, fuel - 1)
    case Cont(s2) => ExecWhile(I, st, s2, fuel - 1)
    case Brk(s2) => Norm(s2)
    case o => o
  }

  /** A range loop whose iterator is in state l. Leaving it early stops the iterator. */
  function ExecRange<S, L>(I: Interp<S, L>, st: Stmt, l: L, s: S, fuel: nat): Out<S>
    requires st.Range?
    decreases fuel, st, 1
  {
    if fuel == 0 then OutOfFuel else
    match (I.next)(st.it, l, s)
    case Finish(s') => Norm(s')
    case Yield(v, l', s1) =>
      match ExecList(I, st.body, (I.bind)(st.x, v, s1), fuel)
      case Norm(s2) => ExecRange(I, st, l', s2, fuel - 1)
      case Cont(s2) => ExecRange(I, st, l', s2, fuel - 1)
      case Brk(s2) => Norm((I.stop)(st.it, l', s2))
      case Ret(r, s2) => Ret(r, (I.stop)(st.it, l', s2))
      case OutOfFuel => OutOfFuel
  }

  // ---- C++ --------------------------------------------------------------------------

  /** CCall calls an iterator with a lambda; the variables with number id are the escape
      flag and value. CSetVal without an expression stores zero. */
  datatype Cpp =
    | CAct(a: nat)
    | CIf(c: nat, thn: seq<Cpp>, els: seq<Cpp>)
    | CWhile(c: nat, body: seq<Cpp>)
    | CCall(it: nat, x: nat, lambda: seq<Cpp>)
    | CDeclare(id: nat)
    | CSetVal(id: nat, e: Option<nat>)
    | CSetFlag(id: nat)
    | CIfFlag(id: nat, thn: seq<Cpp>)
    | CReturnBool(b: bool)
    | CReturn(e: Option<nat>)
    | CReturnZero
    | CReturnVal(id: nat)
    | CBreak
    | CContinue

  datatype Escape = Escape(flag: bool, val: int)

  datatype CState<S> = CState(s: S, vars: map<nat, Escape>)

  /** Stuck is what C++ would not compile: an undeclared variable, or a lambda that
      leaves by anything but a bool. */
  datatype COut<S> =
    CNorm(t: CState<S>) | CRetBool(b: bool, t: CState<S>) | CRet(v: Option<int>, t: CState<S>) | CBrk(t: CState<S>)
    | CCont(t: CState<S>) | CFuel | Stuck

  function ExecCpp<S, L>(I: Interp<S, L>, c: Cpp, t: CState<S>, fuel: nat): COut<S>
    decreases fuel, c, 2
  {
    match c
    case CAct(a) => CNorm(t.(s := (I.act)(a, t.s)))
    case CIf(c, thn, els) =>
      var (b, s') := (I.test)(c, t.s);
      if b then ExecCpps(I, thn, t.(s := s'), fuel) else ExecCpps(I, els, t.(s := s'), fuel)
    case CWhile(_, _) => ExecCWhile(I, c, t, fuel)
    case CCall(it, _, _) => var (l, s') := (I.start)(it, t.s); ExecCall(I, c, l, t.(s := s'), fuel)
    case CDeclare(id) => CNorm(t.(vars := t.vars[id := Escape(false, 0)]))
    case CSetVal(id, e) =>
      if id !in t.vars then Stuck else
      var (v, s') := if e.Some? then (I.eval)(e.value, t.s) else (0, t.s);
      CNorm(CState(s', t.vars[id := t.vars[id].(val := v)]))
    case CSetFlag(id) => if id in t.vars then CNorm(t.(vars := t.vars[id := t.vars[id].(flag := true)])) else Stuck
    case CIfFlag(id, thn) =>
      if id !in t.vars then Stuck else if t.vars[id].flag then ExecCpps(I, thn, t, fuel) else CNorm(t)
    case CReturnBool(b) => CRetBool(b, t)
    case CReturn(None) => CRet(None, t)
    case CReturn(Some(e)) => var (v, s') := (I.eval)(e, t.s); CRet(Some(v), t.(s := s'))
    case CReturnZero => CRet(Some(0), t)
    case CReturnVal(id) => if id in t.vars then CRet(Some(t.vars[id].val), t) else Stuck
    case CBreak => CBrk(t)
    case CContinue => CCont(t)
  }

  function ExecCpps<S, L>(I: Interp<S, L>, cs: seq<Cpp>, t: CState<S>, fuel: nat): COut<S>
    decreases fuel, cs, 1
  {
    if cs == [] then CNorm(t) else
    match ExecCpp(I, cs[0], t, fuel)
    case CNorm(t') => ExecCpps(I, cs[1..], t', fuel)
    case o => o
  }

  function ExecCWhile<S, L>(I: Interp<S, L>, c: Cpp, t: CState<S>, fuel: nat): COut<S>
    requires c.CWhile?
    decreases fuel, c, 1
  {
    if fuel == 0 then CFuel else
    var (b, s1) := (I.test)(c.c, t.s);
    var t1 := t.(s := s1);
    if !b then CNorm(t1) else
    match ExecCpps(I, c.body, t1, fuel)
    case CNorm(t2) => ExecCWhile(I, c, t2, fuel - 1)
    case CCont(t2) => ExecCWhile(I, c, t2, fuel - 1)
    case CBrk(t2) => CNorm(t2)
    case o => o
  }

  /** An iterator in state l calling the lambda. */
  function ExecCall<S, L>(I: Interp<S, L>, c: Cpp, l: L, t: CState<S>, fuel: nat): COut<S>
    requires c.CCall?
    decreases fuel, c, 1
  {
    if fuel == 0 then CFuel else
    match (I.next)(c.it, l, t.s)
    case Finish(s') => CNorm(t.(s := s'))
    case Yield(v, l', s1) =>
      match ExecCpps(I, c.lambda, t.(s := (I.bind)(c.x, v, s1)), fuel)
      case CRetBool(true, t2) => ExecCall(I, c, l', t2, fuel - 1)
      case CRetBool(false, t2) => CNorm(t2.(s := (I.stop)(c.it, l', t2.s)))
      case CFuel => CFuel
      case _ => Stuck
  }

  // ---- The emitter -------------------------------------------------------------------

  /** What the function being emitted returns. main returns an int in C++. */
  datatype Kind = Void | Valued | MainFn

  datatype Frame = Ordinary | RangeOver(id: nat)

  datatype Lowered = Ok(code: seq<Cpp>, next: nat) | Rejected

  /** The escape variables of the innermost range-over-func loop. */
  function Escapes(J: seq<Frame>): Option<nat> {
    if J == [] then None
    else if J[|J|-1].RangeOver? then Some(J[|J|-1].id) else Escapes(J[..|J|-1])
  }

  predicate InLambda(J: seq<Frame>) { J != [] && J[|J|-1].RangeOver? }

  /** EmitReturn and EmitRangeFuncReturn. */
  function LowerReturn(e: Option<nat>, k: Kind, J: seq<Frame>): seq<Cpp> {
    match Escapes(J)
    case Some(id) => (if k == Void then [] else [CSetVal(id, e)]) + [CSetFlag(id), CReturnBool(false)]
    case None => [if k == MainFn && e == None then CReturnZero else CReturn(e)]
  }

  /** EmitRangeOverFunc, the body already emitted: the call, then the escape check. A
      loop inside another one shares its variables and passes the stop outward. */
  function RangeCode(st: Stmt, k: Kind, outer: Option<nat>, id: nat, body: seq<Cpp>): seq<Cpp>
    requires st.Range?
  {
    var leave := if outer.Some? then CReturnBool(false) else if k == Void then CReturn(None) else CReturnVal(id);
    (if outer.Some? then [] else [CDeclare(id)])
    + [CCall(st.it, st.x, body + [CReturnBool(true)]), CIfFlag(id, [leave])]
  }

  function Lower(st: Stmt, k: Kind, J: seq<Frame>, id: nat): Lowered
    decreases st, 1
  {
    match st
    case Act(a) => Ok([CAct(a)], id)
    case If(c, thn, els) =>
      (match LowerList(thn, k, J, id)
       case Rejected => Rejected
       case Ok(a, n) =>
         match LowerList(els, k, J, n)
         case Rejected => Rejected
         case Ok(b, n') => Ok([CIf(c, a, b)], n'))
    case While(c, body) =>
      (match LowerList(body, k, J + [Ordinary], id)
       case Rejected => Rejected
       case Ok(b, n) => Ok([CWhile(c, b)], n))
    case Range(_, _, body) =>
      var v := if Escapes(J).Some? then Escapes(J).value else id;
      (match LowerList(body, k, J + [RangeOver(v)], if Escapes(J).Some? then id else id + 1)
       case Rejected => Rejected
       case Ok(b, n) => Ok(RangeCode(st, k, Escapes(J), v, b), n))
    case Return(e) => Ok(LowerReturn(e, k, J), id)
    case Break => Ok([if InLambda(J) then CReturnBool(false) else CBreak], id)
    case Continue => if J == [] then Rejected else Ok([if InLambda(J) then CReturnBool(true) else CContinue], id)
  }

  function LowerList(sts: seq<Stmt>, k: Kind, J: seq<Frame>, id: nat): Lowered
    decreases sts, 0
  {
    if sts == [] then Ok([], id) else
    match Lower(sts[0], k, J, id)
    case Rejected => Rejected
    case Ok(a, n) =>
      match LowerList(sts[1..], k, J, n)
      case Rejected => Rejected
      case Ok(b, n') => Ok(a + b, n')
  }

  // ---- Agreement ----------------------------------------------------------------------

  /** What C++ returns for a Go return. */
  function Result(k: Kind, v: Option<int>): Option<int> {
    match k
    case Void => None
    case Valued => v
    case MainFn => Some(0)
  }

  /** Returns carry a value exactly when the function has a result; break and continue
      stand in a loop. */
  predicate Legal(st: Stmt, k: Kind, inLoop: bool)
    decreases st, 1
  {
    match st
    case If(_, thn, els) => LegalList(thn, k, inLoop) && LegalList(els, k, inLoop)
    case While(_, body) => LegalList(body, k, true)
    case Range(_, _, body) => LegalList(body, k, true)
    case Return(e) => e.Some? == k.Valued?
    case Break => inLoop
    case Continue => inLoop
    case Act(_) => true
  }

  predicate LegalList(sts: seq<Stmt>, k: Kind, inLoop: bool)
    decreases sts, 0
  {
    sts == [] || (Legal(sts[0], k, inLoop) && LegalList(sts[1..], k, inLoop))
  }

  /** The enclosing loops' flag is declared and down. */
  ghost predicate Down<S>(J: seq<Frame>, t: CState<S>) {
    Escapes(J).Some? ==> Escapes(J).value in t.vars && !t.vars[Escapes(J).value].flag
  }

  /** The emitted code ended the way the Go code did. Inside a lambda, a return has
      raised the flag, stored the value and answered false. */
  ghost predicate Agree<S>(k: Kind, J: seq<Frame>, o: Out<S>, c: COut<S>) {
    match o
    case Norm(s) => c.CNorm? && c.t.s == s && Down(J, c.t)
    case Ret(v, s) =>
      (match Escapes(J)
       case Some(id) =>
         && c.CRetBool? && !c.b && c.t.s == s && id in c.t.vars && c.t.vars[id].flag
         && (k != Void ==> Result(k, v) == Some(c.t.vars[id].val))
       case None => c.CRet? && c.t.s == s && c.v == Result(k, v))
    case Brk(s) => (if InLambda(J) then c.CRetBool? && !c.b else c.CBrk?) && c.t.s == s && Down(J, c.t)
    case Cont(s) => (if InLambda(J) then c.CRetBool? && c.b else c.CCont?) && c.t.s == s && Down(J, c.t)
    case OutOfFuel => c.CFuel?
  }

  lemma {:induction false} ExecAppend<S, L>(I: Interp<S, L>, a: seq<Cpp>, b: seq<Cpp>, t: CState<S>, fuel: nat)
    ensures ExecCpps(I, a + b, t, fuel) ==
            var c := ExecCpps(I, a, t, fuel); if c.CNorm? then ExecCpps(I, b, c.t, fuel) else c
    decreases |a|
  {
    if a == [] {
      assert a + b == b;
    } else {
      assert (a + b)[1..] == a[1..] + b;
      var c := ExecCpp(I, a[0], t, fuel);
      if c.CNorm? { ExecAppend(I, a[1..], b, c.t, fuel); }
    }
  }

  lemma ExecOne<S, L>(I: Interp<S, L>, c: Cpp, t: CState<S>, fuel: nat)
    ensures ExecCpps(I, [c], t, fuel) == ExecCpp(I, c, t, fuel)
  {
    assert [c][1..] == [];
  }

  lemma ExecTwo<S, L>(I: Interp<S, L>, a: Cpp, b: Cpp, t: CState<S>, fuel: nat)
    ensures ExecCpps(I, [a, b], t, fuel) == var c := ExecCpp(I, a, t, fuel); if c.CNorm? then ExecCpp(I, b, c.t, fuel) else c
  {
    assert [a, b] == [a] + [b];
    ExecAppend(I, [a], [b], t, fuel);
    ExecOne(I, a, t, fuel);
    if ExecCpp(I, a, t, fuel).CNorm? { ExecOne(I, b, ExecCpp(I, a, t, fuel).t, fuel); }
  }

  lemma EscapesPushed(J: seq<Frame>, f: Frame)
    ensures Escapes(J + [f]) == if f.RangeOver? then Some(f.id) else Escapes(J)
  {
    assert (J + [f])[..|J|] == J;
  }

  lemma ReturnPreserved<S, L>(I: Interp<S, L>, e: Option<nat>, k: Kind, J: seq<Frame>, t: CState<S>, fuel: nat)
    requires e.Some? == k.Valued? && Down(J, t)
    ensures Agree(k, J, Exec(I, Return(e), t.s, fuel), ExecCpps(I, LowerReturn(e, k, J), t, fuel))
  {
    match Escapes(J)
    case None => ExecOne(I, LowerReturn(e, k, J)[0], t, fuel);
    case Some(id) =>
      var last := [CSetFlag(id), CReturnBool(false)];
      if k == Void {
        assert LowerReturn(e, k, J) == last;
        ExecTwo(I, last[0], last[1], t, fuel);
      } else {
        var first := CSetVal(id, e);
        ExecAppend(I, [first], last, t, fuel);
        ExecOne(I, first, t, fuel);
        ExecTwo(I, last[0], last[1], ExecCpp(I, first, t, fuel).t, fuel);
      }
  }

  lemma {:induction false} ListPreserved<S, L>(I: Interp<S, L>, sts: seq<Stmt>, k: Kind, J: seq<Frame>, id: nat, t: CState<S>, fuel: nat)
    requires LowerList(sts, k, J, id).Ok? && LegalList(sts, k, J != []) && Down(J, t)
    ensures Agree(k, J, ExecList(I, sts, t.s, fuel), ExecCpps(I, LowerList(sts, k, J, id).code, t, fuel))
    decreases fuel, sts, 3
  {
    if sts != [] {
      var first := Lower(sts[0], k, J, id);
      StmtPreserved(I, sts[0], k, J, id, t, fuel);
      ExecAppend(I, first.code, LowerList(sts[1..], k, J, first.next).code, t, fuel);
      var c := ExecCpps(I, first.code, t, fuel);
      if c.CNorm? { ListPreserved(I, sts[1..], k, J, first.next, c.t, fuel); }
    }
  }

  /** A statement and its rewriting agree, in a function and in an iterator's lambda. */
  lemma {:induction false} StmtPreserved<S, L>(I: Interp<S, L>, st: Stmt, k: Kind, J: seq<Frame>, id: nat, t: CState<S>, fuel: nat)
    requires Lower(st, k, J, id).Ok? && Legal(st, k, J != []) && Down(J, t)
    ensures Agree(k, J, Exec(I, st, t.s, fuel), ExecCpps(I, Lower(st, k, J, id).code, t, fuel))
    decreases fuel, st, 4
  {
    match st
    case Act(a) => ExecOne(I, CAct(a), t, fuel);
    case If(c, thn, els) =>
      var a := LowerList(thn, k, J, id);
      var t1 := t.(s := (I.test)(c, t.s).1);
      ListPreserved(I, thn, k, J, id, t1, fuel);
      ListPreserved(I, els, k, J, a.next, t1, fuel);
      ExecOne(I, CIf(c, a.code, LowerList(els, k, J, a.next).code), t, fuel);
    case While(c, body) =>
      WhilePreserved(I, st, k, J, id, t, fuel);
      ExecOne(I, CWhile(c, LowerList(body, k, J + [Ordinary], id).code), t, fuel);
    case Range(_, _, _) => RangePreserved(I, st, k, J, id, t, fuel);
    case Return(e) => ReturnPreserved(I, e, k, J, t, fuel);
    case Break => ExecOne(I, if InLambda(J) then CReturnBool(false) else CBreak, t, fuel);
    case Continue => ExecOne(I, if InLambda(J) then CReturnBool(true) else CContinue, t, fuel);
  }

  /** The body of an ordinary loop: its break and continue are C++'s, its return is the
      enclosing one's. */
  lemma {:induction false} WhileBodyPreserved<S, L>(I: Interp<S, L>, body: seq<Stmt>, k: Kind, J: seq<Frame>, id: nat, t: CState<S>, fuel: nat)
    requires LowerList(body, k, J + [Ordinary], id).Ok? && LegalList(body, k, true) && Down(J, t)
    ensures var o := ExecList(I, body, t.s, fuel); var c := ExecCpps(I, LowerList(body, k, J + [Ordinary], id).code, t, fuel);
      if o.Brk? then c.CBrk? && c.t.s == o.s && Down(J, c.t)
      else if o.Cont? then c.CCont? && c.t.s == o.s && Down(J, c.t)
      else Agree(k, J, o, c)
    decreases fuel, body, 4
  {
    EscapesPushed(J, Ordinary);
    ListPreserved(I, body, k, J + [Ordinary], id, t, fuel);
  }

  lemma {:induction false} WhilePreserved<S, L>(I: Interp<S, L>, st: Stmt, k: Kind, J: seq<Frame>, id: nat, t: CState<S>, fuel: nat)
    requires st.While? && LowerList(st.body, k, J + [Ordinary], id).Ok? && LegalList(st.body, k, true) && Down(J, t)
    ensures Agree(k, J, ExecWhile(I, st, t.s, fuel), ExecCWhile(I, CWhile(st.c, LowerList(st.body, k, J + [Ordinary], id).code), t, fuel))
    decreases fuel, st, 2
  {
    if fuel > 0 {
      var t1 := t.(s := (I.test)(st.c, t.s).1);
      if (I.test)(st.c, t.s).0 {
        WhileBodyPreserved(I, st.body, k, J, id, t1, fuel);
        var o := ExecList(I, st.body, t1.s, fuel);
        if o.Norm? || o.Cont? {
          WhilePreserved(I, st, k, J, id, ExecCpps(I, LowerList(st.body, k, J + [Ordinary], id).code, t1, fuel).t, fuel - 1);
        }
      }
    }
  }

  // ---- Range loops ----------------------------------------------------------------------

  /** How the call of the iterator ends when the Go loop ends with o: normally, with the
      flag telling whether the loop was left by a return. */
  ghost predicate CallAgrees<S>(k: Kind, v: nat, o: Out<S>, c: COut<S>) {
    match o
    case Norm(s) => c.CNorm? && c.t.s == s && v in c.t.vars && !c.t.vars[v].flag
    case Ret(r, s) =>
      && c.CNorm? && c.t.s == s && v in c.t.vars && c.t.vars[v].flag
      && (k != Void ==> Result(k, r) == Some(c.t.vars[v].val))
    case OutOfFuel => c.CFuel?
    case _ => false
  }

  /** One call of the lambda: it answers false exactly when the body left the loop. */
  lemma {:induction false} LambdaPreserved<S, L>(I: Interp<S, L>, body: seq<Stmt>, k: Kind, J: seq<Frame>, v: nat, id: nat, t: CState<S>, fuel: nat)
    requires LowerList(body, k, J + [RangeOver(v)], id).Ok? && LegalList(body, k, true) && v in t.vars && !t.vars[v].flag
    ensures var o := ExecList(I, body, t.s, fuel);
      var c := ExecCpps(I, LowerList(body, k, J + [RangeOver(v)], id).code + [CReturnBool(true)], t, fuel);
      if o.OutOfFuel? then c.CFuel?
      else c.CRetBool? && c.t.s == o.s && c.b == (o.Norm? || o.Cont?) && v in c.t.vars && c.t.vars[v].flag == o.Ret?
           && (o.Ret? && k != Void ==> Result(k, o.v) == Some(c.t.vars[v].val))
    decreases fuel, body, 4
  {
    var J' := J + [RangeOver(v)];
    EscapesPushed(J, RangeOver(v));
    ListPreserved(I, body, k, J', id, t, fuel);
    var code := LowerList(body, k, J', id).code;
    ExecAppend(I, code, [CReturnBool(true)], t, fuel);
    var c := ExecCpps(I, code, t, fuel);
    if c.CNorm? { ExecOne(I, CReturnBool(true), c.t, fuel); }
  }

  /** An iterator's call and Go's loop agree on how the loop was left. */
  lemma {:induction false} CallPreserved<S, L>(I: Interp<S, L>, st: Stmt, k: Kind, J: seq<Frame>, v: nat, id: nat, l: L, t: CState<S>, fuel: nat)
    requires st.Range? && LowerList(st.body, k, J + [RangeOver(v)], id).Ok? && LegalList(st.body, k, true)
    requires v in t.vars && !t.vars[v].flag
    ensures CallAgrees(k, v, ExecRange(I, st, l, t.s, fuel),
              ExecCall(I, CCall(st.it, st.x, LowerList(st.body, k, J + [RangeOver(v)], id).code + [CReturnBool(true)]), l, t, fuel))
    decreases fuel, st, 2
  {
    if fuel > 0 {
      match (I.next)(st.it, l, t.s)
      case Finish(_) =>
      case Yield(y, l', s1) =>
        var t1 := t.(s := (I.bind)(st.x, y, s1));
        LambdaPreserved(I, st.body, k, J, v, id, t1, fuel);
        var o := ExecList(I, st.body, t1.s, fuel);
        if o.Norm? || o.Cont? {
          var c := ExecCpps(I, LowerList(st.body, k, J + [RangeOver(v)], id).code + [CReturnBool(true)], t1, fuel);
          CallPreserved(I, st, k, J, v, id, l', c.t, fuel - 1);
        }
    }
  }

  /** Call and escape check together agree with Go's loop. */
  lemma {:induction false} RangePreserved<S, L>(I: Interp<S, L>, st: Stmt, k: Kind, J: seq<Frame>, id: nat, t: CState<S>, fuel: nat)
    requires st.Range? && Lower(st, k, J, id).Ok? && Legal(st, k, J != []) && Down(J, t)
    ensures Agree(k, J, Exec(I, st, t.s, fuel), ExecCpps(I, Lower(st, k, J, id).code, t, fuel))
    decreases fuel, st, 3
  {
    var outer := Escapes(J);
    var v := if outer.Some? then outer.value else id;
    var n := if outer.Some? then id else id + 1;
    var call := CCall(st.it, st.x, LowerList(st.body, k, J + [RangeOver(v)], n).code + [CReturnBool(true)]);
    var leave := if outer.Some? then CReturnBool(false) else if k == Void then CReturn(None) else CReturnVal(v);
    var check := CIfFlag(v, [leave]);
    var decl := if outer.Some? then [] else [CDeclare(v)];
    var t1 := if outer.Some? then t else t.(vars := t.vars[v := Escape(false, 0)]);
    var (l, s1) := (I.start)(st.it, t1.s);
    CallPreserved(I, st, k, J, v, n, l, t1.(s := s1), fuel);
    assert Lower(st, k, J, id).code == decl + [call, check];
    ExecAppend(I, decl, [call, check], t, fuel);
    if outer.None? { ExecOne(I, CDeclare(v), t, fuel); }
    ExecTwo(I, call, check, t1, fuel);
    var c := ExecCpp(I, call, t1, fuel);
    if c.CNorm? { ExecOne(I, leave, c.t, fuel); }
  }

  // ---- Whole functions --------------------------------------------------------------------

  lemma {:induction false} LegalLowered(sts: seq<Stmt>, k: Kind, J: seq<Frame>, id: nat)
    requires LegalList(sts, k, J != [])
    ensures LowerList(sts, k, J, id).Ok?
    decreases sts, 0
  {
    if sts != [] {
      LegalStmtLowered(sts[0], k, J, id);
      LegalLowered(sts[1..], k, J, Lower(sts[0], k, J, id).next);
    }
  }

  lemma {:induction false} LegalStmtLowered(st: Stmt, k: Kind, J: seq<Frame>, id: nat)
    requires Legal(st, k, J != [])
    ensures Lower(st, k, J, id).Ok?
    decreases st, 1
  {
    match st
    case If(_, thn, els) =>
      LegalLowered(thn, k, J, id);
      LegalLowered(els, k, J, LowerList(thn, k, J, id).next);
    case While(_, body) => LegalLowered(body, k, J + [Ordinary], id);
    case Range(_, _, body) =>
      var v := if Escapes(J).Some? then Escapes(J).value else id;
      LegalLowered(body, k, J + [RangeOver(v)], if Escapes(J).Some? then id else id + 1);
    case _ =>
  }

  lemma {:induction false} NoStrayJumps<S, L>(I: Interp<S, L>, sts: seq<Stmt>, k: Kind, s: S, fuel: nat)
    requires LegalList(sts, k, false)
    ensures !ExecList(I, sts, s, fuel).Brk? && !ExecList(I, sts, s, fuel).Cont?
    decreases fuel, sts, 0
  {
    if sts != [] {
      NoStrayJumpsOf(I, sts[0], k, s, fuel);
      var o := Exec(I, sts[0], s, fuel);
      if o.Norm? { NoStrayJumps(I, sts[1..], k, o.s, fuel); }
    }
  }

  lemma {:induction false} NoStrayJumpsOf<S, L>(I: Interp<S, L>, st: Stmt, k: Kind, s: S, fuel: nat)
    requires Legal(st, k, false)
    ensures !Exec(I, st, s, fuel).Brk? && !Exec(I, st, s, fuel).Cont?
    decreases fuel, st, 1
  {
    match st
    case If(c, thn, els) =>
      NoStrayJumps(I, thn, k, (I.test)(c, s).1, fuel);
      NoStrayJumps(I, els, k, (I.test)(c, s).1, fuel);
    case While(_, _) => WhileEnds(I, st, s, fuel);
    case Range(it, _, _) => RangeEnds(I, st, (I.start)(it, s).0, (I.start)(it, s).1, fuel);
    case _ =>
  }

  lemma {:induction false} WhileEnds<S, L>(I: Interp<S, L>, st: Stmt, s: S, fuel: nat)
    requires st.While?
    ensures !ExecWhile(I, st, s, fuel).Brk? && !ExecWhile(I, st, s, fuel).Cont?
    decreases fuel
  {
    if fuel > 0 && (I.test)(st.c, s).0 {
      var o := ExecList(I, st.body, (I.test)(st.c, s).1, fuel);
      if o.Norm? || o.Cont? { WhileEnds(I, st, o.s, fuel - 1); }
    }
  }

  lemma {:induction false} RangeEnds<S, L>(I: Interp<S, L>, st: Stmt, l: L, s: S, fuel: nat)
    requires st.Range?
    ensures !ExecRange(I, st, l, s, fuel).Brk? && !ExecRange(I, st, l, s, fuel).Cont?
    decreases fuel
  {
    if fuel > 0 && (I.next)(st.it, l, s).Yield? {
      var y := (I.next)(st.it, l, s);
      var o := ExecList(I, st.body, (I.bind)(st.x, y.v, y.s), fuel);
      if o.Norm? || o.Cont? { RangeEnds(I, st, y.l, o.s, fuel - 1); }
    }
  }

  /** A legal body is accepted; the emitted body returns what Go returns, in the same
      state, or runs to its end when Go does, and no lambda's answer leaks out. */
  lemma FunctionReturnsTheSame<S, L>(I: Interp<S, L>, body: seq<Stmt>, k: Kind, t: CState<S>, fuel: nat)
    requires LegalList(body, k, false)
    ensures LowerList(body, k, [], 0).Ok?
    ensures var o := ExecList(I, body, t.s, fuel); var c := ExecCpps(I, LowerList(body, k, [], 0).code, t, fuel);
      || (o.Norm? && c.CNorm? && c.t.s == o.s)
      || (o.Ret? && c.CRet? && c.t.s == o.s && c.v == (if k == Void then None else if k == MainFn then Some(0) else o.v))
      || (o.OutOfFuel? && c.CFuel?)
  {
    LegalLowered(body, k, [], 0);
    ListPreserved(I, body, k, [], 0, t, fuel);
    NoStrayJumps(I, body, k, t.s, fuel);
  }
}
