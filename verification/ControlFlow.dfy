/** Go's structured control flow, the C++ fragment it is emitted as, and both their
    meanings. Actions, tests and expressions are names; an Interp gives them any
    meaning, with side effects on a state of any type. */
module ControlFlow {
  import opened Wrappers

  type Name = string

  datatype Interp<!S> = Interp(act: (nat, S) -> S, test: (nat, S) -> (bool, S), eval: (nat, S) -> (int, S))

  // ---- Go ----------------------------------------------------------------------

  datatype Stmt =
    | Act(a: nat)
    | Block(body: seq<Stmt>)
    | If(c: nat, thn: seq<Stmt>, els: seq<Stmt>)
    | For(lab: Option<Name>, init: Option<nat>, cond: Option<nat>, post: Option<nat>, loop: seq<Stmt>)
    | Switch(swLabel: Option<Name>, swInit: Option<nat>, tag: Option<nat>, cases: seq<Case>)
    | Break(brk: Option<Name>)
    | Continue(cnt: Option<Name>)
    | Fallthrough

  /** A case without values is the default, wherever it stands. */
  datatype Case = Case(values: seq<nat>, body: seq<Stmt>)

  predicate EndsWithFallthrough(c: Case) {
    c.body != [] && c.body[|c.body|-1] == Fallthrough
  }

  /** The case's statements but for a final fallthrough. */
  function Proper(c: Case): seq<Stmt> {
    if EndsWithFallthrough(c) then c.body[..|c.body|-1] else c.body
  }

  /** How a statement ends. A jump names the label it goes to, if it has one;
      Misplaced is a fallthrough that is not the last statement of a case. */
  datatype Out<S> = Norm(s: S) | Brk(lab: Option<Name>, s: S) | Cont(lab: Option<Name>, s: S) | Misplaced | OutOfFuel

  function RunOpt<S>(I: Interp<S>, a: Option<nat>, s: S): S {
    if a.Some? then (I.act)(a.value, s) else s
  }

  function TestOpt<S>(I: Interp<S>, c: Option<nat>, s: S): (bool, S) {
    if c.Some? then (I.test)(c.value, s) else (true, s)
  }

  /** Case values are evaluated left to right until one matches: against the tag's
      value, or for truth when there is no tag. */
  function Matches<S>(I: Interp<S>, tag: Option<int>, values: seq<nat>, s: S): (bool, S) {
    if values == [] then (false, s) else
    var (hit, s') := if tag.Some? then var (v, s1) := (I.eval)(values[0], s); (v == tag.value, s1)
                     else (I.test)(values[0], s);
    if hit then (true, s') else Matches(I, tag, values[1..], s')
  }

  /** The first case at or after i one of whose values matches, or |cases|. */
  function Dispatch<S>(I: Interp<S>, tag: Option<int>, cases: seq<Case>, i: nat, s: S): (r: (nat, S))
    requires i <= |cases|
    ensures i <= r.0 <= |cases|
    decreases |cases| - i
  {
    if i == |cases| then (i, s) else
    var (hit, s') := Matches(I, tag, cases[i].values, s);
    if hit then (i, s') else Dispatch(I, tag, cases, i + 1, s')
  }

  /** The default case: the last one without values, or |cases|. */
  function Default(cases: seq<Case>): (d: nat)
    ensures d <= |cases|
  {
    DefaultBelow(cases, |cases|)
  }

  function DefaultBelow(cases: seq<Case>, i: nat): (d: nat)
    requires i <= |cases|
    ensures d < i || d == |cases|
  {
    if i == 0 then |cases| else if cases[i - 1].values == [] then i - 1 else DefaultBelow(cases, i - 1)
  }

  function Exec<S>(I: Interp<S>, st: Stmt, s: S, fuel: nat): Out<S>
    decreases fuel, st, 3
  {
    match st
    case Act(a) => Norm((I.act)(a, s))
    case Block(body) => ExecList(I, body, s, fuel)
    case If(c, thn, els) =>
      var (b, s') := (I.test)(c, s);
      if b then ExecList(I, thn, s', fuel) else ExecList(I, els, s', fuel)
    case For(_, init, _, _, _) => ExecFor(I, st, RunOpt(I, init, s), fuel)
    case Switch(lab, init, tag, cases) =>
      var s1 := RunOpt(I, init, s);
      var (v, s2) := if tag.Some? then var (x, s') := (I.eval)(tag.value, s1); (Some(x), s') else (None, s1);
      var (i, s3) := Dispatch(I, v, cases, 0, s2);
      LeaveSwitch(lab, ExecCases(I, cases, if i < |cases| then i else Default(cases), s3, fuel))
    case Break(l) => Brk(l, s)
    case Continue(l) => Cont(l, s)
    case Fallthrough => Misplaced
  }

  function ExecList<S>(I: Interp<S>, sts: seq<Stmt>, s: S, fuel: nat): Out<S>
    decreases fuel, sts, 2
  {
    if sts == [] then Norm(s) else
    match Exec(I, sts[0], s, fuel)
    case Norm(s') => ExecList(I, sts[1..], s', fuel)
    case o => o
  }

  /** A loop from its test on. */
  function ExecFor<S>(I: Interp<S>, st: Stmt, s: S, fuel: nat): Out<S>
    requires st.For?
    decreases fuel, st, 2
  {
    if fuel == 0 then OutOfFuel else
    var (b, s1) := TestOpt(I, st.cond, s);
    if !b then Norm(s1) else
    match ExecList(I, st.loop, s1, fuel)
    case Norm(s2) => ExecFor(I, st, RunOpt(I, st.post, s2), fuel - 1)
    case Cont(l, s2) =>
      if l == None || l == st.lab then ExecFor(I, st, RunOpt(I, st.post, s2), fuel - 1) else Cont(l, s2)
    case Brk(l, s2) => if l == None || l == st.lab then Norm(s2) else Brk(l, s2)
    case o => o
  }

  /** The bodies from case i on, as long as they end in fallthrough. */
  function ExecCases<S>(I: Interp<S>, cases: seq<Case>, i: nat, s: S, fuel: nat): Out<S>
    decreases fuel, cases, |cases| - i
  {
    if i >= |cases| then Norm(s) else
    var c := cases[i];
    match ExecList(I, Proper(c), s, fuel)
    case Norm(s') => if EndsWithFallthrough(c) then ExecCases(I, cases, i + 1, s', fuel) else Norm(s')
    case o => o
  }

  function LeaveSwitch<S>(lab: Option<Name>, o: Out<S>): Out<S> {
    if o.Brk? && (o.lab == None || o.lab == lab) then Norm(o.s) else o
  }

  // ---- C++ -----------------------------------------------------------------------

  datatype Lbl = User(name: Name) | BrkOf(name: Name) | CntOf(name: Name) | EndOf(id: nat) | CaseOf(id: nat, i: nat)

  /** CGotoIf is one `if (v1 || v2 ...) goto l`, each v compared with the switch
      variable `tag` or tested for truth; CFor also stands for `while`. */
  datatype Cpp =
    | CAct(a: nat)
    | CSet(id: nat, e: nat)
    | CGotoIf(tag: Option<nat>, values: seq<nat>, l: Lbl)
    | CGoto(l: Lbl)
    | CLabel(l: Lbl)
    | CBlock(body: seq<Cpp>)
    | CIf(c: nat, thn: seq<Cpp>, els: seq<Cpp>)
    | CFor(init: Option<nat>, cond: Option<nat>, post: Option<nat>, loop: seq<Cpp>)
    | CBreak
    | CContinue

  /** The program's state and the switch variables. */
  datatype CState<S> = CState(s: S, tags: map<nat, int>)

  datatype COut<S> = CNorm(t: CState<S>) | CJump(l: Lbl, t: CState<S>) | CBrk(t: CState<S>) | CCont(t: CState<S>) | CFuel

  function TagValue<S>(t: CState<S>, tag: Option<nat>): Option<int> {
    if tag.Some? && tag.value in t.tags then Some(t.tags[tag.value]) else None
  }

  function ExecCpp<S>(I: Interp<S>, c: Cpp, t: CState<S>, fuel: nat): COut<S>
    decreases fuel, c, 3
  {
    match c
    case CAct(a) => CNorm(t.(s := (I.act)(a, t.s)))
    case CSet(id, e) => var (v, s') := (I.eval)(e, t.s); CNorm(CState(s', t.tags[id := v]))
    case CGotoIf(tag, values, l) =>
      var (hit, s') := Matches(I, TagValue(t, tag), values, t.s);
      if hit then CJump(l, t.(s := s')) else CNorm(t.(s := s'))
    case CGoto(l) => CJump(l, t)
    case CLabel(_) => CNorm(t)
    case CBlock(body) => ExecCpps(I, body, t, fuel)
    case CIf(c, thn, els) =>
      var (b, s') := (I.test)(c, t.s);
      if b then ExecCpps(I, thn, t.(s := s'), fuel) else ExecCpps(I, els, t.(s := s'), fuel)
    case CFor(init, _, _, _) => ExecCFor(I, c, t.(s := RunOpt(I, init, t.s)), fuel)
    case CBreak => CBrk(t)
    case CContinue => CCont(t)
  }

  /** A statement list. A jump out of a statement lands on a label further on in the
      list or leaves the list. */
  function ExecCpps<S>(I: Interp<S>, cs: seq<Cpp>, t: CState<S>, fuel: nat): COut<S>
    decreases fuel, cs, 2
  {
    if cs == [] then CNorm(t) else
    match ExecCpp(I, cs[0], t, fuel)
    case CNorm(t') => ExecCpps(I, cs[1..], t', fuel)
    case CJump(l, t') => Seek(I, cs[1..], l, t', fuel)
    case o => o
  }

  function Seek<S>(I: Interp<S>, cs: seq<Cpp>, l: Lbl, t: CState<S>, fuel: nat): COut<S>
    decreases fuel, cs, 2
  {
    if cs == [] then CJump(l, t)
    else if cs[0] == CLabel(l) then ExecCpps(I, cs[1..], t, fuel)
    else Seek(I, cs[1..], l, t, fuel)
  }

  function ExecCFor<S>(I: Interp<S>, c: Cpp, t: CState<S>, fuel: nat): COut<S>
    requires c.CFor?
    decreases fuel, c, 2
  {
    if fuel == 0 then CFuel else
    var (b, s1) := TestOpt(I, c.cond, t.s);
    var t1 := t.(s := s1);
    if !b then CNorm(t1) else
    match ExecCpps(I, c.loop, t1, fuel)
    case CNorm(t2) => ExecCFor(I, c, t2.(s := RunOpt(I, c.post, t2.s)), fuel - 1)
    case CCont(t2) => ExecCFor(I, c, t2.(s := RunOpt(I, c.post, t2.s)), fuel - 1)
    case CBrk(t2) => CNorm(t2)
    case o => o
  }
}
