/** Functions with defer, panic, recover and a result: what Go means by them, and the
    body with a panic frame, a defer list and an epilogue that is emitted for them. */
module DeferModel {
  import opened Wrappers

  /** world is what outlives the function: the heap, channels, the variables of packages.
      vars are the function's own parameters and variables; a statement that names none of
      them is given None. */
  datatype Store<H, V> = Store(world: H, vars: Option<V>)

  /** The meaning of a program's names. use is an action that reads the named result and
      eval an expression that may; bind gives a deferred call's parameter its value, give
      stores what recover() returned, and code is what a function value runs. */
  datatype Interp<!H, !V> = Interp(
    act: (nat, Store<H, V>) -> Store<H, V>,
    use: (nat, int, Store<H, V>) -> Store<H, V>,
    test: (nat, Store<H, V>) -> (bool, Store<H, V>),
    eval: (nat, int, Store<H, V>) -> (int, Store<H, V>),
    bind: (nat, int, Store<H, V>) -> Store<H, V>,
    give: (nat, Option<int>, Store<H, V>) -> Store<H, V>,
    code: int -> seq<DStmt>)

  datatype Kind = Void | Unnamed | Named

  /** Which variables of the deferring function a deferred statement names: none, only
      parameters, also variables declared in the function's body, or variables of a block
      or loop in it that contains the defer statement. */
  datatype Home = World | Param | Local | Inner

  /** The body of a deferred call. DSet assigns the named result; DWait may wait for another
      goroutine, which makes the body a coroutine. */
  datatype DStmt =
    | DAct(a: nat, h: Home)
    | DWait(a: nat, h: Home)
    | DUse(a: nat, h: Home)
    | DSet(e: nat, h: Home)
    | DRecover(x: nat, h: Home)
    | DIf(c: nat, h: Home, thn: seq<DStmt>, els: seq<DStmt>)

  predicate Waits(body: seq<DStmt>)
    decreases body, 0
  {
    body != [] && (Waiting(body[0]) || Waits(body[1..]))
  }

  predicate Waiting(d: DStmt)
    decreases d, 1
  {
    d.DWait? || (d.DIf? && (Waits(d.thn) || Waits(d.els)))
  }

  /** What a deferred statement may do to the deferring function: assign its named result,
      read it, name its variables, those declared in its body, those of inner blocks. */
  datatype Aim = Assigns | Reads | Names | NamesLocal | NamesInner

  predicate Has(aim: Aim, body: seq<DStmt>)
    decreases body, 0
  {
    body != [] && (HasIn(aim, body[0]) || Has(aim, body[1..]))
  }

  predicate HasIn(aim: Aim, d: DStmt)
    decreases d, 1
  {
    Hits(aim, d) || (d.DIf? && (Has(aim, d.thn) || Has(aim, d.els)))
  }

  predicate Hits(aim: Aim, d: DStmt) {
    match aim
    case Assigns => d.DSet?
    case Reads => d.DUse?
    case Names => d.h != World
    case NamesLocal => d.h == Local || d.h == Inner
    case NamesInner => d.h == Inner
  }

  /** What a deferred call calls: a function literal; a function or method by its name, or
      the value of a local variable; a function value kept in a package's variable or behind
      a pointer; or what another expression yields, as in `defer fs[i]()`. */
  datatype Callee = Literal(body: seq<DStmt>) | Name(body: seq<DStmt>) | Stored(f: nat) | Computed(f: nat)

  datatype Deferred = Deferred(callee: Callee, param: nat, arg: Option<nat>)

  /** The body that is known where the call is deferred. */
  function CodeOf(d: Deferred): seq<DStmt> { if d.callee.Literal? || d.callee.Name? then d.callee.body else [] }

  /** A literal that waits is a coroutine with copies of what it names. */
  predicate Awaited(d: Deferred) { d.callee.Literal? && Waits(d.callee.body) }

  /** The call of a waiting function by its name makes a coroutine that is destroyed before
      it has started. */
  predicate Abandoned(d: Deferred) { d.callee.Name? && Waits(d.callee.body) }

  /** inRange marks a return in the body of a range-over-func loop. */
  datatype Stmt =
    | Act(a: nat)
    | Use(a: nat)
    | Set(e: nat)
    | If(c: nat, thn: seq<Stmt>, els: seq<Stmt>)
    | While(c: nat, body: seq<Stmt>)
    | Defer(d: Deferred)
    | Panic(e: nat)
    | Return(value: Option<nat>, inRange: bool)

  /** A registered call with its code, its argument's value, and the variables and result
      as they were at registration. gone says that it names variables of a block that has
      been left. */
  datatype Pending<V> = Pending(d: Deferred, code: seq<DStmt>, v: Option<int>, vars: Option<V>, r: int, gone: bool)

  function EvalOpt<H, V>(I: Interp<H, V>, e: Option<nat>, r: int, s: Store<H, V>): (Option<int>, Store<H, V>) {
    if e.Some? then var (v, s') := (I.eval)(e.value, r, s); (Some(v), s') else (None, s)
  }

  // ---- Statements of deferred bodies --------------------------------------------------------

  /** What a statement is given, and what is left of the store after it. */
  function Seen<H, V>(h: Home, s: Store<H, V>): Store<H, V> { if h == World then Store(s.world, None) else s }

  function Kept<H, V>(h: Home, s: Store<H, V>, s': Store<H, V>): Store<H, V> { if h == World then Store(s'.world, s.vars) else s' }

  function DoAct<H, V>(I: Interp<H, V>, a: nat, h: Home, s: Store<H, V>): Store<H, V> { Kept(h, s, (I.act)(a, Seen(h, s))) }

  function DoUse<H, V>(I: Interp<H, V>, a: nat, h: Home, r: int, s: Store<H, V>): Store<H, V> { Kept(h, s, (I.use)(a, r, Seen(h, s))) }

  function DoEval<H, V>(I: Interp<H, V>, e: nat, h: Home, r: int, s: Store<H, V>): (int, Store<H, V>) {
    var (v, s') := (I.eval)(e, r, Seen(h, s)); (v, Kept(h, s, s'))
  }

  function DoTest<H, V>(I: Interp<H, V>, c: nat, h: Home, s: Store<H, V>): (bool, Store<H, V>) {
    var (b, s') := (I.test)(c, Seen(h, s)); (b, Kept(h, s, s'))
  }

  function DoGive<H, V>(I: Interp<H, V>, x: nat, h: Home, m: Option<int>, s: Store<H, V>): Store<H, V> {
    Kept(h, s, (I.give)(x, m, Seen(h, s)))
  }

  /** The parameter belongs to the deferred call. */
  function BindOpt<H, V>(I: Interp<H, V>, x: nat, v: Option<int>, s: Store<H, V>): Store<H, V> {
    if v.Some? then Kept(World, s, (I.bind)(x, v.value, Seen(World, s))) else s
  }

  // ---- Go ------------------------------------------------------------------------------

  /** A defer statement evaluates the function value, then the argument. */
  function GoRegister<H, V>(I: Interp<H, V>, d: Deferred, r: int, s: Store<H, V>): (Pending<V>, Store<H, V>) {
    match d.callee
    case Literal(body) => var (v, s1) := EvalOpt(I, d.arg, r, s); (Pending(d, body, v, s1.vars, r, false), s1)
    case Name(body) => var (v, s1) := EvalOpt(I, d.arg, r, s); (Pending(d, body, v, s1.vars, r, false), s1)
    case _ =>
      var (c, s1) := (I.eval)(d.callee.f, r, s);
      var (v, s2) := EvalOpt(I, d.arg, r, s1);
      (Pending(d, (I.code)(c), v, s2.vars, r, false), s2)
  }

  datatype GState<H, V> = G(s: Store<H, V>, r: int, defers: seq<Pending<V>>)

  /** Done carries the value of an unnamed result; a named one is assigned. */
  datatype Out<H, V> = Norm(g: GState<H, V>) | Done(v: Option<int>, g: GState<H, V>) | Panicked(msg: int, g: GState<H, V>) | OutOfFuel

  function Exec<H, V>(I: Interp<H, V>, k: Kind, st: Stmt, g: GState<H, V>, fuel: nat): Out<H, V>
    decreases fuel, st, 2
  {
    match st
    case Act(a) => Norm(g.(s := (I.act)(a, g.s)))
    case Use(a) => Norm(g.(s := (I.use)(a, g.r, g.s)))
    case Set(e) => var (v, s') := (I.eval)(e, g.r, g.s); Norm(g.(s := s', r := v))
    case If(c, thn, els) =>
      var (b, s') := (I.test)(c, g.s);
      if b then ExecList(I, k, thn, g.(s := s'), fuel) else ExecList(I, k, els, g.(s := s'), fuel)
    case While(_, _) => ExecWhile(I, k, st, g, fuel)
    case Defer(d) => var (p, s') := GoRegister(I, d, g.r, g.s); Norm(G(s', g.r, g.defers + [p]))
    case Panic(e) => var (v, s') := (I.eval)(e, g.r, g.s); Panicked(v, g.(s := s'))
    case Return(e, _) =>
      var (v, s') := EvalOpt(I, e, g.r, g.s);
      if k == Named then Done(None, g.(s := s', r := if v.Some? then v.value else g.r)) else Done(v, g.(s := s'))
  }

  function ExecList<H, V>(I: Interp<H, V>, k: Kind, sts: seq<Stmt>, g: GState<H, V>, fuel: nat): Out<H, V>
    decreases fuel, sts, 1
  {
    if sts == [] then Norm(g) else
    match Exec(I, k, sts[0], g, fuel)
    case Norm(g') => ExecList(I, k, sts[1..], g', fuel)
    case o => o
  }

  function ExecWhile<H, V>(I: Interp<H, V>, k: Kind, st: Stmt, g: GState<H, V>, fuel: nat): Out<H, V>
    requires st.While?
    decreases fuel, st, 1
  {
    if fuel == 0 then OutOfFuel else
    var (b, s1) := (I.test)(st.c, g.s);
    if !b then Norm(g.(s := s1)) else
    match ExecList(I, k, st.body, g.(s := s1), fuel)
    case Norm(g') => ExecWhile(I, k, st, g', fuel - 1)
    case o => o
  }

  /** A function on its way out: its state, its result, and the panic in progress. */
  datatype Leaving<H, V> = Leaving(s: Store<H, V>, r: int, panic: Option<int>)

  /** One deferred body. recover() returns the panic in progress and ends it. */
  function GoBody<H, V>(I: Interp<H, V>, body: seq<DStmt>, l: Leaving<H, V>): Leaving<H, V>
    decreases body, 0
  {
    if body == [] then l else GoBody(I, body[1..], GoStep(I, body[0], l))
  }

  function GoStep<H, V>(I: Interp<H, V>, d: DStmt, l: Leaving<H, V>): Leaving<H, V>
    decreases d, 1
  {
    match d
    case DAct(a, h) => l.(s := DoAct(I, a, h, l.s))
    case DWait(a, h) => l.(s := DoAct(I, a, h, l.s))
    case DUse(a, h) => l.(s := DoUse(I, a, h, l.r, l.s))
    case DSet(e, h) => var (v, s') := DoEval(I, e, h, l.r, l.s); l.(s := s', r := v)
    case DRecover(x, h) => Leaving(DoGive(I, x, h, l.panic, l.s), l.r, None)
    case DIf(c, h, thn, els) =>
      var (b, s') := DoTest(I, c, h, l.s);
      if b then GoBody(I, thn, l.(s := s')) else GoBody(I, els, l.(s := s'))
  }

  function GoCall<H, V>(I: Interp<H, V>, p: Pending<V>, l: Leaving<H, V>): Leaving<H, V> {
    GoBody(I, p.code, l.(s := BindOpt(I, p.d.param, p.v, l.s)))
  }

  /** The registered calls, last in first out. */
  function GoDefers<H, V>(I: Interp<H, V>, ds: seq<Pending<V>>, l: Leaving<H, V>): Leaving<H, V> {
    if ds == [] then l else GoDefers(I, ds[..|ds|-1], GoCall(I, ds[|ds|-1], l))
  }

  /** What the caller sees: the function's own variables are gone. Undefined stands for a
      function that names one of them after its end. */
  datatype Answer<H> = Returned(v: Option<int>, world: H) | Unwound(msg: int, world: H) | NoAnswer | Undefined

  /** The answer of a function that is through with its deferred calls; v is the value
      of an unnamed result. */
  function GoLeave<H, V>(k: Kind, v: Option<int>, l: Leaving<H, V>): Answer<H> {
    if l.panic.Some? then Unwound(l.panic.value, l.s.world)
    else Returned(match k case Void => None case Unnamed => v case Named => Some(l.r), l.s.world)
  }

  /** What a body that ends so makes of its function. */
  function GoEnd<H, V>(I: Interp<H, V>, k: Kind, o: Out<H, V>): Answer<H> {
    match o
    case Norm(g) => GoLeave(k, Some(0), GoDefers(I, g.defers, Leaving(g.s, g.r, None)))
    case Done(v, g) => GoLeave(k, v, GoDefers(I, g.defers, Leaving(g.s, g.r, None)))
    case Panicked(m, g) => GoLeave(k, Some(0), GoDefers(I, g.defers, Leaving(g.s, g.r, Some(m))))
    case OutOfFuel => NoAnswer
  }

  function GoFunction<H, V>(I: Interp<H, V>, k: Kind, body: seq<Stmt>, s: Store<H, V>, fuel: nat): Answer<H> {
    GoEnd(I, k, ExecList(I, k, body, G(s, 0, []), fuel))
  }

  // ---- C++ -----------------------------------------------------------------------------

  datatype Cpp =
    | CAct(a: nat)
    | CUse(a: nat)
    | CSet(e: nat)
    | CIf(c: nat, thn: seq<Cpp>, els: seq<Cpp>)
    | CWhile(c: nat, body: seq<Cpp>)
    | CPush(d: Deferred)
    | CRaise
    | CPending(e: nat)
    | CGotoEnd
    | CRunAll
    | CReturn(value: Option<nat>)
    | CReturnZero
    | CReturnResult

  /** A defer statement evaluates the argument, but no function value. A waiting literal is
      pushed without its call. */
  function CRegister<H, V>(I: Interp<H, V>, d: Deferred, r: int, s: Store<H, V>): (Pending<V>, Store<H, V>) {
    var (v, s') := if Awaited(d) then (None, s) else EvalOpt(I, d.arg, r, s);
    (Pending(d, CodeOf(d), v, s'.vars, r, false), s')
  }

  datatype PanicFrame = PanicFrame(hasPending: bool, pending: int, recovered: bool)

  /** The activation: the named result, the panic frame, the defer list, the calls the list
      has run so far, and whether a variable has been named after its end. */
  datatype CState<H, V> = C(s: Store<H, V>, r: int, pf: PanicFrame, fns: seq<Pending<V>>, ran: seq<Pending<V>>, ub: bool)

  const NO_PANIC := PanicFrame(false, 0, false)

  datatype COut<H, V> = CNorm(t: CState<H, V>) | CEnd(t: CState<H, V>) | CRet(v: Option<int>, t: CState<H, V>) | CFuel

  /** recover(). */
  function Recover(pf: PanicFrame): (Option<int>, PanicFrame) {
    if pf.hasPending then (Some(pf.pending), PanicFrame(false, pf.pending, true)) else (None, pf)
  }

  /** Which variables of the function are left when a deferred body runs: all, all but those
      of left blocks, or the parameters only. */
  datatype Alive = All | NoInner | OnlyParams

  predicate Lost(h: Home, alive: Alive) { (h == Inner && alive != All) || (h == Local && alive == OnlyParams) }

  function CBody<H, V>(I: Interp<H, V>, body: seq<DStmt>, alive: Alive, t: CState<H, V>): (u: CState<H, V>)
    ensures u.fns == t.fns && u.ran == t.ran
    decreases body, 0
  {
    if body == [] then t else CBody(I, body[1..], alive, CStep(I, body[0], alive, t))
  }

  function CStep<H, V>(I: Interp<H, V>, d: DStmt, alive: Alive, t0: CState<H, V>): (u: CState<H, V>)
    ensures u.fns == t0.fns && u.ran == t0.ran
    decreases d, 1
  {
    var t := t0.(ub := t0.ub || Lost(d.h, alive));
    match d
    case DAct(a, h) => t.(s := DoAct(I, a, h, t.s))
    case DWait(a, h) => t.(s := DoAct(I, a, h, t.s))
    case DUse(a, h) => t.(s := DoUse(I, a, h, t.r, t.s))
    case DSet(e, h) => var (v, s') := DoEval(I, e, h, t.r, t.s); t.(s := s', r := v)
    case DRecover(x, h) => var (m, pf) := Recover(t.pf); t.(s := DoGive(I, x, h, m, t.s), pf := pf)
    case DIf(c, h, thn, els) =>
      var (b, s') := DoTest(I, c, h, t.s);
      if b then CBody(I, thn, alive, t.(s := s')) else CBody(I, els, alive, t.(s := s'))
  }

  /** A waiting literal runs on its copies. From the destructor it runs as a goroutine of its
      own, which has no panic to recover. */
  function CAwait<H, V>(I: Interp<H, V>, p: Pending<V>, dead: bool, t: CState<H, V>): (u: CState<H, V>)
    ensures u.fns == t.fns && u.ran == t.ran
  {
    var c := CBody(I, p.code, All, t.(s := Store(t.s.world, p.vars), r := p.r, pf := if dead then NO_PANIC else t.pf));
    c.(s := Store(c.s.world, t.s.vars), r := t.r, pf := if dead then t.pf else c.pf)
  }

  /** What a pushed call runs, with its argument. Unless the callee is a name the function
      value is evaluated here and not where the call was pushed; but for a stored one so is
      the argument, because the whole call has been emitted. */
  function CEnter<H, V>(I: Interp<H, V>, p: Pending<V>, r: int, s: Store<H, V>): (seq<DStmt>, Option<int>, Store<H, V>) {
    match p.d.callee
    case Name(_) => (p.code, p.v, s)
    case Stored(f) => var (c, s1) := (I.eval)(f, r, s); ((I.code)(c), p.v, s1)
    case _ => var (q, s1) := GoRegister(I, p.d, r, s); (q.code, q.v, s1)
  }

  /** Running a pushed call. */
  function CCall<H, V>(I: Interp<H, V>, p: Pending<V>, dead: bool, t: CState<H, V>): (u: CState<H, V>)
    ensures u.fns == t.fns && u.ran == t.ran
  {
    if Abandoned(p.d) then t else if Awaited(p.d) then CAwait(I, p, dead, t) else
    var (body, v, s1) := CEnter(I, p, t.r, t.s);
    CBody(I, body, if dead then OnlyParams else if p.gone then NoInner else All, t.(s := BindOpt(I, p.d.param, v, s1)))
  }

  /** DeferList::RunAll: pop and run until the list is empty; dead if its destructor does. */
  function RunAll<H, V>(I: Interp<H, V>, dead: bool, t: CState<H, V>): (u: CState<H, V>)
    ensures u.fns == []
    decreases |t.fns|
  {
    if t.fns == [] then t else
    var p := t.fns[|t.fns|-1];
    var ran := if Abandoned(p.d) then t.ran else t.ran + [p];
    RunAll(I, dead, CCall(I, p, dead, t.(fns := t.fns[..|t.fns|-1], ran := ran)))
  }

  /** Control leaves a block by its end or by the jump to the end label: the calls that name
      its variables have lost them. A return inside it runs the list first or not at all. */
  function Leave<V>(n: nat, fns: seq<Pending<V>>): seq<Pending<V>> {
    seq(|fns|, i requires 0 <= i < |fns| => if n <= i && Has(NamesInner, fns[i].code) then fns[i].(gone := true) else fns[i])
  }

  function LeaveBlock<H, V>(n: nat, o: COut<H, V>): COut<H, V> {
    match o
    case CNorm(t) => CNorm(t.(fns := Leave(n, t.fns)))
    case CEnd(t) => CEnd(t.(fns := Leave(n, t.fns)))
    case _ => o
  }

  function ExecCpp<H, V>(I: Interp<H, V>, c: Cpp, t: CState<H, V>, fuel: nat): COut<H, V>
    decreases fuel, c, 2
  {
    match c
    case CAct(a) => CNorm(t.(s := (I.act)(a, t.s)))
    case CUse(a) => CNorm(t.(s := (I.use)(a, t.r, t.s)))
    case CSet(e) => var (v, s') := (I.eval)(e, t.r, t.s); CNorm(t.(s := s', r := v))
    case CIf(c, thn, els) =>
      var (b, s') := (I.test)(c, t.s);
      LeaveBlock(|t.fns|, if b then ExecCpps(I, thn, t.(s := s'), fuel) else ExecCpps(I, els, t.(s := s'), fuel))
    case CWhile(_, _) => ExecCWhile(I, c, t, fuel)
    case CPush(d) => var (p, s') := CRegister(I, d, t.r, t.s); CNorm(t.(s := s', fns := t.fns + [p]))
    case CRaise => CNorm(t.(pf := t.pf.(hasPending := true)))
    case CPending(e) => var (v, s') := (I.eval)(e, t.r, t.s); CNorm(t.(s := s', pf := t.pf.(pending := v)))
    case CGotoEnd => CEnd(t)
    case CRunAll => CNorm(RunAll(I, false, t))
    case CReturn(e) => var (v, s') := EvalOpt(I, e, t.r, t.s); CRet(v, t.(s := s'))
    case CReturnZero => CRet(Some(0), t)
    case CReturnResult => CRet(Some(t.r), t)
  }

  function ExecCpps<H, V>(I: Interp<H, V>, cs: seq<Cpp>, t: CState<H, V>, fuel: nat): COut<H, V>
    decreases fuel, cs, 1
  {
    if cs == [] then CNorm(t) else
    match ExecCpp(I, cs[0], t, fuel)
    case CNorm(t') => ExecCpps(I, cs[1..], t', fuel)
    case o => o
  }

  function ExecCWhile<H, V>(I: Interp<H, V>, c: Cpp, t: CState<H, V>, fuel: nat): COut<H, V>
    requires c.CWhile?
    decreases fuel, c, 1
  {
    if fuel == 0 then CFuel else
    var (b, s1) := (I.test)(c.c, t.s);
    if !b then CNorm(t.(s := s1)) else
    match LeaveBlock(|t.fns|, ExecCpps(I, c.body, t.(s := s1), fuel))
    case CNorm(t') => ExecCWhile(I, c, t', fuel - 1)
    case o => o
  }

  // ---- The emitter -----------------------------------------------------------------------

  /** EmitReturn; EmitReturnWithDefers for a named result. Inside a range-over-func loop
      the value goes through the escape variable and out by a plain return. */
  function LowerReturn(k: Kind, e: Option<nat>, inRange: bool): seq<Cpp> {
    if k == Named && !inRange then (if e.Some? then [CSet(e.value)] else []) + [CRunAll, CReturnResult]
    else if k == Named && e == None then [CReturnResult]
    else [CReturn(e)]
  }

  function Lower(k: Kind, st: Stmt): seq<Cpp>
    decreases st, 1
  {
    match st
    case Act(a) => [CAct(a)]
    case Use(a) => [CUse(a)]
    case Set(e) => [CSet(e)]
    case If(c, thn, els) => [CIf(c, LowerList(k, thn), LowerList(k, els))]
    case While(c, body) => [CWhile(c, LowerList(k, body))]
    case Defer(d) => [CPush(d)]
    case Panic(e) => [CRaise, CPending(e), CGotoEnd]
    case Return(e, inRange) => LowerReturn(k, e, inRange)
  }

  function LowerList(k: Kind, sts: seq<Stmt>): seq<Cpp>
    decreases sts, 0
  {
    if sts == [] then [] else Lower(k, sts[0]) + LowerList(k, sts[1..])
  }

  /** Some deferred call is of a waiting literal. */
  predicate HasAwaited(sts: seq<Stmt>)
    decreases sts, 0
  {
    sts != [] && (Awaiting(sts[0]) || HasAwaited(sts[1..]))
  }

  predicate Awaiting(st: Stmt)
    decreases st, 1
  {
    match st
    case If(_, thn, els) => HasAwaited(thn) || HasAwaited(els)
    case While(_, body) => HasAwaited(body)
    case Defer(d) => Awaited(d)
    case _ => false
  }

  /** What EmitWrappedBody puts behind the end label; awaits if some deferred call is of a
      waiting literal. */
  function Epilogue(k: Kind, awaits: bool): seq<Cpp> {
    match k
    case Named => [CRunAll, CReturnResult]
    case Unnamed => if awaits then [CRunAll, CReturnZero] else [CReturnZero]
    case Void => if awaits then [CRunAll] else []
  }

  /** The answer once the list is empty: the panic frame's destructor. */
  function Ended<H, V>(v: Option<int>, u: CState<H, V>): Answer<H> {
    if u.ub then Undefined
    else if u.pf.hasPending && !u.pf.recovered then Unwound(u.pf.pending, u.s.world) else Returned(v, u.s.world)
  }

  /** The destructors of the body's variables, of the defer list and of the panic frame. */
  function Destroy<H, V>(I: Interp<H, V>, v: Option<int>, t: CState<H, V>): Answer<H> { Ended(v, RunAll(I, true, t)) }

  function Entry<H, V>(s: Store<H, V>): CState<H, V> { C(s, 0, NO_PANIC, [], [], false) }

  /** From the end of the emitted body to the return: the epilogue, unless it has returned
      already. */
  function ThenEpilogue<H, V>(I: Interp<H, V>, k: Kind, awaits: bool, c: COut<H, V>, fuel: nat): COut<H, V> {
    match c
    case CNorm(t) => ExecCpps(I, Epilogue(k, awaits), t, fuel)
    case CEnd(t) => ExecCpps(I, Epilogue(k, awaits), t, fuel)
    case o => o
  }

  /** The emitted body and epilogue, up to the return. */
  function CBeforeDestroy<H, V>(I: Interp<H, V>, k: Kind, body: seq<Stmt>, s: Store<H, V>, fuel: nat): COut<H, V> {
    ThenEpilogue(I, k, HasAwaited(body), ExecCpps(I, LowerList(k, body), Entry(s), fuel), fuel)
  }

  function ThenDestroy<H, V>(I: Interp<H, V>, c: COut<H, V>): Answer<H> {
    match c
    case CNorm(t) => Destroy(I, None, t)
    case CEnd(t) => Destroy(I, None, t)
    case CRet(v, t) => Destroy(I, v, t)
    case CFuel => NoAnswer
  }

  function CFunction<H, V>(I: Interp<H, V>, k: Kind, body: seq<Stmt>, s: Store<H, V>, fuel: nat): Answer<H> {
    ThenDestroy(I, CBeforeDestroy(I, k, body, s, fuel))
  }
}
