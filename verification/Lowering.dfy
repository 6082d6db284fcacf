/** The emission of switches, loops, break and continue as labels and gotos. */
module Lowering {
  import opened Wrappers
  import opened ControlFlow

  /** One entry of the jump stack: a loop, or the switch with the given number. */
  datatype Frame = Loop(name: Option<Name>) | Sw(name: Option<Name>, id: nat)

  datatype Lowered = Ok(code: seq<Cpp>, next: nat) | Rejected

  /** The label a break out of the frame goes to; an unlabelled loop has none. */
  function BreakLabel(f: Frame): Option<Lbl> {
    match f
    case Loop(Some(n)) => Some(BrkOf(n))
    case Loop(None) => None
    case Sw(_, id) => Some(EndOf(id))
  }

  /** The innermost frame with the given name; the stack's top is its last entry. */
  function Named(J: seq<Frame>, n: Name): Option<Frame> {
    if J == [] then None
    else if J[|J|-1].name == Some(n) then Some(J[|J|-1]) else Named(J[..|J|-1], n)
  }

  /** The innermost loop, of the given name if there is one. */
  function InnerLoop(J: seq<Frame>, n: Option<Name>): Option<Frame> {
    if J == [] then None
    else if J[|J|-1].Loop? && (n == None || J[|J|-1].name == n) then Some(J[|J|-1]) else InnerLoop(J[..|J|-1], n)
  }

  /** EmitBreak. */
  function LowerBreak(l: Option<Name>, J: seq<Frame>): Option<Cpp> {
    match l
    case Some(n) =>
      (match Named(J, n)
       case Some(f) => if BreakLabel(f).Some? then Some(CGoto(BreakLabel(f).value)) else None
       case None => None)
    case None =>
      if J != [] && BreakLabel(J[|J|-1]).Some? then Some(CGoto(BreakLabel(J[|J|-1]).value)) else Some(CBreak)
  }

  /** EmitContinue. */
  function LowerContinue(l: Option<Name>, J: seq<Frame>): Option<Cpp> {
    match InnerLoop(J, l)
    case Some(f) => if f.name.Some? then Some(CGoto(CntOf(f.name.value))) else Some(CContinue)
    case None => None
  }

  function LabelOf(n: Option<Name>): seq<Cpp> {
    if n.Some? then [CLabel(User(n.value))] else []
  }

  function ActOf(a: Option<nat>): seq<Cpp> {
    if a.Some? then [CAct(a.value)] else []
  }

  /** EmitForCond, EmitForInfinite and EmitForClassic: with a label, the post statement
      moves behind the continue label at the end of the body. */
  function LoopCode(st: Stmt, body: seq<Cpp>): seq<Cpp>
    requires st.For?
  {
    match st.lab
    case Some(n) =>
      [CLabel(User(n)), CFor(st.init, st.cond, None, body + ([CLabel(CntOf(n))] + ActOf(st.post))), CLabel(BrkOf(n))]
    case None => [CFor(st.init, st.cond, st.post, body)]
  }

  /** The tests of the cases from i on, then the jump to the default or the end. */
  function Tests(cases: seq<Case>, i: nat, tag: Option<nat>, id: nat): seq<Cpp>
    requires i <= |cases|
    decreases |cases| - i
  {
    if i == |cases| then [CGoto(if Default(cases) < |cases| then CaseOf(id, Default(cases)) else EndOf(id))]
    else if cases[i].values == [] then Tests(cases, i + 1, tag, id)
    else [CGotoIf(tag, cases[i].values, CaseOf(id, i))] + Tests(cases, i + 1, tag, id)
  }

  function SwitchCode(st: Stmt, bodies: seq<Cpp>, id: nat): seq<Cpp>
    requires st.Switch?
  {
    var decl := if st.tag.Some? then [CSet(id, st.tag.value)] else [];
    var flat := decl + (Tests(st.cases, 0, if st.tag.Some? then Some(id) else None, id) + (bodies + [CLabel(EndOf(id))]));
    LabelOf(st.swLabel) + (if st.swInit.Some? then [CBlock([CAct(st.swInit.value)] + flat)] else flat)
  }

  /** EmitStmt: the code for a statement under jump stack J, and the next free number. */
  function Lower(st: Stmt, J: seq<Frame>, id: nat): (r: Lowered)
    ensures r.Ok? ==> id <= r.next
    decreases st, 3
  {
    match st
    case Act(a) => Ok([CAct(a)], id)
    case Block(body) =>
      (match LowerList(body, J, id) case Ok(code, k) => Ok([CBlock(code)], k) case Rejected => Rejected)
    case If(c, thn, els) =>
      (match LowerList(thn, J, id)
       case Rejected => Rejected
       case Ok(code, k) =>
         match LowerList(els, J, k)
         case Rejected => Rejected
         case Ok(code', k') => Ok([CIf(c, code, code')], k'))
    case For(lab, _, _, _, body) =>
      (match LowerList(body, J + [Loop(lab)], id)
       case Ok(code, k) => Ok(LoopCode(st, code), k)
       case Rejected => Rejected)
    case Switch(lab, _, _, cases) =>
      (match LowerCases(cases, 0, J + [Sw(lab, id)], id, id + 1)
       case Ok(code, k) => Ok(SwitchCode(st, code, id), k)
       case Rejected => Rejected)
    case Break(l) => if LowerBreak(l, J).Some? then Ok([LowerBreak(l, J).value], id) else Rejected
    case Continue(l) => if LowerContinue(l, J).Some? then Ok([LowerContinue(l, J).value], id) else Rejected
    case Fallthrough => Rejected
  }

  function LowerList(sts: seq<Stmt>, J: seq<Frame>, id: nat): (r: Lowered)
    ensures r.Ok? ==> id <= r.next
    decreases sts, 2
  {
    if sts == [] then Ok([], id) else
    match Lower(sts[0], J, id)
    case Rejected => Rejected
    case Ok(code, k) =>
      match LowerList(sts[1..], J, k)
      case Rejected => Rejected
      case Ok(rest, k') => Ok(code + rest, k')
  }

  /** EmitSwitch's body loop, from case i on: a label and a braced body each, ending in
      a jump to the next case or to the end. */
  function LowerCases(cases: seq<Case>, i: nat, J: seq<Frame>, id: nat, next: nat): (r: Lowered)
    requires i <= |cases|
    ensures r.Ok? ==> next <= r.next
    decreases cases, |cases| - i
  {
    if i == |cases| then Ok([], next) else
    var c := cases[i];
    if EndsWithFallthrough(c) && i + 1 == |cases| then Rejected else
    match LowerList(Proper(c), J, next)
    case Rejected => Rejected
    case Ok(body, k) =>
      match LowerCases(cases, i + 1, J, id, k)
      case Rejected => Rejected
      case Ok(rest, k') =>
        var exit := CGoto(if EndsWithFallthrough(c) then CaseOf(id, i + 1) else EndOf(id));
        Ok([CLabel(CaseOf(id, i)), CBlock(body + [exit])] + rest, k')
  }
}
