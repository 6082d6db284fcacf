/** Go's and C++'s operators, named group by group as the languages list them, and what the
    parser makes of an expression whose operators come from these groups. */
module OperatorGroups {
  import opened Precedence

  /** The binary operators from the group that binds least to the one that binds most. */
  function Groups(L: Lang): seq<set<Kind>> {
    match L
    case Go => [{OrOr}, {AndAnd}, {Eq, Neq, Lt, Leq, Gt, Geq}, {Plus, Minus, Pipe, Caret}, {Star, Slash, Percent, Shl, Shr, Amp, AndNot}]
    case Cpp => [{OrOr}, {AndAnd}, {Pipe}, {Caret}, {Amp}, {Eq, Neq}, {Lt, Leq, Gt, Geq}, {Shl, Shr}, {Plus, Minus}, {Star, Slash, Percent}]
  }

  predicate InGroup(L: Lang, k: Kind, i: nat) { i < |Groups(L)| && k in Groups(L)[i] }

  function Prefixes(L: Lang): set<Kind> {
    match L
    case Go => {Arrow, Not, Minus, Amp, Star, Plus, Caret}
    case Cpp => {Not, Minus, Amp, Star, Plus, Tilde, CoAwait}
  }

  /** Something that stands beside an operator without parentheses of its own around it. */
  predicate Operand(L: Lang, x: Expr) { !x.Binary? && Respects(L, x) }

  function Three(x: Expr, k: Kind, y: Expr, m: Kind, z: Expr): seq<Tok> { Yield(x) + [Sym(k)] + Yield(y) + [Sym(m)] + Yield(z) }

  lemma LevelOfGroup(L: Lang, k: Kind, i: nat)
    requires InGroup(L, k, i)
    ensures Prec(L, k) == i + 1
  {
    match L
    case Go => assert i == 0 || i == 1 || i == 2 || i == 3 || i == 4;
    case Cpp => assert i == 0 || i == 1 || i == 2 || i == 3 || i == 4 || i == 5 || i == 6 || i == 7 || i == 8 || i == 9;
  }

  lemma GroupOfLevel(L: Lang, k: Kind)
    requires Prec(L, k) > 0
    ensures InGroup(L, k, Prec(L, k) - 1)
  {
  }

  lemma NoGroup(L: Lang, k: Kind)
    requires forall i :: 0 <= i < |Groups(L)| ==> k !in Groups(L)[i]
    ensures Prec(L, k) == 0
  {
    if Prec(L, k) > 0 { GroupOfLevel(L, k); }
  }

  lemma OperandLevel(L: Lang, x: Expr)
    requires Operand(L, x)
    ensures Level(L, x) >= UNARY
  {
  }

  lemma Node(L: Lang, op: Kind, x: Expr, y: Expr)
    requires Prec(L, op) > 0 && Respects(L, x) && Respects(L, y) && Level(L, x) >= Prec(L, op) && Level(L, y) > Prec(L, op)
    ensures Respects(L, Binary(op, x, y)) && Level(L, Binary(op, x, y)) == Prec(L, op)
    ensures Yield(Binary(op, x, y)) == Yield(x) + [Sym(op)] + Yield(y)
  {
  }

  lemma RightTree(L: Lang, x: Expr, k: Kind, y: Expr, m: Kind, z: Expr)
    requires 0 < Prec(L, k) < Prec(L, m) && Operand(L, x) && Operand(L, y) && Operand(L, z)
    ensures var e := Binary(k, x, Binary(m, y, z)); Yield(e) == Three(x, k, y, m, z) && Respects(L, e)
  {
    OperandLevel(L, x);
    OperandLevel(L, y);
    OperandLevel(L, z);
    Node(L, m, y, z);
    Node(L, k, x, Binary(m, y, z));
    Regrouped(x, k, y, [Sym(m)] + Yield(z));
  }

  lemma LeftTree(L: Lang, x: Expr, k: Kind, y: Expr, m: Kind, z: Expr)
    requires 0 < Prec(L, m) <= Prec(L, k) && Operand(L, x) && Operand(L, y) && Operand(L, z)
    ensures var e := Binary(m, Binary(k, x, y), z); Yield(e) == Three(x, k, y, m, z) && Respects(L, e)
  {
    OperandLevel(L, x);
    OperandLevel(L, y);
    OperandLevel(L, z);
    Node(L, k, x, y);
    Node(L, m, Binary(k, x, y), z);
  }

  /** Of two operators the one from the later group takes the operand between them, whichever
      of them comes first. */
  lemma LaterGroupBindsTighter(L: Lang, x: Expr, k: Kind, y: Expr, m: Kind, z: Expr, i: nat, j: nat)
    requires InGroup(L, k, i) && InGroup(L, m, j) && i < j && Operand(L, x) && Operand(L, y) && Operand(L, z)
    ensures ParseAll(L, Three(x, k, y, m, z)) == Ok(Binary(k, x, Binary(m, y, z)), [])
    ensures ParseAll(L, Three(x, m, y, k, z)) == Ok(Binary(k, Binary(m, x, y), z), [])
  {
    LevelOfGroup(L, k, i);
    LevelOfGroup(L, m, j);
    RightTree(L, x, k, y, m, z);
    LeftTree(L, x, m, y, k, z);
    ParsesExactly(L, Three(x, k, y, m, z), Binary(k, x, Binary(m, y, z)));
    ParsesExactly(L, Three(x, m, y, k, z), Binary(k, Binary(m, x, y), z));
  }

  /** Of two operators of one group the first takes it. */
  lemma OneGroupGoesLeft(L: Lang, x: Expr, k: Kind, y: Expr, m: Kind, z: Expr, i: nat)
    requires InGroup(L, k, i) && InGroup(L, m, i) && Operand(L, x) && Operand(L, y) && Operand(L, z)
    ensures ParseAll(L, Three(x, k, y, m, z)) == Ok(Binary(m, Binary(k, x, y), z), [])
  {
    LevelOfGroup(L, k, i);
    LevelOfGroup(L, m, i);
    LeftTree(L, x, k, y, m, z);
    ParsesExactly(L, Three(x, k, y, m, z), Binary(m, Binary(k, x, y), z));
  }

  /** A token of no group ends the expression, whatever comes behind it. */
  lemma OthersEndIt(L: Lang, x: Expr, k: Kind, rest: seq<Tok>)
    requires Operand(L, x) && forall i :: 0 <= i < |Groups(L)| ==> k !in Groups(L)[i]
    ensures ParseBinary(L, Yield(x) + ([Sym(k)] + rest), 1) == Ok(x, [Sym(k)] + rest)
  {
    NoGroup(L, k);
    BinaryFinds(L, x, [Sym(k)] + rest, 1);
    StopsAt(L, x, [Sym(k)] + rest, 1);
  }

  /** An operand with an operator in front of it is an expression exactly if the operator is a
      prefix operator. */
  lemma PrefixesExactly(L: Lang, k: Kind, x: Expr)
    requires Operand(L, x)
    ensures ParseAll(L, [Sym(k)] + Yield(x)) == if k in Prefixes(L) then Ok(Unary(k, x), []) else Fail
  {
    var ts := [Sym(k)] + Yield(x);
    if k in Prefixes(L) {
      ParsesExactly(L, ts, Unary(k, x));
    } else {
      assert ts[0] == Sym(k) && ParseUnary(L, ts) == Fail;
      assert ParseBinary(L, ts, 1) == Fail;
    }
  }
}
