/** Expressions with binary operators: the precedence-climbing parser, over Go's table and
    over C++'s, against the grammar it is to follow. */
module Precedence {

  datatype Lang = Go | Cpp

  datatype Kind =
    | OrOr | AndAnd | Eq | Neq | Lt | Leq | Gt | Geq | Plus | Minus | Pipe | Caret | Star | Slash | Percent | Shl | Shr
    | Amp | AndNot | Not | Arrow | Tilde | CoAwait

  /** An atom is an operand of one piece: a name, a literal, a call. */
  datatype Tok = Atom(n: nat) | Suffix(n: nat) | Sym(k: Kind) | LParen | RParen

  datatype Expr = Leaf(n: nat) | Paren(x: Expr) | Postfix(x: Expr, n: nat) | Unary(op: Kind, x: Expr) | Binary(op: Kind, x: Expr, y: Expr)

  /** BinaryPrec for Go; the order of the C++ standard's expression grammar for C++. */
  function Prec(L: Lang, k: Kind): (p: nat)
    ensures p <= 10
  {
    match L
    case Go =>
      (match k
       case OrOr => 1
       case AndAnd => 2
       case Eq | Neq | Lt | Leq | Gt | Geq => 3
       case Plus | Minus | Pipe | Caret => 4
       case Star | Slash | Percent | Shl | Shr | Amp | AndNot => 5
       case _ => 0)
    case Cpp =>
      match k
      case OrOr => 1
      case AndAnd => 2
      case Pipe => 3
      case Caret => 4
      case Amp => 5
      case Eq | Neq => 6
      case Lt | Leq | Gt | Geq => 7
      case Shl | Shr => 8
      case Plus | Minus => 9
      case Star | Slash | Percent => 10
      case _ => 0
  }

  predicate IsUnary(L: Lang, k: Kind) {
    match L
    case Go => k in {Arrow, Not, Minus, Amp, Star, Plus, Caret}
    case Cpp => k in {Not, Minus, Amp, Star, Plus, Tilde, CoAwait}
  }

  // ---- The grammar -----------------------------------------------------------------------

  /** The tokens of a tree from left to right. */
  function Yield(e: Expr): (ts: seq<Tok>)
    ensures ts != []
  {
    match e
    case Leaf(n) => [Atom(n)]
    case Paren(x) => [LParen] + Yield(x) + [RParen]
    case Postfix(x, n) => Yield(x) + [Suffix(n)]
    case Unary(op, x) => [Sym(op)] + Yield(x)
    case Binary(op, x, y) => Yield(x) + [Sym(op)] + Yield(y)
  }

  const UNARY := 20
  const POSTFIX := 21

  /** How tightly a tree's root holds together. */
  function Level(L: Lang, e: Expr): nat {
    match e
    case Binary(op, _, _) => Prec(L, op)
    case Unary(_, _) => UNARY
    case _ => POSTFIX
  }

  /** The tree respects the table: operators of one level associate to the left, and an
      operand that binds less tightly than its operator stands in parentheses. */
  predicate Respects(L: Lang, e: Expr) {
    match e
    case Leaf(_) => true
    case Paren(x) => Respects(L, x)
    case Postfix(x, _) => Respects(L, x) && Level(L, x) == POSTFIX
    case Unary(op, x) => IsUnary(L, op) && Respects(L, x) && Level(L, x) >= UNARY
    case Binary(op, x, y) =>
      Prec(L, op) > 0 && Respects(L, x) && Respects(L, y) && Level(L, x) >= Prec(L, op) && Level(L, y) > Prec(L, op)
  }

  // ---- The parser --------------------------------------------------------------------------

  datatype Parsed = Ok(e: Expr, rest: seq<Tok>) | Fail

  function ParseBinary(L: Lang, ts: seq<Tok>, min: nat): (r: Parsed)
    ensures r.Ok? ==> |r.rest| < |ts|
    decreases |ts|, 3
  {
    match ParseUnary(L, ts)
    case Fail => Fail
    case Ok(lhs, rest) => ParseOperators(L, lhs, rest, min)
  }

  predicate Continues(L: Lang, ts: seq<Tok>, min: nat) {
    ts != [] && ts[0].Sym? && Prec(L, ts[0].k) > 0 && Prec(L, ts[0].k) >= min
  }

  function ParseOperators(L: Lang, lhs: Expr, ts: seq<Tok>, min: nat): (r: Parsed)
    ensures r.Ok? ==> |r.rest| <= |ts|
    decreases |ts|, 4
  {
    if !Continues(L, ts, min) then Ok(lhs, ts) else
    match ParseBinary(L, ts[1..], Prec(L, ts[0].k) + 1)
    case Fail => Fail
    case Ok(rhs, rest) => ParseOperators(L, Binary(ts[0].k, lhs, rhs), rest, min)
  }

  function ParseUnary(L: Lang, ts: seq<Tok>): (r: Parsed)
    ensures r.Ok? ==> |r.rest| < |ts|
    decreases |ts|, 2
  {
    if ts != [] && ts[0].Sym? && IsUnary(L, ts[0].k) then
      match ParseUnary(L, ts[1..])
      case Fail => Fail
      case Ok(x, rest) => Ok(Unary(ts[0].k, x), rest)
    else
      match ParsePrimary(L, ts)
      case Fail => Fail
      case Ok(x, rest) => ParseSuffixes(x, rest)
  }

  function ParseSuffixes(x: Expr, ts: seq<Tok>): (r: Parsed)
    ensures r.Ok? && |r.rest| <= |ts|
    decreases |ts|
  {
    if ts != [] && ts[0].Suffix? then ParseSuffixes(Postfix(x, ts[0].n), ts[1..]) else Ok(x, ts)
  }

  function ParsePrimary(L: Lang, ts: seq<Tok>): (r: Parsed)
    ensures r.Ok? ==> |r.rest| < |ts|
    decreases |ts|, 1
  {
    if ts == [] then Fail
    else if ts[0].Atom? then Ok(Leaf(ts[0].n), ts[1..])
    else if ts[0] != LParen then Fail
    else
      match ParseBinary(L, ts[1..], 1)
      case Ok(x, rest) => if rest != [] && rest[0] == RParen then Ok(Paren(x), rest[1..]) else Fail
      case Fail => Fail
  }

  /** A whole expression, up to the last token. */
  function ParseAll(L: Lang, ts: seq<Tok>): Parsed {
    var r := ParseBinary(L, ts, 1);
    if r.Ok? && r.rest == [] then r else Fail
  }

  // ---- What it returns -----------------------------------------------------------------------

  /** r is a tree over the tokens read that respects the table. */
  ghost predicate Right(L: Lang, ts: seq<Tok>, r: Parsed) {
    r.Ok? && ts == Yield(r.e) + r.rest && Respects(L, r.e)
  }

  lemma {:induction false} BinaryIsRight(L: Lang, ts: seq<Tok>, min: nat)
    requires ParseBinary(L, ts, min).Ok? && min <= UNARY
    ensures var r := ParseBinary(L, ts, min); Right(L, ts, r) && Level(L, r.e) >= min && !Continues(L, r.rest, min)
    decreases |ts|, 3
  {
    var u := ParseUnary(L, ts);
    UnaryIsRight(L, ts);
    OperatorsAreRight(L, u.e, u.rest, min);
  }

  lemma {:induction false} OperatorsAreRight(L: Lang, lhs: Expr, ts: seq<Tok>, min: nat)
    requires ParseOperators(L, lhs, ts, min).Ok? && min <= UNARY
    requires Respects(L, lhs) && Level(L, lhs) >= min && !Continues(L, ts, Level(L, lhs) + 1)
    ensures var r := ParseOperators(L, lhs, ts, min);
      Right(L, Yield(lhs) + ts, r) && Level(L, r.e) >= min && !Continues(L, r.rest, min)
    decreases |ts|, 4
  {
    if Continues(L, ts, min) {
      var op := ts[0].k;
      var y := ParseBinary(L, ts[1..], Prec(L, op) + 1);
      BinaryIsRight(L, ts[1..], Prec(L, op) + 1);
      assert ts == [Sym(op)] + ts[1..];
      Regrouped(lhs, op, y.e, y.rest);
      OperatorsAreRight(L, Binary(op, lhs, y.e), y.rest, min);
    }
  }

  lemma Regrouped(x: Expr, op: Kind, y: Expr, rest: seq<Tok>)
    ensures Yield(x) + ([Sym(op)] + (Yield(y) + rest)) == Yield(Binary(op, x, y)) + rest
  {
  }

  lemma {:induction false} UnaryIsRight(L: Lang, ts: seq<Tok>)
    requires ParseUnary(L, ts).Ok?
    ensures var r := ParseUnary(L, ts); Right(L, ts, r) && Level(L, r.e) >= UNARY
    decreases |ts|, 2
  {
    if ts != [] && ts[0].Sym? && IsUnary(L, ts[0].k) {
      var x := ParseUnary(L, ts[1..]);
      UnaryIsRight(L, ts[1..]);
      assert ts == [ts[0]] + ts[1..];
      Prefixed(ts[0].k, x.e, x.rest);
    } else {
      var x := ParsePrimary(L, ts);
      PrimaryIsRight(L, ts);
      SuffixesAreRight(L, x.e, x.rest);
    }
  }

  lemma Prefixed(op: Kind, x: Expr, rest: seq<Tok>)
    ensures [Sym(op)] + (Yield(x) + rest) == Yield(Unary(op, x)) + rest
  {
  }

  lemma {:induction false} SuffixesAreRight(L: Lang, x: Expr, ts: seq<Tok>)
    requires Respects(L, x) && Level(L, x) == POSTFIX
    ensures var r := ParseSuffixes(x, ts); Right(L, Yield(x) + ts, r) && Level(L, r.e) == POSTFIX
    decreases |ts|
  {
    if ts != [] && ts[0].Suffix? {
      SuffixesAreRight(L, Postfix(x, ts[0].n), ts[1..]);
      assert Yield(x) + ts == Yield(Postfix(x, ts[0].n)) + ts[1..];
    }
  }

  lemma {:induction false} PrimaryIsRight(L: Lang, ts: seq<Tok>)
    requires ParsePrimary(L, ts).Ok?
    ensures var r := ParsePrimary(L, ts); Right(L, ts, r) && Level(L, r.e) == POSTFIX
    decreases |ts|, 1
  {
    if ts[0] == LParen {
      var x := ParseBinary(L, ts[1..], 1);
      BinaryIsRight(L, ts[1..], 1);
      assert ts == [LParen] + ts[1..] && x.rest == [RParen] + x.rest[1..];
      Bracketed(Yield(x.e), x.rest[1..]);
    }
  }

  lemma Bracketed(a: seq<Tok>, rest: seq<Tok>)
    ensures [LParen] + (a + ([RParen] + rest)) == [LParen] + a + [RParen] + rest
  {
  }

  // ---- What it finds --------------------------------------------------------------------------

  predicate SuffixNext(ts: seq<Tok>) { ts != [] && ts[0].Suffix? }

  /** A tree of postfix level does not begin with an operator. */
  lemma {:induction false} PostfixStarts(L: Lang, e: Expr)
    requires Respects(L, e) && Level(L, e) == POSTFIX
    ensures !Yield(e)[0].Sym?
    decreases e
  {
    if e.Postfix? { PostfixStarts(L, e.x); }
  }

  /** Any tree that respects the table is what the parser makes of its tokens, up to
      whatever may follow. */
  lemma {:induction false} BinaryFinds(L: Lang, e: Expr, rest: seq<Tok>, min: nat)
    requires Respects(L, e) && Level(L, e) >= min && !Continues(L, rest, Level(L, e) + 1) && !SuffixNext(rest)
    ensures ParseBinary(L, Yield(e) + rest, min) == ParseOperators(L, e, rest, min)
    decreases e, 2
  {
    match e
    case Binary(op, x, y) =>
      var tail := [Sym(op)] + (Yield(y) + rest);
      assert Yield(e) + rest == Yield(x) + tail;
      assert tail[1..] == Yield(y) + rest;
      BinaryFinds(L, x, tail, min);
      BinaryFinds(L, y, rest, Prec(L, op) + 1);
      StopsAt(L, y, rest, Prec(L, op) + 1);
    case _ => UnaryFinds(L, e, rest);
  }

  lemma StopsAt(L: Lang, e: Expr, rest: seq<Tok>, min: nat)
    requires !Continues(L, rest, min)
    ensures ParseOperators(L, e, rest, min) == Ok(e, rest)
  {
  }

  lemma {:induction false} UnaryFinds(L: Lang, e: Expr, rest: seq<Tok>)
    requires Respects(L, e) && Level(L, e) >= UNARY && !SuffixNext(rest)
    ensures ParseUnary(L, Yield(e) + rest) == Ok(e, rest)
    decreases e, 1
  {
    if e.Unary? {
      assert (Yield(e) + rest)[1..] == Yield(e.x) + rest;
      UnaryFinds(L, e.x, rest);
    } else {
      PostfixStarts(L, e);
      PostfixFinds(L, e, rest);
    }
  }

  /** The primary at the start of a postfix tree, and its suffixes. */
  lemma {:induction false} PostfixFinds(L: Lang, e: Expr, rest: seq<Tok>)
    requires Respects(L, e) && Level(L, e) == POSTFIX
    ensures var p := ParsePrimary(L, Yield(e) + rest); p.Ok? && ParseSuffixes(p.e, p.rest) == ParseSuffixes(e, rest)
    decreases e, 0
  {
    match e
    case Leaf(n) => assert (Yield(e) + rest)[1..] == rest;
    case Paren(x) =>
      var tail := [RParen] + rest;
      assert Yield(e) + rest == [LParen] + (Yield(x) + tail);
      BinaryFinds(L, x, tail, 1);
      StopsAt(L, x, tail, 1);
      assert tail[1..] == rest;
    case Postfix(x, n) =>
      var tail := [Suffix(n)] + rest;
      assert Yield(e) + rest == Yield(x) + tail;
      PostfixFinds(L, x, tail);
      assert tail[1..] == rest;
  }

  // ---- The theorems ----------------------------------------------------------------------------

  lemma LevelPositive(L: Lang, e: Expr)
    requires Respects(L, e)
    ensures Level(L, e) >= 1
  {
  }

  /** The parser returns a tree exactly when it is a tree over all the tokens that respects
      the table. */
  lemma ParsesExactly(L: Lang, ts: seq<Tok>, e: Expr)
    ensures ParseAll(L, ts) == Ok(e, []) <==> Yield(e) == ts && Respects(L, e)
  {
    if ParseAll(L, ts) == Ok(e, []) {
      BinaryIsRight(L, ts, 1);
    }
    if Yield(e) == ts && Respects(L, e) {
      LevelPositive(L, e);
      assert Yield(e) + [] == ts;
      BinaryFinds(L, e, [], 1);
      StopsAt(L, e, [], 1);
    }
  }

  /** So there is at most one such tree. */
  lemma OneTreePerYield(L: Lang, e: Expr, f: Expr)
    requires Respects(L, e) && Respects(L, f) && Yield(e) == Yield(f)
    ensures e == f
  {
    ParsesExactly(L, Yield(e), e);
    ParsesExactly(L, Yield(f), f);
  }

  /** The tree without its parentheses. */
  function Strip(e: Expr): Expr {
    match e
    case Leaf(_) => e
    case Paren(x) => Strip(x)
    case Postfix(x, n) => Postfix(Strip(x), n)
    case Unary(op, x) => Unary(op, Strip(x))
    case Binary(op, x, y) => Binary(op, Strip(x), Strip(y))
  }

  predicate Operators(L: Lang, e: Expr) {
    match e
    case Leaf(_) => true
    case Paren(x) => Operators(L, x)
    case Postfix(x, _) => Operators(L, x)
    case Unary(op, x) => IsUnary(L, op) && Operators(L, x)
    case Binary(op, x, y) => Prec(L, op) > 0 && Operators(L, x) && Operators(L, y)
  }

  /** Printing any tree: parentheses only where the table asks for them. */
  function Parenthesize(L: Lang, e: Expr): Expr {
    match e
    case Leaf(_) => e
    case Paren(x) => Paren(Parenthesize(L, x))
    case Postfix(x, n) => Postfix(AtLeast(L, Parenthesize(L, x), POSTFIX), n)
    case Unary(op, x) => Unary(op, AtLeast(L, Parenthesize(L, x), UNARY))
    case Binary(op, x, y) =>
      Binary(op, AtLeast(L, Parenthesize(L, x), Prec(L, op)), AtLeast(L, Parenthesize(L, y), Prec(L, op) + 1))
  }

  function AtLeast(L: Lang, e: Expr, n: nat): Expr { if Level(L, e) >= n then e else Paren(e) }

  lemma {:induction false} ParenthesizeRespects(L: Lang, e: Expr)
    requires Operators(L, e)
    ensures Respects(L, Parenthesize(L, e)) && Strip(Parenthesize(L, e)) == Strip(e)
    decreases e
  {
    match e
    case Leaf(_) =>
    case Paren(x) => ParenthesizeRespects(L, x);
    case Postfix(x, _) => ParenthesizeRespects(L, x);
    case Unary(_, x) => ParenthesizeRespects(L, x);
    case Binary(_, x, y) =>
      ParenthesizeRespects(L, x);
      ParenthesizeRespects(L, y);
  }

  /** Parsing a printed tree gives the tree back. */
  lemma PrintThenParse(L: Lang, e: Expr)
    requires Operators(L, e)
    ensures var r := ParseAll(L, Yield(Parenthesize(L, e))); r.Ok? && r.e == Parenthesize(L, e) && Strip(r.e) == Strip(e)
  {
    ParenthesizeRespects(L, e);
    ParsesExactly(L, Yield(Parenthesize(L, e)), Parenthesize(L, e));
  }
}
