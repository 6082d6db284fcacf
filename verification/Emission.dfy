/** How expression trees are emitted: the token string written for C++, and the tree a C++
    compiler reads from it. */
module Emission {
  import opened Precedence
  import opened OperatorGroups

  /** The member call that receives from a channel. */
  const RECV := 0

  /** What EmitExpr writes: parentheses around every unary and binary expression, `~` for
      Go's unary `^`, `& ~` for its `&^`, and a call for a receive, awaited in a coroutine. */
  function Emit(e: Expr, async: bool): seq<Tok> {
    match e
    case Leaf(n) => [Atom(n)]
    case Paren(x) => [LParen] + Emit(x, async) + [RParen]
    case Postfix(x, n) => Emit(x, async) + [Suffix(n)]
    case Unary(op, x) =>
      if op == Arrow then
        var call := [LParen] + Emit(x, async) + [RParen] + [Suffix(RECV)];
        if async then [Sym(CoAwait)] + call else call
      else [LParen] + ([Sym(if op == Caret then Tilde else op)] + Emit(x, async)) + [RParen]
    case Binary(op, x, y) =>
      if op == AndNot then [LParen] + (Emit(x, async) + [Sym(Amp)] + ([Sym(Tilde)] + Emit(y, async))) + [RParen]
      else [LParen] + (Emit(x, async) + [Sym(op)] + Emit(y, async)) + [RParen]
  }

  /** The C++ expression a Go expression stands for. */
  function InCpp(e: Expr, async: bool): Expr {
    match e
    case Leaf(_) => e
    case Paren(x) => InCpp(x, async)
    case Postfix(x, n) => Postfix(InCpp(x, async), n)
    case Unary(op, x) =>
      var y := InCpp(x, async);
      if op == Arrow then (if async then Unary(CoAwait, Postfix(y, RECV)) else Postfix(y, RECV))
      else Unary(if op == Caret then Tilde else op, y)
    case Binary(op, x, y) =>
      if op == AndNot then Binary(Amp, InCpp(x, async), Unary(Tilde, InCpp(y, async)))
      else Binary(op, InCpp(x, async), InCpp(y, async))
  }

  /** The tree with the parentheses that are written. */
  function Written(e: Expr, async: bool): Expr {
    match e
    case Leaf(_) => e
    case Paren(x) => Paren(Written(x, async))
    case Postfix(x, n) => Postfix(Written(x, async), n)
    case Unary(op, x) =>
      var y := Written(x, async);
      if op == Arrow then (if async then Unary(CoAwait, Postfix(Paren(y), RECV)) else Postfix(Paren(y), RECV))
      else Paren(Unary(if op == Caret then Tilde else op, y))
    case Binary(op, x, y) =>
      if op == AndNot then Paren(Binary(Amp, Written(x, async), Unary(Tilde, Written(y, async))))
      else Paren(Binary(op, Written(x, async), Written(y, async)))
  }

  lemma {:induction false} WrittenYields(e: Expr, async: bool)
    ensures Yield(Written(e, async)) == Emit(e, async) && Strip(Written(e, async)) == InCpp(e, async)
    decreases e
  {
    match e
    case Leaf(_) =>
    case Paren(x) => WrittenYields(x, async);
    case Postfix(x, _) => WrittenYields(x, async);
    case Unary(op, x) =>
      WrittenYields(x, async);
      UnaryYields(op, x, async);
    case Binary(op, x, y) =>
      WrittenYields(x, async);
      WrittenYields(y, async);
      BinaryYields(op, x, y, async);
  }

  lemma UnaryYields(op: Kind, x: Expr, async: bool)
    requires Yield(Written(x, async)) == Emit(x, async) && Strip(Written(x, async)) == InCpp(x, async)
    ensures var e := Unary(op, x); Yield(Written(e, async)) == Emit(e, async) && Strip(Written(e, async)) == InCpp(e, async)
  {
    var w := Written(x, async);
    if op == Arrow {
      var call := Postfix(Paren(w), RECV);
      assert Yield(call) == [LParen] + Yield(w) + [RParen] + [Suffix(RECV)] && Strip(call) == Postfix(Strip(w), RECV);
    } else {
      var inner := Unary(if op == Caret then Tilde else op, w);
      assert Yield(inner) == [Sym(inner.op)] + Yield(w) && Strip(inner) == Unary(inner.op, Strip(w));
    }
  }

  lemma BinaryYields(op: Kind, x: Expr, y: Expr, async: bool)
    requires Yield(Written(x, async)) == Emit(x, async) && Strip(Written(x, async)) == InCpp(x, async)
    requires Yield(Written(y, async)) == Emit(y, async) && Strip(Written(y, async)) == InCpp(y, async)
    ensures var e := Binary(op, x, y); Yield(Written(e, async)) == Emit(e, async) && Strip(Written(e, async)) == InCpp(e, async)
  {
    var a, b := Written(x, async), Written(y, async);
    var inner := if op == AndNot then Binary(Amp, a, Unary(Tilde, b)) else Binary(op, a, b);
    assert Yield(Unary(Tilde, b)) == [Sym(Tilde)] + Yield(b) && Strip(Unary(Tilde, b)) == Unary(Tilde, Strip(b));
    assert Yield(inner) == Yield(inner.x) + [Sym(inner.op)] + Yield(inner.y);
    assert Strip(inner) == Binary(inner.op, Strip(inner.x), Strip(inner.y));
  }

  /** The emitted parentheses are all that C++'s different table needs. */
  lemma {:induction false} WrittenRespects(e: Expr, async: bool)
    requires Respects(Go, e)
    ensures Respects(Cpp, Written(e, async)) && Level(Cpp, Written(e, async)) >= UNARY
    ensures Level(Go, e) == POSTFIX ==> Level(Cpp, Written(e, async)) == POSTFIX
    decreases e
  {
    match e
    case Leaf(_) =>
    case Paren(x) => WrittenRespects(x, async);
    case Postfix(x, _) => WrittenRespects(x, async);
    case Unary(op, x) =>
      WrittenRespects(x, async);
      UnaryRespects(op, x, async);
    case Binary(op, x, y) =>
      WrittenRespects(x, async);
      WrittenRespects(y, async);
      BinaryRespects(op, x, y, async);
  }

  lemma UnaryRespects(op: Kind, x: Expr, async: bool)
    requires IsUnary(Go, op) && Respects(Cpp, Written(x, async)) && Level(Cpp, Written(x, async)) >= UNARY
    ensures Respects(Cpp, Written(Unary(op, x), async)) && Level(Cpp, Written(Unary(op, x), async)) >= UNARY
  {
    var w := Written(x, async);
    assert Respects(Cpp, Paren(w)) && Respects(Cpp, Postfix(Paren(w), RECV));
  }

  lemma BinaryRespects(op: Kind, x: Expr, y: Expr, async: bool)
    requires Prec(Go, op) > 0 && Respects(Cpp, Written(x, async)) && Respects(Cpp, Written(y, async))
    requires Level(Cpp, Written(x, async)) >= UNARY && Level(Cpp, Written(y, async)) >= UNARY
    ensures Respects(Cpp, Written(Binary(op, x, y), async)) && Level(Cpp, Written(Binary(op, x, y), async)) == POSTFIX
  {
    assert Respects(Cpp, Unary(Tilde, Written(y, async)));
  }

  /** From Go source to C++ and back: whatever the parser makes of a token string, what is
      emitted for it is read by C++'s table as the very expression that was meant. */
  lemma EmissionKeepsTheShape(ts: seq<Tok>, async: bool)
    requires ParseAll(Go, ts).Ok?
    ensures var e := ParseAll(Go, ts).e; var r := ParseAll(Cpp, Emit(e, async));
      r.Ok? && Strip(r.e) == InCpp(e, async)
  {
    var e := ParseAll(Go, ts).e;
    ParsesExactly(Go, ts, e);
    WrittenRespects(e, async);
    WrittenYields(e, async);
    ParsesExactly(Cpp, Emit(e, async), Written(e, async));
  }

  /** The tables differ, so the parentheses are needed: Go reads `a & b == c` as
      `(a & b) == c`, C++ as `a & (b == c)`. */
  lemma TablesDisagree(a: Expr, b: Expr, c: Expr)
    requires a.Leaf? && b.Leaf? && c.Leaf?
    ensures var ts := Yield(a) + [Sym(Amp)] + Yield(b) + [Sym(Eq)] + Yield(c);
      && ParseAll(Go, ts) == Ok(Binary(Eq, Binary(Amp, a, b), c), [])
      && ParseAll(Cpp, ts) == Ok(Binary(Amp, a, Binary(Eq, b, c)), [])
  {
    LaterGroupBindsTighter(Go, a, Eq, b, Amp, c, 2, 4);
    LaterGroupBindsTighter(Cpp, a, Amp, b, Eq, c, 4, 5);
  }

  // ---- Values ----------------------------------------------------------------------------

  /** What the names in an expression mean, on values of any type; the operations that the two
      languages write differently are named: exchanging every bit, the common bits of two
      words, receiving from a channel. */
  datatype Meaning<!V> = Meaning(
    leaf: nat -> V, post: (nat, V) -> V, flip: V -> V, and_: (V, V) -> V, recv: V -> V, un: (Kind, V) -> V, bin: (Kind, V, V) -> V)

  /** Go: `^x` exchanges every bit, `x &^ y` clears the bits of y in x, `<-x` receives. */
  function ValueInGo<V>(M: Meaning<V>, e: Expr): V {
    match e
    case Leaf(n) => (M.leaf)(n)
    case Paren(x) => ValueInGo(M, x)
    case Postfix(x, n) => if n == RECV then (M.recv)(ValueInGo(M, x)) else (M.post)(n, ValueInGo(M, x))
    case Unary(Caret, x) => (M.flip)(ValueInGo(M, x))
    case Unary(Arrow, x) => (M.recv)(ValueInGo(M, x))
    case Unary(op, x) => (M.un)(op, ValueInGo(M, x))
    case Binary(AndNot, x, y) => (M.and_)(ValueInGo(M, x), (M.flip)(ValueInGo(M, y)))
    case Binary(Amp, x, y) => (M.and_)(ValueInGo(M, x), ValueInGo(M, y))
    case Binary(op, x, y) => (M.bin)(op, ValueInGo(M, x), ValueInGo(M, y))
  }

  /** C++: `~x` exchanges every bit, co_await gives what the awaited call gives. */
  function ValueInCpp<V>(M: Meaning<V>, e: Expr): V {
    match e
    case Leaf(n) => (M.leaf)(n)
    case Paren(x) => ValueInCpp(M, x)
    case Postfix(x, n) => if n == RECV then (M.recv)(ValueInCpp(M, x)) else (M.post)(n, ValueInCpp(M, x))
    case Unary(Tilde, x) => (M.flip)(ValueInCpp(M, x))
    case Unary(CoAwait, x) => ValueInCpp(M, x)
    case Unary(op, x) => (M.un)(op, ValueInCpp(M, x))
    case Binary(Amp, x, y) => (M.and_)(ValueInCpp(M, x), ValueInCpp(M, y))
    case Binary(op, x, y) => (M.bin)(op, ValueInCpp(M, x), ValueInCpp(M, y))
  }

  lemma UnaryMeansTheSame<V>(M: Meaning<V>, op: Kind, x: Expr, async: bool)
    requires op != Tilde && op != CoAwait && ValueInCpp(M, InCpp(x, async)) == ValueInGo(M, x)
    ensures ValueInCpp(M, InCpp(Unary(op, x), async)) == ValueInGo(M, Unary(op, x))
  {
    var y := InCpp(x, async);
    if op == Arrow {
      assert InCpp(Unary(op, x), async) == if async then Unary(CoAwait, Postfix(y, RECV)) else Postfix(y, RECV);
      assert ValueInCpp(M, Postfix(y, RECV)) == (M.recv)(ValueInCpp(M, y));
    } else {
      assert InCpp(Unary(op, x), async) == Unary(if op == Caret then Tilde else op, y);
    }
  }

  lemma BinaryMeansTheSame<V>(M: Meaning<V>, op: Kind, x: Expr, y: Expr, async: bool)
    requires ValueInCpp(M, InCpp(x, async)) == ValueInGo(M, x) && ValueInCpp(M, InCpp(y, async)) == ValueInGo(M, y)
    ensures ValueInCpp(M, InCpp(Binary(op, x, y), async)) == ValueInGo(M, Binary(op, x, y))
  {
    var u, v := InCpp(x, async), InCpp(y, async);
    if op == AndNot {
      assert InCpp(Binary(op, x, y), async) == Binary(Amp, u, Unary(Tilde, v));
      assert ValueInCpp(M, Unary(Tilde, v)) == (M.flip)(ValueInCpp(M, v));
    } else {
      assert InCpp(Binary(op, x, y), async) == Binary(op, u, v);
    }
  }

  lemma {:induction false} InCppMeansTheSame<V>(M: Meaning<V>, e: Expr, async: bool)
    requires Operators(Go, e)
    ensures ValueInCpp(M, InCpp(e, async)) == ValueInGo(M, e)
    decreases e
  {
    match e
    case Leaf(_) =>
    case Paren(x) => InCppMeansTheSame(M, x, async);
    case Postfix(x, _) => InCppMeansTheSame(M, x, async);
    case Unary(op, x) =>
      InCppMeansTheSame(M, x, async);
      UnaryMeansTheSame(M, op, x, async);
    case Binary(op, x, y) =>
      InCppMeansTheSame(M, x, async);
      InCppMeansTheSame(M, y, async);
      BinaryMeansTheSame(M, op, x, y, async);
  }

  lemma {:induction false} StripKeepsValue<V>(M: Meaning<V>, e: Expr)
    ensures ValueInCpp(M, Strip(e)) == ValueInCpp(M, e)
    decreases e
  {
    match e
    case Leaf(_) =>
    case Paren(x) => StripKeepsValue(M, x);
    case Postfix(x, _) => StripKeepsValue(M, x);
    case Unary(_, x) => StripKeepsValue(M, x);
    case Binary(_, x, y) =>
      StripKeepsValue(M, x);
      StripKeepsValue(M, y);
  }

  lemma {:induction false} RespectsHasOperators(L: Lang, e: Expr)
    requires Respects(L, e)
    ensures Operators(L, e)
    decreases e
  {
    match e
    case Leaf(_) =>
    case Paren(x) => RespectsHasOperators(L, x);
    case Postfix(x, _) => RespectsHasOperators(L, x);
    case Unary(_, x) => RespectsHasOperators(L, x);
    case Binary(_, x, y) =>
      RespectsHasOperators(L, x);
      RespectsHasOperators(L, y);
  }

  /** From Go source to a value: what is emitted for an expression, read and evaluated as C++,
      has the value Go gives the source. */
  lemma EmissionKeepsTheValue<V>(M: Meaning<V>, ts: seq<Tok>, async: bool)
    requires ParseAll(Go, ts).Ok?
    ensures var e := ParseAll(Go, ts).e; var r := ParseAll(Cpp, Emit(e, async));
      r.Ok? && ValueInCpp(M, r.e) == ValueInGo(M, e)
  {
    var e := ParseAll(Go, ts).e;
    ParsesExactly(Go, ts, e);
    EmissionKeepsTheShape(ts, async);
    RespectsHasOperators(Go, e);
    InCppMeansTheSame(M, e, async);
    StripKeepsValue(M, ParseAll(Cpp, Emit(e, async)).e);
  }
}
