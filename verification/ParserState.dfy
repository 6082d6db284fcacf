/** The parser in place: a cursor over the tokens that every method advances, and a loop
    that rebuilds the left operand. */
module ParserState {
  import opened Precedence

  class Parser {
    const L: Lang
    const tokens: seq<Tok>
    var pos: nat

    constructor (L: Lang, tokens: seq<Tok>)
      ensures this.L == L && this.tokens == tokens && pos == 0
    {
      this.L, this.tokens, pos := L, tokens, 0;
    }

    ghost predicate Valid()
      reads this
    {
      pos <= |tokens|
    }

    /** What is left to read. */
    ghost function Left(): seq<Tok>
      requires Valid()
      reads this
    {
      tokens[pos..]
    }

    /** The method read what the function r says and left the cursor behind it. */
    ghost predicate Did(r: Parsed, ok: bool, e: Expr)
      reads this
    {
      Valid() && (ok <==> r.Ok?) && (ok ==> r == Ok(e, Left()))
    }

    /** Precedence climbing over the cursor, rebuilding the left operand in a loop. */
    method ParseBinary(min: nat) returns (ok: bool, lhs: Expr)
      requires Valid()
      modifies this
      ensures Did(old(Precedence.ParseBinary(L, Left(), min)), ok, lhs)
      decreases |tokens| - pos, 3
    {
      ghost var all := Precedence.ParseBinary(L, Left(), min);
      ok, lhs := ParseUnary();
      if !ok { return; }
      while pos < |tokens| && tokens[pos].Sym? && Prec(L, tokens[pos].k) > 0 && Prec(L, tokens[pos].k) >= min
        invariant old(pos) < pos <= |tokens| && ok
        invariant all == ParseOperators(L, lhs, Left(), min)
        decreases |tokens| - pos
      {
        var op := tokens[pos].k;
        ghost var here := Left();
        pos := pos + 1;
        assert here[0] == Sym(op) && here[1..] == Left();
        var rhs;
        ok, rhs := ParseBinary(Prec(L, op) + 1);
        if !ok { return; }
        lhs := Binary(op, lhs, rhs);
      }
    }

    /** Prefix operators over the cursor. */
    method ParseUnary() returns (ok: bool, e: Expr)
      requires Valid()
      modifies this
      ensures Did(old(Precedence.ParseUnary(L, Left())), ok, e)
      ensures ok ==> pos > old(pos)
      decreases |tokens| - pos, 2
    {
      if pos < |tokens| && tokens[pos].Sym? && IsUnary(L, tokens[pos].k) {
        var op := tokens[pos].k;
        ghost var here := Left();
        pos := pos + 1;
        assert here[0] == Sym(op) && here[1..] == Left();
        ok, e := ParseUnary();
        e := Unary(op, e);
      } else {
        ok, e := ParsePostfix();
      }
    }

    method ParsePostfix() returns (ok: bool, e: Expr)
      requires Valid()
      modifies this
      ensures var p := old(ParsePrimary(L, Left())); Did(if p.Ok? then ParseSuffixes(p.e, p.rest) else Fail, ok, e)
      ensures ok ==> pos > old(pos)
      decreases |tokens| - pos, 1
    {
      ghost var p := ParsePrimary(L, Left());
      ok, e := Primary();
      if !ok { return; }
      while pos < |tokens| && tokens[pos].Suffix?
        invariant old(pos) < pos <= |tokens| && p.Ok? && ok
        invariant ParseSuffixes(p.e, p.rest) == ParseSuffixes(e, Left())
      {
        ghost var here := Left();
        e := Postfix(e, tokens[pos].n);
        pos := pos + 1;
        assert here[1..] == Left();
      }
    }

    /** Operands and parentheses over the cursor. */
    method Primary() returns (ok: bool, e: Expr)
      requires Valid()
      modifies this
      ensures Did(old(ParsePrimary(L, Left())), ok, e)
      ensures ok ==> pos > old(pos)
      decreases |tokens| - pos, 0
    {
      ok, e := false, Leaf(0);
      if pos == |tokens| { return; }
      var t := tokens[pos];
      ghost var here := Left();
      assert here[0] == t && here[1..] == tokens[pos + 1..];
      if t.Atom? {
        pos := pos + 1;
        return true, Leaf(t.n);
      }
      if t != LParen { return; }
      pos := pos + 1;
      ok, e := ParseBinary(1);
      if !ok { return; }
      if pos == |tokens| || tokens[pos] != RParen { return false, e; }
      ghost var close := Left();
      pos := pos + 1;
      assert close[0] == RParen && close[1..] == Left();
      e := Paren(e);
    }
  }
}
