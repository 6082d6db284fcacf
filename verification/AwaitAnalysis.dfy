/** Which functions become coroutines: those from which a chain of calls, matched by name,
    leads to a body that waits. */
module AwaitAnalysis {
  import opened Wrappers

  type Name = string

  /** Other stands for every expression without a rule of its own; kids are the parts that
      are looked into. */
  datatype Expr =
    | Recv(ch: Expr)
    | FuncLit(lit: seq<Stmt>)
    | Call(callee: Expr, args: seq<Expr>)
    | Ident(name: Name)
    | Selector(x: Expr, sel: Name)
    | Other(kids: seq<Expr>)

  /** Plain is every statement without a rule of its own: its expressions and the
      statements in it. */
  datatype Stmt =
    | Go(call: Expr)
    | Send(to: Expr, v: Expr)
    | Select
    | Range(overChan: bool, over: Expr, body: seq<Stmt>)
    | Plain(exprs: seq<Expr>, inner: seq<Stmt>)

  /** What marks a function: its bare name, or its receiver's type and its name. */
  datatype Key = Free(name: Name) | Method(key: Name)

  datatype Func = Func(receiver: Option<Name>, name: Name, body: seq<Stmt>)

  /** Names that stand for imported packages, and those that stand for gocvm. */
  datatype Scope = Scope(imported: set<Name>, gocvm: set<Name>)

  function MethodKey(receiver: Name, name: Name): Name { receiver + "." + name }

  function KeyOf(f: Func): Key { if f.receiver.Some? then Method(MethodKey(f.receiver.value, f.name)) else Free(f.name) }

  /** The comparison of a method key's tail with a selected name. */
  predicate KeyEndsWith(k: Name, sel: Name) {
    |k| > |sel| + 1 && k[|k| - |sel|..] == sel && k[|k| - |sel| - 1] == '.'
  }

  /** For names without dots it compares the method's name. */
  lemma KeyEndsWithName(receiver: Name, name: Name, sel: Name)
    requires '.' !in name && '.' !in sel
    ensures KeyEndsWith(MethodKey(receiver, name), sel) <==> receiver != "" && name == sel
  {
    var k := MethodKey(receiver, name);
    if |sel| < |name| {
      assert k[|k| - |sel| - 1] == name[|name| - |sel| - 1];
    } else if |sel| > |name| && |k| > |sel| + 1 {
      assert k[|k| - |sel|..][|sel| - |name| - 1] == '.';
    } else if |sel| == |name| {
      assert k[|k| - |sel|..] == name;
    }
  }

  /** The callee is matched by name against a mark; the types are not looked at. */
  predicate Matches(S: Scope, callee: Expr, k: Key) {
    match callee
    case Ident(n) => k == Free(n)
    case Selector(x, sel) => (x.Ident? && x.name in S.imported && k == Free(sel)) || (k.Method? && KeyEndsWith(k.key, sel))
    case _ => false
  }

  predicate GocvmCall(S: Scope, callee: Expr) {
    callee.Selector? && callee.x.Ident? && callee.x.name in S.gocvm && callee.sel == "Call"
  }

  // ---- ExprNeedsAwait and StmtNeedsAwait ------------------------------------------------

  ghost predicate ExprNeeds(S: Scope, A: set<Key>, e: Expr)
    decreases e, 0
  {
    match e
    case Recv(_) => true
    case FuncLit(body) => StmtsNeed(S, A, body)
    case Call(callee, args) =>
      || (exists k :: k in A && Matches(S, callee, k))
      || GocvmCall(S, callee) || ExprNeeds(S, A, callee) || ExprsNeed(S, A, args)
    case Ident(_) => false
    case Selector(x, _) => ExprNeeds(S, A, x)
    case Other(kids) => ExprsNeed(S, A, kids)
  }

  ghost predicate ExprsNeed(S: Scope, A: set<Key>, es: seq<Expr>)
    decreases es, 1
  {
    es != [] && (ExprNeeds(S, A, es[0]) || ExprsNeed(S, A, es[1..]))
  }

  ghost predicate StmtNeeds(S: Scope, A: set<Key>, st: Stmt)
    decreases st, 0
  {
    match st
    case Go(_) => false
    case Send(_, _) => true
    case Select => true
    case Range(overChan, over, body) => overChan || ExprNeeds(S, A, over) || StmtsNeed(S, A, body)
    case Plain(exprs, inner) => ExprsNeed(S, A, exprs) || StmtsNeed(S, A, inner)
  }

  ghost predicate StmtsNeed(S: Scope, A: set<Key>, sts: seq<Stmt>)
    decreases sts, 1
  {
    sts != [] && (StmtNeeds(S, A, sts[0]) || StmtsNeed(S, A, sts[1..]))
  }

  // ---- Where something stands ------------------------------------------------------------------

  datatype Node = E(e: Expr) | S(st: Stmt)

  /** p stands directly in q. What a go statement starts does not run in q. */
  predicate PartOf(p: Node, q: Node) {
    match q
    case E(Recv(ch)) => p == E(ch)
    case E(FuncLit(body)) => p.S? && p.st in body
    case E(Call(callee, args)) => p.E? && (p.e == callee || p.e in args)
    case E(Ident(_)) => false
    case E(Selector(x, _)) => p == E(x)
    case E(Other(kids)) => p.E? && p.e in kids
    case S(Go(_)) => false
    case S(Send(to, v)) => p.E? && (p.e == to || p.e == v)
    case S(Select) => false
    case S(Range(_, over, body)) => p == E(over) || (p.S? && p.st in body)
    case S(Plain(exprs, inner)) => (p.E? && p.e in exprs) || (p.S? && p.st in inner)
  }

  /** Each node stands directly in the one before it. */
  ghost predicate Path(ns: seq<Node>) {
    ns != [] && forall i :: 0 <= i < |ns| - 1 ==> PartOf(ns[i + 1], ns[i])
  }

  ghost predicate Leads(ns: seq<Node>, from: Node, to: Node) { Path(ns) && ns[0] == from && ns[|ns|-1] == to }

  /** n stands in the body, at any depth, but in no go statement. */
  ghost predicate StandsIn(n: Node, body: seq<Stmt>) {
    exists ns, st :: st in body && Leads(ns, S(st), n)
  }

  /** A receive, a send, a select, a loop over a channel or a call into gocvm. */
  predicate AwaitPoint(S: Scope, n: Node) {
    match n
    case E(Recv(_)) => true
    case E(Call(Selector(Ident(pkg), sel), _)) => pkg in S.gocvm && sel == "Call"
    case E(_) => false
    case S(st) => st.Send? || st.Select? || (st.Range? && st.overChan)
  }

  predicate CallOf(S: Scope, n: Node, k: Key) { n.E? && n.e.Call? && Matches(S, n.e.callee, k) }

  /** An await point, or a call that matches a mark. */
  ghost predicate Point(S: Scope, A: set<Key>, n: Node) { AwaitPoint(S, n) || exists k :: k in A && CallOf(S, n, k) }

  ghost predicate NodeNeeds(S: Scope, A: set<Key>, n: Node) {
    match n
    case E(e) => ExprNeeds(S, A, e)
    case S(st) => StmtNeeds(S, A, st)
  }

  lemma {:induction false} ExprInNeeds(S: Scope, A: set<Key>, e: Expr, es: seq<Expr>)
    requires e in es && ExprNeeds(S, A, e)
    ensures ExprsNeed(S, A, es)
    decreases |es|
  {
    if es[0] != e { ExprInNeeds(S, A, e, es[1..]); }
  }

  lemma {:induction false} StmtInNeeds(S: Scope, A: set<Key>, st: Stmt, sts: seq<Stmt>)
    requires st in sts && StmtNeeds(S, A, st)
    ensures StmtsNeed(S, A, sts)
    decreases |sts|
  {
    if sts[0] != st { StmtInNeeds(S, A, st, sts[1..]); }
  }

  lemma PartNeeds(S: Scope, A: set<Key>, p: Node, q: Node)
    requires PartOf(p, q) && NodeNeeds(S, A, p)
    ensures NodeNeeds(S, A, q)
  {
    match q
    case E(FuncLit(body)) => StmtInNeeds(S, A, p.st, body);
    case E(Call(callee, args)) => if p.e != callee { ExprInNeeds(S, A, p.e, args); }
    case E(Other(kids)) => ExprInNeeds(S, A, p.e, kids);
    case S(Range(_, _, body)) => if p.S? { StmtInNeeds(S, A, p.st, body); }
    case S(Plain(exprs, inner)) => if p.E? { ExprInNeeds(S, A, p.e, exprs); } else { StmtInNeeds(S, A, p.st, inner); }
    case _ =>
  }

  lemma {:induction false} PathNeeds(S: Scope, A: set<Key>, ns: seq<Node>)
    requires Path(ns) && Point(S, A, ns[|ns|-1])
    ensures NodeNeeds(S, A, ns[0])
    decreases |ns|
  {
    if |ns| > 1 {
      assert Path(ns[1..]);
      PathNeeds(S, A, ns[1..]);
      PartNeeds(S, A, ns[1], ns[0]);
    }
  }

  lemma PathThrough(p: Node, q: Node, ns: seq<Node>) returns (ms: seq<Node>)
    requires Path(ns) && ns[0] == p && PartOf(p, q)
    ensures Path(ms) && ms[0] == q && ms[|ms|-1] == ns[|ns|-1]
  {
    ms := [q] + ns;
    forall i | 0 <= i < |ms| - 1 ensures PartOf(ms[i + 1], ms[i]) {
      if i > 0 { assert ms[i] == ns[i - 1] && ms[i + 1] == ns[i]; }
    }
  }

  /** ns goes from n to a point. */
  ghost predicate Finds(S: Scope, A: set<Key>, n: Node, ns: seq<Node>) { Path(ns) && ns[0] == n && Point(S, A, ns[|ns|-1]) }

  lemma {:induction false} ExprFinds(S: Scope, A: set<Key>, e: Expr) returns (ns: seq<Node>)
    requires ExprNeeds(S, A, e)
    ensures Finds(S, A, E(e), ns)
    decreases e, 0
  {
    ns := [E(e)];
    match e
    case FuncLit(body) =>
      var st, rest := StmtsFind(S, A, body);
      ns := PathThrough(Node.S(st), E(e), rest);
    case Call(callee, args) =>
      if !Point(S, A, E(e)) {
        if ExprNeeds(S, A, callee) {
          var rest := ExprFinds(S, A, callee);
          ns := PathThrough(E(callee), E(e), rest);
        } else {
          var x, rest := ExprsFind(S, A, args);
          ns := PathThrough(E(x), E(e), rest);
        }
      }
    case Selector(x, _) =>
      var rest := ExprFinds(S, A, x);
      ns := PathThrough(E(x), E(e), rest);
    case Other(kids) =>
      var x, rest := ExprsFind(S, A, kids);
      ns := PathThrough(E(x), E(e), rest);
    case _ =>
  }

  lemma {:induction false} ExprsFind(S: Scope, A: set<Key>, es: seq<Expr>) returns (e: Expr, ns: seq<Node>)
    requires ExprsNeed(S, A, es)
    ensures e in es && Finds(S, A, E(e), ns)
    decreases es, 1
  {
    if ExprNeeds(S, A, es[0]) {
      e := es[0];
      ns := ExprFinds(S, A, e);
    } else {
      e, ns := ExprsFind(S, A, es[1..]);
    }
  }

  lemma {:induction false} StmtFinds(S: Scope, A: set<Key>, st: Stmt) returns (ns: seq<Node>)
    requires StmtNeeds(S, A, st)
    ensures Finds(S, A, Node.S(st), ns)
    decreases st, 0
  {
    ns := [Node.S(st)];
    match st
    case Range(overChan, over, body) =>
      if !overChan {
        if ExprNeeds(S, A, over) {
          var rest := ExprFinds(S, A, over);
          ns := PathThrough(E(over), Node.S(st), rest);
        } else {
          var inner, rest := StmtsFind(S, A, body);
          ns := PathThrough(Node.S(inner), Node.S(st), rest);
        }
      }
    case Plain(exprs, body) =>
      if ExprsNeed(S, A, exprs) {
        var x, rest := ExprsFind(S, A, exprs);
        ns := PathThrough(E(x), Node.S(st), rest);
      } else {
        var inner, rest := StmtsFind(S, A, body);
        ns := PathThrough(Node.S(inner), Node.S(st), rest);
      }
    case _ =>
  }

  lemma {:induction false} StmtsFind(S: Scope, A: set<Key>, sts: seq<Stmt>) returns (st: Stmt, ns: seq<Node>)
    requires StmtsNeed(S, A, sts)
    ensures st in sts && Finds(S, A, Node.S(st), ns)
    decreases sts, 1
  {
    if StmtNeeds(S, A, sts[0]) {
      st := sts[0];
      ns := StmtFinds(S, A, st);
    } else {
      st, ns := StmtsFind(S, A, sts[1..]);
    }
  }

  // ---- Chains of calls ----------------------------------------------------------------------

  /** An await point stands in the body. */
  ghost predicate Waits(S: Scope, body: seq<Stmt>) { exists n :: AwaitPoint(S, n) && StandsIn(n, body) }

  /** A call that matches k stands in the body. */
  ghost predicate Calls(S: Scope, body: seq<Stmt>, k: Key) { exists n :: CallOf(S, n, k) && StandsIn(n, body) }

  /** A body needs to await, the functions in A marked, if and only if a receive, a send, a
      select, a loop over a channel, a call into gocvm or a call that matches a mark stands
      in it outside of go statements. */
  lemma NeedsExactly(S: Scope, A: set<Key>, body: seq<Stmt>)
    ensures StmtsNeed(S, A, body) <==> Waits(S, body) || exists k :: k in A && Calls(S, body, k)
  {
    if StmtsNeed(S, A, body) {
      var st, ns := StmtsFind(S, A, body);
      var n := ns[|ns|-1];
      assert Leads(ns, Node.S(st), n);
      assert StandsIn(n, body);
      if !AwaitPoint(S, n) {
        var k :| k in A && CallOf(S, n, k);
        assert Calls(S, body, k);
      }
    }
    if Waits(S, body) {
      var n :| AwaitPoint(S, n) && StandsIn(n, body);
      PointNeeds(S, A, n, body);
    }
    if k :| k in A && Calls(S, body, k) {
      var n :| CallOf(S, n, k) && StandsIn(n, body);
      PointNeeds(S, A, n, body);
    }
  }

  lemma PointNeeds(S: Scope, A: set<Key>, n: Node, body: seq<Stmt>)
    requires Point(S, A, n) && StandsIn(n, body)
    ensures StmtsNeed(S, A, body)
  {
    var ns, st :| st in body && Leads(ns, Node.S(st), n);
    PathNeeds(S, A, ns);
    StmtInNeeds(S, A, st, body);
  }

  /** A callee matches a function's mark by name alone: a bare name a function's, a selected
      name a method's of any type, or a function's if it is selected from a package. */
  lemma MatchesByName(S: Scope, callee: Expr, f: Func)
    requires '.' !in f.name && (f.receiver.Some? ==> f.receiver.value != "") && (callee.Selector? ==> '.' !in callee.sel)
    ensures Matches(S, callee, KeyOf(f)) <==>
      if callee.Ident? then f.receiver.None? && callee.name == f.name
      else callee.Selector? && callee.sel == f.name && (f.receiver.Some? || (callee.x.Ident? && callee.x.name in S.imported))
  {
    if f.receiver.Some? && callee.Selector? { KeyEndsWithName(f.receiver.value, f.name, callee.sel); }
  }

  /** Each function has a call that matches the next one, and the last one waits. */
  ghost predicate Chain(S: Scope, fs: seq<Func>, c: seq<Func>) {
    && c != []
    && (forall f :: f in c ==> f in fs)
    && (forall i :: 0 <= i < |c| - 1 ==> Calls(S, c[i].body, KeyOf(c[i + 1])))
    && Waits(S, c[|c|-1].body)
  }

  ghost predicate ReachesWait(S: Scope, fs: seq<Func>, k: Key) { exists c :: Chain(S, fs, c) && KeyOf(c[0]) == k }

  // ---- The fixpoint --------------------------------------------------------------------------------

  /** Nothing is left to mark. */
  ghost predicate Closed(S: Scope, fs: seq<Func>, A: set<Key>) {
    forall f :: f in fs && StmtsNeed(S, A, f.body) ==> KeyOf(f) in A
  }

  /** Every mark is justified by a chain. */
  ghost predicate Justified(S: Scope, fs: seq<Func>, A: set<Key>) { forall k :: k in A ==> ReachesWait(S, fs, k) }

  lemma ChainFrom(S: Scope, fs: seq<Func>, f: Func, c: seq<Func>)
    requires f in fs && Chain(S, fs, c) && Calls(S, f.body, KeyOf(c[0]))
    ensures Chain(S, fs, [f] + c)
  {
    var d := [f] + c;
    forall i | 0 <= i < |d| - 1 ensures Calls(S, d[i].body, KeyOf(d[i + 1])) {
      if i > 0 { assert d[i] == c[i - 1] && d[i + 1] == c[i]; }
    }
    assert d[|d|-1] == c[|c|-1];
  }

  /** Marking a function that needs it keeps every mark justified. */
  lemma MarkIsJustified(S: Scope, fs: seq<Func>, A: set<Key>, f: Func)
    requires Justified(S, fs, A) && f in fs && StmtsNeed(S, A, f.body)
    ensures Justified(S, fs, A + {KeyOf(f)})
  {
    NeedsExactly(S, A, f.body);
    if Waits(S, f.body) {
      assert Chain(S, fs, [f]);
    } else {
      var k :| k in A && Calls(S, f.body, k);
      assert ReachesWait(S, fs, k);
      var c :| Chain(S, fs, c) && KeyOf(c[0]) == k;
      ChainFrom(S, fs, f, c);
    }
    assert ReachesWait(S, fs, KeyOf(f));
  }

  /** Once nothing is left to mark, everything a chain starts from is marked. */
  lemma {:induction false} ClosedHasChains(S: Scope, fs: seq<Func>, A: set<Key>, c: seq<Func>)
    requires Closed(S, fs, A) && Chain(S, fs, c)
    ensures KeyOf(c[0]) in A
    decreases |c|
  {
    NeedsExactly(S, A, c[0].body);
    if |c| > 1 {
      assert Chain(S, fs, c[1..]);
      ClosedHasChains(S, fs, A, c[1..]);
      assert Calls(S, c[0].body, KeyOf(c[1]));
    }
  }

  /** A justified set with nothing left to mark is exactly the functions from which a chain
      of calls reaches one that waits: the least set with nothing left to mark. */
  lemma MarkedExactly(S: Scope, fs: seq<Func>, A: set<Key>, k: Key)
    requires Closed(S, fs, A) && Justified(S, fs, A)
    ensures k in A <==> ReachesWait(S, fs, k)
  {
    if ReachesWait(S, fs, k) {
      var c :| Chain(S, fs, c) && KeyOf(c[0]) == k;
      ClosedHasChains(S, fs, A, c);
    }
  }

  /** The marked bodies are closed under marking, and inside every other closed set. */
  lemma MarkedIsLeast(S: Scope, fs: seq<Func>, A: set<Key>, B: set<Key>)
    requires Closed(S, fs, A) && Justified(S, fs, A) && Closed(S, fs, B)
    ensures A <= B
  {
    forall k | k in A ensures k in B {
      var c :| Chain(S, fs, c) && KeyOf(c[0]) == k;
      ClosedHasChains(S, fs, B, c);
    }
  }

  /** The order of the functions, or of the files they are in, makes no difference. */
  lemma OrderDoesNotMatter(S: Scope, fs: seq<Func>, gs: seq<Func>, A: set<Key>, B: set<Key>)
    requires forall f :: f in fs <==> f in gs
    requires Closed(S, fs, A) && Justified(S, fs, A) && Closed(S, gs, B) && Justified(S, gs, B)
    ensures A == B
  {
    forall k ensures k in A <==> k in B {
      MarkedExactly(S, fs, A, k);
      MarkedExactly(S, gs, B, k);
      assert forall c :: Chain(S, fs, c) <==> Chain(S, gs, c);
    }
  }

  /** AnalyzeAsync: passes over all functions until one marks nothing new. Each pass but
      the last marks a function, so it ends. */
  method AnalyzeAsync(S: Scope, fs: seq<Func>) returns (marked: set<Key>)
    ensures forall k :: k in marked <==> ReachesWait(S, fs, k)
    ensures Closed(S, fs, marked)
  {
    marked := {};
    ghost var all := set f | f in fs :: KeyOf(f);
    var changed := true;
    while changed
      invariant marked <= all && Justified(S, fs, marked)
      invariant !changed ==> Closed(S, fs, marked)
      decreases all - marked, changed
    {
      changed := false;
      ghost var before := marked;
      var i := 0;
      while i < |fs|
        invariant 0 <= i <= |fs| && before <= marked <= all && Justified(S, fs, marked)
        invariant !changed ==> marked == before && forall f :: f in fs[..i] && StmtsNeed(S, marked, f.body) ==> KeyOf(f) in marked
        invariant changed ==> before < marked
      {
        var f := fs[i];
        assert f in fs && KeyOf(f) in all;
        var need := StmtsNeedAwait(S, marked, f.body);
        if need {
          MarkIsJustified(S, fs, marked, f);
          if KeyOf(f) !in marked { changed := true; }
          marked := marked + {KeyOf(f)};
        }
        i := i + 1;
      }
      assert fs[..|fs|] == fs;
    }
    forall k ensures k in marked <==> ReachesWait(S, fs, k) { MarkedExactly(S, fs, marked, k); }
  }

  /** StmtsNeedAwait, a loop over the statements. */
  method StmtsNeedAwait(S: Scope, A: set<Key>, sts: seq<Stmt>) returns (b: bool)
    ensures b == StmtsNeed(S, A, sts)
    decreases sts, 1
  {
    var i := 0;
    while i < |sts|
      invariant 0 <= i <= |sts|
      invariant StmtsNeed(S, A, sts) == StmtsNeed(S, A, sts[i..])
    {
      assert sts[i..][0] == sts[i] && sts[i..][1..] == sts[i + 1..];
      b := StmtNeedsAwait(S, A, sts[i]);
      if b { return true; }
      i := i + 1;
    }
    return false;
  }

  method StmtNeedsAwait(S: Scope, A: set<Key>, st: Stmt) returns (b: bool)
    ensures b == StmtNeeds(S, A, st)
    decreases st, 0
  {
    match st
    case Go(_) => return false;
    case Send(_, _) => return true;
    case Select => return true;
    case Range(overChan, over, body) =>
      if overChan { return true; }
      b := ExprNeedsAwait(S, A, over);
      if b { return true; }
      b := StmtsNeedAwait(S, A, body);
    case Plain(exprs, inner) =>
      b := ExprsNeedAwait(S, A, exprs);
      if b { return true; }
      b := StmtsNeedAwait(S, A, inner);
  }

  method ExprsNeedAwait(S: Scope, A: set<Key>, es: seq<Expr>) returns (b: bool)
    ensures b == ExprsNeed(S, A, es)
    decreases es, 1
  {
    var i := 0;
    while i < |es|
      invariant 0 <= i <= |es|
      invariant ExprsNeed(S, A, es) == ExprsNeed(S, A, es[i..])
    {
      assert es[i..][0] == es[i] && es[i..][1..] == es[i + 1..];
      b := ExprNeedsAwait(S, A, es[i]);
      if b { return true; }
      i := i + 1;
    }
    return false;
  }

  /** Whether evaluating an expression may suspend: receives always do, calls of marked
      functions and methods do, and anything else does if a part of it does. */
  method ExprNeedsAwait(S: Scope, A: set<Key>, e: Expr) returns (b: bool)
    ensures b == ExprNeeds(S, A, e)
    decreases e, 0
  {
    match e
    case Recv(_) => return true;
    case FuncLit(body) => b := StmtsNeedAwait(S, A, body);
    case Call(callee, args) =>
      if GocvmCall(S, callee) || (callee.Ident? && Free(callee.name) in A) { return true; }
      if callee.Selector? {
        if callee.x.Ident? && callee.x.name in S.imported && Free(callee.sel) in A { return true; }
        if exists k :: k in A && k.Method? && KeyEndsWith(k.key, callee.sel) { return true; }
      }
      b := ExprNeedsAwait(S, A, callee);
      if b { return true; }
      b := ExprsNeedAwait(S, A, args);
    case Ident(_) => return false;
    case Selector(x, _) => b := ExprNeedsAwait(S, A, x);
    case Other(kids) => b := ExprsNeedAwait(S, A, kids);
  }
}
