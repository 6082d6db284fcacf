/** A meaning of a program's names under which every difference between Go and the emitted
    function can be seen, and what deferred bodies do under it. */
module DeferWatch {
  import opened Wrappers
  import opened DeferModel
  import opened DeferProof

  // ---- A meaning under which every difference shows --------------------------------------------

  /** coins answer the tests, everything that happens is counted, and what is read of the
      variables and of the result is logged. */
  datatype Oracle = Oracle(coins: seq<bool>, count: nat, log: seq<int>)

  type Watched = Store<Oracle, int>

  function VarsOf(s: Watched): seq<int> { if s.vars.Some? then [s.vars.value] else [] }

  /** The variables stand for one number, which actions that name them set to 1. Expressions
      yield 1, 2, 3, ... as time goes by, and only the function value 2 does nothing. */
  function Watching(): Interp<Oracle, int> {
    Interp((a, s: Watched) => Store(Oracle(s.world.coins, s.world.count + 1, s.world.log + VarsOf(s)),
                                    if s.vars.Some? then Some(1) else None),
           (a, r, s: Watched) => Store(Oracle(s.world.coins, s.world.count + 1, s.world.log + ([r] + VarsOf(s))), s.vars),
           (c, s: Watched) =>
             if s.world.coins == [] then (false, Store(Oracle([], s.world.count + 1, s.world.log + VarsOf(s)), s.vars))
             else (s.world.coins[0], Store(Oracle(s.world.coins[1..], s.world.count + 1, s.world.log + VarsOf(s)), s.vars)),
           (e, r, s: Watched) => (s.world.count + 1, Store(Oracle(s.world.coins, s.world.count + 1, s.world.log + VarsOf(s)), s.vars)),
           (x, v, s: Watched) => Store(Oracle(s.world.coins, s.world.count + 1, s.world.log), s.vars),
           (x, m, s: Watched) => Store(Oracle(s.world.coins, s.world.count + 1, s.world.log + VarsOf(s)), s.vars),
           v => if v == 2 then [] else [DAct(0, World)])
  }

  /** The coins that lead to a statement of that kind wherever there is one. */
  function Coins(aim: Aim, body: seq<DStmt>): seq<bool>
    decreases body, 0
  {
    if body == [] then [] else CoinsOf(aim, body[0]) + Coins(aim, body[1..])
  }

  function CoinsOf(aim: Aim, d: DStmt): seq<bool>
    decreases d, 1
  {
    match d
    case DIf(_, _, thn, els) => if Has(aim, thn) then [true] + Coins(aim, thn) else [false] + Coins(aim, els)
    case _ => []
  }

  /** Without coins a body does the same number of things in both languages whatever came
      before, at least one if it is not empty. */
  lemma {:induction false} BodyCounts(body: seq<DStmt>, alive: Alive, l: Leaving<Oracle, int>, t: CState<Oracle, int>)
    requires l.s.world.coins == t.s.world.coins == []
    ensures var l', u := GoBody(Watching(), body, l), CBody(Watching(), body, alive, t);
      && l'.s.world.coins == u.s.world.coins == []
      && l'.s.world.count - l.s.world.count == u.s.world.count - t.s.world.count >= if body == [] then 0 else 1
    decreases body, 0
  {
    if body != [] {
      StepCounts(body[0], alive, l, t);
      BodyCounts(body[1..], alive, GoStep(Watching(), body[0], l), CStep(Watching(), body[0], alive, t));
    }
  }

  lemma {:induction false} StepCounts(d: DStmt, alive: Alive, l: Leaving<Oracle, int>, t: CState<Oracle, int>)
    requires l.s.world.coins == t.s.world.coins == []
    ensures var l', u := GoStep(Watching(), d, l), CStep(Watching(), d, alive, t);
      && l'.s.world.coins == u.s.world.coins == []
      && l'.s.world.count - l.s.world.count == u.s.world.count - t.s.world.count >= 1
    decreases d, 1
  {
    if d.DIf? {
      var l1 := l.(s := DoTest(Watching(), d.c, d.h, l.s).1);
      var t1 := t.(s := DoTest(Watching(), d.c, d.h, t.s).1, ub := t.ub || Lost(d.h, alive));
      BodyCounts(d.els, alive, l1, t1);
    }
  }

  /** Steered to an assignment, a body leaves more than v in the result. */
  lemma {:induction false} BodyAssigns(v: nat, body: seq<DStmt>, l: Leaving<Oracle, int>, tail: seq<bool>)
    requires l.s.world.count >= v && l.s.world.coins == Coins(Assigns, body) + tail
    ensures var l' := GoBody(Watching(), body, l);
      l'.s.world.count >= v && l'.s.world.coins == tail && (l.r > v || Has(Assigns, body) ==> l'.r > v)
    decreases body, 0
  {
    if body != [] {
      assert Coins(Assigns, body) + tail == CoinsOf(Assigns, body[0]) + (Coins(Assigns, body[1..]) + tail);
      StepAssigns(v, body[0], l, Coins(Assigns, body[1..]) + tail);
      BodyAssigns(v, body[1..], GoStep(Watching(), body[0], l), tail);
    }
  }

  lemma {:induction false} StepAssigns(v: nat, d: DStmt, l: Leaving<Oracle, int>, tail: seq<bool>)
    requires l.s.world.count >= v && l.s.world.coins == CoinsOf(Assigns, d) + tail
    ensures var l' := GoStep(Watching(), d, l);
      l'.s.world.count >= v && l'.s.world.coins == tail && (l.r > v || HasIn(Assigns, d) ==> l'.r > v)
    decreases d, 1
  {
    if d.DIf? {
      var b := Has(Assigns, d.thn);
      var rest := Coins(Assigns, if b then d.thn else d.els) + tail;
      assert l.s.world.coins == [b] + rest;
      BodyAssigns(v, if b then d.thn else d.els, l.(s := DoTest(Watching(), d.c, d.h, l.s).1), tail);
    }
  }

  /** Two runs of one body on the same path. */
  predicate Paired(l: Leaving<Oracle, int>, m: Leaving<Oracle, int>) {
    l.s.world.coins == m.s.world.coins && |l.s.world.log| == |m.s.world.log| && l.s.vars.Some? && m.s.vars.Some?
  }

  /** They have read different things. */
  predicate Apart(l: Leaving<Oracle, int>, m: Leaving<Oracle, int>) {
    exists i | 0 <= i < |l.s.world.log| && i < |m.s.world.log| :: l.s.world.log[i] != m.s.world.log[i]
  }

  /** What makes them read different things once they look: the variables, or the result. */
  predicate Differing(aim: Aim, l: Leaving<Oracle, int>, m: Leaving<Oracle, int>) {
    if aim == Names then l.s.vars != m.s.vars || Apart(l, m) else aim == Reads && l.r != m.r
  }

  lemma {:induction false} BodyParts(aim: Aim, body: seq<DStmt>, l: Leaving<Oracle, int>, m: Leaving<Oracle, int>, tail: seq<bool>)
    requires Paired(l, m) && Differing(aim, l, m) && l.s.world.coins == Coins(aim, body) + tail && !Has(Assigns, body)
    ensures var l', m' := GoBody(Watching(), body, l), GoBody(Watching(), body, m);
      && Paired(l', m') && Differing(aim, l', m') && l'.s.world.coins == tail && l'.r == l.r && m'.r == m.r
      && (Apart(l, m) || Has(aim, body) ==> Apart(l', m'))
    decreases body, 0
  {
    if body != [] {
      assert Coins(aim, body) + tail == CoinsOf(aim, body[0]) + (Coins(aim, body[1..]) + tail);
      StepParts(aim, body[0], l, m, Coins(aim, body[1..]) + tail);
      BodyParts(aim, body[1..], GoStep(Watching(), body[0], l), GoStep(Watching(), body[0], m), tail);
    }
  }

  lemma {:induction false} StepParts(aim: Aim, d: DStmt, l: Leaving<Oracle, int>, m: Leaving<Oracle, int>, tail: seq<bool>)
    requires Paired(l, m) && Differing(aim, l, m) && l.s.world.coins == CoinsOf(aim, d) + tail && !HasIn(Assigns, d)
    ensures var l', m' := GoStep(Watching(), d, l), GoStep(Watching(), d, m);
      && Paired(l', m') && Differing(aim, l', m') && l'.s.world.coins == tail && l'.r == l.r && m'.r == m.r
      && (Apart(l, m) || HasIn(aim, d) ==> Apart(l', m'))
    decreases d, 1
  {
    BegunParts(aim, d, l, m);
    LogsIt(d, l);
    if d.DIf? {
      var b := Has(aim, d.thn);
      var rest := Coins(aim, if b then d.thn else d.els) + tail;
      assert l.s.world.coins == [b] + rest;
      BodyParts(aim, if b then d.thn else d.els, Begun(d, l), Begun(d, m), tail);
    }
  }

  lemma BegunParts(aim: Aim, d: DStmt, l: Leaving<Oracle, int>, m: Leaving<Oracle, int>)
    requires Paired(l, m) && Differing(aim, l, m) && !d.DSet?
    ensures var l', m' := Begun(d, l), Begun(d, m);
      && Paired(l', m') && Differing(aim, l', m') && l'.r == l.r && m'.r == m.r
      && (Apart(l, m) || Hits(aim, d) ==> Apart(l', m'))
  {
    LogsPart(aim, d, l, m);
    LogsIt(d, l);
    LogsIt(d, m);
  }

  /** What one statement adds to the log. */
  function Entries(d: DStmt, l: Leaving<Oracle, int>): seq<int> {
    if d.DUse? then [l.r] + VarsOf(Seen(d.h, l.s)) else VarsOf(Seen(d.h, l.s))
  }

  /** The step itself, or the test of a conditional one. */
  function Begun(d: DStmt, l: Leaving<Oracle, int>): Leaving<Oracle, int> {
    if d.DIf? then l.(s := DoTest(Watching(), d.c, d.h, l.s).1) else GoStep(Watching(), d, l)
  }

  lemma LogsIt(d: DStmt, l: Leaving<Oracle, int>)
    requires l.s.vars.Some?
    ensures var m := Begun(d, l);
      && m.s.world.log == l.s.world.log + Entries(d, l) && (!d.DSet? ==> m.r == l.r)
      && m.s.vars == (if (d.DAct? || d.DWait?) && d.h != World then Some(1) else l.s.vars)
      && m.s.world.coins == if d.DIf? && l.s.world.coins != [] then l.s.world.coins[1..] else l.s.world.coins
  {
  }

  lemma LogsPart(aim: Aim, d: DStmt, l: Leaving<Oracle, int>, m: Leaving<Oracle, int>)
    requires Paired(l, m) && Differing(aim, l, m)
    ensures |Entries(d, l)| == |Entries(d, m)|
    ensures var a, b := l.s.world.log + Entries(d, l), m.s.world.log + Entries(d, m);
      |a| == |b| && (Apart(l, m) || Hits(aim, d) ==> exists i | 0 <= i < |a| :: a[i] != b[i])
  {
    var a, b := l.s.world.log + Entries(d, l), m.s.world.log + Entries(d, m);
    var n := |l.s.world.log|;
    if Apart(l, m) {
      var i :| 0 <= i < n && l.s.world.log[i] != m.s.world.log[i];
      assert a[i] != b[i];
    } else if Hits(aim, d) {
      assert Entries(d, l) == a[n..] && Entries(d, m) == b[n..];
      var k := |Entries(d, l)| - 1;
      assert if aim == Reads then a[n] == l.r && b[n] == m.r else a[n + k] == l.s.vars.value && b[n + k] == m.s.vars.value;
    }
  }

  /** Steered to a statement that names what is lost, the emitted body is undefined. */
  lemma {:induction false} BodyLost(aim: Aim, body: seq<DStmt>, alive: Alive, t: CState<Oracle, int>, tail: seq<bool>)
    requires t.s.world.coins == Coins(aim, body) + tail
    ensures var u := CBody(Watching(), body, alive, t);
      u.s.world.coins == tail && (t.ub || (Missing(aim, alive) && Has(aim, body)) ==> u.ub)
    decreases body, 0
  {
    if body != [] {
      assert Coins(aim, body) + tail == CoinsOf(aim, body[0]) + (Coins(aim, body[1..]) + tail);
      StepLost(aim, body[0], alive, t, Coins(aim, body[1..]) + tail);
      BodyLost(aim, body[1..], alive, CStep(Watching(), body[0], alive, t), tail);
    }
  }

  lemma {:induction false} StepLost(aim: Aim, d: DStmt, alive: Alive, t: CState<Oracle, int>, tail: seq<bool>)
    requires t.s.world.coins == CoinsOf(aim, d) + tail
    ensures var u := CStep(Watching(), d, alive, t);
      u.s.world.coins == tail && (t.ub || (Missing(aim, alive) && HasIn(aim, d)) ==> u.ub)
    decreases d, 1
  {
    if d.DIf? {
      var b := Has(aim, d.thn);
      var rest := Coins(aim, if b then d.thn else d.els) + tail;
      assert t.s.world.coins == [b] + rest;
      var t1 := t.(s := DoTest(Watching(), d.c, d.h, t.s).1, ub := t.ub || Lost(d.h, alive));
      BodyLost(aim, if b then d.thn else d.els, alive, t1, tail);
    }
  }

  predicate Missing(aim: Aim, alive: Alive) {
    (aim == NamesInner && alive != All) || (aim == NamesLocal && alive == OnlyParams)
  }
}
