/** What a switch and a loop mean, told without the functions that Go's meaning and the
    emitter share: which body is entered, where the default is, what omitted parts do. */
module SwitchMeaning {
  import opened Wrappers
  import opened ControlFlow
  import opened Lowering

  // ---- The first value that matches ------------------------------------------------------

  /** One value of a case. */
  datatype Entry = Entry(of: nat, v: nat)

  /** All values of the cases from i on, in the order they are written. */
  function Entries(cases: seq<Case>, i: nat): seq<Entry>
    requires i <= |cases|
    decreases |cases| - i
  {
    if i == |cases| then [] else seq(|cases[i].values|, k requires 0 <= k < |cases[i].values| => Entry(i, cases[i].values[k])) + Entries(cases, i + 1)
  }

  /** Evaluating one value: it equals the tag's, or is true if there is no tag. */
  function Tested<S>(I: Interp<S>, tag: Option<int>, v: nat, s: S): (bool, S) {
    match tag
    case Some(x) => ((I.eval)(v, s).0 == x, (I.eval)(v, s).1)
    case None => (I.test)(v, s)
  }

  /** The values of es were evaluated one after the other, and each but possibly the last
      failed to match. */
  ghost predicate Tried<S>(I: Interp<S>, tag: Option<int>, es: seq<Entry>, states: seq<S>) {
    && |states| == |es| + 1
    && (forall k :: 0 <= k < |es| ==> states[k + 1] == Tested(I, tag, es[k].v, states[k]).1)
    && (forall k :: 0 <= k < |es| - 1 ==> !Tested(I, tag, es[k].v, states[k]).0)
  }

  ghost predicate Hit<S>(I: Interp<S>, tag: Option<int>, es: seq<Entry>, states: seq<S>) {
    es != [] && |states| == |es| + 1 && Tested(I, tag, es[|es|-1].v, states[|es|-1]).0
  }

  lemma TriedMore<S>(I: Interp<S>, tag: Option<int>, e: Entry, es: seq<Entry>, s: S, states: seq<S>)
    requires Tried(I, tag, es, states) && states[0] == Tested(I, tag, e.v, s).1 && !Tested(I, tag, e.v, s).0
    ensures Tried(I, tag, [e] + es, [s] + states)
    ensures Hit(I, tag, [e] + es, [s] + states) <==> Hit(I, tag, es, states)
  {
    var fs, ts := [e] + es, [s] + states;
    assert forall k :: 0 < k < |fs| ==> fs[k] == es[k - 1];
    assert forall k :: 0 < k < |ts| ==> ts[k] == states[k - 1];
  }

  /** The values of one case. */
  lemma {:induction false} MatchesTries<S>(I: Interp<S>, tag: Option<int>, i: nat, values: seq<nat>, s: S) returns (n: nat, states: seq<S>)
    ensures n <= |values|
    ensures var es := seq(n, k requires 0 <= k < n => Entry(i, values[k])); var (hit, s') := Matches(I, tag, values, s);
      Tried(I, tag, es, states) && states[0] == s && states[n] == s' && (hit <==> Hit(I, tag, es, states)) && (!hit ==> n == |values|)
    decreases |values|
  {
    if values == [] {
      n, states := 0, [s];
    } else {
      var (hit, s1) := Tested(I, tag, values[0], s);
      var first := Entry(i, values[0]);
      if hit {
        n, states := 1, [s, s1];
      } else {
        var m, rest := MatchesTries(I, tag, i, values[1..], s1);
        n, states := m + 1, [s] + rest;
        var es := seq(m, k requires 0 <= k < m => Entry(i, values[1..][k]));
        TriedMore(I, tag, first, es, s, rest);
        assert seq(n, k requires 0 <= k < n => Entry(i, values[k])) == [first] + es;
      }
    }
  }

  lemma TriedBoth<S>(I: Interp<S>, tag: Option<int>, a: seq<Entry>, b: seq<Entry>, xs: seq<S>, ys: seq<S>)
    requires Tried(I, tag, a, xs) && !Hit(I, tag, a, xs) && Tried(I, tag, b, ys) && xs[|a|] == ys[0]
    ensures Tried(I, tag, a + b, xs + ys[1..]) && (xs + ys[1..])[|a| + |b|] == ys[|b|]
    ensures Hit(I, tag, a + b, xs + ys[1..]) <==> Hit(I, tag, b, ys)
  {
    var es, zs := a + b, xs + ys[1..];
    forall k | 0 <= k < |es| ensures zs[k + 1] == Tested(I, tag, es[k].v, zs[k]).1 {
      if k >= |a| { assert es[k] == b[k - |a|] && zs[k] == ys[k - |a|]; }
    }
    forall k | 0 <= k < |es| - 1 ensures !Tested(I, tag, es[k].v, zs[k]).0 {
      if k >= |a| { assert es[k] == b[k - |a|] && zs[k] == ys[k - |a|]; }
    }
  }

  /** The case that is entered is the one with the first value that matches, all values
      being evaluated in the order they are written, up to that one and no further. */
  lemma {:induction false} EntersTheFirstMatch<S>(I: Interp<S>, tag: Option<int>, cases: seq<Case>, i: nat, s: S) returns (n: nat, states: seq<S>)
    requires i <= |cases|
    ensures n <= |Entries(cases, i)|
    ensures var es := Entries(cases, i)[..n]; var (j, s') := Dispatch(I, tag, cases, i, s);
      && Tried(I, tag, es, states) && states[0] == s && states[n] == s'
      && if j < |cases| then Hit(I, tag, es, states) && es[n - 1].of == j else !Hit(I, tag, es, states) && n == |Entries(cases, i)|
    decreases |cases| - i
  {
    if i == |cases| {
      n, states := 0, [s];
    } else {
      var c := cases[i];
      var first := seq(|c.values|, k requires 0 <= k < |c.values| => Entry(i, c.values[k]));
      var all := Entries(cases, i);
      assert all == first + Entries(cases, i + 1);
      var m, xs := MatchesTries(I, tag, i, c.values, s);
      var (hit, s1) := Matches(I, tag, c.values, s);
      assert all[..m] == first[..m] == seq(m, k requires 0 <= k < m => Entry(i, c.values[k]));
      if hit {
        n, states := m, xs;
      } else {
        var k, ys := EntersTheFirstMatch(I, tag, cases, i + 1, s1);
        TriedBoth(I, tag, first, Entries(cases, i + 1)[..k], xs, ys);
        n, states := m + k, xs + ys[1..];
        assert all[..n] == first + Entries(cases, i + 1)[..k];
      }
    }
  }

  // ---- The default ---------------------------------------------------------------------------

  /** Go allows one default at most: case d, or none. */
  predicate OnlyDefault(cases: seq<Case>, d: nat) {
    d < |cases| && cases[d].values == [] && forall i :: 0 <= i < |cases| && i != d ==> cases[i].values != []
  }

  predicate NoDefault(cases: seq<Case>) { forall i :: 0 <= i < |cases| ==> cases[i].values != [] }

  lemma {:induction false} FindsTheDefault(cases: seq<Case>, i: nat, d: nat)
    requires i <= |cases|
    ensures NoDefault(cases) ==> DefaultBelow(cases, i) == |cases|
    ensures OnlyDefault(cases, d) ==> DefaultBelow(cases, i) == if d < i then d else |cases|
    decreases i
  {
    if i > 0 { FindsTheDefault(cases, i - 1, d); }
  }

  /** A switch whose values all fail runs its default, wherever that stands, or nothing. */
  lemma NoMatchRunsTheDefault<S>(I: Interp<S>, st: Stmt, s: S, v: Option<int>, s1: S, s2: S, fuel: nat, d: nat)
    requires st.Switch? && s1 == (if st.swInit.Some? then (I.act)(st.swInit.value, s) else s)
    requires (v, s2) == if st.tag.Some? then (Some((I.eval)(st.tag.value, s1).0), (I.eval)(st.tag.value, s1).1) else (None, s1)
    ensures var (i, s3) := Dispatch(I, v, st.cases, 0, s2);
      && (i < |st.cases| ==> Exec(I, st, s, fuel) == LeaveSwitch(st.swLabel, ExecCases(I, st.cases, i, s3, fuel)))
      && (i == |st.cases| && OnlyDefault(st.cases, d) ==>
            Exec(I, st, s, fuel) == LeaveSwitch(st.swLabel, ExecCases(I, st.cases, d, s3, fuel)))
      && (i == |st.cases| && NoDefault(st.cases) ==> Exec(I, st, s, fuel) == Norm(s3))
  {
    FindsTheDefault(st.cases, |st.cases|, d);
  }

  /** The jump of case k. */
  function JumpOf(cases: seq<Case>, k: nat, tag: Option<nat>, id: nat): Cpp
    requires k < |cases|
  {
    CGotoIf(tag, cases[k].values, CaseOf(id, k))
  }

  /** The emitted tests of a switch with a default: one jump for each other case, to its body,
      in their order; the last instruction goes to the default's body, wherever it stands. */
  lemma {:induction false} TestsGoToTheDefault(cases: seq<Case>, i: nat, tag: Option<nat>, id: nat, d: nat)
    requires i <= |cases| && OnlyDefault(cases, d)
    ensures var ts := Tests(cases, i, tag, id);
      && |ts| == |cases| - i + (if d < i then 1 else 0) && ts[|ts|-1] == CGoto(CaseOf(id, d))
      && (forall k :: i <= k < |cases| && (k < d || d < i) ==> ts[k - i] == JumpOf(cases, k, tag, id))
      && (forall k :: i <= d < k < |cases| ==> ts[k - i - 1] == JumpOf(cases, k, tag, id))
    decreases |cases| - i
  {
    if i == |cases| {
      FindsTheDefault(cases, |cases|, d);
    } else {
      TestsGoToTheDefault(cases, i + 1, tag, id, d);
      if i != d { assert Tests(cases, i, tag, id) == [JumpOf(cases, i, tag, id)] + Tests(cases, i + 1, tag, id); }
    }
  }

  /** Without a default the last instruction goes to the end of the switch. */
  lemma {:induction false} TestsGoToTheEnd(cases: seq<Case>, i: nat, tag: Option<nat>, id: nat)
    requires i <= |cases| && NoDefault(cases)
    ensures var ts := Tests(cases, i, tag, id);
      && |ts| == |cases| - i + 1 && ts[|ts|-1] == CGoto(EndOf(id))
      && forall k :: i <= k < |cases| ==> ts[k - i] == JumpOf(cases, k, tag, id)
    decreases |cases| - i
  {
    if i == |cases| {
      FindsTheDefault(cases, |cases|, 0);
    } else {
      TestsGoToTheEnd(cases, i + 1, tag, id);
      assert Tests(cases, i, tag, id) == [JumpOf(cases, i, tag, id)] + Tests(cases, i + 1, tag, id);
    }
  }

  // ---- Bodies --------------------------------------------------------------------------------

  /** A body that ends in fallthrough goes on with the next case, values or not; any other
      ends the switch; and one that is left early stays left. */
  lemma BodiesFallThrough<S>(I: Interp<S>, cases: seq<Case>, i: nat, b: seq<Stmt>, s: S, fuel: nat)
    requires i < |cases|
    ensures cases[i].body == b + [Fallthrough] ==>
      ExecCases(I, cases, i, s, fuel) ==
        match ExecList(I, b, s, fuel)
        case Norm(s') => ExecCases(I, cases, i + 1, s', fuel)
        case o => o
    ensures cases[i].body == b && (b == [] || b[|b|-1] != Fallthrough) ==> ExecCases(I, cases, i, s, fuel) == ExecList(I, b, s, fuel)
  {
    if cases[i].body == b + [Fallthrough] { assert Proper(cases[i]) == b; }
  }

  // ---- Omitted parts -------------------------------------------------------------------------

  /** A loop without init, test or post statement is one whose test is always true and whose
      init and post statements do nothing. */
  lemma OmittedPartsAreNeutral<S>(I: Interp<S>, lab: Option<Name>, body: seq<Stmt>, a: nat, c: nat, s: S, fuel: nat)
    requires (forall x: S :: (I.act)(a, x) == x) && (forall x: S :: (I.test)(c, x) == (true, x))
    ensures Exec(I, For(lab, None, None, None, body), s, fuel) == Exec(I, For(lab, Some(a), Some(c), Some(a), body), s, fuel)
  {
    RoundsAreTheSame(I, lab, body, a, c, s, fuel);
  }

  lemma {:induction false} RoundsAreTheSame<S>(I: Interp<S>, lab: Option<Name>, body: seq<Stmt>, a: nat, c: nat, s: S, fuel: nat)
    requires (forall x: S :: (I.act)(a, x) == x) && (forall x: S :: (I.test)(c, x) == (true, x))
    ensures ExecFor(I, For(lab, None, None, None, body), s, fuel) == ExecFor(I, For(lab, Some(a), Some(c), Some(a), body), s, fuel)
    decreases fuel
  {
    if fuel > 0 {
      var o := ExecList(I, body, s, fuel);
      if o.Norm? || (o.Cont? && (o.lab == None || o.lab == lab)) { RoundsAreTheSame(I, lab, body, a, c, o.s, fuel - 1); }
    }
  }
}
