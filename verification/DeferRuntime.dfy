/** The panic frame and the defer list as the objects they are at run time: pushed to,
    emptied and destroyed in place, as DeferModel says. */
module DeferRuntime {
  import opened Wrappers
  import M = DeferModel

  /** One activation of a function that has defers. ran remembers the calls the list has
      run and ub whether one has named a variable after its end; the program keeps neither. */
  class Activation<H, V> {
    const I: M.Interp<H, V>
    var s: M.Store<H, V>
    var r: int
    var hasPending: bool
    var pending: int
    var recovered: bool
    var fns: seq<M.Pending<V>>
    ghost var ran: seq<M.Pending<V>>
    var ub: bool

    ghost function View(): M.CState<H, V>
      reads this
    {
      M.C(s, r, M.PanicFrame(hasPending, pending, recovered), fns, ran, ub)
    }

    constructor (I: M.Interp<H, V>, s: M.Store<H, V>)
      ensures View() == M.Entry(s) && this.I == I
    {
      this.I, this.s := I, s;
      r, hasPending, pending, recovered, fns, ran, ub := 0, false, 0, false, [], [], false;
    }

    /** A defer statement: the argument is evaluated now, a function value is not; a waiting
        literal is pushed without its call. */
    method Push(d: M.Deferred)
      modifies this
      ensures var (p, s1) := M.CRegister(I, d, old(r), old(s));
        View() == old(View()).(s := s1, fns := old(fns) + [p])
    {
      var v: Option<int> := None;
      if !M.Awaited(d) {
        var (a, s1) := M.EvalOpt(I, d.arg, r, s);
        v, s := a, s1;
      }
      fns := fns + [M.Pending(d, M.CodeOf(d), v, s.vars, r, false)];
    }

    /** A panic statement, up to its jump to the end label. */
    method Raise(e: nat)
      modifies this
      ensures var (v, s1) := (I.eval)(e, old(r), old(s));
        View() == old(View()).(s := s1, pf := M.PanicFrame(true, v, old(recovered)))
    {
      hasPending := true;
      var (v, s1) := (I.eval)(e, r, s);
      pending, s := v, s1;
    }

    /** Hands out the pending panic, at most once. */
    method Recover() returns (m: Option<int>)
      modifies this
      ensures m == M.Recover(old(View()).pf).0 && View() == old(View()).(pf := M.Recover(old(View()).pf).1)
    {
      if !hasPending { return None; }
      recovered := true;
      m := Some(pending);
      hasPending := false;
    }

    method RunBody(body: seq<M.DStmt>, alive: M.Alive)
      modifies this
      ensures View() == M.CBody(I, body, alive, old(View()))
      decreases body, 0
    {
      var i := 0;
      while i < |body|
        invariant 0 <= i <= |body|
        invariant M.CBody(I, body[i..], alive, View()) == M.CBody(I, body, alive, old(View()))
      {
        assert body[i..][1..] == body[i + 1..];
        RunStep(body[i], alive);
        i := i + 1;
      }
    }

    method RunStep(d: M.DStmt, alive: M.Alive)
      modifies this
      ensures View() == M.CStep(I, d, alive, old(View()))
      decreases d, 1
    {
      if M.Lost(d.h, alive) { ub := true; }
      match d
      case DAct(a, h) => s := M.DoAct(I, a, h, s);
      case DWait(a, h) => s := M.DoAct(I, a, h, s);
      case DUse(a, h) => s := M.DoUse(I, a, h, r, s);
      case DSet(e, h) =>
        var (v, s1) := M.DoEval(I, e, h, r, s);
        s, r := s1, v;
      case DRecover(x, h) =>
        var m := Recover();
        s := M.DoGive(I, x, h, m, s);
      case DIf(c, h, thn, els) =>
        var (b, s1) := M.DoTest(I, c, h, s);
        s := s1;
        if b { RunBody(thn, alive); } else { RunBody(els, alive); }
    }

    /** A waiting literal: its copies take the place of the variables and the result, and in
        the destructor a goroutine without a panic that of this one, until it has finished. */
    method Await(p: M.Pending<V>, dead: bool)
      modifies this
      ensures View() == M.CAwait(I, p, dead, old(View()))
    {
      var vars, result, frame := s.vars, r, M.PanicFrame(hasPending, pending, recovered);
      s, r := M.Store(s.world, p.vars), p.r;
      if dead { hasPending, pending, recovered := false, 0, false; }
      RunBody(p.code, M.All);
      s, r := M.Store(s.world, vars), result;
      if dead { hasPending, pending, recovered := frame.hasPending, frame.pending, frame.recovered; }
    }

    method Run(p: M.Pending<V>, dead: bool)
      modifies this
      ensures View() == M.CCall(I, p, dead, old(View()))
    {
      if M.Abandoned(p.d) { return; }
      if M.Awaited(p.d) { Await(p, dead); return; }
      var body, v := p.code, p.v;
      match p.d.callee {
        case Name(_) =>
        case Stored(f) =>
          var (c, s1) := (I.eval)(f, r, s);
          body, s := (I.code)(c), s1;
        case Literal(code) =>
          var (a, s1) := M.EvalOpt(I, p.d.arg, r, s);
          body, v, s := code, a, s1;
        case Computed(f) =>
          var (c, s1) := (I.eval)(f, r, s);
          var (a, s2) := M.EvalOpt(I, p.d.arg, r, s1);
          body, v, s := (I.code)(c), a, s2;
      }
      s := M.BindOpt(I, p.d.param, v, s);
      RunBody(body, if dead then M.OnlyParams else if p.gone then M.NoInner else M.All);
    }

    /** Pops and runs until nothing is left; a second call does nothing. */
    method RunAll(dead: bool)
      modifies this
      ensures View() == M.RunAll(I, dead, old(View()))
      ensures fns == []
    {
      while fns != []
        invariant M.RunAll(I, dead, View()) == M.RunAll(I, dead, old(View()))
        decreases |fns|
      {
        var p := fns[|fns| - 1];
        fns := fns[..|fns| - 1];
        if !M.Abandoned(p.d) { ran := ran + [p]; }
        Run(p, dead);
      }
    }

    /** Leaving the function with value v: the list's destructor, then the frame's. */
    method Destroy(v: Option<int>) returns (a: M.Answer<H>)
      modifies this
      ensures a == M.Destroy(I, v, old(View()))
    {
      RunAll(true);
      if ub { return M.Undefined; }
      if hasPending && !recovered { return M.Unwound(pending, s.world); }
      return M.Returned(v, s.world);
    }
  }
}
