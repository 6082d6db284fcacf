/** Nobody overtakes: the waiters of a channel leave its queues at the front and join them at
    the end. */
module SchedQueues {
  import opened SchedModel
  import opened SchedInvariant
  import opened SchedCore
  import opened SchedSteps
  import opened SchedSelect
  import opened SchedInv

  /** q' is q without some of its first entries, and with others behind it. */
  ghost predicate MovesUp(q: seq<Waiter>, q': seq<Waiter>) { exists k: nat :: Shifted(q, q', k) }

  ghost predicate Shifted(q: seq<Waiter>, q': seq<Waiter>, k: nat) { k <= |q| && q[k..] <= q' }

  lemma MovesUpBy(q: seq<Waiter>, q': seq<Waiter>, k: nat)
    requires Shifted(q, q', k)
    ensures MovesUp(q, q')
  {
  }

  lemma MovesUpAgain(q: seq<Waiter>, p: seq<Waiter>, q': seq<Waiter>)
    requires MovesUp(q, p) && MovesUp(p, q')
    ensures MovesUp(q, q')
  {
    var k: nat :| Shifted(q, p, k);
    var j: nat :| Shifted(p, q', j);
    if k + j <= |q| {
      assert q[k + j..] == q[k..][j..] && q[k..][j..] <= p[j..];
      MovesUpBy(q, q', k + j);
    } else {
      assert q[|q|..] == [];
      MovesUpBy(q, q', |q|);
    }
  }

  ghost predicate OrderKept(w: World, w': World) {
    && |w.chans| <= |w'.chans|
    && forall c :: 0 <= c < |w.chans| ==> MovesUp(w.chans[c].recvs, w'.chans[c].recvs) && MovesUp(w.chans[c].sends, w'.chans[c].sends)
  }

  lemma OrderKeptAgain(w: World, w1: World, w': World)
    requires OrderKept(w, w1) && OrderKept(w1, w')
    ensures OrderKept(w, w')
  {
    forall c | 0 <= c < |w.chans| ensures MovesUp(w.chans[c].recvs, w'.chans[c].recvs) && MovesUp(w.chans[c].sends, w'.chans[c].sends) {
      MovesUpAgain(w.chans[c].recvs, w1.chans[c].recvs, w'.chans[c].recvs);
      MovesUpAgain(w.chans[c].sends, w1.chans[c].sends, w'.chans[c].sends);
    }
  }

  /** Only channel c's queues have changed, and they have moved up. */
  lemma OneChannelMoves(w: World, w': World, c: nat, j: nat, k: nat)
    requires c < |w.chans| && |w'.chans| == |w.chans| && w'.chans == w.chans[c := w'.chans[c]]
    requires Shifted(w.chans[c].recvs, w'.chans[c].recvs, j) && Shifted(w.chans[c].sends, w'.chans[c].sends, k)
    ensures OrderKept(w, w')
  {
    forall d | 0 <= d < |w.chans| ensures MovesUp(w.chans[d].recvs, w'.chans[d].recvs) && MovesUp(w.chans[d].sends, w'.chans[d].sends) {
      if d == c {
        MovesUpBy(w.chans[c].recvs, w'.chans[c].recvs, j);
        MovesUpBy(w.chans[c].sends, w'.chans[c].sends, k);
      } else {
        MovesUpBy(w.chans[d].recvs, w'.chans[d].recvs, 0);
        MovesUpBy(w.chans[d].sends, w'.chans[d].sends, 0);
      }
    }
  }

  lemma SameQueuesKept(w: World, w': World)
    requires |w.chans| <= |w'.chans| && forall c :: 0 <= c < |w.chans| ==> w'.chans[c] == w.chans[c]
    ensures OrderKept(w, w')
  {
    forall c | 0 <= c < |w.chans| ensures MovesUp(w.chans[c].recvs, w'.chans[c].recvs) && MovesUp(w.chans[c].sends, w'.chans[c].sends) {
      MovesUpBy(w.chans[c].recvs, w'.chans[c].recvs, 0);
      MovesUpBy(w.chans[c].sends, w'.chans[c].sends, 0);
    }
  }

  lemma TrySendOrder(w: World, w': World, c: nat, g: Gid, v: Value)
    requires c < |w.chans| && !TrySend(w, c, g, v).Failed? && w' == TrySend(w, c, g, v).w
    ensures OrderKept(w, w')
  {
    var q := w.chans[c].recvs;
    var k := DropStaleTrims(q, w.sels);
    if DropStale(q, w.sels) != [] {
      assert q[k..][1..] == q[k + 1..];
      OneChannelMoves(w, w', c, k + 1, 0);
    } else {
      assert q[|q|..] == [];
      OneChannelMoves(w, w', c, |q|, 0);
    }
  }

  lemma TryRecvOrder(w: World, w': World, c: nat, g: Gid)
    requires c < |w.chans| && w' == TryRecv(w, c, g).w
    ensures OrderKept(w, w')
  {
    var q := w.chans[c].sends;
    var k := DropStaleTrims(q, w.sels);
    if DropStale(q, w.sels) != [] {
      assert q[k..][1..] == q[k + 1..];
      OneChannelMoves(w, w', c, 0, k + 1);
    } else {
      assert q[|q|..] == [];
      OneChannelMoves(w, w', c, 0, |q|);
    }
  }

  lemma {:induction false} CloseRecvsOrder(w: World, w': World, c: nat)
    requires c < |w.chans| && w' == CloseRecvs(w, c)
    ensures OrderKept(w, w')
    decreases |w.chans[c].recvs|
  {
    if w.chans[c].recvs != [] {
      var w1 := CloseRecv(w, c);
      OneChannelMoves(w, w1, c, 1, 0);
      CloseRecvsOrder(w1, w', c);
      OrderKeptAgain(w, w1, w');
    } else {
      SameQueuesKept(w, w');
    }
  }

  lemma {:induction false} CloseSendsOrder(w: World, w': World, c: nat)
    requires c < |w.chans| && w' == CloseSends(w, c)
    ensures OrderKept(w, w')
    decreases |w.chans[c].sends|
  {
    if w.chans[c].sends != [] {
      var w1 := CloseSend(w, c);
      OneChannelMoves(w, w1, c, 0, 1);
      CloseSendsOrder(w1, w', c);
      OrderKeptAgain(w, w1, w');
    } else {
      SameQueuesKept(w, w');
    }
  }

  lemma CloseOrder(w: World, w': World, c: nat)
    requires c < |w.chans| && !w.chans[c].closed && w' == CloseChan(w, c)
    ensures OrderKept(w, w')
  {
    var w1 := SetChan(w, c, w.chans[c].(closed := true));
    var w2 := CloseRecvs(w1, c);
    OneChannelMoves(w, w1, c, 0, 0);
    CloseRecvsOrder(w1, w2, c);
    CloseSendsOrder(w2, w', c);
    OrderKeptAgain(w, w1, w2);
    OrderKeptAgain(w, w2, w');
  }

  lemma {:induction false} TryCasesOrder(w: World, w': World, g: Gid, cases: seq<Case>, i: nat)
    requires CasesOk(w, cases) && i <= |cases| && !TryCases(w, g, cases, i).Aborted? && w' == TryCases(w, g, cases, i).w
    ensures OrderKept(w, w')
    decreases |cases| - i
  {
    if i == |cases| {
      SameQueuesKept(w, w');
    } else {
      match cases[i]
      case DefaultCase => TryCasesOrder(w, w', g, cases, i + 1);
      case RecvCase(c) =>
        var r := TryRecv(w, c, g);
        TryRecvOrder(w, r.w, c, g);
        if r.Empty? { TryCasesOrder(r.w, w', g, cases, i + 1); OrderKeptAgain(w, r.w, w'); }
      case SendCase(c, v) =>
        var r := TrySend(w, c, g, v);
        TrySendOrder(w, r.w, c, g, v);
        if r.Blocked? { TryCasesOrder(r.w, w', g, cases, i + 1); OrderKeptAgain(w, r.w, w'); }
    }
  }

  lemma {:induction false} ParkCasesOrder(w: World, w': World, g: Gid, t: nat, cases: seq<Case>, i: nat)
    requires CasesOk(w, cases) && i <= |cases| && w' == ParkCases(w, g, t, cases, i)
    ensures OrderKept(w, w')
    decreases |cases| - i
  {
    if i == |cases| {
      SameQueuesKept(w, w');
    } else if cases[i].DefaultCase? {
      ParkCasesOrder(w, w', g, t, cases, i + 1);
    } else {
      var c, x := cases[i].c, Entry(g, t, i, cases[i]);
      var w1 := SetChan(w, c, if cases[i].RecvCase? then AddRecv(w.chans[c], x) else AddSend(w.chans[c], x));
      OneChannelMoves(w, w1, c, 0, 0);
      ParkCasesOrder(w1, w', g, t, cases, i + 1);
      OrderKeptAgain(w, w1, w');
    }
  }

  lemma SendOrder(w: World, w': World, c: nat, v: Value)
    requires Active(w) && c < |w.chans| && DoSend(w, c, v) == Next(w')
    ensures OrderKept(w, w')
  {
    var w1 := TrySend(w, c, Top(w).g, v).w;
    SendShape(w, w', w1, c, v);
    TrySendOrder(w, w1, c, Top(w).g, v);
    if w' == SetLast(w1, Top(w).g, Sent) { SameQueuesKept(w1, w'); } else { OneChannelMoves(w1, w', c, 0, 0); }
    OrderKeptAgain(w, w1, w');
  }

  lemma RecvOrder(w: World, w': World, c: nat)
    requires Active(w) && c < |w.chans| && DoRecv(w, c) == Next(w')
    ensures OrderKept(w, w')
  {
    var r := TryRecv(w, c, Top(w).g);
    RecvShape(w, w', r, c);
    TryRecvOrder(w, r.w, c, Top(w).g);
    if r.Got? { SameQueuesKept(r.w, w'); } else { OneChannelMoves(r.w, w', c, 0, 0); }
    OrderKeptAgain(w, r.w, w');
  }

  lemma SelectOrder(w: World, w': World, cases: seq<Case>)
    requires Active(w) && CasesOk(w, cases) && DoSelect(w, cases) == Next(w')
    ensures OrderKept(w, w')
  {
    var r := TryCases(w, Top(w).g, cases, 0);
    SelectShape(w, w', r, cases);
    TryCasesOrder(w, r.w, Top(w).g, cases, 0);
    if w' == ParkedSelect(r.w, cases) { ParkedOrder(r.w, w', cases); } else { SameQueuesKept(r.w, w'); }
    OrderKeptAgain(w, r.w, w');
  }

  lemma ParkedOrder(w: World, w': World, cases: seq<Case>)
    requires w.stack != [] && CasesOk(w, cases) && w' == ParkedSelect(w, cases)
    ensures OrderKept(w, w')
  {
    var w1 := SelectPrepared(w, cases);
    SameQueuesKept(w, w1);
    ParkCasesOrder(w1, w', Top(w).g, |w.sels|, cases, 0);
    OrderKeptAgain(w, w1, w');
  }

  lemma OtherOrder(w: World, w': World, a: Action)
    requires Enabled(w, a) && Step(w, a) == Next(w') && !a.ASend? && !a.ARecv? && !a.ASelect? && !a.AClose?
    ensures OrderKept(w, w')
  {
    SameQueuesKept(w, w');
  }

  lemma StepOrder(w: World, w': World, a: Action)
    requires Enabled(w, a) && Step(w, a) == Next(w')
    ensures OrderKept(w, w')
  {
    match a
    case ASend(c, v) => SendOrder(w, w', c, v);
    case ARecv(c) => RecvOrder(w, w', c);
    case ASelect(cases) => SelectOrder(w, w', cases);
    case AClose(c) => CloseOrder(w, w', c);
    case _ => OtherOrder(w, w', a);
  }

  lemma {:induction false} RunOrder(w: World, run: seq<Action>, w': World)
    requires Reaches(w, run, w')
    ensures OrderKept(w, w')
    decreases |run|
  {
    if run == [] {
      SameQueuesKept(w, w');
    } else {
      var w1 := Step(w, run[0]).w;
      StepOrder(w, w1, run[0]);
      RunOrder(w1, run[1..], w');
      OrderKeptAgain(w, w1, w');
    }
  }

  /** Over every run the waiters of a channel keep their order: who is still in a queue has
      only lost entries in front, and whoever has joined since stands behind. */
  lemma NobodyOvertakes(w: World, run: seq<Action>, w': World, c: nat)
    requires Reaches(w, run, w') && c < |w.chans|
    ensures c < |w'.chans|
    ensures exists k :: 0 <= k <= |w.chans[c].recvs| && w.chans[c].recvs[k..] <= w'.chans[c].recvs
    ensures exists k :: 0 <= k <= |w.chans[c].sends| && w.chans[c].sends[k..] <= w'.chans[c].sends
  {
    RunOrder(w, run, w');
    var j: nat :| Shifted(w.chans[c].recvs, w'.chans[c].recvs, j);
    var k: nat :| Shifted(w.chans[c].sends, w'.chans[c].sends, k);
  }
}
