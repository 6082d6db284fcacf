/** What never changes back: histories only grow, a completed select keeps its
    verdict, a closed channel stays closed. */
module SchedHistory {
  import opened SchedModel
  import opened SchedInvariant
  import opened SchedCore
  import opened SchedInv
  import SchedSelect
  import SchedSteps

  ghost predicate Grows(h: History, h': History) {
    h.offers <= h'.offers && h.settled <= h'.settled && h.delivered <= h'.delivered && h.dropped <= h'.dropped
  }

  ghost predicate ChanAfter(ch: Chan, ch': Chan) {
    ch'.cap == ch.cap && (ch.closed ==> ch'.closed) && Grows(ch.hist, ch'.hist)
  }

  ghost predicate SelAfter(s: Sel, s': Sel) {
    && s'.owner == s.owner && s'.cases == s.cases
    && (s.cancelled ==> s'.cancelled && s'.winner == s.winner && s'.writes == s.writes)
  }

  /** w' may come after w. */
  ghost predicate After(w: World, w': World) {
    && |w.chans| <= |w'.chans| && |w.sels| <= |w'.sels| && |w.gs| <= |w'.gs|
    && (forall c :: 0 <= c < |w.chans| ==> ChanAfter(w.chans[c], w'.chans[c]))
    && (forall t :: 0 <= t < |w.sels| ==> SelAfter(w.sels[t], w'.sels[t]))
    && (forall g :: 0 <= g < |w.gs| && w.gs[g].done ==> w'.gs[g].done)
  }

  lemma AfterAfter(w: World, w1: World, w': World)
    requires After(w, w1) && After(w1, w')
    ensures After(w, w')
  {
    forall c | 0 <= c < |w.chans| ensures ChanAfter(w.chans[c], w'.chans[c]) {
      assert ChanAfter(w.chans[c], w1.chans[c]) && ChanAfter(w1.chans[c], w'.chans[c]);
    }
    forall t | 0 <= t < |w.sels| ensures SelAfter(w.sels[t], w'.sels[t]) {
      assert SelAfter(w.sels[t], w1.sels[t]) && SelAfter(w1.sels[t], w'.sels[t]);
    }
  }

  lemma CompleteAfter(w: World, c: nat, ch: Chan, x: Waiter, v: Value, ok: bool)
    requires c < |w.chans| && ChanAfter(w.chans[c], ch)
    ensures After(w, CompleteRecv(SetChan(w, c, ch), x, v, ok))
    ensures After(w, CompleteSend(SetChan(w, c, ch), x))
    ensures After(w, SetChan(w, c, ch))
  {
  }

  lemma TrySendAfter(w: World, c: nat, g: Gid, v: Value)
    requires c < |w.chans| && !TrySend(w, c, g, v).Failed?
    ensures After(w, TrySend(w, c, g, v).w)
  {
    var ch := w.chans[c];
    var rs := DropStale(ch.recvs, w.sels);
    var ch' := TrySend(w, c, g, v).w.chans[c];
    assert ChanAfter(ch, ch');
    if rs != [] { CompleteAfter(w, c, ch', rs[0], v, true); } else { CompleteAfter(w, c, ch', Waiter(g, v, Plain), v, true); }
  }

  lemma TryRecvAfter(w: World, c: nat, g: Gid)
    requires c < |w.chans|
    ensures After(w, TryRecv(w, c, g).w)
  {
    var ch := w.chans[c];
    var ss := DropStale(ch.sends, w.sels);
    var ch' := TryRecv(w, c, g).w.chans[c];
    assert ChanAfter(ch, ch');
    if ss != [] { CompleteAfter(w, c, ch', ss[0], ZERO, true); } else { CompleteAfter(w, c, ch', Waiter(g, ZERO, Plain), ZERO, true); }
  }

  lemma {:induction false} CloseRecvsAfter(w: World, c: nat)
    requires c < |w.chans|
    ensures After(w, CloseRecvs(w, c))
    decreases |w.chans[c].recvs|
  {
    if w.chans[c].recvs != [] {
      var ch := w.chans[c];
      CompleteAfter(w, c, ch.(recvs := ch.recvs[1..]), ch.recvs[0], ZERO, false);
      CloseRecvsAfter(CloseRecv(w, c), c);
      AfterAfter(w, CloseRecv(w, c), CloseRecvs(w, c));
    }
  }

  lemma {:induction false} CloseSendsAfter(w: World, c: nat)
    requires c < |w.chans|
    ensures After(w, CloseSends(w, c))
    decreases |w.chans[c].sends|
  {
    if w.chans[c].sends != [] {
      var ch := w.chans[c];
      var ch' := ch.(sends := ch.sends[1..], hist := Drop(ch.hist, ch.sends[0], w.sels));
      CompleteAfter(w, c, ch', ch.sends[0], ZERO, false);
      CloseSendsAfter(CloseSend(w, c), c);
      AfterAfter(w, CloseSend(w, c), CloseSends(w, c));
    }
  }

  lemma CloseAfter(w: World, c: nat)
    requires c < |w.chans| && !w.chans[c].closed
    ensures After(w, CloseChan(w, c))
  {
    var w1 := SetChan(w, c, w.chans[c].(closed := true));
    CloseRecvsAfter(w1, c);
    CloseSendsAfter(CloseRecvs(w1, c), c);
    AfterAfter(w, w1, CloseRecvs(w1, c));
    AfterAfter(w, CloseRecvs(w1, c), CloseChan(w, c));
  }

  lemma {:induction false} TryCasesAfter(w: World, g: Gid, cases: seq<Case>, i: nat)
    requires CasesOk(w, cases) && i <= |cases|
    ensures !TryCases(w, g, cases, i).Aborted? ==> After(w, TryCases(w, g, cases, i).w)
    decreases |cases| - i
  {
    if i < |cases| {
      match cases[i]
      case DefaultCase => TryCasesAfter(w, g, cases, i + 1);
      case RecvCase(c) =>
        var r := TryRecv(w, c, g);
        TryRecvAfter(w, c, g);
        if r.Empty? { TriedThen(w, r.w, g, cases, i); }
      case SendCase(c, v) =>
        var r := TrySend(w, c, g, v);
        if !r.Failed? { TrySendAfter(w, c, g, v); }
        if r.Blocked? { TriedThen(w, r.w, g, cases, i); }
    }
  }

  lemma {:induction false} TriedThen(w: World, w1: World, g: Gid, cases: seq<Case>, i: nat)
    requires After(w, w1) && CasesOk(w1, cases) && i < |cases|
    ensures !TryCases(w1, g, cases, i + 1).Aborted? ==> After(w, TryCases(w1, g, cases, i + 1).w)
    decreases |cases| - i, 0
  {
    TryCasesAfter(w1, g, cases, i + 1);
    if !TryCases(w1, g, cases, i + 1).Aborted? { AfterAfter(w, w1, TryCases(w1, g, cases, i + 1).w); }
  }

  /** The send cases from i on are on offer once they have been queued. */
  ghost predicate OfferedFrom(w: World, g: Gid, t: nat, cases: seq<Case>, i: nat) {
    forall j :: i <= j < |cases| && cases[j].SendCase? ==>
      cases[j].c < |w.chans| && Entry(g, t, j, cases[j]) in w.chans[cases[j].c].hist.offers
  }

  lemma {:induction false} ParkCasesAfter(w: World, w': World, g: Gid, t: nat, cases: seq<Case>, i: nat)
    requires CasesOk(w, cases) && i <= |cases| && w' == ParkCases(w, g, t, cases, i)
    ensures After(w, w') && OfferedFrom(w', g, t, cases, i)
    decreases |cases| - i
  {
    if i < |cases| {
      var cs := cases[i];
      if cs.DefaultCase? {
        ParkCasesAfter(w, w', g, t, cases, i + 1);
      } else {
        var x := Entry(g, t, i, cs);
        var ch := if cs.RecvCase? then AddRecv(w.chans[cs.c], x) else AddSend(w.chans[cs.c], x);
        var w1 := SetChan(w, cs.c, ch);
        CompleteAfter(w, cs.c, ch, x, ZERO, true);
        ParkCasesAfter(w1, w', g, t, cases, i + 1);
        AfterAfter(w, w1, w');
        if cs.SendCase? {
          assert x in ch.hist.offers;
          assert ChanAfter(w1.chans[cs.c], w'.chans[cs.c]);
        }
      }
    }
  }

  /** Every send case of every parked select was put on offer. */
  ghost predicate Offered(w: World) {
    forall t :: 0 <= t < |w.sels| ==> OfferedFrom(w, w.sels[t].owner, t, w.sels[t].cases, 0)
  }

  lemma AfterKeepsOffered(w: World, w': World)
    requires Offered(w) && After(w, w') && |w'.sels| == |w.sels|
    ensures Offered(w')
  {
    forall t | 0 <= t < |w'.sels| ensures OfferedFrom(w', w'.sels[t].owner, t, w'.sels[t].cases, 0) {
      StillOffered(w, w', t);
    }
  }

  lemma StillOffered(w: World, w': World, t: nat)
    requires After(w, w') && t < |w.sels| && OfferedFrom(w, w.sels[t].owner, t, w.sels[t].cases, 0)
    ensures OfferedFrom(w', w.sels[t].owner, t, w.sels[t].cases, 0)
  {
    var s := w.sels[t];
    assert SelAfter(s, w'.sels[t]);
    forall j | 0 <= j < |s.cases| && s.cases[j].SendCase?
      ensures s.cases[j].c < |w'.chans| && Entry(s.owner, t, j, s.cases[j]) in w'.chans[s.cases[j].c].hist.offers
    {
      assert ChanAfter(w.chans[s.cases[j].c], w'.chans[s.cases[j].c]);
    }
  }

  lemma ParkedSelectAfter(w: World, w': World, cases: seq<Case>)
    requires w.stack != [] && CasesOk(w, cases) && w' == SchedSelect.ParkedSelect(w, cases)
    ensures After(w, w') && (Offered(w) ==> Offered(w'))
  {
    var t := |w.sels|;
    var w1 := SchedSelect.SelectPrepared(w, cases);
    ParkCasesAfter(w1, w', Top(w).g, t, cases, 0);
    assert After(w, w1);
    AfterAfter(w, w1, w');
    assert w'.sels == w1.sels;
    if Offered(w) {
      forall u | 0 <= u < |w'.sels| ensures OfferedFrom(w', w'.sels[u].owner, u, w'.sels[u].cases, 0) {
        if u < t { StillOffered(w, w', u); }
      }
    }
  }

  lemma SelectAfter(w: World, w': World, cases: seq<Case>)
    requires Active(w) && CasesOk(w, cases) && DoSelect(w, cases) == Next(w')
    ensures After(w, w') && (Offered(w) ==> Offered(w'))
  {
    var r := TryCases(w, Top(w).g, cases, 0);
    SelectShape(w, w', r, cases);
    TryCasesAfter(w, Top(w).g, cases, 0);
    if Offered(w) { AfterKeepsOffered(w, r.w); }
    if r.NoneReady? && DefaultFrom(cases, 0) < 0 {
      ParkedSelectAfter(r.w, w', cases);
    } else {
      assert After(r.w, w');
      if Offered(w) { AfterKeepsOffered(r.w, w'); }
    }
    AfterAfter(w, r.w, w');
  }

  lemma ParkAfter(w: World, w': World, c: nat, v: Value)
    requires w.stack != [] && c < |w.chans| && (w' == SchedSteps.ParkedSend(w, c, v) || w' == SchedSteps.ParkedRecv(w, c))
    ensures After(w, w') && |w'.sels| == |w.sels|
  {
    assert ChanAfter(w.chans[c], w'.chans[c]);
  }

  lemma SetLastAfter(w: World, w': World, g: Gid, out: Outcome)
    requires w' == SetLast(w, g, out)
    ensures After(w, w') && |w'.sels| == |w.sels|
  {
  }

  lemma SendAfter(w: World, w': World, c: nat, v: Value)
    requires Active(w) && c < |w.chans| && DoSend(w, c, v) == Next(w')
    ensures After(w, w') && |w'.sels| == |w.sels|
  {
    var w1 := TrySend(w, c, Top(w).g, v).w;
    SendShape(w, w', w1, c, v);
    TrySendAfter(w, c, Top(w).g, v);
    if w' == SetLast(w1, Top(w).g, Sent) {
      SetLastAfter(w1, w', Top(w).g, Sent);
    } else {
      ParkAfter(w1, w', c, v);
    }
    AfterAfter(w, w1, w');
  }

  lemma RecvAfter(w: World, w': World, c: nat)
    requires Active(w) && c < |w.chans| && DoRecv(w, c) == Next(w')
    ensures After(w, w') && |w'.sels| == |w.sels|
  {
    var r := TryRecv(w, c, Top(w).g);
    RecvShape(w, w', r, c);
    TryRecvAfter(w, c, Top(w).g);
    if r.Got? {
      SetLastAfter(r.w, w', Top(w).g, Received(r.v, r.ok));
    } else {
      ParkAfter(r.w, w', c, ZERO);
    }
    AfterAfter(w, r.w, w');
  }

  lemma StepAfter(w: World, w': World, a: Action)
    requires Enabled(w, a) && Step(w, a) == Next(w')
    ensures After(w, w') && (Offered(w) ==> Offered(w'))
  {
    match a
    case ASelect(cases) => SelectAfter(w, w', cases);
    case ASend(c, v) =>
      SendAfter(w, w', c, v);
      if Offered(w) { AfterKeepsOffered(w, w'); }
    case ARecv(c) =>
      RecvAfter(w, w', c);
      if Offered(w) { AfterKeepsOffered(w, w'); }
    case AClose(c) =>
      CloseAfter(w, c);
      if Offered(w) { AfterKeepsOffered(w, w'); }
    case _ =>
      PlainStepAfter(w, w', a);
      if Offered(w) { AfterKeepsOffered(w, w'); }
  }

  lemma PlainStepAfter(w: World, w': World, a: Action)
    requires Enabled(w, a) && Step(w, a) == Next(w')
    requires !a.ASelect? && !a.ASend? && !a.ARecv? && !a.AClose?
    ensures After(w, w') && |w'.sels| == |w.sels|
  {
    forall c | 0 <= c < |w.chans| ensures ChanAfter(w.chans[c], w'.chans[c]) { }
    forall t | 0 <= t < |w.sels| ensures SelAfter(w.sels[t], w'.sels[t]) { }
  }

  lemma {:induction false} RunAfter(w: World, run: seq<Action>, w': World)
    requires Reaches(w, run, w')
    ensures After(w, w') && (Offered(w) ==> Offered(w'))
    decreases |run|
  {
    if run != [] {
      var w1 := Step(w, run[0]).w;
      StepAfter(w, w1, run[0]);
      RunAfter(w1, run[1..], w');
      AfterAfter(w, w1, w');
    }
  }
}
