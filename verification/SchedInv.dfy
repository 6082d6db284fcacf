/** The whole invariant holds in every reachable state. */
module SchedInv {
  import opened Wrappers
  import opened SchedModel
  import opened SchedInvariant
  import opened SchedCounting
  import opened SchedCore
  import opened SchedSteps
  import opened SchedSelect
  import opened SchedTurns
  import opened SchedFlow

  /** The queue and history parts of the invariant. */
  ghost predicate Flow(w: World) {
    forall c :: 0 <= c < |w.chans| ==> QueueOk(w.chans[c], w.sels) && HistoryOk(w.chans[c], w.sels)
  }

  lemma FlowIsQueuesAndHistories(w: World)
    ensures Flow(w) <==> Queues(w) && Histories(w)
  {
    if Flow(w) {
      forall c | 0 <= c < |w.chans| ensures QueueOk(w.chans[c], w.sels) && HistoryOk(w.chans[c], w.sels) { }
    }
  }

  // ---- Waking -----------------------------------------------------------------------

  lemma WokenWins(w: World, w': World, c: nat, x: Waiter, writes: seq<Write>, k: nat)
    requires Refs(w) && Woken(w, w', c, x, writes, k)
    ensures Won(w.sels, w'.sels, x.tk)
  {
    WokenTicket(w, w', c, x, writes, k);
  }

  /** No other channel's send queue holds the ticket of a waiter popped from c; nor
      does c's own, if the waiter was a receiver. */
  lemma TicketIsLocal(w: World, c: nat, x: Waiter, d: nat, y: Waiter)
    requires Refs(w) && c < |w.chans| && d < |w.chans| && y in w.chans[d].sends && y.tk.OfSelect?
    requires (x in w.chans[c].recvs) || (x in w.chans[c].sends && d != c)
    ensures y.tk != x.tk
  {
    assert RecvsOk(w, c, w.chans[c].recvs) && SendsOk(w, c, w.chans[c].sends);
    assert RecvsOk(w, d, w.chans[d].recvs) && SendsOk(w, d, w.chans[d].sends);
  }

  /** Completing a waiter of channel c keeps the flow facts of every other channel. */
  lemma WakeKeepsOthers(w: World, w': World, c: nat, x: Waiter, writes: seq<Write>, k: nat, d: nat)
    requires Refs(w) && Woken(w, w', c, x, writes, k) && d < |w.chans| && d != c
    requires HistoryOk(w.chans[d], w.sels)
    ensures HistoryOk(w'.chans[d], w'.sels)
    ensures QueueOk(w.chans[d], w.sels) ==> QueueOk(w'.chans[d], w'.sels)
  {
    WokenWins(w, w', c, x, writes, k);
    assert x in w.chans[c].recvs || x in w.chans[c].sends;
    forall y | y in w.chans[d].sends && y.tk.OfSelect? ensures y.tk != x.tk { TicketIsLocal(w, c, x, d, y); }
    WonElsewhere(w.chans[d], w.sels, w'.sels, x.tk);
    forall tk | Cancelled(w.sels, tk) ensures Cancelled(w'.sels, tk) { }
  }

  // ---- Sending ------------------------------------------------------------------------

  lemma HandOverFlow(w: World, w': World, c: nat, g: Gid, v: Value)
    requires Refs(w) && Flow(w) && c < |w.chans| && !w.chans[c].closed
    requires DropStale(w.chans[c].recvs, w.sels) != [] && w' == TrySend(w, c, g, v).w
    ensures Flow(w')
  {
    var ch, ch' := w.chans[c], w'.chans[c];
    var k := DropStalePops(ch.recvs, w.sels);
    var x := DropStale(ch.recvs, w.sels)[0];
    var writes := [Write(if x.tk.OfSelect? then x.tk.idx else 0, v, true)];
    assert RecvsOk(w, c, ch.recvs);
    assert Woken(w, w', c, x, writes, k);
    WokenWins(w, w', c, x, writes, k);
    forall y | y in ch.sends && y.tk.OfSelect? ensures y.tk != x.tk { TicketIsLocal(w, c, x, c, y); }
    assert HandedOver(ch, ch', w.sels, k, x, g, v);
    HandOverQueue(ch, ch', w.sels, w'.sels, k, x, g, v);
    HandOver(ch, ch', w.sels, w'.sels, k, x, g, v);
    forall d | 0 <= d < |w'.chans| && d != c ensures QueueOk(w'.chans[d], w'.sels) && HistoryOk(w'.chans[d], w'.sels) {
      WakeKeepsOthers(w, w', c, x, writes, k, d);
    }
  }

  lemma TrySendFlow(w: World, w': World, c: nat, g: Gid, v: Value)
    requires Refs(w) && Flow(w) && c < |w.chans| && !TrySend(w, c, g, v).Failed? && w' == TrySend(w, c, g, v).w
    ensures Flow(w')
  {
    var ch, ch' := w.chans[c], w'.chans[c];
    if DropStale(ch.recvs, w.sels) != [] {
      HandOverFlow(w, w', c, g, v);
    } else {
      var k := DropStaleTrims(ch.recvs, w.sels);
      if |ch.buf| < ch.cap {
        Buffer(ch, ch', w.sels, g, v);
      } else {
        assert Trimmed(ch.sends, ch.sends, 0, w.sels);
        Shed(ch, ch', w.sels, k, 0);
      }
    }
  }

  // ---- Receiving -------------------------------------------------------------------------

  lemma ServeFlow(w: World, w': World, c: nat, g: Gid)
    requires Refs(w) && Flow(w) && c < |w.chans|
    requires DropStale(w.chans[c].sends, w.sels) != [] && w' == TryRecv(w, c, g).w
    ensures Flow(w')
  {
    var ch, ch' := w.chans[c], w'.chans[c];
    var k := DropStalePops(ch.sends, w.sels);
    var x := DropStale(ch.sends, w.sels)[0];
    assert SendsOk(w, c, ch.sends);
    assert Woken(w, w', c, x, [], k);
    WokenWins(w, w', c, x, [], k);
    TicketDistinct(ch.sends, ch'.sends, k, x, w.sels);
    assert Served(ch, ch', w.sels, k, x, g);
    ServeQueue(ch, ch', w.sels, w'.sels, k, x, g);
    Serve(ch, ch', w.sels, w'.sels, k, x, g);
    forall d | 0 <= d < |w'.chans| && d != c ensures QueueOk(w'.chans[d], w'.sels) && HistoryOk(w'.chans[d], w'.sels) {
      WakeKeepsOthers(w, w', c, x, [], k, d);
    }
  }

  lemma TryRecvFlow(w: World, w': World, c: nat, g: Gid)
    requires Refs(w) && Flow(w) && c < |w.chans| && w' == TryRecv(w, c, g).w
    ensures Flow(w')
  {
    var ch, ch' := w.chans[c], w'.chans[c];
    if DropStale(ch.sends, w.sels) != [] {
      ServeFlow(w, w', c, g);
    } else {
      var k := DropStaleTrims(ch.sends, w.sels);
      if ch.buf != [] {
        Unbuffer(ch, ch', w.sels, g);
      } else {
        assert Trimmed(ch.recvs, ch.recvs, 0, w.sels);
        Shed(ch, ch', w.sels, 0, k);
      }
    }
  }

  // ---- Closing ---------------------------------------------------------------------------

  /** The facts that hold while close() of channel c is under way. */
  ghost predicate Closing(w: World, c: nat) {
    && c < |w.chans| && w.chans[c].closed && |w.chans[c].buf| <= w.chans[c].cap
    && HistoryOk(w.chans[c], w.sels)
    && (forall d :: 0 <= d < |w.chans| && d != c ==> QueueOk(w.chans[d], w.sels) && HistoryOk(w.chans[d], w.sels))
  }

  ghost function CloseRecv(w: World, c: nat): World
    requires c < |w.chans| && w.chans[c].recvs != []
  {
    CompleteRecv(SetChan(w, c, w.chans[c].(recvs := w.chans[c].recvs[1..])), w.chans[c].recvs[0], ZERO, false)
  }

  lemma CloseRecvFlow(w: World, w': World, c: nat)
    requires Refs(w) && Closing(w, c) && w.chans[c].recvs != [] && w' == CloseRecv(w, c)
    ensures Closing(w', c)
  {
    var ch, ch' := w.chans[c], w'.chans[c];
    var x := ch.recvs[0];
    if Cancelled(w.sels, x.tk) {
      assert Trimmed(ch.recvs, ch'.recvs, 1, w.sels) && Trimmed(ch.sends, ch'.sends, 0, w.sels);
      Shed(ch, ch', w.sels, 1, 0);
    } else {
      var writes := [Write(if x.tk.OfSelect? then x.tk.idx else 0, ZERO, false)];
      assert RecvsOk(w, c, ch.recvs) && x in ch.recvs;
      assert Popped(ch.recvs, ch'.recvs, 0, x, w.sels);
      assert Woken(w, w', c, x, writes, 0);
      WokenWins(w, w', c, x, writes, 0);
      forall y | y in ch.sends && y.tk.OfSelect? ensures y.tk != x.tk { TicketIsLocal(w, c, x, c, y); }
      WonElsewhere(ch, w.sels, w'.sels, x.tk);
      forall d | 0 <= d < |w'.chans| && d != c ensures QueueOk(w'.chans[d], w'.sels) && HistoryOk(w'.chans[d], w'.sels) {
        WakeKeepsOthers(w, w', c, x, writes, 0, d);
      }
    }
  }

  lemma {:induction false} CloseRecvsFlow(w: World, w': World, c: nat)
    requires Core(w) && Closing(w, c) && w' == CloseRecvs(w, c)
    ensures Core(w') && Closing(w', c) && w'.chans[c].recvs == []
    decreases |w.chans[c].recvs|
  {
    if w.chans[c].recvs != [] {
      var w1 := CloseRecv(w, c);
      CloseRecvCore(w, c);
      CloseRecvFlow(w, w1, c);
      CloseRecvsFlow(w1, w', c);
    }
  }

  lemma CloseSendFlow(w: World, w': World, c: nat)
    requires Refs(w) && Closing(w, c) && w.chans[c].sends != [] && w' == CloseSend(w, c)
    ensures Closing(w', c) && w'.chans[c].recvs == w.chans[c].recvs
  {
    var ch, ch' := w.chans[c], w'.chans[c];
    var x := ch.sends[0];
    if Cancelled(w.sels, x.tk) {
      assert Trimmed(ch.recvs, ch'.recvs, 0, w.sels) && Trimmed(ch.sends, ch'.sends, 1, w.sels);
      Shed(ch, ch', w.sels, 0, 1);
    } else {
      assert SendsOk(w, c, ch.sends);
      assert Popped(ch.sends, ch'.sends, 0, x, w.sels);
      assert Woken(w, w', c, x, [], 0);
      WokenWins(w, w', c, x, [], 0);
      TicketDistinct(ch.sends, ch'.sends, 0, x, w.sels);
      Discard(ch, ch', w.sels, w'.sels, 0, x);
      forall d | 0 <= d < |w'.chans| && d != c ensures QueueOk(w'.chans[d], w'.sels) && HistoryOk(w'.chans[d], w'.sels) {
        WakeKeepsOthers(w, w', c, x, [], 0, d);
      }
    }
  }

  lemma {:induction false} CloseSendsFlow(w: World, w': World, c: nat)
    requires Core(w) && Closing(w, c) && w' == CloseSends(w, c)
    ensures Core(w') && Closing(w', c) && w'.chans[c].sends == [] && w'.chans[c].recvs == w.chans[c].recvs
    decreases |w.chans[c].sends|
  {
    if w.chans[c].sends != [] {
      var w1 := CloseSend(w, c);
      CloseSendCore(w, c);
      CloseSendFlow(w, w1, c);
      CloseSendsFlow(w1, w', c);
    }
  }

  lemma CloseStarts(w: World, w1: World, c: nat)
    requires Core(w) && c < |w.chans| && w1 == SetChan(w, c, w.chans[c].(closed := true))
    ensures Core(w1)
  {
    var ch := w.chans[c];
    assert Trimmed(ch.recvs, ch.recvs, 0, w.sels) && Trimmed(ch.sends, ch.sends, 0, w.sels);
    TrimKeepsCore(w, c, ch.(closed := true), 0, 0);
  }

  lemma ClosingStarts(w: World, w1: World, c: nat)
    requires Flow(w) && c < |w.chans| && w1 == SetChan(w, c, w.chans[c].(closed := true))
    ensures Closing(w1, c)
  {
    assert QueueOk(w.chans[c], w.sels) && HistoryOk(w.chans[c], w.sels);
  }

  lemma ClosingEnds(w: World, c: nat)
    requires Closing(w, c) && w.chans[c].recvs == [] && w.chans[c].sends == []
    ensures Flow(w)
  {
    assert QueueOk(w.chans[c], w.sels);
  }

  lemma CloseStep(w: World, w': World, c: nat)
    requires Core(w) && Flow(w) && c < |w.chans| && !w.chans[c].closed && w' == CloseChan(w, c)
    ensures Core(w') && Flow(w')
    ensures w'.chans[c].closed && w'.chans[c].recvs == [] && w'.chans[c].sends == []
  {
    var w1 := SetChan(w, c, w.chans[c].(closed := true));
    CloseStarts(w, w1, c);
    ClosingStarts(w, w1, c);
    var w2 := CloseRecvs(w1, c);
    CloseRecvsFlow(w1, w2, c);
    CloseSendsFlow(w2, w', c);
    ClosingEnds(w', c);
  }

  // ---- Selecting ---------------------------------------------------------------------------

  lemma {:induction false} TryCasesFlow(w: World, w': World, g: Gid, cases: seq<Case>, i: nat)
    requires Core(w) && Flow(w) && CasesOk(w, cases) && i <= |cases|
    requires !TryCases(w, g, cases, i).Aborted? && w' == TryCases(w, g, cases, i).w
    ensures Flow(w')
    decreases |cases| - i
  {
    if i < |cases| {
      match cases[i]
      case DefaultCase => TryCasesFlow(w, w', g, cases, i + 1);
      case RecvCase(c) =>
        var r := TryRecv(w, c, g);
        TryRecvCore(w, c, g);
        TryRecvFlow(w, r.w, c, g);
        if r.Empty? { TryCasesFlow(r.w, w', g, cases, i + 1); }
      case SendCase(c, v) =>
        var r := TrySend(w, c, g, v);
        TrySendCore(w, c, g, v);
        TrySendFlow(w, r.w, c, g, v);
        if r.Blocked? { TryCasesFlow(r.w, w', g, cases, i + 1); }
    }
  }

  /** Case cs cannot proceed: a receive sees an empty open channel with nobody
      sending, a send a full open one with nobody receiving. */
  ghost predicate Stuck(w: World, cs: Case) {
    match cs
    case DefaultCase => true
    case RecvCase(c) => c < |w.chans| && !w.chans[c].closed && w.chans[c].buf == [] && w.chans[c].sends == []
    case SendCase(c, _) => c < |w.chans| && !w.chans[c].closed && |w.chans[c].buf| >= w.chans[c].cap && w.chans[c].recvs == []
  }

  /** Failed attempts only empty queues of stale entries. */
  ghost predicate OnlyShed(w: World, w': World) {
    && |w'.chans| == |w.chans| && w'.sels == w.sels
    && forall c :: 0 <= c < |w.chans| ==>
         && w'.chans[c] == w.chans[c].(recvs := w'.chans[c].recvs, sends := w'.chans[c].sends)
         && (w.chans[c].recvs == [] ==> w'.chans[c].recvs == [])
         && (w.chans[c].sends == [] ==> w'.chans[c].sends == [])
  }

  lemma {:induction false} NoneReadyMeansStuck(w: World, w': World, g: Gid, cases: seq<Case>, i: nat)
    requires CasesOk(w, cases) && i <= |cases| && TryCases(w, g, cases, i) == NoneReady(w')
    ensures OnlyShed(w, w') && w' == w.(chans := w'.chans) && forall j :: i <= j < |cases| ==> Stuck(w', cases[j])
    decreases |cases| - i
  {
    if i < |cases| {
      var w1 := match cases[i]
                case DefaultCase => w
                case RecvCase(c) => TryRecv(w, c, g).w
                case SendCase(c, v) => TrySend(w, c, g, v).w;
      NoneReadyMeansStuck(w1, w', g, cases, i + 1);
      assert Stuck(w1, cases[i]);
    }
  }

  /** The cases still to be queued are stuck, but for entries of select t itself. */
  ghost predicate StuckBut(w: World, t: nat, cs: Case) {
    match cs
    case DefaultCase => true
    case RecvCase(c) =>
      && c < |w.chans| && !w.chans[c].closed && w.chans[c].buf == []
      && forall s :: s in w.chans[c].sends && Live(w.sels, s) ==> s.tk.OfSelect? && s.tk.t == t
    case SendCase(c, _) =>
      && c < |w.chans| && !w.chans[c].closed && |w.chans[c].buf| >= w.chans[c].cap
      && forall r :: r in w.chans[c].recvs && Live(w.sels, r) ==> r.tk.OfSelect? && r.tk.t == t
  }

  /** One case of select t is queued. */
  ghost predicate CaseAdded(w: World, w': World, g: Gid, t: nat, i: nat, cs: Case) {
    match cs
    case DefaultCase => false
    case RecvCase(c) => c < |w.chans| && w' == SetChan(w, c, AddRecv(w.chans[c], Entry(g, t, i, cs)))
    case SendCase(c, _) => c < |w.chans| && w' == SetChan(w, c, AddSend(w.chans[c], Entry(g, t, i, cs)))
  }

  lemma CaseAddedFlow(w: World, w': World, g: Gid, t: nat, i: nat, cs: Case)
    requires Flow(w) && t < |w.sels| && !w.sels[t].cancelled && CaseAdded(w, w', g, t, i, cs) && StuckBut(w, t, cs)
    ensures Flow(w')
  {
    var c := cs.c;
    var ch := w.chans[c];
    if cs.SendCase? {
      OfferJoins(ch, w.sels, Entry(g, t, i, cs));
    }
    assert QueueOk(ch, w.sels) && HistoryOk(ch, w.sels);
    forall d | 0 <= d < |w'.chans| ensures QueueOk(w'.chans[d], w'.sels) && HistoryOk(w'.chans[d], w'.sels) {
      assert QueueOk(w.chans[d], w.sels) && HistoryOk(w.chans[d], w.sels);
    }
  }

  lemma CaseAddedStuck(w: World, w': World, g: Gid, t: nat, i: nat, cs: Case, other: Case)
    requires CaseAdded(w, w', g, t, i, cs) && StuckBut(w, t, other)
    ensures StuckBut(w', t, other)
  {
  }

  lemma {:induction false} ParkCasesFlow(w: World, w': World, g: Gid, t: nat, cases: seq<Case>, i: nat)
    requires Flow(w) && t < |w.sels| && !w.sels[t].cancelled && CasesOk(w, cases) && i <= |cases|
    requires forall j :: i <= j < |cases| ==> StuckBut(w, t, cases[j])
    requires w' == ParkCases(w, g, t, cases, i)
    ensures Flow(w')
    decreases |cases| - i
  {
    if i < |cases| {
      var cs := cases[i];
      if cs.DefaultCase? {
        ParkCasesFlow(w, w', g, t, cases, i + 1);
      } else {
        var w1 := SetChan(w, cs.c, if cs.RecvCase? then AddRecv(w.chans[cs.c], Entry(g, t, i, cs))
                                   else AddSend(w.chans[cs.c], Entry(g, t, i, cs)));
        CaseAddedFlow(w, w1, g, t, i, cs);
        forall j | i + 1 <= j < |cases| ensures StuckBut(w1, t, cases[j]) {
          CaseAddedStuck(w, w1, g, t, i, cs, cases[j]);
        }
        ParkCasesFlow(w1, w', g, t, cases, i + 1);
      }
    }
  }

  lemma VerdictsKeepFlow(w: World, w': World)
    requires Flow(w) && w'.chans == w.chans && SameVerdicts(w.sels, w'.sels)
    ensures Flow(w')
  {
    forall c | 0 <= c < |w'.chans| ensures QueueOk(w'.chans[c], w'.sels) && HistoryOk(w'.chans[c], w'.sels) {
      VerdictsKeep(w.chans[c], w.sels, w'.sels);
    }
  }

  lemma ParkedSelectFlow(w: World, w': World, cases: seq<Case>)
    requires Flow(w) && w.stack != [] && CasesOk(w, cases) && w' == ParkedSelect(w, cases)
    requires forall j :: 0 <= j < |cases| ==> Stuck(w, cases[j])
    ensures Flow(w')
  {
    var t := |w.sels|;
    var w1 := SelectPrepared(w, cases);
    VerdictsKeepFlow(w, w1);
    forall j | 0 <= j < |cases| ensures StuckBut(w1, t, cases[j]) {
      assert Stuck(w, cases[j]);
    }
    ParkCasesFlow(w1, w', Top(w).g, t, cases, 0);
  }

  // ---- Steps ---------------------------------------------------------------------------------

  lemma ParkedRecvFlow(w: World, w': World, c: nat)
    requires Flow(w) && w.stack != [] && c < |w.chans| && w' == ParkedRecv(w, c)
    requires !w.chans[c].closed && w.chans[c].buf == [] && w.chans[c].sends == []
    ensures Flow(w')
  {
    assert QueueOk(w.chans[c], w.sels) && HistoryOk(w.chans[c], w.sels);
    forall d | 0 <= d < |w'.chans| ensures QueueOk(w'.chans[d], w'.sels) && HistoryOk(w'.chans[d], w'.sels) {
      assert QueueOk(w.chans[d], w.sels) && HistoryOk(w.chans[d], w.sels);
    }
  }

  lemma ParkedSendFlow(w: World, w': World, c: nat, v: Value)
    requires Flow(w) && w.stack != [] && c < |w.chans| && w' == ParkedSend(w, c, v)
    requires !w.chans[c].closed && |w.chans[c].buf| >= w.chans[c].cap && w.chans[c].recvs == []
    ensures Flow(w')
  {
    assert QueueOk(w.chans[c], w.sels) && HistoryOk(w.chans[c], w.sels);
    OfferJoins(w.chans[c], w.sels, Waiter(Top(w).g, v, Plain));
    forall d | 0 <= d < |w'.chans| ensures QueueOk(w'.chans[d], w'.sels) && HistoryOk(w'.chans[d], w'.sels) {
      assert QueueOk(w.chans[d], w.sels) && HistoryOk(w.chans[d], w.sels);
    }
  }

  lemma ParkedSendCore(w: World, w': World, c: nat, v: Value)
    requires Core(w) && w.stack != [] && c < |w.chans| && w' == ParkedSend(w, c, v)
    ensures Core(w')
  {
    TopIsFree(w);
    ParkSendTables(w, c, v);
    ParkSendCounts(w, c, v);
  }

  lemma ParkedRecvCore(w: World, w': World, c: nat)
    requires Core(w) && w.stack != [] && c < |w.chans| && w' == ParkedRecv(w, c)
    ensures Core(w')
  {
    TopIsFree(w);
    ParkRecvTables(w, c);
    ParkRecvCounts(w, c);
  }

  lemma SendTried(w: World, w1: World, c: nat, g: Gid, v: Value)
    requires Core(w) && Flow(w) && c < |w.chans| && !TrySend(w, c, g, v).Failed? && w1 == TrySend(w, c, g, v).w
    ensures Core(w1) && Flow(w1)
  {
    TrySendCore(w, c, g, v);
    TrySendFlow(w, w1, c, g, v);
  }

  lemma RecvTried(w: World, w1: World, c: nat, g: Gid)
    requires Core(w) && Flow(w) && c < |w.chans| && w1 == TryRecv(w, c, g).w
    ensures Core(w1) && Flow(w1)
  {
    TryRecvCore(w, c, g);
    TryRecvFlow(w, w1, c, g);
  }

  lemma SetLastFlow(w: World, w': World, g: Gid, out: Outcome)
    requires Flow(w) && w' == SetLast(w, g, out)
    ensures Flow(w')
  {
  }

  lemma SetLastKeeps(w: World, w': World, g: Gid, out: Outcome)
    requires Core(w) && Flow(w) && w' == SetLast(w, g, out)
    ensures Core(w') && Flow(w')
  {
    SetLastCore(w, w', g, out);
    SetLastFlow(w, w', g, out);
  }

  lemma ParkedSendKeeps(w: World, w': World, c: nat, v: Value)
    requires Core(w) && Flow(w) && w.stack != [] && c < |w.chans| && w' == ParkedSend(w, c, v)
    requires !w.chans[c].closed && |w.chans[c].buf| >= w.chans[c].cap && w.chans[c].recvs == []
    ensures Core(w') && Flow(w')
  {
    ParkedSendCore(w, w', c, v);
    ParkedSendFlow(w, w', c, v);
  }

  lemma ParkedRecvKeeps(w: World, w': World, c: nat)
    requires Core(w) && Flow(w) && w.stack != [] && c < |w.chans| && w' == ParkedRecv(w, c)
    requires !w.chans[c].closed && w.chans[c].buf == [] && w.chans[c].sends == []
    ensures Core(w') && Flow(w')
  {
    ParkedRecvCore(w, w', c);
    ParkedRecvFlow(w, w', c);
  }

  /** A send either finishes at once or parks on a channel that is open, full and
      without receivers. */
  lemma SendShape(w: World, w': World, w1: World, c: nat, v: Value)
    requires Active(w) && c < |w.chans| && DoSend(w, c, v) == Next(w') && w1 == TrySend(w, c, Top(w).g, v).w
    ensures !TrySend(w, c, Top(w).g, v).Failed? && SameShape(w, w1)
    ensures (w' == SetLast(w1, Top(w).g, Sent))
         || (w' == ParkedSend(w1, c, v) && !w1.chans[c].closed && |w1.chans[c].buf| >= w1.chans[c].cap
             && w1.chans[c].recvs == [])
  {
  }

  /** A receive either finishes at once or parks on a channel that is open, empty and
      without senders. */
  lemma RecvShape(w: World, w': World, r: Got, c: nat)
    requires Active(w) && c < |w.chans| && DoRecv(w, c) == Next(w') && r == TryRecv(w, c, Top(w).g)
    ensures SameShape(w, r.w)
    ensures if r.Got? then w' == SetLast(r.w, Top(w).g, Received(r.v, r.ok))
            else w' == ParkedRecv(r.w, c) && !r.w.chans[c].closed && r.w.chans[c].buf == [] && r.w.chans[c].sends == []
  {
  }

  lemma SendStep(w: World, w': World, c: nat, v: Value)
    requires Core(w) && Flow(w) && Active(w) && c < |w.chans| && DoSend(w, c, v) == Next(w')
    ensures Core(w') && Flow(w')
  {
    var w1 := TrySend(w, c, Top(w).g, v).w;
    SendShape(w, w', w1, c, v);
    SendTried(w, w1, c, Top(w).g, v);
    if w' == SetLast(w1, Top(w).g, Sent) {
      SetLastKeeps(w1, w', Top(w).g, Sent);
    } else {
      ParkedSendKeeps(w1, w', c, v);
    }
  }

  lemma RecvStep(w: World, w': World, c: nat)
    requires Core(w) && Flow(w) && Active(w) && c < |w.chans| && DoRecv(w, c) == Next(w')
    ensures Core(w') && Flow(w')
  {
    var r := TryRecv(w, c, Top(w).g);
    RecvShape(w, w', r, c);
    RecvTried(w, r.w, c, Top(w).g);
    if r.Got? {
      SetLastKeeps(r.w, w', Top(w).g, Received(r.v, r.ok));
    } else {
      ParkedRecvKeeps(r.w, w', c);
    }
  }

  lemma SelectTried(w: World, w1: World, g: Gid, cases: seq<Case>)
    requires Core(w) && Flow(w) && CasesOk(w, cases)
    requires !TryCases(w, g, cases, 0).Aborted? && w1 == TryCases(w, g, cases, 0).w
    ensures Core(w1) && Flow(w1)
  {
    TryCasesCore(w, g, cases, 0);
    TryCasesFlow(w, w1, g, cases, 0);
  }

  lemma SelectParked(w: World, w1: World, w': World, cases: seq<Case>)
    requires Core(w1) && Flow(w1) && Active(w1) && CasesOk(w, cases) && DefaultFrom(cases, 0) < 0
    requires w.stack == w1.stack && TryCases(w, Top(w).g, cases, 0) == NoneReady(w1) && w' == ParkedSelect(w1, cases)
    ensures Core(w') && Flow(w')
  {
    NoneReadyMeansStuck(w, w1, Top(w).g, cases, 0);
    ParkedSelectCore(w1, w', cases);
    ParkedSelectFlow(w1, w', cases);
  }

  /** What a select that did not abort leaves behind. */
  lemma SelectShape(w: World, w': World, r: Choice, cases: seq<Case>)
    requires Active(w) && CasesOk(w, cases) && DoSelect(w, cases) == Next(w') && r == TryCases(w, Top(w).g, cases, 0)
    ensures !r.Aborted? && SameShape(w, r.w)
    ensures r.Chosen? ==> w' == SetLast(r.w, Top(w).g, Picked(r.idx, r.writes))
    ensures r.NoneReady? && DefaultFrom(cases, 0) >= 0 ==> w' == SetLast(r.w, Top(w).g, Picked(DefaultFrom(cases, 0), []))
    ensures r.NoneReady? && DefaultFrom(cases, 0) < 0 ==> w' == ParkedSelect(r.w, cases)
  {
    if r.NoneReady? && DefaultFrom(cases, 0) < 0 { SelectParks(r.w, w', cases); }
  }

  lemma SelectStep(w: World, w': World, cases: seq<Case>)
    requires Core(w) && Flow(w) && Active(w) && CasesOk(w, cases) && DoSelect(w, cases) == Next(w')
    ensures Core(w') && Flow(w')
  {
    var r := TryCases(w, Top(w).g, cases, 0);
    SelectShape(w, w', r, cases);
    SelectTried(w, r.w, Top(w).g, cases);
    if r.Chosen? {
      SetLastKeeps(r.w, w', Top(w).g, Picked(r.idx, r.writes));
    } else if DefaultFrom(cases, 0) >= 0 {
      SetLastKeeps(r.w, w', Top(w).g, Picked(DefaultFrom(cases, 0), []));
    } else {
      SelectParked(w, r.w, w', cases);
    }
  }

  /** Suspending before or after queueing the cases makes no difference. */
  lemma {:induction false} ParkCasesCommutes(w: World, u: World, g: Gid, t: nat, cases: seq<Case>, i: nat)
    requires CasesOk(w, cases) && CasesOk(u, cases) && i <= |cases| && u.chans == w.chans
    ensures ParkCases(u, g, t, cases, i).chans == ParkCases(w, g, t, cases, i).chans
    decreases |cases| - i
  {
    if i < |cases| {
      var cs := cases[i];
      match cs
      case DefaultCase => ParkCasesCommutes(w, u, g, t, cases, i + 1);
      case RecvCase(c) =>
        var ch := AddRecv(w.chans[c], Entry(g, t, i, cs));
        ParkCasesCommutes(SetChan(w, c, ch), SetChan(u, c, ch), g, t, cases, i + 1);
      case SendCase(c, _) =>
        var ch := AddSend(w.chans[c], Entry(g, t, i, cs));
        ParkCasesCommutes(SetChan(w, c, ch), SetChan(u, c, ch), g, t, cases, i + 1);
    }
  }

  lemma SelectParks(w: World, w': World, cases: seq<Case>)
    requires w.stack != [] && CasesOk(w, cases)
    requires var t := |w.sels|;
      var w1 := w.(sels := w.sels + [Sel(Top(w).g, cases, false, -1, true, [])], parked := w.parked + 1);
      w' == Suspend(ParkCases(w1, Top(w).g, t, cases, 0), AtSelect(t))
    ensures w' == ParkedSelect(w, cases)
  {
    var t := |w.sels|;
    var w1 := w.(sels := w.sels + [Sel(Top(w).g, cases, false, -1, true, [])], parked := w.parked + 1);
    ParkCasesCommutes(w1, SelectPrepared(w, cases), Top(w).g, t, cases, 0);
  }

  lemma ResumeFlow(w: World, w': World)
    requires Flow(w) && w.ready != [] && w.ready[0] < |w.gs| && DoResume(w) == Next(w')
    ensures Flow(w')
  {
    assert w'.chans == w.chans && SameVerdicts(w.sels, w'.sels);
    VerdictsKeepFlow(w, w');
  }

  lemma ResumeStep(w: World, w': World)
    requires Core(w) && Flow(w) && Scheduling(w) && w.ready != [] && w.ready[0] < |w.gs| && DoResume(w) == Next(w')
    ensures Core(w') && Flow(w')
  {
    ResumeCore(w, w');
    ResumeFlow(w, w');
  }

  lemma MakeChanFlow(w: World, w': World, cap: nat)
    requires Flow(w) && w' == DoMakeChan(w, cap).w
    ensures Flow(w')
  {
    forall d | 0 <= d < |w'.chans| ensures QueueOk(w'.chans[d], w'.sels) && HistoryOk(w'.chans[d], w'.sels) {
      if d < |w.chans| { assert QueueOk(w.chans[d], w.sels) && HistoryOk(w.chans[d], w.sels); }
    }
  }

  /** The steps that leave every channel and select alone. */
  lemma SchedulerStep(w: World, w': World, a: Action)
    requires Core(w) && Enabled(w, a) && Step(w, a) == Next(w')
    requires a.ASpawn? || a.ACall? || a.AHostCall? || a.AFinish? || a.APumpStart? || a.APumpEnd? || a.AHostDone?
    ensures Core(w')
  {
    match a
    case ASpawn => SpawnCore(w, w');
    case ACall => CallCore(w, w');
    case AHostCall => HostCallCore(w, w');
    case AFinish => FinishCore(w, w');
    case APumpStart => PumpStartCore(w, w');
    case APumpEnd => RepumpCore(w, w', None);
    case AHostDone(id) => HostDoneCore(w, w', id);
  }

  lemma SchedulerStepFlow(w: World, w': World, a: Action)
    requires Flow(w) && Enabled(w, a) && Step(w, a) == Next(w')
    requires a.ASpawn? || a.ACall? || a.AHostCall? || a.AFinish? || a.APumpStart? || a.APumpEnd? || a.AHostDone?
    ensures Flow(w')
  {
    assert w'.chans == w.chans && w'.sels == w.sels;
  }

  lemma StepKeeps(w: World, w': World, a: Action)
    requires Core(w) && Flow(w) && Enabled(w, a) && Step(w, a) == Next(w')
    ensures Core(w') && Flow(w')
  {
    match a
    case ASend(c, v) => SendStep(w, w', c, v);
    case ARecv(c) => RecvStep(w, w', c);
    case AClose(c) => CloseStep(w, w', c);
    case ASelect(cases) => SelectStep(w, w', cases);
    case AMakeChan(n) =>
      MakeChanCore(w, w', n);
      MakeChanFlow(w, w', n);
    case AResume => ResumeStep(w, w');
    case _ =>
      SchedulerStep(w, w', a);
      SchedulerStepFlow(w, w', a);
  }

  /** No step the world allows breaks the invariant. */
  lemma StepKeepsInv(w: World, w': World, a: Action)
    requires Inv(w) && Enabled(w, a) && Step(w, a) == Next(w')
    ensures Inv(w')
  {
    FlowIsQueuesAndHistories(w);
    FlowIsQueuesAndHistories(w');
    StepKeeps(w, w', a);
  }

  lemma {:induction false} RunKeepsInv(w: World, run: seq<Action>, w': World)
    requires Inv(w) && Reaches(w, run, w')
    ensures Inv(w')
    decreases |run|
  {
    if run != [] {
      StepKeepsInv(w, Step(w, run[0]).w, run[0]);
      RunKeepsInv(Step(w, run[0]).w, run[1..], w');
    }
  }

  /** The invariant holds over every run. */
  lemma ReachableInv(w: World)
    requires Reachable(w)
    ensures Inv(w)
  {
    var run :| Reaches(EMPTY_WORLD, run, w);
    assert Inv(EMPTY_WORLD);
    RunKeepsInv(EMPTY_WORLD, run, w);
  }
}
