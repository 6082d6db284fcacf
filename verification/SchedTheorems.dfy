/** What the invariant means for programs: one wake source per goroutine, no lost
    wakeup, FIFO delivery, selects decided once, and exact deadlock verdicts. */
module SchedTheorems {
  import opened SchedModel
  import opened SchedInvariant
  import opened SchedCounting
  import opened SchedCore
  import opened SchedFlow
  import opened SchedInv
  import opened SchedHistory
  import SchedSteps

  // ---- Wake sources -----------------------------------------------------------------

  /** In every reachable state an unfinished goroutine has exactly one wake source,
      counted with multiplicity, and a finished one has none. */
  lemma OneWakeSource(w: World, g: Gid)
    requires Reachable(w) && g < |w.gs|
    ensures StackAll(w.stack)[g] + multiset(w.ready)[g] + PlainAll(w.chans)[g] + LiveAll(w.sels)[g]
            + PendingAll(w.calls)[g] == if w.gs[g].done then 0 else 1
  {
    ReachableInv(w);
    OneSource(w, g);
  }

  /** A value that a sequence's multiset holds once is at one position only. */
  lemma OncePerPosition(q: seq<Gid>, i: nat, j: nat)
    requires i < j < |q| && multiset(q)[q[i]] == 1
    ensures q[i] != q[j]
  {
    assert q == q[..i + 1] + q[i + 1..];
    assert q[i] in q[..i + 1] && q[j] in q[i + 1..];
    assert multiset(q) == multiset(q[..i + 1]) + multiset(q[i + 1..]);
  }

  /** Nobody is queued to run twice, or queued while running. */
  lemma NeverResumedTwice(w: World, i: nat, j: nat)
    requires Reachable(w) && i < |w.ready|
    ensures i < j < |w.ready| ==> w.ready[i] != w.ready[j]
    ensures j < |w.stack| ==> w.stack[j].g != w.ready[i]
    ensures w.ready[i] < |w.gs| && !w.gs[w.ready[i]].done
  {
    ReachableInv(w);
    OneSource(w, w.ready[i]);
    assert w.ready[i] in multiset(w.ready);
    if i < j < |w.ready| { OncePerPosition(w.ready, i, j); }
    if j < |w.stack| { StackMember(w.stack, j); }
  }

  /** g is unfinished and neither running nor about to run. */
  ghost predicate Asleep(w: World, g: Gid) {
    g < |w.gs| && !w.gs[g].done && g !in w.ready && g !in StackAll(w.stack)
  }

  /** g waits where its coroutine is suspended, and what it waits for has not
      happened: no value, no room, no partner, no close, no reply. */
  ghost predicate WaitsRightly(w: World, g: Gid)
    requires g < |w.gs|
  {
    match w.gs[g].at
    case AtRecv(c) =>
      && c < |w.chans| && Waiter(g, ZERO, Plain) in w.chans[c].recvs
      && w.chans[c].buf == [] && !w.chans[c].closed && (forall s :: s in w.chans[c].sends ==> !Live(w.sels, s))
    case AtSend(c) =>
      && c < |w.chans| && (exists x :: x in w.chans[c].sends && x.g == g && x.tk.Plain?)
      && |w.chans[c].buf| == w.chans[c].cap && !w.chans[c].closed
      && (forall r :: r in w.chans[c].recvs ==> !Live(w.sels, r))
    case AtSelect(t) =>
      && t < |w.sels| && !w.sels[t].cancelled && w.sels[t].owner == g
      && (forall i: nat :: i < |w.sels[t].cases| ==> Enrolled(w, t, i) && StuckBut(w, t, w.sels[t].cases[i]))
    case AtHost(id) => id < |w.calls| && !w.calls[id].done && w.calls[id].owner == g
    case _ => false
  }

  lemma LiveSelectWaitsRightly(w: World, t: nat, i: nat)
    requires Inv(w) && t < |w.sels| && !w.sels[t].cancelled && i < |w.sels[t].cases|
    ensures Enrolled(w, t, i) && StuckBut(w, t, w.sels[t].cases[i])
  {
    assert SelOk(w, t);
    assert Enrolled(w, t, i);
    var s := w.sels[t];
    if !s.cases[i].DefaultCase? {
      var x := Entry(s.owner, t, i, s.cases[i]);
      assert QueueOk(w.chans[s.cases[i].c], w.sels);
      assert Live(w.sels, x);
    }
  }

  /** A sleeping goroutine is where its waker looks, and nothing it waits for has come. */
  lemma NoLostWakeup(w: World, g: Gid)
    requires Reachable(w) && Asleep(w, g)
    ensures WaitsRightly(w, g)
  {
    ReachableInv(w);
    OneSource(w, g);
    if g in PlainAll(w.chans) {
      var c, x := PlainAllWitness(w.chans, g);
      assert RecvsOk(w, c, w.chans[c].recvs) && SendsOk(w, c, w.chans[c].sends);
      assert QueueOk(w.chans[c], w.sels);
      assert Live(w.sels, x);
    } else if g in LiveAll(w.sels) {
      var t := LiveWitness(w.sels, g);
      assert SelOk(w, t);
      forall i: nat | i < |w.sels[t].cases| ensures Enrolled(w, t, i) && StuckBut(w, t, w.sels[t].cases[i]) {
        LiveSelectWaitsRightly(w, t, i);
      }
    } else {
      var id := PendingWitness(w.calls, g);
      assert CallOk(w, id);
    }
  }

  // ---- Channels ---------------------------------------------------------------------

  /** The buffer and the parked waiters of a channel never contradict each other. */
  lemma ChannelInvariant(w: World, c: nat, r: Waiter, s: Waiter)
    requires Reachable(w) && c < |w.chans|
    ensures var ch := w.chans[c];
      && |ch.buf| <= ch.cap
      && (s in ch.sends && Live(w.sels, s) ==> |ch.buf| == ch.cap && !ch.closed)
      && (r in ch.recvs && Live(w.sels, r) ==> ch.buf == [] && !ch.closed)
      && (r in ch.recvs && Live(w.sels, r) && s in ch.sends && Live(w.sels, s) ==>
            r.tk.OfSelect? && s.tk.OfSelect? && r.tk.t == s.tk.t && r.g == s.g)
  {
    ReachableInv(w);
    assert QueueOk(w.chans[c], w.sels);
    assert RecvsOk(w, c, w.chans[c].recvs) && SendsOk(w, c, w.chans[c].sends);
  }

  /** FIFO and conservation: the values received, then the buffer, then what close()
      discarded, then the live parked senders, are exactly the offers that no select
      withdrew, in the order they were made. Nothing is discarded while the channel
      is open and nobody stays parked once it is closed. */
  lemma Conservation(w: World, c: nat)
    requires Reachable(w) && c < |w.chans|
    ensures var ch := w.chans[c];
      && Values(KeptOf(ch.hist.offers, w.sels))
         == Amounts(ch.hist.delivered) + ch.buf + Values(ch.hist.dropped) + Values(LiveQ(ch.sends, w.sels))
      && (!ch.closed ==> ch.hist.dropped == [])
      && (ch.closed ==> LiveQ(ch.sends, w.sels) == [])
  {
    ReachableInv(w);
    var ch := w.chans[c];
    assert QueueOk(ch, w.sels) && HistoryOk(ch, w.sels);
    ValuesAppend(ch.hist.settled + ch.hist.dropped, LiveQ(ch.sends, w.sels));
    ValuesAppend(ch.hist.settled, ch.hist.dropped);
    if ch.closed { StaleQ(ch.sends, w.sels); }
  }

  /** The histories above are what happened: no step rewrites them, it only appends. */
  lemma HistoriesOnlyGrow(w: World, run: seq<Action>, w': World, c: nat)
    requires Reaches(w, run, w') && c < |w.chans|
    ensures c < |w'.chans| && Grows(w.chans[c].hist, w'.chans[c].hist)
  {
    RunAfter(w, run, w');
    assert ChanAfter(w.chans[c], w'.chans[c]);
  }

  /** A receive that does not have to wait gets the oldest value there is, and the
      channel records exactly that delivery. */
  lemma ReceivesTheOldest(w: World, c: nat, w': World)
    requires Reachable(w) && Active(w) && c < |w.chans| && DoRecv(w, c) == Next(w')
    ensures var ch := w.chans[c]; var queued := ch.buf + Values(LiveQ(ch.sends, w.sels)); var g := Top(w).g;
      g < |w'.gs| && c < |w'.chans| &&
      if queued != [] then
        w'.gs[g].last == Received(queued[0], true) && w'.chans[c].hist.delivered == ch.hist.delivered + [Delivery(g, queued[0])]
      else if ch.closed then
        w'.gs[g].last == Received(ZERO, false) && w'.chans[c].hist == ch.hist
      else w'.gs[g].at == AtRecv(c) && w'.chans[c].hist == ch.hist
  {
    ReachableInv(w);
    SchedSteps.TopIsFree(w);
    TryRecvTakesTheOldest(w, c, Top(w).g);
  }

  lemma FirstLive(q: seq<Waiter>, sels: seq<Sel>)
    requires LiveQ(q, sels) != []
    ensures DropStale(q, sels) != [] && DropStale(q, sels)[0] == LiveQ(q, sels)[0] && LiveQ(q, sels)[0] in q
  {
    var k := DropStaleTrims(q, sels);
    StalePrefix(q, k, sels);
    var rs := DropStale(q, sels);
    assert LiveQ(rs, sels) == [rs[0]] + LiveQ(rs[1..], sels);
  }

  /** w' is w with stale queue entries dropped. */
  ghost predicate SameOffers(w: World, w': World) {
    && w'.sels == w.sels && |w'.chans| == |w.chans| && w'.gs == w.gs
    && forall c :: 0 <= c < |w.chans| ==> SameOffer(w.chans[c], w'.chans[c], w.sels)
  }

  ghost predicate SameOffer(ch: Chan, ch': Chan, sels: seq<Sel>) {
    ch'.buf == ch.buf && ch'.closed == ch.closed && ch'.hist == ch.hist && LiveQ(ch'.sends, sels) == LiveQ(ch.sends, sels)
  }

  /** What TryRecv finds in a channel, and records there. */
  lemma TryRecvTakesTheOldest(w: World, c: nat, g: Gid)
    requires c < |w.chans|
    ensures var ch := w.chans[c]; var queued := ch.buf + Values(LiveQ(ch.sends, w.sels));
      match TryRecv(w, c, g)
      case Got(w', v, ok) =>
        if queued != [] then ok && v == queued[0] && w'.chans[c].hist.delivered == ch.hist.delivered + [Delivery(g, v)]
        else ch.closed && !ok && v == ZERO && w'.chans[c].hist == ch.hist
      case Empty(w') => queued == [] && !ch.closed && SameOffers(w, w')
  {
    var ch := w.chans[c];
    var k := DropStaleTrims(ch.sends, w.sels);
    StalePrefix(ch.sends, k, w.sels);
    if LiveQ(ch.sends, w.sels) != [] { FirstLive(ch.sends, w.sels); }
  }

  lemma TrySendOffers(w: World, c: nat, g: Gid, v: Value)
    requires c < |w.chans|
    ensures match TrySend(w, c, g, v)
      case Done(w') => w'.chans[c].hist.settled == w.chans[c].hist.settled + [Waiter(g, v, Plain)]
      case Blocked(w') => SameOffers(w, w')
      case Failed => true
  {
  }

  /** The case a select picks without parking: a receive writes what TryRecv takes from the
      channel as it was before the select, a send is accepted there. */
  ghost predicate PickedRightly(w: World, g: Gid, cs: Case, i: nat, w': World, writes: seq<Write>) {
    match cs
    case DefaultCase => false
    case SendCase(c, v) =>
      && writes == [] && c < |w.chans| && c < |w'.chans|
      && w'.chans[c].hist.settled == w.chans[c].hist.settled + [Waiter(g, v, Plain)]
    case RecvCase(c) =>
      && c < |w.chans| && c < |w'.chans| && |writes| == 1 && writes[0].idx == i
      && var ch := w.chans[c]; var queued := ch.buf + Values(LiveQ(ch.sends, w.sels));
        if queued != [] then
          writes[0] == Write(i, queued[0], true) && w'.chans[c].hist.delivered == ch.hist.delivered + [Delivery(g, queued[0])]
        else ch.closed && writes[0] == Write(i, ZERO, false) && w'.chans[c].hist == ch.hist
  }

  lemma {:induction false} TryCasesPicksRightly(w: World, w0: World, g: Gid, cases: seq<Case>, i: nat)
    requires CasesOk(w, cases) && i <= |cases| && SameOffers(w0, w)
    ensures var r := TryCases(w, g, cases, i);
      r.Chosen? ==> i <= r.idx < |cases| && PickedRightly(w0, g, cases[r.idx], r.idx, r.w, r.writes)
    decreases |cases| - i
  {
    if i < |cases| {
      match cases[i]
      case DefaultCase => TryCasesPicksRightly(w, w0, g, cases, i + 1);
      case RecvCase(c) =>
        TryRecvTakesTheOldest(w, c, g);
        assert SameOffer(w0.chans[c], w.chans[c], w0.sels);
        var r := TryRecv(w, c, g);
        if r.Empty? { StillSameOffers(w0, w, r.w); TryCasesPicksRightly(r.w, w0, g, cases, i + 1); }
      case SendCase(c, v) =>
        TrySendOffers(w, c, g, v);
        assert SameOffer(w0.chans[c], w.chans[c], w0.sels);
        var r := TrySend(w, c, g, v);
        if r.Blocked? { StillSameOffers(w0, w, r.w); TryCasesPicksRightly(r.w, w0, g, cases, i + 1); }
    }
  }

  lemma StillSameOffers(w: World, w1: World, w': World)
    requires SameOffers(w, w1) && SameOffers(w1, w')
    ensures SameOffers(w, w')
  {
    forall c | 0 <= c < |w.chans| ensures SameOffer(w.chans[c], w'.chans[c], w.sels) {
      assert SameOffer(w.chans[c], w1.chans[c], w.sels) && SameOffer(w1.chans[c], w'.chans[c], w1.sels);
    }
  }

  /** A select that goes on at once reports a case that was ready: a receive that wrote the
      oldest value of its channel and recorded that delivery, or the zero value of a closed
      drained one; an accepted send; or, only if no case can proceed, the default. */
  lemma SelectTakesTheOldest(w: World, cases: seq<Case>, w': World)
    requires Reachable(w) && Active(w) && CasesOk(w, cases) && DoSelect(w, cases) == Next(w') && w'.stack == w.stack
    ensures var g := Top(w).g; g < |w'.gs| && w'.gs[g].last.Picked? && var o := w'.gs[g].last;
      0 <= o.idx < |cases|
      && if cases[o.idx].DefaultCase? then o.writes == [] && (forall j :: 0 <= j < |cases| ==> Stuck(w', cases[j]))
         else PickedRightly(w, g, cases[o.idx], o.idx, w', o.writes)
  {
    var r := TryCases(w, Top(w).g, cases, 0);
    assert Top(w).g < |w.gs| by {
      ReachableInv(w);
      SchedSteps.TopIsFree(w);
    }
    SelectShape(w, w', r, cases);
    if r.Chosen? {
      TryCasesPicksRightly(w, w, Top(w).g, cases, 0);
      PickedStays(r.w, w', Top(w).g, cases, r.idx, r.writes, w);
    } else {
      DefaultIsDefault(cases, 0);
      NoneReadyMeansStuck(w, r.w, Top(w).g, cases, 0);
      assert w'.chans == r.w.chans;
      forall j | 0 <= j < |cases| ensures Stuck(w', cases[j]) { assert Stuck(r.w, cases[j]); }
    }
  }

  lemma PickedStays(w1: World, w': World, g: Gid, cases: seq<Case>, i: nat, writes: seq<Write>, w: World)
    requires i < |cases| && PickedRightly(w, g, cases[i], i, w1, writes) && w' == SetLast(w1, g, Picked(i, writes)) && g < |w1.gs|
    ensures g < |w'.gs| && w'.gs[g].last == Picked(i, writes) && PickedRightly(w, g, cases[i], i, w', writes)
  {
  }

  lemma {:induction false} DefaultIsDefault(cases: seq<Case>, i: nat)
    requires i <= |cases|
    ensures DefaultFrom(cases, i) >= 0 ==> DefaultFrom(cases, i) < |cases| && cases[DefaultFrom(cases, i)].DefaultCase?
    decreases |cases| - i
  {
    if i < |cases| && !cases[i].DefaultCase? { DefaultIsDefault(cases, i + 1); }
  }

  lemma ParkedIsNotRunning(w: World, c: nat, x: Waiter)
    requires Inv(w) && w.stack != [] && c < |w.chans| && x in w.chans[c].recvs && x.tk.Plain?
    ensures x.g != Top(w).g
  {
    SchedSteps.TopIsFree(w);
    PlainAllMember(w.chans, c, x);
  }

  /** The send's effect on the first receiver that is not stale. */
  lemma HandsOver(w: World, c: nat, v: Value, w': World, r: Waiter)
    requires Active(w) && c < |w.chans| && DoSend(w, c, v) == Next(w')
    requires DropStale(w.chans[c].recvs, w.sels) != [] && DropStale(w.chans[c].recvs, w.sels)[0] == r
    requires Live(w.sels, r) && r.g < |w.gs|
    requires if r.tk.Plain? then r.g != Top(w).g else r.tk.t < |w.sels| && w.sels[r.tk.t].writes == []
    ensures |w'.chans| == |w.chans| && w'.chans[c].hist.delivered == w.chans[c].hist.delivered + [Delivery(r.g, v)]
    ensures w'.ready == w.ready + [r.g] && |w'.gs| == |w.gs| && |w'.sels| == |w.sels|
    ensures match r.tk
            case Plain => w'.gs[r.g].last == Received(v, true)
            case OfSelect(t, i) => w'.sels[t].winner == i && w'.sels[t].writes == [Write(i, v, true)]
  {
  }

  /** A send that finds a live receiver parked gives its value to the one parked
      longest, and to nobody else. */
  lemma SendReachesFirstReceiver(w: World, c: nat, v: Value, w': World)
    requires Reachable(w) && Active(w) && c < |w.chans| && DoSend(w, c, v) == Next(w')
    requires LiveQ(w.chans[c].recvs, w.sels) != []
    ensures var r := LiveQ(w.chans[c].recvs, w.sels)[0];
      && c < |w'.chans| && w'.chans[c].hist.delivered == w.chans[c].hist.delivered + [Delivery(r.g, v)]
      && w'.ready == w.ready + [r.g] && r.g < |w'.gs|
      && (match r.tk
          case Plain => w'.gs[r.g].last == Received(v, true)
          case OfSelect(t, i) => t < |w'.sels| && w'.sels[t].winner == i && w'.sels[t].writes == [Write(i, v, true)])
  {
    ReachableInv(w);
    var q := w.chans[c].recvs;
    FirstLive(q, w.sels);
    var r := LiveQ(q, w.sels)[0];
    LiveQMember(q, w.sels, r);
    assert RecvsOk(w, c, q);
    if r.tk.OfSelect? { assert SelOk(w, r.tk.t); } else { ParkedIsNotRunning(w, c, r); }
    HandsOver(w, c, v, w', r);
  }

  // ---- Selects ------------------------------------------------------------------------

  /** A select is completed at most once: its verdict never changes afterwards, and
      it is one of its own communication cases. */
  lemma SelectDecidedOnce(w: World, run: seq<Action>, w': World, t: nat)
    requires Reachable(w) && Reaches(w, run, w') && t < |w.sels| && w.sels[t].cancelled
    ensures Decided(w.sels[t])
    ensures t < |w'.sels| && w'.sels[t].cancelled && w'.sels[t].cases == w.sels[t].cases
    ensures w'.sels[t].winner == w.sels[t].winner && w'.sels[t].writes == w.sels[t].writes
  {
    ReachableInv(w);
    assert SelOk(w, t);
    RunAfter(w, run, w');
    assert SelAfter(w.sels[t], w'.sels[t]);
  }

  /** Final offers of a select are its winning case's. */
  lemma FinalIsWinner(q: seq<Waiter>, sels: seq<Sel>, t: nat, i: nat)
    requires (forall x :: x in q ==> Final(sels, x)) && t < |sels| && (sels[t].cancelled ==> i != sels[t].winner)
    ensures forall x :: x in q ==> x.tk != OfSelect(t, i)
  {
  }

  /** A case that did not win moves no value: nothing it offered was ever accepted or
      discarded, and nothing was written through it. */
  lemma LosersTransferNothing(w: World, t: nat, i: nat, c: nat)
    requires Reachable(w) && t < |w.sels| && c < |w.chans| && (w.sels[t].cancelled ==> i != w.sels[t].winner)
    ensures forall x :: x in w.chans[c].hist.settled || x in w.chans[c].hist.dropped ==> x.tk != OfSelect(t, i)
    ensures forall u :: u in w.sels[t].writes ==> u.idx != i
  {
    ReachableInv(w);
    assert HistoryOk(w.chans[c], w.sels);
    FinalIsWinner(w.chans[c].hist.settled, w.sels, t, i);
    FinalIsWinner(w.chans[c].hist.dropped, w.sels, t, i);
    assert SelOk(w, t);
  }

  lemma {:induction false} KeptMember(q: seq<Waiter>, sels: seq<Sel>, x: Waiter)
    requires x in q && Kept(sels, x)
    ensures x in KeptOf(q, sels)
  {
    if q[0] != x { KeptMember(q[1..], sels, x); }
  }

  lemma {:induction false} LiveQMember(q: seq<Waiter>, sels: seq<Sel>, x: Waiter)
    requires x in LiveQ(q, sels)
    ensures x in q && Live(sels, x)
  {
    if !(Live(sels, q[0]) && q[0] == x) { LiveQMember(q[1..], sels, x); }
  }

  /** The winning send case: its value was either accepted or discarded by close(), once
      and not both, and it was discarded only if the channel is closed. */
  lemma WinningSendIsAccountedFor(w: World, t: nat)
    requires Reachable(w) && t < |w.sels| && w.sels[t].cancelled
    requires 0 <= w.sels[t].winner < |w.sels[t].cases| && w.sels[t].cases[w.sels[t].winner].SendCase?
    ensures var s := w.sels[t]; var cs := s.cases[s.winner]; var x := Entry(s.owner, t, s.winner, cs);
      cs.c < |w.chans| && var ch := w.chans[cs.c];
      && (x in ch.hist.settled <==> x !in ch.hist.dropped)
      && (x in ch.hist.dropped ==> ch.closed)
      && (var all := ch.hist.settled + ch.hist.dropped;
          forall j, k :: 0 <= j < k < |all| ==> !(all[j].tk == x.tk == all[k].tk))
  {
    ReachableInv(w);
    var run :| Reaches(EMPTY_WORLD, run, w);
    RunAfter(EMPTY_WORLD, run, w);
    var s := w.sels[t];
    var cs := s.cases[s.winner];
    var x := Entry(s.owner, t, s.winner, cs);
    assert OfferedFrom(w, s.owner, t, s.cases, 0);
    var ch := w.chans[cs.c];
    assert HistoryOk(ch, w.sels);
    KeptMember(ch.hist.offers, w.sels, x);
    if x in LiveQ(ch.sends, w.sels) { LiveQMember(ch.sends, w.sels, x); }
    NeverBoth(ch.hist.settled, ch.hist.dropped, x);
  }

  lemma NeverBoth(a: seq<Waiter>, b: seq<Waiter>, x: Waiter)
    requires Distinct(a + b) && x.tk.OfSelect?
    ensures !(x in a && x in b)
  {
    forall i, j | 0 <= i < |a| && 0 <= j < |b| ensures a[i].tk.OfSelect? ==> a[i].tk != b[j].tk {
      assert (a + b)[i] == a[i] && (a + b)[|a| + j] == b[j];
    }
  }

  // ---- Deadlock ------------------------------------------------------------------------

  /** run()'s loop has control, nothing is ready and no host call is out. */
  ghost predicate Quiescent(w: World) {
    w.stack == [] && w.ready == [] && !PendingHost(w)
  }

  lemma {:induction false} NothingPending(calls: seq<Call>)
    requires forall id :: 0 <= id < |calls| ==> calls[id].done
    ensures PendingAll(calls) == multiset{}
  {
    if calls != [] { NothingPending(calls[..|calls|-1]); }
  }

  lemma {:induction false} CountedIsLive(sels: seq<Sel>)
    requires forall t :: 0 <= t < |sels| ==> sels[t].counted == !sels[t].cancelled
    ensures CountedAll(sels) == |LiveAll(sels)|
  {
    if sels != [] { CountedIsLive(sels[..|sels|-1]); }
  }

  /** At rest only uncompleted selects are still counted. */
  lemma CountedMeansLive(w: World, t: nat)
    requires Inv(w) && Quiescent(w) && t < |w.sels| && w.sels[t].counted
    ensures !w.sels[t].cancelled
  {
    assert SelOk(w, t);
    var g := w.sels[t].owner;
    assert GoroutineOk(w, g);
    OneSource(w, g);
    NothingPending(w.calls);
    if g in PlainAll(w.chans) {
      var c, x := PlainAllWitness(w.chans, g);
      assert RecvsOk(w, c, w.chans[c].recvs) && SendsOk(w, c, w.chans[c].sends);
    } else {
      var u := LiveWitness(w.sels, g);
      assert SelOk(w, u);
    }
  }

  /** The multiset of a finite set has one entry per element. */
  lemma {:induction false} SetCardinality(s: set<Gid>, m: multiset<Gid>)
    requires m == multiset(s)
    ensures |m| == |s|
    decreases |s|
  {
    if s != {} {
      var x :| x in s;
      SetCardinality(s - {x}, m - multiset{x});
    }
  }

  lemma CountsAtRest(w: World)
    requires Counts(w) && Quiescent(w) && PendingAll(w.calls) == multiset{} && CountedAll(w.sels) == |LiveAll(w.sels)|
    ensures w.parked == |Unfinished(w.gs)|
  {
    assert Sources(w) == PlainAll(w.chans) + LiveAll(w.sels);
    SetCardinality(Unfinished(w.gs), multiset(Unfinished(w.gs)));
  }

  lemma ParkedCountsUnfinished(w: World)
    requires Inv(w) && Quiescent(w)
    ensures w.parked == |Unfinished(w.gs)|
  {
    NothingPending(w.calls);
    forall t | 0 <= t < |w.sels| ensures w.sels[t].counted == !w.sels[t].cancelled {
      assert SelOk(w, t);
      if w.sels[t].counted { CountedMeansLive(w, t); }
    }
    CountedIsLive(w.sels);
    CountsAtRest(w);
  }

  /** At rest `parked` is the number of unfinished goroutines, every one of them
      blocked on a channel, although selects are uncounted on resume and plain
      waiters on completion. */
  lemma ParkedIsBlocked(w: World)
    requires Reachable(w) && Quiescent(w)
    ensures w.parked == |Unfinished(w.gs)|
    ensures forall g :: g in Unfinished(w.gs) ==> Asleep(w, g) && WaitsRightly(w, g) && !w.gs[g].at.AtHost?
  {
    ReachableInv(w);
    ParkedCountsUnfinished(w);
    forall g | g in Unfinished(w.gs) ensures Asleep(w, g) && WaitsRightly(w, g) && !w.gs[g].at.AtHost? {
      NoLostWakeup(w, g);
    }
  }

  /** run() panics with a deadlock exactly when it has nothing left to do and some
      goroutine is blocked; it returns exactly when every goroutine has finished. */
  lemma DeadlockVerdictIsExact(w: World)
    requires Reachable(w) && w.stack == []
    ensures RunVerdict(w) == PanicDeadlock <==> w.ready == [] && !PendingHost(w) && exists g :: Asleep(w, g)
    ensures RunVerdict(w) == Exit <==> forall g :: 0 <= g < |w.gs| ==> w.gs[g].done
  {
    ReachableInv(w);
    if Quiescent(w) {
      ParkedIsBlocked(w);
      if w.parked > 0 {
        var g :| g in Unfinished(w.gs);
        assert Asleep(w, g);
      } else {
        assert Unfinished(w.gs) == {};
        forall g | 0 <= g < |w.gs| ensures w.gs[g].done { assert g !in Unfinished(w.gs); }
      }
      if forall g :: 0 <= g < |w.gs| ==> w.gs[g].done { assert Unfinished(w.gs) == {}; }
    } else if forall g :: 0 <= g < |w.gs| ==> w.gs[g].done {
      if w.ready != [] {
        NeverResumedTwice(w, 0, 0);
      } else {
        var id :| 0 <= id < |w.calls| && !w.calls[id].done;
        PendingMember(w.calls, id);
        OneSource(w, w.calls[id].owner);
      }
    }
  }

  /** The deadlock panic inside RunUntil is never spurious about its helper: the
      goroutine it waits for is blocked on a channel and nothing can be resumed. */
  lemma PumpDeadlockIsReal(w: World)
    requires Reachable(w) && w.stack != [] && Scheduling(w) && PumpVerdict(w) == PanicDeadlock
    ensures var h := Top(w).pump.value; Asleep(w, h) && WaitsRightly(w, h) && !w.gs[h].at.AtHost?
  {
    ReachableInv(w);
    var n := |w.stack| - 1;
    assert FrameOk(w, n);
    var h := Top(w).pump.value;
    if h in StackAll(w.stack) { var i := StackWitness(w.stack, h); }
    NoLostWakeup(w, h);
  }
}
