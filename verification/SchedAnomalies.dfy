/** Two places where the runtime departs from Go, each with a run that shows it and
    exactly when it happens, told by the state in which the channel is closed. */
module SchedAnomalies {
  import opened Wrappers
  import opened SchedModel
  import opened SchedInvariant
  import opened SchedCounting
  import opened SchedInv
  import opened SchedHistory
  import opened SchedTheorems
  import opened SchedClose

  /** The state after some actions, if none of them crashes or is out of place. */
  ghost predicate Leads(w: World, a: Action, w': World) {
    Enabled(w, a) && Step(w, a) == Next(w')
  }

  lemma {:induction false} Extend(w: World, run: seq<Action>, w1: World, a: Action, w2: World)
    requires Reaches(w, run, w1) && Leads(w1, a, w2)
    ensures Reaches(w, run + [a], w2)
    decreases |run|
  {
    if run == [] {
      assert [a][1..] == [];
    } else {
      Extend(Step(w, run[0]).w, run[1..], w1, a, w2);
      assert (run + [a])[1..] == run[1..] + [a];
    }
  }

  lemma ReachOn(w1: World, a: Action, w2: World)
    requires Reachable(w1) && Leads(w1, a, w2)
    ensures Reachable(w2)
  {
    var run :| Reaches(EMPTY_WORLD, run, w1);
    Extend(EMPTY_WORLD, run, w1, a, w2);
  }

  // ---- A served sender can still panic --------------------------------------------------

  /** Goroutine 0 has parked sending 7 on channel 0; goroutine 1 is running. */
  ghost function SenderParked(): World {
    var s := Waiter(0, 7, Plain);
    World([Chan(0, false, [], [], [s], History([s], [], [], []))], [],
          [Goroutine(AtSend(0), false, Nothing), Goroutine(Running, false, Nothing)],
          [], 1, [], [Frame(1, None)])
  }

  /** Two new goroutines and an unbuffered channel, goroutine 0 running. */
  ghost function FirstRunning(): World {
    World([Chan(0, false, [], [], [], NO_HISTORY)], [],
          [Goroutine(Running, false, Nothing), Goroutine(AtStart, false, Nothing)], [1], 0, [], [Frame(0, None)])
  }

  lemma FirstRunningIsReachable()
    ensures Reachable(FirstRunning())
  {
    var w0 := EMPTY_WORLD;
    assert Reaches(w0, [], w0);
    var w1 := DoMakeChan(w0, 0).w;   ReachOn(w0, AMakeChan(0), w1);
    var w2 := Spawn(w1);             ReachOn(w1, ASpawn, w2);
    var w3 := Spawn(w2);             ReachOn(w2, ASpawn, w3);
    assert w3.ready == [0, 1] && w3.gs[0] == w3.gs[1] == Goroutine(AtStart, false, Nothing);
    var w4 := DoResume(w3).w;        ReachOn(w3, AResume, w4);
    assert w4.chans == FirstRunning().chans && w4.stack == FirstRunning().stack && w4.gs == FirstRunning().gs && w4.ready == [1];
  }

  lemma SenderParkedIsReachable()
    ensures Reachable(SenderParked())
  {
    var w4 := FirstRunning();
    FirstRunningIsReachable();
    var s := Waiter(0, 7, Plain);
    var w5 := DoSend(w4, 0, 7).w;    ReachOn(w4, ASend(0, 7), w5);
    assert w5.chans[0].sends == [s] && w5.chans[0].hist.offers == [s];
    assert w5.chans == [Chan(0, false, [], [], [s], History([s], [], [], []))] && w5.stack == [];
    var w6 := DoResume(w5).w;        ReachOn(w5, AResume, w6);
    assert w6.gs == SenderParked().gs && w6.ready == [] && w6.stack == SenderParked().stack;
  }

  /** Goroutine 0's value has been received by goroutine 1. */
  ghost function SenderServed(): World {
    var s := Waiter(0, 7, Plain);
    World([Chan(0, false, [], [], [], History([s], [s], [Delivery(1, 7)], []))], [],
          [Goroutine(AtSend(0), false, Nothing), Goroutine(Running, false, Received(7, true))],
          [0], 0, [], [Frame(1, None)])
  }

  lemma SenderServedIsReachable()
    ensures Reachable(SenderServed())
  {
    var w0 := SenderParked();
    SenderParkedIsReachable();
    var w1 := DoRecv(w0, 0).w;
    ReachOn(w0, ARecv(0), w1);
    var h := w1.chans[0].hist;
    assert w1.chans[0].sends == [] && h.settled == [Waiter(0, 7, Plain)] && h.delivered == [Delivery(1, 7)];
    assert w1.chans == SenderServed().chans && w1.gs == SenderServed().gs && w1.ready == [0];
  }

  /** Goroutine 1 closes the channel and finishes: goroutine 0, served, is resumed
      and panics. */
  lemma ServedSenderCanPanic()
    ensures exists w: World :: Reachable(w) && w.ready == [0] && |w.gs| == 2 && |w.chans| == 1
              && w.chans[0].hist.delivered == [Delivery(1, 7)] && DoResume(w) == Crash(SendOnClosed)
  {
    var w1 := SenderServed();
    SenderServedIsReachable();
    var w2 := DoClose(w1, 0).w;
    ReachOn(w1, AClose(0), w2);
    assert w2.chans[0] == w1.chans[0].(closed := true) && w2.ready == [0];
    var w3 := DoFinish(w2);
    ReachOn(w2, AFinish, w3);
    assert DoResume(w3) == Crash(SendOnClosed);
  }

  /** close() discarded a plain send of goroutine g. */
  ghost predicate Discarded(w: World, c: nat, g: Gid)
    requires c < |w.chans|
  {
    exists x :: x in w.chans[c].hist.dropped && x.tk.Plain? && x.g == g
  }

  /** Everything goroutine g offered by plain sends was accepted, except what close()
      discarded. */
  ghost predicate AllAccepted(w: World, c: nat, g: Gid)
    requires c < |w.chans|
  {
    forall x :: x in w.chans[c].hist.offers && x.tk.Plain? && x.g == g ==> x in w.chans[c].hist.settled
  }

  lemma UndiscardedIsAccepted(w: World, c: nat, g: Gid)
    requires Histories(w) && c < |w.chans| && !Discarded(w, c, g) && g !in PlainAll(w.chans)
    ensures AllAccepted(w, c, g)
  {
    var ch := w.chans[c];
    assert HistoryOk(ch, w.sels);
    forall x | x in ch.hist.offers && x.tk.Plain? && x.g == g ensures x in ch.hist.settled {
      KeptMember(ch.hist.offers, w.sels, x);
      if x in LiveQ(ch.sends, w.sels) {
        LiveQMember(ch.sends, w.sels, x);
        PlainAllMember(w.chans, c, x);
      }
    }
  }

  /** close() discards the plain send of a goroutine waiting in send if and only if that
      goroutine is still parked; one already made ready has had everything accepted. */
  lemma CloseDiscardsUnlessServed(w: World, c: nat, g: Gid)
    requires Reachable(w) && c < |w.chans| && !w.chans[c].closed && g < |w.gs| && w.gs[g].at == AtSend(c)
    ensures Discarded(CloseChan(w, c), c, g) <==> g !in w.ready
    ensures g in w.ready ==> AllAccepted(w, c, g)
  {
    ReachableInv(w);
    var w1 := SetChan(w, c, w.chans[c].(closed := true));
    var w2 := CloseRecvs(w1, c);
    assert HistoryOk(w.chans[c], w.sels);
    OneSource(w, g);
    assert w2.chans[c].sends == w.chans[c].sends && w2.chans[c].hist == w.chans[c].hist by { CloseRecvsLeaves(w1, c); }
    forall x: Waiter | x.tk.Plain? && x.g == g
      ensures x in CloseChan(w, c).chans[c].hist.dropped <==> x in w.chans[c].sends
    {
      CloseSendsPlain(w2, c, x);
    }
    if g in w.ready {
      assert g !in PlainAll(w.chans);
      forall x | x in w.chans[c].sends && x.tk.Plain? ensures x.g != g { PlainAllMember(w.chans, c, x); }
      UndiscardedIsAccepted(w, c, g);
    } else {
      assert GoroutineOk(w, g);
      forall i | 0 <= i < |w.stack| ensures w.stack[i].g != g { assert FrameOk(w, i); }
      if g in StackAll(w.stack) { var i := StackWitness(w.stack, g); }
      NoLostWakeup(w, g);
    }
  }

  /** A close makes every goroutine waiting in send on the channel panic when it runs
      again. The panic is right, its value having been discarded, if and only if the
      goroutine was not in the ready queue when the channel was closed: one that was had
      been served. */
  lemma ClosePanicsServedSenders(w: World, c: nat, g: Gid, run: seq<Action>, w': World)
    requires Reachable(w) && Executing(w) && c < |w.chans| && !w.chans[c].closed && g < |w.gs| && w.gs[g].at == AtSend(c)
    requires Reaches(CloseChan(w, c), run, w') && w'.ready != [] && w'.ready[0] == g < |w'.gs| && w'.gs[g].at == AtSend(c)
    ensures DoResume(w') == Crash(SendOnClosed)
    ensures Discarded(CloseChan(w, c), c, g) <==> g !in w.ready
    ensures g in w.ready ==> AllAccepted(w, c, g)
  {
    var w1 := CloseChan(w, c);
    CloseDiscardsUnlessServed(w, c, g);
    CloseCloses(w, c);
    RunAfter(w1, run, w');
    assert ChanAfter(w1.chans[c], w'.chans[c]);
  }

  // ---- A select can report a send that close() discarded ----------------------------------

  ghost const OFFER: seq<Case> := [SendCase(0, 7)]

  /** Goroutine 0 has parked in a select whose one case sends 7 on channel 0. */
  ghost function SelectParked(): World {
    var s := Waiter(0, 7, OfSelect(0, 0));
    World([Chan(0, false, [], [], [s], History([s], [], [], []))], [Sel(0, OFFER, false, -1, true, [])],
          [Goroutine(AtSelect(0), false, Nothing), Goroutine(Running, false, Nothing)],
          [], 1, [], [Frame(1, None)])
  }

  lemma SelectParkedIsReachable()
    ensures Reachable(SelectParked())
  {
    var w4 := FirstRunning();
    FirstRunningIsReachable();
    var s := Waiter(0, 7, OfSelect(0, 0));
    assert SetChan(w4, 0, w4.chans[0]) == w4;
    assert TryCases(w4, 0, OFFER, 0) == NoneReady(w4);
    var w5 := DoSelect(w4, OFFER).w;     ReachOn(w4, ASelect(OFFER), w5);
    assert w5.chans[0].sends == [s] && w5.chans[0].hist.offers == [s];
    assert w5.chans == SelectParked().chans && w5.stack == [] && w5.ready == [1] && w5.parked == 1;
    assert w5.sels == SelectParked().sels;
    assert w5.gs == [Goroutine(AtSelect(0), false, Nothing), Goroutine(AtStart, false, Nothing)];
    OtherRuns(w5);
  }

  lemma OtherRuns(w5: World)
    requires Reachable(w5) && w5.gs == [Goroutine(AtSelect(0), false, Nothing), Goroutine(AtStart, false, Nothing)]
    requires w5 == SelectParked().(gs := w5.gs, ready := [1], stack := [])
    ensures Reachable(SelectParked())
  {
    var w6 := DoResume(w5).w;
    ReachOn(w5, AResume, w6);
    assert w6.gs == SelectParked().gs && w6.ready == [] && w6.stack == SelectParked().stack;
  }

  /** The channel has been closed while the select was parked. */
  ghost function SelectClosed(): World {
    var s := Waiter(0, 7, OfSelect(0, 0));
    World([Chan(0, true, [], [], [], History([s], [], [], [s]))], [Sel(0, OFFER, true, 0, true, [])],
          SelectParked().gs, [0], 1, [], [Frame(1, None)])
  }

  lemma SelectClosedIsReachable()
    ensures Reachable(SelectClosed())
  {
    var w0 := SelectParked();
    SelectParkedIsReachable();
    var wc := SetChan(w0, 0, w0.chans[0].(closed := true));
    var w1 := CloseSend(wc, 0);
    assert w1.chans[0].sends == [] && w1.chans[0].hist.dropped == [Waiter(0, 7, OfSelect(0, 0))] && w1.sels[0].writes == [];
    assert w1.chans == SelectClosed().chans && w1.sels == SelectClosed().sels && w1.ready == [0];
    assert CloseRecvs(wc, 0) == wc && CloseSends(wc, 0) == CloseSends(w1, 0) == w1;
    ReachOn(w0, AClose(0), w1);
  }

  /** Goroutine 1 finishes: the select resumes having picked its send case, without a
      panic, although its value was discarded. */
  lemma SelectCanReportADiscardedSend()
    ensures exists w: World :: Reachable(w) && w.stack == [Frame(0, None)] && |w.gs| == 2 && |w.chans| == 1
              && w.gs[0].last == Picked(0, []) && w.chans[0].hist.settled == []
              && w.chans[0].hist.dropped == [Waiter(0, 7, OfSelect(0, 0))]
  {
    var w1 := SelectClosed();
    SelectClosedIsReachable();
    var w2 := DoFinish(w1);
    ReachOn(w1, AFinish, w2);
    var w3 := DoResume(w2).w;
    ReachOn(w2, AResume, w3);
    assert w3.gs[0].last == Picked(0, []) && w3.stack == [Frame(0, None)];
  }

  /** The case a select reports when it runs again after a close is a send the close
      discarded if and only if, when the channel was closed, the select was undecided,
      waited to send on the channel and did not wait to receive on it too. It does not
      panic either way. */
  lemma SelectReportsDiscardedExactly(w: World, c: nat, t: nat, run: seq<Action>, w': World)
    requires Reachable(w) && Executing(w) && c < |w.chans| && !w.chans[c].closed && t < |w.sels|
    requires Reaches(CloseChan(w, c), run, w') && w'.ready != [] && w'.ready[0] < |w'.gs| && w'.gs[w'.ready[0]].at == AtSelect(t)
    ensures c < |w'.chans| && t < |w'.sels| && DoResume(w').Next?
    ensures DoResume(w').w.gs[w'.ready[0]].last == Picked(w'.sels[t].winner, w'.sels[t].writes)
    ensures ReportsDiscarded(w', c, t) <==> !w.sels[t].cancelled && Offers(w.sels[t], c) && !Receives(w.sels[t], c)
  {
    var w1 := CloseChan(w, c);
    CloseDiscardsSelectSend(w, c, t);
    ReachOn(w, AClose(c), w1);
    CloseCloses(w, c);
    RunAfter(w1, run, w');
    if ReportsDiscarded(w1, c, t) { StillReports(w1, w', c, t); }
    if ReportsDiscarded(w', c, t) { DiscardedByThen(w1, run, w', c, t); }
  }

  lemma StillReports(w: World, w': World, c: nat, t: nat)
    requires After(w, w') && c < |w.chans| && t < |w.sels| && ReportsDiscarded(w, c, t)
    ensures ReportsDiscarded(w', c, t)
  {
    assert ChanAfter(w.chans[c], w'.chans[c]) && SelAfter(w.sels[t], w'.sels[t]);
  }

  /** What a select is found to have lost on a closed channel it had lost at the close. */
  lemma DiscardedByThen(w: World, run: seq<Action>, w': World, c: nat, t: nat)
    requires Reachable(w) && Reaches(w, run, w') && c < |w.chans| && w.chans[c].closed && t < |w.sels|
    requires c < |w'.chans| && t < |w'.sels| && ReportsDiscarded(w', c, t)
    ensures ReportsDiscarded(w, c, t)
  {
    ReachableInv(w);
    RunKeepsInv(w, run, w');
    RunAfter(w, run, w');
    var s := w.sels[t];
    assert ChanAfter(w.chans[c], w'.chans[c]) && SelAfter(s, w'.sels[t]) && HistoryOk(w'.chans[c], w'.sels);
    assert QueueOk(w.chans[c], w.sels) && Offers(s, c);
    if s.cancelled {
      WinningSendIsAccountedFor(w, t);
      NeverBoth(w'.chans[c].hist.settled, w'.chans[c].hist.dropped, Entry(s.owner, t, s.winner, s.cases[s.winner]));
    } else {
      StandsWhereItHasCases(w, c, t);
    }
  }
}
