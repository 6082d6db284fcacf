/** What close() does to those who wait: which plain sends and which select sends it
    discards. */
module SchedClose {
  import opened SchedModel
  import opened SchedInvariant
  import opened SchedInv
  import opened SchedHistory

  /** A case of select t stands in the queue. */
  ghost predicate Stands(q: seq<Waiter>, t: nat) {
    exists x :: x in q && x.tk.OfSelect? && x.tk.t == t
  }

  lemma StandsFirst(q: seq<Waiter>, t: nat)
    requires q != []
    ensures Stands(q, t) <==> (q[0].tk.OfSelect? && q[0].tk.t == t) || Stands(q[1..], t)
  {
    assert q == [q[0]] + q[1..];
  }

  /** The first loop leaves senders and history alone. */
  lemma {:induction false} CloseRecvsLeaves(w: World, c: nat)
    requires c < |w.chans|
    ensures var ch, ch' := w.chans[c], CloseRecvs(w, c).chans[c];
      ch'.sends == ch.sends && ch'.hist == ch.hist && ch'.closed == ch.closed
    decreases |w.chans[c].recvs|
  {
    if w.chans[c].recvs != [] { CloseRecvsLeaves(CloseRecv(w, c), c); }
  }

  /** It decides the undecided selects that wait to receive here. */
  lemma {:induction false} CloseRecvsDecides(w: World, c: nat, t: nat)
    requires c < |w.chans| && t < |w.sels|
    ensures CloseRecvs(w, c).sels[t].cancelled <==> w.sels[t].cancelled || Stands(w.chans[c].recvs, t)
    decreases |w.chans[c].recvs|
  {
    var q := w.chans[c].recvs;
    if q != [] {
      StandsFirst(q, t);
      CloseRecvsDecides(CloseRecv(w, c), c, t);
    }
  }

  /** The second loop discards every plain send. */
  lemma {:induction false} CloseSendsPlain(w: World, c: nat, x: Waiter)
    requires c < |w.chans| && x.tk.Plain?
    ensures x in CloseSends(w, c).chans[c].hist.dropped <==> x in w.chans[c].hist.dropped || x in w.chans[c].sends
    decreases |w.chans[c].sends|
  {
    if w.chans[c].sends != [] { CloseSendsPlain(CloseSend(w, c), c, x); }
  }

  /** It discards exactly one send of an undecided select that waits to send here, the one
      it decides for, and no other send of a select. */
  lemma {:induction false} CloseSendsDecides(w: World, c: nat, t: nat)
    requires c < |w.chans| && t < |w.sels|
    ensures var w' := CloseSends(w, c); var h, h' := w.chans[c].hist, w'.chans[c].hist;
      if !w.sels[t].cancelled && Stands(w.chans[c].sends, t) then
        && w'.sels[t].cancelled
        && exists x :: x in w.chans[c].sends && x in h'.dropped && x.tk.OfSelect? && x.tk.t == t && x.tk.idx == w'.sels[t].winner
      else
        && w'.sels[t].cancelled == w.sels[t].cancelled
        && forall x :: x in h'.dropped && x.tk.OfSelect? && x.tk.t == t ==> x in h.dropped
    decreases |w.chans[c].sends|
  {
    var q := w.chans[c].sends;
    if q != [] {
      StandsFirst(q, t);
      var w1 := CloseSend(w, c);
      CloseSendsDecides(w1, c, t);
      CloseSendsAfter(w1, c);
      if q[0].tk.OfSelect? && q[0].tk.t == t && !w.sels[t].cancelled {
        assert SelAfter(w1.sels[t], CloseSends(w1, c).sels[t]) && ChanAfter(w1.chans[c], CloseSends(w1, c).chans[c]);
        assert q[0] in w1.chans[c].hist.dropped;
      }
    }
  }

  lemma CloseCloses(w: World, c: nat)
    requires c < |w.chans| && !w.chans[c].closed
    ensures CloseChan(w, c).chans[c].closed && |CloseChan(w, c).chans| == |w.chans|
  {
    var w1 := SetChan(w, c, w.chans[c].(closed := true));
    CloseRecvsLeaves(w1, c);
    CloseSendsAfter(CloseRecvs(w1, c), c);
    assert ChanAfter(CloseRecvs(w1, c).chans[c], CloseChan(w, c).chans[c]);
  }

  /** Select t was completed by close() discarding the send it will report. */
  ghost predicate ReportsDiscarded(w: World, c: nat, t: nat)
    requires c < |w.chans| && t < |w.sels|
  {
    var s := w.sels[t];
    && s.cancelled && 0 <= s.winner < |s.cases| && s.cases[s.winner].SendCase? && s.cases[s.winner].c == c
    && Entry(s.owner, t, s.winner, s.cases[s.winner]) in w.chans[c].hist.dropped
  }

  ghost predicate Receives(s: Sel, c: nat) { exists i :: 0 <= i < |s.cases| && s.cases[i] == RecvCase(c) }

  ghost predicate Offers(s: Sel, c: nat) { exists i :: 0 <= i < |s.cases| && s.cases[i].SendCase? && s.cases[i].c == c }

  /** An undecided select stands in a channel's queues exactly if it has a case there. */
  lemma StandsWhereItHasCases(w: World, c: nat, t: nat)
    requires Core(w) && c < |w.chans| && t < |w.sels| && !w.sels[t].cancelled
    ensures Stands(w.chans[c].recvs, t) <==> Receives(w.sels[t], c)
    ensures Stands(w.chans[c].sends, t) <==> Offers(w.sels[t], c)
  {
    var s := w.sels[t];
    assert SelOk(w, t) && RecvsOk(w, c, w.chans[c].recvs) && SendsOk(w, c, w.chans[c].sends);
    forall i: nat | i < |s.cases| ensures Enrolled(w, t, i) {}
    if Receives(s, c) {
      var i: nat :| i < |s.cases| && s.cases[i] == RecvCase(c);
      assert Enrolled(w, t, i);
    }
    if Offers(s, c) {
      var i: nat :| i < |s.cases| && s.cases[i].SendCase? && s.cases[i].c == c;
      assert Enrolled(w, t, i);
    }
  }

  /** close() makes a select report a send it discards if and only if the select is
      undecided, waits to send on the channel, and does not wait to receive on it too. */
  lemma CloseDiscardsSelectSend(w: World, c: nat, t: nat)
    requires Reachable(w) && c < |w.chans| && !w.chans[c].closed && t < |w.sels|
    ensures ReportsDiscarded(CloseChan(w, c), c, t)
            <==> !w.sels[t].cancelled && Offers(w.sels[t], c) && !Receives(w.sels[t], c)
  {
    ReachableInv(w);
    var w1 := SetChan(w, c, w.chans[c].(closed := true));
    var w2 := CloseRecvs(w1, c);
    var w3 := CloseSends(w2, c);
    assert HistoryOk(w.chans[c], w.sels) && SendsOk(w, c, w.chans[c].sends);
    CloseAfter(w, c);
    assert SelAfter(w.sels[t], w3.sels[t]);
    CloseRecvsLeaves(w1, c);
    CloseRecvsDecides(w1, c, t);
    CloseSendsDecides(w2, c, t);
    if !w.sels[t].cancelled { StandsWhereItHasCases(w, c, t); }
  }
}
