/** Where values go: the queue and history parts of the invariant, for one channel
    and for one operation. */
module SchedFlow {
  import opened SchedModel
  import opened SchedInvariant
  import opened SchedCounting
  import opened SchedCore

  // ---- Sequences ----------------------------------------------------------------

  lemma {:induction false} KeptAppend(p: seq<Waiter>, q: seq<Waiter>, sels: seq<Sel>)
    ensures KeptOf(p + q, sels) == KeptOf(p, sels) + KeptOf(q, sels)
  {
    if p == [] {
      assert p + q == q;
    } else {
      assert (p + q)[1..] == p[1..] + q;
      KeptAppend(p[1..], q, sels);
    }
  }

  lemma {:induction false} LiveAppendQ(p: seq<Waiter>, q: seq<Waiter>, sels: seq<Sel>)
    ensures LiveQ(p + q, sels) == LiveQ(p, sels) + LiveQ(q, sels)
  {
    if p == [] {
      assert p + q == q;
    } else {
      assert (p + q)[1..] == p[1..] + q;
      LiveAppendQ(p[1..], q, sels);
    }
  }

  lemma {:induction false} ValuesAppend(p: seq<Waiter>, q: seq<Waiter>)
    ensures Values(p + q) == Values(p) + Values(q)
  {
    if p == [] {
      assert p + q == q;
    } else {
      assert (p + q)[1..] == p[1..] + q;
      ValuesAppend(p[1..], q);
    }
  }

  lemma {:induction false} AmountsAppend(p: seq<Delivery>, d: Delivery)
    ensures Amounts(p + [d]) == Amounts(p) + [d.v]
  {
    if p == [] {
      assert p + [d] == [d];
    } else {
      assert (p + [d])[1..] == p[1..] + [d];
      AmountsAppend(p[1..], d);
    }
  }

  lemma DistinctAppend(q: seq<Waiter>, x: Waiter)
    requires Distinct(q) && (x.tk.OfSelect? ==> forall y :: y in q ==> y.tk != x.tk)
    ensures Distinct(q + [x])
  {
  }

  /** A settled offer and a live one are never the same select case. */
  lemma FinalIsNotLive(q: seq<Waiter>, sels: seq<Sel>, x: Waiter)
    requires (forall y :: y in q ==> Final(sels, y)) && Live(sels, x) && Distinct(q)
    ensures Distinct(q + [x])
  {
    DistinctAppend(q, x);
  }

  lemma {:induction false} StaleQ(q: seq<Waiter>, sels: seq<Sel>)
    requires forall x :: x in q ==> !Live(sels, x)
    ensures LiveQ(q, sels) == []
  {
    if q != [] {
      assert q[0] in q;
      StaleQ(q[1..], sels);
    }
  }

  lemma {:induction false} StalePrefix(q: seq<Waiter>, k: nat, sels: seq<Sel>)
    requires k <= |q| && forall j :: 0 <= j < k ==> Cancelled(sels, q[j].tk)
    ensures LiveQ(q[k..], sels) == LiveQ(q, sels)
  {
    if k > 0 {
      StalePrefix(q[1..], k - 1, sels);
      assert q[1..][k - 1..] == q[k..];
    }
  }

  lemma PoppedLive(q: seq<Waiter>, q': seq<Waiter>, k: nat, x: Waiter, sels: seq<Sel>)
    requires Popped(q, q', k, x, sels)
    ensures LiveQ(q, sels) == [x] + LiveQ(q', sels)
  {
    StalePrefix(q, k, sels);
    assert q[k..][1..] == q';
  }

  // ---- A select is won --------------------------------------------------------------

  /** sels' is sels after the live ticket tk has been claimed. */
  ghost predicate Won(sels: seq<Sel>, sels': seq<Sel>, tk: Ticket) {
    match tk
    case Plain => sels' == sels
    case OfSelect(t, i) =>
      && t < |sels| == |sels'| && !sels[t].cancelled && sels'[t].cancelled && sels'[t].winner == i
      && forall u :: 0 <= u < |sels| && u != t ==> sels'[u] == sels[u]
  }

  lemma WonIsMonotone(sels: seq<Sel>, sels': seq<Sel>, tk: Ticket, x: Waiter)
    requires Won(sels, sels', tk)
    ensures Cancelled(sels, x.tk) ==> Cancelled(sels', x.tk)
    ensures Kept(sels', x) ==> Kept(sels, x)
    ensures Final(sels, x) ==> Final(sels', x)
    ensures Final(sels, x) ==> Kept(sels', x)
  {
  }

  lemma {:induction false} KeptTwice(q: seq<Waiter>, sels: seq<Sel>, sels': seq<Sel>, tk: Ticket)
    requires Won(sels, sels', tk)
    ensures KeptOf(KeptOf(q, sels), sels') == KeptOf(q, sels')
  {
    if q != [] {
      KeptTwice(q[1..], sels, sels', tk);
      WonIsMonotone(sels, sels', tk, q[0]);
      var head := if Kept(sels, q[0]) then [q[0]] else [];
      KeptAppend(head, KeptOf(q[1..], sels), sels');
    }
  }

  lemma {:induction false} KeptFinal(q: seq<Waiter>, sels: seq<Sel>, sels': seq<Sel>, tk: Ticket)
    requires Won(sels, sels', tk) && forall x :: x in q ==> Final(sels, x)
    ensures KeptOf(q, sels') == q
  {
    if q != [] {
      assert q[0] in q;
      WonIsMonotone(sels, sels', tk, q[0]);
      KeptFinal(q[1..], sels, sels', tk);
    }
  }

  /** Of the live entries, those whose offer is kept are those that stay live: the
      others belong to the select that was just won. */
  lemma {:induction false} LiveThenKept(q: seq<Waiter>, sels: seq<Sel>, sels': seq<Sel>, tk: Ticket)
    requires Won(sels, sels', tk) && forall x :: x in q && x.tk.OfSelect? ==> x.tk != tk
    ensures KeptOf(LiveQ(q, sels), sels') == LiveQ(q, sels')
  {
    if q != [] {
      assert q[0] in q;
      LiveThenKept(q[1..], sels, sels', tk);
      WonIsMonotone(sels, sels', tk, q[0]);
      var head := if Live(sels, q[0]) then [q[0]] else [];
      KeptAppend(head, LiveQ(q[1..], sels), sels');
    }
  }

  // ---- One channel's history ---------------------------------------------------------

  lemma KeptSplits(a: seq<Waiter>, b: seq<Waiter>, c: seq<Waiter>, sels: seq<Sel>)
    ensures KeptOf(a + b + c, sels) == KeptOf(a, sels) + KeptOf(b, sels) + KeptOf(c, sels)
  {
    KeptAppend(a + b, c, sels);
    KeptAppend(a, b, sels);
  }

  /** A select won through another queue only withdraws live offers of this one. */
  lemma WonElsewhere(ch: Chan, sels: seq<Sel>, sels': seq<Sel>, tk: Ticket)
    requires HistoryOk(ch, sels) && Won(sels, sels', tk)
    requires forall y :: y in ch.sends && y.tk.OfSelect? ==> y.tk != tk
    ensures HistoryOk(ch, sels')
  {
    var h := ch.hist;
    KeptTwice(h.offers, sels, sels', tk);
    KeptSplits(h.settled, h.dropped, LiveQ(ch.sends, sels), sels');
    KeptFinal(h.settled, sels, sels', tk);
    KeptFinal(h.dropped, sels, sels', tk);
    LiveThenKept(ch.sends, sels, sels', tk);
    forall x | x in h.settled ensures Final(sels', x) { WonIsMonotone(sels, sels', tk, x); }
    forall x | x in h.dropped ensures Final(sels', x) { WonIsMonotone(sels, sels', tk, x); }
  }

  /** The head sender x leaves the queue and its select, if any, is won: what is kept
      of the offers is what was final, then x, then what is still live. */
  lemma WonBySender(ch: Chan, q: seq<Waiter>, sels: seq<Sel>, sels': seq<Sel>, k: nat, x: Waiter)
    requires HistoryOk(ch, sels) && Won(sels, sels', x.tk) && Popped(ch.sends, q, k, x, sels)
    requires forall y :: y in q && y.tk.OfSelect? ==> y.tk != x.tk
    ensures KeptOf(ch.hist.offers, sels') == ch.hist.settled + ch.hist.dropped + [x] + LiveQ(q, sels')
    ensures Final(sels', x)
    ensures forall y :: y in ch.hist.settled || y in ch.hist.dropped ==> Final(sels', y)
  {
    var h := ch.hist;
    KeptTwice(h.offers, sels, sels', x.tk);
    KeptSplits(h.settled, h.dropped, LiveQ(ch.sends, sels), sels');
    KeptFinal(h.settled, sels, sels', x.tk);
    KeptFinal(h.dropped, sels, sels', x.tk);
    PoppedLive(ch.sends, q, k, x, sels);
    KeptAppend([x], LiveQ(q, sels), sels');
    LiveThenKept(q, sels, sels', x.tk);
    forall y | y in h.settled || y in h.dropped ensures Final(sels', y) { WonIsMonotone(sels, sels', x.tk, y); }
  }

  lemma TicketDistinct(q: seq<Waiter>, q': seq<Waiter>, k: nat, x: Waiter, sels: seq<Sel>)
    requires Popped(q, q', k, x, sels)
    requires Distinct(q)
    ensures forall y :: y in q' && y.tk.OfSelect? ==> y.tk != x.tk
  {
    forall y | y in q' && y.tk.OfSelect? ensures y.tk != x.tk {
      var j :| 0 <= j < |q'| && q'[j] == y;
      assert q[k + 1 + j] == y;
    }
  }

  // ---- One operation, on its own channel ------------------------------------------------

  /** A value is handed to the first live receiver. */
  ghost predicate HandedOver(ch: Chan, ch': Chan, sels: seq<Sel>, k: nat, x: Waiter, g: Gid, v: Value) {
    var o := Waiter(g, v, Plain);
    var h := ch.hist;
    && !ch.closed && Popped(ch.recvs, ch'.recvs, k, x, sels)
    && (forall y :: y in ch.sends && y.tk.OfSelect? ==> y.tk != x.tk)
    && ch' == ch.(recvs := ch'.recvs, hist := h.(offers := h.offers + [o], settled := h.settled + [o],
                                                 delivered := h.delivered + [Delivery(x.g, v)]))
  }

  lemma HandOverQueue(ch: Chan, ch': Chan, sels: seq<Sel>, sels': seq<Sel>, k: nat, x: Waiter, g: Gid, v: Value)
    requires QueueOk(ch, sels) && HandedOver(ch, ch', sels, k, x, g, v) && Won(sels, sels', x.tk)
    ensures QueueOk(ch', sels') && ch.buf == [] && forall y :: y in ch.sends ==> !Live(sels', y)
  {
    assert x in ch.recvs && Live(sels, x);
    forall y | y in ch.sends ensures !Live(sels', y) { }
    forall y | y in ch'.recvs && Live(sels', y) ensures ch'.buf == [] && !ch'.closed { }
  }

  /** A plain offer is accepted at once: nothing live was queued before it. */
  lemma Accept(ch: Chan, ch': Chan, sels: seq<Sel>, o: Waiter)
    requires HistoryOk(ch, sels) && !ch.closed && o.tk.Plain? && forall y :: y in ch.sends ==> !Live(sels, y)
    requires var h, h' := ch.hist, ch'.hist;
      && h'.offers == h.offers + [o] && h'.settled == h.settled + [o] && h'.dropped == h.dropped
      && ch'.sends == ch.sends && ch'.closed == ch.closed
      && Amounts(h'.delivered) + ch'.buf == Amounts(h.delivered) + ch.buf + [o.v]
    ensures HistoryOk(ch', sels)
  {
    StaleQ(ch.sends, sels);
    KeptAppend(ch.hist.offers, [o], sels);
    ValuesAppend(ch.hist.settled, [o]);
    assert ch.hist.dropped == [] && ch.hist.settled + [] == ch.hist.settled && ch'.hist.settled + [] == ch'.hist.settled;
    DistinctAppend(ch.hist.settled, o);
  }

  lemma HandOver(ch: Chan, ch': Chan, sels: seq<Sel>, sels': seq<Sel>, k: nat, x: Waiter, g: Gid, v: Value)
    requires QueueOk(ch, sels) && HistoryOk(ch, sels)
    requires HandedOver(ch, ch', sels, k, x, g, v) && Won(sels, sels', x.tk)
    ensures HistoryOk(ch', sels')
  {
    HandOverQueue(ch, ch', sels, sels', k, x, g, v);
    WonElsewhere(ch, sels, sels', x.tk);
    AmountsAppend(ch.hist.delivered, Delivery(x.g, v));
    Accept(ch, ch', sels', Waiter(g, v, Plain));
  }

  lemma Buffer(ch: Chan, ch': Chan, sels: seq<Sel>, g: Gid, v: Value)
    requires QueueOk(ch, sels) && HistoryOk(ch, sels) && !ch.closed && |ch.buf| < ch.cap
    requires var o := Waiter(g, v, Plain); var h := ch.hist;
      ch' == ch.(recvs := [], buf := ch.buf + [v], hist := h.(offers := h.offers + [o], settled := h.settled + [o]))
    ensures QueueOk(ch', sels) && HistoryOk(ch', sels)
  {
    Accept(ch, ch', sels, Waiter(g, v, Plain));
  }

  /** The first live sender x is served: its value goes into the buffer behind the
      value just taken out, or, unbuffered, straight to the receiver. */
  ghost predicate Served(ch: Chan, ch': Chan, sels: seq<Sel>, k: nat, x: Waiter, g: Gid) {
    var h := ch.hist;
    && Popped(ch.sends, ch'.sends, k, x, sels)
    && (forall y :: y in ch'.sends && y.tk.OfSelect? ==> y.tk != x.tk)
    && var v := (if ch.buf != [] then ch.buf[0] else x.v);
       ch' == ch.(buf := if ch.buf != [] then ch.buf[1..] + [x.v] else [], sends := ch'.sends,
                  hist := h.(settled := h.settled + [x], delivered := h.delivered + [Delivery(g, v)]))
  }

  lemma ServeQueue(ch: Chan, ch': Chan, sels: seq<Sel>, sels': seq<Sel>, k: nat, x: Waiter, g: Gid)
    requires QueueOk(ch, sels) && Served(ch, ch', sels, k, x, g) && Won(sels, sels', x.tk)
    ensures QueueOk(ch', sels')
  {
    assert x in ch.sends && Live(sels, x);
    forall y | y in ch'.recvs && Live(sels', y) ensures ch'.buf == [] && !ch'.closed { }
    forall y | y in ch'.sends && Live(sels', y) ensures |ch'.buf| == ch'.cap && !ch'.closed { }
  }

  lemma Serve(ch: Chan, ch': Chan, sels: seq<Sel>, sels': seq<Sel>, k: nat, x: Waiter, g: Gid)
    requires QueueOk(ch, sels) && HistoryOk(ch, sels)
    requires Served(ch, ch', sels, k, x, g) && Won(sels, sels', x.tk)
    ensures HistoryOk(ch', sels')
  {
    assert x in ch.sends && Live(sels, x);
    WonBySender(ch, ch'.sends, sels, sels', k, x);
    ValuesAppend(ch.hist.settled, [x]);
    assert ch.hist.dropped == [] && ch.hist.settled + [] == ch.hist.settled && ch'.hist.settled + [] == ch'.hist.settled;
    FinalIsNotLive(ch.hist.settled, sels, x);
    if ch.buf != [] {
      AmountsAppend(ch.hist.delivered, Delivery(g, ch.buf[0]));
      assert ch.buf == [ch.buf[0]] + ch.buf[1..];
    } else {
      AmountsAppend(ch.hist.delivered, Delivery(g, x.v));
    }
    assert Values(ch'.hist.settled) == Amounts(ch'.hist.delivered) + ch'.buf;
  }

  /** A value leaves the buffer and nobody is waiting to send. */
  lemma Unbuffer(ch: Chan, ch': Chan, sels: seq<Sel>, g: Gid)
    requires QueueOk(ch, sels) && HistoryOk(ch, sels) && ch.buf != []
    requires forall y :: y in ch.sends ==> !Live(sels, y)
    requires ch' == ch.(buf := ch.buf[1..], sends := [],
                        hist := ch.hist.(delivered := ch.hist.delivered + [Delivery(g, ch.buf[0])]))
    ensures QueueOk(ch', sels) && HistoryOk(ch', sels)
  {
    StaleQ(ch.sends, sels);
    AmountsAppend(ch.hist.delivered, Delivery(g, ch.buf[0]));
    assert ch.buf == [ch.buf[0]] + ch.buf[1..];
    assert Values(ch'.hist.settled) == Amounts(ch'.hist.delivered) + ch'.buf;
  }

  /** Stale entries are dropped. */
  lemma Shed(ch: Chan, ch': Chan, sels: seq<Sel>, j: nat, k: nat)
    requires Trimmed(ch.recvs, ch'.recvs, j, sels) && Trimmed(ch.sends, ch'.sends, k, sels)
    requires ch' == ch.(recvs := ch'.recvs, sends := ch'.sends) && HistoryOk(ch, sels)
    ensures HistoryOk(ch', sels) && (QueueOk(ch, sels) ==> QueueOk(ch', sels))
  {
    StalePrefix(ch.sends, k, sels);
  }

  /** close() discards the first live sender's value. */
  lemma Discard(ch: Chan, ch': Chan, sels: seq<Sel>, sels': seq<Sel>, k: nat, x: Waiter)
    requires HistoryOk(ch, sels) && ch.closed
    requires Popped(ch.sends, ch'.sends, k, x, sels) && Won(sels, sels', x.tk)
    requires forall y :: y in ch'.sends && y.tk.OfSelect? ==> y.tk != x.tk
    requires ch' == ch.(sends := ch'.sends, hist := ch.hist.(dropped := ch.hist.dropped + [x]))
    ensures HistoryOk(ch', sels')
  {
    WonBySender(ch, ch'.sends, sels, sels', k, x);
    FinalIsNotLive(ch.hist.settled + ch.hist.dropped, sels, x);
    assert ch.hist.settled + (ch.hist.dropped + [x]) == ch.hist.settled + ch.hist.dropped + [x];
  }

  /** A live waiter joins the send queue. */
  lemma OfferJoins(ch: Chan, sels: seq<Sel>, x: Waiter)
    requires HistoryOk(ch, sels) && Live(sels, x) && (x.tk.OfSelect? ==> x.tk.t < |sels|)
    ensures HistoryOk(AddSend(ch, x), sels)
  {
    KeptAppend(ch.hist.offers, [x], sels);
    LiveAppendQ(ch.sends, [x], sels);
  }

  /** A new select changes nothing for the offers made so far. */
  lemma {:induction false} SameFates(q: seq<Waiter>, sels: seq<Sel>, sels': seq<Sel>)
    requires forall x :: x in q ==> Cancelled(sels, x.tk) == Cancelled(sels', x.tk) && Kept(sels, x) == Kept(sels', x)
    ensures KeptOf(q, sels) == KeptOf(q, sels') && LiveQ(q, sels) == LiveQ(q, sels')
  {
    if q != [] {
      assert q[0] in q;
      SameFates(q[1..], sels, sels');
    }
  }

  /** Two select tables that agree on who is cancelled and who won. */
  ghost predicate SameVerdicts(sels: seq<Sel>, sels': seq<Sel>) {
    && |sels| <= |sels'|
    && (forall t :: 0 <= t < |sels| ==> sels'[t].cancelled == sels[t].cancelled && sels'[t].winner == sels[t].winner)
    && (forall t :: |sels| <= t < |sels'| ==> !sels'[t].cancelled)
  }

  lemma VerdictsKeep(ch: Chan, sels: seq<Sel>, sels': seq<Sel>)
    requires QueueOk(ch, sels) && HistoryOk(ch, sels) && SameVerdicts(sels, sels')
    ensures QueueOk(ch, sels') && HistoryOk(ch, sels')
  {
    SameFates(ch.hist.offers, sels, sels');
    SameFates(ch.sends, sels, sels');
  }
}
