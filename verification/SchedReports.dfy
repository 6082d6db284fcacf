/** What a goroutine that has waited reports when it runs again: exactly what reached it
    while it waited. */
module SchedReports {
  import opened SchedModel
  import opened SchedInvariant
  import opened SchedCounting
  import opened SchedCore
  import opened SchedSteps
  import opened SchedSelect
  import opened SchedInv
  import opened SchedTurns
  import SchedHistory
  import opened SchedTheorems
  import A = SchedAnomalies

  // ---- What has reached a goroutine -------------------------------------------------

  /** The values delivered to g, in order. */
  ghost function To(ds: seq<Delivery>, g: Gid): seq<Value> {
    if ds == [] then [] else To(ds[..|ds|-1], g) + if ds[|ds|-1].to == g then [ds[|ds|-1].v] else []
  }

  lemma ToNext(ds: seq<Delivery>, x: Delivery, g: Gid)
    ensures To(ds + [x], g) == To(ds, g) + if x.to == g then [x.v] else []
  {
    assert (ds + [x])[..|ds|] == ds;
  }

  /** The values g has received from channel d. */
  ghost function Had(w: World, d: nat, g: Gid): seq<Value> {
    if d < |w.chans| then To(w.chans[d].hist.delivered, g) else []
  }

  /** g, which had `had` from channel d, is told that it received (v, ok) from channel c:
      it got v and nothing else, or c is closed and it got nothing. */
  ghost predicate Came(w: World, g: Gid, d: nat, had: seq<Value>, c: nat, v: Value, ok: bool) {
    && Had(w, d, g) == (if ok && d == c then had + [v] else had)
    && (!ok ==> v == ZERO && c < |w.chans| && w.chans[c].closed)
  }

  /** A select of g will report what reached g. */
  ghost predicate Picks(w: World, g: Gid, d: nat, had: seq<Value>, s: Sel) {
    && 0 <= s.winner < |s.cases|
    && match s.cases[s.winner]
       case RecvCase(c) => |s.writes| == 1 && s.writes[0].idx == s.winner && Came(w, g, d, had, c, s.writes[0].v, s.writes[0].ok)
       case SendCase(_, _) => s.writes == [] && Had(w, d, g) == had
       case DefaultCase => false
  }

  /** g suspended when it had `had` from channel d; nothing has reached it since, unless it
      has been woken and will report just that. */
  ghost predicate Fate(w: World, g: Gid, at: Await, d: nat, had: seq<Value>)
    requires g < |w.gs|
  {
    w.gs[g].at == at &&
    match at
    case AtRecv(c) =>
      if g in w.ready then w.gs[g].last.Received? && Came(w, g, d, had, c, w.gs[g].last.v, w.gs[g].last.ok)
      else Had(w, d, g) == had
    case AtSelect(t) =>
      t < |w.sels| && if w.sels[t].cancelled then Picks(w, g, d, had, w.sels[t]) else Had(w, d, g) == had
    case _ => Had(w, d, g) == had
  }

  /** g is not being resumed. */
  ghost predicate Off(w: World, g: Gid) { g < |w.gs| && forall i :: 0 <= i < |w.stack| ==> w.stack[i].g != g }

  // ---- Steps that do not concern g ---------------------------------------------------

  ghost predicate StayClosed(w: World, w': World) {
    |w.chans| <= |w'.chans| && forall c :: 0 <= c < |w.chans| && w.chans[c].closed ==> w'.chans[c].closed
  }

  ghost predicate SameSel(w: World, w': World, t: nat) {
    t < |w.sels| ==> t < |w'.sels| && w'.sels[t].(counted := w.sels[t].counted) == w.sels[t]
  }

  /** Nothing that g waits for has changed. */
  ghost predicate Quiet(w: World, w': World, g: Gid, d: nat) {
    && g < |w.gs| && g < |w'.gs| && w'.gs[g] == w.gs[g]
    && (w.gs[g].at.AtRecv? ==> (g in w'.ready <==> g in w.ready))
    && (w.gs[g].at.AtSelect? ==> SameSel(w, w', w.gs[g].at.t))
    && Had(w', d, g) == Had(w, d, g) && StayClosed(w, w')
  }

  lemma QuietKeeps(w: World, w': World, g: Gid, at: Await, d: nat, had: seq<Value>)
    requires Quiet(w, w', g, d) && Fate(w, g, at, d, had)
    ensures Fate(w', g, at, d, had)
  {
  }

  /** Only channel c has changed, and has delivered nothing to g. */
  lemma ChannelKeeps(w: World, w': World, c: nat, g: Gid, at: Await, d: nat, had: seq<Value>)
    requires c < |w.chans| && c < |w'.chans| && w' == SetChan(w, c, w'.chans[c]) && (w.chans[c].closed ==> w'.chans[c].closed)
    requires To(w'.chans[c].hist.delivered, g) == To(w.chans[c].hist.delivered, g)
    requires g < |w.gs| && Fate(w, g, at, d, had)
    ensures Fate(w', g, at, d, had)
  {
    QuietKeeps(w, w', g, at, d, had);
  }

  // ---- Waking ---------------------------------------------------------------------------

  /** x waits in a queue of channel c: its goroutine is not ready and is suspended there. */
  ghost predicate Waits(w: World, c: nat, x: Waiter, receives: bool) {
    && x.g < |w.gs| && x.g !in w.ready
    && match x.tk
       case Plain => w.gs[x.g].at == if receives then AtRecv(c) else AtSend(c)
       case OfSelect(t, i) =>
         && t < |w.sels| && w.sels[t].owner == x.g && w.gs[x.g].at == AtSelect(t)
         && !w.sels[t].cancelled && w.sels[t].writes == []
         && i < |w.sels[t].cases| && w.sels[t].cases[i] == if receives then RecvCase(c) else SendCase(c, x.v)
  }

  lemma LiveWaits(w: World, c: nat, x: Waiter, receives: bool)
    requires Core(w) && c < |w.chans| && Live(w.sels, x) && x in if receives then w.chans[c].recvs else w.chans[c].sends
    ensures Waits(w, c, x, receives)
  {
    assert RecvsOk(w, c, w.chans[c].recvs) && SendsOk(w, c, w.chans[c].sends);
    if x.tk.Plain? {
      PlainAllMember(w.chans, c, x);
    } else {
      assert SelOk(w, x.tk.t);
      LiveMember(w.sels, x.tk.t);
    }
    OneSource(w, x.g);
  }

  /** Channel c, its receiver x gone from the queue, has delivered v to it or is closed. */
  ghost predicate Handed(ch: Chan, ch': Chan, x: Waiter, v: Value, ok: bool) {
    && (ch.closed ==> ch'.closed)
    && if ok then ch'.hist.delivered == ch.hist.delivered + [Delivery(x.g, v)]
       else v == ZERO && ch'.closed && ch'.hist.delivered == ch.hist.delivered
  }

  lemma RecvWakesIt(w: World, w': World, c: nat, x: Waiter, v: Value, ok: bool, at: Await, d: nat, had: seq<Value>)
    requires c < |w.chans| && Waits(w, c, x, true) && c < |w'.chans| && Handed(w.chans[c], w'.chans[c], x, v, ok)
    requires w' == CompleteRecv(SetChan(w, c, w'.chans[c]), x, v, ok) && Fate(w, x.g, at, d, had)
    ensures x.g < |w'.gs| && Fate(w', x.g, at, d, had)
  {
    ToNext(w.chans[c].hist.delivered, Delivery(x.g, v), x.g);
    assert Had(w', d, x.g) == if ok && d == c then had + [v] else had;
    assert x.g in w'.ready;
  }

  /** Completing a waiter of another goroutine leaves g and its select alone. */
  ghost predicate Spared(w: World, w': World, g: Gid, t: nat) {
    && g < |w.gs| && |w'.gs| == |w.gs| && w'.gs[g] == w.gs[g] && w'.chans == w.chans
    && (g in w'.ready <==> g in w.ready) && SameSel(w, w', t)
  }

  lemma RecvSpares(w: World, w': World, x: Waiter, v: Value, ok: bool, g: Gid, t: nat)
    requires w' == CompleteRecv(w, x, v, ok) && x.g != g < |w.gs| && (x.tk.OfSelect? ==> x.tk.t != t)
    ensures Spared(w, w', g, t)
  {
  }

  lemma SendSpares(w: World, w': World, x: Waiter, g: Gid, t: nat)
    requires w' == CompleteSend(w, x) && x.g != g < |w.gs| && (x.tk.OfSelect? ==> x.tk.t != t)
    ensures Spared(w, w', g, t)
  {
  }

  /** The select that g waits in. */
  ghost function SelectOf(w: World, g: Gid): nat
    requires g < |w.gs|
  {
    if w.gs[g].at.AtSelect? then w.gs[g].at.t else |w.sels|
  }

  lemma OtherSelect(w: World, c: nat, x: Waiter, receives: bool, g: Gid)
    requires Waits(w, c, x, receives) && x.g != g < |w.gs| && GoroutineOk(w, g)
    ensures x.tk.OfSelect? ==> x.tk.t != SelectOf(w, g)
  {
  }

  lemma SparedIsQuiet(w: World, w1: World, w': World, c: nat, g: Gid, d: nat)
    requires c < |w.chans| && c < |w1.chans| && w1 == SetChan(w, c, w1.chans[c]) && (w.chans[c].closed ==> w1.chans[c].closed)
    requires To(w1.chans[c].hist.delivered, g) == To(w.chans[c].hist.delivered, g)
    requires g < |w.gs| && Spared(w1, w', g, SelectOf(w, g))
    ensures Quiet(w, w', g, d)
  {
  }

  lemma RecvWakesOther(w: World, w': World, c: nat, x: Waiter, v: Value, ok: bool, g: Gid, at: Await, d: nat, had: seq<Value>)
    requires c < |w.chans| && Waits(w, c, x, true) && c < |w'.chans| && Handed(w.chans[c], w'.chans[c], x, v, ok)
    requires w' == CompleteRecv(SetChan(w, c, w'.chans[c]), x, v, ok)
    requires x.g != g < |w.gs| && GoroutineOk(w, g) && Fate(w, g, at, d, had)
    ensures g < |w'.gs| && Fate(w', g, at, d, had)
  {
    var w1 := SetChan(w, c, w'.chans[c]);
    ToNext(w.chans[c].hist.delivered, Delivery(x.g, v), g);
    OtherSelect(w, c, x, true, g);
    RecvSpares(w1, w', x, v, ok, g, SelectOf(w, g));
    SparedIsQuiet(w, w1, w', c, g, d);
    QuietKeeps(w, w', g, at, d, had);
  }

  lemma RecvWakes(w: World, w': World, c: nat, x: Waiter, v: Value, ok: bool, g: Gid, at: Await, d: nat, had: seq<Value>)
    requires Core(w) && c < |w.chans| && x in w.chans[c].recvs && Live(w.sels, x)
    requires c < |w'.chans| && Handed(w.chans[c], w'.chans[c], x, v, ok)
    requires w' == CompleteRecv(SetChan(w, c, w'.chans[c]), x, v, ok)
    requires g < |w.gs| && Fate(w, g, at, d, had)
    ensures g < |w'.gs| && Fate(w', g, at, d, had)
  {
    LiveWaits(w, c, x, true);
    assert GoroutineOk(w, g);
    if x.g == g { RecvWakesIt(w, w', c, x, v, ok, at, d, had); } else { RecvWakesOther(w, w', c, x, v, ok, g, at, d, had); }
  }

  /** Channel c, its sender s gone from the queue, has delivered nothing to g. */
  ghost predicate Taken(ch: Chan, ch': Chan, g: Gid) {
    (ch.closed ==> ch'.closed) && To(ch'.hist.delivered, g) == To(ch.hist.delivered, g)
  }

  lemma SendWakesIt(w: World, w': World, c: nat, x: Waiter, at: Await, d: nat, had: seq<Value>)
    requires c < |w.chans| && Waits(w, c, x, false) && c < |w'.chans| && Taken(w.chans[c], w'.chans[c], x.g)
    requires w' == CompleteSend(SetChan(w, c, w'.chans[c]), x) && Fate(w, x.g, at, d, had)
    ensures x.g < |w'.gs| && Fate(w', x.g, at, d, had)
  {
    assert Had(w', d, x.g) == Had(w, d, x.g);
  }

  lemma SendWakesOther(w: World, w': World, c: nat, x: Waiter, g: Gid, at: Await, d: nat, had: seq<Value>)
    requires c < |w.chans| && Waits(w, c, x, false) && c < |w'.chans| && Taken(w.chans[c], w'.chans[c], g)
    requires w' == CompleteSend(SetChan(w, c, w'.chans[c]), x)
    requires x.g != g < |w.gs| && GoroutineOk(w, g) && Fate(w, g, at, d, had)
    ensures g < |w'.gs| && Fate(w', g, at, d, had)
  {
    var w1 := SetChan(w, c, w'.chans[c]);
    OtherSelect(w, c, x, false, g);
    SendSpares(w1, w', x, g, SelectOf(w, g));
    SparedIsQuiet(w, w1, w', c, g, d);
    QuietKeeps(w, w', g, at, d, had);
  }

  lemma SendWakes(w: World, w': World, c: nat, x: Waiter, g: Gid, at: Await, d: nat, had: seq<Value>)
    requires Core(w) && c < |w.chans| && x in w.chans[c].sends && Live(w.sels, x)
    requires c < |w'.chans| && Taken(w.chans[c], w'.chans[c], g) && w' == CompleteSend(SetChan(w, c, w'.chans[c]), x)
    requires g < |w.gs| && Fate(w, g, at, d, had)
    ensures g < |w'.gs| && Fate(w', g, at, d, had)
  {
    LiveWaits(w, c, x, false);
    assert GoroutineOk(w, g);
    if x.g == g { SendWakesIt(w, w', c, x, at, d, had); } else { SendWakesOther(w, w', c, x, g, at, d, had); }
  }

  // ---- Channel operations ------------------------------------------------------------------

  /** What TrySend does: hands over, or changes the channel alone. */
  lemma TrySendIs(w: World, w': World, c: nat, h: Gid, v: Value)
    requires c < |w.chans| && !TrySend(w, c, h, v).Failed? && w' == TrySend(w, c, h, v).w
    ensures c < |w'.chans| && |w'.gs| == |w.gs| && w'.chans[c].closed == w.chans[c].closed
    ensures var rs := DropStale(w.chans[c].recvs, w.sels);
      if rs != [] then Handed(w.chans[c], w'.chans[c], rs[0], v, true) && w' == CompleteRecv(SetChan(w, c, w'.chans[c]), rs[0], v, true)
      else w' == SetChan(w, c, w'.chans[c]) && w'.chans[c].hist.delivered == w.chans[c].hist.delivered
  {
  }

  lemma TrySendFate(w: World, w': World, c: nat, h: Gid, v: Value, g: Gid, at: Await, d: nat, had: seq<Value>)
    requires Core(w) && c < |w.chans| && !TrySend(w, c, h, v).Failed? && w' == TrySend(w, c, h, v).w && g < |w.gs| && Fate(w, g, at, d, had)
    ensures g < |w'.gs| && Fate(w', g, at, d, had)
  {
    var k := DropStaleTrims(w.chans[c].recvs, w.sels);
    var rs := DropStale(w.chans[c].recvs, w.sels);
    TrySendIs(w, w', c, h, v);
    if rs != [] { RecvWakes(w, w', c, rs[0], v, true, g, at, d, had); } else { ChannelKeeps(w, w', c, g, at, d, had); }
  }

  /** What TryRecv does: takes a sender's value, or changes the channel alone. */
  lemma TryRecvIs(w: World, w': World, c: nat, h: Gid, g: Gid)
    requires c < |w.chans| && w' == TryRecv(w, c, h).w && h != g
    ensures c < |w'.chans| && |w'.gs| == |w.gs| && Taken(w.chans[c], w'.chans[c], g)
    ensures var ss := DropStale(w.chans[c].sends, w.sels);
      if ss != [] then w' == CompleteSend(SetChan(w, c, w'.chans[c]), ss[0]) else w' == SetChan(w, c, w'.chans[c])
  {
    var ch, ss := w.chans[c], DropStale(w.chans[c].sends, w.sels);
    if ch.buf != [] {
      ToNext(ch.hist.delivered, Delivery(h, ch.buf[0]), g);
    } else if ss != [] {
      ToNext(ch.hist.delivered, Delivery(h, ss[0].v), g);
    }
  }

  lemma TryRecvFate(w: World, w': World, c: nat, h: Gid, g: Gid, at: Await, d: nat, had: seq<Value>)
    requires Core(w) && c < |w.chans| && w' == TryRecv(w, c, h).w && h != g < |w.gs| && Fate(w, g, at, d, had)
    ensures g < |w'.gs| && Fate(w', g, at, d, had)
  {
    var k := DropStaleTrims(w.chans[c].sends, w.sels);
    var ss := DropStale(w.chans[c].sends, w.sels);
    TryRecvIs(w, w', c, h, g);
    if ss != [] { SendWakes(w, w', c, ss[0], g, at, d, had); } else { ChannelKeeps(w, w', c, g, at, d, had); }
  }

  lemma CloseRecvFate(w: World, w': World, c: nat, g: Gid, at: Await, d: nat, had: seq<Value>)
    requires Core(w) && c < |w.chans| && w.chans[c].closed && w.chans[c].recvs != [] && w' == CloseRecv(w, c)
    requires g < |w.gs| && Fate(w, g, at, d, had)
    ensures g < |w'.gs| && Fate(w', g, at, d, had)
  {
    var ch := w.chans[c];
    var x := ch.recvs[0];
    assert w'.chans[c] == ch.(recvs := ch.recvs[1..]);
    if Live(w.sels, x) { RecvWakes(w, w', c, x, ZERO, false, g, at, d, had); } else { ChannelKeeps(w, w', c, g, at, d, had); }
  }

  lemma {:induction false} CloseRecvsFate(w: World, w': World, c: nat, g: Gid, at: Await, d: nat, had: seq<Value>)
    requires Core(w) && c < |w.chans| && w.chans[c].closed && w' == CloseRecvs(w, c) && g < |w.gs| && Fate(w, g, at, d, had)
    ensures Core(w') && g < |w'.gs| && Fate(w', g, at, d, had)
    decreases |w.chans[c].recvs|
  {
    if w.chans[c].recvs != [] {
      var w1 := CloseRecv(w, c);
      CloseRecvCore(w, c);
      CloseRecvFate(w, w1, c, g, at, d, had);
      assert w1.chans[c] == w.chans[c].(recvs := w.chans[c].recvs[1..]);
      CloseRecvsFate(w1, w', c, g, at, d, had);
    }
  }

  lemma CloseSendFate(w: World, w': World, c: nat, g: Gid, at: Await, d: nat, had: seq<Value>)
    requires Core(w) && c < |w.chans| && w.chans[c].sends != [] && w' == CloseSend(w, c)
    requires g < |w.gs| && Fate(w, g, at, d, had)
    ensures g < |w'.gs| && Fate(w', g, at, d, had)
  {
    var ch := w.chans[c];
    var x := ch.sends[0];
    assert w'.chans[c] == ch.(sends := ch.sends[1..], hist := Drop(ch.hist, x, w.sels));
    if Live(w.sels, x) { SendWakes(w, w', c, x, g, at, d, had); } else { ChannelKeeps(w, w', c, g, at, d, had); }
  }

  lemma {:induction false} CloseSendsFate(w: World, w': World, c: nat, g: Gid, at: Await, d: nat, had: seq<Value>)
    requires Core(w) && c < |w.chans| && w' == CloseSends(w, c) && g < |w.gs| && Fate(w, g, at, d, had)
    ensures g < |w'.gs| && Fate(w', g, at, d, had)
    decreases |w.chans[c].sends|
  {
    if w.chans[c].sends != [] {
      var w1 := CloseSend(w, c);
      CloseSendCore(w, c);
      CloseSendFate(w, w1, c, g, at, d, had);
      CloseSendsFate(w1, w', c, g, at, d, had);
    }
  }

  lemma CloseFate(w: World, w': World, c: nat, g: Gid, at: Await, d: nat, had: seq<Value>)
    requires Core(w) && c < |w.chans| && !w.chans[c].closed && w' == CloseChan(w, c) && g < |w.gs| && Fate(w, g, at, d, had)
    ensures g < |w'.gs| && Fate(w', g, at, d, had)
  {
    var w1 := SetChan(w, c, w.chans[c].(closed := true));
    var w2 := CloseRecvs(w1, c);
    CloseStarts(w, w1, c);
    ChannelKeeps(w, w1, c, g, at, d, had);
    CloseRecvsFate(w1, w2, c, g, at, d, had);
    CloseSendsFate(w2, w', c, g, at, d, had);
  }

  lemma {:induction false} TryCasesFate(w: World, w': World, h: Gid, cases: seq<Case>, i: nat, g: Gid, at: Await, d: nat, had: seq<Value>)
    requires Core(w) && CasesOk(w, cases) && i <= |cases| && !TryCases(w, h, cases, i).Aborted? && w' == TryCases(w, h, cases, i).w
    requires h != g < |w.gs| && Fate(w, g, at, d, had)
    ensures g < |w'.gs| && Fate(w', g, at, d, had)
    decreases |cases| - i
  {
    if i < |cases| {
      match cases[i]
      case DefaultCase => TryCasesFate(w, w', h, cases, i + 1, g, at, d, had);
      case RecvCase(c) =>
        var r := TryRecv(w, c, h);
        TryRecvCore(w, c, h);
        TryRecvFate(w, r.w, c, h, g, at, d, had);
        if r.Empty? { TryCasesFate(r.w, w', h, cases, i + 1, g, at, d, had); }
      case SendCase(c, v) =>
        var r := TrySend(w, c, h, v);
        TrySendCore(w, c, h, v);
        TrySendFate(w, r.w, c, h, v, g, at, d, had);
        if r.Blocked? { TryCasesFate(r.w, w', h, cases, i + 1, g, at, d, had); }
    }
  }

  // ---- Steps ---------------------------------------------------------------------------------

  lemma SetLastFate(w: World, w': World, h: Gid, out: Outcome, g: Gid, at: Await, d: nat, had: seq<Value>)
    requires w' == SetLast(w, h, out) && h != g < |w.gs| && Fate(w, g, at, d, had)
    ensures g < |w'.gs| && Fate(w', g, at, d, had)
  {
    QuietKeeps(w, w', g, at, d, had);
  }

  lemma ParkedFate(w: World, w': World, c: nat, v: Value, g: Gid, at: Await, d: nat, had: seq<Value>)
    requires w.stack != [] && c < |w.chans| && (w' == ParkedSend(w, c, v) || w' == ParkedRecv(w, c))
    requires Top(w).g != g < |w.gs| && Fate(w, g, at, d, had)
    ensures g < |w'.gs| && Fate(w', g, at, d, had)
  {
    assert Had(w', d, g) == Had(w, d, g);
    QuietKeeps(w, w', g, at, d, had);
  }

  lemma SendFate(w: World, w': World, c: nat, v: Value, g: Gid, at: Await, d: nat, had: seq<Value>)
    requires Core(w) && Active(w) && c < |w.chans| && DoSend(w, c, v) == Next(w') && Top(w).g != g < |w.gs| && Fate(w, g, at, d, had)
    ensures g < |w'.gs| && Fate(w', g, at, d, had)
  {
    var w1 := TrySend(w, c, Top(w).g, v).w;
    SendShape(w, w', w1, c, v);
    TrySendFate(w, w1, c, Top(w).g, v, g, at, d, had);
    if w' == SetLast(w1, Top(w).g, Sent) {
      SetLastFate(w1, w', Top(w).g, Sent, g, at, d, had);
    } else {
      ParkedFate(w1, w', c, v, g, at, d, had);
    }
  }

  lemma RecvFate(w: World, w': World, c: nat, g: Gid, at: Await, d: nat, had: seq<Value>)
    requires Core(w) && Active(w) && c < |w.chans| && DoRecv(w, c) == Next(w') && Top(w).g != g < |w.gs| && Fate(w, g, at, d, had)
    ensures g < |w'.gs| && Fate(w', g, at, d, had)
  {
    var r := TryRecv(w, c, Top(w).g);
    RecvShape(w, w', r, c);
    TryRecvFate(w, r.w, c, Top(w).g, g, at, d, had);
    if r.Got? {
      SetLastFate(r.w, w', Top(w).g, Received(r.v, r.ok), g, at, d, had);
    } else {
      ParkedFate(r.w, w', c, ZERO, g, at, d, had);
    }
  }

  /** Parking delivers nothing. */
  lemma {:induction false} ParkCasesQuiet(w: World, w': World, h: Gid, t: nat, cases: seq<Case>, i: nat, g: Gid, d: nat)
    requires CasesOk(w, cases) && i <= |cases| && w' == ParkCases(w, h, t, cases, i)
    ensures StayClosed(w, w') && Had(w', d, g) == Had(w, d, g)
    decreases |cases| - i
  {
    if i < |cases| {
      var cs := cases[i];
      var w1 := match cs
                case DefaultCase => w
                case RecvCase(c) => SetChan(w, c, AddRecv(w.chans[c], Entry(h, t, i, cs)))
                case SendCase(c, _) => SetChan(w, c, AddSend(w.chans[c], Entry(h, t, i, cs)));
      ParkCasesQuiet(w1, w', h, t, cases, i + 1, g, d);
    }
  }

  lemma ParkedSelectFate(w: World, w': World, cases: seq<Case>, g: Gid, at: Await, d: nat, had: seq<Value>)
    requires w.stack != [] && CasesOk(w, cases) && w' == ParkedSelect(w, cases) && Top(w).g != g < |w.gs| && Fate(w, g, at, d, had)
    ensures g < |w'.gs| && Fate(w', g, at, d, had)
  {
    var w1 := SelectPrepared(w, cases);
    ParkCasesQuiet(w1, w', Top(w).g, |w.sels|, cases, 0, g, d);
    assert Quiet(w, w1, g, d);
    QuietKeeps(w, w', g, at, d, had);
  }

  lemma SelectFate(w: World, w': World, cases: seq<Case>, g: Gid, at: Await, d: nat, had: seq<Value>)
    requires Core(w) && Active(w) && CasesOk(w, cases) && DoSelect(w, cases) == Next(w') && Top(w).g != g < |w.gs| && Fate(w, g, at, d, had)
    ensures g < |w'.gs| && Fate(w', g, at, d, had)
  {
    var r := TryCases(w, Top(w).g, cases, 0);
    SelectShape(w, w', r, cases);
    TryCasesFate(w, r.w, Top(w).g, cases, 0, g, at, d, had);
    if r.Chosen? {
      SetLastFate(r.w, w', Top(w).g, Picked(r.idx, r.writes), g, at, d, had);
    } else if DefaultFrom(cases, 0) >= 0 {
      SetLastFate(r.w, w', Top(w).g, Picked(DefaultFrom(cases, 0), []), g, at, d, had);
    } else {
      ParkedSelectFate(r.w, w', cases, g, at, d, had);
    }
  }

  lemma ResumeFate(w: World, w': World, g: Gid, at: Await, d: nat, had: seq<Value>)
    requires w.ready != [] && Resumed(w, w', w.ready[0]) && w.ready[0] != g < |w.gs| && Fate(w, g, at, d, had)
    ensures g < |w'.gs| && Fate(w', g, at, d, had)
  {
    assert w.ready == [w.ready[0]] + w'.ready;
    QuietKeeps(w, w', g, at, d, had);
  }

  /** The goroutine that is executing. */
  ghost predicate Acting(w: World, a: Action, g: Gid) {
    (a.ASend? || a.ARecv? || a.ASelect? || a.ACall? || a.AHostCall? || a.AFinish?) && w.stack != [] && Top(w).g == g
  }

  /** Channels and selects stay, and those who wait to receive. */
  ghost predicate Bypassed(w: World, w': World, g: Gid) {
    && g < |w.gs| <= |w'.gs| && w'.gs[g] == w.gs[g] && w'.sels == w.sels && w.chans <= w'.chans
    && (forall c :: |w.chans| <= c < |w'.chans| ==> w'.chans[c].hist == NO_HISTORY)
    && (w.gs[g].at.AtRecv? ==> (g in w'.ready <==> g in w.ready))
  }

  lemma BypassedFate(w: World, w': World, g: Gid, at: Await, d: nat, had: seq<Value>)
    requires Bypassed(w, w', g) && Fate(w, g, at, d, had)
    ensures g < |w'.gs| && Fate(w', g, at, d, had)
  {
    QuietKeeps(w, w', g, at, d, had);
  }

  lemma OtherBypasses(w: World, w': World, a: Action, g: Gid)
    requires Enabled(w, a) && Step(w, a) == Next(w') && g < |w.gs| && !Acting(w, a, g)
    requires a.ASpawn? || a.AMakeChan? || a.ACall? || a.AHostCall? || a.AFinish? || a.APumpStart? || a.APumpEnd?
    ensures Bypassed(w, w', g)
  {
  }

  lemma CompletionBypasses(w: World, w': World, id: nat, g: Gid)
    requires Goroutines(w) && w' == HostDone(w, id) && g < |w.gs|
    ensures Bypassed(w, w', g)
  {
    if id < |w.calls| { assert CallOk(w, id); }
  }

  /** A step of somebody else. */
  lemma StepFate(w: World, w': World, a: Action, g: Gid, at: Await, d: nat, had: seq<Value>)
    requires Core(w) && Enabled(w, a) && Step(w, a) == Next(w') && g < |w.gs| && Fate(w, g, at, d, had)
    requires !Acting(w, a, g) && (a.AResume? ==> w.ready[0] != g)
    ensures g < |w'.gs| && Fate(w', g, at, d, had)
  {
    match a
    case ASend(c, v) => SendFate(w, w', c, v, g, at, d, had);
    case ARecv(c) => RecvFate(w, w', c, g, at, d, had);
    case ASelect(cases) => SelectFate(w, w', cases, g, at, d, had);
    case AClose(c) => CloseFate(w, w', c, g, at, d, had);
    case AResume =>
      ResumeShape(w, w');
      ResumeFate(w, w', g, at, d, had);
    case AHostDone(id) =>
      CompletionBypasses(w, w', id, g);
      BypassedFate(w, w', g, at, d, had);
    case _ =>
      OtherBypasses(w, w', a, g);
      BypassedFate(w, w', g, at, d, had);
  }

  // ---- Sleeping ------------------------------------------------------------------------------

  lemma StepKeepsOff(w: World, w': World, a: Action, g: Gid)
    requires Core(w) && Enabled(w, a) && Step(w, a) == Next(w') && Off(w, g) && Off(w', g)
    ensures !Acting(w, a, g) && (a.AResume? ==> w.ready[0] != g)
  {
    if a.AResume? {
      ResumeShape(w, w');
      assert w'.stack[|w.stack|].g == w.ready[0];
    }
  }

  /** g is not resumed anywhere in the run. */
  ghost predicate Sleeps(w: World, run: seq<Action>, g: Gid)
    decreases |run|
  {
    Off(w, g) && (run != [] && Enabled(w, run[0]) && Step(w, run[0]).Next? ==> Sleeps(Step(w, run[0]).w, run[1..], g))
  }

  lemma {:induction false} RunFate(w: World, run: seq<Action>, w': World, g: Gid, at: Await, d: nat, had: seq<Value>)
    requires Inv(w) && Reaches(w, run, w') && Sleeps(w, run, g) && Fate(w, g, at, d, had)
    ensures g < |w'.gs| && Fate(w', g, at, d, had)
    decreases |run|
  {
    if run != [] {
      var w1 := Step(w, run[0]).w;
      StepKeepsInv(w, w1, run[0]);
      assert Sleeps(w1, run[1..], g);
      StepKeepsOff(w, w1, run[0], g);
      StepFate(w, w1, run[0], g, at, d, had);
      RunFate(w1, run[1..], w', g, at, d, had);
    }
  }

  /** g's fate on channel d is settled or open. */
  ghost predicate Told(w: World, g: Gid, d: nat) { Off(w, g) ==> exists had :: Fate(w, g, w.gs[g].at, d, had) }

  lemma NotYetTold(w: World, g: Gid, d: nat)
    requires g < |w.gs| && Untold(w, g)
    ensures Told(w, g, d)
  {
    assert Fate(w, g, w.gs[g].at, d, Had(w, d, g));
  }

  lemma OnStackNotReady(w: World, g: Gid)
    requires Counts(w) && g < |w.gs| && !Off(w, g)
    ensures g !in w.ready
  {
    var i :| 0 <= i < |w.stack| && w.stack[i].g == g;
    StackMember(w.stack, i);
    OneSource(w, g);
  }

  lemma EmptyIsQuiet(w: World, c: nat, h: Gid)
    requires c < |w.chans| && TryRecv(w, c, h).Empty?
    ensures var w' := TryRecv(w, c, h).w; w'.ready == w.ready && w'.gs == w.gs && w'.stack == w.stack
  {
  }

  lemma RecvParks(w: World, w': World, c: nat, g: Gid)
    requires Active(w) && c < |w.chans| && DoRecv(w, c) == Next(w') && g < |w'.gs| && !Off(w, g) && Off(w', g)
    ensures g < |w.gs| && w'.gs[g].at == AtRecv(c) && w'.ready == w.ready
  {
    var r := TryRecv(w, c, Top(w).g);
    RecvShape(w, w', r, c);
    if r.Got? {
      StackStaysOn(w, w', g);
    } else {
      EmptyIsQuiet(w, c, Top(w).g);
      JustWaiting(r.w, w', c, ZERO, g);
    }
  }

  lemma SendParks(w: World, w': World, c: nat, v: Value, g: Gid)
    requires Active(w) && c < |w.chans| && DoSend(w, c, v) == Next(w') && g < |w'.gs| && !Off(w, g) && Off(w', g)
    ensures w'.gs[g].at == AtSend(c)
  {
    var w1 := TrySend(w, c, Top(w).g, v).w;
    SendShape(w, w', w1, c, v);
    if w' == SetLast(w1, Top(w).g, Sent) { StackStaysOn(w, w', g); } else { JustWaiting(w1, w', c, v, g); }
  }

  lemma JustWaiting(w: World, w': World, c: nat, v: Value, g: Gid)
    requires w.stack != [] && c < |w.chans| && (w' == ParkedSend(w, c, v) || w' == ParkedRecv(w, c)) && g < |w.gs| && !Off(w, g) && Off(w', g)
    ensures g < |w'.gs| && w'.ready == w.ready && w'.gs[g].at == if w' == ParkedSend(w, c, v) then AtSend(c) else AtRecv(c)
  {
  }

  lemma SelectParksUndecided(w: World, w': World, cases: seq<Case>, g: Gid)
    requires Active(w) && CasesOk(w, cases) && DoSelect(w, cases) == Next(w') && g < |w'.gs| && !Off(w, g) && Off(w', g)
    ensures w'.gs[g].at.AtSelect? && w'.gs[g].at.t < |w'.sels| && !w'.sels[w'.gs[g].at.t].cancelled
  {
    var r := TryCases(w, Top(w).g, cases, 0);
    SelectShape(w, w', r, cases);
    if w' == ParkedSelect(r.w, cases) { JustParked(r.w, w', cases, g); } else { StackStaysOn(w, w', g); }
  }

  lemma JustParked(w: World, w': World, cases: seq<Case>, g: Gid)
    requires w.stack != [] && CasesOk(w, cases) && w' == ParkedSelect(w, cases) && g < |w.gs| && !Off(w, g) && Off(w', g)
    ensures g < |w'.gs| && w'.gs[g].at == AtSelect(|w.sels|) && |w'.sels| == |w.sels| + 1 && !w'.sels[|w.sels|].cancelled
  {
    assert SelectPrepared(w, cases).stack == w.stack[..|w.stack|-1];
  }

  /** w' has everybody on its stack whom w has. */
  ghost predicate StackStays(w: World, w': World) {
    |w.stack| <= |w'.stack| && |w.gs| <= |w'.gs| && forall i :: 0 <= i < |w.stack| ==> w'.stack[i].g == w.stack[i].g
  }

  lemma StackStaysOn(w: World, w': World, g: Gid)
    requires StackStays(w, w') && g < |w.gs| && !Off(w, g)
    ensures !Off(w', g)
  {
    var i :| 0 <= i < |w.stack| && w.stack[i].g == g;
    assert w'.stack[i].g == g;
  }

  /** Steps of the channels and of the scheduler that leave the stack or extend it. */
  lemma OthersStayOn(w: World, w': World, a: Action)
    requires Core(w) && Enabled(w, a) && Step(w, a) == Next(w') && (a.AClose? || a.AResume? || a.AMakeChan? || a.APumpEnd? || a.AHostDone?)
    ensures StackStays(w, w') && |w'.gs| == |w.gs|
  {
    match a
    case AResume => ResumeShape(w, w');
    case AClose(c) => assert SameShape(w, w');
    case _ =>
  }

  /** Steps that make a goroutine, or suspend one elsewhere. */
  lemma SchedulerUntold(w: World, w': World, a: Action, g: Gid)
    requires Goroutines(w) && Enabled(w, a) && Step(w, a) == Next(w') && g < |w'.gs| && !Off(w, g) && Off(w', g)
    requires a.ASpawn? || a.APumpStart? || a.ACall? || a.AHostCall? || a.AFinish?
    ensures !w'.gs[g].at.AtRecv? && !w'.gs[g].at.AtSelect?
  {
    if g < |w.gs| {
      var i :| 0 <= i < |w.stack| && w.stack[i].g == g;
      assert FrameOk(w, i);
      if a.ASpawn? || a.APumpStart? { StackStaysOn(w, w', g); }
    }
  }

  ghost predicate Untold(w: World, g: Gid)
    requires g < |w.gs|
  {
    && (w.gs[g].at.AtRecv? ==> g !in w.ready)
    && (w.gs[g].at.AtSelect? ==> w.gs[g].at.t < |w.sels| && !w.sels[w.gs[g].at.t].cancelled)
  }

  /** A goroutine that has just left the stack, or is new, has been told nothing. */
  lemma LeavesUntold(w: World, w': World, a: Action, g: Gid)
    requires Core(w) && Enabled(w, a) && Step(w, a) == Next(w') && g < |w'.gs| && !Off(w, g) && Off(w', g)
    ensures Untold(w', g)
  {
    match a
    case ASend(c, v) => SendParks(w, w', c, v, g);
    case ARecv(c) => RecvParks(w, w', c, g); OnStackNotReady(w, g);
    case ASelect(cases) => SelectParksUndecided(w, w', cases, g);
    case ASpawn => SchedulerUntold(w, w', a, g);
    case APumpStart => SchedulerUntold(w, w', a, g);
    case ACall => SchedulerUntold(w, w', a, g);
    case AHostCall => SchedulerUntold(w, w', a, g);
    case AFinish => SchedulerUntold(w, w', a, g);
    case _ =>
      OthersStayOn(w, w', a);
      StackStaysOn(w, w', g);
  }

  ghost predicate AllTold(w: World) { forall g, d: nat :: Told(w, g, d) }

  lemma StepTells(w: World, w': World, a: Action, g: Gid, d: nat)
    requires Core(w) && Enabled(w, a) && Step(w, a) == Next(w') && Told(w, g, d)
    ensures Told(w', g, d)
  {
    if Off(w', g) {
      if Off(w, g) {
        var had :| Fate(w, g, w.gs[g].at, d, had);
        StepKeepsOff(w, w', a, g);
        StepFate(w, w', a, g, w.gs[g].at, d, had);
      } else {
        LeavesUntold(w, w', a, g);
        NotYetTold(w', g, d);
      }
    }
  }

  lemma {:induction false} RunTells(w: World, run: seq<Action>, w': World)
    requires Inv(w) && AllTold(w) && Reaches(w, run, w')
    ensures AllTold(w')
    decreases |run|
  {
    if run != [] {
      var w1 := Step(w, run[0]).w;
      StepKeepsInv(w, w1, run[0]);
      forall g, d: nat ensures Told(w1, g, d) { assert Told(w, g, d); StepTells(w, w1, run[0], g, d); }
      RunTells(w1, run[1..], w');
    }
  }

  // ---- What is reported ------------------------------------------------------------------------

  /** The head of the ready queue runs again as w', out of `at`. What it says it received is
      what it got from channel d on top of `had`. */
  ghost predicate Reports(w': World, g: Gid, at: Await, cases: seq<Case>, d: nat, had: seq<Value>)
    requires g < |w'.gs|
  {
    var out := w'.gs[g].last;
    match at
    case AtRecv(c) => out.Received? && Came(w', g, d, had, c, out.v, out.ok)
    case AtSend(_) => out == Sent && Had(w', d, g) == had
    case AtSelect(_) =>
      && out.Picked? && 0 <= out.idx < |cases|
      && (match cases[out.idx]
          case RecvCase(c) =>
            |out.writes| == 1 && out.writes[0].idx == out.idx && Came(w', g, d, had, c, out.writes[0].v, out.writes[0].ok)
          case SendCase(_, _) => out.writes == [] && Had(w', d, g) == had
          case DefaultCase => false)
    case _ => Had(w', d, g) == had
  }

  ghost function CasesAt(w: World, at: Await): seq<Case> { if at.AtSelect? && at.t < |w.sels| then w.sels[at.t].cases else [] }

  lemma ResumedReports(w: World, w': World, g: Gid, at: Await, d: nat, had: seq<Value>)
    requires Core(w) && w.ready != [] && w.ready[0] == g < |w.gs| && Fate(w, g, at, d, had) && DoResume(w) == Next(w')
    ensures g < |w'.gs| && Reports(w', g, at, CasesAt(w, at), d, had)
  {
    HeadIsWoken(w);
    TakesItsResult(w, w', g, at);
    assert Had(w', d, g) == Had(w, d, g);
  }

  /** What await_resume reads. */
  lemma TakesItsResult(w: World, w': World, g: Gid, at: Await)
    requires w.ready != [] && w.ready[0] == g < |w.gs| && w.gs[g].at == at && DoResume(w) == Next(w')
    ensures w'.chans == w.chans && g < |w'.gs|
    ensures match at
      case AtSend(_) => w'.gs[g].last == Sent
      case AtSelect(t) => t < |w.sels| ==> w'.gs[g].last == Picked(w.sels[t].winner, w.sels[t].writes)
      case _ => w'.gs[g].last == w.gs[g].last
  {
  }

  lemma SleeperUntold(w: World, g: Gid)
    requires Reachable(w) && Off(w, g) && g !in w.ready
    ensures Untold(w, g)
  {
    ReachableInv(w);
    if w.gs[g].at.AtSelect? {
      assert GoroutineOk(w, g);
      if g in StackAll(w.stack) { var i := StackWitness(w.stack, g); }
      NoLostWakeup(w, g);
    }
  }

  lemma SleepsIsOff(w: World, run: seq<Action>, g: Gid)
    requires Sleeps(w, run, g)
    ensures Off(w, g)
  {
  }

  lemma CasesStay(w: World, run: seq<Action>, w1: World, at: Await)
    requires Reaches(w, run, w1) && (at.AtSelect? ==> at.t < |w.sels|)
    ensures CasesAt(w1, at) == CasesAt(w, at)
  {
    SchedHistory.RunAfter(w, run, w1);
    if at.AtSelect? { assert SchedHistory.SelAfter(w.sels[at.t], w1.sels[at.t]); }
  }

  /** A goroutine that slept through a run and is resumed reports exactly what has reached it
      meanwhile: a receive, or a select's receive case, the one value it was given from that
      channel, or the zero value of a channel that is closed; anything else nothing. No other
      value was delivered to it. */
  lemma ReportsWhatCame(w: World, run: seq<Action>, w1: World, w': World, g: Gid, d: nat)
    requires Reachable(w) && g !in w.ready && Reaches(w, run, w1) && Sleeps(w, run, g)
    requires w1.ready != [] && w1.ready[0] == g < |w1.gs| && DoResume(w1) == Next(w')
    ensures g < |w.gs| && g < |w'.gs| && Reports(w', g, w.gs[g].at, CasesAt(w, w.gs[g].at), d, Had(w, d, g))
  {
    SleepsIsOff(w, run, g);
    var at := w.gs[g].at;
    SleeperUntold(w, g);
    ReachableInv(w);
    RunKeepsInv(w, run, w1);
    RunFate(w, run, w1, g, at, d, Had(w, d, g));
    CasesStay(w, run, w1, at);
    ResumedReports(w1, w', g, at, d, Had(w, d, g));
  }

  lemma EverybodyIsTold(w: World)
    requires Reachable(w)
    ensures AllTold(w)
  {
    var run :| Reaches(EMPTY_WORLD, run, w);
    assert Inv(EMPTY_WORLD);
    RunTells(EMPTY_WORLD, run, w);
  }

  lemma HeadIsOff(w: World)
    requires Core(w) && w.ready != []
    ensures Off(w, w.ready[0])
  {
    HeadIsWoken(w);
    forall i | 0 <= i < |w.stack| ensures w.stack[i].g != w.ready[0] { StackMember(w.stack, i); }
  }

  lemma HeadIsTold(w: World, d: nat) returns (had: seq<Value>)
    requires Reachable(w) && w.ready != []
    ensures w.ready[0] < |w.gs| && Fate(w, w.ready[0], w.gs[w.ready[0]].at, d, had)
  {
    ReachableInv(w);
    HeadIsOff(w);
    EverybodyIsTold(w);
    assert Told(w, w.ready[0], d);
    had :| Fate(w, w.ready[0], w.gs[w.ready[0]].at, d, had);
  }

  /** Whenever a goroutine that waited to receive is resumed, it reports the value last
      delivered to it on its channel, or the zero value, and then the channel is closed. */
  lemma ReceiverReportsItsDelivery(w: World, w': World, c: nat)
    requires Reachable(w) && w.ready != [] && w.ready[0] < |w.gs| && w.gs[w.ready[0]].at == AtRecv(c) && DoResume(w) == Next(w')
    ensures var g := w.ready[0]; g < |w'.gs| && w'.gs[g].last.Received? && var o := w'.gs[g].last;
      if o.ok then Had(w', c, g) != [] && Had(w', c, g)[|Had(w', c, g)|-1] == o.v
      else o.v == ZERO && c < |w'.chans| && w'.chans[c].closed
  {
    var had := HeadIsTold(w, c);
    ReachableInv(w);
    ResumedReports(w, w', w.ready[0], AtRecv(c), c, had);
  }

  lemma SenderNotWaiting(w: World, c: nat)
    requires Reachable(w) && w.ready != [] && c < |w.chans| && !w.chans[c].closed
    ensures A.AllAccepted(w, c, w.ready[0])
  {
    ReachableInv(w);
    HeadIsWoken(w);
    assert HistoryOk(w.chans[c], w.sels);
    A.UndiscardedIsAccepted(w, c, w.ready[0]);
  }

  /** A goroutine that waited to send is resumed without a fault if and only if its channel
      is open, and then everything it offered there has been accepted. */
  lemma SenderReportsSent(w: World, c: nat)
    requires Reachable(w) && w.ready != [] && w.ready[0] < |w.gs| && w.gs[w.ready[0]].at == AtSend(c) && c < |w.chans|
    ensures if w.chans[c].closed then DoResume(w) == Crash(SendOnClosed)
            else var r, g := DoResume(w), w.ready[0];
              r.Next? && g < |r.w.gs| && r.w.gs[g].last == Sent && A.AllAccepted(w, c, g)
  {
    if !w.chans[c].closed { SenderNotWaiting(w, c); }
  }
}
