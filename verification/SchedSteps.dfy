/** The wake-source invariant, operation by operation. */
module SchedSteps {
  import opened SchedModel
  import opened SchedInvariant
  import opened SchedCounting
  import opened SchedCore

  // ---- Channel operations -------------------------------------------------------

  lemma TrySendHandsOverCore(w: World, c: nat, g: Gid, v: Value)
    requires Core(w) && c < |w.chans| && !w.chans[c].closed && DropStale(w.chans[c].recvs, w.sels) != []
    ensures Core(TrySend(w, c, g, v).w)
  {
    var k := DropStalePops(w.chans[c].recvs, w.sels);
    var x := DropStale(w.chans[c].recvs, w.sels)[0];
    assert RecvsOk(w, c, w.chans[c].recvs);
    WakeKeepsCore(w, TrySend(w, c, g, v).w, c, x, [Write(if x.tk.OfSelect? then x.tk.idx else 0, v, true)], k);
  }

  lemma TrySendCore(w: World, c: nat, g: Gid, v: Value)
    requires Core(w) && c < |w.chans| && !TrySend(w, c, g, v).Failed?
    ensures Core(TrySend(w, c, g, v).w)
  {
    var ch := w.chans[c];
    if DropStale(ch.recvs, w.sels) != [] {
      TrySendHandsOverCore(w, c, g, v);
    } else {
      var k := DropStaleTrims(ch.recvs, w.sels);
      assert Trimmed(ch.sends, ch.sends, 0, w.sels);
      TrimKeepsCore(w, c, TrySend(w, c, g, v).w.chans[c], k, 0);
    }
  }

  lemma TryRecvServesSenderCore(w: World, c: nat, g: Gid)
    requires Core(w) && c < |w.chans| && DropStale(w.chans[c].sends, w.sels) != []
    ensures Core(TryRecv(w, c, g).w)
  {
    var k := DropStalePops(w.chans[c].sends, w.sels);
    WakeKeepsCore(w, TryRecv(w, c, g).w, c, DropStale(w.chans[c].sends, w.sels)[0], [], k);
  }

  lemma TryRecvCore(w: World, c: nat, g: Gid)
    requires Core(w) && c < |w.chans|
    ensures Core(TryRecv(w, c, g).w)
  {
    var ch := w.chans[c];
    if DropStale(ch.sends, w.sels) != [] {
      TryRecvServesSenderCore(w, c, g);
    } else {
      var k := DropStaleTrims(ch.sends, w.sels);
      assert Trimmed(ch.recvs, ch.recvs, 0, w.sels);
      TrimKeepsCore(w, c, TryRecv(w, c, g).w.chans[c], 0, k);
    }
  }

  lemma CloseRecvCore(w: World, c: nat)
    requires Core(w) && c < |w.chans| && w.chans[c].recvs != []
    ensures Core(CompleteRecv(SetChan(w, c, w.chans[c].(recvs := w.chans[c].recvs[1..])), w.chans[c].recvs[0], ZERO, false))
  {
    var ch := w.chans[c];
    var x := ch.recvs[0];
    var w1 := SetChan(w, c, ch.(recvs := ch.recvs[1..]));
    if Cancelled(w.sels, x.tk) {
      assert Trimmed(ch.recvs, ch.recvs[1..], 1, w.sels) && Trimmed(ch.sends, ch.sends, 0, w.sels);
      TrimKeepsCore(w, c, w1.chans[c], 1, 0);
    } else {
      assert RecvsOk(w, c, ch.recvs) && x in ch.recvs;
      WakeKeepsCore(w, CompleteRecv(w1, x, ZERO, false), c, x,
                    [Write(if x.tk.OfSelect? then x.tk.idx else 0, ZERO, false)], 0);
    }
  }

  lemma CloseSendCore(w: World, c: nat)
    requires Core(w) && c < |w.chans| && w.chans[c].sends != []
    ensures Core(CloseSend(w, c))
  {
    var ch := w.chans[c];
    var x := ch.sends[0];
    if Cancelled(w.sels, x.tk) {
      assert Trimmed(ch.sends, ch.sends[1..], 1, w.sels) && Trimmed(ch.recvs, ch.recvs, 0, w.sels);
      TrimKeepsCore(w, c, CloseSend(w, c).chans[c], 0, 1);
    } else {
      WakeKeepsCore(w, CloseSend(w, c), c, x, [], 0);
    }
  }

  lemma {:induction false} TryCasesCore(w: World, g: Gid, cases: seq<Case>, i: nat)
    requires Core(w) && CasesOk(w, cases) && i <= |cases|
    ensures !TryCases(w, g, cases, i).Aborted? ==> Core(TryCases(w, g, cases, i).w)
    decreases |cases| - i
  {
    if i < |cases| {
      match cases[i]
      case DefaultCase => TryCasesCore(w, g, cases, i + 1);
      case RecvCase(c) => TryRecvCaseCore(w, g, cases, i, c);
      case SendCase(c, v) => TrySendCaseCore(w, g, cases, i, c, v);
    }
  }

  lemma {:induction false} TryRecvCaseCore(w: World, g: Gid, cases: seq<Case>, i: nat, c: nat)
    requires Core(w) && CasesOk(w, cases) && i < |cases| && cases[i] == RecvCase(c)
    ensures !TryCases(w, g, cases, i).Aborted? ==> Core(TryCases(w, g, cases, i).w)
    decreases |cases| - i, 0
  {
    TryRecvCore(w, c, g);
    var r := TryRecv(w, c, g);
    if r.Empty? { TryCasesCore(r.w, g, cases, i + 1); }
  }

  lemma {:induction false} TrySendCaseCore(w: World, g: Gid, cases: seq<Case>, i: nat, c: nat, v: Value)
    requires Core(w) && CasesOk(w, cases) && i < |cases| && cases[i] == SendCase(c, v)
    ensures !TryCases(w, g, cases, i).Aborted? ==> Core(TryCases(w, g, cases, i).w)
    decreases |cases| - i, 0
  {
    var r := TrySend(w, c, g, v);
    if !r.Failed? { TrySendCore(w, c, g, v); }
    if r.Blocked? { TryCasesCore(r.w, g, cases, i + 1); }
  }

  lemma SetLastIsLocal(w: World, w': World, g: Gid, out: Outcome)
    requires w' == SetLast(w, g, out)
    ensures SameTables(w, w') && w'.chans == w.chans && w'.sels == w.sels
    ensures w'.ready == w.ready && w'.parked == w.parked
  {
  }

  lemma SetLastCore(w: World, w': World, g: Gid, out: Outcome)
    requires Core(w) && w' == SetLast(w, g, out)
    ensures Core(w')
  {
    SetLastIsLocal(w, w', g, out);
    CoreSame(w, w');
  }

  // ---- Suspending -----------------------------------------------------------------

  lemma TopOnce(stack: seq<Frame>, g: Gid)
    requires stack != [] && stack[|stack|-1].g == g && StackAll(stack)[g] <= 1
    ensures StackAll(stack)[g] == 1
    ensures forall i :: 0 <= i < |stack| - 1 ==> stack[i].g != g
  {
    var n := |stack| - 1;
    forall i | 0 <= i < n ensures stack[i].g != g {
      if stack[i].g == g { StackMember(stack[..n], i); }
    }
  }

  /** The executing goroutine waits for nothing: it is in no queue, it is not
      finished, and it is resumed exactly once. */
  lemma TopIsFree(w: World)
    requires Goroutines(w) && Counts(w) && w.stack != []
    ensures Top(w).g < |w.gs| && w.gs[Top(w).g].at == Running && !w.gs[Top(w).g].done
    ensures Top(w).g !in PlainAll(w.chans)
    ensures forall i :: 0 <= i < |w.stack| - 1 ==> w.stack[i].g != Top(w).g
  {
    assert FrameOk(w, |w.stack| - 1);
    OneSource(w, Top(w).g);
    TopOnce(w.stack, Top(w).g);
  }

  /** The running goroutine leaves the stack and is noted as suspended at `at`. */
  ghost predicate Left(w: World, w': World, at: Await) {
    && w.stack != []
    && w'.chans == w.chans && w'.calls == w.calls && w'.ready == w.ready
    && w'.stack == w.stack[..|w.stack|-1]
    && w'.gs == SetAt(w, Top(w).g, at).gs
  }

  /** What TopIsFree says about the goroutine g that is leaving. */
  ghost predicate Free(w: World, g: Gid) {
    && w.stack != [] && g == Top(w).g && g < |w.gs| && w.gs[g].at == Running && !w.gs[g].done
    && g !in PlainAll(w.chans)
    && forall i :: 0 <= i < |w.stack| - 1 ==> w.stack[i].g != g
  }

  lemma LeaveKeepsFrames(w: World, w': World, at: Await, g: Gid)
    requires Goroutines(w) && Free(w, g) && Left(w, w', at) && w'.sels == w.sels && !at.AtSelect?
    ensures Goroutines(w')
  {
    forall h | 0 <= h < |w'.gs| ensures GoroutineOk(w', h) { assert GoroutineOk(w, h); }
    forall id | 0 <= id < |w'.calls| ensures CallOk(w', id) { assert CallOk(w, id); }
    forall i | 0 <= i < |w'.stack| ensures FrameOk(w', i) { assert FrameOk(w, i); }
  }

  /** What leaving takes away: one source, the top of the stack. */
  lemma LeaveCounts(w: World, w': World, at: Await)
    requires Left(w, w', at) && Top(w).g < |w.gs|
    ensures StackAll(w.stack) == StackAll(w'.stack) + multiset{Top(w).g}
    ensures Unfinished(w'.gs) == Unfinished(w.gs)
  {
  }

  /** Sources only move from one table to another. */
  lemma SourcesEqual(w: World, w': World, x: multiset<Gid>)
    requires StackAll(w.stack) == StackAll(w'.stack) + x
    requires multiset(w'.ready) + PlainAll(w'.chans) + LiveAll(w'.sels) + PendingAll(w'.calls)
          == multiset(w.ready) + PlainAll(w.chans) + LiveAll(w.sels) + PendingAll(w.calls) + x
    ensures Sources(w') == Sources(w)
  {
    forall g ensures Sources(w')[g] == Sources(w)[g] {
      assert (multiset(w'.ready) + PlainAll(w'.chans) + LiveAll(w'.sels) + PendingAll(w'.calls))[g]
          == (multiset(w.ready) + PlainAll(w.chans) + LiveAll(w.sels) + PendingAll(w.calls) + x)[g];
    }
  }

  // ---- Parking a plain waiter ---------------------------------------------------

  /** Goroutine g, no longer on the stack, joins channel c's receive queue (as case
      tk of a select, or plainly). */
  lemma AddRecvKeepsRefs(w: World, c: nat, x: Waiter)
    requires Refs(w) && c < |w.chans| && WaiterOk(x, RecvCase(c), AtRecv(c), w) && x.v == ZERO
    ensures Refs(SetChan(w, c, AddRecv(w.chans[c], x)))
  {
    var w' := SetChan(w, c, AddRecv(w.chans[c], x));
    forall d | 0 <= d < |w'.chans| ensures RecvsOk(w', d, w'.chans[d].recvs) && SendsOk(w', d, w'.chans[d].sends) {
      assert RecvsOk(w, d, w.chans[d].recvs) && SendsOk(w, d, w.chans[d].sends);
    }
  }

  lemma AddSendKeepsRefs(w: World, c: nat, x: Waiter)
    requires Refs(w) && c < |w.chans| && WaiterOk(x, SendCase(c, x.v), AtSend(c), w)
    requires x.tk.OfSelect? ==> forall y :: y in w.chans[c].sends ==> y.tk != x.tk
    ensures Refs(SetChan(w, c, AddSend(w.chans[c], x)))
  {
    var w' := SetChan(w, c, AddSend(w.chans[c], x));
    forall d | 0 <= d < |w'.chans| ensures RecvsOk(w', d, w'.chans[d].recvs) && SendsOk(w', d, w'.chans[d].sends) {
      assert RecvsOk(w, d, w.chans[d].recvs) && SendsOk(w, d, w.chans[d].sends);
    }
  }

  lemma GrowKeepsSelects(w: World, w': World)
    requires Selects(w) && SameTables(w, w') && w'.sels == w.sels && Extends(w, w')
    ensures Selects(w')
  {
    forall t | 0 <= t < |w'.sels| ensures SelOk(w', t) {
      assert SelOk(w, t);
      SelKeeps(w, w', t);
    }
  }

  lemma ParkedCounts(w: World, w': World, c: nat, g: Gid)
    requires Counts(w) && c < |w.chans| == |w'.chans| && w'.chans == w.chans[c := w'.chans[c]]
    requires PlainIn(w'.chans[c]) == PlainIn(w.chans[c]) + multiset{g}
    requires StackAll(w.stack) == StackAll(w'.stack) + multiset{g}
    requires w'.ready == w.ready && w'.sels == w.sels && w'.calls == w.calls && w'.parked == w.parked + 1
    requires Unfinished(w'.gs) == Unfinished(w.gs)
    ensures Counts(w')
  {
    PlainUpdate(w.chans, c, w'.chans[c]);
    Unexchange(PlainAll(w'.chans), PlainAll(w.chans), PlainIn(w'.chans[c]), PlainIn(w.chans[c]), multiset{g});
    SourcesEqual(w, w', multiset{g});
  }

  /** The running goroutine has suspended; what it waits for is not yet recorded. */
  lemma ParkTables(w: World, at: Await)
    requires Core(w) && w.stack != [] && !at.AtSelect?
    ensures var w1 := Suspend(w, at);
      && Refs(w1) && Selects(w1) && Goroutines(w1)
      && StackAll(w.stack) == StackAll(w1.stack) + multiset{Top(w).g}
      && Unfinished(w1.gs) == Unfinished(w.gs) && Top(w).g < |w.gs|
  {
    TopIsFree(w);
    var w1 := Suspend(w, at);
    RefsKept(w, w1, Top(w).g);
    SelectsKept(w, w1, Top(w).g);
    LeaveKeepsFrames(w, w1, at, Top(w).g);
    LeaveCounts(w, w1, at);
  }

  /** The tables' facts survive one more entry in channel c's queues. */
  lemma GrowKeepsTables(w: World, w': World, ch: Chan, c: nat, parked: int)
    requires c < |w.chans| && Refs(SetChan(w, c, ch)) && Selects(w) && Goroutines(w)
    requires w.chans[c].recvs <= ch.recvs && w.chans[c].sends <= ch.sends
    requires w' == SetChan(w, c, ch).(parked := parked)
    ensures Refs(w') && Selects(w') && Goroutines(w')
  {
    RefsSame(SetChan(w, c, ch), w');
    GrowKeepsSelects(w, w');
    SameTablesKeep(w, w');
  }

  /** Goroutine g parks plainly on channel c. */
  function ParkedRecv(w: World, c: nat): World
    requires w.stack != [] && c < |w.chans|
  {
    SetChan(Suspend(w, AtRecv(c)), c, AddRecv(w.chans[c], Waiter(Top(w).g, ZERO, Plain))).(parked := w.parked + 1)
  }

  function ParkedSend(w: World, c: nat, v: Value): World
    requires w.stack != [] && c < |w.chans|
  {
    SetChan(Suspend(w, AtSend(c)), c, AddSend(w.chans[c], Waiter(Top(w).g, v, Plain))).(parked := w.parked + 1)
  }

  lemma ParkRecvTables(w: World, c: nat)
    requires Core(w) && w.stack != [] && c < |w.chans|
    ensures Refs(ParkedRecv(w, c)) && Selects(ParkedRecv(w, c)) && Goroutines(ParkedRecv(w, c))
  {
    var x := Waiter(Top(w).g, ZERO, Plain);
    ParkTables(w, AtRecv(c));
    AddRecvKeepsRefs(Suspend(w, AtRecv(c)), c, x);
    GrowKeepsTables(Suspend(w, AtRecv(c)), ParkedRecv(w, c), AddRecv(w.chans[c], x), c, w.parked + 1);
  }

  lemma ParkSendTables(w: World, c: nat, v: Value)
    requires Core(w) && w.stack != [] && c < |w.chans|
    ensures Refs(ParkedSend(w, c, v)) && Selects(ParkedSend(w, c, v)) && Goroutines(ParkedSend(w, c, v))
  {
    var x := Waiter(Top(w).g, v, Plain);
    ParkTables(w, AtSend(c));
    AddSendKeepsRefs(Suspend(w, AtSend(c)), c, x);
    GrowKeepsTables(Suspend(w, AtSend(c)), ParkedSend(w, c, v), AddSend(w.chans[c], x), c, w.parked + 1);
  }

  lemma ParkRecvCounts(w: World, c: nat)
    requires Counts(w) && w.stack != [] && c < |w.chans| && Top(w).g < |w.gs|
    ensures Counts(ParkedRecv(w, c))
  {
    var x := Waiter(Top(w).g, ZERO, Plain);
    LeaveCounts(w, Suspend(w, AtRecv(c)), AtRecv(c));
    PlainAppend(w.chans[c].recvs, [x]);
    PlainOne(x);
    assert PlainIn(AddRecv(w.chans[c], x)) == PlainIn(w.chans[c]) + multiset{x.g};
    ParkedCounts(w, ParkedRecv(w, c), c, x.g);
  }

  lemma ParkSendCounts(w: World, c: nat, v: Value)
    requires Counts(w) && w.stack != [] && c < |w.chans| && Top(w).g < |w.gs|
    ensures Counts(ParkedSend(w, c, v))
  {
    var x := Waiter(Top(w).g, v, Plain);
    LeaveCounts(w, Suspend(w, AtSend(c)), AtSend(c));
    PlainAppend(w.chans[c].sends, [x]);
    PlainOne(x);
    assert PlainIn(AddSend(w.chans[c], x)) == PlainIn(w.chans[c]) + multiset{x.g};
    ParkedCounts(w, ParkedSend(w, c, v), c, x.g);
  }
}
