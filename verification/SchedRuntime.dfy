/** The runtime as it runs: one object whose tables the operations update in place,
    with the loops of the channel code. Every operation is shown to have exactly the
    effect of the corresponding function of SchedModel, so what SchedTheorems proves
    of runs holds of it. */
module SchedRuntime {
  import opened Wrappers
  import opened SchedModel
  import opened SchedInv

  // ---- Trying twice ------------------------------------------------------------------

  /** A blocked send is blocked again, and changes nothing the second time. */
  lemma SendBlockedAgain(w: World, c: nat, g: Gid, v: Value, w': World)
    requires c < |w.chans| && TrySend(w, c, g, v) == Blocked(w')
    ensures TrySend(w', c, g, v) == Blocked(w')
  {
    assert w'.chans[c := w'.chans[c]] == w'.chans;
  }

  lemma RecvEmptyAgain(w: World, c: nat, g: Gid, w': World)
    requires c < |w.chans| && TryRecv(w, c, g) == Empty(w')
    ensures TryRecv(w', c, g) == Empty(w')
  {
    assert w'.chans[c := w'.chans[c]] == w'.chans;
  }

  lemma {:induction false} StuckTriesFail(w: World, g: Gid, cases: seq<Case>, i: nat)
    requires CasesOk(w, cases) && i <= |cases| && forall j :: i <= j < |cases| ==> Stuck(w, cases[j])
    ensures TryCases(w, g, cases, i) == NoneReady(w)
    decreases |cases| - i
  {
    if i < |cases| {
      assert Stuck(w, cases[i]);
      if !cases[i].DefaultCase? { assert SetChan(w, cases[i].c, w.chans[cases[i].c]) == w; }
      StuckTriesFail(w, g, cases, i + 1);
    }
  }

  /** The second look a select takes before parking finds nothing and changes nothing. */
  lemma SelectBlockedAgain(w: World, g: Gid, cases: seq<Case>, w': World)
    requires CasesOk(w, cases) && TryCases(w, g, cases, 0) == NoneReady(w')
    ensures TryCases(w', g, cases, 0) == NoneReady(w')
  {
    NoneReadyMeansStuck(w, w', g, cases, 0);
    StuckTriesFail(w', g, cases, 0);
  }

  class Runtime {
    var chans: seq<Chan>
    var sels: seq<Sel>
    var gs: seq<Goroutine>
    var ready: seq<Gid>
    var parked: int
    var calls: seq<Call>
    var stack: seq<Frame>

    ghost function View(): World
      reads this
    {
      World(chans, sels, gs, ready, parked, calls, stack)
    }

    constructor ()
      ensures View() == EMPTY_WORLD
    {
      chans, sels, gs, ready, parked, calls, stack := [], [], [], [], 0, [], [];
    }

    // ---- Completing a waiter ----------------------------------------------------------

    method SetOutcome(g: Gid, out: Outcome)
      modifies this
      ensures View() == SetLast(old(View()), g, out)
    {
      if g < |gs| { gs := gs[g := gs[g].(last := out)]; }
    }

    /** Hands a value to a parked receiver, unless its select was decided elsewhere. */
    method CompleteReceiver(r: Waiter, v: Value, ok: bool)
      modifies this
      ensures View() == CompleteRecv(old(View()), r, v, ok)
    {
      if Cancelled(sels, r.tk) { return; }
      match r.tk {
        case Plain =>
          SetOutcome(r.g, Received(v, ok));
          parked := parked - 1;
        case OfSelect(t, idx) =>
          if t < |sels| {
            sels := sels[t := sels[t].(cancelled := true, winner := idx, writes := sels[t].writes + [Write(idx, v, ok)])];
          }
      }
      ready := ready + [r.g];
    }

    /** Lets a parked sender go, unless its select was decided elsewhere. */
    method CompleteSender(s: Waiter)
      modifies this
      ensures View() == CompleteSend(old(View()), s)
    {
      if Cancelled(sels, s.tk) { return; }
      match s.tk {
        case Plain => parked := parked - 1;
        case OfSelect(t, idx) =>
          if t < |sels| {
            sels := sels[t := sels[t].(cancelled := true, winner := idx, writes := sels[t].writes + [])];
          }
      }
      ready := ready + [s.g];
    }

    // ---- Channel operations -------------------------------------------------------------

    /** Sends without blocking if that is possible. */
    method TrySendLocked(c: nat, g: Gid, v: Value) returns (ok: bool, fault: Option<Fault>)
      requires c < |chans|
      modifies this
      ensures match TrySend(old(View()), c, g, v)
              case Done(w) => ok && fault == None && View() == w
              case Blocked(w) => !ok && fault == None && View() == w
              case Failed => !ok && fault == Some(SendOnClosed) && View() == old(View())
    {
      ok, fault := false, None;
      if chans[c].closed { return false, Some(SendOnClosed); }
      ghost var q := chans[c].recvs;
      while chans[c].recvs != []
        invariant c < |chans| == |old(chans)| && !chans[c].closed
        invariant DropStale(chans[c].recvs, sels) == DropStale(q, sels)
        invariant View() == SetChan(old(View()), c, old(chans)[c].(recvs := chans[c].recvs))
        decreases |chans[c].recvs|
      {
        var r := chans[c].recvs[0];
        chans := chans[c := chans[c].(recvs := chans[c].recvs[1..])];
        if Cancelled(sels, r.tk) { continue; }
        var h, offer := chans[c].hist, Waiter(g, v, Plain);
        h := h.(offers := h.offers + [offer], settled := h.settled + [offer], delivered := h.delivered + [Delivery(r.g, v)]);
        chans := chans[c := chans[c].(hist := h)];
        CompleteReceiver(r, v, true);
        return true, None;
      }
      if |chans[c].buf| < chans[c].cap {
        var h, offer := chans[c].hist, Waiter(g, v, Plain);
        h := h.(offers := h.offers + [offer], settled := h.settled + [offer]);
        chans := chans[c := chans[c].(buf := chans[c].buf + [v], hist := h)];
        return true, None;
      }
    }

    /** Receives without blocking if that is possible. */
    method TryRecvLocked(c: nat, g: Gid) returns (done: bool, v: Value, ok: bool)
      requires c < |chans|
      modifies this
      ensures match TryRecv(old(View()), c, g)
              case Got(w, x, k) => done && v == x && ok == k && View() == w
              case Empty(w) => !done && View() == w
    {
      done, v, ok := false, ZERO, false;
      ghost var q := chans[c].sends;
      if chans[c].buf != [] {
        v, ok, done := chans[c].buf[0], true, true;
        var h := chans[c].hist;
        chans := chans[c := chans[c].(buf := chans[c].buf[1..], hist := h.(delivered := h.delivered + [Delivery(g, v)]))];
        ghost var taken := chans[c];
        while chans[c].sends != []
          invariant c < |chans| == |old(chans)| && done && ok && v == old(chans)[c].buf[0]
          invariant DropStale(chans[c].sends, sels) == DropStale(q, sels)
          invariant View() == SetChan(old(View()), c, taken.(sends := chans[c].sends))
          decreases |chans[c].sends|
        {
          var s := chans[c].sends[0];
          chans := chans[c := chans[c].(sends := chans[c].sends[1..])];
          if Cancelled(sels, s.tk) { continue; }
          var h' := chans[c].hist;
          chans := chans[c := chans[c].(buf := chans[c].buf + [s.v], hist := h'.(settled := h'.settled + [s]))];
          CompleteSender(s);
          return;
        }
        return;
      }
      while chans[c].sends != []
        invariant c < |chans| == |old(chans)| && chans[c].buf == [] && !done && v == ZERO && !ok
        invariant DropStale(chans[c].sends, sels) == DropStale(q, sels)
        invariant View() == SetChan(old(View()), c, old(chans)[c].(sends := chans[c].sends))
        decreases |chans[c].sends|
      {
        var s := chans[c].sends[0];
        chans := chans[c := chans[c].(sends := chans[c].sends[1..])];
        if Cancelled(sels, s.tk) { continue; }
        v, ok, done := s.v, true, true;
        var h := chans[c].hist;
        h := h.(settled := h.settled + [s], delivered := h.delivered + [Delivery(g, s.v)]);
        chans := chans[c := chans[c].(hist := h)];
        CompleteSender(s);
        return;
      }
      done := chans[c].closed;
    }

    /** Closes a channel and releases everybody parked on it. */
    method Close(c: nat) returns (fault: Option<Fault>)
      requires c < |chans|
      modifies this
      ensures match DoClose(old(View()), c)
              case Next(w) => fault == None && View() == w
              case Crash(f) => fault == Some(f) && View() == old(View())
    {
      if chans[c].closed { return Some(CloseOfClosed); }
      chans := chans[c := chans[c].(closed := true)];
      ghost var w1 := View();
      while chans[c].recvs != []
        invariant c < |chans| == |old(chans)|
        invariant CloseRecvs(View(), c) == CloseRecvs(w1, c)
        decreases |chans[c].recvs|
      {
        var r := chans[c].recvs[0];
        chans := chans[c := chans[c].(recvs := chans[c].recvs[1..])];
        CompleteReceiver(r, ZERO, false);
      }
      ghost var w2 := View();
      while chans[c].sends != []
        invariant c < |chans| == |old(chans)|
        invariant CloseSends(View(), c) == CloseSends(w2, c)
        decreases |chans[c].sends|
      {
        var s := chans[c].sends[0];
        chans := chans[c := chans[c].(sends := chans[c].sends[1..], hist := Drop(chans[c].hist, s, sels))];
        CompleteSender(s);
      }
      fault := None;
    }

    /** SendAwaiter: await_ready tries once, await_suspend again before parking. */
    method Send(c: nat, v: Value) returns (fault: Option<Fault>)
      requires Active(View()) && c < |chans|
      modifies this
      ensures match DoSend(old(View()), c, v)
              case Next(w) => fault == None && View() == w
              case Crash(f) => fault == Some(f)
    {
      var g := stack[|stack| - 1].g;
      ghost var w0 := View();
      var ok;
      ok, fault := TrySendLocked(c, g, v);
      if fault.Some? { return; }
      if !ok {
        SendBlockedAgain(w0, c, g, v, View());
        ok, fault := TrySendLocked(c, g, v);
        var h := chans[c].hist;
        var s := Waiter(g, v, Plain);
        chans := chans[c := chans[c].(sends := chans[c].sends + [s], hist := h.(offers := h.offers + [s]))];
        parked := parked + 1;
        Leave(AtSend(c));
      } else {
        SetOutcome(g, Sent);
      }
    }

    /** Receives, or parks the running goroutine. */
    method Recv(c: nat)
      requires Active(View()) && c < |chans|
      modifies this
      ensures DoRecv(old(View()), c) == Next(View())
    {
      var g := stack[|stack| - 1].g;
      ghost var w0 := View();
      var done, v, ok := TryRecvLocked(c, g);
      if !done {
        RecvEmptyAgain(w0, c, g, View());
        done, v, ok := TryRecvLocked(c, g);
        chans := chans[c := chans[c].(recvs := chans[c].recvs + [Waiter(g, ZERO, Plain)])];
        parked := parked + 1;
        Leave(AtRecv(c));
      } else {
        SetOutcome(g, Received(v, ok));
      }
    }

    // ---- Select ---------------------------------------------------------------------------

    /** try_ready_locked: the first case that can proceed, else the first default. */
    method TryReady(g: Gid, cases: seq<Case>) returns (result: int, writes: seq<Write>, fault: Option<Fault>)
      requires CasesOk(View(), cases)
      modifies this
      ensures match TryCases(old(View()), g, cases, 0)
              case Aborted => fault == Some(SendOnClosed)
              case Chosen(w, i, ws) => fault == None && result == i && writes == ws && View() == w
              case NoneReady(w) => fault == None && result == DefaultFrom(cases, 0) && writes == [] && View() == w
    {
      result, writes, fault := -1, [], None;
      var i: nat := 0;
      while i < |cases|
        invariant i <= |cases| && CasesOk(View(), cases) && result == -1 && writes == [] && fault == None
        invariant TryCases(View(), g, cases, i) == TryCases(old(View()), g, cases, 0)
      {
        match cases[i] {
          case DefaultCase =>
          case RecvCase(c) =>
            var done, v, ok := TryRecvLocked(c, g);
            if done { return i, [Write(i, v, ok)], None; }
          case SendCase(c, v) =>
            var ok, f := TrySendLocked(c, g, v);
            if f.Some? { return -1, [], f; }
            if ok { return i, [], None; }
        }
        i := i + 1;
      }
      i := 0;
      while i < |cases|
        invariant i <= |cases| && DefaultFrom(cases, i) == DefaultFrom(cases, 0)
        invariant result == -1 && TryCases(old(View()), g, cases, 0) == NoneReady(View())
      {
        if cases[i].DefaultCase? { return i, [], None; }
        i := i + 1;
      }
    }

    /** One waiter per communication case joins its channel's queue. */
    method ParkAll(g: Gid, t: nat, cases: seq<Case>)
      requires CasesOk(View(), cases)
      modifies this
      ensures View() == ParkCases(old(View()), g, t, cases, 0)
    {
      var i: nat := 0;
      while i < |cases|
        invariant i <= |cases| && CasesOk(View(), cases)
        invariant ParkCases(View(), g, t, cases, i) == ParkCases(old(View()), g, t, cases, 0)
      {
        match cases[i] {
          case DefaultCase =>
          case RecvCase(c) =>
            chans := chans[c := chans[c].(recvs := chans[c].recvs + [Waiter(g, ZERO, OfSelect(t, i))])];
          case SendCase(c, v) =>
            var s, h := Waiter(g, v, OfSelect(t, i)), chans[c].hist;
            chans := chans[c := chans[c].(sends := chans[c].sends + [s], hist := h.(offers := h.offers + [s]))];
        }
        i := i + 1;
      }
    }

    /** GSelect's awaiter: look, look again, then park one entry per case. */
    method Select(cases: seq<Case>) returns (fault: Option<Fault>)
      requires Active(View()) && CasesOk(View(), cases)
      modifies this
      ensures match DoSelect(old(View()), cases)
              case Next(w) => fault == None && View() == w
              case Crash(f) => fault == Some(f)
    {
      var g := stack[|stack| - 1].g;
      ghost var w0 := View();
      var result, writes;
      result, writes, fault := TryReady(g, cases);
      if fault.Some? { return; }
      if result >= 0 {
        SetOutcome(g, Picked(result, writes));
        return;
      }
      ChosenIsReal(w0, g, cases, 0);
      SelectBlockedAgain(w0, g, cases, View());
      result, writes, fault := TryReady(g, cases);
      parked := parked + 1;
      var t := |sels|;
      sels := sels + [Sel(g, cases, false, -1, true, [])];
      ParkAll(g, t, cases);
      Leave(AtSelect(t));
    }

    // ---- The scheduler -----------------------------------------------------------------------

    /** The running goroutine suspends: its resume returns to the scheduler. */
    method Leave(at: Await)
      requires stack != []
      modifies this
      ensures View() == Suspend(old(View()), at)
    {
      var g := stack[|stack| - 1].g;
      if g < |gs| { gs := gs[g := gs[g].(at := at)]; }
      stack := stack[..|stack| - 1];
    }

    /** Starts a goroutine, which runs when its turn comes. */
    method Go()
      modifies this
      ensures View() == Spawn(old(View()))
    {
      ready := ready + [|gs|];
      gs := gs + [Goroutine(AtStart, false, Nothing)];
    }

    /** One turn of run() or RunUntil: dequeue, resume, and the awaiter's await_resume. */
    method Resume() returns (fault: Option<Fault>)
      requires Scheduling(View()) && ready != [] && ready[0] < |gs|
      modifies this
      ensures match DoResume(old(View()))
              case Next(w) => fault == None && View() == w
              case Crash(f) => fault == Some(f)
    {
      var g := ready[0];
      ready := ready[1..];
      match gs[g].at {
        case AtSend(c) =>
          if c < |chans| && chans[c].closed { return Some(SendOnClosed); }
          SetOutcome(g, Sent);
        case AtSelect(t) =>
          if t < |sels| {
            parked := parked - 1;
            SetOutcome(g, Picked(sels[t].winner, sels[t].writes));
            sels := sels[t := sels[t].(counted := false)];
          }
        case _ =>
      }
      gs := gs[g := gs[g].(at := Running)];
      stack := stack + [Frame(g, None)];
      fault := None;
    }

    /** apply_completion. */
    method ApplyCompletion(id: nat)
      modifies this
      ensures View() == HostDone(old(View()), id)
    {
      if id >= |calls| || calls[id].done { return; }
      ready := ready + [calls[id].owner];
      calls := calls[id := calls[id].(done := true)];
    }

    /** What run() decides when its inner loop has drained the ready queue. */
    method Verdict() returns (v: Verdict)
      ensures v == RunVerdict(View())
    {
      if ready != [] { return GoOn; }
      var id := 0;
      while id < |calls|
        invariant 0 <= id <= |calls| && forall k :: 0 <= k < id ==> calls[k].done
      {
        if !calls[id].done { return AwaitHost; }
        id := id + 1;
      }
      v := if parked > 0 then PanicDeadlock else Exit;
    }
  }

  /** Only a default's index can be mistaken for a choice, and it is not negative. */
  lemma {:induction false} ChosenIsReal(w: World, g: Gid, cases: seq<Case>, i: nat)
    requires CasesOk(w, cases) && i <= |cases|
    ensures var r := TryCases(w, g, cases, i); r.Chosen? ==> i <= r.idx < |cases| && !cases[r.idx].DefaultCase?
    decreases |cases| - i
  {
    if i < |cases| {
      match cases[i]
      case DefaultCase => ChosenIsReal(w, g, cases, i + 1);
      case RecvCase(c) =>
        if TryRecv(w, c, g).Empty? { ChosenIsReal(TryRecv(w, c, g).w, g, cases, i + 1); }
      case SendCase(c, v) =>
        if TrySend(w, c, g, v).Blocked? { ChosenIsReal(TrySend(w, c, g, v).w, g, cases, i + 1); }
    }
  }
}
