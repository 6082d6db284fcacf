/** Goroutines and channels from beginning to end: who starts gets a turn, who finishes is
    gone, a channel keeps its capacity, a close frees everybody. */
module SchedLife {
  import opened Wrappers
  import opened SchedModel
  import opened SchedInvariant
  import opened SchedCounting
  import opened SchedInv
  import opened SchedHistory
  import opened SchedTheorems
  import opened SchedChoice
  import A = SchedAnomalies
  import C = SchedClose
  import SchedSteps

  // ---- Goroutines -----------------------------------------------------------------------

  /** The action makes x ready: as a new goroutine, as the callee of the running one, or
      because the host call it waits for has completed. */
  ghost predicate Joins(w: World, a: Action, x: Gid) {
    match a
    case ASpawn => x == |w.gs|
    case APumpStart => x == |w.gs|
    case ACall => w.stack != [] && x == Top(w).g
    case AHostDone(id) => Asleep(w, x) && w.gs[x].at == AtHost(id)
    case _ => false
  }

  lemma JoinersAreLast(w: World, a: Action, x: Gid, w1: World)
    requires Reachable(w) && Enabled(w, a) && Step(w, a) == Next(w1) && Joins(w, a, x)
    ensures w1.ready == w.ready + [x]
  {
    if a.AHostDone? { NoLostWakeup(w, x); }
  }

  lemma ReadyIsAlive(w: World)
    requires Reachable(w) && w.ready != []
    ensures w.ready[0] < |w.gs| && !w.gs[w.ready[0]].done
  {
    NeverResumedTwice(w, 0, 0);
  }

  /** It is resumed after exactly those that were ready before it, whatever else happens. */
  lemma JoinersGetATurn(w: World, a: Action, x: Gid, w1: World, run: seq<Action>, w': World)
    requires Reachable(w) && Enabled(w, a) && Step(w, a) == Next(w1) && Joins(w, a, x)
    requires Reaches(w1, run, w') && Turns(run) == |w.ready|
    ensures w'.ready != [] && w'.ready[0] == x < |w'.gs| && !w'.gs[x].done
  {
    JoinersAreLast(w, a, x, w1);
    EverybodyGetsATurn(w1, |w.ready|, run, w');
    A.ReachOn(w, a, w1);
    ReachesFrom(w1, run, w');
    ReadyIsAlive(w');
  }

  lemma {:induction false} ReachesFrom(w: World, run: seq<Action>, w': World)
    requires Reachable(w) && Reaches(w, run, w')
    ensures Reachable(w')
    decreases |run|
  {
    if run != [] {
      A.ReachOn(w, run[0], Step(w, run[0]).w);
      ReachesFrom(Step(w, run[0]).w, run[1..], w');
    }
  }

  /** A host call that completes again, or was never made, changes nothing. */
  lemma CompletesOnce(w: World, id: nat)
    ensures HostDone(HostDone(w, id), id) == HostDone(w, id)
    ensures (id < |w.calls| ==> w.calls[id].done) ==> HostDone(w, id) == w
  {
  }

  lemma FinishMarks(w: World, w1: World)
    requires Active(w) && Top(w).g < |w.gs| && w1 == DoFinish(w)
    ensures Top(w).g < |w1.gs| && w1.gs[Top(w).g].done
  {
  }

  lemma FinishEnds(w: World, w1: World)
    requires Reachable(w) && Active(w) && w1 == DoFinish(w)
    ensures Reachable(w1) && Top(w).g < |w1.gs| && w1.gs[Top(w).g].done
  {
    A.ReachOn(w, AFinish, w1);
    TopExists(w);
    FinishMarks(w, w1);
  }

  lemma TopExists(w: World)
    requires Reachable(w) && w.stack != []
    ensures Top(w).g < |w.gs|
  {
    ReachableInv(w);
    SchedSteps.TopIsFree(w);
  }

  lemma DoneIsNowhere(w: World, g: Gid, i: nat)
    requires Reachable(w) && g < |w.gs| && w.gs[g].done
    ensures g !in w.ready && (i < |w.stack| ==> w.stack[i].g != g)
  {
    OneWakeSource(w, g);
    assert g !in multiset(w.ready);
    if i < |w.stack| { StackMember(w.stack, i); }
  }

  /** A goroutine that has finished stays so and never runs again. */
  lemma FinishedForGood(w: World, run: seq<Action>, w': World, i: nat)
    requires Reachable(w) && Active(w) && Reaches(DoFinish(w), run, w')
    ensures var g := Top(w).g; g < |w'.gs| && w'.gs[g].done && g !in w'.ready && (i < |w'.stack| ==> w'.stack[i].g != g)
  {
    FinishEnds(w, DoFinish(w));
    ReachesFrom(DoFinish(w), run, w');
    RunAfter(DoFinish(w), run, w');
    DoneIsNowhere(w', Top(w).g, i);
  }

  // ---- Channels ----------------------------------------------------------------------------

  /** make faults for a negative capacity only. The new channel is open, has nothing in it
      and nobody at it; it holds up to the capacity asked for, always. */
  lemma MadeChannel(w: World, cap: int, run: seq<Action>, w': World)
    ensures DoMakeChan(w, cap).Crash? <==> cap < 0
    ensures cap >= 0 ==> var w1, c := DoMakeChan(w, cap).w, |w.chans|;
      && |w1.chans| == c + 1 && w1.chans[..c] == w.chans && !w1.chans[c].closed
      && w1.chans[c].buf == [] && w1.chans[c].recvs == [] && w1.chans[c].sends == []
      && (Reaches(w1, run, w') ==> c < |w'.chans| && w'.chans[c].cap == cap)
      && (Reachable(w) && Executing(w) && Reaches(w1, run, w') ==> |w'.chans[c].buf| <= cap)
  {
    if cap >= 0 {
      var w1, c := DoMakeChan(w, cap).w, |w.chans|;
      if Reaches(w1, run, w') {
        RunAfter(w1, run, w');
        assert ChanAfter(w1.chans[c], w'.chans[c]);
        if Reachable(w) && Executing(w) {
          assert A.Leads(w, AMakeChan(cap), w1);
          A.ReachOn(w, AMakeChan(cap), w1);
          ReachesFrom(w1, run, w');
          ReachableInv(w');
          assert QueueOk(w'.chans[c], w'.sels);
        }
      }
    }
  }

  /** g waits at channel c: in a send, in a receive, or in a select with a case there. */
  ghost predicate WaitsAt(w: World, g: Gid, c: nat) {
    && g < |w.gs| && !w.gs[g].done
    && match w.gs[g].at
       case AtSend(d) => d == c
       case AtRecv(d) => d == c
       case AtSelect(t) => t < |w.sels| && exists i :: 0 <= i < |w.sels[t].cases| && !w.sels[t].cases[i].DefaultCase? && w.sels[t].cases[i].c == c
       case _ => false
  }

  lemma {:induction false} CloseRecvsKeeps(w: World, c: nat)
    requires c < |w.chans|
    ensures CloseRecvs(w, c).chans[c].buf == w.chans[c].buf
    decreases |w.chans[c].recvs|
  {
    if w.chans[c].recvs != [] { CloseRecvsKeeps(CloseRecv(w, c), c); }
  }

  lemma {:induction false} CloseSendsKeeps(w: World, c: nat)
    requires c < |w.chans|
    ensures CloseSends(w, c).chans[c].buf == w.chans[c].buf
    decreases |w.chans[c].sends|
  {
    if w.chans[c].sends != [] { CloseSendsKeeps(CloseSend(w, c), c); }
  }

  lemma OnStackRuns(w: World, g: Gid)
    requires Goroutines(w) && g in StackAll(w.stack)
    ensures g < |w.gs| && w.gs[g].at == Running
  {
    var i := StackWitness(w.stack, g);
    assert FrameOk(w, i);
  }

  lemma SleepersWaitAtOpen(w: World, c: nat, g: Gid)
    requires Reachable(w) && c < |w.chans| && Asleep(w, g) && WaitsAt(w, g, c)
    ensures !w.chans[c].closed
  {
    ReachableInv(w);
    NoLostWakeup(w, g);
    if w.gs[g].at.AtSelect? {
      var t := w.gs[g].at.t;
      var i: nat :| i < |w.sels[t].cases| && !w.sels[t].cases[i].DefaultCase? && w.sels[t].cases[i].c == c;
      assert StuckBut(w, t, w.sels[t].cases[i]);
    }
  }

  /** Nobody who waits at a closed channel is asleep. */
  lemma NobodySleepsAtClosed(w: World, c: nat, g: Gid)
    requires Reachable(w) && c < |w.chans| && w.chans[c].closed && WaitsAt(w, g, c)
    ensures g in w.ready
  {
    ReachableInv(w);
    if g in StackAll(w.stack) { OnStackRuns(w, g); } else if g !in w.ready { SleepersWaitAtOpen(w, c, g); }
  }

  /** close faults if and only if the channel is closed already. Otherwise the channel is
      closed for good with its buffer as it was, and everybody who waits at it can run, then
      and at any time later. */
  lemma CloseFreesEverybody(w: World, c: nat, run: seq<Action>, w': World)
    requires Reachable(w) && Executing(w) && c < |w.chans|
    ensures DoClose(w, c) == Crash(CloseOfClosed) <==> w.chans[c].closed
    ensures !w.chans[c].closed ==> DoClose(w, c).Next? && var w1 := DoClose(w, c).w;
      && c < |w1.chans| && w1.chans[c].closed && w1.chans[c].buf == w.chans[c].buf
      && (Reaches(w1, run, w') ==> c < |w'.chans| && w'.chans[c].closed && forall g :: WaitsAt(w', g, c) ==> g in w'.ready)
  {
    if !w.chans[c].closed {
      var w1 := CloseChan(w, c);
      C.CloseCloses(w, c);
      ClosedBuffer(w, c);
      A.ReachOn(w, AClose(c), w1);
      if Reaches(w1, run, w') {
        RunAfter(w1, run, w');
        assert ChanAfter(w1.chans[c], w'.chans[c]);
        ReachesFrom(w1, run, w');
        forall g | WaitsAt(w', g, c) ensures g in w'.ready { NobodySleepsAtClosed(w', c, g); }
      }
    }
  }

  lemma ClosedBuffer(w: World, c: nat)
    requires c < |w.chans| && !w.chans[c].closed
    ensures CloseChan(w, c).chans[c].buf == w.chans[c].buf
  {
    var w1 := SetChan(w, c, w.chans[c].(closed := true));
    CloseRecvsKeeps(w1, c);
    CloseSendsKeeps(CloseRecvs(w1, c), c);
  }

  // ---- The nested pump -------------------------------------------------------------------------

  /** The n-th resume on the stack is inside RunUntil, waiting for h. */
  ghost predicate Pumps(w: World, n: nat, g: Gid, h: Gid) { n < |w.stack| && w.stack[n] == Frame(g, Some(h)) }

  lemma OnlyTheTopMoves(w: World, w': World, a: Action, n: nat)
    requires Enabled(w, a) && Step(w, a) == Next(w') && n < |w.stack|
    requires n == |w.stack| - 1 ==> a.AResume? || a.AHostDone?
    ensures n < |w'.stack| && w'.stack[n] == w.stack[n]
  {
    match a
    case ASend(c, v) => SendShape(w, w', TrySend(w, c, Top(w).g, v).w, c, v);
    case ARecv(c) => RecvShape(w, w', TryRecv(w, c, Top(w).g), c);
    case ASelect(cases) => SelectShape(w, w', TryCases(w, Top(w).g, cases, 0), cases);
    case AClose(c) => assert SameShape(w, w');
    case _ =>
  }

  lemma {:induction false} StillPumps(w: World, run: seq<Action>, w': World, n: nat, g: Gid, h: Gid)
    requires Reaches(w, run, w') && Pumps(w, n, g, h) && h < |w.gs| && h < |w'.gs| && !w'.gs[h].done
    ensures Pumps(w', n, g, h)
    decreases |run|
  {
    if run != [] {
      var w1 := Step(w, run[0]).w;
      RunAfter(w, run, w');
      StepAfter(w, w1, run[0]);
      OnlyTheTopMoves(w, w1, run[0], n);
      StillPumps(w1, run[1..], w', n, g, h);
    }
  }

  /** A function that runs a waiting deferred call does not go on before its helper, a new
      goroutine, has finished, whatever else runs meanwhile. */
  lemma PumpWaitsForItsHelper(w: World, run: seq<Action>, w': World)
    requires Active(w) && Reaches(PumpStart(w), run, w')
    ensures var h := |w.gs|; h < |w'.gs| && (!w'.gs[h].done ==> Pumps(w', |w.stack| - 1, Top(w).g, h))
    ensures |w'.stack| == |w.stack| && !w'.gs[|w.gs|].done ==> !Executing(w')
  {
    RunAfter(PumpStart(w), run, w');
    if !w'.gs[|w.gs|].done { StillPumps(PumpStart(w), run, w', |w.stack| - 1, Top(w).g, |w.gs|); }
  }

  /** RunUntil goes on exactly if somebody can be resumed, waits exactly if otherwise a host
      call's completion would change something, and panics exactly if nothing that can
      happen would. */
  lemma PumpVerdictIsExact(w: World)
    requires Reachable(w) && w.stack != [] && Scheduling(w)
    ensures PumpVerdict(w) == GoOn <==> Enabled(w, AResume)
    ensures PumpVerdict(w) == AwaitHost <==> !Enabled(w, AResume) && exists id :: HostDone(w, id) != w
    ensures PumpVerdict(w) == PanicDeadlock <==> forall a :: Enabled(w, a) ==> Step(w, a) == Next(w)
  {
    if w.ready != [] {
      ReadyIsAlive(w);
      assert Enabled(w, AResume);
      StepQueuesOnResume(w);
    } else if PendingHost(w) {
      var id: nat :| id < |w.calls| && !w.calls[id].done;
      assert HostDone(w, id).ready != w.ready;
      assert Enabled(w, AHostDone(id)) && Step(w, AHostDone(id)) != Next(w);
    } else {
      forall a | Enabled(w, a) ensures Step(w, a) == Next(w) {
        if a.AHostDone? { CompletesOnce(w, a.id); }
      }
    }
  }

  lemma StepQueuesOnResume(w: World)
    requires Enabled(w, AResume)
    ensures Step(w, AResume) != Next(w)
  {
    if Step(w, AResume).Next? { StepQueues(w, Step(w, AResume).w, AResume); }
  }
}
