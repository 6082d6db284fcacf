/** Scheduler turns, spawning, calls, host calls and nested pumping keep the
    wake-source invariant. */
module SchedTurns {
  import opened Wrappers
  import opened SchedModel
  import opened SchedInvariant
  import opened SchedCounting
  import opened SchedCore
  import opened SchedSteps

  // ---- Spawning -----------------------------------------------------------------

  lemma SpawnGoroutines(w: World, w': World)
    requires Goroutines(w) && w' == Spawn(w)
    ensures Goroutines(w')
  {
    forall g | 0 <= g < |w'.gs| ensures GoroutineOk(w', g) { assert g < |w.gs| ==> GoroutineOk(w, g); }
    forall id | 0 <= id < |w'.calls| ensures CallOk(w', id) { assert CallOk(w, id); }
    forall i | 0 <= i < |w'.stack| ensures FrameOk(w', i) { assert FrameOk(w, i); }
  }

  lemma ReadyGains(w: World, w': World, x: multiset<Gid>)
    requires w'.stack == w.stack && PlainAll(w'.chans) == PlainAll(w.chans) && w'.sels == w.sels && w'.calls == w.calls
    requires multiset(w'.ready) == multiset(w.ready) + x
    ensures Sources(w') == Sources(w) + x
  {
    forall g ensures Sources(w')[g] == (Sources(w) + x)[g] { }
  }

  lemma UnfinishedGains(gs: seq<Goroutine>, gs': seq<Goroutine>, n: Gid)
    requires n == |gs| && gs' == gs + [Goroutine(AtStart, false, Nothing)]
    ensures multiset(Unfinished(gs')) == multiset(Unfinished(gs)) + multiset{n}
  {
    assert Unfinished(gs') == Unfinished(gs) + {n};
  }

  lemma SpawnCounts(w: World, w': World)
    requires Counts(w) && w' == Spawn(w)
    ensures Counts(w')
  {
    UnfinishedGains(w.gs, w'.gs, |w.gs|);
    ReadyGains(w, w', multiset{|w.gs|});
  }

  lemma MakeChanGoroutines(w: World, w': World, cap: nat)
    requires Goroutines(w) && w' == DoMakeChan(w, cap).w
    ensures Goroutines(w')
  {
    forall g | 0 <= g < |w'.gs| ensures GoroutineOk(w', g) { assert GoroutineOk(w, g); }
    forall id | 0 <= id < |w'.calls| ensures CallOk(w', id) { assert CallOk(w, id); }
    forall i | 0 <= i < |w'.stack| ensures FrameOk(w', i) { assert FrameOk(w, i); }
  }

  lemma MakeChanCounts(w: World, w': World, cap: nat)
    requires Counts(w) && w' == DoMakeChan(w, cap).w
    ensures Counts(w')
  {
    assert w'.chans[..|w.chans|] == w.chans;
    assert PlainAll(w'.chans) == PlainAll(w.chans);
    ReadyGains(w, w', multiset{});
  }

  lemma MakeChanCore(w: World, w': World, cap: nat)
    requires Core(w) && w' == DoMakeChan(w, cap).w
    ensures Core(w')
  {
    RefsKept(w, w', |w.gs|);
    SelectsKept(w, w', |w.gs|);
    MakeChanGoroutines(w, w', cap);
    MakeChanCounts(w, w', cap);
  }

  // ---- Leaving the processor ------------------------------------------------------

  lemma CallCore(w: World, w': World)
    requires Core(w) && Active(w) && w' == DoCall(w)
    ensures Core(w')
  {
    var w1 := Suspend(w, AtCall);
    ParkTables(w, AtCall);
    assert SameTables(w1, w');
    RefsSame(w1, w');
    SelectsSame(w1, w');
    SameTablesKeep(w1, w');
    assert multiset(w'.ready) == multiset(w.ready) + multiset{Top(w).g};
    SourcesEqual(w, w', multiset{Top(w).g});
  }

  /** Suspended at a host call, seen before the call is recorded. */
  lemma HostCallGoroutines(w: World, w': World, g: Gid)
    requires Goroutines(w) && w' == w.(calls := w.calls + [Call(g, false)])
    requires g < |w.gs| && w.gs[g].at == AtHost(|w.calls|)
    ensures Goroutines(w')
  {
    forall h | 0 <= h < |w'.gs| ensures GoroutineOk(w', h) { assert GoroutineOk(w, h); }
    forall id | 0 <= id < |w'.calls| ensures CallOk(w', id) { assert id < |w.calls| ==> CallOk(w, id); }
    forall i | 0 <= i < |w'.stack| ensures FrameOk(w', i) { assert FrameOk(w, i); }
  }

  lemma HostCallCore(w: World, w': World)
    requires Core(w) && Active(w) && w' == DoHostCall(w)
    ensures Core(w')
  {
    var at := AtHost(|w.calls|);
    ParkTables(w, at);
    var w1 := Suspend(w, at);
    RefsKept(w1, w', |w.gs|);
    SelectsKept(w1, w', |w.gs|);
    HostCallGoroutines(w1, w', Top(w).g);
    PendingAppend(w.calls, Call(Top(w).g, false));
    SourcesEqual(w, w', multiset{Top(w).g});
  }

  lemma FinishGoroutines(w: World, w': World, g: Gid)
    requires Goroutines(w) && Free(w, g) && Active(w) && w' == DoFinish(w)
    ensures Goroutines(w')
  {
    forall h | 0 <= h < |w'.gs| ensures GoroutineOk(w', h) { assert GoroutineOk(w, h); }
    forall id | 0 <= id < |w'.calls| ensures CallOk(w', id) { assert CallOk(w, id); }
    forall i | 0 <= i < |w'.stack| ensures FrameOk(w', i) { assert FrameOk(w, i); }
  }

  /** The same goroutine is struck off both sides. */
  lemma Cancel(a: multiset<Gid>, b: multiset<Gid>, a': multiset<Gid>, b': multiset<Gid>, x: multiset<Gid>)
    requires a == b && a == a' + x && b == b' + x
    ensures a' == b'
  {
    forall g ensures a'[g] == b'[g] { assert (a' + x)[g] == (b' + x)[g]; }
  }

  lemma StackLoses(w: World, w': World, x: multiset<Gid>)
    requires w'.ready == w.ready && w'.chans == w.chans && w'.sels == w.sels && w'.calls == w.calls
    requires StackAll(w.stack) == StackAll(w'.stack) + x
    ensures Sources(w) == Sources(w') + x
  {
    forall g ensures Sources(w)[g] == (Sources(w') + x)[g] { }
  }

  lemma UnfinishedLoses(gs: seq<Goroutine>, gs': seq<Goroutine>, g: Gid)
    requires g < |gs| && !gs[g].done && gs' == gs[g := gs[g].(done := true)]
    ensures multiset(Unfinished(gs)) == multiset(Unfinished(gs')) + multiset{g}
  {
    assert Unfinished(gs) == Unfinished(gs') + {g};
  }

  lemma FinishCounts(w: World, w': World)
    requires Counts(w) && Active(w) && Top(w).g < |w.gs| && !w.gs[Top(w).g].done && w' == DoFinish(w)
    ensures Counts(w')
  {
    var g := Top(w).g;
    UnfinishedLoses(w.gs, w'.gs, g);
    StackLoses(w, w', multiset{g});
    Cancel(Sources(w), multiset(Unfinished(w.gs)), Sources(w'), multiset(Unfinished(w'.gs)), multiset{g});
  }

  lemma FinishCore(w: World, w': World)
    requires Core(w) && Active(w) && w' == DoFinish(w)
    ensures Core(w')
  {
    TopIsFree(w);
    RefsKept(w, w', Top(w).g);
    SelectsKept(w, w', Top(w).g);
    FinishGoroutines(w, w', Top(w).g);
    FinishCounts(w, w');
  }

  // ---- Host calls -------------------------------------------------------------------

  lemma HostDoneGoroutines(w: World, w': World, id: nat)
    requires Goroutines(w) && id < |w.calls| && !w.calls[id].done && w' == HostDone(w, id)
    ensures Goroutines(w')
  {
    forall g | 0 <= g < |w'.gs| ensures GoroutineOk(w', g) { assert GoroutineOk(w, g); }
    forall k | 0 <= k < |w'.calls| ensures CallOk(w', k) { assert CallOk(w, k); }
    forall i | 0 <= i < |w'.stack| ensures FrameOk(w', i) { assert FrameOk(w, i); }
  }

  lemma HostDoneCounts(w: World, w': World, id: nat)
    requires Counts(w) && id < |w.calls| && !w.calls[id].done && w' == HostDone(w, id)
    ensures Counts(w')
  {
    var x := multiset{w.calls[id].owner};
    PendingUpdate(w.calls, id, w'.calls[id]);
    assert multiset(w'.ready) == multiset(w.ready) + x;
    assert PendingAll(w'.calls) + x == PendingAll(w.calls);
    forall g ensures Sources(w')[g] == Sources(w)[g] {
      assert (PendingAll(w'.calls) + x)[g] == PendingAll(w.calls)[g];
    }
  }

  lemma HostDoneCore(w: World, w': World, id: nat)
    requires Core(w) && w' == HostDone(w, id)
    ensures Core(w')
  {
    if id < |w.calls| && !w.calls[id].done {
      RefsKept(w, w', |w.gs|);
      SelectsKept(w, w', |w.gs|);
      HostDoneGoroutines(w, w', id);
      HostDoneCounts(w, w', id);
    }
  }

  // ---- Resuming ---------------------------------------------------------------------

  /** Where the head of the ready queue is suspended: not running, and if at a
      select, at one that has been completed. */
  lemma HeadIsWoken(w: World)
    requires Core(w) && w.ready != []
    ensures var g := w.ready[0];
      && g < |w.gs| && !w.gs[g].done && g !in PlainAll(w.chans) && g !in StackAll(w.stack)
      && (w.gs[g].at.AtSelect? ==> w.gs[g].at.t < |w.sels| && w.sels[w.gs[g].at.t].cancelled
                                   && w.sels[w.gs[g].at.t].counted && w.sels[w.gs[g].at.t].owner == g)
      && (forall id :: 0 <= id < |w.calls| && !w.calls[id].done ==> w.calls[id].owner != g)
  {
    var g := w.ready[0];
    assert g in multiset(w.ready);
    OneSource(w, g);
    assert GoroutineOk(w, g);
    if w.gs[g].at.AtSelect? && !w.sels[w.gs[g].at.t].cancelled { LiveMember(w.sels, w.gs[g].at.t); }
    forall id | 0 <= id < |w.calls| && !w.calls[id].done ensures w.calls[id].owner != g { PendingMember(w.calls, id); }
  }

  /** w' is w after the goroutine g at the head of the queue has been resumed. */
  ghost predicate Resumed(w: World, w': World, g: Gid) {
    && w.ready != [] && g == w.ready[0] && g < |w.gs| && !w.gs[g].done
    && w'.chans == w.chans && w'.calls == w.calls && w'.ready == w.ready[1..] && |w'.gs| == |w.gs|
    && w'.stack == w.stack + [Frame(g, None)]
    && (forall h :: 0 <= h < |w.gs| && h != g ==> w'.gs[h] == w.gs[h])
    && w'.gs[g].at == Running && !w'.gs[g].done
    && (if w.gs[g].at.AtSelect?
        then var t := w.gs[g].at.t;
          && t < |w.sels| && w.sels[t].cancelled && w.sels[t].counted && w.sels[t].owner == g
          && w'.sels == w.sels[t := w.sels[t].(counted := false)] && w'.parked == w.parked - 1
        else w'.sels == w.sels && w'.parked == w.parked)
  }

  lemma ResumeShape(w: World, w': World)
    requires Core(w) && w.ready != [] && w.ready[0] < |w.gs| && DoResume(w) == Next(w')
    ensures Resumed(w, w', w.ready[0])
  {
    HeadIsWoken(w);
  }

  lemma ResumeSelects(w: World, w': World, g: Gid)
    requires Selects(w) && Resumed(w, w', g)
    ensures Selects(w')
  {
    forall t | 0 <= t < |w'.sels| ensures SelOk(w', t) {
      assert SelOk(w, t);
      if w.gs[g].at != AtSelect(t) { SelKeeps(w, w', t); }
    }
  }

  lemma ResumeFrames(w: World, w': World, g: Gid)
    requires Goroutines(w) && Scheduling(w) && Resumed(w, w', g) && g !in StackAll(w.stack)
    ensures forall i :: 0 <= i < |w'.stack| ==> FrameOk(w', i)
  {
    forall i | 0 <= i < |w'.stack| ensures FrameOk(w', i) {
      if i < |w.stack| {
        assert FrameOk(w, i);
        StackMember(w.stack, i);
      }
    }
  }

  lemma ResumeGoroutines(w: World, w': World, g: Gid)
    requires Goroutines(w) && Scheduling(w) && Resumed(w, w', g) && g !in StackAll(w.stack)
    requires forall id :: 0 <= id < |w.calls| && !w.calls[id].done ==> w.calls[id].owner != g
    ensures Goroutines(w')
  {
    forall h | 0 <= h < |w'.gs| ensures GoroutineOk(w', h) { assert GoroutineOk(w, h); }
    forall id | 0 <= id < |w'.calls| ensures CallOk(w', id) { assert CallOk(w, id); }
    ResumeFrames(w, w', g);
  }

  lemma ResumeMoves(w: World, w': World, g: Gid)
    requires w.ready != [] && w.ready[0] == g && w'.ready == w.ready[1..]
    requires w'.chans == w.chans && w'.calls == w.calls && LiveAll(w'.sels) == LiveAll(w.sels)
    requires w'.stack == w.stack + [Frame(g, None)]
    ensures Sources(w') == Sources(w)
  {
    assert w.ready == [g] + w'.ready;
    StackPush(w.stack, Frame(g, None));
    forall h ensures Sources(w')[h] == Sources(w)[h] { }
  }

  lemma ResumeKeepsUnfinished(w: World, w': World, g: Gid)
    requires Resumed(w, w', g)
    ensures Unfinished(w'.gs) == Unfinished(w.gs)
  {
  }

  lemma ResumeKeepsLive(w: World, w': World, g: Gid)
    requires Resumed(w, w', g)
    ensures LiveAll(w'.sels) == LiveAll(w.sels)
    ensures CountedAll(w.sels) - CountedAll(w'.sels) == w.parked - w'.parked
  {
    if w.gs[g].at.AtSelect? {
      var t := w.gs[g].at.t;
      LiveUpdate(w.sels, t, w'.sels[t]);
      Unexchange(LiveAll(w.sels), LiveAll(w'.sels), multiset{}, multiset{}, multiset{});
    }
  }

  lemma ResumeCounts(w: World, w': World, g: Gid)
    requires Counts(w) && Resumed(w, w', g)
    ensures Counts(w')
  {
    ResumeKeepsLive(w, w', g);
    ResumeMoves(w, w', g);
    ResumeKeepsUnfinished(w, w', g);
  }

  lemma ResumeCore(w: World, w': World)
    requires Core(w) && Scheduling(w) && w.ready != [] && w.ready[0] < |w.gs| && DoResume(w) == Next(w')
    ensures Core(w')
  {
    var g := w.ready[0];
    HeadIsWoken(w);
    ResumeShape(w, w');
    RefsKept(w, w', g);
    ResumeSelects(w, w', g);
    ResumeGoroutines(w, w', g);
    ResumeCounts(w, w', g);
  }

  // ---- Nested pumping ----------------------------------------------------------------

  /** The top frame enters or leaves RunUntil. */
  ghost predicate Repumped(w: World, w': World, p: Option<Gid>) {
    && w.stack != [] && w' == w.(stack := w.stack[|w.stack|-1 := Frame(Top(w).g, p)])
    && (p.Some? ==> p.value < |w.gs| && forall j :: 0 <= j < |w.stack| ==> w.stack[j].g != p.value)
  }

  lemma RepumpGoroutines(w: World, w': World, p: Option<Gid>)
    requires Goroutines(w) && Repumped(w, w', p)
    ensures Goroutines(w')
  {
    forall g | 0 <= g < |w'.gs| ensures GoroutineOk(w', g) { assert GoroutineOk(w, g); }
    forall id | 0 <= id < |w'.calls| ensures CallOk(w', id) { assert CallOk(w, id); }
    forall i | 0 <= i < |w'.stack| ensures FrameOk(w', i) { assert FrameOk(w, i); }
  }

  lemma RepumpCore(w: World, w': World, p: Option<Gid>)
    requires Core(w) && Repumped(w, w', p)
    ensures Core(w')
  {
    RefsKept(w, w', |w.gs|);
    SelectsKept(w, w', |w.gs|);
    RepumpGoroutines(w, w', p);
    StackTop(w.stack, Frame(Top(w).g, p));
    assert Sources(w') == Sources(w);
  }

  lemma SpawnCore(w: World, w': World)
    requires Core(w) && w' == Spawn(w)
    ensures Core(w')
  {
    RefsKept(w, w', |w.gs|);
    SelectsKept(w, w', |w.gs|);
    SpawnGoroutines(w, w');
    SpawnCounts(w, w');
  }

  lemma PumpStartCore(w: World, w': World)
    requires Core(w) && Active(w) && w' == PumpStart(w)
    ensures Core(w')
  {
    var w1 := Spawn(w);
    SpawnCore(w, w1);
    forall j | 0 <= j < |w.stack| ensures w.stack[j].g != |w.gs| { assert FrameOk(w, j); }
    RepumpCore(w1, w', Some(|w.gs|));
  }
}
