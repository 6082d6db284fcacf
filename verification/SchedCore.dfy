/** Every step of the runtime keeps the wake-source part of the invariant. */
module SchedCore {
  import opened SchedModel
  import opened SchedInvariant
  import opened SchedCounting

  // ---- Dropping stale entries, waking one waiter -------------------------------

  /** q' is q without its first k entries, all of them stale. */
  ghost predicate Trimmed(q: seq<Waiter>, q': seq<Waiter>, k: nat, sels: seq<Sel>) {
    k <= |q| && q' == q[k..] && forall j :: 0 <= j < k ==> Cancelled(sels, q[j].tk)
  }

  /** q' is what is left behind x, the first entry of q that is not stale. */
  ghost predicate Popped(q: seq<Waiter>, q': seq<Waiter>, k: nat, x: Waiter, sels: seq<Sel>) {
    && k < |q| && q[k] == x && q' == q[k + 1..] && Live(sels, x)
    && forall j :: 0 <= j < k ==> Cancelled(sels, q[j].tk)
  }

  lemma {:induction false} DropStaleTrims(q: seq<Waiter>, sels: seq<Sel>) returns (k: nat)
    ensures Trimmed(q, DropStale(q, sels), k, sels)
    ensures DropStale(q, sels) != [] ==> Live(sels, DropStale(q, sels)[0])
    ensures DropStale(q, sels) == [] ==> forall x :: x in q ==> !Live(sels, x)
  {
    if q == [] || !Cancelled(sels, q[0].tk) {
      k := 0;
    } else {
      var k' := DropStaleTrims(q[1..], sels);
      k := k' + 1;
    }
  }

  lemma DropStalePops(q: seq<Waiter>, sels: seq<Sel>) returns (k: nat)
    requires DropStale(q, sels) != []
    ensures Popped(q, DropStale(q, sels)[1..], k, DropStale(q, sels)[0], sels)
  {
    k := DropStaleTrims(q, sels);
  }

  lemma {:induction false} StalePlain(q: seq<Waiter>, k: nat, sels: seq<Sel>)
    requires k <= |q| && forall j :: 0 <= j < k ==> Cancelled(sels, q[j].tk)
    ensures PlainQ(q[k..]) == PlainQ(q)
  {
    if k > 0 {
      StalePlain(q[1..], k - 1, sels);
      assert q[1..][k - 1..] == q[k..];
    }
  }

  lemma PoppedPlain(q: seq<Waiter>, q': seq<Waiter>, k: nat, x: Waiter, sels: seq<Sel>)
    requires Popped(q, q', k, x, sels)
    ensures PlainQ(q) == PlainQ(q') + if x.tk.Plain? then multiset{x.g} else multiset{}
  {
    StalePlain(q, k, sels);
    assert q[k..][1..] == q';
  }

  /** w' differs from w in nothing the goroutine, call and frame tables' facts read. */
  ghost predicate SameTables(w: World, w': World) {
    && SameShape(w, w')
    && (forall g :: 0 <= g < |w.gs| ==> w'.gs[g].at == w.gs[g].at && w'.gs[g].done == w.gs[g].done)
    && (forall t :: 0 <= t < |w.sels| ==>
          && w'.sels[t].owner == w.sels[t].owner && w'.sels[t].cases == w.sels[t].cases
          && w'.sels[t].counted == w.sels[t].counted)
  }

  lemma SameTablesKeep(w: World, w': World)
    requires Goroutines(w) && SameTables(w, w')
    ensures Goroutines(w')
  {
    forall g | 0 <= g < |w'.gs| ensures GoroutineOk(w', g) { assert GoroutineOk(w, g); }
    forall id | 0 <= id < |w'.calls| ensures CallOk(w', id) { assert CallOk(w, id); }
    forall i | 0 <= i < |w'.stack| ensures FrameOk(w', i) { assert FrameOk(w, i); }
  }

  /** No queue loses an entry. */
  ghost predicate Extends(w: World, w': World) {
    && |w.chans| <= |w'.chans|
    && forall c :: 0 <= c < |w.chans| ==>
         w.chans[c].recvs <= w'.chans[c].recvs && w.chans[c].sends <= w'.chans[c].sends
  }

  lemma SelKeeps(w: World, w': World, t: nat)
    requires t < |w.sels| && t < |w'.sels| && w'.sels[t] == w.sels[t] && SelOk(w, t) && Extends(w, w')
    requires w.sels[t].owner < |w'.gs|
    requires w.sels[t].counted ==> w'.gs[w.sels[t].owner].at == w.gs[w.sels[t].owner].at
    ensures SelOk(w', t)
  {
    if !w.sels[t].cancelled {
      forall i: nat | i < |w.sels[t].cases| ensures Enrolled(w', t, i) { assert Enrolled(w, t, i); }
    }
  }

  /** Every queue is as it was or new and empty, every old select keeps its owner and
      cases, every goroutine but g stays where it was. */
  ghost predicate SameQueues(w: World, w': World, g: Gid) {
    && |w.chans| <= |w'.chans| && |w.sels| <= |w'.sels| && |w.gs| <= |w'.gs|
    && (forall c :: 0 <= c < |w'.chans| ==>
          if c < |w.chans| then w'.chans[c] == w.chans[c] else w'.chans[c].recvs == [] && w'.chans[c].sends == [])
    && (forall t :: 0 <= t < |w.sels| ==> w'.sels[t].owner == w.sels[t].owner && w'.sels[t].cases == w.sels[t].cases)
    && (forall h :: 0 <= h < |w.gs| && h != g ==> w'.gs[h].at == w.gs[h].at)
  }

  lemma RefsKept(w: World, w': World, g: Gid)
    requires Refs(w) && SameQueues(w, w', g) && (g < |w.gs| ==> g !in PlainAll(w.chans))
    ensures Refs(w')
  {
    forall c | 0 <= c < |w'.chans| ensures RecvsOk(w', c, w'.chans[c].recvs) && SendsOk(w', c, w'.chans[c].sends) {
      if c < |w.chans| {
        assert RecvsOk(w, c, w.chans[c].recvs) && SendsOk(w, c, w.chans[c].sends);
        forall x | (x in w.chans[c].recvs || x in w.chans[c].sends) && x.tk.Plain? && g < |w.gs| ensures x.g != g {
          PlainAllMember(w.chans, c, x);
        }
      }
    }
  }

  lemma SelectsKept(w: World, w': World, g: Gid)
    requires Selects(w) && Extends(w, w') && w'.sels == w.sels && |w.gs| <= |w'.gs|
    requires forall h :: 0 <= h < |w.gs| && h != g ==> w'.gs[h].at == w.gs[h].at
    requires g < |w.gs| ==> !w.gs[g].at.AtSelect?
    ensures Selects(w')
  {
    forall t | 0 <= t < |w'.sels| ensures SelOk(w', t) {
      assert SelOk(w, t);
      SelKeeps(w, w', t);
    }
  }

  lemma SelectsSame(w: World, w': World)
    requires Selects(w) && SameTables(w, w') && w'.chans == w.chans && w'.sels == w.sels
    ensures Selects(w')
  {
    forall t | 0 <= t < |w'.sels| ensures SelOk(w', t) {
      assert SelOk(w, t);
      SelKeeps(w, w', t);
    }
  }

  lemma RefsSame(w: World, w': World)
    requires Refs(w) && SameTables(w, w') && w'.chans == w.chans
    ensures Refs(w')
  {
    forall c | 0 <= c < |w'.chans| ensures RecvsOk(w', c, w'.chans[c].recvs) && SendsOk(w', c, w'.chans[c].sends) {
      assert RecvsOk(w, c, w.chans[c].recvs) && SendsOk(w, c, w.chans[c].sends);
    }
  }

  lemma CountsSame(w: World, w': World)
    requires Counts(w) && SameTables(w, w') && w'.chans == w.chans && w'.sels == w.sels
    requires w'.ready == w.ready && w'.parked == w.parked
    ensures Counts(w')
  {
    assert Unfinished(w'.gs) == Unfinished(w.gs);
  }

  lemma CoreSame(w: World, w': World)
    requires Core(w) && SameTables(w, w') && w'.chans == w.chans && w'.sels == w.sels
    requires w'.ready == w.ready && w'.parked == w.parked
    ensures Core(w')
  {
    RefsSame(w, w');
    SelectsSame(w, w');
    SameTablesKeep(w, w');
    CountsSame(w, w');
  }

  /** Channel c's queues lose stale entries only; anything else in it may change. */
  ghost predicate TrimmedAt(w: World, w': World, c: nat, j: nat, k: nat) {
    && c < |w.chans| && SameShape(w, w') && w' == w.(chans := w'.chans)
    && w'.chans == w.chans[c := w'.chans[c]]
    && Trimmed(w.chans[c].recvs, w'.chans[c].recvs, j, w.sels)
    && Trimmed(w.chans[c].sends, w'.chans[c].sends, k, w.sels)
  }

  lemma TrimKeepsRefs(w: World, w': World, c: nat, j: nat, k: nat)
    requires Refs(w) && TrimmedAt(w, w', c, j, k)
    ensures Refs(w')
  {
    forall d | 0 <= d < |w'.chans|
      ensures RecvsOk(w', d, w'.chans[d].recvs) && SendsOk(w', d, w'.chans[d].sends)
    {
      assert RecvsOk(w, d, w.chans[d].recvs) && SendsOk(w, d, w.chans[d].sends);
    }
  }

  lemma TrimKeepsSelects(w: World, w': World, c: nat, j: nat, k: nat)
    requires Selects(w) && TrimmedAt(w, w', c, j, k)
    ensures Selects(w')
  {
    forall t | 0 <= t < |w'.sels| ensures SelOk(w', t) {
      assert SelOk(w, t);
      if !w.sels[t].cancelled {
        forall i: nat | i < |w.sels[t].cases| ensures Enrolled(w', t, i) {
          assert Enrolled(w, t, i);
        }
      }
    }
  }

  lemma Unexchange(was: multiset<Gid>, now: multiset<Gid>, out: multiset<Gid>, into: multiset<Gid>, x: multiset<Gid>)
    requires now + out == was + into && out == into + x
    ensures was == now + x
  {
    forall g ensures was[g] == (now + x)[g] {
      assert (now + out)[g] == (was + into)[g];
    }
  }

  lemma TrimKeepsCounts(w: World, w': World, c: nat, j: nat, k: nat)
    requires Counts(w) && TrimmedAt(w, w', c, j, k)
    ensures Counts(w')
  {
    StalePlain(w.chans[c].recvs, j, w.sels);
    StalePlain(w.chans[c].sends, k, w.sels);
    PlainUpdate(w.chans, c, w'.chans[c]);
    Unexchange(PlainAll(w.chans), PlainAll(w'.chans), PlainIn(w.chans[c]), PlainIn(w'.chans[c]), multiset{});
    assert PlainAll(w'.chans) == PlainAll(w.chans);
    assert Sources(w') == Sources(w);
  }

  lemma TrimKeepsCore(w: World, c: nat, ch: Chan, j: nat, k: nat)
    requires Core(w) && c < |w.chans|
    requires Trimmed(w.chans[c].recvs, ch.recvs, j, w.sels) && Trimmed(w.chans[c].sends, ch.sends, k, w.sels)
    ensures Core(SetChan(w, c, ch))
  {
    var w' := SetChan(w, c, ch);
    TrimKeepsRefs(w, w', c, j, k);
    TrimKeepsSelects(w, w', c, j, k);
    TrimKeepsCounts(w, w', c, j, k);
    SameTablesKeep(w, w');
  }

  /** w' is w after waiter x, popped from channel c's queue, has been completed. */
  ghost predicate Woken(w: World, w': World, c: nat, x: Waiter, writes: seq<Write>, k: nat) {
    && SameTables(w, w')
    && w'.ready == w.ready + [x.g]
    && w'.parked == w.parked - (if x.tk.Plain? then 1 else 0)
    && w'.sels == Claim(w.sels, x.tk, writes)
    && c < |w.chans| && w'.chans == w.chans[c := w'.chans[c]]
    && var ch, ch' := w.chans[c], w'.chans[c];
      || (Popped(ch.recvs, ch'.recvs, k, x, w.sels) && ch'.sends == ch.sends
          && (x.tk.OfSelect? ==> |writes| == 1 && writes[0].idx == x.tk.idx))
      || (Popped(ch.sends, ch'.sends, k, x, w.sels) && ch'.recvs == ch.recvs && writes == [])
  }

  lemma WokenTicket(w: World, w': World, c: nat, x: Waiter, writes: seq<Write>, k: nat)
    requires Refs(w) && Woken(w, w', c, x, writes, k)
    ensures x.tk.OfSelect? ==> x.tk.t < |w.sels| && w.sels[x.tk.t].owner == x.g && !w.sels[x.tk.t].cancelled
                               && x.tk.idx < |w.sels[x.tk.t].cases|
                               && var cs := w.sels[x.tk.t].cases[x.tk.idx];
                                  if writes == [] then cs == SendCase(c, x.v) else cs == RecvCase(c)
  {
    assert RecvsOk(w, c, w.chans[c].recvs) && SendsOk(w, c, w.chans[c].sends);
    assert x in w.chans[c].recvs || x in w.chans[c].sends;
  }

  lemma WakeKeepsPlain(w: World, w': World, c: nat, x: Waiter, writes: seq<Write>, k: nat)
    requires Woken(w, w', c, x, writes, k)
    ensures PlainAll(w.chans) == PlainAll(w'.chans) + if x.tk.Plain? then multiset{x.g} else multiset{}
  {
    var ch, ch' := w.chans[c], w'.chans[c];
    if Popped(ch.recvs, ch'.recvs, k, x, w.sels) {
      PoppedPlain(ch.recvs, ch'.recvs, k, x, w.sels);
    } else {
      PoppedPlain(ch.sends, ch'.sends, k, x, w.sels);
    }
    PlainUpdate(w.chans, c, ch');
    Unexchange(PlainAll(w.chans), PlainAll(w'.chans), PlainIn(ch), PlainIn(ch'),
               if x.tk.Plain? then multiset{x.g} else multiset{});
  }

  /** A source leaves the waiting goroutines and joins the ready queue. */
  lemma SourceMoves(w: World, w': World, x: multiset<Gid>)
    requires w'.stack == w.stack && w'.calls == w.calls && multiset(w'.ready) == multiset(w.ready) + x
    requires PlainAll(w.chans) + LiveAll(w.sels) == PlainAll(w'.chans) + LiveAll(w'.sels) + x
    ensures Sources(w') == Sources(w)
  {
    forall g ensures Sources(w')[g] == Sources(w)[g] {
      assert (PlainAll(w.chans) + LiveAll(w.sels))[g] == (PlainAll(w'.chans) + LiveAll(w'.sels) + x)[g];
    }
  }

  lemma WakeKeepsCounts(w: World, w': World, c: nat, x: Waiter, writes: seq<Write>, k: nat)
    requires Counts(w) && Woken(w, w', c, x, writes, k)
    requires x.tk.OfSelect? ==> x.tk.t < |w.sels| && w.sels[x.tk.t].owner == x.g && !w.sels[x.tk.t].cancelled
    ensures Counts(w')
  {
    WakeKeepsPlain(w, w', c, x, writes, k);
    if x.tk.OfSelect? { LiveUpdate(w.sels, x.tk.t, w'.sels[x.tk.t]); }
    assert LiveAll(w.sels) == LiveAll(w'.sels) + if x.tk.Plain? then multiset{} else multiset{x.g};
    SourceMoves(w, w', multiset{x.g});
    assert Unfinished(w'.gs) == Unfinished(w.gs);
  }

  lemma WakeKeepsRefs(w: World, w': World, c: nat, x: Waiter, writes: seq<Write>, k: nat)
    requires Refs(w) && Woken(w, w', c, x, writes, k)
    ensures Refs(w')
  {
    forall d | 0 <= d < |w'.chans|
      ensures RecvsOk(w', d, w'.chans[d].recvs) && SendsOk(w', d, w'.chans[d].sends)
    {
      assert RecvsOk(w, d, w.chans[d].recvs) && SendsOk(w, d, w.chans[d].sends);
    }
  }

  lemma WakeKeepsSelects(w: World, w': World, c: nat, x: Waiter, writes: seq<Write>, k: nat)
    requires Refs(w) && Selects(w) && Woken(w, w', c, x, writes, k)
    ensures Selects(w')
  {
    WokenTicket(w, w', c, x, writes, k);
    forall t | 0 <= t < |w'.sels| ensures SelOk(w', t) {
      assert SelOk(w, t);
      if !w'.sels[t].cancelled {
        forall i: nat | i < |w.sels[t].cases| ensures Enrolled(w', t, i) {
          assert Enrolled(w, t, i);
        }
      }
    }
  }

  lemma WakeKeepsCore(w: World, w': World, c: nat, x: Waiter, writes: seq<Write>, k: nat)
    requires Core(w) && Woken(w, w', c, x, writes, k)
    ensures Core(w')
  {
    WokenTicket(w, w', c, x, writes, k);
    WakeKeepsRefs(w, w', c, x, writes, k);
    WakeKeepsSelects(w, w', c, x, writes, k);
    WakeKeepsCounts(w, w', c, x, writes, k);
    SameTablesKeep(w, w');
  }
}
