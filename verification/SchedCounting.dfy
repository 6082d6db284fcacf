/** How the wake-source multisets change when one entry of one table changes. */
module SchedCounting {
  import opened SchedModel
  import opened SchedInvariant

  /** Adding the same entries to both sides of an exchange. */
  lemma Exchange(now: multiset<Gid>, out: multiset<Gid>, was: multiset<Gid>, into: multiset<Gid>, rest: multiset<Gid>)
    requires now + out == was + into
    ensures (now + rest) + out == (was + rest) + into
  {
    assert (now + rest) + out == (now + out) + rest;
    assert (was + rest) + into == (was + into) + rest;
  }

  lemma Regroup(a: multiset<Gid>, b: multiset<Gid>, c: multiset<Gid>)
    ensures a + (b + c) == (a + b) + c
  {
  }

  lemma {:induction false} PlainAppend(q: seq<Waiter>, p: seq<Waiter>)
    ensures PlainQ(q + p) == PlainQ(q) + PlainQ(p)
  {
    if q == [] {
      assert q + p == p;
    } else {
      PlainAppend(q[1..], p);
      assert (q + p)[1..] == q[1..] + p;
      Regroup(if q[0].tk.Plain? then multiset{q[0].g} else multiset{}, PlainQ(q[1..]), PlainQ(p));
    }
  }

  lemma PlainOne(x: Waiter)
    ensures PlainQ([x]) == if x.tk.Plain? then multiset{x.g} else multiset{}
  {
    assert [x][1..] == [];
  }

  lemma {:induction false} PlainUpdate(chans: seq<Chan>, c: nat, ch: Chan)
    requires c < |chans|
    ensures PlainAll(chans[c := ch]) + PlainIn(chans[c]) == PlainAll(chans) + PlainIn(ch)
  {
    var n := |chans| - 1;
    var chans' := chans[c := ch];
    if c == n {
      assert chans'[..n] == chans[..n];
    } else {
      assert chans'[..n] == chans[..n][c := ch];
      PlainUpdate(chans[..n], c, ch);
      Exchange(PlainAll(chans'[..n]), PlainIn(chans[c]), PlainAll(chans[..n]), PlainIn(ch), PlainIn(chans[n]));
    }
  }

  lemma {:induction false} PlainQMember(q: seq<Waiter>, x: Waiter)
    requires x in q && x.tk.Plain?
    ensures x.g in PlainQ(q)
  {
    if q[0] != x {
      assert x in q[1..];
      PlainQMember(q[1..], x);
    }
  }

  lemma {:induction false} PlainAllMember(chans: seq<Chan>, c: nat, x: Waiter)
    requires c < |chans| && x.tk.Plain? && (x in chans[c].recvs || x in chans[c].sends)
    ensures x.g in PlainAll(chans)
  {
    var n := |chans| - 1;
    if c == n {
      if x in chans[c].recvs { PlainQMember(chans[c].recvs, x); } else { PlainQMember(chans[c].sends, x); }
    } else {
      PlainAllMember(chans[..n], c, x);
    }
  }

  lemma {:induction false} PlainQWitness(q: seq<Waiter>, g: Gid) returns (x: Waiter)
    requires g in PlainQ(q)
    ensures x in q && x.tk.Plain? && x.g == g
  {
    if q[0].tk.Plain? && q[0].g == g { x := q[0]; } else { x := PlainQWitness(q[1..], g); }
  }

  lemma {:induction false} PlainAllWitness(chans: seq<Chan>, g: Gid) returns (c: nat, x: Waiter)
    requires g in PlainAll(chans)
    ensures c < |chans| && x.tk.Plain? && x.g == g && (x in chans[c].recvs || x in chans[c].sends)
  {
    var n := |chans| - 1;
    if g in PlainAll(chans[..n]) {
      c, x := PlainAllWitness(chans[..n], g);
    } else if g in PlainQ(chans[n].recvs) {
      c := n;
      x := PlainQWitness(chans[n].recvs, g);
    } else {
      c := n;
      x := PlainQWitness(chans[n].sends, g);
    }
  }

  lemma {:induction false} LiveUpdate(sels: seq<Sel>, t: nat, s: Sel)
    requires t < |sels|
    ensures LiveAll(sels[t := s]) + LiveOf(sels[t]) == LiveAll(sels) + LiveOf(s)
    ensures CountedAll(sels[t := s]) + CountOf(sels[t]) == CountedAll(sels) + CountOf(s)
  {
    var n := |sels| - 1;
    var sels' := sels[t := s];
    if t == n {
      assert sels'[..n] == sels[..n];
    } else {
      assert sels'[..n] == sels[..n][t := s];
      LiveUpdate(sels[..n], t, s);
      Exchange(LiveAll(sels'[..n]), LiveOf(sels[t]), LiveAll(sels[..n]), LiveOf(s), LiveOf(sels[n]));
    }
  }

  lemma LiveAppend(sels: seq<Sel>, s: Sel)
    ensures LiveAll(sels + [s]) == LiveAll(sels) + LiveOf(s)
    ensures CountedAll(sels + [s]) == CountedAll(sels) + CountOf(s)
  {
    assert (sels + [s])[..|sels|] == sels;
  }

  lemma {:induction false} LiveMember(sels: seq<Sel>, t: nat)
    requires t < |sels| && !sels[t].cancelled
    ensures sels[t].owner in LiveAll(sels)
  {
    if t < |sels| - 1 { LiveMember(sels[..|sels|-1], t); }
  }

  lemma {:induction false} LiveWitness(sels: seq<Sel>, g: Gid) returns (t: nat)
    requires g in LiveAll(sels)
    ensures t < |sels| && !sels[t].cancelled && sels[t].owner == g
  {
    var n := |sels| - 1;
    if g in LiveAll(sels[..n]) { t := LiveWitness(sels[..n], g); } else { t := n; }
  }

  lemma {:induction false} PendingUpdate(calls: seq<Call>, id: nat, c: Call)
    requires id < |calls|
    ensures PendingAll(calls[id := c]) + PendingOf(calls[id]) == PendingAll(calls) + PendingOf(c)
  {
    var n := |calls| - 1;
    var calls' := calls[id := c];
    if id == n {
      assert calls'[..n] == calls[..n];
    } else {
      assert calls'[..n] == calls[..n][id := c];
      PendingUpdate(calls[..n], id, c);
      Exchange(PendingAll(calls'[..n]), PendingOf(calls[id]), PendingAll(calls[..n]), PendingOf(c), PendingOf(calls[n]));
    }
  }

  lemma PendingAppend(calls: seq<Call>, c: Call)
    ensures PendingAll(calls + [c]) == PendingAll(calls) + PendingOf(c)
  {
    assert (calls + [c])[..|calls|] == calls;
  }

  lemma {:induction false} PendingMember(calls: seq<Call>, id: nat)
    requires id < |calls| && !calls[id].done
    ensures calls[id].owner in PendingAll(calls)
  {
    if id < |calls| - 1 { PendingMember(calls[..|calls|-1], id); }
  }

  lemma {:induction false} PendingWitness(calls: seq<Call>, g: Gid) returns (id: nat)
    requires g in PendingAll(calls)
    ensures id < |calls| && !calls[id].done && calls[id].owner == g
  {
    var n := |calls| - 1;
    if g in PendingAll(calls[..n]) { id := PendingWitness(calls[..n], g); } else { id := n; }
  }

  lemma StackPush(stack: seq<Frame>, f: Frame)
    ensures StackAll(stack + [f]) == StackAll(stack) + multiset{f.g}
  {
    assert (stack + [f])[..|stack|] == stack;
  }

  lemma StackTop(stack: seq<Frame>, f: Frame)
    requires stack != [] && f.g == stack[|stack|-1].g
    ensures StackAll(stack[|stack|-1 := f]) == StackAll(stack)
  {
    var n := |stack| - 1;
    assert stack[n := f][..n] == stack[..n];
  }

  lemma {:induction false} StackMember(stack: seq<Frame>, i: nat)
    requires i < |stack|
    ensures stack[i].g in StackAll(stack)
  {
    if i < |stack| - 1 { StackMember(stack[..|stack|-1], i); }
  }

  lemma {:induction false} StackWitness(stack: seq<Frame>, g: Gid) returns (i: nat)
    requires g in StackAll(stack)
    ensures i < |stack| && stack[i].g == g
  {
    var n := |stack| - 1;
    if g in StackAll(stack[..n]) { i := StackWitness(stack[..n], g); } else { i := n; }
  }

  /** At most one wake source: membership in two of the multisets is impossible. */
  lemma OneSource(w: World, g: Gid)
    requires Counts(w)
    ensures StackAll(w.stack)[g] + multiset(w.ready)[g] + PlainAll(w.chans)[g] + LiveAll(w.sels)[g]
            + PendingAll(w.calls)[g] == if g < |w.gs| && !w.gs[g].done then 1 else 0
  {
    assert Sources(w)[g] == multiset(Unfinished(w.gs))[g];
  }
}
