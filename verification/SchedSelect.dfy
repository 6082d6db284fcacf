/** Parking a select keeps the wake-source invariant: every communication case is
    enrolled in its channel's queue before control returns to the scheduler. */
module SchedSelect {
  import opened SchedModel
  import opened SchedInvariant
  import opened SchedCounting
  import opened SchedCore
  import opened SchedSteps

  /** The world in which select t's cases are about to be queued: its goroutine
      has left the stack, its awaiter exists, nothing is enrolled yet. */
  function SelectPrepared(w: World, cases: seq<Case>): World
    requires w.stack != []
  {
    var t := |w.sels|;
    Suspend(w, AtSelect(t)).(sels := w.sels + [Sel(Top(w).g, cases, false, -1, true, [])], parked := w.parked + 1)
  }

  lemma PreparedKeepsRefs(w: World, w': World, cases: seq<Case>, g: Gid)
    requires Refs(w) && Free(w, g) && w' == SelectPrepared(w, cases)
    ensures Refs(w')
  {
    RefsKept(w, w', g);
  }

  lemma PreparedKeepsSelects(w: World, w': World, cases: seq<Case>, g: Gid)
    requires Selects(w) && Free(w, g) && w' == SelectPrepared(w, cases)
    ensures forall t :: 0 <= t < |w.sels| ==> SelOk(w', t)
  {
    forall t | 0 <= t < |w.sels| ensures SelOk(w', t) {
      assert SelOk(w, t);
      SelKeeps(w, w', t);
    }
  }

  lemma PreparedKeepsGoroutines(w: World, w': World, cases: seq<Case>, g: Gid)
    requires Goroutines(w) && Free(w, g) && w' == SelectPrepared(w, cases)
    ensures Goroutines(w')
  {
    forall h | 0 <= h < |w'.gs| ensures GoroutineOk(w', h) { assert GoroutineOk(w, h); }
    forall id | 0 <= id < |w'.calls| ensures CallOk(w', id) { assert CallOk(w, id); }
    forall i | 0 <= i < |w'.stack| ensures FrameOk(w', i) { assert FrameOk(w, i); }
  }

  lemma PreparedKeepsCounts(w: World, cases: seq<Case>)
    requires Counts(w) && w.stack != [] && Top(w).g < |w.gs|
    ensures Counts(SelectPrepared(w, cases))
  {
    var w' := SelectPrepared(w, cases);
    LiveAppend(w.sels, w'.sels[|w.sels|]);
    LeaveCounts(w, Suspend(w, AtSelect(|w.sels|)), AtSelect(|w.sels|));
    SourcesEqual(w, w', multiset{Top(w).g});
  }

  // ---- Queueing the cases ---------------------------------------------------------

  /** No queue entry of select t stands for case i or a later one. */
  ghost predicate NotYet(w: World, t: nat, i: nat) {
    forall c, x :: 0 <= c < |w.chans| && (x in w.chans[c].recvs || x in w.chans[c].sends) ==>
      x.tk.OfSelect? && x.tk.t == t ==> x.tk.idx < i
  }

  /** w with one select entry added somewhere. */
  ghost predicate Added(w: World, w': World, c: nat, x: Waiter) {
    && c < |w.chans| && x.tk.OfSelect?
    && (w' == SetChan(w, c, AddRecv(w.chans[c], x)) || w' == SetChan(w, c, AddSend(w.chans[c], x)))
  }

  lemma AddedKeepsCounts(w: World, w': World, c: nat, x: Waiter)
    requires Counts(w) && Added(w, w', c, x)
    ensures Counts(w')
  {
    PlainAppend(w.chans[c].recvs, [x]);
    PlainAppend(w.chans[c].sends, [x]);
    PlainOne(x);
    assert PlainIn(w'.chans[c]) == PlainIn(w.chans[c]);
    PlainUpdate(w.chans, c, w'.chans[c]);
    Unexchange(PlainAll(w'.chans), PlainAll(w.chans), PlainIn(w'.chans[c]), PlainIn(w.chans[c]), multiset{});
    assert PlainAll(w'.chans) == PlainAll(w.chans);
    assert Sources(w') == Sources(w);
  }

  /** The facts that hold while select t's cases are being queued, up to case i. */
  ghost predicate Parking(w: World, t: nat, i: nat) {
    && t < |w.sels| && Refs(w) && Goroutines(w) && Counts(w) && NotYet(w, t, i)
    && (forall u :: 0 <= u < t ==> SelOk(w, u))
    && i <= |w.sels[t].cases| && (forall j: nat :: j < i ==> Enrolled(w, t, j))
  }

  lemma AddedKeepsOthers(w: World, w': World, c: nat, x: Waiter, t: nat, i: nat)
    requires Parking(w, t, i) && Added(w, w', c, x)
    ensures forall u :: 0 <= u < t ==> SelOk(w', u)
    ensures forall j: nat :: j < i ==> Enrolled(w', t, j)
  {
    forall u | 0 <= u < t ensures SelOk(w', u) {
      assert SelOk(w, u);
      SelKeeps(w, w', u);
    }
    forall j: nat | j < i ensures Enrolled(w', t, j) { assert Enrolled(w, t, j); }
  }

  lemma AddedParks(w: World, w': World, c: nat, t: nat, i: nat)
    requires Parking(w, t, i) && i < |w.sels[t].cases|
    requires var s := w.sels[t]; var x := Entry(s.owner, t, i, s.cases[i]);
      c < |w.chans| &&
      match s.cases[i]
      case DefaultCase => false
      case RecvCase(d) => d == c && w' == SetChan(w, c, AddRecv(w.chans[c], x))
      case SendCase(d, _) => d == c && w' == SetChan(w, c, AddSend(w.chans[c], x))
    ensures Parking(w', t, i + 1)
  {
    var s := w.sels[t];
    var x := Entry(s.owner, t, i, s.cases[i]);
    assert Added(w, w', c, x);
    if s.cases[i].RecvCase? { AddRecvKeepsRefs(w, c, x); } else { AddSendKeepsRefs(w, c, x); }
    SameTablesKeep(w, w');
    AddedKeepsCounts(w, w', c, x);
    AddedKeepsOthers(w, w', c, x, t, i);
    assert Enrolled(w', t, i);
  }

  lemma {:induction false} ParkCasesParks(w: World, w': World, t: nat, i: nat)
    requires Parking(w, t, i) && CasesOk(w, w.sels[t].cases)
    requires w' == ParkCases(w, w.sels[t].owner, t, w.sels[t].cases, i)
    ensures Parking(w', t, |w.sels[t].cases|)
    decreases |w.sels[t].cases| - i
  {
    var s := w.sels[t];
    if i < |s.cases| {
      match s.cases[i]
      case DefaultCase =>
        SkipParks(w, t, i);
        ParkCasesParks(w, w', t, i + 1);
      case RecvCase(c) =>
        var w1 := SetChan(w, c, AddRecv(w.chans[c], Entry(s.owner, t, i, s.cases[i])));
        AddedParks(w, w1, c, t, i);
        ParkCasesParks(w1, w', t, i + 1);
      case SendCase(c, v) =>
        var w1 := SetChan(w, c, AddSend(w.chans[c], Entry(s.owner, t, i, s.cases[i])));
        AddedParks(w, w1, c, t, i);
        ParkCasesParks(w1, w', t, i + 1);
    }
  }

  lemma SkipParks(w: World, t: nat, i: nat)
    requires Parking(w, t, i) && i < |w.sels[t].cases| && w.sels[t].cases[i].DefaultCase?
    ensures Parking(w, t, i + 1)
  {
    assert Enrolled(w, t, i);
    assert forall c, x :: 0 <= c < |w.chans| && (x in w.chans[c].recvs || x in w.chans[c].sends) ==>
      x.tk.OfSelect? && x.tk.t == t ==> x.tk.idx < i + 1;
  }

  /** The whole parking sequence of a select with no default case. */
  function ParkedSelect(w: World, cases: seq<Case>): World
    requires w.stack != [] && CasesOk(w, cases)
  {
    ParkCases(SelectPrepared(w, cases), Top(w).g, |w.sels|, cases, 0)
  }

  lemma PreparedIsFresh(w: World, cases: seq<Case>)
    requires Refs(w) && w.stack != []
    ensures NotYet(SelectPrepared(w, cases), |w.sels|, 0)
  {
    forall c, x | 0 <= c < |w.chans| && (x in w.chans[c].recvs || x in w.chans[c].sends)
      ensures !(x.tk.OfSelect? && x.tk.t == |w.sels|)
    {
      assert RecvsOk(w, c, w.chans[c].recvs) && SendsOk(w, c, w.chans[c].sends);
    }
  }

  lemma PreparedParking(w: World, w': World, cases: seq<Case>)
    requires Core(w) && w.stack != [] && CasesOk(w, cases) && w' == SelectPrepared(w, cases)
    ensures Parking(w', |w.sels|, 0)
  {
    TopIsFree(w);
    PreparedKeepsRefs(w, w', cases, Top(w).g);
    PreparedKeepsSelects(w, w', cases, Top(w).g);
    PreparedKeepsGoroutines(w, w', cases, Top(w).g);
    PreparedKeepsCounts(w, cases);
    PreparedIsFresh(w, cases);
  }

  lemma ParkedSelectCore(w: World, w': World, cases: seq<Case>)
    requires Core(w) && w.stack != [] && CasesOk(w, cases) && DefaultFrom(cases, 0) < 0
    requires w' == ParkedSelect(w, cases)
    ensures Core(w')
  {
    var t := |w.sels|;
    TopIsFree(w);
    var w1 := SelectPrepared(w, cases);
    PreparedParking(w, w1, cases);
    ParkCasesParks(w1, w', t, 0);
    assert w'.sels == w1.sels && w'.gs == w1.gs;
    assert SelOk(w', t);
  }
}
