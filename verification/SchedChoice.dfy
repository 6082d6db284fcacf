/** Which way an operation goes, told from the channels as they were before it: when a send
    parks, what a select picks, and who runs next. */
module SchedChoice {
  import opened Wrappers
  import opened SchedModel
  import opened SchedInvariant
  import opened SchedCounting
  import opened SchedCore
  import opened SchedFlow
  import opened SchedInv
  import opened SchedTurns
  import opened SchedTheorems
  import opened SchedHistory
  import SchedSteps

  // ---- Going on or not ----------------------------------------------------------------

  /** The case need not wait: a receive finds a value, a sender or a closed channel; a send a
      receiver, room, or a closed channel, on which it faults. */
  ghost predicate CanGo(w: World, cs: Case) {
    match cs
    case DefaultCase => false
    case RecvCase(c) => c < |w.chans| && var ch := w.chans[c]; ch.buf != [] || LiveQ(ch.sends, w.sels) != [] || ch.closed
    case SendCase(c, _) => c < |w.chans| && var ch := w.chans[c]; ch.closed || LiveQ(ch.recvs, w.sels) != [] || |ch.buf| < ch.cap
  }

  ghost predicate Faults(w: World, cs: Case) { cs.SendCase? && cs.c < |w.chans| && w.chans[cs.c].closed }

  /** w' differs from w in stale entries at most, as far as a case can tell. */
  ghost predicate SameWays(w: World, w': World) {
    && w'.sels == w.sels && |w'.chans| == |w.chans|
    && forall c :: 0 <= c < |w.chans| ==> SameWay(w.chans[c], w'.chans[c], w.sels)
  }

  ghost predicate SameWay(ch: Chan, ch': Chan, sels: seq<Sel>) {
    && ch'.buf == ch.buf && ch'.cap == ch.cap && ch'.closed == ch.closed
    && LiveQ(ch'.sends, sels) == LiveQ(ch.sends, sels) && LiveQ(ch'.recvs, sels) == LiveQ(ch.recvs, sels)
  }

  lemma StillSameWays(w: World, w1: World, w': World)
    requires SameWays(w, w1) && SameWays(w1, w')
    ensures SameWays(w, w')
  {
    forall c | 0 <= c < |w.chans| ensures SameWay(w.chans[c], w'.chans[c], w.sels) {
      assert SameWay(w.chans[c], w1.chans[c], w.sels) && SameWay(w1.chans[c], w'.chans[c], w1.sels);
    }
  }

  lemma SameWaysGo(w: World, w': World, cs: Case)
    requires SameWays(w, w')
    ensures CanGo(w', cs) <==> CanGo(w, cs)
    ensures Faults(w', cs) <==> Faults(w, cs)
  {
    if !cs.DefaultCase? && cs.c < |w.chans| { assert SameWay(w.chans[cs.c], w'.chans[cs.c], w.sels); }
  }

  lemma NoneLive(q: seq<Waiter>, sels: seq<Sel>)
    ensures DropStale(q, sels) == [] <==> LiveQ(q, sels) == []
  {
    var k := DropStaleTrims(q, sels);
    StalePrefix(q, k, sels);
    if LiveQ(q, sels) != [] { FirstLive(q, sels); }
  }

  lemma TrySendGoes(w: World, c: nat, g: Gid, v: Value)
    requires c < |w.chans|
    ensures var r := TrySend(w, c, g, v);
      && (r.Failed? <==> Faults(w, SendCase(c, v)))
      && (r.Blocked? <==> !CanGo(w, SendCase(c, v)))
      && (r.Blocked? ==> SameWays(w, r.w) && r.w.stack == w.stack)
  {
    NoneLive(w.chans[c].recvs, w.sels);
  }

  lemma TryRecvGoes(w: World, c: nat, g: Gid)
    requires c < |w.chans|
    ensures var r := TryRecv(w, c, g);
      && (r.Empty? <==> !CanGo(w, RecvCase(c)))
      && (r.Empty? ==> SameWays(w, r.w))
  {
    NoneLive(w.chans[c].sends, w.sels);
  }

  /** A send faults if and only if the channel is closed; it parks if and only if the channel
      is open and full and nobody live waits to receive; otherwise it is accepted. */
  lemma SendsExactly(w: World, c: nat, v: Value)
    requires Reachable(w) && Active(w) && c < |w.chans|
    ensures match DoSend(w, c, v)
      case Crash(f) => f == SendOnClosed && w.chans[c].closed
      case Next(w') =>
        var g, h := Top(w).g, w.chans[c].hist;
        && !w.chans[c].closed && g < |w'.gs| && c < |w'.chans|
        && if CanGo(w, SendCase(c, v)) then
             w'.stack == w.stack && w'.gs[g].last == Sent && w'.chans[c].hist.settled == h.settled + [Waiter(g, v, Plain)]
           else
             && w'.stack == w.stack[..|w.stack|-1] && w'.gs[g].at == AtSend(c) && w'.ready == w.ready
             && w'.chans[c].hist == h.(offers := h.offers + [Waiter(g, v, Plain)])
  {
    ReachableInv(w);
    SchedSteps.TopIsFree(w);
    TrySendGoes(w, c, Top(w).g, v);
    TrySendOffers(w, c, Top(w).g, v);
    SendOutcome(w, c, v);
  }

  lemma SendOutcome(w: World, c: nat, v: Value)
    requires Active(w) && c < |w.chans| && Top(w).g < |w.gs|
    ensures match TrySend(w, c, Top(w).g, v)
      case Failed => DoSend(w, c, v) == Crash(SendOnClosed)
      case Done(w1) => DoSend(w, c, v).Next? && var w' := DoSend(w, c, v).w;
        w'.stack == w.stack && |w'.gs| == |w.gs| && w'.gs[Top(w).g].last == Sent && w'.chans == w1.chans && |w1.chans| == |w.chans|
      case Blocked(w1) => DoSend(w, c, v).Next? && var w', h := DoSend(w, c, v).w, w.chans[c].hist;
        && w'.stack == w.stack[..|w.stack|-1] && |w'.gs| == |w.gs| && w'.gs[Top(w).g].at == AtSend(c) && w'.ready == w.ready
        && |w'.chans| == |w.chans| && w'.chans[c].hist == h.(offers := h.offers + [Waiter(Top(w).g, v, Plain)])
  {
  }

  // ---- Select --------------------------------------------------------------------------------

  /** Case i is the first that need not wait. */
  ghost predicate FirstToGo(w: World, cases: seq<Case>, i: int) {
    0 <= i < |cases| && CanGo(w, cases[i]) && forall j :: 0 <= j < i ==> !CanGo(w, cases[j])
  }

  ghost predicate FirstDefault(cases: seq<Case>, i: int) {
    0 <= i < |cases| && cases[i].DefaultCase? && forall j :: 0 <= j < i ==> !cases[j].DefaultCase?
  }

  /** What trying the cases from i on says of the world w0 the select found. */
  ghost predicate GoesAs(w0: World, cases: seq<Case>, r: Choice) {
    match r
    case Aborted => exists k :: FirstToGo(w0, cases, k) && Faults(w0, cases[k])
    case Chosen(_, k, _) => FirstToGo(w0, cases, k) && !Faults(w0, cases[k])
    case NoneReady(_) => forall j :: 0 <= j < |cases| ==> !CanGo(w0, cases[j])
  }

  lemma {:induction false} TryCasesGoes(w0: World, w: World, g: Gid, cases: seq<Case>, i: nat)
    requires SameWays(w0, w) && CasesOk(w, cases) && i <= |cases| && forall j :: 0 <= j < i ==> !CanGo(w0, cases[j])
    ensures GoesAs(w0, cases, TryCases(w, g, cases, i))
    decreases |cases| - i
  {
    if i < |cases| {
      match cases[i]
      case DefaultCase => TryCasesGoes(w0, w, g, cases, i + 1);
      case RecvCase(c) => RecvCaseGoes(w0, w, g, cases, i, c);
      case SendCase(c, v) => SendCaseGoes(w0, w, g, cases, i, c, v);
    }
  }

  lemma {:induction false} RecvCaseGoes(w0: World, w: World, g: Gid, cases: seq<Case>, i: nat, c: nat)
    requires SameWays(w0, w) && CasesOk(w, cases) && i < |cases| && forall j :: 0 <= j < i ==> !CanGo(w0, cases[j])
    requires cases[i] == RecvCase(c)
    ensures GoesAs(w0, cases, TryCases(w, g, cases, i))
    decreases |cases| - i, 0
  {
    SameWaysGo(w0, w, cases[i]);
    TryRecvGoes(w, c, g);
    var r := TryRecv(w, c, g);
    if r.Empty? { StillSameWays(w0, w, r.w); TryCasesGoes(w0, r.w, g, cases, i + 1); }
  }

  lemma {:induction false} SendCaseGoes(w0: World, w: World, g: Gid, cases: seq<Case>, i: nat, c: nat, v: Value)
    requires SameWays(w0, w) && CasesOk(w, cases) && i < |cases| && forall j :: 0 <= j < i ==> !CanGo(w0, cases[j])
    requires cases[i] == SendCase(c, v)
    ensures GoesAs(w0, cases, TryCases(w, g, cases, i))
    decreases |cases| - i, 0
  {
    SameWaysGo(w0, w, cases[i]);
    TrySendGoes(w, c, g, v);
    var r := TrySend(w, c, g, v);
    if r.Failed? { assert FirstToGo(w0, cases, i); }
    if r.Blocked? { StillSameWays(w0, w, r.w); TryCasesGoes(w0, r.w, g, cases, i + 1); }
  }

  lemma {:induction false} DefaultIsFirst(cases: seq<Case>, i: nat)
    requires i <= |cases| && forall j :: 0 <= j < i ==> !cases[j].DefaultCase?
    ensures var d := DefaultFrom(cases, i);
      if d >= 0 then FirstDefault(cases, d) else forall j :: 0 <= j < |cases| ==> !cases[j].DefaultCase?
    decreases |cases| - i
  {
    if i < |cases| && !cases[i].DefaultCase? { DefaultIsFirst(cases, i + 1); }
  }

  /** A select goes on with the first case that need not wait, and faults if that is a send on
      a closed channel; with no such case it takes the first default; with no default either,
      and only then, it parks. */
  lemma SelectPicksTheFirst(w: World, cases: seq<Case>)
    requires Reachable(w) && Active(w) && CasesOk(w, cases)
    ensures match DoSelect(w, cases)
      case Crash(f) => f == SendOnClosed && exists i :: FirstToGo(w, cases, i) && Faults(w, cases[i])
      case Next(w') =>
        var g := Top(w).g;
        && g < |w'.gs|
        && if w'.stack == w.stack then
             && w'.gs[g].last.Picked? && var i := w'.gs[g].last.idx;
             || (FirstToGo(w, cases, i) && !Faults(w, cases[i]))
             || (FirstDefault(cases, i) && forall j :: 0 <= j < |cases| ==> !CanGo(w, cases[j]))
           else
             && w'.stack == w.stack[..|w.stack|-1] && w'.gs[g].at == AtSelect(|w.sels|)
             && forall j :: 0 <= j < |cases| ==> !CanGo(w, cases[j]) && !cases[j].DefaultCase?
  {
    ReachableInv(w);
    SchedSteps.TopIsFree(w);
    TryCasesGoes(w, w, Top(w).g, cases, 0);
    DefaultIsFirst(cases, 0);
    SelectOutcome(w, cases);
  }

  lemma SelectOutcome(w: World, cases: seq<Case>)
    requires Active(w) && CasesOk(w, cases) && Top(w).g < |w.gs|
    ensures match TryCases(w, Top(w).g, cases, 0)
      case Aborted => DoSelect(w, cases) == Crash(SendOnClosed)
      case Chosen(_, i, ws) => DoSelect(w, cases).Next? && var w' := DoSelect(w, cases).w;
        w'.stack == w.stack && |w'.gs| == |w.gs| && w'.gs[Top(w).g].last == Picked(i, ws)
      case NoneReady(_) => DoSelect(w, cases).Next? && var w' := DoSelect(w, cases).w;
        && |w'.gs| == |w.gs|
        && if DefaultFrom(cases, 0) >= 0 then w'.stack == w.stack && w'.gs[Top(w).g].last == Picked(DefaultFrom(cases, 0), [])
           else w'.stack == w.stack[..|w.stack|-1] && w'.gs[Top(w).g].at == AtSelect(|w.sels|)
  {
  }

  // ---- Turns ---------------------------------------------------------------------------------

  /** How many times a goroutine is resumed in a run. */
  ghost function Turns(run: seq<Action>): nat {
    if run == [] then 0 else (if run[0].AResume? then 1 else 0) + Turns(run[1..])
  }

  lemma TryQueues(w: World, c: nat, g: Gid, v: Value)
    requires c < |w.chans|
    ensures w.ready <= TryRecv(w, c, g).w.ready
    ensures !TrySend(w, c, g, v).Failed? ==> w.ready <= TrySend(w, c, g, v).w.ready
  {
  }

  lemma {:induction false} TryCasesQueues(w: World, g: Gid, cases: seq<Case>, i: nat)
    requires CasesOk(w, cases) && i <= |cases|
    ensures !TryCases(w, g, cases, i).Aborted? ==> w.ready <= TryCases(w, g, cases, i).w.ready
    decreases |cases| - i
  {
    if i < |cases| {
      match cases[i]
      case DefaultCase => TryCasesQueues(w, g, cases, i + 1);
      case RecvCase(c) =>
        TryQueues(w, c, g, ZERO);
        if TryRecv(w, c, g).Empty? { TryCasesQueues(TryRecv(w, c, g).w, g, cases, i + 1); }
      case SendCase(c, v) =>
        TryQueues(w, c, g, v);
        if TrySend(w, c, g, v).Blocked? { TryCasesQueues(TrySend(w, c, g, v).w, g, cases, i + 1); }
    }
  }

  lemma {:induction false} CloseRecvsQueues(w: World, c: nat)
    requires c < |w.chans|
    ensures w.ready <= CloseRecvs(w, c).ready
    decreases |w.chans[c].recvs|
  {
    if w.chans[c].recvs != [] { CloseRecvsQueues(CloseRecv(w, c), c); }
  }

  lemma {:induction false} CloseSendsQueues(w: World, c: nat)
    requires c < |w.chans|
    ensures w.ready <= CloseSends(w, c).ready
    decreases |w.chans[c].sends|
  {
    if w.chans[c].sends != [] { CloseSendsQueues(CloseSend(w, c), c); }
  }

  lemma SelectQueues(w: World, w': World, cases: seq<Case>)
    requires Active(w) && CasesOk(w, cases) && DoSelect(w, cases) == Next(w')
    ensures w.ready <= w'.ready
  {
    TryCasesQueues(w, Top(w).g, cases, 0);
  }

  /** Only a resume takes anybody off the ready queue, its head; others join at the end. */
  lemma StepQueues(w: World, w': World, a: Action)
    requires Enabled(w, a) && Step(w, a) == Next(w')
    ensures if a.AResume? then w.ready != [] && w'.ready == w.ready[1..] else w.ready <= w'.ready
  {
    match a
    case ASend(c, v) => TryQueues(w, c, Top(w).g, v);
    case ARecv(c) => TryQueues(w, c, Top(w).g, ZERO);
    case ASelect(cases) => SelectQueues(w, w', cases);
    case AClose(c) =>
      var w1 := SetChan(w, c, w.chans[c].(closed := true));
      CloseRecvsQueues(w1, c);
      CloseSendsQueues(CloseRecvs(w1, c), c);
    case _ =>
  }

  lemma {:induction false} RunQueues(w: World, run: seq<Action>, w': World)
    requires Reaches(w, run, w') && Turns(run) <= |w.ready|
    ensures w.ready[Turns(run)..] <= w'.ready
    decreases |run|
  {
    if run != [] {
      var w1 := Step(w, run[0]).w;
      StepQueues(w, w1, run[0]);
      RunQueues(w1, run[1..], w');
    }
  }

  /** The goroutine k places from the head of the ready queue is the next to run after exactly
      k others have been resumed, whatever else happens. */
  lemma EverybodyGetsATurn(w: World, k: nat, run: seq<Action>, w': World)
    requires k < |w.ready| && Reaches(w, run, w') && Turns(run) == k
    ensures w'.ready != [] && w'.ready[0] == w.ready[k]
    ensures w.ready[k] < |w'.gs| && DoResume(w').Next? ==> DoResume(w').w.stack == w'.stack + [Frame(w.ready[k], None)]
  {
    RunQueues(w, run, w');
    assert w.ready[k..][0] == w.ready[k];
  }
}
