/** The invariant of the goroutine runtime, in three parts: who wakes whom
    (Core), what a queue's contents say about its buffer (Queues), and where every
    offered value went (Histories). */
module SchedInvariant {
  import opened SchedModel

  // ---- Wake sources, counted ---------------------------------------------------

  ghost function PlainQ(q: seq<Waiter>): multiset<Gid> {
    if q == [] then multiset{}
    else (if q[0].tk.Plain? then multiset{q[0].g} else multiset{}) + PlainQ(q[1..])
  }

  ghost function PlainIn(ch: Chan): multiset<Gid> {
    PlainQ(ch.recvs) + PlainQ(ch.sends)
  }

  /** The goroutines parked by a plain send or receive, once per queue entry. */
  ghost function PlainAll(chans: seq<Chan>): multiset<Gid> {
    if chans == [] then multiset{} else PlainAll(chans[..|chans|-1]) + PlainIn(chans[|chans|-1])
  }

  ghost function LiveOf(s: Sel): multiset<Gid> {
    if s.cancelled then multiset{} else multiset{s.owner}
  }

  /** The owners of selects nobody has completed. */
  ghost function LiveAll(sels: seq<Sel>): multiset<Gid> {
    if sels == [] then multiset{} else LiveAll(sels[..|sels|-1]) + LiveOf(sels[|sels|-1])
  }

  ghost function CountOf(s: Sel): nat { if s.counted then 1 else 0 }

  /** The selects still counted in `parked`. */
  ghost function CountedAll(sels: seq<Sel>): nat {
    if sels == [] then 0 else CountedAll(sels[..|sels|-1]) + CountOf(sels[|sels|-1])
  }

  ghost function PendingOf(c: Call): multiset<Gid> {
    if c.done then multiset{} else multiset{c.owner}
  }

  /** The goroutines waiting for a host call. */
  ghost function PendingAll(calls: seq<Call>): multiset<Gid> {
    if calls == [] then multiset{} else PendingAll(calls[..|calls|-1]) + PendingOf(calls[|calls|-1])
  }

  /** The goroutines being resumed right now. */
  ghost function StackAll(stack: seq<Frame>): multiset<Gid> {
    if stack == [] then multiset{} else StackAll(stack[..|stack|-1]) + multiset{stack[|stack|-1].g}
  }

  ghost function Unfinished(gs: seq<Goroutine>): set<Gid> {
    set g: nat | g < |gs| && !gs[g].done
  }

  /** Everything that can make a goroutine run again, with multiplicity. */
  ghost function Sources(w: World): multiset<Gid> {
    StackAll(w.stack) + multiset(w.ready) + PlainAll(w.chans) + LiveAll(w.sels) + PendingAll(w.calls)
  }

  // ---- The invariant ---------------------------------------------------------

  /** A queue entry of channel c says truthfully who parked it and for what. */
  ghost predicate WaiterOk(x: Waiter, cs: Case, at: Await, w: World) {
    match x.tk
    case Plain => x.g < |w.gs| && w.gs[x.g].at == at
    case OfSelect(t, i) => t < |w.sels| && i < |w.sels[t].cases| && w.sels[t].cases[i] == cs && w.sels[t].owner == x.g
  }

  ghost predicate RecvsOk(w: World, c: nat, q: seq<Waiter>) {
    forall x :: x in q ==> WaiterOk(x, RecvCase(c), AtRecv(c), w) && x.v == ZERO
  }

  /** No select case appears twice. */
  ghost predicate Distinct(q: seq<Waiter>) {
    forall j, k :: 0 <= j < k < |q| && q[j].tk.OfSelect? ==> q[j].tk != q[k].tk
  }

  ghost predicate SendsOk(w: World, c: nat, q: seq<Waiter>) {
    && (forall x :: x in q ==> WaiterOk(x, SendCase(c, x.v), AtSend(c), w))
    && Distinct(q)
  }

  /** Case i of select t still stands in its channel's queue. */
  ghost predicate Enrolled(w: World, t: nat, i: nat)
    requires t < |w.sels| && i < |w.sels[t].cases|
  {
    var s := w.sels[t];
    match s.cases[i]
    case DefaultCase => true
    case RecvCase(c) => c < |w.chans| && Entry(s.owner, t, i, s.cases[i]) in w.chans[c].recvs
    case SendCase(c, _) => c < |w.chans| && Entry(s.owner, t, i, s.cases[i]) in w.chans[c].sends
  }

  /** The result a completed select will report: one of its own communication
      cases, and a write through that case's destination or none at all. */
  ghost predicate Decided(s: Sel) {
    && 0 <= s.winner < |s.cases|
    && match s.cases[s.winner]
       case DefaultCase => false
       case RecvCase(_) => |s.writes| == 1 && s.writes[0].idx == s.winner
       case SendCase(_, _) => s.writes == []
  }

  ghost predicate SelOk(w: World, t: nat)
    requires t < |w.sels|
  {
    var s := w.sels[t];
    && s.owner < |w.gs|
    && (s.counted ==> w.gs[s.owner].at == AtSelect(t))
    && (s.cancelled ==> Decided(s))
    && (!s.cancelled ==> s.counted && s.winner == -1 && s.writes == [] && DefaultFrom(s.cases, 0) < 0)
    && (!s.cancelled ==> forall i: nat :: i < |s.cases| ==> Enrolled(w, t, i))
  }

  ghost predicate GoroutineOk(w: World, g: Gid)
    requires g < |w.gs|
  {
    && (w.gs[g].done ==> w.gs[g].at == Running)
    && (w.gs[g].at.AtSelect? ==> w.gs[g].at.t < |w.sels| && w.sels[w.gs[g].at.t].owner == g
                                 && w.sels[w.gs[g].at.t].counted)
  }

  ghost predicate CallOk(w: World, id: nat)
    requires id < |w.calls|
  {
    w.calls[id].owner < |w.gs| && (!w.calls[id].done ==> w.gs[w.calls[id].owner].at == AtHost(id))
  }

  /** Every frame below the top is inside RunUntil, and the helper a frame waits
      for was started after that frame and everything below it. */
  ghost predicate FrameOk(w: World, i: nat)
    requires i < |w.stack|
  {
    var f := w.stack[i];
    && f.g < |w.gs| && w.gs[f.g].at == Running
    && (i < |w.stack| - 1 ==> f.pump.Some?)
    && (f.pump.Some? ==> f.pump.value < |w.gs| && forall j :: 0 <= j <= i ==> w.stack[j].g != f.pump.value)
  }

  ghost predicate Refs(w: World) {
    forall c :: 0 <= c < |w.chans| ==> RecvsOk(w, c, w.chans[c].recvs) && SendsOk(w, c, w.chans[c].sends)
  }

  ghost predicate Selects(w: World) {
    forall t :: 0 <= t < |w.sels| ==> SelOk(w, t)
  }

  ghost predicate Goroutines(w: World) {
    && (forall g :: 0 <= g < |w.gs| ==> GoroutineOk(w, g))
    && (forall id :: 0 <= id < |w.calls| ==> CallOk(w, id))
    && (forall i :: 0 <= i < |w.stack| ==> FrameOk(w, i))
  }

  /** Each unfinished goroutine has exactly one wake source and nobody else has
      any; `parked` counts the queued plain waiters and the counted selects. */
  ghost predicate Counts(w: World) {
    && Sources(w) == multiset(Unfinished(w.gs))
    && w.parked == |PlainAll(w.chans)| + CountedAll(w.sels)
  }

  ghost predicate Core(w: World) {
    Refs(w) && Selects(w) && Goroutines(w) && Counts(w)
  }

  ghost predicate Live(sels: seq<Sel>, x: Waiter) { !Cancelled(sels, x.tk) }

  /** The channel invariant: a live sender means a full buffer, a live receiver an
      empty one; both at once only within one select; none at all once closed. */
  ghost predicate QueueOk(ch: Chan, sels: seq<Sel>) {
    && |ch.buf| <= ch.cap
    && (forall s :: s in ch.sends && Live(sels, s) ==> |ch.buf| == ch.cap && !ch.closed)
    && (forall r :: r in ch.recvs && Live(sels, r) ==> ch.buf == [] && !ch.closed)
    && (forall r, s :: r in ch.recvs && Live(sels, r) && s in ch.sends && Live(sels, s)
          ==> r.tk.OfSelect? && s.tk.OfSelect? && r.tk.t == s.tk.t)
  }

  ghost predicate Queues(w: World) {
    forall c :: 0 <= c < |w.chans| ==> QueueOk(w.chans[c], w.sels)
  }

  /** An offer is withdrawn when its select completed with another case. */
  ghost predicate Kept(sels: seq<Sel>, x: Waiter) {
    !Cancelled(sels, x.tk) || sels[x.tk.t].winner == x.tk.idx
  }

  ghost function KeptOf(q: seq<Waiter>, sels: seq<Sel>): seq<Waiter> {
    if q == [] then [] else (if Kept(sels, q[0]) then [q[0]] else []) + KeptOf(q[1..], sels)
  }

  ghost function LiveQ(q: seq<Waiter>, sels: seq<Sel>): seq<Waiter> {
    if q == [] then [] else (if Live(sels, q[0]) then [q[0]] else []) + LiveQ(q[1..], sels)
  }

  ghost function Values(q: seq<Waiter>): seq<Value> {
    if q == [] then [] else [q[0].v] + Values(q[1..])
  }

  ghost function Amounts(ds: seq<Delivery>): seq<Value> {
    if ds == [] then [] else [ds[0].v] + Amounts(ds[1..])
  }

  /** The offer's fate is final: it is plain or its select chose exactly it. */
  ghost predicate Final(sels: seq<Sel>, x: Waiter) {
    x.tk.OfSelect? ==> x.tk.t < |sels| && sels[x.tk.t].cancelled && sels[x.tk.t].winner == x.tk.idx
  }

  ghost predicate HistoryOk(ch: Chan, sels: seq<Sel>) {
    var h := ch.hist;
    && (forall x :: x in h.offers && x.tk.OfSelect? ==> x.tk.t < |sels|)
    && (forall x :: x in h.settled ==> Final(sels, x))
    && (forall x :: x in h.dropped ==> Final(sels, x))
    && Distinct(h.settled + h.dropped)
    && KeptOf(h.offers, sels) == h.settled + h.dropped + LiveQ(ch.sends, sels)
    && Values(h.settled) == Amounts(h.delivered) + ch.buf
    && (h.dropped != [] ==> ch.closed)
  }

  ghost predicate Histories(w: World) {
    forall c :: 0 <= c < |w.chans| ==> HistoryOk(w.chans[c], w.sels)
  }

  ghost predicate Inv(w: World) {
    Core(w) && Queues(w) && Histories(w)
  }
}
