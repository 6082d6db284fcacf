/** The value-level model of the goroutine runtime: channels, select awaiters,
    the ready queue, the `parked` counter and pending host calls. One function
    per runtime entry point, one atomic step per call; the class in
    SchedRuntime.dfy performs the same steps in place. */
module SchedModel {
  import opened Wrappers

  /** A goroutine, a channel, a select awaiter and a host call are all named by
      their creation index. Channel elements are integers: nothing here looks
      inside them, and ZERO is the zero value a closed channel yields. */
  type Gid = nat
  type Value = int
  const ZERO: Value := 0


  /** What a parked waiter shares with its siblings: nothing for a plain send or
      receive, or the select awaiter it belongs to and the case it stands for. */
  datatype Ticket = Plain | OfSelect(t: nat, idx: nat)

  /** A parked receiver (v is ZERO) or sender (v is the value it offers). */
  datatype Waiter = Waiter(g: Gid, v: Value, tk: Ticket)

  datatype Delivery = Delivery(to: Gid, v: Value)

  /** What has happened on a channel so far. No operation reads it.
      offers    every value offered, in order: sent, buffered or parked
      settled   the offers that were accepted (buffered or handed over)
      delivered the values that reached a receiver
      dropped   the parked offers that close() discarded */
  datatype History = History(offers: seq<Waiter>, settled: seq<Waiter>,
                             delivered: seq<Delivery>, dropped: seq<Waiter>)

  const NO_HISTORY := History([], [], [], [])

  datatype Chan = Chan(cap: nat, closed: bool, buf: seq<Value>,
                       recvs: seq<Waiter>, sends: seq<Waiter>, hist: History)

  datatype Case = RecvCase(c: nat) | SendCase(c: nat, v: Value) | DefaultCase

  /** One write through a select receive case's destination pointers. */
  datatype Write = Write(idx: nat, v: Value, ok: bool)

  /** A select that has parked: the shared cancel flag and winner, whether its
      goroutine still counts in `parked`, and the writes made through its cases. */
  datatype Sel = Sel(owner: Gid, cases: seq<Case>, cancelled: bool, winner: int,
                     counted: bool, writes: seq<Write>)

  /** Where a goroutine's coroutine is suspended. */
  datatype Await = Running | AtStart | AtCall | AtSend(c: nat) | AtRecv(c: nat)
                 | AtSelect(t: nat) | AtHost(id: nat)

  /** What the goroutine's last completed operation gave it. */
  datatype Outcome = Nothing | Sent | Received(v: Value, ok: bool) | Picked(idx: int, writes: seq<Write>)

  datatype Goroutine = Goroutine(at: Await, done: bool, last: Outcome)

  datatype Call = Call(owner: Gid, done: bool)

  /** One resume on the C++ stack; `pump` is the helper goroutine it waits for
      inside RunUntil, if it is in there. */
  datatype Frame = Frame(g: Gid, pump: Option<Gid>)

  datatype World = World(chans: seq<Chan>, sels: seq<Sel>, gs: seq<Goroutine>,
                         ready: seq<Gid>, parked: int, calls: seq<Call>, stack: seq<Frame>)

  const EMPTY_WORLD := World([], [], [], [], 0, [], [])

  datatype Fault = SendOnClosed | CloseOfClosed | NegativeCap
  datatype Result = Next(w: World) | Crash(fault: Fault)

  /** What a channel operation never touches: the tables' sizes and the resumes
      in progress. */
  predicate SameShape(w: World, w': World) {
    && |w'.chans| == |w.chans| && |w'.sels| == |w.sels| && |w'.gs| == |w.gs|
    && w'.calls == w.calls && w'.stack == w.stack
  }

  // ---- Waiters -------------------------------------------------------------

  predicate Cancelled(sels: seq<Sel>, tk: Ticket) {
    tk.OfSelect? && tk.t < |sels| && sels[tk.t].cancelled
  }

  /** The queue without the stale entries at its front. */
  function DropStale(q: seq<Waiter>, sels: seq<Sel>): seq<Waiter> {
    if q == [] then [] else if Cancelled(sels, q[0].tk) then DropStale(q[1..], sels) else q
  }

  /** Marks the waiter's select, if it has one, as won by this waiter. */
  function Claim(sels: seq<Sel>, tk: Ticket, writes: seq<Write>): seq<Sel> {
    if tk.OfSelect? && tk.t < |sels| then
      sels[tk.t := sels[tk.t].(cancelled := true, winner := tk.idx, writes := sels[tk.t].writes + writes)]
    else sels
  }

  function SetLast(w: World, g: Gid, out: Outcome): World {
    if g < |w.gs| then w.(gs := w.gs[g := w.gs[g].(last := out)]) else w
  }

  /** complete_recv: hand (v, ok) to a parked receiver and make it ready. */
  function CompleteRecv(w: World, r: Waiter, v: Value, ok: bool): (w': World)
    ensures SameShape(w, w') && w'.chans == w.chans
  {
    if Cancelled(w.sels, r.tk) then w else
    match r.tk
    case Plain =>
      SetLast(w, r.g, Received(v, ok)).(parked := w.parked - 1, ready := w.ready + [r.g])
    case OfSelect(_, idx) =>
      w.(sels := Claim(w.sels, r.tk, [Write(idx, v, ok)]), ready := w.ready + [r.g])
  }

  /** complete_send: tell a parked sender that its value has been taken. */
  function CompleteSend(w: World, s: Waiter): (w': World)
    ensures SameShape(w, w') && w'.chans == w.chans && w'.gs == w.gs
  {
    if Cancelled(w.sels, s.tk) then w else
    match s.tk
    case Plain => w.(parked := w.parked - 1, ready := w.ready + [s.g])
    case OfSelect(_, _) => w.(sels := Claim(w.sels, s.tk, []), ready := w.ready + [s.g])
  }

  function SetChan(w: World, c: nat, ch: Chan): World
    requires c < |w.chans|
  {
    w.(chans := w.chans[c := ch])
  }

  // ---- One channel operation -------------------------------------------------

  datatype Tried = Done(w: World) | Blocked(w: World) | Failed

  /** try_send_locked by goroutine g. */
  function TrySend(w: World, c: nat, g: Gid, v: Value): (r: Tried)
    requires c < |w.chans|
    ensures !r.Failed? ==> SameShape(w, r.w)
  {
    var ch := w.chans[c];
    if ch.closed then Failed else
    var rs := DropStale(ch.recvs, w.sels);
    var offer := Waiter(g, v, Plain);
    var taken := ch.hist.(offers := ch.hist.offers + [offer], settled := ch.hist.settled + [offer]);
    if rs != [] then
      var h := taken.(delivered := taken.delivered + [Delivery(rs[0].g, v)]);
      Done(CompleteRecv(SetChan(w, c, ch.(recvs := rs[1..], hist := h)), rs[0], v, true))
    else if |ch.buf| < ch.cap then
      Done(SetChan(w, c, ch.(recvs := [], buf := ch.buf + [v], hist := taken)))
    else
      Blocked(SetChan(w, c, ch.(recvs := [])))
  }

  datatype Got = Got(w: World, v: Value, ok: bool) | Empty(w: World)

  /** try_recv_locked by goroutine g. */
  function TryRecv(w: World, c: nat, g: Gid): (r: Got)
    requires c < |w.chans|
    ensures SameShape(w, r.w)
  {
    var ch := w.chans[c];
    var ss := DropStale(ch.sends, w.sels);
    if ch.buf != [] then
      var v := ch.buf[0];
      var h := ch.hist.(delivered := ch.hist.delivered + [Delivery(g, v)]);
      if ss != [] then
        var ch' := ch.(buf := ch.buf[1..] + [ss[0].v], sends := ss[1..],
                       hist := h.(settled := h.settled + [ss[0]]));
        Got(CompleteSend(SetChan(w, c, ch'), ss[0]), v, true)
      else
        Got(SetChan(w, c, ch.(buf := ch.buf[1..], sends := [], hist := h)), v, true)
    else if ss != [] then
      var h := ch.hist.(settled := ch.hist.settled + [ss[0]],
                        delivered := ch.hist.delivered + [Delivery(g, ss[0].v)]);
      Got(CompleteSend(SetChan(w, c, ch.(sends := ss[1..], hist := h)), ss[0]), ss[0].v, true)
    else if ch.closed then
      Got(SetChan(w, c, ch.(sends := [])), ZERO, false)
    else
      Empty(SetChan(w, c, ch.(sends := [])))
  }

  /** close()'s first loop: every live receiver gets the zero value. */
  function CloseRecvs(w: World, c: nat): (w': World)
    requires c < |w.chans|
    ensures SameShape(w, w')
    decreases |w.chans[c].recvs|
  {
    var ch := w.chans[c];
    if ch.recvs == [] then w else
    CloseRecvs(CompleteRecv(SetChan(w, c, ch.(recvs := ch.recvs[1..])), ch.recvs[0], ZERO, false), c)
  }

  /** The history of a channel whose parked offer s is discarded by close(). */
  function Drop(h: History, s: Waiter, sels: seq<Sel>): History {
    if Cancelled(sels, s.tk) then h else h.(dropped := h.dropped + [s])
  }

  /** One round of close()'s second loop. */
  function CloseSend(w: World, c: nat): (w': World)
    requires c < |w.chans| && w.chans[c].sends != []
    ensures SameShape(w, w') && |w'.chans[c].sends| < |w.chans[c].sends|
  {
    var ch := w.chans[c];
    var ch' := ch.(sends := ch.sends[1..], hist := Drop(ch.hist, ch.sends[0], w.sels));
    CompleteSend(SetChan(w, c, ch'), ch.sends[0])
  }

  /** close()'s second loop: every live sender is woken, its value discarded. */
  function CloseSends(w: World, c: nat): (w': World)
    requires c < |w.chans|
    ensures SameShape(w, w')
    decreases |w.chans[c].sends|
  {
    if w.chans[c].sends == [] then w else CloseSends(CloseSend(w, c), c)
  }

  function CloseChan(w: World, c: nat): World
    requires c < |w.chans| && !w.chans[c].closed
  {
    CloseSends(CloseRecvs(SetChan(w, c, w.chans[c].(closed := true)), c), c)
  }

  // ---- Select -----------------------------------------------------------------

  ghost predicate CasesOk(w: World, cases: seq<Case>) {
    forall i :: 0 <= i < |cases| && !cases[i].DefaultCase? ==> cases[i].c < |w.chans|
  }

  datatype Choice = Chosen(w: World, idx: nat, writes: seq<Write>) | NoneReady(w: World) | Aborted

  /** try_ready_locked's first loop, from case i on. */
  function TryCases(w: World, g: Gid, cases: seq<Case>, i: nat): (r: Choice)
    requires CasesOk(w, cases) && i <= |cases|
    ensures !r.Aborted? ==> SameShape(w, r.w)
    decreases |cases| - i
  {
    if i == |cases| then NoneReady(w) else
    match cases[i]
    case DefaultCase => TryCases(w, g, cases, i + 1)
    case RecvCase(c) =>
      (match TryRecv(w, c, g)
       case Got(w', v, ok) => Chosen(w', i, [Write(i, v, ok)])
       case Empty(w') => TryCases(w', g, cases, i + 1))
    case SendCase(c, v) =>
      (match TrySend(w, c, g, v)
       case Done(w') => Chosen(w', i, [])
       case Failed => Aborted
       case Blocked(w') => TryCases(w', g, cases, i + 1))
  }

  /** The first default case at or after i: its index, or -1. */
  function DefaultFrom(cases: seq<Case>, i: nat): int
    requires i <= |cases|
    decreases |cases| - i
  {
    if i == |cases| then -1 else if cases[i].DefaultCase? then i else DefaultFrom(cases, i + 1)
  }

  /** The case's entry in its channel's queue. */
  function Entry(g: Gid, t: nat, i: nat, cs: Case): Waiter {
    Waiter(g, if cs.SendCase? then cs.v else ZERO, OfSelect(t, i))
  }

  /** A waiter joins the receive queue. */
  function AddRecv(ch: Chan, r: Waiter): Chan {
    ch.(recvs := ch.recvs + [r])
  }

  /** A waiter joins the send queue: its value is on offer from now on. */
  function AddSend(ch: Chan, s: Waiter): Chan {
    ch.(sends := ch.sends + [s], hist := ch.hist.(offers := ch.hist.offers + [s]))
  }

  function ParkCases(w: World, g: Gid, t: nat, cases: seq<Case>, i: nat): (w': World)
    requires CasesOk(w, cases) && i <= |cases|
    ensures SameShape(w, w') && w' == w.(chans := w'.chans)
    decreases |cases| - i
  {
    if i == |cases| then w else
    var cs := cases[i];
    match cs
    case DefaultCase => ParkCases(w, g, t, cases, i + 1)
    case RecvCase(c) => ParkCases(SetChan(w, c, AddRecv(w.chans[c], Entry(g, t, i, cs))), g, t, cases, i + 1)
    case SendCase(c, _) => ParkCases(SetChan(w, c, AddSend(w.chans[c], Entry(g, t, i, cs))), g, t, cases, i + 1)
  }

  // ---- Goroutines and the scheduler --------------------------------------------

  function SetAt(w: World, g: Gid, at: Await): World {
    if g < |w.gs| then w.(gs := w.gs[g := w.gs[g].(at := at)]) else w
  }

  function Top(w: World): Frame
    requires w.stack != []
  {
    w.stack[|w.stack|-1]
  }

  /** No resume is inside RunUntil: ordinary code is executing. */
  predicate Executing(w: World) {
    w.stack != [] ==> Top(w).pump.None?
  }

  /** A goroutine is executing. */
  predicate Active(w: World) {
    w.stack != [] && Executing(w)
  }

  /** The scheduler loop has control: run() itself, or a RunUntil whose helper
      has not finished. */
  predicate Scheduling(w: World) {
    w.stack != [] ==> Top(w).pump.Some? && !(Top(w).pump.value < |w.gs| && w.gs[Top(w).pump.value].done)
  }

  function Pop(w: World): World
    requires w.stack != []
  {
    w.(stack := w.stack[..|w.stack|-1])
  }

  /** The running goroutine suspends at `at`; control goes back to the scheduler. */
  function Suspend(w: World, at: Await): World
    requires w.stack != []
  {
    Pop(SetAt(w, Top(w).g, at))
  }

  function DoSend(w: World, c: nat, v: Value): Result
    requires Active(w) && c < |w.chans|
  {
    var g := Top(w).g;
    match TrySend(w, c, g, v)
    case Failed => Crash(SendOnClosed)
    case Done(w') => Next(SetLast(w', g, Sent))
    case Blocked(w') =>
      var w'' := SetChan(w', c, AddSend(w'.chans[c], Waiter(g, v, Plain)));
      Next(Suspend(w''.(parked := w.parked + 1), AtSend(c)))
  }

  function DoRecv(w: World, c: nat): Result
    requires Active(w) && c < |w.chans|
  {
    var g := Top(w).g;
    match TryRecv(w, c, g)
    case Got(w', v, ok) => Next(SetLast(w', g, Received(v, ok)))
    case Empty(w') =>
      var w'' := SetChan(w', c, AddRecv(w'.chans[c], Waiter(g, ZERO, Plain)));
      Next(Suspend(w''.(parked := w.parked + 1), AtRecv(c)))
  }

  function DoClose(w: World, c: nat): Result
    requires c < |w.chans|
  {
    if w.chans[c].closed then Crash(CloseOfClosed) else Next(CloseChan(w, c))
  }

  function DoSelect(w: World, cases: seq<Case>): Result
    requires Active(w) && CasesOk(w, cases)
  {
    var g := Top(w).g;
    match TryCases(w, g, cases, 0)
    case Aborted => Crash(SendOnClosed)
    case Chosen(w', i, writes) => Next(SetLast(w', g, Picked(i, writes)))
    case NoneReady(w') =>
      var d := DefaultFrom(cases, 0);
      if d >= 0 then Next(SetLast(w', g, Picked(d, []))) else
      var t := |w'.sels|;
      var w'' := w'.(sels := w'.sels + [Sel(g, cases, false, -1, true, [])], parked := w'.parked + 1);
      Next(Suspend(ParkCases(w'', g, t, cases, 0), AtSelect(t)))
  }

  /** go f(): a new goroutine, queued behind the others. */
  function Spawn(w: World): World {
    w.(gs := w.gs + [Goroutine(AtStart, false, Nothing)], ready := w.ready + [|w.gs|])
  }

  function DoMakeChan(w: World, cap: int): Result {
    if cap < 0 then Crash(NegativeCap)
    else Next(w.(chans := w.chans + [Chan(cap, false, [], [], [], NO_HISTORY)]))
  }

  /** The running goroutine calls a coroutine function: the callee's frame goes to
      the back of the ready queue and runs there as part of the same goroutine. */
  function DoCall(w: World): World
    requires Active(w)
  {
    Suspend(w, AtCall).(ready := w.ready + [Top(w).g])
  }

  function DoHostCall(w: World): World
    requires Active(w)
  {
    Suspend(w, AtHost(|w.calls|)).(calls := w.calls + [Call(Top(w).g, false)])
  }

  function DoFinish(w: World): World
    requires Active(w)
  {
    var g := Top(w).g;
    Pop(if g < |w.gs| then w.(gs := w.gs[g := w.gs[g].(done := true)]) else w)
  }

  /** apply_completion: an unknown or already served id is ignored. */
  function HostDone(w: World, id: nat): World {
    if id < |w.calls| && !w.calls[id].done then
      w.(calls := w.calls[id := w.calls[id].(done := true)], ready := w.ready + [w.calls[id].owner])
    else w
  }

  /** A synchronous function runs an async deferred call: it spawns a helper and
      pumps the scheduler until the helper is done. */
  function PumpStart(w: World): World
    requires Active(w)
  {
    var n := |w.stack| - 1;
    Spawn(w).(stack := w.stack[n := w.stack[n].(pump := Some(|w.gs|))])
  }

  function PumpEnd(w: World): World
    requires w.stack != []
  {
    var n := |w.stack| - 1;
    w.(stack := w.stack[n := w.stack[n].(pump := None)])
  }

  /** What a resumed goroutine does first: the await_resume of its awaiter. */
  function AwaitResume(w: World, g: Gid): Result
    requires g < |w.gs|
  {
    match w.gs[g].at
    case AtSend(c) =>
      if c < |w.chans| && w.chans[c].closed then Crash(SendOnClosed) else Next(SetLast(w, g, Sent))
    case AtSelect(t) =>
      if t < |w.sels| then
        Next(SetLast(w, g, Picked(w.sels[t].winner, w.sels[t].writes))
               .(parked := w.parked - 1, sels := w.sels[t := w.sels[t].(counted := false)]))
      else Next(w)
    case _ => Next(w)
  }

  /** One turn of the scheduler loop: resume the goroutine at the head of the queue. */
  function DoResume(w: World): Result
    requires w.ready != [] && w.ready[0] < |w.gs|
  {
    var g := w.ready[0];
    match AwaitResume(w.(ready := w.ready[1..]), g)
    case Crash(f) => Crash(f)
    case Next(w') => Next(SetAt(w', g, Running).(stack := w'.stack + [Frame(g, None)]))
  }

  // ---- Runs -------------------------------------------------------------------

  datatype Action = ASpawn | AMakeChan(cap: int) | ASend(c: nat, v: Value) | ARecv(c: nat) | AClose(c: nat)
                  | ASelect(cases: seq<Case>) | ACall | AHostCall | AFinish
                  | APumpStart | APumpEnd | AResume | AHostDone(id: nat)

  /** When an action can happen. Programs name existing channels only; code that
      never suspends (go, make, close) may also run before the scheduler does. */
  ghost predicate Enabled(w: World, a: Action) {
    match a
    case ASpawn => Executing(w)
    case AMakeChan(_) => Executing(w)
    case AClose(c) => Executing(w) && c < |w.chans|
    case ASend(c, _) => Active(w) && c < |w.chans|
    case ARecv(c) => Active(w) && c < |w.chans|
    case ASelect(cases) => Active(w) && CasesOk(w, cases)
    case ACall => Active(w)
    case AHostCall => Active(w)
    case AFinish => Active(w)
    case APumpStart => Active(w)
    case APumpEnd => w.stack != [] && Top(w).pump.Some? && !Scheduling(w)
    case AResume => Scheduling(w) && w.ready != [] && w.ready[0] < |w.gs|
    case AHostDone(_) => Scheduling(w)
  }

  ghost function Step(w: World, a: Action): Result
    requires Enabled(w, a)
  {
    match a
    case ASpawn => Next(Spawn(w))
    case AMakeChan(n) => DoMakeChan(w, n)
    case AClose(c) => DoClose(w, c)
    case ASend(c, v) => DoSend(w, c, v)
    case ARecv(c) => DoRecv(w, c)
    case ASelect(cases) => DoSelect(w, cases)
    case ACall => Next(DoCall(w))
    case AHostCall => Next(DoHostCall(w))
    case AFinish => Next(DoFinish(w))
    case APumpStart => Next(PumpStart(w))
    case APumpEnd => Next(PumpEnd(w))
    case AResume => DoResume(w)
    case AHostDone(id) => Next(HostDone(w, id))
  }

  /** w leads to w' by the actions `run`, none of which crashes. */
  ghost predicate Reaches(w: World, run: seq<Action>, w': World)
    decreases |run|
  {
    if run == [] then w == w'
    else Enabled(w, run[0]) && Step(w, run[0]).Next? && Reaches(Step(w, run[0]).w, run[1..], w')
  }

  ghost predicate Reachable(w: World) {
    exists run :: Reaches(EMPTY_WORLD, run, w)
  }

  // ---- Verdicts ------------------------------------------------------------------

  datatype Verdict = GoOn | AwaitHost | Exit | PanicDeadlock

  predicate PendingHost(w: World) {
    exists id | 0 <= id < |w.calls| :: !w.calls[id].done
  }

  /** What Scheduler::run decides once control is back in its loop. */
  function RunVerdict(w: World): Verdict {
    if w.ready != [] then GoOn else if PendingHost(w) then AwaitHost
    else if w.parked > 0 then PanicDeadlock else Exit
  }

  /** What RunUntil decides while its helper is unfinished. */
  function PumpVerdict(w: World): Verdict {
    if w.ready != [] then GoOn else if PendingHost(w) then AwaitHost else PanicDeadlock
  }
}
