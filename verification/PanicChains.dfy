/** Panic frames of interleaved goroutines. Frames are memory cells linked through prev;
    every thread of control has a head, and current_vthread says whose head is meant. */
module PanicChains {
  import opened Wrappers

  type Fid = nat

  /** Code outside any goroutine, or a goroutine. */
  datatype Owner = Main | Routine(g: nat)

  datatype Frame = Frame(hasPending: bool, pending: int, recovered: bool, prev: Option<Fid>)

  /** What a thread of control does to its frames: a function with defers begins, panics
      directly, calls recover from a deferred call, or ends. */
  datatype Event = Enter | Raise(msg: int) | Recover | Exit

  /** What it sees of it. */
  datatype Reply = Recovered(value: Option<int>) | Unwound(msg: int)

  /** One owner: its open frames as its own call stack holds them, outermost first, and
      every event and reply so far. */
  datatype Thread = Thread(open: seq<Fid>, did: seq<Event>, got: seq<Reply>)

  const IDLE := Thread([], [], [])

  /** exec lists the owners on the C++ stack, the running one last. tags holds, for each
      suspended goroutine's handle, the VThread noted when it was spawned or parked. */
  datatype World = World(
    frames: map<Fid, Frame>, global: Option<Fid>, heads: map<nat, Option<Fid>>, current: Option<nat>, saved: seq<Option<nat>>,
    tags: map<nat, Option<nat>>, exec: seq<Owner>, threads: map<Owner, Thread>, dead: bool)

  const START := World(map[], None, map[], None, [], map[], [Main], map[], false)

  datatype Action = Spawn(g: nat) | Do(e: Event, f: Fid) | Resume(g: nat) | Suspend

  // ---- One thread alone --------------------------------------------------------------

  /** A frame without its link. */
  datatype Cell = Cell(hasPending: bool, pending: int, recovered: bool)

  datatype Alone = Alone(stack: seq<Cell>, got: seq<Reply>)

  predicate CanDo(depth: nat, e: Event) { e.Raise? || e.Exit? ==> depth > 0 }

  function DoAlone(a: Alone, e: Event): Alone
    requires CanDo(|a.stack|, e)
  {
    match e
    case Enter => a.(stack := a.stack + [Cell(false, 0, false)])
    case Raise(m) => a.(stack := a.stack[|a.stack|-1 := a.stack[|a.stack|-1].(hasPending := true, pending := m)])
    case Recover =>
      if a.stack == [] || !a.stack[|a.stack|-1].hasPending then a.(got := a.got + [Recovered(None)]) else
      var c := a.stack[|a.stack|-1];
      Alone(a.stack[|a.stack|-1 := Cell(false, c.pending, true)], a.got + [Recovered(Some(c.pending))])
    case Exit =>
      var c := a.stack[|a.stack|-1];
      Alone(a.stack[..|a.stack|-1], if c.hasPending && !c.recovered then a.got + [Unwound(c.pending)] else a.got)
  }

  /** The events one after the other, with nobody else around. */
  function RunAlone(es: seq<Event>): Option<Alone> {
    if es == [] then Some(Alone([], [])) else
    var a := RunAlone(es[..|es|-1]);
    if a.Some? && CanDo(|a.value.stack|, es[|es|-1]) then Some(DoAlone(a.value, es[|es|-1])) else None
  }

  // ---- The runtime -------------------------------------------------------------------

  /** current_panic_head(). */
  function Head(w: World): Option<Fid> {
    if w.current.Some? && w.current.value in w.heads then w.heads[w.current.value] else w.global
  }

  function SetHead(w: World, f: Option<Fid>): World {
    if w.current.Some? && w.current.value in w.heads then w.(heads := w.heads[w.current.value := f]) else w.(global := f)
  }

  function Running(w: World): Owner { if w.exec == [] then Main else w.exec[|w.exec|-1] }

  function Thr(w: World, o: Owner): Thread { if o in w.threads then w.threads[o] else IDLE }

  /** A goroutine is resumed while it is not on the stack already; an event needs a frame
      of the running owner, entering one needs memory nobody's frame occupies. */
  predicate Enabled(w: World, a: Action) {
    && !w.dead
    && match a
       case Spawn(g) => g !in w.heads
       case Do(e, f) =>
         var open := Thr(w, Running(w)).open;
         CanDo(|open|, e) && (if e.Enter? then f !in w.frames else e.Recover? || f == open[|open|-1])
       case Resume(g) => g in w.heads && Routine(g) !in w.exec
       case Suspend => |w.exec| > 1
  }

  /** PanicFrame's constructor. */
  function DoEnter(w: World, f: Fid): World {
    var t := Thr(w, Running(w));
    SetHead(w, Some(f)).(frames := w.frames[f := Frame(false, 0, false, Head(w))],
                         threads := w.threads[Running(w) := Thread(t.open + [f], t.did + [Enter], t.got)])
  }

  /** The panic statement writes to its own function's frame. */
  function DoRaise(w: World, f: Fid, m: int): World {
    var t := Thr(w, Running(w));
    if f !in w.frames then w else
    w.(frames := w.frames[f := w.frames[f].(hasPending := true, pending := m)],
       threads := w.threads[Running(w) := t.(did := t.did + [Raise(m)])])
  }

  /** recover() goes by the head. */
  function DoRecover(w: World): World {
    var t := Thr(w, Running(w));
    var h := Head(w);
    if h.None? || h.value !in w.frames || !w.frames[h.value].hasPending then
      w.(threads := w.threads[Running(w) := Thread(t.open, t.did + [Recover], t.got + [Recovered(None)])])
    else
      var c := w.frames[h.value];
      w.(frames := w.frames[h.value := c.(hasPending := false, recovered := true)],
         threads := w.threads[Running(w) := Thread(t.open, t.did + [Recover], t.got + [Recovered(Some(c.pending))])])
  }

  /** PanicFrame's destructor; an unrecovered panic ends the program. */
  function DoExit(w: World, f: Fid): World {
    var t := Thr(w, Running(w));
    if f !in w.frames || t.open == [] then w else
    var c := w.frames[f];
    var gone := c.hasPending && !c.recovered;
    SetHead(w, c.prev).(
      frames := w.frames - {f}, dead := gone,
      threads := w.threads[Running(w) :=
        Thread(t.open[..|t.open|-1], t.did + [Exit], if gone then t.got + [Unwound(c.pending)] else t.got)])
  }

  function Step(w: World, a: Action): World
    requires Enabled(w, a)
  {
    match a
    case Spawn(g) => w.(heads := w.heads[g := None], tags := w.tags[g := Some(g)])
    case Do(Enter, f) => DoEnter(w, f)
    case Do(Raise(m), f) => DoRaise(w, f, m)
    case Do(Recover, _) => DoRecover(w)
    case Do(Exit, f) => DoExit(w, f)
    case Resume(g) =>
      w.(saved := w.saved + [w.current], current := if g in w.tags then w.tags[g] else None, exec := w.exec + [Routine(g)])
    case Suspend =>
      w.(exec := w.exec[..|w.exec|-1],
         tags := if Running(w).Routine? then w.tags[Running(w).g := w.current] else w.tags,
         current := if w.saved == [] then None else w.saved[|w.saved|-1],
         saved := if w.saved == [] then [] else w.saved[..|w.saved|-1])
  }

  ghost predicate RunTo(w: World, acts: seq<Action>, w': World)
    decreases |acts|
  {
    if acts == [] then w' == w else Enabled(w, acts[0]) && RunTo(Step(w, acts[0]), acts[1..], w')
  }

  // ---- The invariant -----------------------------------------------------------------

  function Vt(o: Owner): Option<nat> { if o.Routine? then Some(o.g) else None }

  /** current_vthread names the running owner, and what was saved the ones below it. */
  ghost predicate Switched(w: World) {
    && |w.exec| == |w.saved| + 1 && w.exec[0] == Main
    && w.current == Vt(Running(w))
    && (forall i :: 0 <= i < |w.saved| ==> w.saved[i] == Vt(w.exec[i]))
    && (forall o :: o in w.exec && o.Routine? ==> o.g in w.heads)
    && (forall g :: g in w.heads ==> g in w.tags && w.tags[g] == Some(g))
  }

  function HeadOf(w: World, o: Owner): Option<Fid> {
    match o
    case Main => w.global
    case Routine(g) => if g in w.heads then w.heads[g] else None
  }

  /** Following prev from h visits exactly the given frames, innermost first. */
  ghost predicate Chain(frames: map<Fid, Frame>, h: Option<Fid>, open: seq<Fid>)
    decreases |open|
  {
    if open == [] then h == None
    else h == Some(open[|open|-1]) && h.value in frames && Chain(frames, frames[h.value].prev, open[..|open|-1])
  }

  function Cell1(c: Frame): Cell { Cell(c.hasPending, c.pending, c.recovered) }

  function Cells(frames: map<Fid, Frame>, open: seq<Fid>): (r: seq<Cell>)
    ensures |r| == |open|
  {
    if open == [] then [] else
    var f := open[|open|-1];
    Cells(frames, open[..|open|-1]) + [if f in frames then Cell1(frames[f]) else Cell(false, 0, false)]
  }

  /** The chain from h is the owner's open frames, and their contents and the replies so
      far are those of running its events alone. */
  ghost predicate Fits(frames: map<Fid, Frame>, h: Option<Fid>, t: Thread) {
    Chain(frames, h, t.open) && RunAlone(t.did) == Some(Alone(Cells(frames, t.open), t.got))
  }

  ghost predicate Distinct(open: seq<Fid>) { forall i, j :: 0 <= i < j < |open| ==> open[i] != open[j] }

  /** Open frames are in memory, and no two are the same. */
  ghost predicate Apart(w: World) {
    && (forall o :: Distinct(Thr(w, o).open))
    && (forall o, f :: f in Thr(w, o).open ==> f in w.frames)
    && (forall o, p, f :: f in Thr(w, o).open && f in Thr(w, p).open ==> o == p)
  }

  ghost predicate AllFit(w: World) { forall o :: Fits(w.frames, HeadOf(w, o), Thr(w, o)) }

  ghost predicate Inv(w: World) { Switched(w) && Apart(w) && AllFit(w) }

  // ---- One owner -----------------------------------------------------------------------

  lemma {:induction false} FitsFramed(frames: map<Fid, Frame>, frames': map<Fid, Frame>, h: Option<Fid>, open: seq<Fid>)
    requires Chain(frames, h, open)
    requires forall f :: f in open ==> f in frames && f in frames' && frames'[f] == frames[f]
    ensures Chain(frames', h, open) && Cells(frames', open) == Cells(frames, open)
    decreases |open|
  {
    if open != [] {
      assert open[|open|-1] in open;
      FitsFramed(frames, frames', frames[h.value].prev, open[..|open|-1]);
    }
  }

  lemma RunAloneSnoc(es: seq<Event>, e: Event)
    ensures RunAlone(es + [e]) == var a := RunAlone(es);
            if a.Some? && CanDo(|a.value.stack|, e) then Some(DoAlone(a.value, e)) else None
  {
    assert (es + [e])[..|es|] == es;
  }

  lemma EnterFits(frames: map<Fid, Frame>, h: Option<Fid>, t: Thread, f: Fid)
    requires Fits(frames, h, t) && f !in frames && forall x :: x in t.open ==> x in frames
    ensures Fits(frames[f := Frame(false, 0, false, h)], Some(f), Thread(t.open + [f], t.did + [Enter], t.got))
  {
    EnterChain(frames, h, t.open, f);
    RunAloneSnoc(t.did, Enter);
  }

  lemma EnterChain(frames: map<Fid, Frame>, h: Option<Fid>, open: seq<Fid>, f: Fid)
    requires Chain(frames, h, open) && f !in frames && forall x :: x in open ==> x in frames
    ensures var frames' := frames[f := Frame(false, 0, false, h)];
      Chain(frames', Some(f), open + [f]) && Cells(frames', open + [f]) == Cells(frames, open) + [Cell(false, 0, false)]
  {
    FitsFramed(frames, frames[f := Frame(false, 0, false, h)], h, open);
    assert (open + [f])[..|open|] == open;
  }

  /** A new content of the innermost frame, its link kept. */
  lemma TopChanged(frames: map<Fid, Frame>, h: Option<Fid>, open: seq<Fid>, c: Frame)
    requires Chain(frames, h, open) && open != [] && Distinct(open) && forall x :: x in open ==> x in frames
    requires c.prev == frames[h.value].prev
    ensures var cells := Cells(frames, open);
      Chain(frames[h.value := c], h, open) && Cells(frames[h.value := c], open) == cells[|cells|-1 := Cell1(c)]
  {
    var rest := open[..|open|-1];
    FitsFramed(frames, frames[h.value := c], c.prev, rest);
  }

  lemma RaiseFits(frames: map<Fid, Frame>, h: Option<Fid>, t: Thread, m: int)
    requires Fits(frames, h, t) && t.open != [] && Distinct(t.open) && forall x :: x in t.open ==> x in frames
    ensures h == Some(t.open[|t.open|-1])
    ensures Fits(frames[h.value := frames[h.value].(hasPending := true, pending := m)], h, t.(did := t.did + [Raise(m)]))
  {
    TopChanged(frames, h, t.open, frames[h.value].(hasPending := true, pending := m));
    RunAloneSnoc(t.did, Raise(m));
  }

  lemma RecoverFits(frames: map<Fid, Frame>, h: Option<Fid>, t: Thread)
    requires Fits(frames, h, t) && Distinct(t.open) && forall x :: x in t.open ==> x in frames
    ensures h.Some? <==> t.open != []
    ensures h.Some? ==> h.value in t.open && h.value in frames
    ensures if h.Some? && frames[h.value].hasPending then
              Fits(frames[h.value := frames[h.value].(hasPending := false, recovered := true)], h,
                   Thread(t.open, t.did + [Recover], t.got + [Recovered(Some(frames[h.value].pending))]))
            else Fits(frames, h, Thread(t.open, t.did + [Recover], t.got + [Recovered(None)]))
  {
    RunAloneSnoc(t.did, Recover);
    if h.Some? && frames[h.value].hasPending {
      TopChanged(frames, h, t.open, frames[h.value].(hasPending := false, recovered := true));
    }
  }

  lemma ExitFits(frames: map<Fid, Frame>, h: Option<Fid>, t: Thread)
    requires Fits(frames, h, t) && t.open != [] && Distinct(t.open) && forall x :: x in t.open ==> x in frames
    ensures h == Some(t.open[|t.open|-1])
    ensures var c := frames[h.value]; var gone := c.hasPending && !c.recovered;
      Fits(frames - {h.value}, c.prev,
           Thread(t.open[..|t.open|-1], t.did + [Exit], if gone then t.got + [Unwound(c.pending)] else t.got))
  {
    var rest := t.open[..|t.open|-1];
    FitsFramed(frames, frames - {h.value}, frames[h.value].prev, rest);
    RunAloneSnoc(t.did, Exit);
    assert Cells(frames, t.open)[..|t.open|-1] == Cells(frames, rest);
  }

  // ---- All owners ------------------------------------------------------------------------

  ghost predicate SameStack(w: World, w': World) {
    w'.exec == w.exec && w'.saved == w.saved && w'.current == w.current && w'.tags == w.tags && w'.heads.Keys == w.heads.Keys
  }

  ghost predicate ThreadIs(w: World, w': World, t: Thread) {
    forall o :: Thr(w', o) == if o == Running(w) then t else Thr(w, o)
  }

  ghost predicate HeadIs(w: World, w': World, h: Option<Fid>) {
    forall o :: HeadOf(w', o) == if o == Running(w) then h else HeadOf(w, o)
  }

  ghost predicate SameBut(frames: map<Fid, Frame>, frames': map<Fid, Frame>, fs: set<Fid>) {
    && (forall x :: x !in fs ==> (x in frames' <==> x in frames))
    && (forall x :: x !in fs && x in frames ==> frames'[x] == frames[x])
  }

  /** What an event changes: the frames in fs, the running owner's head and its thread. */
  ghost predicate Acted(w: World, w': World, fs: set<Fid>, h: Option<Fid>, t: Thread) {
    SameStack(w, w') && ThreadIs(w, w', t) && HeadIs(w, w', h) && SameBut(w.frames, w'.frames, fs)
  }

  lemma HeadIsRunning(w: World, f: Option<Fid>)
    requires Switched(w)
    ensures Head(w) == HeadOf(w, Running(w)) && SameStack(w, SetHead(w, f)) && HeadIs(w, SetHead(w, f), f)
  {
    assert Running(w) in w.exec;
  }

  lemma SwitchedStays(w: World, w': World)
    requires Switched(w) && SameStack(w, w')
    ensures Switched(w')
  {
  }

  lemma OthersFit(w: World, w': World, fs: set<Fid>, h: Option<Fid>, t: Thread, o: Owner)
    requires Acted(w, w', fs, h, t) && Apart(w) && Fits(w.frames, HeadOf(w, o), Thr(w, o))
    requires o != Running(w) && (forall x :: x in fs && x in w.frames ==> x in Thr(w, Running(w)).open)
    ensures Fits(w'.frames, HeadOf(w', o), Thr(w', o))
  {
    FitsFramed(w.frames, w'.frames, HeadOf(w, o), Thr(w, o).open);
  }

  /** An event that keeps the running owner's part keeps the invariant. */
  lemma ActedKeepsInv(w: World, w': World, fs: set<Fid>, h: Option<Fid>, t: Thread)
    requires Inv(w) && Acted(w, w', fs, h, t) && (forall x :: x in fs && x in w.frames ==> x in Thr(w, Running(w)).open)
    requires Fits(w'.frames, h, t) && Distinct(t.open)
    requires forall x :: x in t.open ==> x in w'.frames && (x in fs || x in Thr(w, Running(w)).open)
    ensures Inv(w')
  {
    SwitchedStays(w, w');
    forall o ensures Fits(w'.frames, HeadOf(w', o), Thr(w', o)) {
      if o != Running(w) { OthersFit(w, w', fs, h, t, o); }
    }
    ActedStaysApart(w, w', fs, h, t);
  }

  lemma ActedStaysApart(w: World, w': World, fs: set<Fid>, h: Option<Fid>, t: Thread)
    requires Apart(w) && Acted(w, w', fs, h, t) && (forall x :: x in fs && x in w.frames ==> x in Thr(w, Running(w)).open)
    requires Distinct(t.open)
    requires forall x :: x in t.open ==> x in w'.frames && (x in fs || x in Thr(w, Running(w)).open)
    ensures Apart(w')
  {
    forall o, p, x | x in Thr(w', o).open && x in Thr(w', p).open ensures o == p {
      assert o != Running(w) ==> x in Thr(w, o).open && x in w.frames;
      assert p != Running(w) ==> x in Thr(w, p).open && x in w.frames;
    }
  }

  lemma EnterKeepsInv(w: World, f: Fid)
    requires Inv(w) && f !in w.frames
    ensures Inv(DoEnter(w, f))
  {
    var t := Thr(w, Running(w));
    EnterActs(w, f);
    HeadIsRunning(w, None);
    assert Fits(w.frames, HeadOf(w, Running(w)), t);
    EnterFits(w.frames, Head(w), t, f);
    ActedKeepsInv(w, DoEnter(w, f), {f}, Some(f), Thread(t.open + [f], t.did + [Enter], t.got));
  }

  lemma EnterActs(w: World, f: Fid)
    requires Switched(w)
    ensures var t := Thr(w, Running(w)); Acted(w, DoEnter(w, f), {f}, Some(f), Thread(t.open + [f], t.did + [Enter], t.got))
    ensures DoEnter(w, f).frames == w.frames[f := Frame(false, 0, false, Head(w))]
  {
    var t := Thr(w, Running(w));
    HeadChanged(w, Some(f), w.frames[f := Frame(false, 0, false, Head(w))], {f}, Thread(t.open + [f], t.did + [Enter], t.got), w.dead);
  }

  lemma HeadChanged(w: World, h: Option<Fid>, frames: map<Fid, Frame>, fs: set<Fid>, t: Thread, dead: bool)
    requires Switched(w) && SameBut(w.frames, frames, fs)
    ensures Acted(w, SetHead(w, h).(frames := frames, threads := w.threads[Running(w) := t], dead := dead), fs, h, t)
  {
    HeadIsRunning(w, h);
    Restated(w, SetHead(w, h), h, SetHead(w, h).(frames := frames, threads := w.threads[Running(w) := t], dead := dead), t);
  }

  lemma Restated(w: World, w1: World, h: Option<Fid>, w': World, t: Thread)
    requires SameStack(w, w1) && HeadIs(w, w1, h) && SameStack(w1, w') && w'.heads == w1.heads && w'.global == w1.global
    requires w'.threads == w.threads[Running(w) := t]
    ensures SameStack(w, w') && HeadIs(w, w', h) && ThreadIs(w, w', t)
  {
    forall o ensures HeadOf(w', o) == HeadOf(w1, o) {}
  }

  lemma RaiseKeepsInv(w: World, f: Fid, m: int)
    requires Inv(w) && Thr(w, Running(w)).open != [] && f == Thr(w, Running(w)).open[|Thr(w, Running(w)).open|-1]
    ensures Inv(DoRaise(w, f, m))
  {
    var t := Thr(w, Running(w));
    var h := HeadOf(w, Running(w));
    assert f in t.open;
    assert Fits(w.frames, h, t);
    RaiseFits(w.frames, h, t, m);
    ActedKeepsInv(w, DoRaise(w, f, m), {f}, h, t.(did := t.did + [Raise(m)]));
  }

  lemma RecoverKeepsInv(w: World)
    requires Inv(w)
    ensures Inv(DoRecover(w))
  {
    var t := Thr(w, Running(w));
    var h := Head(w);
    HeadIsRunning(w, h);
    assert Fits(w.frames, h, t);
    RecoverFits(w.frames, h, t);
    RecoverActs(w);
    ActedKeepsInv(w, DoRecover(w), if h.Some? then {h.value} else {}, h, Answered(w));
  }

  /** The running owner's thread after recover(). */
  function Answered(w: World): Thread {
    var t := Thr(w, Running(w));
    var h := Head(w);
    var hit := h.Some? && h.value in w.frames && w.frames[h.value].hasPending;
    Thread(t.open, t.did + [Recover], t.got + [Recovered(if hit then Some(w.frames[h.value].pending) else None)])
  }

  lemma RecoverActs(w: World)
    requires Switched(w)
    ensures var h := Head(w); Acted(w, DoRecover(w), if h.Some? then {h.value} else {}, h, Answered(w))
  {
    var h := Head(w);
    HeadIsRunning(w, None);
    var fs: set<Fid> := if h.Some? then {h.value} else {};
    if h.Some? && h.value in w.frames && w.frames[h.value].hasPending {
      ThreadChanged(w, w.frames[h.value := w.frames[h.value].(hasPending := false, recovered := true)], fs, Answered(w));
    } else {
      ThreadChanged(w, w.frames, fs, Answered(w));
    }
  }

  lemma ThreadChanged(w: World, frames: map<Fid, Frame>, fs: set<Fid>, t: Thread)
    requires SameBut(w.frames, frames, fs)
    ensures Acted(w, w.(frames := frames, threads := w.threads[Running(w) := t]), fs, HeadOf(w, Running(w)), t)
  {
    Restated(w, w, HeadOf(w, Running(w)), w.(frames := frames, threads := w.threads[Running(w) := t]), t);
  }

  lemma ExitKeepsInv(w: World, f: Fid)
    requires Inv(w) && Thr(w, Running(w)).open != [] && f == Thr(w, Running(w)).open[|Thr(w, Running(w)).open|-1]
    ensures Inv(DoExit(w, f))
  {
    var t := Thr(w, Running(w));
    var h := HeadOf(w, Running(w));
    assert f in t.open && f in w.frames;
    ExitActs(w, f);
    assert Fits(w.frames, h, t);
    ExitFits(w.frames, h, t);
    var rest := t.open[..|t.open|-1];
    assert forall x :: x in rest ==> x in t.open && x != f;
    ActedKeepsInv(w, DoExit(w, f), {f}, w.frames[f].prev, Left(w, f));
  }

  /** The running owner's thread after it has left frame f. */
  function Left(w: World, f: Fid): Thread
    requires f in w.frames && Thr(w, Running(w)).open != []
  {
    var t := Thr(w, Running(w));
    var c := w.frames[f];
    Thread(t.open[..|t.open|-1], t.did + [Exit], if c.hasPending && !c.recovered then t.got + [Unwound(c.pending)] else t.got)
  }

  lemma ExitActs(w: World, f: Fid)
    requires Switched(w) && f in w.frames && Thr(w, Running(w)).open != []
    ensures Acted(w, DoExit(w, f), {f}, w.frames[f].prev, Left(w, f)) && DoExit(w, f).frames == w.frames - {f}
  {
    var c := w.frames[f];
    HeadChanged(w, c.prev, w.frames - {f}, {f}, Left(w, f), c.hasPending && !c.recovered);
  }

  /** Steps that touch no frame. */
  lemma SwitchKeepsInv(w: World, a: Action)
    requires Inv(w) && Enabled(w, a) && !a.Do?
    ensures Inv(Step(w, a))
  {
    StackStaysSwitched(w, a);
    forall o { SwitchFits(w, a, o); }
    assert forall o :: Thr(Step(w, a), o) == Thr(w, o);
  }

  lemma SwitchFits(w: World, a: Action, o: Owner)
    requires Enabled(w, a) && !a.Do? && Fits(w.frames, HeadOf(w, o), Thr(w, o))
    ensures Fits(Step(w, a).frames, HeadOf(Step(w, a), o), Thr(Step(w, a), o))
  {
    if a.Spawn? && o == Routine(a.g) { NobodyYet(w, a.g); }
  }

  /** A goroutine not yet spawned has no frames. */
  lemma NobodyYet(w: World, g: nat)
    requires Fits(w.frames, HeadOf(w, Routine(g)), Thr(w, Routine(g))) && g !in w.heads
    ensures Thr(w, Routine(g)).open == []
  {
  }

  lemma StackStaysSwitched(w: World, a: Action)
    requires Switched(w) && Enabled(w, a) && !a.Do?
    ensures Switched(Step(w, a))
  {
    assert forall o :: o in w.exec[..|w.exec|-1] ==> o in w.exec;
    assert Running(w) in w.exec;
  }

  /** Every step of every goroutine keeps all chains in stack order. */
  lemma StepKeepsInv(w: World, a: Action)
    requires Inv(w) && Enabled(w, a)
    ensures Inv(Step(w, a))
  {
    match a
    case Do(Enter, f) => EnterKeepsInv(w, f);
    case Do(Raise(m), f) => RaiseKeepsInv(w, f, m);
    case Do(Recover, _) => RecoverKeepsInv(w);
    case Do(Exit, f) => ExitKeepsInv(w, f);
    case _ => SwitchKeepsInv(w, a);
  }

  lemma StartInv()
    ensures Inv(START)
  {
  }

  lemma {:induction false} RunKeepsInv(w: World, acts: seq<Action>, w': World)
    requires Inv(w) && RunTo(w, acts, w')
    ensures Inv(w')
    decreases |acts|
  {
    if acts != [] {
      StepKeepsInv(w, acts[0]);
      RunKeepsInv(Step(w, acts[0]), acts[1..], w');
    }
  }

  // ---- What follows ----------------------------------------------------------------------

  /** Whatever else runs in between, an owner's chain is exactly its own open frames,
      innermost first, and the current head is the running owner's. */
  lemma ChainIsOwnFrames(acts: seq<Action>, w: World, o: Owner)
    requires RunTo(START, acts, w)
    ensures Chain(w.frames, HeadOf(w, o), Thr(w, o).open) && Head(w) == HeadOf(w, Running(w))
  {
    StartInv();
    RunKeepsInv(START, acts, w);
    HeadIsRunning(w, None);
    assert Fits(w.frames, HeadOf(w, o), Thr(w, o));
  }

  /** Whatever else runs in between, every recover and every unrecovered panic of an owner
      turns out as if the owner ran alone. */
  lemma SameAsAlone(acts: seq<Action>, w: World, o: Owner)
    requires RunTo(START, acts, w)
    ensures RunAlone(Thr(w, o).did) == Some(Alone(Cells(w.frames, Thr(w, o).open), Thr(w, o).got))
  {
    StartInv();
    RunKeepsInv(START, acts, w);
    assert Fits(w.frames, HeadOf(w, o), Thr(w, o));
  }

  /** The events an owner does in a run, in order. */
  function EventsOf(w: World, acts: seq<Action>, o: Owner): seq<Event>
    decreases |acts|
  {
    if acts == [] || !Enabled(w, acts[0]) then [] else
    (if acts[0].Do? && Running(w) == o then [acts[0].e] else []) + EventsOf(Step(w, acts[0]), acts[1..], o)
  }

  lemma StepRecords(w: World, a: Action, o: Owner)
    requires Apart(w) && Enabled(w, a)
    ensures Thr(Step(w, a), o).did == Thr(w, o).did + if a.Do? && Running(w) == o then [a.e] else []
  {
    match a
    case Do(Enter, f) => EnterRecords(w, f, o);
    case Do(Raise(m), f) => assert f in Thr(w, Running(w)).open; RaiseRecords(w, f, m, o);
    case Do(Recover, _) => RecoverRecords(w, o);
    case Do(Exit, f) => assert f in Thr(w, Running(w)).open; ExitRecords(w, f, o);
    case _ =>
  }

  lemma EnterRecords(w: World, f: Fid, o: Owner)
    ensures Thr(DoEnter(w, f), o).did == Thr(w, o).did + if Running(w) == o then [Enter] else []
  {
  }

  lemma RaiseRecords(w: World, f: Fid, m: int, o: Owner)
    requires f in w.frames
    ensures Thr(DoRaise(w, f, m), o).did == Thr(w, o).did + if Running(w) == o then [Raise(m)] else []
  {
  }

  lemma RecoverRecords(w: World, o: Owner)
    ensures Thr(DoRecover(w), o).did == Thr(w, o).did + if Running(w) == o then [Recover] else []
  {
  }

  lemma ExitRecords(w: World, f: Fid, o: Owner)
    requires f in w.frames && Thr(w, Running(w)).open != []
    ensures Thr(DoExit(w, f), o).did == Thr(w, o).did + if Running(w) == o then [Exit] else []
  {
  }

  lemma {:induction false} RunRecords(w: World, acts: seq<Action>, w': World, o: Owner)
    requires Inv(w) && RunTo(w, acts, w')
    ensures Thr(w', o).did == Thr(w, o).did + EventsOf(w, acts, o)
    decreases |acts|
  {
    if acts != [] {
      var w1 := Step(w, acts[0]);
      StepKeepsInv(w, acts[0]);
      StepRecords(w, acts[0], o);
      RunRecords(w1, acts[1..], w', o);
      Joined(Thr(w, o).did, if acts[0].Do? && Running(w) == o then [acts[0].e] else [], EventsOf(w1, acts[1..], o));
    }
  }

  lemma Joined(a: seq<Event>, b: seq<Event>, c: seq<Event>)
    ensures a + b + c == a + (b + c)
  {
  }

  /** Two runs in which an owner does the same events, interleaved differently with the
      others', give it the same frames and the same replies. */
  lemma InterleavingDoesNotMatter(acts: seq<Action>, w: World, acts': seq<Action>, w': World, o: Owner)
    requires RunTo(START, acts, w) && RunTo(START, acts', w') && EventsOf(START, acts, o) == EventsOf(START, acts', o)
    ensures Thr(w, o).got == Thr(w', o).got && Cells(w.frames, Thr(w, o).open) == Cells(w'.frames, Thr(w', o).open)
  {
    StartInv();
    RunRecords(START, acts, w, o);
    RunRecords(START, acts', w', o);
    SameAsAlone(acts, w, o);
    SameAsAlone(acts', w', o);
  }
}
