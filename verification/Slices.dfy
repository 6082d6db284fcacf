/** Slices: windows on shared buffers. append writes in place while there is room, so
    windows on one buffer see each other's elements. */
module Slices {
  /** A backing store; its size never changes once it is made. */
  class Vector {
    var cells: seq<int>

    constructor (n: nat)
      ensures |cells| == n
    {
      cells := seq(n, _ => 0);
    }
  }

  /** A window of len cells from off; elements are integers. */
  datatype Slice = Nil | Slice(buf: Vector, off: nat, len: nat)

  function Buffers(s: Slice): set<object> { if s.Nil? then {} else {s.buf} }

  function Cells(s: Slice): seq<int>
    reads Buffers(s)
  {
    if s.Nil? then [] else s.buf.cells
  }

  predicate Valid(s: Slice)
    reads Buffers(s)
  {
    s.Slice? ==> s.off + s.len <= |s.buf.cells|
  }

  function Len(s: Slice): nat { if s.Nil? then 0 else s.len }

  function Cap(s: Slice): nat
    requires Valid(s)
    reads Buffers(s)
  {
    if s.Nil? then 0 else |s.buf.cells| - s.off
  }

  function View(s: Slice): seq<int>
    requires Valid(s)
    reads Buffers(s)
  {
    if s.Nil? then [] else s.buf.cells[s.off..s.off + s.len]
  }

  // ---- append ---------------------------------------------------------------------------

  predicate Fits(s: Slice, add: nat)
    reads Buffers(s)
  {
    s.Slice? && s.off + s.len + add <= |s.buf.cells|
  }

  function NewCap(len: nat, cap: nat, add: nat): (c: nat)
    ensures c >= len + add && c >= 1 && c >= 2 * cap && (c == 2 * cap || c == len + add || c == 1)
  {
    var least := if len + add < 1 then 1 else len + add;
    if cap * 2 > least then cap * 2 else least
  }

  /** The cells from at on overwritten with xs. */
  function Wrote(cells: seq<int>, at: nat, xs: seq<int>): (r: seq<int>)
    requires at + |xs| <= |cells|
    ensures |r| == |cells|
    ensures forall i :: 0 <= i < |r| ==> r[i] == if at <= i < at + |xs| then xs[i - at] else cells[i]
    decreases |xs|
  {
    if xs == [] then cells else Wrote(cells[at := xs[0]], at + 1, xs[1..])
  }

  /** A new buffer with the window's elements in front. */
  method Grow(s: Slice, add: nat) returns (r: Slice, moved: nat)
    requires Valid(s)
    ensures r.Slice? && fresh(r.buf) && r.off == 0 && r.len == Len(s) && |r.buf.cells| == NewCap(Len(s), Cap(s), add)
    ensures View(r) == View(s) && moved == Len(s)
  {
    var nbuf := new Vector(NewCap(Len(s), Cap(s), add));
    moved := 0;
    while moved < Len(s)
      invariant moved <= Len(s) && |nbuf.cells| == NewCap(Len(s), Cap(s), add)
      invariant forall j :: 0 <= j < moved ==> nbuf.cells[j] == View(s)[j]
      modifies nbuf
    {
      nbuf.cells := nbuf.cells[moved := s.buf.cells[s.off + moved]];
      moved := moved + 1;
    }
    r := Slice(nbuf, 0, Len(s));
  }

  /** Writing xs behind the window. */
  method Put(s: Slice, xs: seq<int>) returns (r: Slice)
    requires Fits(s, |xs|)
    modifies s.buf
    ensures r == Slice(s.buf, s.off, s.len + |xs|) && s.buf.cells == Wrote(old(s.buf.cells), s.off + s.len, xs)
    ensures Valid(r) && View(r) == old(View(s)) + xs
  {
    r := s;
    ghost var cells := s.buf.cells;
    var k := 0;
    while k < |xs|
      invariant 0 <= k <= |xs| && r == Slice(s.buf, s.off, s.len + k)
      invariant s.buf.cells == Wrote(cells, s.off + s.len, xs[..k])
    {
      r.buf.cells := r.buf.cells[r.off + r.len := xs[k]];
      r := r.(len := r.len + 1);
      k := k + 1;
    }
    assert xs[..|xs|] == xs;
    WindowAfter(cells, s.off, s.off + s.len, xs);
  }

  /** append: in place when there is room behind the window, else into a new buffer. moved
      counts the elements copied over. */
  method Append(s: Slice, xs: seq<int>) returns (r: Slice, moved: nat)
    requires Valid(s)
    modifies Buffers(s)
    ensures r.Slice? && Valid(r) && View(r) == old(View(s)) + xs
    ensures old(Fits(s, |xs|)) ==>
      && r == Slice(s.buf, s.off, s.len + |xs|) && moved == 0
      && s.buf.cells == Wrote(old(s.buf.cells), s.off + s.len, xs)
    ensures !old(Fits(s, |xs|)) ==>
      && fresh(r.buf) && r.off == 0 && r.len == Len(s) + |xs| && |r.buf.cells| == NewCap(Len(s), old(Cap(s)), |xs|) && moved == Len(s)
      && Cells(s) == old(Cells(s))
  {
    if Fits(s, |xs|) {
      moved := 0;
      r := Put(s, xs);
    } else {
      r, moved := Grow(s, |xs|);
      r := Put(r, xs);
    }
  }

  lemma WindowAfter(cells: seq<int>, off: nat, at: nat, xs: seq<int>)
    requires off <= at && at + |xs| <= |cells|
    ensures Wrote(cells, at, xs)[off..at + |xs|] == cells[off..at] + xs
  {
  }

  // ---- append of a slice ------------------------------------------------------------------

  predicate SameBuffer(s: Slice, t: Slice) { s.Slice? && t.Slice? && s.buf == t.buf }

  function WritePoint(s: Slice): nat { if s.Slice? then s.off + s.len else 0 }

  /** The appended slice's window begins in front of the write point and ends behind it. */
  predicate Straddles(s: Slice, extra: Slice) {
    SameBuffer(s, extra) && extra.off < WritePoint(s) < extra.off + extra.len
  }

  /** How far the write point lies behind the start of a straddling window, else 0. */
  function Lead(s: Slice, extra: Slice): nat { if Straddles(s, extra) then WritePoint(s) - extra.off else 0 }

  /** i taken back by d as often as needed to fall below d; i itself for 0. */
  function Back(i: nat, d: nat): (r: nat)
    ensures r <= i && (d > 0 ==> r < d)
  {
    if d == 0 || i < d then i else Back(i - d, d)
  }

  /** The elements of xs with every index taken back by d. */
  function Repeated(xs: seq<int>, d: nat): (a: seq<int>)
    ensures |a| == |xs| && forall j :: 0 <= j < |xs| ==> a[j] == xs[Back(j, d)]
  {
    seq(|xs|, j requires 0 <= j < |xs| => xs[Back(j, d)])
  }

  /** A straddling window is appended as it was exactly if it repeats its first part; any
      other is appended as it was. */
  lemma SnapshotExactlyIfPeriodic(xs: seq<int>, d: nat)
    ensures Repeated(xs, d) == xs <==> d == 0 || forall i :: d <= i < |xs| ==> xs[i] == xs[i - d]
  {
    var a := Repeated(xs, d);
    if d > 0 && a == xs {
      forall i | d <= i < |xs| ensures xs[i] == xs[i - d] {
        assert a[i] == xs[Back(i, d)] && a[i - d] == xs[Back(i - d, d)];
      }
    }
    if d == 0 || forall i :: d <= i < |xs| ==> xs[i] == xs[i - d] {
      forall i | 0 <= i < |xs| ensures a[i] == xs[i] { if d > 0 { Periodic(xs, d, i); } }
    }
  }

  lemma {:induction false} Periodic(xs: seq<int>, d: nat, i: nat)
    requires 0 < d && i < |xs| && forall j :: d <= j < |xs| ==> xs[j] == xs[j - d]
    ensures xs[Back(i, d)] == xs[i]
    decreases i
  {
    if i >= d { Periodic(xs, d, i - d); }
  }

  /** Reading element i of a window of the buffer being appended to, when k elements have
      been written in place: it is the i-th of what is added. */
  lemma ReadsAdded(s: Slice, extra: Slice, cells: seq<int>, a: seq<int>, k: nat, i: nat)
    requires SameBuffer(s, extra) && extra.off + extra.len <= |cells| && i < extra.len == |a| && k <= i
    requires a[i] == cells[extra.off + Back(i, Lead(s, extra))]
    requires var d := Lead(s, extra); 0 < d <= i ==> a[i - d] == cells[extra.off + Back(i - d, d)]
    requires WritePoint(s) + k <= |cells| && (k == i || WritePoint(s) + k == |cells|)
    ensures Wrote(cells, WritePoint(s), a[..k])[extra.off + i] == a[i]
  {
    var d := Lead(s, extra);
    if Straddles(s, extra) && i >= d {
      assert a[..k][i - d] == a[i - d];
    }
  }

  lemma WroteNext(cells: seq<int>, at: nat, a: seq<int>, i: nat)
    requires i < |a| && at + i + 1 <= |cells|
    ensures Wrote(Wrote(cells, at, a[..i]), at + i, [a[i]]) == Wrote(cells, at, a[..i + 1])
  {
  }

  /** Where r is after i elements: still on s's buffer, or on one of its own, after k
      elements have filled s's buffer to the end. */
  ghost predicate Placed(s: Slice, extra: Slice, r: Slice, size: nat, k: nat, i: nat) {
    && k <= i && (SameBuffer(r, extra) ==> SameBuffer(s, extra) && SameBuffer(s, r))
    && if r.Nil? then s.Nil? && i == 0
       else if SameBuffer(s, r) then k == i && r == Slice(s.buf, s.off, s.len + i)
       else s.Slice? ==> WritePoint(s) + k == size && k < i
  }

  /** Appended one by one from nil: the moves so far are the capacity less one. */
  predicate FromNil(len: nat, cap: nat, moved: nat) {
    if len == 0 then cap == 0 && moved == 0 else moved + 1 == cap < 2 * len && len <= cap
  }

  lemma DoublingPays(len: nat, cap: nat, moved: nat)
    requires FromNil(len, cap, moved)
    ensures len + 1 <= cap ==> FromNil(len + 1, cap, moved)
    ensures len + 1 > cap ==> FromNil(len + 1, NewCap(len, cap, 1), moved + len)
  {
  }

  /** How many of n elements there is room for behind the window. */
  function Room(s: Slice, n: nat): nat
    requires Valid(s)
    reads Buffers(s)
  {
    if Cap(s) - Len(s) < n then Cap(s) - Len(s) else n
  }

  /** append_range: one append for each element of extra, read when its turn comes. As many
      as there is room for are written behind the window, and nothing else in the buffer;
      if there is no room for all of them, the result has a buffer of its own. From a nil
      slice fewer than two elements are moved for each one appended. */
  method AppendRange(s: Slice, extra: Slice) returns (r: Slice, moved: nat)
    requires Valid(s) && Valid(extra)
    modifies Buffers(s)
    ensures Valid(r) && View(r) == old(View(s)) + Repeated(old(View(extra)), Lead(s, extra))
    ensures s.Slice? ==>
      Cells(s) == Wrote(old(Cells(s)), WritePoint(s), Repeated(old(View(extra)), Lead(s, extra))[..old(Room(s, Len(extra)))])
    ensures old(Fits(s, Len(extra))) ==> r == Slice(s.buf, s.off, s.len + Len(extra))
    ensures !old(Fits(s, Len(extra))) && Len(extra) > 0 ==> r.Slice? && fresh(r.buf)
    ensures s.Nil? && Len(extra) > 0 ==> moved < 2 * Len(extra)
  {
    ghost var a := Repeated(View(extra), Lead(s, extra));
    ghost var cells := Cells(s);
    ghost var k;
    r, moved, k := AppendAll(s, extra, cells, Cells(extra), a);
    if s.Slice? { EndsWhereItFits(s, extra, r, cells, a, k); }
  }

  /** The loop: cells, start and a are what s's and extra's buffers held and what is to be
      added, as of its start. */
  method AppendAll(s: Slice, extra: Slice, ghost cells: seq<int>, ghost start: seq<int>, ghost a: seq<int>)
    returns (r: Slice, moved: nat, ghost k: nat)
    requires Valid(s) && Cells(s) == cells && Cells(extra) == start && IsAdded(s, extra, start, a)
    modifies Buffers(s)
    ensures Valid(r) && View(r) == old(View(s)) + a
    ensures Placed(s, extra, r, |cells|, k, |a|) && Filled(s, cells, a, k)
    ensures r.Slice? ==> SameBuffer(s, r) || fresh(r.buf)
    ensures s.Nil? && Len(extra) > 0 ==> moved < 2 * Len(extra)
  {
    ghost var base := View(s);
    r, moved, k := s, 0, 0;
    var i := 0;
    while i < Len(extra)
      invariant i <= Len(extra) && Placed(s, extra, r, |cells|, k, i)
      invariant Filled(s, cells, a, k) && Sourced(s, extra, start)
      invariant Valid(r) && Paid(s, r, i, moved)
      invariant r.Slice? ==> SameBuffer(s, r) || fresh(r.buf)
      invariant View(r) == base + a[..i]
    {
      r, moved, k := Round(s, extra, r, i, moved, cells, start, a, k);
      Longer(base, a, i);
      i := i + 1;
    }
    assert a[..Len(extra)] == a;
  }

  lemma EndsWhereItFits(s: Slice, extra: Slice, r: Slice, cells: seq<int>, a: seq<int>, k: nat)
    requires s.Slice? && Placed(s, extra, r, |cells|, k, |a|) && Filled(s, cells, a, k) && |s.buf.cells| == |cells|
    ensures k == if |cells| - WritePoint(s) < |a| then |cells| - WritePoint(s) else |a|
    ensures SameBuffer(s, r) <==> Fits(s, |a|)
  {
  }

  /** a is what appending extra adds, its buffer holding start. */
  ghost predicate IsAdded(s: Slice, extra: Slice, start: seq<int>, a: seq<int>) {
    && |a| == Len(extra) && (extra.Slice? ==> extra.off + extra.len <= |start|)
    && forall j :: 0 <= j < |a| ==> a[j] == start[extra.off + Back(j, Lead(s, extra))]
  }

  /** What s's buffer holds after k elements in place. */
  ghost predicate Filled(s: Slice, cells: seq<int>, a: seq<int>, k: nat)
    reads Buffers(s)
  {
    s.Slice? ==> k <= |a| && WritePoint(s) + k <= |cells| && Cells(s) == Wrote(cells, WritePoint(s), a[..k])
  }

  /** What extra's buffer holds: what s's does, or what it held at the start. */
  ghost predicate Sourced(s: Slice, extra: Slice, start: seq<int>)
    reads Buffers(s), Buffers(extra)
  {
    Cells(extra) == if SameBuffer(s, extra) then Cells(s) else start
  }

  /** From nil: a slice of its own, at the front of its buffer. */
  predicate Paid(s: Slice, r: Slice, i: nat, moved: nat)
    reads Buffers(r)
  {
    s.Nil? ==> Valid(r) && Len(r) == i && (r.Slice? ==> r.off == 0) && FromNil(i, Cap(r), moved)
  }

  /** extra[i]: the element of a whose turn it is. */
  method ReadNext(s: Slice, extra: Slice, ghost r: Slice, i: nat, ghost cells: seq<int>, ghost start: seq<int>,
                  ghost a: seq<int>, ghost k: nat) returns (x: int)
    requires Placed(s, extra, r, |cells|, k, i) && Filled(s, cells, a, k) && Sourced(s, extra, start)
    requires IsAdded(s, extra, start, a) && i < |a| && (SameBuffer(s, extra) ==> start == cells)
    ensures x == a[i]
  {
    if SameBuffer(s, extra) { ReadsAdded(s, extra, cells, a, k, i); }
    x := extra.buf.cells[extra.off + i];
  }

  /** One round: element i of extra is read and appended. */
  method Round(s: Slice, extra: Slice, r: Slice, i: nat, sofar: nat, ghost cells: seq<int>, ghost start: seq<int>,
               ghost a: seq<int>, ghost k: nat) returns (r': Slice, moved: nat, ghost k': nat)
    requires Placed(s, extra, r, |cells|, k, i) && Filled(s, cells, a, k) && Sourced(s, extra, start)
    requires Valid(r) && Paid(s, r, i, sofar)
    requires IsAdded(s, extra, start, a) && i < |a| && (SameBuffer(s, extra) ==> start == cells)
    modifies Buffers(r)
    ensures Placed(s, extra, r', |cells|, k', i + 1) && Filled(s, cells, a, k') && Sourced(s, extra, start)
    ensures Valid(r') && Paid(s, r', i + 1, moved)
    ensures r'.Slice? && (SameBuffer(r, r') || fresh(r'.buf))
    ensures View(r') == old(View(r)) + [a[i]]
  {
    var x := ReadNext(s, extra, r, i, cells, start, a, k);
    r', moved, k' := AppendNext(s, extra, r, x, i, sofar, cells, start, a, k);
  }

  /** x, the element whose turn it is, is appended. */
  method AppendNext(s: Slice, extra: Slice, r: Slice, x: int, i: nat, sofar: nat, ghost cells: seq<int>, ghost start: seq<int>,
                    ghost a: seq<int>, ghost k: nat) returns (r': Slice, moved: nat, ghost k': nat)
    requires Placed(s, extra, r, |cells|, k, i) && Filled(s, cells, a, k) && Sourced(s, extra, start)
    requires Valid(r) && Paid(s, r, i, sofar) && i < |a| && x == a[i]
    modifies Buffers(r)
    ensures Placed(s, extra, r', |cells|, k', i + 1) && Filled(s, cells, a, k') && Sourced(s, extra, start)
    ensures Valid(r') && Paid(s, r', i + 1, moved)
    ensures r'.Slice? && (SameBuffer(r, r') || fresh(r'.buf))
    ensures View(r') == old(View(r)) + [x]
  {
    if SameBuffer(s, r) && Fits(r, 1) {
      k', moved := i + 1, sofar;
      r' := NextInPlace(s, extra, r, x, i, cells, start, a);
    } else {
      k' := k;
      r', moved := NextElsewhere(s, extra, r, x, i, sofar, cells, start, a, k);
    }
  }

  /** The append that finds room behind the elements in place. */
  method NextInPlace(s: Slice, extra: Slice, r: Slice, x: int, i: nat, ghost cells: seq<int>, ghost start: seq<int>, ghost a: seq<int>)
    returns (r': Slice)
    requires SameBuffer(s, r) && Fits(r, 1) && i < |a| && x == a[i] && Placed(s, extra, r, |cells|, i, i)
    requires Filled(s, cells, a, i) && Sourced(s, extra, start)
    modifies r.buf
    ensures r' == Slice(r.buf, r.off, r.len + 1) && Valid(r') && View(r') == old(View(r)) + [x]
    ensures Placed(s, extra, r', |cells|, i + 1, i + 1) && Filled(s, cells, a, i + 1) && Sourced(s, extra, start)
  {
    var moved;
    r', moved := Append(r, [x]);
    WroteNext(cells, WritePoint(s), a, i);
  }

  /** The append that goes to another buffer, new or already there. */
  method NextElsewhere(s: Slice, extra: Slice, r: Slice, x: int, i: nat, sofar: nat, ghost cells: seq<int>, ghost start: seq<int>,
                       ghost a: seq<int>, ghost k: nat) returns (r': Slice, moved: nat)
    requires Valid(r) && !(SameBuffer(s, r) && Fits(r, 1)) && Placed(s, extra, r, |cells|, k, i)
    requires Paid(s, r, i, sofar) && Filled(s, cells, a, k) && Sourced(s, extra, start)
    modifies Buffers(r)
    ensures r'.Slice? && Valid(r') && View(r') == old(View(r)) + [x] && Paid(s, r', i + 1, moved)
    ensures (SameBuffer(r, r') || fresh(r'.buf)) && Placed(s, extra, r', |cells|, k, i + 1)
    ensures Filled(s, cells, a, k) && Sourced(s, extra, start)
  {
    r', moved := AppendPaid(s, r, x, i, sofar);
    assert Cells(s) == old(Cells(s)) && Cells(extra) == old(Cells(extra));
  }

  /** An append that leaves s's buffer alone, and what it costs. */
  method AppendPaid(s: Slice, r: Slice, x: int, i: nat, sofar: nat) returns (r': Slice, moved: nat)
    requires Valid(r) && !(SameBuffer(s, r) && Fits(r, 1)) && Paid(s, r, i, sofar)
    modifies Buffers(r)
    ensures r'.Slice? && Valid(r') && View(r') == old(View(r)) + [x] && Paid(s, r', i + 1, moved)
    ensures if old(Fits(r, 1)) then SameBuffer(r, r') else fresh(r'.buf) && Cells(r) == old(Cells(r))
  {
    if s.Nil? { DoublingPays(i, Cap(r), sofar); }
    r', moved := Append(r, [x]);
    moved := sofar + moved;
  }

  lemma Longer(base: seq<int>, a: seq<int>, i: nat)
    requires i < |a|
    ensures base + a[..i] + [a[i]] == base + a[..i + 1]
  {
  }

  /** copy: the shorter length, as if the source had been read first, on one buffer or two. */
  method Copy(dst: Slice, src: Slice) returns (n: nat)
    requires Valid(dst) && Valid(src)
    modifies Buffers(dst)
    ensures n == if Len(src) < Len(dst) then Len(src) else Len(dst)
    ensures dst.Slice? ==> dst.buf.cells == Wrote(old(dst.buf.cells), dst.off, old(View(src))[..n])
  {
    n := Len(dst);
    if Len(src) < n { n := Len(src); }
    if n == 0 { return; }
    if dst.buf == src.buf {
      var buf := new Vector(n);
      var tmp := Slice(buf, 0, n);
      ghost var xs := View(src)[..n];
      CopyApart(tmp, src, n);
      assert View(tmp)[..n] == xs;
      CopyApart(dst, tmp, n);
    } else {
      CopyApart(dst, src, n);
    }
  }

  /** n elements from one buffer to another. */
  method CopyApart(dst: Slice, src: Slice, n: nat)
    requires Valid(dst) && Valid(src) && dst.Slice? && src.Slice? && dst.buf != src.buf && n <= dst.len && n <= src.len
    modifies dst.buf
    ensures dst.buf.cells == Wrote(old(dst.buf.cells), dst.off, View(src)[..n])
  {
    ghost var cells, xs := dst.buf.cells, View(src);
    var i := 0;
    while i < n
      invariant 0 <= i <= n && dst.buf.cells == Wrote(cells, dst.off, xs[..i])
    {
      dst.buf.cells := dst.buf.cells[dst.off + i := src.buf.cells[src.off + i]];
      i := i + 1;
    }
  }
}
