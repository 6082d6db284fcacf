/** Datagrams over a byte pipe: each is written as a four-byte length and its bytes, and
    read back by counting, however the pipe hands the bytes over. */
module Datagrams {
  import opened Wrappers

  type Byte = b: int | 0 <= b < 256

  /** A reader: the rest of the chunk being read, and every chunk still to arrive before
      the writer closes the pipe. */
  datatype Reader = Reader(leftover: seq<Byte>, incoming: seq<seq<Byte>>)

  function Flatten(chunks: seq<seq<Byte>>): seq<Byte> {
    if chunks == [] then [] else chunks[0] + Flatten(chunks[1..])
  }

  /** All the bytes the reader will ever see. */
  function Bytes(r: Reader): seq<Byte> { r.leftover + Flatten(r.incoming) }

  predicate NoEmptyChunk(chunks: seq<seq<Byte>>) { forall i :: 0 <= i < |chunks| ==> chunks[i] != [] }

  // ---- Conn.Read and readFull ------------------------------------------------------------

  datatype Got = Data(data: seq<Byte>, r: Reader) | Eof(r: Reader)

  function Min(a: nat, b: nat): (m: nat)
    ensures m <= a && m <= b && (m == a || m == b)
  {
    if a < b then a else b
  }

  function Take(r: Reader, n: nat): Got {
    var k := Min(n, |r.leftover|);
    Data(r.leftover[..k], r.(leftover := r.leftover[k..]))
  }

  /** Conn.Read into a buffer of n bytes. */
  function Read(r: Reader, n: nat): Got {
    if r.leftover != [] then Take(r, n)
    else if r.incoming == [] then Eof(r)
    else Take(Reader(r.incoming[0], r.incoming[1..]), n)
  }

  /** readFull: reads until n bytes are there. A read that yields nothing is an error. */
  function ReadFull(r: Reader, n: nat): (g: Got)
    ensures g.Data? ==> |g.data| == n
    decreases n
  {
    if n == 0 then Data([], r) else
    match Read(r, n)
    case Eof(r1) => Eof(r1)
    case Data(data, r1) =>
      if data == [] then Eof(r1) else
      match ReadFull(r1, n - |data|)
      case Eof(r2) => Eof(r2)
      case Data(more, r2) => Data(data + more, r2)
  }

  // ---- WriteTo and ReadFrom ------------------------------------------------------------------

  const LIMIT: nat := 0x1_0000_0000

  function Header(n: nat): (h: seq<Byte>)
    ensures |h| == 4
  {
    [n / 0x100_0000 % 256, n / 0x1_0000 % 256, n / 256 % 256, n % 256]
  }

  function HeaderValue(h: seq<Byte>): nat
    requires |h| == 4
  {
    var a: nat, b: nat, c: nat, d: nat := h[0], h[1], h[2], h[3];
    a * 0x100_0000 + b * 0x1_0000 + c * 256 + d
  }

  /** WriteTo: the chunks sent for one payload. */
  function Written(p: seq<Byte>): seq<seq<Byte>> { if p == [] then [Header(0)] else [Header(|p|), p] }

  function AllWritten(ps: seq<seq<Byte>>): seq<seq<Byte>> {
    if ps == [] then [] else Written(ps[0]) + AllWritten(ps[1..])
  }

  /** ReadFrom into a buffer of n bytes. */
  function ReadFrom(r: Reader, n: nat): Got {
    match ReadFull(r, 4)
    case Eof(r1) => Eof(r1)
    case Data(h, r1) =>
      match ReadFull(r1, HeaderValue(h))
      case Eof(r2) => Eof(r2)
      case Data(p, r2) => Data(p[..Min(n, |p|)], r2)
  }

  /** A reader that calls ReadFrom once for each buffer size. */
  function ReadAll(r: Reader, sizes: seq<nat>): Option<seq<seq<Byte>>>
    decreases |sizes|
  {
    if sizes == [] then Some([]) else
    match ReadFrom(r, sizes[0])
    case Eof(_) => None
    case Data(p, r1) => var rest := ReadAll(r1, sizes[1..]); if rest.Some? then Some([p] + rest.value) else None
  }

  // ---- Lengths ---------------------------------------------------------------------------------

  /** n in base 256: four digits and what is above them. */
  lemma Digits(n: nat, q1: nat, q2: nat, q3: nat, q4: nat, d0: nat, d1: nat, d2: nat, d3: nat)
    requires n == q1 * 256 + d0 && q1 == q2 * 256 + d1 && q2 == q3 * 256 + d2 && q3 == q4 * 256 + d3
    requires d0 < 256 && d1 < 256 && d2 < 256 && d3 < 256
    ensures n / 256 == q1 && n / 0x1_0000 == q2 && n / 0x100_0000 == q3
    ensures n % LIMIT == d3 * 0x100_0000 + d2 * 0x1_0000 + d1 * 256 + d0
  {
    assert n == q2 * 0x1_0000 + (d1 * 256 + d0);
    assert n == q3 * 0x100_0000 + (d2 * 0x1_0000 + d1 * 256 + d0);
    assert n == q4 * LIMIT + (d3 * 0x100_0000 + d2 * 0x1_0000 + d1 * 256 + d0);
  }

  /** Four bytes hold a length modulo 2^32, the most significant one first. */
  lemma HeaderRoundTrip(n: nat)
    ensures HeaderValue(Header(n)) == n % LIMIT
    ensures var h := Header(n); var a: nat, b: nat, c: nat, d: nat := h[0], h[1], h[2], h[3];
      a * 0x100_0000 + b * 0x1_0000 + c * 0x100 + d == n % LIMIT
  {
    var q1 := n / 256;
    var q2 := q1 / 256;
    var q3 := q2 / 256;
    Digits(n, q1, q2, q3, q3 / 256, n % 256, q1 % 256, q2 % 256, q3 % 256);
  }

  /** So the length survives if and only if it is below 2^32. */
  lemma HeaderIsExactBelowTheLimit(n: nat)
    ensures HeaderValue(Header(n)) == n <==> n < LIMIT
  {
    HeaderRoundTrip(n);
  }

  // ---- Reading by counting ---------------------------------------------------------------------

  lemma TakeBytes(r: Reader, n: nat)
    ensures var g := Take(r, n); g.data + Bytes(g.r) == Bytes(r)
  {
    var k := Min(n, |r.leftover|);
    assert r.leftover[..k] + (r.leftover[k..] + Flatten(r.incoming)) == r.leftover + Flatten(r.incoming);
  }

  /** A read takes bytes off the front, at least one of them if there are any and room. */
  lemma ReadBytes(r: Reader, n: nat)
    requires NoEmptyChunk(r.incoming)
    ensures var g := Read(r, n);
      && NoEmptyChunk(g.r.incoming) && (g.Eof? <==> Bytes(r) == [])
      && (g.Data? ==> g.data + Bytes(g.r) == Bytes(r) && |g.data| <= n && (n > 0 ==> g.data != []))
  {
    if r.leftover != [] {
      TakeBytes(r, n);
    } else if r.incoming != [] {
      var r1 := Reader(r.incoming[0], r.incoming[1..]);
      assert Bytes(r1) == Bytes(r);
      assert r.incoming[0] != [];
      TakeBytes(r1, n);
    }
  }

  /** readFull returns the next n bytes, or fails exactly if there are not that many. */
  lemma {:induction false} ReadFullBytes(r: Reader, n: nat)
    requires NoEmptyChunk(r.incoming)
    ensures var g := ReadFull(r, n);
      && NoEmptyChunk(g.r.incoming) && (g.Data? <==> n <= |Bytes(r)|)
      && (g.Data? ==> g.data == Bytes(r)[..n] && Bytes(g.r) == Bytes(r)[n..])
    decreases n
  {
    if n > 0 {
      ReadBytes(r, n);
      var g := Read(r, n);
      if g.Data? {
        ReadFullBytes(g.r, n - |g.data|);
        if n <= |Bytes(r)| { Split(g.data, Bytes(g.r), n); }
      }
    }
  }

  lemma Split(a: seq<Byte>, b: seq<Byte>, n: nat)
    requires |a| <= n <= |a + b|
    ensures (a + b)[..n] == a + b[..n - |a|] && (a + b)[n..] == b[n - |a|..]
  {
  }

  // ---- The theorems ------------------------------------------------------------------------------

  /** The bytes of a sequence of datagrams. */
  function Frames(ps: seq<seq<Byte>>): seq<Byte> {
    if ps == [] then [] else Header(|ps[0]|) + ps[0] + Frames(ps[1..])
  }

  /** What the payloads are cut to. */
  function Cut(ps: seq<seq<Byte>>, sizes: seq<nat>): (r: seq<seq<Byte>>)
    requires |sizes| <= |ps|
    ensures |r| == |sizes|
  {
    seq(|sizes|, i requires 0 <= i < |sizes| => ps[i][..Min(sizes[i], |ps[i]|)])
  }

  lemma ReadFromFrames(r: Reader, ps: seq<seq<Byte>>, n: nat)
    requires NoEmptyChunk(r.incoming) && ps != [] && |ps[0]| < LIMIT && Bytes(r) == Frames(ps)
    ensures var g := ReadFrom(r, n);
      g.Data? && g.data == ps[0][..Min(n, |ps[0]|)] && NoEmptyChunk(g.r.incoming) && Bytes(g.r) == Frames(ps[1..])
  {
    var h, p, rest := Header(|ps[0]|), ps[0], Frames(ps[1..]);
    assert Bytes(r)[..4] == h && Bytes(r)[4..] == p + rest;
    ReadFullBytes(r, 4);
    HeaderIsExactBelowTheLimit(|p|);
    var g := ReadFull(r, 4);
    ReadFullBytes(g.r, |p|);
    assert Bytes(g.r)[..|p|] == p && Bytes(g.r)[|p|..] == rest;
  }

  /** However the bytes of the datagrams are cut into chunks, ReadFrom returns the payloads
      in order, each cut to its buffer and never run into the next. */
  lemma {:induction false} BoundariesSurvive(r: Reader, ps: seq<seq<Byte>>, sizes: seq<nat>)
    requires NoEmptyChunk(r.incoming) && Bytes(r) == Frames(ps) && |sizes| <= |ps|
    requires forall i :: 0 <= i < |ps| ==> |ps[i]| < LIMIT
    ensures ReadAll(r, sizes) == Some(Cut(ps, sizes))
    decreases |sizes|
  {
    if sizes != [] {
      ReadFromFrames(r, ps, sizes[0]);
      BoundariesSurvive(ReadFrom(r, sizes[0]).r, ps[1..], sizes[1..]);
      assert Cut(ps, sizes) == [ps[0][..Min(sizes[0], |ps[0]|)]] + Cut(ps[1..], sizes[1..]);
    } else {
      assert Cut(ps, sizes) == [];
    }
  }

  lemma {:induction false} FlattenAppend(a: seq<seq<Byte>>, b: seq<seq<Byte>>)
    ensures Flatten(a + b) == Flatten(a) + Flatten(b)
    decreases |a|
  {
    if a == [] {
      assert a + b == b;
    } else {
      assert (a + b)[1..] == a[1..] + b;
      FlattenAppend(a[1..], b);
    }
  }

  lemma {:induction false} WrittenBytes(ps: seq<seq<Byte>>)
    ensures NoEmptyChunk(AllWritten(ps)) && Flatten(AllWritten(ps)) == Frames(ps)
    decreases |ps|
  {
    if ps != [] {
      var w := Written(ps[0]);
      FlattenAppend(w, AllWritten(ps[1..]));
      WrittenBytes(ps[1..]);
      assert Flatten(w) == Header(|ps[0]|) + ps[0] by {
        var t: seq<seq<Byte>> := w[1..];
        if ps[0] != [] {
          assert t == [ps[0]];
          assert |t[1..]| == 0;
        }
      }
    }
  }

  /** From WriteTo to ReadFrom over a pipe: the payloads come out as they went in, each cut
      to its buffer; and one more read finds the end. */
  lemma PipeKeepsDatagrams(ps: seq<seq<Byte>>, sizes: seq<nat>, more: nat)
    requires |sizes| <= |ps| && forall i :: 0 <= i < |ps| ==> |ps[i]| < LIMIT
    ensures ReadAll(Reader([], AllWritten(ps)), sizes) == Some(Cut(ps, sizes))
    ensures |sizes| == |ps| ==> ReadAll(Reader([], AllWritten(ps)), sizes + [more]) == None
  {
    WrittenBytes(ps);
    var r := Reader([], AllWritten(ps));
    assert Bytes(r) == Frames(ps);
    BoundariesSurvive(r, ps, sizes);
    if |sizes| == |ps| { EndIsFound(r, ps, sizes, more); }
  }

  lemma {:induction false} EndIsFound(r: Reader, ps: seq<seq<Byte>>, sizes: seq<nat>, more: nat)
    requires NoEmptyChunk(r.incoming) && Bytes(r) == Frames(ps) && |sizes| == |ps|
    requires forall i :: 0 <= i < |ps| ==> |ps[i]| < LIMIT
    ensures ReadAll(r, sizes + [more]) == None
    decreases |sizes|
  {
    var all := sizes + [more];
    if sizes == [] {
      ReadFullBytes(r, 4);
    } else {
      ReadFromFrames(r, ps, sizes[0]);
      assert all[1..] == sizes[1..] + [more];
      EndIsFound(ReadFrom(r, sizes[0]).r, ps[1..], sizes[1..], more);
    }
  }
}
