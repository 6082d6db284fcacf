/** Connections over a pipe as objects: a read fills the caller's buffer in place and
    keeps what is left of the chunk for the next one. */
module NetConn {
  import opened Wrappers
  import opened Datagrams

  datatype NetError = NotSupported | ClosedPipe | EndOfFile

  class Buffer {
    var bytes: seq<Byte>
  }

  /** The bytes of a buffer with data put at off. */
  function Filled(bytes: seq<Byte>, off: nat, data: seq<Byte>): (r: seq<Byte>)
    requires off + |data| <= |bytes|
    ensures |r| == |bytes|
  {
    bytes[..off] + data + bytes[off + |data|..]
  }

  /** incoming holds every chunk that is still to come before the peer closes; waiting for
      one is not modelled. sent is what went out. */
  class Conn {
    var valid: bool
    var closed: bool
    var leftover: seq<Byte>
    var incoming: seq<seq<Byte>>
    var sent: seq<seq<Byte>>

    constructor ()
      ensures valid && !closed && leftover == [] && incoming == [] && sent == []
    {
      valid, closed, leftover, incoming, sent := true, false, [], [], [];
    }

    function State(): Reader
      reads this
    {
      Reader(leftover, incoming)
    }

    predicate Open()
      reads this
    {
      valid && !closed
    }

    /** Reads what is left of the current chunk, or the next one. */
    method Read(p: Buffer, off: nat) returns (n: nat, err: Option<NetError>)
      requires off <= |p.bytes|
      modifies this, p
      ensures valid == old(valid) && closed == old(closed) && sent == old(sent)
      ensures !old(Open()) ==>
        n == 0 && err == Some(if valid then ClosedPipe else NotSupported) && State() == old(State()) && p.bytes == old(p.bytes)
      ensures old(Open()) ==>
        match old(Datagrams.Read(State(), |p.bytes| - off))
        case Eof(r) => n == 0 && err == Some(EndOfFile) && State() == r && p.bytes == old(p.bytes)
        case Data(data, r) =>
          err == None && n == |data| && State() == r && off + n <= |old(p.bytes)| && p.bytes == Filled(old(p.bytes), off, data)
    {
      if !valid { return 0, Some(NotSupported); }
      if closed { return 0, Some(ClosedPipe); }
      if |leftover| == 0 {
        if incoming == [] { return 0, Some(EndOfFile); }
        leftover, incoming := incoming[0], incoming[1..];
      }
      n := Min(|p.bytes| - off, |leftover|);
      p.bytes := Filled(p.bytes, off, leftover[..n]);
      leftover := leftover[n..];
      err := None;
    }

    /** Sends one chunk. */
    method Write(p: seq<Byte>) returns (n: nat, err: Option<NetError>)
      modifies this
      ensures valid == old(valid) && closed == old(closed) && State() == old(State())
      ensures if old(Open()) then n == |p| && err == None && sent == old(sent) + [p]
              else n == 0 && err == Some(if valid then ClosedPipe else NotSupported) && sent == old(sent)
    {
      if !valid { return 0, Some(NotSupported); }
      if closed { return 0, Some(ClosedPipe); }
      sent := sent + [p];
      return |p|, None;
    }

    method Close() returns (err: Option<NetError>)
      modifies this
      ensures valid == old(valid) && State() == old(State()) && sent == old(sent)
      ensures closed == (old(closed) || valid) && err == if valid then None else Some(NotSupported)
    {
      if !valid { return Some(NotSupported); }
      if closed { return None; }
      closed := true;
      return None;
    }
  }

  /** readFull: fills the whole buffer or fails. */
  method ReadFully(c: Conn, p: Buffer) returns (err: Option<NetError>)
    modifies c, p
    ensures c.Open() == old(c.Open()) && c.sent == old(c.sent) && |p.bytes| == |old(p.bytes)|
    ensures !old(c.Open()) && |p.bytes| > 0 ==> err.Some? && c.State() == old(c.State())
    ensures old(c.Open()) ==>
      match old(ReadFull(c.State(), |p.bytes|))
      case Data(data, r) => err == None && p.bytes == data && c.State() == r
      case Eof(r) => err == Some(EndOfFile) && c.State() == r
  {
    ghost var all := ReadFull(c.State(), |p.bytes|);
    var off := 0;
    while off < |p.bytes|
      invariant 0 <= off <= |p.bytes| == |old(p.bytes)| && c.Open() == old(c.Open()) && c.sent == old(c.sent)
      invariant !c.Open() ==> off == 0 && c.State() == old(c.State())
      invariant c.Open() ==> all == match ReadFull(c.State(), |p.bytes| - off)
                                    case Eof(r) => Eof(r)
                                    case Data(more, r) => Data(p.bytes[..off] + more, r)
    {
      ghost var before, was := c.State(), p.bytes;
      var n;
      n, err := c.Read(p, off);
      if err.Some? { return; }
      if n == 0 { return Some(EndOfFile); }
      ghost var data := Datagrams.Read(before, |was| - off).data;
      FilledPrefix(was, off, data);
      Joined(was[..off], data, ReadFull(c.State(), |was| - off - n));
      off := off + n;
    }
    assert p.bytes[..|p.bytes|] == p.bytes;
    return None;
  }

  lemma FilledPrefix(bytes: seq<Byte>, off: nat, data: seq<Byte>)
    requires off + |data| <= |bytes|
    ensures Filled(bytes, off, data)[..off + |data|] == bytes[..off] + data
  {
  }

  lemma Joined(a: seq<Byte>, b: seq<Byte>, g: Got)
    ensures g.Data? ==> a + (b + g.data) == a + b + g.data
  {
  }

  /** A new buffer of n bytes, filled. */
  method ReadNew(c: Conn, n: nat) returns (data: seq<Byte>, err: Option<NetError>)
    modifies c
    ensures c.Open() == old(c.Open()) && c.sent == old(c.sent) && (err == None ==> |data| == n)
    ensures !old(c.Open()) && n > 0 ==> err.Some?
    ensures old(c.Open()) ==>
      match old(ReadFull(c.State(), n))
      case Data(d, r) => err == None && data == d && c.State() == r
      case Eof(r) => err == Some(EndOfFile) && c.State() == r
  {
    var buf := new Buffer;
    buf.bytes := seq(n, _ => 0);
    err := None;
    if n > 0 { err := ReadFully(c, buf); }
    data := buf.bytes;
  }

  class PacketConn {
    var valid: bool
    var closed: bool
    var conn: Conn?

    constructor (conn: Conn)
      ensures valid && !closed && this.conn == conn
    {
      valid, closed, this.conn := true, false, conn;
    }

    /** Ready to use, and so is the connection under it. */
    predicate Ready()
      reads this, conn
    {
      valid && !closed && conn != null && conn.Open()
    }

    /** The header and, unless it is empty, the payload go out as a chunk each. */
    method WriteTo(p: seq<Byte>) returns (n: nat, err: Option<NetError>)
      modifies conn
      ensures conn != null ==> conn.State() == old(if conn == null then Reader([], []) else conn.State())
      ensures if old(Ready()) then n == |p| && err == None && conn.sent == old(conn.sent) + Written(p)
              else n == 0 && err.Some? && (conn != null ==> conn.sent == old(if conn == null then [] else conn.sent))
    {
      if !valid || closed { return 0, Some(ClosedPipe); }
      if conn == null { return 0, Some(ClosedPipe); }
      n := |p|;
      var hdr := [n / 0x100_0000 % 256, n / 0x1_0000 % 256, n / 256 % 256, n % 256];
      var k;
      k, err := conn.Write(hdr);
      if err.Some? { return k, err; }
      if n > 0 {
        k, err := conn.Write(p);
        if err.Some? { return k, err; }
      }
      return n, None;
    }

    /** Reads one datagram, cut to the caller's buffer. */
    method ReadFrom(p: Buffer) returns (n: nat, err: Option<NetError>)
      modifies conn, p
      ensures !old(Ready()) ==> n == 0 && err.Some? && p.bytes == old(p.bytes)
      ensures old(Ready()) ==>
        match old(Datagrams.ReadFrom(conn.State(), |p.bytes|))
        case Eof(_) => n == 0 && err == Some(EndOfFile) && p.bytes == old(p.bytes)
        case Data(data, r) => err == None && n == |data| <= |old(p.bytes)| && p.bytes == Filled(old(p.bytes), 0, data) && conn.State() == r
    {
      if !valid || closed { return 0, Some(ClosedPipe); }
      if conn == null { return 0, Some(ClosedPipe); }
      var hdr, buf;
      hdr, err := ReadNew(conn, 4);
      if err.Some? { return 0, err; }
      var size := HeaderValue(hdr);
      buf, err := ReadNew(conn, size);
      if err.Some? { return 0, err; }
      n := Min(|p.bytes|, size);
      p.bytes := Filled(p.bytes, 0, buf[..n]);
      return n, None;
    }
  }
}
