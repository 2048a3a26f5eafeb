/** The pump of a single stream (`TcpStream` in src/socket.rs): timers, then every ready datagram that is
    for this connection, then transmission. */
module Stream {
  import opened Types
  import opened Segments
  import opened Connection
  import opened Calls
  import opened Packets
  import opened Server
  import opened TcpConnections

  /** The segments for this 4-tuple handled in order of arrival, and the replies. */
  function Fed(c: Conn, quad: Quad, arrivals: seq<Arrival>, now: nat): (Conn, seq<Seg>) {
    if arrivals == [] then (c, []) else
      var before := Fed(c, quad, arrivals[..|arrivals| - 1], now);
      var last := arrivals[|arrivals| - 1];
      if last.quad != quad then before else
        var r := OnSegment(before.0, last.seg, last.env, now);
        (r.0, before.1 + Outs(r.1))
  }

  function Pumped(c: Conn, quad: Quad, arrivals: seq<Arrival>, now: nat): (Conn, seq<Seg>) {
    var t := OnTick(c, now);
    var f := Fed(t.0, quad, arrivals, now);
    var p := PollTransmit(f.0, now);
    (p.0, t.1 + f.1 + p.1)
  }

  class TcpStream {
    const conn: TcpConnection
    const quad: Quad

    constructor (conn: TcpConnection, quad: Quad)
      ensures this.conn == conn && this.quad == quad
    {
      this.conn, this.quad := conn, quad;
    }

    method Ingest(arrivals: seq<Arrival>, now: nat) returns (out: seq<Seg>)
      modifies conn, conn.retx, conn.rtt, conn.reasm
      ensures (conn.View(), out) == Fed(old(conn.View()), quad, arrivals, now)
    {
      hide OnSegment;
      out := [];
      for i := 0 to |arrivals|
        invariant (conn.View(), out) == Fed(old(conn.View()), quad, arrivals[..i], now)
      {
        assert arrivals[..i + 1][..i] == arrivals[..i];
        if arrivals[i].quad == quad {
          var reply := conn.OnSegment(arrivals[i].seg, arrivals[i].env, now);
          out := out + Outs(reply);
        }
      }
      assert arrivals[..|arrivals|] == arrivals;
    }

    /** One non-blocking pump of the connection. */
    method Poll(arrivals: seq<Arrival>, now: nat) returns (out: seq<Seg>)
      modifies conn, conn.retx, conn.rtt, conn.reasm
      ensures (conn.View(), out) == Pumped(old(conn.View()), quad, arrivals, now)
    {
      hide OnTick, Fed, PollTransmit;
      out := conn.OnTick(now);
      var replies := Ingest(arrivals, now);
      var data := conn.PollTransmit(now);
      out := out + replies + data;
    }
  }

  // ---- the server is many streams ----

  lemma {:induction false} FedIsIngested(s: Slot, q: Quad, arrivals: seq<Arrival>, now: nat)
    requires s.conn.Some?
    ensures var f := Fed(s.conn.value, q, arrivals, now);
            SoloIngest(s, q, arrivals, now) == s.(conn := Some(f.0), sent := s.sent + f.1)
  {
    hide OnSegment, Accept, OpensHere;
    if arrivals == [] {
      assert s.sent + [] == s.sent;
    } else {
      var n := |arrivals| - 1;
      FedIsIngested(s, q, arrivals[..n], now);
      var f := Fed(s.conn.value, q, arrivals[..n], now);
      var last := arrivals[n];
      if last.quad == q {
        var more := Outs(OnSegment(f.0, last.seg, last.env, now).1);
        assert (s.sent + f.1) + more == s.sent + (f.1 + more);
      }
    }
  }

  /** In the server's table a connection goes through one poll exactly as it would behind its own
      `TcpStream` given the same datagrams: the same state, and the same packets in the same order. */
  lemma ServerIsManyStreams(s: Slot, q: Quad, arrivals: seq<Arrival>, now: nat)
    requires s.conn.Some?
    ensures var p := Pumped(s.conn.value, q, arrivals, now);
            var r := SoloPumped(s, q, arrivals, now);
            r.conn == Some(p.0) && r.sent == s.sent + p.1
  {
    hide OnTick, PollTransmit, Fed, SoloIngest;
    var t := OnTick(s.conn.value, now);
    var ticked := SoloTick(s, now);
    FedIsIngested(ticked, q, arrivals, now);
    var f := Fed(t.0, q, arrivals, now);
    var p := PollTransmit(f.0, now);
    assert ((s.sent + t.1) + f.1) + p.1 == s.sent + (t.1 + f.1 + p.1);
  }
}
