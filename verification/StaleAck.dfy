/** A run that strands a byte: B's first data segment is lost while A sends more than one window of its own. From
    then on the retransmissions acknowledge too little, and A refuses them for ever. */
module StaleAck {
  import opened Types
  import opened SeqNum
  import opened Segments
  import opened Connection
  import opened Calls
  import opened System
  import opened EndToEnd
  import opened NewReno
  import opened Stalled
  import opened Delivery
  import Retransmit
  import Reassembly
  import Congestion
  import Rtt

  const STAMPED: Options := NO_OPTIONS.(ts := Some(Stamp(0, 0)))

  function Data(seqno: u32, ackno: u32, bytes: seq<byte>): Seg {
    Seg(seqno, ackno, PSH + ACK, RCV_WND, STAMPED, bytes)
  }

  function PureAck(seqno: u32, ackno: u32): Seg {
    Seg(seqno, ackno, ACK, RCV_WND, STAMPED, [])
  }

  /** An established endpoint of the run: SND.UNA, SND.NXT, RCV.NXT, and no recovery under way. */
  predicate Mid(c: Conn, una: u32, nxt: u32, rcv: u32) {
    && c.state == Established && c.send == Send(0, una, nxt, RCV_WND, RCV_WND) && c.recv == Recv(0, rcv, RCV_WND)
    && !c.peerFin && c.pendingFin.None? && c.reasm == Reassembly.Reasm(1, map[])
    && c.cong.CubicArm? && !Congestion.InRecovery(c.cong) && c.opt == Settings(true, OUR_MSS, true, 0, 0, 0, true, false)
  }

  lemma FreshMid(c: Conn)
    requires Opened(c, OUR_MSS, RCV_WND)
    ensures Mid(c, 1, 1, 1) && c.sendBuf == [] && c.recvBuf == [] && c.retx.segs == []
  {
  }

  // ---- one endpoint ----

  /** With nothing in flight a poll sends one segment: all there is, or a window's worth. */
  lemma SendsOne(c: Conn, una: u32, rcv: u32)
    requires Mid(c, una, una, rcv) && c.retx.segs == [] && c.sendBuf != [] && una < 0x1_0000
    ensures var n := Min(|c.sendBuf|, 1024);
            var r := PollTransmit(c, 0);
            && r.1 == [Data(una, rcv, c.sendBuf[..n])] && Mid(r.0, una, una + n, rcv) && r.0.sendBuf == c.sendBuf[n..]
            && r.0.retx.segs == [Retransmit.Unacked(una, una + n, Data(una, rcv, c.sendBuf[..n]), 0, 0, false)]
            && r.0.recvBuf == c.recvBuf
  {
    var c0 := Stamped(c, 0);
    var n := Min(|c.sendBuf|, 1024);
    assert c0.opt == c.opt;
    assert NextSend(c0, 0.0, 0) == n;
    var t := Transmit(c0, n, PSH + ACK, 0);
    assert Pace(c0, 0.0, n, 0) == c0;
    assert t.1 == Data(una, rcv, c.sendBuf[..n]);
    assert Mid(t.0, una, una + n, rcv) && t.0.sendBuf == c.sendBuf[n..];
    assert t.0.retx.segs == [] + [Retransmit.Unacked(una, una + n, t.1, 0, 0, false)];
    NoMoreRoom(t.0, una, n, rcv);
    OnceFilled(c0, t, n);
    assert PollTransmit(c, 0) == (ArmProbe(t.0, 0), [t.1]) by { hide Transmit, ArmProbe, FillWindow; }
    ArmedMid(t.0, una, una + n, rcv);
    hide Transmit, ArmProbe, FillWindow, PollTransmit, NextSend;
  }

  lemma OnceFilled(c: Conn, t: (Conn, Seg), n: nat)
    requires c.sendBuf != [] && NextSend(c, 0.0, 0) == n && 0 < n <= |c.sendBuf| && Pace(c, 0.0, n, 0) == c
    requires t == Transmit(c, n, PSH + ACK, 0) && FillWindow(t.0, 0.0, 0) == (t.0, [])
    ensures FillWindow(c, 0.0, 0) == (t.0, [t.1])
  {
    hide Transmit, NextSend, Pace;
    assert [t.1] + [] == [t.1];
  }

  lemma NoMoreRoom(c: Conn, una: u32, n: nat, rcv: u32)
    requires una + n < TWO_31 && Mid(c, una, una + n, rcv) && (c.sendBuf == [] || n == 1024)
    ensures FillWindow(c, 0.0, 0) == (c, [])
  {
    assert c.sendBuf != [] ==> NextSend(c, 0.0, 0) == 0;
    hide Transmit;
  }

  lemma ArmedMid(c: Conn, una: u32, nxt: u32, rcv: u32)
    requires Mid(c, una, nxt, rcv)
    ensures var a := ArmProbe(c, 0);
            Mid(a, una, nxt, rcv) && a.sendBuf == c.sendBuf && a.retx == c.retx && a.recvBuf == c.recvBuf
  {
    hide FlightSize, Rtt.Rto;
  }

  /** In-order data that acknowledges nothing new is delivered and acknowledged. */
  lemma HearsData(c: Conn, una: u32, nxt: u32, rcv: u32, bytes: seq<byte>)
    requires Mid(c, una, nxt, rcv) && 1 <= rcv && rcv + |bytes| < 0x1_0000 && bytes != [] && una <= nxt < 0x1_0000
    ensures var r := OnSegment(c, Data(rcv, una, bytes), ENV, 0);
            && Mid(r.0, una, nxt, rcv + |bytes|) && r.0.sendBuf == c.sendBuf && r.0.retx.segs == c.retx.segs
            && r.1 == Some(PureAck(nxt, rcv + |bytes|))
  {
    var p := Data(rcv, una, bytes);
    hide OnSegment, OnText, Arrive, Refresh, OnAckField, Paws;
    var c1 := Refresh(Arrive(c, 0), p);
    RefreshMid(c, p, una, nxt, rcv);
    NothingAcked(c1, p, una, nxt, rcv);
    OpenOnly(c, p);
    DeliversMid(c1, una, nxt, rcv, bytes);
  }

  lemma NothingAcked(c: Conn, p: Seg, una: u32, nxt: u32, rcv: u32)
    requires Mid(c, una, nxt, rcv) && una <= nxt < 0x1_0000 && p.ackno == una && p.payload != [] && p.opts.sack == []
    ensures OnAckField(c, p, c.send.wnd, ENV, 0) == (c, None, false)
  {
  }

  lemma DeliversMid(c: Conn, una: u32, nxt: u32, rcv: u32, bytes: seq<byte>)
    requires Mid(c, una, nxt, rcv) && 1 <= rcv && rcv + |bytes| < 0x1_0000 && bytes != []
    ensures var r := OnText(c, Data(rcv, una, bytes));
            && Mid(r.0, una, nxt, rcv + |bytes|) && r.0.sendBuf == c.sendBuf && r.0.retx == c.retx
            && r.1 == Some(PureAck(nxt, rcv + |bytes|))
  {
    var d := Deliver(c, rcv, bytes);
    RecvInOrder(c.reasm, rcv, bytes);
    assert Mid(d, una, nxt, rcv + |bytes|) && d.sendBuf == c.sendBuf && d.retx == c.retx by { hide Reassembly.Recv; }
    NoBlocks(d.reasm);
    hide Deliver, Reassembly.SackBlocks;
  }

  lemma NoBlocks(r: Reassembly.Reasm)
    requires r.frags == map[]
    ensures Reassembly.SackBlocks(r) == []
  {
  }

  lemma RecvInOrder(r: Reassembly.Reasm, rcv: u32, bytes: seq<byte>)
    requires r == Reassembly.Reasm(1, map[]) && 1 <= rcv && rcv + |bytes| < 0x1_0000 && bytes != []
    ensures Reassembly.Recv(r, rcv, bytes, rcv) == (r, bytes)
  {
    var off: u32 := rcv - 1;
    assert Sub(rcv, 1) == off;
    var one := map[off := bytes];
    assert map[][off := bytes] == one && one - {off} == map[];
    assert Reassembly.Drain(map[], Add(off, Low32(|bytes|))) == (map[], []);
    assert bytes + [] == bytes;
    assert Reassembly.Drain(one, off) == (map[], bytes);
  }

  predicate OneInFlight(c: Conn, una: u32, nxt: u32) {
    |c.retx.segs| == 1 && c.retx.segs[0].end == nxt
  }

  /** What an arrival does before its acknowledgement field is read. */
  lemma RefreshMid(c: Conn, p: Seg, una: u32, nxt: u32, rcv: u32)
    requires Mid(c, una, nxt, rcv) && p.window == RCV_WND && p.opts == STAMPED
    ensures var c1 := Refresh(Arrive(c, 0), p);
            && Mid(c1, una, nxt, rcv) && c1.sendBuf == c.sendBuf && c1.retx == c.retx && c1.recvBuf == c.recvBuf
            && !Paws(Arrive(c, 0), p) && Arrive(c, 0).state == Established && Arrive(c, 0).send.wnd == RCV_WND
  {
  }

  lemma OpenOnly(c: Conn, p: Seg)
    requires c.state == Established && Arrive(c, 0).state == Established && !Has(p.flags, RST) && !Has(p.flags, SYN)
    requires Has(p.flags, ACK) && !Paws(Arrive(c, 0), p)
    requires var r := OnAckField(Refresh(Arrive(c, 0), p), p, Arrive(c, 0).send.wnd, ENV, 0); !r.2
    ensures var r := OnAckField(Refresh(Arrive(c, 0), p), p, Arrive(c, 0).send.wnd, ENV, 0);
            OnSegment(c, p, ENV, 0) == OnText(r.0, p)
  {
    hide OnText, Arrive, Refresh, OnAckField, Paws, Has, OnRst, MaybeChallenge;
  }

  /** The acknowledgement of all that is in flight. */
  lemma HearsAll(c: Conn, una: u32, nxt: u32, rcv: u32, p: Seg)
    requires Mid(c, una, nxt, rcv) && una < nxt < 0x1_0000 && rcv < 0x1_0000 && p == PureAck(rcv + 1, nxt)
    requires OneInFlight(c, una, nxt)
    ensures var r := OnSegment(c, p, ENV, 0);
            && Mid(r.0, nxt, nxt, rcv) && r.0.sendBuf == c.sendBuf && r.0.retx.segs == [] && r.0.recvBuf == c.recvBuf
  {
    hide OnSegment, OnText, Arrive, Refresh, OnAckField, Paws;
    var c1 := Refresh(Arrive(c, 0), p);
    RefreshMid(c, p, una, nxt, rcv);
    AllAcked(c1, p, una, nxt, rcv);
    OpenOnly(c, p);
    NoText(OnAckField(c1, p, c1.send.wnd, ENV, 0).0, p);
  }

  lemma NoText(c: Conn, p: Seg)
    requires c.state == Established && c.pendingFin.None? && p.payload == [] && p.flags == ACK
    ensures OnText(c, p) == (c, None)
  {
  }

  lemma AllAcked(c: Conn, p: Seg, una: u32, nxt: u32, rcv: u32)
    requires Mid(c, una, nxt, rcv) && una < nxt < 0x1_0000 && p.ackno == nxt && p.opts == STAMPED
    requires OneInFlight(c, una, nxt)
    ensures var r := OnAckField(c, p, c.send.wnd, ENV, 0);
            && !r.2 && Mid(r.0, nxt, nxt, rcv) && r.0.sendBuf == c.sendBuf && r.0.retx.segs == []
            && r.0.recvBuf == c.recvBuf
  {
    assert AckAcceptable(c, nxt) && Between(una, nxt, nxt);
    assert c.retx.segs[..0] == [];
    assert Retransmit.Keep(c.retx.segs, nxt) == [];
    var a := Acked(c, p, 0);
    assert a.send == c.send.(una := nxt) && a.retx.segs == [] && a.sendBuf == c.sendBuf && a.recvBuf == c.recvBuf
           && a.recv == c.recv && a.state == c.state && a.reasm == c.reasm && a.opt == c.opt && a.peerFin == c.peerFin
           && a.pendingFin == c.pendingFin by {
      hide AckSample, Retransmit.Keep, Retransmit.Scan, Rtt.Sample;
    }
    AckLeavesCubic(c, p);
    hide Acked, AckSample, AckAcceptable, Between, Congestion.OnAck;
  }

  lemma AckLeavesCubic(c: Conn, p: Seg)
    requires c.cong.CubicArm? && !Congestion.InRecovery(c.cong)
    ensures var k := Congestion.OnAck(c.cong, Sub(p.ackno, c.send.una), AckSample(c, p, 0), ENV.curve, 0);
            k.CubicArm? && !Congestion.InRecovery(k)
  {
    hide AckSample, Sub;
  }

  // ---- the run ----

  lemma Polls(s: Sys)
    requires Reached(s) && s.a.conn.Some?
    ensures var r := PollTransmit(s.a.conn.value, 0);
            var t := StepA(s, PollEvent(0));
            Reached(t) && t == s.(a := s.a.(conn := Some(r.0)), toB := s.toB + OnWire(r.1))
  {
    hide Reached, PollTransmit;
    ReachedStepA(s, PollEvent(0));
  }

  lemma Writes(s: Sys, data: seq<byte>)
    requires Reached(s) && s.a.conn.Some? && s.a.written == [] && s.a.conn.value.sendBuf == [] && |data| < 2000
    ensures var t := StepA(s, WriteEvent(data));
            && Reached(t) && t == s.(a := s.a.(conn := Some(s.a.conn.value.(sendBuf := data)), written := data))
  {
    hide Reached;
    ReachedStepA(s, WriteEvent(data));
    assert [] + data == data;
    assert s.toB + OnWire([]) == s.toB;
  }

  const X_SEG: Seg := Data(1, 1, [7])

  function Zeros(n: nat): (z: seq<byte>)
    ensures |z| == n
  {
    seq(n, _ => 0)
  }

  /** B has written one byte and sent it; the segment is on its way, or lost. */
  lemma Sent() returns (s: Sys)
    ensures Reached(s) && s.a.conn.Some? && Mid(s.a.conn.value, 1, 1, 1) && s.b.conn.Some? && Mid(s.b.conn.value, 1, 2, 1)
    ensures s.a.conn.value.sendBuf == [] && s.a.conn.value.recvBuf == [] && s.a.conn.value.retx.segs == []
    ensures s.a.written == [] && s.a.taken == [] && s.b.written == [7] && s.aIss == 0 && s.bIss == 0
    ensures X_SEG in s.toA && forall q :: q in s.toA && q.payload != [] ==> q == X_SEG
  {
    hide Reached, StepA, Opened, PollTransmit, Mid, Has;
    var h := BothOpen();
    FreshMid(h.a.conn.value);
    FreshMid(h.b.conn.value);
    FlipReached(h);
    Writes(Flip(h), [7]);
    var g := StepA(Flip(h), WriteEvent([7]));
    WroteMid(h.b.conn.value, [7], 1, 1, 1);
    SendsOne(g.a.conn.value, 1, 1);
    assert [7 as byte][..1] == [7];
    Polls(g);
    var f := StepA(g, PollEvent(0));
    FlipReached(f);
    s := Flip(f);
  }

  lemma WroteMid(c: Conn, data: seq<byte>, una: u32, nxt: u32, rcv: u32)
    requires Mid(c, una, nxt, rcv)
    ensures Mid(c.(sendBuf := data), una, nxt, rcv)
  {
  }

  /** A and B in the middle of it: A has had all its data acknowledged up to una; B still waits for its byte to be. */
  ghost predicate Going(s: Sys, una: u32) {
    && Reached(s) && s.a.conn.Some? && Mid(s.a.conn.value, una, una, 1) && s.b.conn.Some? && Mid(s.b.conn.value, 1, 2, una)
    && s.a.conn.value.recvBuf == [] && s.a.conn.value.retx.segs == []
    && s.a.taken == [] && s.b.written == [7] && s.aIss == 0 && s.bIss == 0
    && X_SEG in s.toA && forall q :: q in s.toA && q.payload != [] ==> q == X_SEG
  }

  /** One round: A sends, B acknowledges, A hears it. */
  lemma Round(s: Sys, una: u32) returns (t: Sys)
    requires Going(s, una) && s.a.conn.value.sendBuf != [] && 1 <= una < 0x8000
    ensures var n := Min(|s.a.conn.value.sendBuf|, 1024);
            Going(t, una + n) && t.a.conn.value.sendBuf == s.a.conn.value.sendBuf[n..]
  {
    hide Reached, StepA, PollTransmit, Mid, OnSegment;
    var n := Min(|s.a.conn.value.sendBuf|, 1024);
    var bytes := s.a.conn.value.sendBuf[..n];
    var y := Data(una, 1, bytes);
    SendsOne(s.a.conn.value, una, 1);
    Polls(s);
    var g := StepA(s, PollEvent(0));
    assert y in g.toB;
    HearsData(g.b.conn.value, 1, 2, una, bytes);
    FlipReached(g);
    Hears(Flip(g), y, y);
    var f := StepA(Flip(g), ReceiveEvent(y, ENV, 0));
    FlipReached(f);
    var k := PureAck(2, una + n);
    assert k in f.toB;
    HearsAll(f.b.conn.value, una, una + n, 1, k);
    Hears(Flip(f), k, k);
    t := StepA(Flip(f), ReceiveEvent(k, ENV, 0));
  }

  /** So the promise that every written byte arrives in the end is false: a state is reached in which B has written
      a byte, sent it and keeps it queued, and however long the run goes on from there, with every segment
      delivered as often as one likes, A (which does not close) is never given it. Nothing was advertised, here or
      later, but the window of 1024 bytes that the code always advertises. */
  lemma ByteStranded() returns (s: Sys)
    ensures Stuck(s, X_SEG, RCV_WND, 0, []) && s.b.written == [7]
    ensures s.a.conn.value.state == Established && s.b.conn.value.state == Established
    ensures forall acts {:trigger Run(s, acts)} :: AllOrdinary(acts, RCV_WND, 0) ==>
              var t := Run(s, acts);
              t.a.conn.Some? && EndToEnd.Delivered(t.a) == []
  {
    var h := Sent();
    var data := Zeros(1025);
    s := TwoRounds(h, data);
    assert Stuck(s, X_SEG, RCV_WND, 0, []) by { StuckNow(s); }
    hide Stuck, AllOrdinary, Run, Reached, Mid;
    forall acts | AllOrdinary(acts, RCV_WND, 0)
      ensures Run(s, acts).a.conn.Some? && EndToEnd.Delivered(Run(s, acts).a) == []
    {
      StrandedForever(s, acts, X_SEG, RCV_WND, 0, []);
      StuckMeans(Run(s, acts));
    }
  }

  lemma StuckMeans(t: Sys)
    requires Stuck(t, X_SEG, RCV_WND, 0, [])
    ensures t.a.conn.Some? && EndToEnd.Delivered(t.a) == []
  {
    hide Reached, Waits, OnlyX;
  }

  lemma TwoRounds(h: Sys, data: seq<byte>) returns (s: Sys)
    requires Going(h, 1) && h.a.written == [] && h.a.conn.value.sendBuf == [] && |data| == 1025
    ensures Going(s, 1026)
  {
    hide Reached, StepA, Mid;
    Writes(h, data);
    WroteMid(h.a.conn.value, data, 1, 1, 1);
    var g := StepA(h, WriteEvent(data));
    assert Going(g, 1);
    hide Going;
    var f := Round(g, 1);
    s := Round(f, 1025);
  }

  lemma StuckNow(s: Sys)
    requires Going(s, 1026)
    ensures Stuck(s, X_SEG, RCV_WND, 0, [])
    ensures s.a.conn.value.state == Established && s.b.conn.value.state == Established && s.b.written == [7]
  {
    hide Reached;
    assert EndToEnd.Delivered(s.a) == [];
  }
}
