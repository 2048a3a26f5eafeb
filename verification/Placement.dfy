/** Where and when a sender's packets lie: what it puts on the wire repeats what it has queued, or carries the
    present clock and starts where nothing was sent before. */
module Placement {
  import opened Types
  import opened SeqNum
  import opened Segments
  import opened Connection
  import opened Calls
  import opened Lifecycle
  import opened Segmentation
  import opened Direction
  import opened Arrival
  import opened System
  import opened EndToEnd
  import opened Wrap
  import Sender
  import Receiver
  import Retransmit
  import Congestion
  import Rtt

  /** The timestamp, if any, is v. */
  predicate Dated(p: Seg, v: u32) {
    p.opts.ts.Some? ==> p.opts.ts.value.val == v
  }

  /** Every packet of the output repeats a queued one, or has the present clock v and starts at SND.NXT or later;
      only a keepalive probe, which goes out with nothing in flight, lies below. */
  ghost predicate Placed(c: Conn, outs: seq<Seg>, v: u32) {
    forall p :: p in outs ==> PlacedOne(c, p, v)
  }

  ghost predicate PlacedOne(c: Conn, p: Seg, v: u32) {
    || Retransmit.PacketIn(c.retx.segs, p)
    || (Dated(p, v) && (Off(c.send.iss, p.seqno) >= Off(c.send.iss, c.send.nxt) || (Bare(p) && c.send.una == c.send.nxt)))
  }

  /** Room on the circle for what is still to be sent. */
  predicate RoomAhead(c: Conn) {
    Off(c.send.iss, c.send.nxt) + |c.sendBuf| < TWO_31
  }

  predicate Forward(c: Conn, c': Conn) {
    c'.send.iss == c.send.iss && Off(c.send.iss, c'.send.nxt) >= Off(c.send.iss, c.send.nxt)
  }

  ghost predicate Beyond(c: Conn, outs: seq<Seg>, v: u32) {
    forall p :: p in outs ==> Dated(p, v) && Off(c.send.iss, p.seqno) >= Off(c.send.iss, c.send.nxt)
  }

  lemma TransmitPlace(c: Conn, n: nat, flags: byte, now: nat)
    requires RoomAhead(c) && n <= |c.sendBuf|
    ensures var t := Transmit(c, n, flags, now);
            && t.1.seqno == c.send.nxt && Dated(t.1, c.opt.tsVal) && Forward(c, t.0) && RoomAhead(t.0)
            && |t.0.sendBuf| == |c.sendBuf| - n && t.0.opt == c.opt
  {
    Receiver.DeliveredOff(c.send.iss, c.send.nxt, n);
    SegmentDated(c, flags, c.sendBuf[..n]);
    hide Segment, Add, Sub, Off, Low32, Dated;
  }

  lemma SegmentDated(c: Conn, flags: byte, payload: seq<byte>)
    ensures var p := Segment(c, c.send.nxt, c.recv.nxt, flags, payload);
            p.seqno == c.send.nxt && Dated(p, c.opt.tsVal)
  {
  }

  lemma BeyondMore(c: Conn, t: Conn, p: Seg, rest: seq<Seg>, v: u32)
    requires Forward(c, t) && p.seqno == c.send.nxt && Dated(p, v) && Beyond(t, rest, v)
    ensures Beyond(c, [p] + rest, v)
  {
    hide Off, Dated;
  }

  lemma {:induction false} FillPipePlace(c: Conn, limit: u32, now: nat)
    requires RoomAhead(c)
    ensures Beyond(c, FillPipe(c, limit, now).1, c.opt.tsVal) && Forward(c, FillPipe(c, limit, now).0)
    decreases |c.sendBuf|
  {
    var pipe := Retransmit.Pipe(c.retx);
    hide Retransmit.Pipe, Transmit, Off;
    if c.sendBuf != [] && pipe < limit {
      var n := Min(Min(limit - pipe, c.opt.sendMss), |c.sendBuf|);
      if n != 0 {
        var t := Transmit(c, n, PSH + ACK, now);
        TransmitPlace(c, n, PSH + ACK, now);
        FillPipePlace(t.0, limit, now);
        BeyondMore(c, t.0, t.1, FillPipe(t.0, limit, now).1, c.opt.tsVal);
        hide Beyond;
      }
    }
  }

  lemma PaceKeeps(c: Conn, pacing: real, n: nat, now: nat)
    ensures var p := Pace(c, pacing, n, now); p.send == c.send && p.sendBuf == c.sendBuf && p.opt == c.opt
  {
    hide Ceil;
  }

  lemma {:induction false} FillWindowPlace(c: Conn, pacing: real, now: nat)
    requires RoomAhead(c)
    ensures Beyond(c, FillWindow(c, pacing, now).1, c.opt.tsVal) && Forward(c, FillWindow(c, pacing, now).0)
    decreases |c.sendBuf|
  {
    var n := if c.sendBuf == [] then 0 else NextSend(c, pacing, now);
    PaceKeeps(c, pacing, n, now);
    hide Transmit, Off, UsableWindow, FlightSize, Pace;
    if n != 0 {
      var c1 := Pace(c, pacing, n, now);
      var t := Transmit(c1, n, PSH + ACK, now);
      TransmitPlace(c1, n, PSH + ACK, now);
      hide NextSend;
      FillWindowPlace(t.0, pacing, now);
      BeyondMore(c, t.0, t.1, FillWindow(t.0, pacing, now).1, c.opt.tsVal);
      hide Beyond;
    }
  }

  lemma QueuedPlaced(c: Conn, outs: seq<Seg>, v: u32)
    requires Retransmit.PacketsIn(c.retx.segs, outs)
    ensures Placed(c, outs, v)
  {
    hide Off, Dated;
  }

  lemma PlacedBoth(c: Conn, a: seq<Seg>, b: seq<Seg>, v: u32)
    requires Placed(c, a, v) && Placed(c, b, v)
    ensures Placed(c, a + b, v)
  {
    hide PlacedOne;
  }

  lemma PlacedAt(c: Conn, outs: seq<Seg>, q: Seg, v: u32)
    requires Placed(c, outs, v) && q in outs
    ensures PlacedOne(c, q, v)
  {
    hide PlacedOne;
  }

  lemma PollPlace(c: Conn, now: nat)
    requires RoomAhead(c)
    ensures Placed(c, PollTransmit(c, now).1, Low32(now)) && Forward(c, PollTransmit(c, now).0)
  {
    var v := Low32(now);
    var c0 := Stamped(c, now);
    var limit := SendLimit(c0);
    var holes := FillHoles(c0.retx, limit, now);
    Sender.FillHolesShape(c0.retx, limit, now);
    QueuedPlaced(c, holes.1, v);
    FillPipePlace(c0.(retx := holes.0), limit, now);
    BeyondSame(c, c0.(retx := holes.0), FillPipe(c0.(retx := holes.0), limit, now).1, v);
    PlacedBoth(c, holes.1, FillPipe(c0.(retx := holes.0), limit, now).1, v);
    FillWindowPlace(c0, Congestion.PacingRate(c0.cong), now);
    BeyondSame(c, c0, FillWindow(c0, Congestion.PacingRate(c0.cong), now).1, v);
    var f := FillWindow(c0, Congestion.PacingRate(c0.cong), now).0;
    assert ArmProbe(f, now).send == f.send by { hide FlightSize, Rtt.Rto; }
    hide Placed, FillHoles, FillPipe, FillWindow, ArmProbe, SendLimit, Off, Beyond, Low32;
    assert Placed(c, [], v) by { NonePlaced(c, v); }
  }

  lemma NonePlaced(c: Conn, v: u32)
    ensures Placed(c, [], v)
  {
  }

  lemma BeyondSame(c: Conn, c': Conn, outs: seq<Seg>, v: u32)
    requires c'.send == c.send && Beyond(c', outs, v)
    ensures Placed(c, outs, v)
  {
    hide Off, Retransmit.PacketIn, Dated;
  }

  lemma SamePackets(a: seq<Retransmit.Unacked>, b: seq<Retransmit.Unacked>, outs: seq<Seg>)
    requires Retransmit.SameShape(a, b) && Retransmit.PacketsIn(b, outs)
    ensures Retransmit.PacketsIn(a, outs)
  {
    forall p | p in outs
      ensures Retransmit.PacketIn(a, p)
    {
      var i :| 0 <= i < |b| && b[i].packet == p;
      assert a[i].packet == p;
    }
  }

  lemma ShapeChain(a: seq<Retransmit.Unacked>, b: seq<Retransmit.Unacked>, c: seq<Retransmit.Unacked>)
    requires Retransmit.SameShape(a, b) && Retransmit.SameShape(b, c)
    ensures Retransmit.SameShape(a, c)
  {
  }

  lemma ResendsChain(c: Conn, a: (Conn, seq<Seg>), b: (Conn, seq<Seg>))
    requires Resends(c, a) && Resends(a.0, b)
    ensures Resends(c, (b.0, a.1 + b.1))
  {
    ShapeChain(c.retx.segs, a.0.retx.segs, b.0.retx.segs);
    SamePackets(c.retx.segs, a.0.retx.segs, b.1);
    hide Retransmit.SameShape, Retransmit.PacketIn;
  }

  lemma PersistPlace(c: Conn, now: nat)
    requires RoomAhead(c)
    ensures Beyond(c, TickPersist(c, now).1, c.opt.tsVal) && Forward(c, TickPersist(c, now).0)
    ensures TickPersist(c, now).0.opt == c.opt
    ensures FlightSize(TickPersist(c, now).0) == 0 ==> TickPersist(c, now).0.send == c.send
  {
    if WindowShut(c) && c.clock.persistMs != 0 && now >= c.clock.persistMs {
      TransmitPlace(c, 1, ACK, now);
      OneInFlight(c.send.una, c.send.nxt);
      ProbeFlight(c, now);
    }
    hide Transmit, Rtt.Rto, FlightSize, Off, Dated;
  }

  lemma ProbeFlight(c: Conn, now: nat)
    requires FlightSize(c) == 0 && c.sendBuf != []
    ensures FlightSize(Transmit(c, 1, ACK, now).0) == 1
  {
    OneInFlight(c.send.una, c.send.nxt);
    hide Segment, Add;
  }

  lemma KeepalivePlace(c: Conn, now: nat)
    ensures forall p :: p in TickKeepalive(c, now).1 ==> Bare(p) && Dated(p, c.opt.tsVal) && c.send.una == c.send.nxt
    ensures TickKeepalive(c, now).1 != [] ==> FlightSize(c) == 0
    ensures TickKeepalive(c, now).0.send == c.send
  {
    EmptyFlight(c);
    hide FlightSize, Sub;
  }

  lemma EmptyFlight(c: Conn)
    ensures FlightSize(c) == 0 ==> c.send.una == c.send.nxt
  {
  }

  lemma KeepalivePlaced(c: Conn, e: Conn, now: nat)
    requires FlightSize(e) == 0 ==> e.send == c.send
    ensures Placed(c, TickKeepalive(e, now).1, e.opt.tsVal)
  {
    KeepalivePlace(e, now);
    hide TickKeepalive, FlightSize, Off, Dated, Bare, Retransmit.PacketIn;
  }

  lemma TickPlace(c: Conn, now: nat)
    requires RoomAhead(c)
    ensures Placed(c, OnTick(c, now).1, Low32(now)) && Forward(c, OnTick(c, now).0)
  {
    var v := Low32(now);
    var c0 := Reap(Stamped(c, now), now);
    assert c0.send == c.send && c0.sendBuf == c.sendBuf && c0.retx == c.retx && c0.opt.tsVal == v;
    hide Reap, Stamped, TickRack, TickProbe, TickRto, TickPersist, TickKeepalive, Resends, Off, Beyond, Placed,
      FlightSize;
    hide Low32;
    var a := TickRack(c0, now);
    var b := TickProbe(a.0, now);
    var r := TickRto(b.0, now);
    var e := TickPersist(r.0, now);
    var f := TickKeepalive(e.0, now);
    ResendSteps(c0, now);
    ResendSteps(a.0, now);
    ResendSteps(b.0, now);
    ResendsChain(c0, a, b);
    ResendsChain(c0, (b.0, a.1 + b.1), r);
    ResentPlaced(c, c0, r.0, a.1 + b.1 + r.1, v);
    PersistPlace(r.0, now);
    BeyondSame(c, r.0, e.1, v);
    KeepalivePlace(e.0, now);
    KeepalivePlaced(c, e.0, now);
    PlacedBoth(c, a.1 + b.1 + r.1, e.1, v);
    PlacedBoth(c, a.1 + b.1 + r.1 + e.1, f.1, v);
  }

  lemma ResentPlaced(c: Conn, c0: Conn, r: Conn, outs: seq<Seg>, v: u32)
    requires c0.send == c.send && c0.sendBuf == c.sendBuf && c0.retx == c.retx && Resends(c0, (r, outs)) && RoomAhead(c)
    ensures Placed(c, outs, v) && r.send == c.send && RoomAhead(r) && r.opt == c0.opt
  {
    QueuedPlaced(c, outs, v);
    hide Off, Placed, Retransmit.SameShape, Retransmit.PacketIn;
  }

  lemma ClosePlace(c: Conn, now: nat)
    requires RoomAhead(c)
    ensures Placed(c, Outs(Close(c, now).1), Low32(now)) && Forward(c, Close(c, now).0)
  {
    Receiver.DeliveredOff(c.send.iss, c.send.nxt, 0);
    NextPlace(c.send.iss, c.send.nxt);
    hide Off, Add, Retransmit.PacketIn, Low32;
  }

  /** The clock an event refreshes the timestamps to. */
  function StampOf(e: Event): u32 {
    if e.PollEvent? || e.TickEvent? || e.CloseEvent? || e.ReceiveEvent? then Low32(e.now) else 0
  }

  /** What a sender puts on the wire for any event of the two-endpoint system. */
  lemma EventPlace(s: Sys, e: Event)
    requires Reached(s) && s.a.conn.Some?
    ensures var r := Local(s.a, s.aIss, s.toA, e);
            && r.0.conn.Some? && Placed(s.a.conn.value, r.1, StampOf(e)) && Forward(s.a.conn.value, r.0.conn.value)
  {
    var c := s.a.conn.value;
    RoomReached(s);
    NonePlaced(c, StampOf(e));
    hide Reached, Apply, Placed, RoomAhead, Deliverable, Off, OnSegment, Accept, Take;
    if e.ReceiveEvent? {
      if Deliverable(s.toA, e.p) {
        ReplyPlace(s, e.p, e.env, e.now);
        ApplyHeard(c, e);
      }
    } else {
      CallPlace(c, e);
    }
  }

  lemma RoomReached(s: Sys)
    requires Reached(s) && s.a.conn.Some?
    ensures RoomAhead(s.a.conn.value)
  {
    AllNumbersLive(s, Seg(0, 0, 0, 0, NO_OPTIONS, []));
    SenderAt(s);
    hide Reached, Off;
  }

  lemma ApplyHeard(c: Conn, e: Event)
    requires e.ReceiveEvent?
    ensures var r := OnSegment(c, e.p, e.env, e.now);
            Apply(c, e) == (r.0, Outs(r.1))
  {
    hide OnSegment;
  }

  lemma CallPlace(c: Conn, e: Event)
    requires RoomAhead(c) && !e.ReceiveEvent?
    ensures Placed(c, Apply(c, e).1, StampOf(e)) && Forward(c, Apply(c, e).0)
  {
    NonePlaced(c, StampOf(e));
    hide OnSegment, OnTick, PollTransmit, Close, Placed, RoomAhead, Off, Low32;
    match e {
      case PollEvent(now) => PollPlace(c, now);
      case TickEvent(now) => TickPlace(c, now);
      case CloseEvent(now) => ClosePlace(c, now);
      case _ =>
    }
  }

  /** Every entry point works with its own clock. */
  lemma HeardStamp(c: Conn, p: Seg, env: Env, now: nat)
    ensures OnSegment(c, p, env, now).0.opt.tsVal == Low32(now)
  {
    DispatchHandled(Arrive(c, now), p, env, now);
    assert Arrive(c, now).opt.tsVal == Low32(now);
    hide Dispatch, Arrive, Framed, FinKnown, Heard, Low32;
  }

  lemma ReplyPlace(s: Sys, p: Seg, env: Env, now: nat)
    requires Reached(s) && s.a.conn.Some? && Deliverable(s.toA, p)
    ensures var r := OnSegment(s.a.conn.value, p, env, now);
            Placed(s.a.conn.value, Outs(r.1), Low32(now)) && Forward(s.a.conn.value, r.0)
  {
    hide Reached, InvWith, Sends, Receives, NetOk, WellCut, Honest, Truthful, Deliverable, OnSegment, Off, Low32,
      Placed;
    var c := s.a.conn.value;
    var ab, ba := Parts(s);
    VariantKeeps(s.toA, p, s.bIss, ba, s.b.written, s.aIss, ab);
    var d' := SegmentStep(c, p, env, now, s.bIss, ba, s.b.written, s.a.taken, ab, s.a.written);
    SegmentHandled(c, p, env, now);
    HeardStamp(c, p, env, now);
    var r := OnSegment(c, p, env, now);
    assert r.0.send.iss == c.send.iss && r.0.send.nxt == c.send.nxt by { hide Subqueue, RackEnds, FinKnown, Heard; }
    assert Replies(c, r.1, r.0);
    RepliesPlaced(c, r.1, r.0, Low32(now));
    hide Handled, Sound, Replies;
  }

  lemma RepliesPlaced(c: Conn, out: Option<Seg>, c': Conn, v: u32)
    requires Replies(c, out, c') && c'.opt.tsVal == v && c'.send.nxt == c.send.nxt
    ensures Placed(c, Outs(out), v)
  {
    hide Off, Sender.Speaks, Retransmit.PacketIn;
  }
}
