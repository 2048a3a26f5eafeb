/** Everything a connection emits fits a packet, so the two-endpoint system may as well exchange bytes:
    every segment in the network is what its receiver would parse from the wire. */
module Emission {
  import opened Types
  import opened SeqNum
  import opened Segments
  import opened Connection
  import opened Calls
  import opened Lifecycle
  import opened System
  import opened EndToEnd
  import opened Packets
  import Retransmit
  import Reassembly
  import Congestion
  import Rtt

  /** Options that fit a header, and a payload of at most one MSS. */
  predicate Sendable(p: Seg) {
    && |p.opts.sack| <= MAX_SACK_BLOCKS
    && (p.opts.sack == [] || (p.opts.mss.None? && p.opts.wscale.None? && !p.opts.sackPermitted))
    && |p.payload| <= OUR_MSS
  }

  ghost predicate AllSendable(ps: seq<Seg>) {
    forall p :: p in ps ==> Sendable(p)
  }

  ghost predicate QueueSendable(segs: seq<Retransmit.Unacked>) {
    forall i :: 0 <= i < |segs| ==> Sendable(segs[i].packet)
  }

  ghost predicate Ready(c: Conn) {
    c.opt.sendMss <= OUR_MSS && QueueSendable(c.retx.segs)
  }

  lemma PacketsSendable(segs: seq<Retransmit.Unacked>, ps: seq<Seg>)
    requires QueueSendable(segs) && Retransmit.PacketsIn(segs, ps)
    ensures AllSendable(ps)
  {
  }

  lemma QueueDerived(a: seq<Retransmit.Unacked>, b: seq<Retransmit.Unacked>)
    requires QueueSendable(a) && Subqueue(a, b)
    ensures QueueSendable(b)
  {
    forall j | 0 <= j < |b|
      ensures Sendable(b[j].packet)
    {
      var i := SubqueueAt(a, b, j);
    }
  }

  lemma SegmentSendable(c: Conn, seqno: u32, ackno: u32, flags: byte, payload: seq<byte>)
    requires |payload| <= OUR_MSS
    ensures Sendable(Segment(c, seqno, ackno, flags, payload))
  {
  }

  lemma SackAckSendable(c: Conn)
    ensures Sendable(BareAck(c).(opts := AckOptions(c)))
  {
    hide Reassembly.SackBlocks;
  }

  // ---- replies ----

  lemma HoleSendable(c: Conn, now: nat)
    requires QueueSendable(c.retx.segs)
    ensures var r := RetransmitHole(c, now);
            r.1.Some? ==> Sendable(r.1.value)
  {
  }

  lemma AckReply(c: Conn, s: Seg, prevWnd: u32, env: Env, now: nat)
    requires QueueSendable(c.retx.segs)
    ensures var r := OnAckField(c, s, prevWnd, env, now);
            r.1.Some? ==> Sendable(r.1.value)
  {
    hide QueueSendable, Sendable, AckAcceptable, Between, OnNewAck, OnDuplicateAck, MaybeChallenge,
      Retransmit.MarkSacked;
    if AckAcceptable(c, s.ackno) {
      var c1 := Marked(c, s);
      MarkedFrame(c, s);
      QueueDerived(c.retx.segs, c1.retx.segs);
      NewAckReply(c1, s, env, now);
      DuplicateAckReply(c1, now);
    } else {
      ChallengeReply(c, env, now);
    }
  }

  lemma ChallengeReply(c: Conn, env: Env, now: nat)
    ensures var r := MaybeChallenge(c, env, now);
            r.1.Some? ==> Sendable(r.1.value)
  {
  }

  lemma NewAckReply(c: Conn, s: Seg, env: Env, now: nat)
    requires QueueSendable(c.retx.segs)
    ensures var r := OnNewAck(c, s, env, now);
            r.1.Some? ==> Sendable(r.1.value)
  {
    hide QueueSendable, Sendable, AckSample, Rtt.Sample, RetransmitHole, Retransmit.Keep, Retransmit.Scan, Before;
    var c1 := Acked(c, s, now).(cong := Congestion.OnPartialAck(c.cong, Sub(s.ackno, c.send.una)));
    KeepSubqueue(c.retx.segs, s.ackno);
    QueueDerived(c.retx.segs, c1.retx.segs);
    HoleSendable(c1, now);
  }

  lemma DuplicateAckReply(c: Conn, now: nat)
    requires QueueSendable(c.retx.segs)
    ensures var r := OnDuplicateAck(c, now);
            r.1.Some? ==> Sendable(r.1.value)
  {
    hide QueueSendable, Sendable, RetransmitHole, Congestion.OnDupAck;
    HoleSendable(c.(cong := Congestion.OnDupAck(c.cong).0, recover := c.send.nxt), now);
  }

  lemma TextReply(c: Conn, s: Seg)
    ensures var r := OnText(c, s);
            r.1.Some? ==> Sendable(r.1.value)
  {
    hide Deliver, Sendable;
    TailReply(Deliver(c, s.seqno, s.payload), s);
  }

  lemma TailReply(c: Conn, s: Seg)
    ensures var r := TextTail(c, s);
            r.1.Some? ==> Sendable(r.1.value)
  {
    SackAckSendable(c);
    SackAckSendable(c.(pendingFin := Some(Add(s.seqno, Low32(|s.payload|)))));
    hide Add, Before, After, Has, AckOptions;
  }

  lemma OpenReply(c: Conn, s: Seg, env: Env, now: nat)
    requires QueueSendable(c.retx.segs)
    ensures var r := OnOpen(c, s, env, now);
            r.1.Some? ==> Sendable(r.1.value)
  {
    SegmentSendable(c, c.send.nxt, c.recv.nxt, ACK, []);
    hide QueueSendable, Sendable, OnAckField, OnText, Has, Paws;
    var c1 := Refresh(c, s);
    assert c1.retx == c.retx;
    hide Refresh;
    AckReply(c1, s, c.send.wnd, env, now);
    TextReply(c1, s);
    TextReply(OnAckField(c1, s, c.send.wnd, env, now).0, s);
  }

  lemma FinReply(c: Conn, s: Seg, now: nat)
    ensures OnFinWait1(c, s, now).1.Some? ==> Sendable(OnFinWait1(c, s, now).1.value)
    ensures OnFinWait2(c, s, now).1.Some? ==> Sendable(OnFinWait2(c, s, now).1.value)
  {
    hide Deliver, Retransmit.Ack, Has, Sendable;
    var finAcked := Has(s.flags, ACK) && s.ackno == c.send.nxt;
    var c1 := if finAcked then c.(retx := Retransmit.Ack(c.retx, s.ackno, now).0) else c;
    FinTailReply(Deliver(c1, s.seqno, s.payload), s, finAcked, now);
    FinTailReply(Deliver(c, s.seqno, s.payload), s, true, now);
  }

  lemma FinTailReply(c: Conn, s: Seg, finAcked: bool, now: nat)
    ensures FinTail(c, s, finAcked, now).1.Some? ==> Sendable(FinTail(c, s, finAcked, now).1.value)
  {
    hide Add, Has;
  }

  lemma SyncedReply(c: Conn, s: Seg, env: Env, now: nat)
    requires QueueSendable(c.retx.segs)
    ensures var r := OnSynced(c, s, env, now);
            r.1.Some? ==> Sendable(r.1.value)
  {
    hide QueueSendable, Sendable, OnOpen, OnFinWait1, OnFinWait2, OnLastAck, OnClosing;
    OpenReply(c, s, env, now);
    FinReply(c, s, now);
  }

  lemma HandshakeReply(c: Conn, s: Seg, env: Env, now: nat)
    ensures OnSynSent(c, s, now).1.Some? ==> Sendable(OnSynSent(c, s, now).1.value)
    ensures OnRst(c, s, env, now).1.Some? ==> Sendable(OnRst(c, s, env, now).1.value)
  {
    ChallengeReply(c, env, now);
    hide Has, Add, Retransmit.Ack, MaybeChallenge, InWindow;
  }

  lemma SegmentReply(c: Conn, s: Seg, env: Env, now: nat)
    requires QueueSendable(c.retx.segs)
    ensures var r := OnSegment(c, s, env, now);
            r.1.Some? ==> Sendable(r.1.value)
  {
    var c1 := Arrive(c, now);
    assert c1.retx == c.retx;
    hide QueueSendable, Sendable, OnSynced, OnSynSent, OnRst, MaybeChallenge, Has, Arrive;
    HandshakeReply(c1, s, env, now);
    ChallengeReply(c1, env, now);
    SyncedReply(c1, s, env, now);
    EstablishQueue(c1, s, now);
    hide Establish;
    SyncedReply(Establish(c1, s, now), s, env, now);
  }

  lemma EstablishQueue(c: Conn, s: Seg, now: nat)
    requires QueueSendable(c.retx.segs)
    ensures QueueSendable(Establish(c, s, now).retx.segs)
  {
    hide QueueSendable, Retransmit.Keep, Retransmit.Scan;
    KeepSubqueue(c.retx.segs, s.ackno);
    QueueDerived(c.retx.segs, Establish(c, s, now).retx.segs);
  }

  lemma MssBounded(c: Conn, s: Seg, env: Env, now: nat)
    requires c.opt.sendMss <= OUR_MSS
    ensures OnSegment(c, s, env, now).0.opt.sendMss <= OUR_MSS
  {
    SegmentHandled(c, s, env, now);
    if c.state == SynSent {
      var c1 := Arrive(c, now);
      assert OnSegment(c, s, env, now) == if Has(s.flags, RST) then OnRst(c1, s, env, now) else OnSynSent(c1, s, now);
      SynMss(c1, s, now);
      hide OnSegment, OnSynSent, Has, Lifecycle.Handled;
    } else {
      hide OnSegment, Subqueue, RackEnds, FinKnown;
    }
  }

  lemma SynMss(c: Conn, s: Seg, now: nat)
    requires c.opt.sendMss <= OUR_MSS
    ensures OnSynSent(c, s, now).0.opt.sendMss <= OUR_MSS
  {
    hide Retransmit.Ack, Add, BareAck;
  }

  // ---- sending ----

  lemma TransmitReady(c: Conn, n: nat, flags: byte, now: nat)
    requires Ready(c) && n <= |c.sendBuf| && n <= OUR_MSS
    ensures Ready(Transmit(c, n, flags, now).0) && Sendable(Transmit(c, n, flags, now).1)
  {
    var t := Transmit(c, n, flags, now);
    SegmentSendable(c, c.send.nxt, c.recv.nxt, flags, c.sendBuf[..n]);
    hide Sendable, Segment, Add, Sub;
    forall i | 0 <= i < |t.0.retx.segs|
      ensures Sendable(t.0.retx.segs[i].packet)
    {
      assert i < |c.retx.segs| ==> t.0.retx.segs[i] == c.retx.segs[i];
    }
  }

  lemma {:induction false} FillPipeReady(c: Conn, limit: u32, now: nat)
    requires Ready(c)
    ensures Ready(FillPipe(c, limit, now).0) && AllSendable(FillPipe(c, limit, now).1)
    decreases |c.sendBuf|
  {
    hide Retransmit.Pipe, QueueSendable, Sendable;
    var pipe := Retransmit.Pipe(c.retx);
    if c.sendBuf != [] && pipe < limit {
      var n := Min(Min(limit - pipe, c.opt.sendMss), |c.sendBuf|);
      if n != 0 {
        TransmitReady(c, n, PSH + ACK, now);
        FillPipeReady(Transmit(c, n, PSH + ACK, now).0, limit, now);
      }
    }
  }

  lemma {:induction false} FillWindowReady(c: Conn, pacing: real, now: nat)
    requires Ready(c)
    ensures Ready(FillWindow(c, pacing, now).0) && AllSendable(FillWindow(c, pacing, now).1)
    decreases |c.sendBuf|
  {
    hide QueueSendable, Sendable, UsableWindow;
    if c.sendBuf != [] {
      var n := NextSend(c, pacing, now);
      if n != 0 {
        TransmitReady(Pace(c, pacing, n, now), n, PSH + ACK, now);
        FillWindowReady(Transmit(Pace(c, pacing, n, now), n, PSH + ACK, now).0, pacing, now);
      }
    }
  }

  lemma {:induction false} HolesReady(q: Retransmit.Retx, limit: u32, now: nat)
    requires QueueSendable(q.segs)
    ensures QueueSendable(FillHoles(q, limit, now).0.segs) && AllSendable(FillHoles(q, limit, now).1)
    decreases Retransmit.NeverResent(q.segs)
  {
    hide Retransmit.Pipe, Sendable;
    var at := Retransmit.NextUntried(q.segs, 0);
    if Retransmit.Pipe(q) < limit && at.Some? {
      Retransmit.NeverResentDrops(q.segs, at.value, now);
      HolesReady(Retransmit.NextLostRetransmit(q, now).0, limit, now);
    }
  }

  lemma PollReady(c: Conn, now: nat)
    requires Ready(c)
    ensures Ready(PollTransmit(c, now).0) && AllSendable(PollTransmit(c, now).1)
  {
    if c.state == Established || c.state == CloseWait {
      var c0 := Stamped(c, now);
      hide QueueSendable, Sendable, FillPipe, FillWindow, FillHoles, Rtt.Rto, FlightSize;
      HolesReady(c0.retx, SendLimit(c0), now);
      FillPipeReady(c0.(retx := FillHoles(c0.retx, SendLimit(c0), now).0), SendLimit(c0), now);
      FillWindowReady(c0, Congestion.PacingRate(c0.cong), now);
    }
  }

  lemma ShapeReady(c: Conn, c': Conn)
    requires Ready(c) && Retransmit.SameShape(c.retx.segs, c'.retx.segs) && c'.opt.sendMss == c.opt.sendMss
    ensures Ready(c')
  {
  }

  lemma RetryReady(c: Conn, now: nat)
    requires Ready(c)
    ensures Ready(TickRack(c, now).0) && AllSendable(TickRack(c, now).1)
    ensures Ready(TickProbe(c, now).0) && AllSendable(TickProbe(c, now).1)
    ensures Ready(TickRto(c, now).0) && AllSendable(TickRto(c, now).1)
  {
    hide Retransmit.SameShape, Retransmit.PacketsIn, Ready, Rtt.Rto, FlightSize, Retransmit.RackMarkLost;
    hide Retransmit.Due, Sendable, Congestion.OnTimeout;
    Retransmit.RackKeepsShape(c.retx, now, Max(Rtt.Rto(c.rtt) / 4, 1));
    Retransmit.DueKeepsShape(c.retx, now, Rtt.Rto(c.rtt));
    ReadyQueue(c);
    PacketsSendable(c.retx.segs, TickRack(c, now).1);
    PacketsSendable(c.retx.segs, TickRto(c, now).1);
    ShapeReady(c, TickRack(c, now).0);
    ShapeReady(c, TickRto(c, now).0);
    ProbeReady(c, now);
  }

  lemma ReadyQueue(c: Conn)
    requires Ready(c)
    ensures QueueSendable(c.retx.segs)
  {
  }

  lemma ProbeReady(c: Conn, now: nat)
    requires Ready(c)
    ensures Ready(TickProbe(c, now).0) && AllSendable(TickProbe(c, now).1)
  {
    hide FlightSize, Sendable, Congestion.InRecovery;
  }

  lemma TimerReady(c: Conn, now: nat)
    requires Ready(c)
    ensures Ready(TickPersist(c, now).0) && AllSendable(TickPersist(c, now).1)
    ensures Ready(TickKeepalive(c, now).0) && AllSendable(TickKeepalive(c, now).1)
  {
    SegmentSendable(c, Sub(c.send.nxt, 1), c.recv.nxt, ACK, []);
    hide FlightSize, Sendable, QueueSendable, Rtt.Rto, Segment;
    if c.sendBuf != [] {
      TransmitReady(c, 1, ACK, now);
    }
  }

  lemma TickReady(c: Conn, now: nat)
    requires Ready(c)
    ensures Ready(OnTick(c, now).0) && AllSendable(OnTick(c, now).1)
  {
    var c0 := Reap(Stamped(c, now), now);
    assert c0.retx == c.retx && c0.opt.sendMss == c.opt.sendMss;
    assert Ready(c0);
    hide Ready, Reap, Stamped, TickRack, TickProbe, TickRto, TickPersist, TickKeepalive, Sendable;
    var a := TickRack(c0, now).0;
    var b := TickProbe(a, now).0;
    var d := TickRto(b, now).0;
    var e := TickPersist(d, now).0;
    RetryReady(c0, now);
    RetryReady(a, now);
    RetryReady(b, now);
    TimerReady(d, now);
    TimerReady(e, now);
  }

  lemma CloseReady(c: Conn, now: nat)
    requires Ready(c)
    ensures Ready(Close(c, now).0) && AllSendable(Outs(Close(c, now).1))
  {
    var r := Close(c, now);
    if r.1.Some? {
      SegmentSendable(Stamped(c, now), c.send.nxt, c.recv.nxt, FIN + ACK, []);
      hide Sendable, Segment, Add;
      forall i | 0 <= i < |r.0.retx.segs|
        ensures Sendable(r.0.retx.segs[i].packet)
      {
        assert i < |c.retx.segs| ==> r.0.retx.segs[i] == c.retx.segs[i];
      }
    }
  }

  lemma SegmentReady(c: Conn, s: Seg, env: Env, now: nat)
    requires Ready(c)
    ensures Ready(OnSegment(c, s, env, now).0) && AllSendable(Outs(OnSegment(c, s, env, now).1))
  {
    SegmentHandled(c, s, env, now);
    SegmentReply(c, s, env, now);
    MssBounded(c, s, env, now);
    hide OnSegment, Subqueue, RackEnds, FinKnown, Sendable, QueueSendable;
    QueueDerived(c.retx.segs, OnSegment(c, s, env, now).0.retx.segs);
  }

  /** Every call keeps the queue fit for the wire and emits only what is. */
  lemma CallReady(c: Conn, e: Event)
    requires Ready(c)
    ensures Ready(Apply(c, e).0) && AllSendable(Apply(c, e).1)
  {
    hide QueueSendable, Sendable, PollTransmit, OnTick, Close, OnSegment;
    match e {
      case PollEvent(now) => PollReady(c, now);
      case TickEvent(now) => TickReady(c, now);
      case CloseEvent(now) => CloseReady(c, now);
      case ReceiveEvent(p, env, now) => SegmentReady(c, p, env, now);
      case _ =>
    }
  }

  lemma OpensReady(iss: u32, budget: Budget, now: nat, s: Seg)
    ensures Ready(Connect(iss, budget, now).0) && Sendable(Connect(iss, budget, now).1)
    ensures var r := Accept(s, iss, budget, now);
            r.Some? ==> Ready(r.value.0) && Sendable(r.value.1)
  {
    hide Add, Has;
  }

  // ---- the network carries bytes ----

  ghost predicate PeerReady(p: Peer) {
    p.conn.Some? ==> Ready(p.conn.value)
  }

  ghost predicate NetSendable(net: set<Seg>) {
    forall p :: p in net ==> Sendable(p)
  }

  lemma LocalReady(p: Peer, iss: u32, inbox: set<Seg>, e: Event)
    requires PeerReady(p)
    ensures PeerReady(Local(p, iss, inbox, e).0) && AllSendable(Local(p, iss, inbox, e).1)
  {
    hide Apply, Accept, Ready, Sendable;
    if p.conn.Some? {
      CallReady(p.conn.value, e);
    } else if e.ReceiveEvent? {
      OpensReady(iss, e.env.budget, e.now, e.p);
    }
  }

  lemma {:induction false} RunReady(s: Sys, acts: seq<Action>)
    requires PeerReady(s.a) && PeerReady(s.b) && NetSendable(s.toA) && NetSendable(s.toB)
    ensures var r := Run(s, acts);
            PeerReady(r.a) && PeerReady(r.b) && NetSendable(r.toA) && NetSendable(r.toB)
  {
    if acts != [] {
      var n := |acts| - 1;
      RunReady(s, acts[..n]);
      var t := Run(s, acts[..n]);
      hide PeerReady, Local, Sendable;
      if acts[n].AtA? {
        LocalReady(t.a, t.aIss, t.toA, acts[n].event);
      } else {
        LocalReady(t.b, t.bIss, t.toB, acts[n].event);
      }
    }
  }

  /** Built as a packet, the segment passes both checksums and parses back to itself. */
  predicate CarriedIntact(from: Endpoint, to: Endpoint, p: Seg) {
    var packet := OnTheWire(from, to, p);
    && ParseAny(packet) == Some((Packets.Quad(from, to), p))
    && |packet| >= 20 && VerifyChecksum(packet[..20]) && TcpChecksum(from.ip, to.ip, packet[20..]) == 0
  }

  lemma SendableSurvives(from: Endpoint, to: Endpoint, p: Seg)
    requires Sendable(p)
    ensures CarriedIntact(from, to, p)
  {
    OptionsFit(p.opts);
    SegmentSurvives(from, to, p);
    PacketVerifies(from.ip, to.ip, Fields(from.port, to.port, p.seqno, p.ackno, p.flags, p.window),
                   OptionBytes(p.opts), p.payload);
    hide OptionBytes, ParseAny, TcpChecksum, VerifyChecksum, SegmentBytes, IpBytes;
  }

  /** In every reachable state, every segment in the network, built as a packet from one endpoint to the
      other, verifies under both checksums and parses back to itself: the network may carry bytes. */
  lemma NetworkCarriesBytes(s: Sys, a: Endpoint, b: Endpoint)
    requires Reachable(s)
    ensures forall p :: p in s.toB ==> CarriedIntact(a, b, p)
    ensures forall p :: p in s.toA ==> CarriedIntact(b, a, p)
  {
    ReachableReady(s);
    hide Reachable, Sendable, CarriedIntact;
    forall p | p in s.toB
      ensures CarriedIntact(a, b, p)
    {
      SendableSurvives(a, b, p);
    }
    forall p | p in s.toA
      ensures CarriedIntact(b, a, p)
    {
      SendableSurvives(b, a, p);
    }
  }

  lemma ReachableReady(s: Sys)
    requires Reachable(s)
    ensures NetSendable(s.toA) && NetSendable(s.toB)
  {
    hide Run, Ready, Sendable;
    var aIss, bIss, budget: Budget, now: nat, acts :| s == Run(Start(aIss, bIss, budget, now), acts);
    OpensReady(aIss, budget, now, Seg(0, 0, 0, 0, NO_OPTIONS, []));
    RunReady(Start(aIss, bIss, budget, now), acts);
  }
}
