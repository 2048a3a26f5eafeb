/** A lone connection driven by its application, the clock and the network: every entry point of
    `Connection` in src/tcp.rs, called in any order with any arguments. */
module Calls {
  import opened Types
  import opened Segments
  import opened Connection
  import opened SeqNum
  import Congestion
  import Retransmit
  import Rtt

  /** One call. Clocks need not advance, and a received segment may say anything. */
  datatype Event =
    | WriteEvent(data: seq<byte>)
    | TakeEvent
    | PollEvent(now: nat)
    | TickEvent(now: nat)
    | CloseEvent(now: nat)
    | ReceiveEvent(p: Seg, env: Env, now: nat)
    | NoDelayEvent(on: bool)
    | KeepaliveEvent(on: bool)
    | BbrEvent

  function Outs(out: Option<Seg>): seq<Seg> {
    if out.Some? then [out.value] else []
  }

  /** The connection after a call, and what it puts on the wire. */
  function Apply(c: Conn, e: Event): (Conn, seq<Seg>) {
    match e
    case WriteEvent(data) => (Write(c, data), [])
    case TakeEvent => (Take(c).0, [])
    case PollEvent(now) => PollTransmit(c, now)
    case TickEvent(now) => OnTick(c, now)
    case CloseEvent(now) => (Close(c, now).0, Outs(Close(c, now).1))
    case ReceiveEvent(s, env, now) => (OnSegment(c, s, env, now).0, Outs(OnSegment(c, s, env, now).1))
    case NoDelayEvent(on) => (c.(opt := c.opt.(nagle := !on)), [])
    case KeepaliveEvent(on) => (c.(opt := c.opt.(keepaliveEnabled := on)), [])
    case BbrEvent => (c.(cong := Congestion.BbrArm(Congestion.BBR_INIT)), [])
  }

  /** The connection after a whole run of calls. */
  function Driven(c: Conn, es: seq<Event>): Conn {
    if es == [] then c else Apply(Driven(c, es[..|es| - 1]), es[|es| - 1]).0
  }

  /** p reports where the connection stands: RCV.NXT, its window, and with timestamps the clock and TS.Recent. */
  predicate Reports(p: Seg, c: Conn, now: nat) {
    && p.ackno == c.recv.nxt && p.window == c.recv.wnd
    && p.opts == NO_OPTIONS.(ts := if c.opt.tsEnabled then Some(Stamp(Low32(now), c.opt.tsRecent)) else None,
                             sack := p.opts.sack)
  }

  // ---- which states the calls lead to ----

  /** The stamp of TIME_WAIT and the challenge budget: no business of the timers and the application. */
  predicate SameStamps(c: Conn, c': Conn) {
    && c'.clock.timeWaitMs == c.clock.timeWaitMs
    && c'.clock.challengeBudget == c.clock.challengeBudget && c'.clock.challengeWindowMs == c.clock.challengeWindowMs
  }

  /** Only what is queued, how far SND.NXT is and what is still to be sent. */
  predicate SentMore(c: Conn, c': Conn) {
    c' == c.(sendBuf := c'.sendBuf, send := c.send.(nxt := c'.send.nxt), retx := c.retx.(segs := c'.retx.segs))
  }

  lemma {:induction false} FillHolesFrame(q: Retransmit.Retx, limit: u32, now: nat)
    ensures var r := FillHoles(q, limit, now).0; r == q.(segs := r.segs)
    decreases Retransmit.NeverResent(q.segs)
  {
    hide Retransmit.Pipe;
    var at := Retransmit.NextUntried(q.segs, 0);
    if Retransmit.Pipe(q) < limit && at.Some? {
      Retransmit.NeverResentDrops(q.segs, at.value, now);
      FillHolesFrame(Retransmit.NextLostRetransmit(q, now).0, limit, now);
    }
  }

  lemma {:induction false} FillPipeFrame(c: Conn, limit: u32, now: nat)
    ensures SentMore(c, FillPipe(c, limit, now).0)
    decreases |c.sendBuf|
  {
    var pipe := Retransmit.Pipe(c.retx);
    hide Retransmit.Pipe, Segment, Add, Sub;
    if c.sendBuf != [] && pipe < limit {
      var n := Min(Min(limit - pipe, c.opt.sendMss), |c.sendBuf|);
      if n != 0 {
        FillPipeFrame(Transmit(c, n, PSH + ACK, now).0, limit, now);
      }
    }
  }

  lemma {:induction false} FillWindowFrame(c: Conn, pacing: real, now: nat)
    ensures var r := FillWindow(c, pacing, now).0;
            SentMore(c.(clock := c.clock.(nextSendMs := r.clock.nextSendMs)), r)
    decreases |c.sendBuf|
  {
    hide Segment, UsableWindow, FlightSize, Add, Sub;
    if c.sendBuf != [] {
      var n := NextSend(c, pacing, now);
      hide NextSend;
      if n != 0 {
        FillWindowFrame(Transmit(Pace(c, pacing, n, now), n, PSH + ACK, now).0, pacing, now);
      }
    }
  }

  /** A poll sends more, and otherwise touches only the clocks of transmission. */
  lemma PollFrame(c: Conn, now: nat)
    ensures var r := PollTransmit(c, now).0;
            SentMore(c.(opt := c.opt.(tsVal := r.opt.tsVal),
                        clock := c.clock.(nextSendMs := r.clock.nextSendMs, tlpDeadlineMs := r.clock.tlpDeadlineMs,
                                          tlpSent := r.clock.tlpSent)), r)
  {
    var c0 := Stamped(c, now);
    hide FillPipe, FillWindow, FillHoles, SendLimit, FlightSize, Rtt.Rto;
    FillHolesFrame(c0.retx, SendLimit(c0), now);
    FillPipeFrame(c0.(retx := FillHoles(c0.retx, SendLimit(c0), now).0), SendLimit(c0), now);
    FillWindowFrame(c0, Congestion.PacingRate(c0.cong), now);
  }

  lemma PollState(c: Conn, now: nat)
    ensures PollTransmit(c, now).0.state == c.state && PollTransmit(c, now).0.peerFin == c.peerFin
    ensures SameStamps(c, PollTransmit(c, now).0)
  {
    PollFrame(c, now);
    hide PollTransmit;
  }

  /** A tick leaves the receiver, SND.UNA, the windows and RACK's record alone. */
  predicate TimersRan(c: Conn, c': Conn) {
    c' == c.(state := c'.state, send := c.send.(nxt := c'.send.nxt), retx := c.retx.(segs := c'.retx.segs), rtt := c'.rtt,
             cong := c'.cong, sendBuf := c'.sendBuf, opt := c.opt.(tsVal := c'.opt.tsVal), clock := c'.clock)
  }

  lemma ResendFrame(c: Conn, now: nat)
    ensures TimersRan(c, Reap(Stamped(c, now), now)) && TimersRan(c, TickRack(c, now).0)
    ensures TimersRan(c, TickProbe(c, now).0) && TimersRan(c, TickRto(c, now).0)
  {
    hide Retransmit.TouchAll, Retransmit.Packets, Retransmit.LastUnsacked, FlightSize, Congestion.OnTimeout, Rtt.Rto;
  }

  /** The packets are repeats, and only their timers, marks and the controllers may differ afterwards. */
  predicate Resends(c: Conn, r: (Conn, seq<Seg>)) {
    && Retransmit.SameShape(c.retx.segs, r.0.retx.segs) && Retransmit.PacketsIn(c.retx.segs, r.1)
    && (Congestion.InRecovery(r.0.cong) ==> Congestion.InRecovery(c.cong))
    && r.0 == c.(retx := c.retx.(segs := r.0.retx.segs), cong := r.0.cong, rtt := r.0.rtt, clock := r.0.clock)
  }

  /** The three retransmitting steps of a tick. */
  lemma ResendSteps(c: Conn, now: nat)
    ensures Resends(c, TickRack(c, now)) && Resends(c, TickProbe(c, now)) && Resends(c, TickRto(c, now))
  {
    hide Retransmit.SameShape, Retransmit.PacketsIn, Rtt.Rto, FlightSize, Retransmit.RackMarkLost, Retransmit.Due,
      Congestion.OnTimeout, Retransmit.RetransmitLast;
    Retransmit.RackKeepsShape(c.retx, now, Max(Rtt.Rto(c.rtt) / 4, 1));
    Retransmit.DueKeepsShape(c.retx, now, Rtt.Rto(c.rtt));
    Retransmit.ShapeSelf(c.retx.segs);
    ProbePackets(c, now);
    TimeoutEndsRecovery(c.cong);
    ResendFrame(c, now);
  }

  lemma TimeoutEndsRecovery(cong: Congestion.Control)
    ensures !Congestion.InRecovery(Congestion.OnTimeout(cong))
  {
  }

  lemma ProbePackets(c: Conn, now: nat)
    ensures var r := Retransmit.RetransmitLast(c.retx, now);
            && Retransmit.SameShape(c.retx.segs, r.0.segs) && Retransmit.PacketsIn(c.retx.segs, [])
            && Retransmit.PacketsIn(c.retx.segs, if r.1.Some? then [r.1.value] else [])
  {
    Retransmit.ResendKeepsShape(c.retx, Retransmit.LastUnsacked(c.retx.segs, |c.retx.segs|), now);
    hide Retransmit.PacketIn, Retransmit.SameShape;
  }

  lemma PersistFrame(c: Conn, now: nat)
    ensures TimersRan(c, TickPersist(c, now).0) && TimersRan(c, TickKeepalive(c, now).0)
  {
    hide Segment, FlightSize, Rtt.Rto, Add, Sub;
  }

  lemma TickFrame(c: Conn, now: nat)
    ensures TimersRan(c, OnTick(c, now).0)
  {
    hide Reap, Stamped, TickRack, TickProbe, TickRto, TickPersist, TickKeepalive;
    var c0 := Reap(Stamped(c, now), now);
    var a := TickRack(c0, now).0;
    var b := TickProbe(a, now).0;
    var d := TickRto(b, now).0;
    var e := TickPersist(d, now).0;
    ResendFrame(c, now);
    ResendFrame(c0, now);
    ResendFrame(a, now);
    ResendFrame(b, now);
    PersistFrame(d, now);
    PersistFrame(e, now);
  }

  lemma TickState(c: Conn, now: nat)
    ensures var c' := OnTick(c, now).0;
            && c'.peerFin == c.peerFin && SameStamps(c, c')
            && (c'.state == c.state || c'.state == Closed)
            && (c'.state != c.state ==>
                  c.state == TimeWait || c.state == FinWait2 || c.state == CloseWait || c.state == Established)
            && (c.state == TimeWait ==> (c'.state == Closed <==> SatSub(now, c.clock.timeWaitMs) >= TIME_WAIT_MS))
  {
    hide Retransmit.RackMarkLost, Retransmit.RetransmitLast, Retransmit.Due, Segment, FlightSize,
      Congestion.OnTimeout, Rtt.Rto;
    hide Transmit;
    var c0 := Reap(Stamped(c, now), now);
    var a := TickRack(c0, now);
    var b := TickProbe(a.0, now);
    var d := TickRto(b.0, now);
    var e := TickPersist(d.0, now);
    ReapState(c, now);
    assert TickKept(c0, a.0);
    assert TickKept(a.0, b.0);
    assert TickKept(b.0, d.0);
    TickPersistState(d.0, now);
    TickKeepaliveState(e.0, now);
    hide Reap, TickRack, TickProbe, TickRto, TickPersist, TickKeepalive;
  }

  predicate TickKept(c: Conn, c': Conn) {
    c'.state == c.state && c'.peerFin == c.peerFin && SameStamps(c, c')
  }

  lemma ReapState(c: Conn, now: nat)
    ensures var c' := Reap(Stamped(c, now), now);
            && c'.peerFin == c.peerFin && SameStamps(c, c')
            && (c'.state == c.state ||
                (c'.state == Closed && (c.state == TimeWait || c.state == FinWait2 || c.state == CloseWait)))
            && (c.state == TimeWait ==> (c'.state == Closed <==> SatSub(now, c.clock.timeWaitMs) >= TIME_WAIT_MS))
  {
  }

  lemma TickPersistState(c: Conn, now: nat)
    ensures TickKept(c, TickPersist(c, now).0)
  {
    hide Segment, FlightSize, Rtt.Rto;
  }

  lemma TickKeepaliveState(c: Conn, now: nat)
    ensures var c' := TickKeepalive(c, now).0;
            && c'.peerFin == c.peerFin && SameStamps(c, c')
            && (c'.state == c.state || (c'.state == Closed && c.state == Established))
  {
    hide Segment, FlightSize;
  }

  lemma CloseState(c: Conn, now: nat)
    ensures var c' := Close(c, now).0;
            && c'.peerFin == c.peerFin && SameStamps(c, c')
            && c'.state == if c.state == Established then FinWait1 else if c.state == CloseWait then LastAck else c.state
  {
    hide Segment;
  }
}
