/** A connection with data to send never waits for nothing: either something queued is on a timer that
    must fire, or the peer's window is shut and the persist timer probes it. */
module NoStall {
  import opened Types
  import opened SeqNum
  import opened Segments
  import opened Connection
  import opened System
  import opened EndToEnd
  import opened NewReno
  import Retransmit
  import Congestion
  import Rtt
  import TimerHistory

  // ---- a queued segment is resent in time ----

  /** The entry is still there as it was, or its packet has just been sent again. */
  ghost predicate Kept(segs: seq<Retransmit.Unacked>, segs': seq<Retransmit.Unacked>, j: nat, outs: seq<Seg>)
    requires j < |segs|
  {
    |segs'| == |segs| && (segs'[j] == segs[j] || segs[j].packet in outs)
  }

  lemma {:induction false} PacketSent(segs: seq<Retransmit.Unacked>, p: Retransmit.Unacked -> bool, j: nat)
    requires j < |segs| && p(segs[j])
    ensures segs[j].packet in Retransmit.Packets(segs, p)
  {
    var n := |segs| - 1;
    if j < n {
      PacketSent(segs[..n], p, j);
    }
  }

  lemma RackKept(c: Conn, now: nat, j: nat)
    requires j < |c.retx.segs|
    ensures Kept(c.retx.segs, TickRack(c, now).0.retx.segs, j, TickRack(c, now).1)
    ensures TickRack(c, now).0.rtt == c.rtt
  {
    hide Rtt.Rto, Before;
    var p := Retransmit.IsRackLost(c.retx, now, Max(Rtt.Rto(c.rtt) / 4, 1));
    if p(c.retx.segs[j]) {
      PacketSent(c.retx.segs, p, j);
    }
  }

  lemma ProbeKept(c: Conn, now: nat, j: nat)
    requires j < |c.retx.segs|
    ensures Kept(c.retx.segs, TickProbe(c, now).0.retx.segs, j, TickProbe(c, now).1)
    ensures TickProbe(c, now).0.rtt == c.rtt
  {
    hide FlightSize, Congestion.InRecovery;
  }

  lemma DueSent(c: Conn, now: nat, j: nat)
    requires j < |c.retx.segs| && !c.retx.segs[j].sacked && SatSub(now, c.retx.segs[j].sentAt) >= Rtt.MAX_RTO
    ensures c.retx.segs[j].packet in TickRto(c, now).1
  {
    TimerHistory.RtoBounded(c.rtt);
    hide Rtt.Rto, Congestion.OnTimeout, Rtt.BackOff;
    PacketSent(c.retx.segs, Retransmit.IsDue(now, Rtt.Rto(c.rtt)), j);
  }

  /** Any tick 60 s or more after an unsacked segment was last sent sends it again. */
  lemma ResentInTime(c: Conn, now: nat, j: nat)
    requires j < |c.retx.segs| && !c.retx.segs[j].sacked && SatSub(now, c.retx.segs[j].sentAt) >= Rtt.MAX_RTO
    ensures c.retx.segs[j].packet in OnTick(c, now).1
  {
    var c0 := Reap(Stamped(c, now), now);
    assert c0.retx == c.retx;
    var a := TickRack(c0, now);
    var b := TickProbe(a.0, now);
    RackKept(c0, now, j);
    ProbeKept(a.0, now, j);
    hide Reap, Stamped, TickRack, TickProbe, TickRto, TickPersist, TickKeepalive;
    if a.0.retx.segs[j] == c.retx.segs[j] && b.0.retx.segs[j] == a.0.retx.segs[j] {
      DueSent(b.0, now, j);
    }
  }

  // ---- a shut window is probed ----

  /** A one-byte segment at SND.NXT carrying the next byte to send. */
  predicate IsProbe(p: Seg, c: Conn) {
    c.sendBuf != [] && p.seqno == c.send.nxt && p.payload == c.sendBuf[..1]
  }

  ghost predicate Probes(outs: seq<Seg>, c: Conn) {
    exists p :: p in outs && IsProbe(p, c)
  }

  /** A tick with the queue empty reduces to its persist step. */
  lemma QuietTick(c: Conn, now: nat)
    requires c.retx.segs == [] && WindowShut(c)
    requires c.state == Established || SatSub(now, c.clock.lastActiveMs) < CLOSE_WAIT_TIMEOUT_MS
    ensures var c0 := Stamped(c, now);
            && TickPersist(c0, now).1 <= OnTick(c, now).1
            && (TickPersist(c0, now).1 == [] ==> OnTick(c, now).0 == TickPersist(c0, now).0)
  {
    var c0 := Stamped(c, now);
    hide Rtt.Rto, Transmit, Segment, Congestion.OnTimeout;
    assert Reap(c0, now) == c0;
    EmptyQueueTick(c0, now);
    hide TickRack, TickProbe, TickRto;
    if TickPersist(c0, now).1 == [] {
      PersistHolds(c0, now);
    }
  }

  lemma EmptyQueueTick(c: Conn, now: nat)
    requires c.retx.segs == [] && FlightSize(c) == 0
    ensures TickRack(c, now) == (c, []) && TickProbe(c, now) == (c, []) && TickRto(c, now) == (c, [])
  {
    hide Rtt.Rto, Sub, Congestion.OnTimeout, Rtt.BackOff;
  }

  lemma PersistHolds(c: Conn, now: nat)
    requires WindowShut(c) && TickPersist(c, now).1 == []
    ensures TickKeepalive(TickPersist(c, now).0, now) == (TickPersist(c, now).0, [])
  {
    hide Rtt.Rto, Segment, FlightSize;
  }

  /** With the window shut and nothing in flight, two ticks an RTO apart send a probe of one byte. */
  lemma ShutWindowProbed(c: Conn, t1: nat, t2: nat)
    requires c.retx.segs == [] && WindowShut(c) && 0 < t1
    requires t1 + Rtt.Rto(c.rtt) <= t2 && c.clock.persistMs <= t2
    requires c.state == Established || SatSub(t2, c.clock.lastActiveMs) < CLOSE_WAIT_TIMEOUT_MS
    ensures Probes(TwoTicks(c, t1, t2), c)
  {
    QuietTick(c, t1);
    hide OnTick, Rtt.Rto, Probes, TickPersist, WindowShut, Stamped;
    if TickPersist(Stamped(c, t1), t1).1 == [] {
      ArmedThenFires(c, t1, t2);
    } else {
      FirstProbes(c, t1);
    }
    ProbesEither(OnTick(c, t1).1, OnTick(OnTick(c, t1).0, t2).1, c);
  }

  lemma ProbesEither(a: seq<Seg>, b: seq<Seg>, c: Conn)
    requires Probes(a, c) || Probes(b, c)
    ensures Probes(a + b, c)
  {
    hide IsProbe;
    if Probes(a, c) {
      var p :| p in a && IsProbe(p, c);
      assert p in a + b;
    } else {
      var p :| p in b && IsProbe(p, c);
      assert p in a + b;
    }
  }

  lemma ArmedThenFires(c: Conn, t1: nat, t2: nat)
    requires c.retx.segs == [] && WindowShut(c) && 0 < t1 && TickPersist(Stamped(c, t1), t1).1 == []
    requires OnTick(c, t1).0 == TickPersist(Stamped(c, t1), t1).0
    requires t1 + Rtt.Rto(c.rtt) <= t2 && c.clock.persistMs <= t2
    requires c.state == Established || SatSub(t2, c.clock.lastActiveMs) < CLOSE_WAIT_TIMEOUT_MS
    ensures Probes(OnTick(OnTick(c, t1).0, t2).1, c)
  {
    ArmedTick(c, t1);
    hide OnTick, Rtt.Rto, Probes, TickPersist, WindowShut, Stamped;
    SecondTick(c, TickPersist(Stamped(c, t1), t1).0, t2);
  }

  lemma SecondTick(c: Conn, b: Conn, t: nat)
    requires b.retx.segs == [] && WindowShut(b) && b.clock.persistMs != 0 && b.clock.persistMs <= t
    requires b.sendBuf == c.sendBuf && b.send == c.send
    requires b.state == Established || SatSub(t, b.clock.lastActiveMs) < CLOSE_WAIT_TIMEOUT_MS
    ensures Probes(OnTick(b, t).1, c)
  {
    hide OnTick, Probes, TickPersist, WindowShut;
    QuietTick(b, t);
    FiresAt(c, b, t);
  }

  lemma FirstProbes(c: Conn, t: nat)
    requires WindowShut(c)
    requires var outs := TickPersist(Stamped(c, t), t).1; outs != [] && outs <= OnTick(c, t).1
    ensures Probes(OnTick(c, t).1, c)
  {
    hide OnTick, Rtt.Rto;
    var outs := TickPersist(Stamped(c, t), t).1;
    assert outs[0] in OnTick(c, t).1 && IsProbe(outs[0], c);
  }

  /** The tick that does not probe leaves the timer armed, at most an RTO ahead unless it already was. */
  lemma ArmedTick(c: Conn, t: nat)
    requires WindowShut(c) && TickPersist(Stamped(c, t), t).1 == [] && 0 < t
    ensures var b := TickPersist(Stamped(c, t), t).0;
            && b.clock.persistMs == (if c.clock.persistMs == 0 then t + Rtt.Rto(c.rtt) else c.clock.persistMs)
            && b.clock.persistMs != 0 && WindowShut(b) && b.state == c.state && b.clock.lastActiveMs == c.clock.lastActiveMs
            && b.retx == c.retx && b.sendBuf == c.sendBuf && b.send == c.send
  {
    hide Rtt.Rto, Segment;
  }

  lemma FiresAt(c: Conn, b: Conn, t: nat)
    requires WindowShut(b) && b.clock.persistMs != 0 && b.clock.persistMs <= t && b.sendBuf == c.sendBuf && b.send == c.send
    requires TickPersist(Stamped(b, t), t).1 <= OnTick(b, t).1
    ensures Probes(OnTick(b, t).1, c)
  {
    hide OnTick;
    var outs := TickPersist(Stamped(b, t), t).1;
    assert outs[0] in OnTick(b, t).1 && IsProbe(outs[0], c);
  }

  // ---- no stall ----

  /** Nothing goes out with nothing in flight only because the window is shut. */
  lemma IdleMeansShut(c: Conn, now: nat)
    requires (c.state == Established || c.state == CloseWait) && c.cong.CubicArm? && c.opt.sendMss >= 1 && c.sendBuf != []
    requires c.retx.segs == [] && c.send.una == c.send.nxt && !Congestion.InRecovery(c.cong)
    requires PollTransmit(c, now).1 == []
    ensures WindowShut(c)
  {
    var c0 := Stamped(c, now);
    hide Transmit, ArmProbe;
    assert FillWindow(c0, 0.0, now).1 == [];
    assert FlightSize(c0) == 0;
    assert NextSend(c0, 0.0, now) == 0;
  }

  /** Any tick 60 s after the last transmission of the oldest queued segment sends it again. */
  ghost predicate ResentByTicks(c: Conn)
    requires c.retx.segs != []
  {
    forall t: nat {:trigger OnTick(c, t)} ::
      t >= c.retx.segs[0].sentAt + Rtt.MAX_RTO ==> c.retx.segs[0].packet in OnTick(c, t).1
  }

  /** Two ticks at least an RTO apart, the second once the persist timer (if armed) has run out and before
      an idle CLOSE_WAIT is reaped, send a one-byte probe. */
  ghost predicate ProbedByTicks(c: Conn) {
    forall t1: nat, t2: nat {:trigger TwoTicks(c, t1, t2)} ::
      0 < t1 && t1 + Rtt.Rto(c.rtt) <= t2 && c.clock.persistMs <= t2
      && (c.state == Established || SatSub(t2, c.clock.lastActiveMs) < CLOSE_WAIT_TIMEOUT_MS) ==>
        Probes(TwoTicks(c, t1, t2), c)
  }

  /** What two ticks in a row send. */
  function TwoTicks(c: Conn, t1: nat, t2: nat): seq<Seg> {
    OnTick(c, t1).1 + OnTick(OnTick(c, t1).0, t2).1
  }

  lemma QueueResent(c: Conn)
    requires c.retx.segs != [] && !c.retx.segs[0].sacked
    ensures ResentByTicks(c)
  {
    hide OnTick;
    forall t: nat | t >= c.retx.segs[0].sentAt + Rtt.MAX_RTO
      ensures c.retx.segs[0].packet in OnTick(c, t).1
    {
      ResentInTime(c, t, 0);
    }
  }

  lemma WindowProbed(c: Conn)
    requires c.retx.segs == [] && WindowShut(c)
    ensures ProbedByTicks(c)
  {
    hide OnTick, Rtt.Rto, WindowShut, IsProbe;
    forall t1: nat, t2: nat |
      0 < t1 && t1 + Rtt.Rto(c.rtt) <= t2 && c.clock.persistMs <= t2
      && (c.state == Established || SatSub(t2, c.clock.lastActiveMs) < CLOSE_WAIT_TIMEOUT_MS)
      ensures Probes(TwoTicks(c, t1, t2), c)
    {
      ShutWindowProbed(c, t1, t2);
    }
  }

  /** In every reachable state under CUBIC with a usable segment size: if an open connection has unsent
      data and a poll sends nothing, then either the oldest queued segment is unsacked and any tick 60 s
      after its last transmission resends it, or the window is zero, nothing is in flight, and two ticks
      an RTO apart send a one-byte probe. */
  lemma NeverStalls(s: Sys, now: nat)
    requires Reached(s) && s.a.conn.Some?
    requires var c := s.a.conn.value;
             && (c.state == Established || c.state == CloseWait) && c.cong.CubicArm? && c.opt.sendMss >= 1 && c.sendBuf != []
             && PollTransmit(c, now).1 == []
    ensures var c := s.a.conn.value;
            if c.retx.segs != [] then !c.retx.segs[0].sacked && ResentByTicks(c)
            else WindowShut(c) && ProbedByTicks(c)
  {
    var c := s.a.conn.value;
    hide Reached, OnTick, PollTransmit, ResentByTicks, ProbedByTicks, WindowShut;
    if c.retx.segs != [] {
      OldestNeverSacked(s);
      QueueResent(c);
    } else {
      IdleFacts(s, c);
      IdleMeansShut(c, now);
      WindowProbed(c);
    }
  }

  lemma IdleFacts(s: Sys, c: Conn)
    requires Reached(s) && s.a.conn == Some(c) && c.retx.segs == [] && (c.state == Established || c.state == CloseWait)
    ensures c.send.una == c.send.nxt && !Congestion.InRecovery(c.cong)
  {
    TilingAndConservation(s);
    hide Reached, Off, Tile;
    if Congestion.InRecovery(c.cong) {
      EpisodeOpen(s, c);
      NotItself(c.send.una, c.recover);
      assert false;
    }
  }

  /** With nothing in flight and the window open, a poll sends exactly if the segment size is usable: a peer may
      have advertised an MSS of zero. */
  lemma OpenWindowSends(s: Sys, now: nat)
    requires Reached(s) && s.a.conn.Some?
    requires var c := s.a.conn.value;
             && (c.state == Established || c.state == CloseWait) && c.cong.CubicArm? && c.sendBuf != []
             && c.retx.segs == [] && c.send.wnd > 0
    ensures PollTransmit(s.a.conn.value, now).1 != [] <==> s.a.conn.value.opt.sendMss >= 1
  {
    var c := s.a.conn.value;
    IdleFacts(s, c);
    hide Reached, PollTransmit;
    if c.opt.sendMss >= 1 {
      if PollTransmit(c, now).1 == [] {
        IdleMeansShut(c, now);
        assert false;
      }
    } else {
      ZeroMssPoll(c, now);
    }
  }

  /** With a segment size of zero no poll sends new data, whatever the windows. */
  lemma ZeroMssSendsNothing(c: Conn, limit: u32, pacing: real, now: nat)
    requires c.opt.sendMss == 0
    ensures FillWindow(c, pacing, now) == (c, []) && FillPipe(c, limit, now) == (c, [])
  {
    hide Retransmit.Pipe, Transmit, UsableWindow;
  }

  lemma ZeroMssPoll(c: Conn, now: nat)
    requires c.opt.sendMss == 0 && !Congestion.InRecovery(c.cong)
    ensures PollTransmit(c, now).1 == []
  {
    var c0 := Stamped(c, now);
    ZeroMssSendsNothing(c0, 0, Congestion.PacingRate(c0.cong), now);
    hide FillWindow, ArmProbe, FillHoles, FillPipe;
  }

  /** And no tick helps: with nothing queued, the window open and keepalive off, no timer has anything to send. */
  lemma NoTimerHelps(c: Conn, now: nat)
    requires c.retx.segs == [] && c.send.una == c.send.nxt && c.send.wnd > 0 && !c.opt.keepaliveEnabled
    ensures OnTick(c, now).1 == []
  {
    hide Rtt.Rto, Transmit, Segment, Congestion.OnTimeout;
    var c0 := Reap(Stamped(c, now), now);
    assert c0.retx == c.retx && c0.send == c.send && c0.opt.keepaliveEnabled == c.opt.keepaliveEnabled;
    assert FlightSize(c0) == 0;
    EmptyQueueTick(c0, now);
    hide TickRack, TickProbe, TickRto, Reap;
  }
}
