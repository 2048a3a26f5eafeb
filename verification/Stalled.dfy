/** The two ways to wait that `NoStall` tells apart are both reached: behind a shut window, which is probed, and
    behind a segment size of zero, which is not. */
module Stalled {
  import opened Types
  import opened SeqNum
  import opened Segments
  import opened Connection
  import opened Calls
  import opened System
  import opened EndToEnd
  import opened NewReno
  import opened NoStall
  import Retransmit
  import Reassembly
  import Congestion
  import Rtt

  const ENV := Env(Congestion.MSS, 1)

  /** What either end sends while opening, from initial numbers 0 and 0 at time 0. */
  const SYN_SEG := Connect(0, 1, 0).1

  /** B's SYN-ACK, with the MSS it advertises. */
  function SynAck(mss: u16): Seg {
    Seg(0, 1, SYN + ACK, RCV_WND, Options(Some(mss), Some(Stamp(0, 0)), Some(OUR_WSCALE), true, []), [])
  }

  /** A pure acknowledgement of the other end's SYN. */
  function FirstAck(window: u16): Seg {
    Seg(1, 1, ACK, window, NO_OPTIONS.(ts := Some(Stamp(0, 0))), [])
  }

  /** What the witnesses need to know of an endpoint that has come through the handshake. */
  predicate Opened(c: Conn, mss: u16, wnd: u16) {
    && c.state == Established && c.send == Send(0, 1, 1, wnd, RCV_WND) && c.recv == Recv(0, 1, RCV_WND)
    && c.retx.segs == [] && c.sendBuf == [] && c.recvBuf == [] && !c.peerFin && c.pendingFin.None?
    && c.reasm == Reassembly.Reasm(1, map[]) && c.cong == Congestion.CubicArm(Congestion.CUBIC_INIT)
    && c.opt == Settings(true, mss, true, 0, 0, 0, true, false) && c.clock.challengeBudget == 1
    && c.clock.challengeWindowMs == 0
  }

  lemma ListenerHears()
    ensures var r := Accept(SYN_SEG, 0, 1, 0);
            && r.Some? && r.value.1 == SynAck(OUR_MSS) && r.value.0.state == SynRcvd
            && r.value.0.send == Send(0, 0, 1, RCV_WND, RCV_WND) && r.value.0.recv == Recv(0, 1, RCV_WND)
            && r.value.0.retx == Retransmit.Retx([Retransmit.Unacked(0, 1, SynAck(OUR_MSS), 0, 0, false)], 0, 0)
  {
  }

  lemma OpenerHears(mss: u16)
    ensures var r := OnSegment(Connect(0, 1, 0).0, SynAck(mss), ENV, 0);
            Opened(r.0, Min(mss, OUR_MSS), RCV_WND) && r.1 == Some(FirstAck(RCV_WND))
  {
    var c := Connect(0, 1, 0).0;
    assert c.retx.segs == [Retransmit.Unacked(0, 1, SYN_SEG, 0, 0, false)];
    assert Retransmit.Keep(c.retx.segs, 1) == [] by {
      assert c.retx.segs[..0] == [];
    }
  }

  /** A pure ACK of what is already acknowledged moves nothing but the window. */
  lemma OpenHears(c: Conn, mss: u16, wnd: u16, window: u16)
    requires Opened(c, mss, wnd) && window <= RCV_WND
    ensures var r := OnOpen(c, FirstAck(window), ENV, 0);
            Opened(r.0, mss, window) && r.1.None?
  {
    var p := FirstAck(window);
    var c1 := Refresh(c, p);
    assert !Paws(c, p) && Opened(c1, mss, window);
    hide Refresh, Paws;
    assert OnAckField(c1, p, c.send.wnd, ENV, 0) == (c1, None, false) by { hide Opened; }
    assert OnText(c1, p) == (c1, None);
  }

  lemma ListenerEstablished()
    ensures var r := OnSegment(Accept(SYN_SEG, 0, 1, 0).value.0, FirstAck(RCV_WND), ENV, 0);
            Opened(r.0, OUR_MSS, RCV_WND) && r.1.None?
  {
    var c := Accept(SYN_SEG, 0, 1, 0).value.0;
    ListenerHears();
    var c1 := Establish(Arrive(c, 0), FirstAck(RCV_WND), 0);
    assert Retransmit.Keep(c.retx.segs, 1) == [] by {
      assert c.retx.segs[..0] == [];
    }
    assert Opened(c1, OUR_MSS, RCV_WND) by { hide Retransmit.Keep; }
    hide OnOpen, Accept, Establish, Opened;
    OpenHears(c1, OUR_MSS, RCV_WND, RCV_WND);
  }

  lemma SynChallenged(c: Conn)
    requires Opened(c, OUR_MSS, RCV_WND)
    ensures OnSegment(c, SYN_SEG, ENV, 0).1 == Some(FirstAck(RCV_WND))
  {
  }

  lemma WindowShuts(c: Conn)
    requires Opened(c, OUR_MSS, RCV_WND)
    ensures Opened(OnSegment(c, FirstAck(0), ENV, 0).0, OUR_MSS, 0)
  {
    hide OnOpen;
    OpenHears(Arrive(c, 0), OUR_MSS, RCV_WND, 0);
  }

  /** What handing a segment to A does to the system. */
  lemma Hears(s: Sys, p: Seg, q: Seg)
    requires Reached(s) && s.a.conn.Some? && q in s.toA && Variant(p, q)
    ensures var r := OnSegment(s.a.conn.value, p, ENV, 0);
            var t := StepA(s, ReceiveEvent(p, ENV, 0));
            Reached(t) && t == s.(a := s.a.(conn := Some(r.0)), toB := s.toB + OnWire(Outs(r.1)))
  {
    Handed(s.toA, p, q);
    hide Reached, OnSegment, Deliverable;
    ReachedStepA(s, ReceiveEvent(p, ENV, 0));
  }


  // ---- the runs ----

  lemma StartReached()
    ensures Reached(Start(0, 0, 1, 0))
  {
    assert Start(0, 0, 1, 0) == Run(Start(0, 0, 1, 0), []);
  }

  /** B has heard the SYN. */
  lemma Half() returns (s: Sys)
    ensures Reached(s) && s.a.conn == Some(Connect(0, 1, 0).0) && s.b.conn == Some(Accept(SYN_SEG, 0, 1, 0).value.0)
    ensures s.aIss == 0 && s.bIss == 0 && s.toA == {SynAck(OUR_MSS)} && SYN_SEG in s.toB
    ensures s.a.written == [] && s.a.taken == [] && s.b.written == [] && s.b.taken == []
  {
    var s0 := Start(0, 0, 1, 0);
    StartReached();
    Handed(s0.toB, SYN_SEG, SYN_SEG);
    ListenerHears();
    hide Reached, Accept, Connect, Deliverable;
    s := Flip(StepA(Flip(s0), ReceiveEvent(SYN_SEG, ENV, 0)));
    ReachedStepB(s0, ReceiveEvent(SYN_SEG, ENV, 0));
  }

  /** A has heard the answer, with the given MSS in it. */
  lemma Open(mss: u16) returns (s: Sys)
    ensures Reached(s) && s.a.conn.Some? && Opened(s.a.conn.value, Min(mss, OUR_MSS), RCV_WND)
    ensures s.b.conn == Some(Accept(SYN_SEG, 0, 1, 0).value.0)
    ensures s.aIss == 0 && s.bIss == 0 && SYN_SEG in s.toB && FirstAck(RCV_WND) in s.toB && s.toA == {SynAck(OUR_MSS)}
    ensures s.a.written == [] && s.a.taken == [] && s.b.written == [] && s.b.taken == []
  {
    var h := Half();
    OpenerHears(mss);
    hide Reached, Accept, Connect, OnSegment, StepA, Opened;
    Hears(h, SynAck(mss), SynAck(OUR_MSS));
    s := StepA(h, ReceiveEvent(SynAck(mss), ENV, 0));
  }

  /** A has written one byte. */
  lemma Wrote(h: Sys, mss: u16, wnd: u16) returns (s: Sys)
    requires Reached(h) && h.a.conn.Some? && Opened(h.a.conn.value, mss, wnd) && h.a.written == []
    ensures Reached(s) && s.a.conn.Some?
    ensures var c := s.a.conn.value;
            && c.state == Established && c.cong.CubicArm? && c.send == Send(0, 1, 1, wnd, RCV_WND) && c.sendBuf == [1]
            && c.retx.segs == [] && c.opt.sendMss == mss && !c.opt.keepaliveEnabled && !Congestion.InRecovery(c.cong)
  {
    hide Reached;
    s := StepA(h, WriteEvent([1]));
    ReachedStepA(h, WriteEvent([1]));
  }

  /** An MSS of zero is reached, and then data waits for good: no poll and no tick sends anything, although nothing
      is in flight and the window is open. The condition of `NoStall.NeverStalls` on the segment size is needed. */
  lemma ZeroMssStalls() returns (s: Sys)
    ensures Reached(s) && s.a.conn.Some?
    ensures var c := s.a.conn.value;
            && c.state == Established && c.cong.CubicArm? && c.sendBuf != [] && c.retx.segs == [] && !WindowShut(c)
            && c.opt.sendMss == 0
            && (forall now :: PollTransmit(c, now).1 == []) && (forall now :: OnTick(c, now).1 == [])
  {
    var h := Open(0);
    s := Wrote(h, 0, RCV_WND);
    var c := s.a.conn.value;
    hide Reached, PollTransmit, OnTick;
    forall now: nat
      ensures PollTransmit(c, now).1 == [] && OnTick(c, now).1 == []
    {
      ZeroMssPoll(c, now);
      NoTimerHelps(c, now);
    }
  }

  /** And a shut window is reached, with a usable segment size: the other case of `NoStall.NeverStalls`. */
  lemma ShutWindowReached() returns (s: Sys)
    ensures Reached(s) && s.a.conn.Some?
    ensures var c := s.a.conn.value;
            && WindowShut(c) && c.state == Established && c.cong.CubicArm? && c.opt.sendMss >= 1 && c.retx.segs == []
            && forall now :: PollTransmit(c, now).1 == []
  {
    var h := Shut();
    s := Wrote(h, OUR_MSS, 0);
    var c := s.a.conn.value;
    hide Reached, PollTransmit;
    forall now: nat
      ensures PollTransmit(c, now).1 == []
    {
      ShutSendsNothing(c, now);
    }
  }

  lemma ShutSendsNothing(c: Conn, now: nat)
    requires c.send.wnd == 0 && !Congestion.InRecovery(c.cong)
    ensures PollTransmit(c, now).1 == []
  {
    var c0 := Stamped(c, now);
    assert UsableWindow(c0) == 0 by { hide FlightSize; }
    hide Transmit, ArmProbe, UsableWindow, FillHoles, FillPipe;
    assert FillWindow(c0, Congestion.PacingRate(c0.cong), now).1 == [];
  }

  /** B, established, answers A's old SYN with a challenge ACK; A hears it with the window shut. */
  lemma Shut() returns (s: Sys)
    ensures Reached(s) && s.a.conn.Some? && Opened(s.a.conn.value, OUR_MSS, 0) && s.a.written == []
  {
    var h := Challenged();
    WindowShuts(h.a.conn.value);
    hide Reached, OnSegment, StepA, Opened;
    Hears(h, FirstAck(0), FirstAck(RCV_WND));
    s := StepA(h, ReceiveEvent(FirstAck(0), ENV, 0));
  }

  /** Both ends are established, and nothing but handshake segments is on the way to A. */
  lemma BothOpen() returns (s: Sys)
    ensures Reached(s) && s.a.conn.Some? && Opened(s.a.conn.value, OUR_MSS, RCV_WND) && s.a.written == [] && s.a.taken == []
    ensures s.b.conn.Some? && Opened(s.b.conn.value, OUR_MSS, RCV_WND) && s.b.written == [] && s.b.taken == []
    ensures s.aIss == 0 && s.bIss == 0 && SYN_SEG in s.toB && forall q :: q in s.toA ==> q.payload == []
  {
    var h := Open(OUR_MSS);
    ListenerEstablished();
    FlipReached(h);
    hide Reached, OnSegment, StepA, Opened, Accept, Connect;
    Hears(Flip(h), FirstAck(RCV_WND), FirstAck(RCV_WND));
    s := Flip(StepA(Flip(h), ReceiveEvent(FirstAck(RCV_WND), ENV, 0)));
    FlipReached(Flip(s));
    assert Flip(Flip(s)) == s;
  }

  lemma Challenged() returns (s: Sys)
    ensures Reached(s) && s.a.conn.Some? && Opened(s.a.conn.value, OUR_MSS, RCV_WND) && s.a.written == []
    ensures FirstAck(RCV_WND) in s.toA
  {
    var h := BothOpen();
    FlipReached(h);
    hide Reached, OnSegment, StepA, Opened, Accept, Connect;
    SynChallenged(h.b.conn.value);
    Hears(Flip(h), SYN_SEG, SYN_SEG);
    var f := StepA(Flip(h), ReceiveEvent(SYN_SEG, ENV, 0));
    FlipReached(f);
    s := Flip(f);
  }
}
