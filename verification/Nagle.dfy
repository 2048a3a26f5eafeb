/** What `poll_transmit` may put in flight: never past the windows, and with Nagle's algorithm
    (RFC 896) at most one small segment, the oldest one. */
module Nagle {
  import opened Types
  import opened SeqNum
  import opened Segments
  import opened Connection
  import opened Calls
  import opened Lifecycle
  import opened System
  import opened EndToEnd
  import Direction
  import Retransmit
  import Congestion
  import Rtt

  /** The recovery branch of `poll_transmit` paces by the pipe instead. */
  predicate Recovering(c: Conn) {
    c.opt.sackOk && Congestion.InRecovery(c.cong)
  }

  // ---- the windows ----

  /** Room on the circle for everything still to be sent. */
  predicate Roomy(c: Conn) {
    FlightSize(c) + |c.sendBuf| < TWO_31
  }

  lemma SendOneFlight(c: Conn, pacing: real, n: nat, now: nat)
    requires 0 < n <= |c.sendBuf| && Roomy(c)
    ensures var t := Transmit(Pace(c, pacing, n, now), n, PSH + ACK, now).0;
            && FlightSize(t) == FlightSize(c) + n && |t.sendBuf| == |c.sendBuf| - n && Roomy(t)
            && t.send.wnd == c.send.wnd && t.cong == c.cong && t.opt == c.opt && t.send.una == c.send.una
            && |t.retx.segs| == |c.retx.segs| + 1 && t.retx.segs[..|c.retx.segs|] == c.retx.segs
            && t.retx.segs[|c.retx.segs|].packet.payload == c.sendBuf[..n]
  {
    Advance(c.send.una, c.send.nxt, n);
    hide Add, Sub, Low32;
  }

  lemma Advance(una: u32, nxt: u32, n: nat)
    requires Sub(nxt, una) + n < TWO_31
    ensures Sub(Add(nxt, Low32(n)), una) == Sub(nxt, una) + n
  {
  }

  /** Outside the recovery branch nothing is sent past min(SND.WND, cwnd) in flight, and sending stops
      only for want of data or because a window, Nagle or pacing says so. */
  lemma {:induction false} WindowRespected(c: Conn, pacing: real, now: nat)
    requires Roomy(c)
    ensures var r := FillWindow(c, pacing, now);
            && (r.1 != [] ==> FlightSize(r.0) <= SendLimit(c)) && (r.1 == [] ==> r.0 == c)
            && (r.0.sendBuf == [] || NextSend(r.0, pacing, now) == 0)
            && SendLimit(r.0) == SendLimit(c)
    decreases |c.sendBuf|
  {
    hide FlightSize, Transmit;
    if c.sendBuf != [] {
      var n := NextSend(c, pacing, now);
      if n != 0 {
        var t := Transmit(Pace(c, pacing, n, now), n, PSH + ACK, now).0;
        SendOneFlight(c, pacing, n, now);
        WindowRespected(t, pacing, now);
      }
    }
  }

  // ---- small segments ----

  /** A full-sized data segment, or one without data. */
  predicate Whole(x: Retransmit.Unacked, mss: u16) {
    x.packet.payload == [] || |x.packet.payload| >= mss
  }

  /** At most the oldest queued segment is small. */
  ghost predicate SmallOldest(segs: seq<Retransmit.Unacked>, mss: u16) {
    forall j :: 1 <= j < |segs| ==> Whole(segs[j], mss)
  }

  /** Nothing in flight means nothing queued. */
  predicate IdleEmpty(c: Conn) {
    c.send.una == c.send.nxt ==> c.retx.segs == []
  }

  lemma SmallDerived(a: seq<Retransmit.Unacked>, b: seq<Retransmit.Unacked>, mss: u16)
    requires SmallOldest(a, mss) && Subqueue(a, b)
    ensures SmallOldest(b, mss)
  {
    forall j | 1 <= j < |b|
      ensures Whole(b[j], mss)
    {
      var i := SubqueueAt(a, b, j);
    }
  }

  lemma SmallAppended(segs: seq<Retransmit.Unacked>, segs': seq<Retransmit.Unacked>, mss: u16)
    requires SmallOldest(segs, mss) && |segs'| == |segs| + 1 && segs'[..|segs|] == segs
    requires segs == [] || Whole(segs'[|segs|], mss)
    ensures SmallOldest(segs', mss)
  {
    forall j | 1 <= j < |segs'|
      ensures Whole(segs'[j], mss)
    {
      assert j < |segs| ==> segs'[j] == segs[j];
    }
  }

  lemma {:induction false} FillWindowSmall(c: Conn, pacing: real, now: nat)
    requires Roomy(c) && c.opt.nagle && IdleEmpty(c) && SmallOldest(c.retx.segs, c.opt.sendMss)
    ensures var r := FillWindow(c, pacing, now).0;
            SmallOldest(r.retx.segs, c.opt.sendMss) && r.opt == c.opt
    decreases |c.sendBuf|
  {
    hide Transmit, SmallOldest, SendLimit;
    if c.sendBuf != [] {
      var n := NextSend(c, pacing, now);
      if n != 0 {
        var t := Transmit(Pace(c, pacing, n, now), n, PSH + ACK, now).0;
        SendOneFlight(c, pacing, n, now);
        assert c.retx.segs == [] || n >= c.opt.sendMss;
        SmallAppended(c.retx.segs, t.retx.segs, c.opt.sendMss);
        assert FlightSize(t) > 0;
        FillWindowSmall(t, pacing, now);
      }
    }
  }

  lemma PollSmall(c: Conn, now: nat)
    requires Roomy(c) && c.opt.nagle && IdleEmpty(c) && SmallOldest(c.retx.segs, c.opt.sendMss) && !Recovering(c)
    ensures var r := PollTransmit(c, now).0;
            SmallOldest(r.retx.segs, r.opt.sendMss) && r.opt.nagle
  {
    var c0 := Stamped(c, now);
    FillWindowSmall(c0, Congestion.PacingRate(c0.cong), now);
    hide FillWindow, SmallOldest, FlightSize, Rtt.Rto, FillHoles, FillPipe;
  }

  // ---- timers ----

  lemma TickSmall(c: Conn, now: nat)
    requires IdleEmpty(c) && SmallOldest(c.retx.segs, c.opt.sendMss)
    ensures var r := OnTick(c, now).0;
            SmallOldest(r.retx.segs, r.opt.sendMss) && r.opt.nagle == c.opt.nagle
  {
    hide SmallOldest, IdleEmpty, Reap, TickRack, TickProbe, TickRto, TickPersist, TickKeepalive, Stamped;
    var c0 := Reap(Stamped(c, now), now);
    var a := TickRack(c0, now).0;
    var b := TickProbe(a, now).0;
    var d := TickRto(b, now).0;
    var e := TickPersist(d, now).0;
    ReapShape(c, now);
    ResendShape(c0, now);
    ResendShape(a, now);
    ResendShape(b, now);
    ShapeSmall(c, c0);
    ShapeSmall(c0, a);
    ShapeSmall(a, b);
    ShapeSmall(b, d);
    PersistSmall(d, now);
    KeepaliveShape(e, now);
  }

  /** Same sender, possibly with other timers, marks or controllers. */
  ghost predicate Repeats(c: Conn, c': Conn) {
    Retransmit.SameShape(c.retx.segs, c'.retx.segs) && c'.send == c.send && c'.sendBuf == c.sendBuf
    && c'.opt.nagle == c.opt.nagle && c'.opt.sendMss == c.opt.sendMss
  }

  lemma ReapShape(c: Conn, now: nat)
    ensures Repeats(c, Reap(Stamped(c, now), now))
  {
  }

  lemma ResendShape(c: Conn, now: nat)
    ensures Repeats(c, TickRack(c, now).0) && Repeats(c, TickProbe(c, now).0) && Repeats(c, TickRto(c, now).0)
  {
    hide Retransmit.SameShape, TickRack, TickProbe, TickRto;
    ResendSteps(c, now);
  }

  lemma ShapeSmall(c: Conn, c': Conn)
    requires Repeats(c, c') && IdleEmpty(c) && SmallOldest(c.retx.segs, c.opt.sendMss)
    ensures IdleEmpty(c') && SmallOldest(c'.retx.segs, c'.opt.sendMss)
  {
    SameSubqueue(c.retx.segs, c'.retx.segs);
    SmallDerived(c.retx.segs, c'.retx.segs, c.opt.sendMss);
    hide SmallOldest, Subqueue;
  }

  /** A zero-window probe goes out only with nothing else queued: it is the whole queue. */
  lemma PersistSmall(c: Conn, now: nat)
    requires IdleEmpty(c) && SmallOldest(c.retx.segs, c.opt.sendMss)
    ensures var r := TickPersist(c, now).0;
            && SmallOldest(r.retx.segs, r.opt.sendMss) && r.opt == c.opt
            && if TickPersist(c, now).1 == [] then r.retx == c.retx
               else |r.retx.segs| == 1 && TickPersist(c, now).1 == [r.retx.segs[0].packet]
  {
    hide Rtt.Rto, Segment;
    if WindowShut(c) {
      assert c.send.una == c.send.nxt;
    }
  }

  lemma KeepaliveShape(c: Conn, now: nat)
    ensures TickKeepalive(c, now).0.retx == c.retx && TickKeepalive(c, now).0.opt == c.opt
  {
    hide Segment, FlightSize;
  }

  lemma CloseSmall(c: Conn, now: nat)
    requires SmallOldest(c.retx.segs, c.opt.sendMss)
    ensures var r := Close(c, now).0;
            SmallOldest(r.retx.segs, r.opt.sendMss) && r.opt.nagle == c.opt.nagle
  {
    if c.state == Established || c.state == CloseWait {
      var r := Close(c, now).0;
      hide Add;
      assert r.retx.segs[|c.retx.segs|].packet.payload == [];
      SmallAppended(c.retx.segs, r.retx.segs, c.opt.sendMss);
      hide SmallOldest;
    }
  }

  /** The calls an application that leaves Nagle on may make outside the recovery branch. */
  predicate Calm(c: Conn, e: Event) {
    !(e.NoDelayEvent? && e.on) && !(e.PollEvent? && Recovering(c))
  }

  /** One call keeps small segments to the oldest. In SYN_SENT the queue holds just the SYN. */
  lemma CallSmall(c: Conn, e: Event)
    requires Calm(c, e) && Roomy(c) && c.opt.nagle && IdleEmpty(c) && SmallOldest(c.retx.segs, c.opt.sendMss)
    requires c.state == SynSent ==> |c.retx.segs| <= 1
    ensures var r := Apply(c, e).0;
            SmallOldest(r.retx.segs, r.opt.sendMss) && r.opt.nagle
  {
    hide SmallOldest, IdleEmpty, Roomy, Recovering, PollTransmit, OnTick, Close, OnSegment;
    match e {
      case PollEvent(now) => PollSmall(c, now);
      case TickEvent(now) => TickSmall(c, now);
      case CloseEvent(now) => CloseSmall(c, now);
      case ReceiveEvent(p, env, now) => SegmentSmall(c, p, env, now);
      case _ =>
    }
  }

  lemma SegmentSmall(c: Conn, s: Seg, env: Env, now: nat)
    requires SmallOldest(c.retx.segs, c.opt.sendMss) && (c.state == SynSent ==> |c.retx.segs| <= 1)
    ensures var r := OnSegment(c, s, env, now).0;
            SmallOldest(r.retx.segs, r.opt.sendMss) && r.opt.nagle == c.opt.nagle
  {
    SegmentHandled(c, s, env, now);
    hide OnSegment, Heard, Subqueue, RackEnds, FinKnown;
    var r := OnSegment(c, s, env, now).0;
    SmallDerived(c.retx.segs, r.retx.segs, c.opt.sendMss);
    SubqueueShorter(c.retx.segs, r.retx.segs);
  }

  // ---- whole runs of the two-endpoint system ----

  /** What the sending invariant says about room, idleness and the handshake. */
  lemma SenderRoom(c: Conn, d: Direction.Dir, w: seq<byte>)
    requires Direction.Sends(c, d, w) && |w| < STREAM_LIMIT
    ensures Roomy(c) && IdleEmpty(c) && (c.state == SynSent ==> |c.retx.segs| <= 1)
  {
    SendsFacts(c, d, w);
    Bounded(d, w, Direction.Oldest(c, d));
    hide Direction.Tiled, Off, Sub;
    OffDistance(c.send.iss, c.send.una, c.send.nxt);
    assert Off(c.send.iss, c.send.una) == d.cuts[Direction.Oldest(c, d)] || c.retx.segs == [];
    if Direction.Oldest(c, d) < Direction.Units(d) {
      Ordered(d, w, Direction.Oldest(c, d) + 1, Direction.Units(d));
    }
  }

  /** In every reachable state, a poll outside the recovery branch that sends anything leaves at most
      min(SND.WND, cwnd) in flight, and an open connection stops sending only for want of data or because a
      window, Nagle or pacing says so. */
  lemma WindowNeverExceeded(s: Sys, now: nat)
    requires Reached(s) && s.a.conn.Some? && !Recovering(s.a.conn.value)
    ensures var c := s.a.conn.value;
            var r := PollTransmit(c, now);
            && (r.1 != [] ==> FlightSize(r.0) <= SendLimit(c))
            && (c.state == Established || c.state == CloseWait ==>
                  r.0.sendBuf == [] || NextSend(r.0, Congestion.PacingRate(c.cong), now) == 0)
  {
    hide Reached, InvWith, Direction.Sends, Roomy, IdleEmpty;
    ReachedInv(s);
    var ab, ba :| InvWith(s, ab, ba);
    var c := s.a.conn.value;
    SenderOf(s, ab, ba);
    StreamBound(s, ab, ba);
    SenderRoom(c, ab, s.a.written);
    PollRespects(c, now);
    hide PollTransmit;
  }

  lemma PollRespects(c: Conn, now: nat)
    requires Roomy(c) && !Recovering(c)
    ensures var r := PollTransmit(c, now);
            && (r.1 != [] ==> FlightSize(r.0) <= SendLimit(c))
            && (c.state == Established || c.state == CloseWait ==>
                  r.0.sendBuf == [] || NextSend(r.0, Congestion.PacingRate(c.cong), now) == 0)
  {
    var c0 := Stamped(c, now);
    WindowRespected(c0, Congestion.PacingRate(c0.cong), now);
    var f := FillWindow(c0, Congestion.PacingRate(c0.cong), now).0;
    ArmedSame(f, Congestion.PacingRate(c.cong), now);
    hide FillWindow, ArmProbe, NextSend, FillHoles, FillPipe;
  }

  /** Arming the Tail Loss Probe is no business of the send gates. */
  lemma ArmedSame(c: Conn, pacing: real, now: nat)
    ensures var a := ArmProbe(c, now);
            NextSend(a, pacing, now) == NextSend(c, pacing, now) && a.sendBuf == c.sendBuf && a.send == c.send
            && FlightSize(a) == FlightSize(c)
  {
    hide Sub, Rtt.Rto;
  }

  ghost predicate PeerSmall(p: Peer) {
    p.conn.Some? ==> p.conn.value.opt.nagle && SmallOldest(p.conn.value.retx.segs, p.conn.value.opt.sendMss)
  }

  /** Event i of the run, if it happens at A, is a calm one. */
  predicate CalmAt(s: Sys, acts: seq<Action>, i: nat)
    requires i < |acts|
  {
    var p := Run(s, acts[..i]).a;
    acts[i].AtA? && p.conn.Some? ==> Calm(p.conn.value, acts[i].event)
  }

  ghost predicate CalmRun(s: Sys, acts: seq<Action>) {
    forall i :: 0 <= i < |acts| ==> CalmAt(s, acts, i)
  }

  lemma CalmPrefix(s: Sys, acts: seq<Action>, n: nat)
    requires n <= |acts| && CalmRun(s, acts)
    ensures CalmRun(s, acts[..n])
  {
    forall i | 0 <= i < n
      ensures CalmAt(s, acts[..n], i)
    {
      assert CalmAt(s, acts, i);
      assert acts[..n][..i] == acts[..i];
    }
  }

  lemma LocalSmall(p: Peer, iss: u32, inbox: set<Seg>, e: Event)
    requires PeerSmall(p)
    requires p.conn.Some? ==> var c := p.conn.value;
             Calm(c, e) && Roomy(c) && IdleEmpty(c) && (c.state == SynSent ==> |c.retx.segs| <= 1)
    ensures PeerSmall(Local(p, iss, inbox, e).0)
  {
    if p.conn.Some? {
      CallSmall(p.conn.value, e);
      hide Apply, SmallOldest, Roomy, IdleEmpty, Calm;
    } else {
      hide Apply, Add, Has;
    }
  }

  lemma StepSmall(s: Sys, act: Action)
    requires Inv(s) && PeerSmall(s.a)
    requires act.AtA? && s.a.conn.Some? ==> Calm(s.a.conn.value, act.event)
    ensures PeerSmall(Step(s, act).a)
  {
    hide PeerSmall, Local, InvWith, Calm, Roomy, IdleEmpty, Direction.Sends;
    if act.AtA? {
      if s.a.conn.Some? {
        var ab, ba :| InvWith(s, ab, ba);
        SenderOf(s, ab, ba);
        StreamBound(s, ab, ba);
        SenderRoom(s.a.conn.value, ab, s.a.written);
      }
      LocalSmall(s.a, s.aIss, s.toA, act.event);
    }
  }

  lemma {:induction false} RunSmall(s: Sys, acts: seq<Action>)
    requires Inv(s) && PeerSmall(s.a) && CalmRun(s, acts)
    ensures PeerSmall(Run(s, acts).a)
  {
    if acts != [] {
      var n := |acts| - 1;
      CalmPrefix(s, acts, n);
      RunSmall(s, acts[..n]);
      RunInv(s, acts[..n]);
      assert CalmAt(s, acts, n);
      hide Inv, PeerSmall, Step, CalmRun, Calm;
      StepSmall(Run(s, acts[..n]), acts[n]);
    }
  }

  /** The run as seen from the other end. */
  function Mirror(acts: seq<Action>): seq<Action> {
    if acts == [] then [] else
      var last := acts[|acts| - 1];
      Mirror(acts[..|acts| - 1]) + [if last.AtA? then AtB(last.event) else AtA(last.event)]
  }

  lemma {:induction false} MirrorRun(s: Sys, acts: seq<Action>)
    ensures Run(Flip(s), Mirror(acts)) == Flip(Run(s, acts))
  {
    hide StepA;
    if acts != [] {
      var n := |acts| - 1;
      var m := Mirror(acts);
      MirrorRun(s, acts[..n]);
      assert m[..|m| - 1] == Mirror(acts[..n]);
      assert Flip(Flip(Run(s, acts[..n]))) == Run(s, acts[..n]);
    }
  }

  /** In every run in which an endpoint leaves Nagle on and never polls in the recovery branch, every
      segment it has queued except the oldest is full-sized (or the FIN). */
  lemma SmallSegmentIsOldest(aIss: u32, bIss: u32, budget: Budget, now: nat, acts: seq<Action>)
    ensures CalmRun(Start(aIss, bIss, budget, now), acts) ==> PeerSmall(Run(Start(aIss, bIss, budget, now), acts).a)
    ensures CalmRun(Flip(Start(aIss, bIss, budget, now)), Mirror(acts)) ==>
              PeerSmall(Run(Start(aIss, bIss, budget, now), acts).b)
  {
    var s := Start(aIss, bIss, budget, now);
    StartInv(aIss, bIss, budget, now);
    assert PeerSmall(s.a) && PeerSmall(s.b);
    hide Start, PeerSmall, CalmRun, Run, Inv;
    if CalmRun(s, acts) {
      RunSmall(s, acts);
    }
    if CalmRun(Flip(s), Mirror(acts)) {
      FlipInv(s);
      RunSmall(Flip(s), Mirror(acts));
      MirrorRun(s, acts);
    }
  }
}
