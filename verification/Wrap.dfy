/** Wrapping arithmetic decides as unbounded integers would: in every reachable state, whatever the initial
    sequence numbers, every comparison a connection makes is the comparison of two positions in a stream. */
module Wrap {
  import opened Types
  import opened SeqNum
  import opened Segments
  import opened Connection
  import opened Calls
  import opened Lifecycle
  import opened Segmentation
  import opened Direction
  import opened Arrival
  import opened System
  import opened EndToEnd
  import Receiver
  import Retransmit
  import Reassembly
  import Congestion
  import SackReport
  import Rtt

  /** Less than 2^31 past the origin of its direction. */
  predicate Live(iss: u32, x: u32) {
    Off(iss, x) < TWO_31
  }

  // ---- RACK's record ----

  predicate RackLive(c: Conn) {
    c.retx.rackTs > 0 ==> Live(c.send.iss, c.retx.rackEnd)
  }

  /** No call but an arriving segment moves RACK's record, and that moves it to an end of a queued segment. */
  lemma CallRack(c: Conn, e: Event)
    requires RackLive(c) && forall x :: x in c.retx.segs ==> Live(c.send.iss, x.end)
    ensures RackLive(Apply(c, e).0)
  {
    hide OnSegment, OnTick, PollTransmit, Segment, Add, Live;
    match e {
      case ReceiveEvent(p, env, now) =>
        SegmentHandled(c, p, env, now);
        hide Subqueue, FinKnown, Heard;
      case TickEvent(now) => TickFrame(c, now);
      case PollEvent(now) => PollFrame(c, now);
      case _ =>
    }
  }

  predicate PeerRack(p: Peer) {
    p.conn.Some? ==> RackLive(p.conn.value)
  }

  lemma StepRackA(s: Sys, e: Event)
    requires Inv(s) && PeerRack(s.a)
    ensures PeerRack(StepA(s, e).a)
  {
    hide Apply, InvWith, RackLive, Deliverable;
    if s.a.conn.Some? {
      var c := s.a.conn.value;
      var ab, ba :| InvWith(s, ab, ba);
      SenderOf(s, ab, ba);
      SenderLiveOneWay(c, ab, s.a.written);
      hide Sends, Live;
      CallRack(c, e);
    } else if e.ReceiveEvent? {
      AcceptRack(e.p, s.aIss, e.env.budget, e.now);
      hide Accept;
    }
  }

  lemma AcceptRack(p: Seg, iss: u32, budget: Budget, now: nat)
    ensures Accept(p, iss, budget, now).Some? ==> RackLive(Accept(p, iss, budget, now).value.0)
  {
    hide Has, Add;
  }

  lemma {:induction false} RunRack(s: Sys, acts: seq<Action>)
    requires Inv(s) && PeerRack(s.a) && PeerRack(s.b)
    ensures PeerRack(Run(s, acts).a) && PeerRack(Run(s, acts).b)
  {
    if acts != [] {
      var n := |acts| - 1;
      var t := Run(s, acts[..n]);
      RunRack(s, acts[..n]);
      RunInv(s, acts[..n]);
      FlipInv(t);
      hide Inv, PeerRack, Local;
      match acts[n] {
        case AtA(e) => StepRackA(t, e);
        case AtB(e) => StepRackA(Flip(t), e);
      }
    }
  }

  lemma ReachedRack(s: Sys)
    requires Reached(s)
    ensures PeerRack(s.a)
  {
    hide PeerRack, Run, Start, Reachable;
    if Reachable(s) {
      ReachableRack(s);
    } else {
      ReachableRack(Flip(s));
    }
  }

  lemma ReachableRack(s: Sys)
    requires Reachable(s)
    ensures PeerRack(s.a) && PeerRack(s.b)
  {
    hide Run, Inv;
    var aIss, bIss, budget: Budget, now: nat, acts :| s == Run(Start(aIss, bIss, budget, now), acts);
    StartInv(aIss, bIss, budget, now);
    assert PeerRack(Start(aIss, bIss, budget, now).a) && PeerRack(Start(aIss, bIss, budget, now).b);
    hide Start;
    RunRack(Start(aIss, bIss, budget, now), acts);
  }

  // ---- every number is live ----

  /** Every number an endpoint holds about its own direction. */
  ghost predicate SenderLive(c: Conn, iss: u32) {
    && Live(iss, c.send.una) && Live(iss, c.send.nxt) && 1 <= Off(iss, c.send.nxt)
    && Off(iss, c.send.una) <= Off(iss, c.send.nxt) && Off(iss, c.send.nxt) + |c.sendBuf| < TWO_31
    && (Congestion.InRecovery(c.cong) ==> Live(iss, c.recover))
    && (c.retx.rackTs > 0 ==> Live(iss, c.retx.rackEnd))
    && (forall x :: x in c.retx.segs ==> EntryLive(x, iss))
  }

  predicate EntryLive(x: Retransmit.Unacked, iss: u32) {
    Live(iss, x.start) && Live(iss, x.end) && Off(iss, x.start) < Off(iss, x.end)
  }

  /** Every number an endpoint holds about the other direction, once it has heard of it: RCV.NXT, a FIN it
      has deferred, and both edges of every byte range it has buffered. */
  ghost predicate ReceiverLive(c: Conn, iss: u32) {
    c.state != SynSent ==>
      && Live(iss, c.recv.nxt) && 1 <= Off(iss, c.recv.nxt) && c.reasm.base == Add(iss, 1)
      && (c.pendingFin.Some? ==> Live(iss, c.pendingFin.value))
      && forall k :: k in c.reasm.frags ==> FragLive(c.reasm, k, iss)
  }

  predicate FragLive(r: Reassembly.Reasm, k: u32, iss: u32)
    requires k in r.frags
  {
    && k + 1 + |r.frags[k]| < TWO_31
    && Off(iss, Add(r.base, k)) == k + 1 && Off(iss, Add(Add(r.base, k), Low32(|r.frags[k]|))) == k + 1 + |r.frags[k]|
  }

  /** Every number in a segment: its own place, and what it reports of the other direction. */
  ghost predicate SegmentLive(p: Seg, iss: u32, oIss: u32) {
    && Live(iss, p.seqno) && Off(iss, p.seqno) + |p.payload| < TWO_31 && (p.payload != [] ==> 1 <= Off(iss, p.seqno))
    && (Has(p.flags, ACK) ==> Live(oIss, p.ackno))
    && forall b :: b in p.opts.sack ==> Live(oIss, b.left) && Live(oIss, b.right)
  }

  lemma UnaLive(c: Conn, d: Dir, w: seq<byte>)
    requires Sends(c, d, w) && |w| < STREAM_LIMIT
    ensures Live(c.send.iss, c.send.una) && Live(c.send.iss, c.send.nxt) && 1 <= Off(c.send.iss, c.send.nxt)
    ensures Off(c.send.iss, c.send.una) <= Off(c.send.iss, c.send.nxt)
    ensures Off(c.send.iss, c.send.nxt) + |c.sendBuf| < TWO_31
    ensures Congestion.InRecovery(c.cong) ==> Live(c.send.iss, c.recover)
    ensures WellCut(d, w) && Tiled(c.retx.segs, c.send.iss, d, w)
  {
    SendsFacts(c, d, w);
    Bounded(d, w, Units(d));
    Bounded(d, w, Oldest(c, d));
    Ordered(d, w, 1, Units(d));
    LastCut(d, w);
    hide Tiled, Off, Cuts;
  }

  lemma SenderLiveOneWay(c: Conn, d: Dir, w: seq<byte>)
    requires Sends(c, d, w)
    ensures forall x :: x in c.retx.segs ==> EntryLive(x, c.send.iss)
  {
    hide Sends, EntryLive;
    forall x | x in c.retx.segs
      ensures EntryLive(x, c.send.iss)
    {
      var j :| 0 <= j < |c.retx.segs| && c.retx.segs[j] == x;
      QueueEntryLive(c, d, w, j);
    }
  }

  lemma QueueEntryLive(c: Conn, d: Dir, w: seq<byte>, j: nat)
    requires Sends(c, d, w) && j < |c.retx.segs|
    ensures EntryLive(c.retx.segs[j], c.send.iss)
  {
    hide Sends, Off;
    EntryEdges(c, d, w, j);
    SendsFacts(c, d, w);
    CutOrder(d, w, Oldest(c, d) + j, Oldest(c, d) + j + 1);
  }

  lemma ReceiverLiveOneWay(c: Conn, iss: u32, d: Dir, w: seq<byte>, taken: seq<byte>)
    requires Receives(c, iss, d, w, taken)
    ensures ReceiverLive(c, iss)
  {
    hide Clean, WellCut, Off;
    if c.state != SynSent {
      CutOrder(d, w, 1, d.k);
      FirstCut(d, w);
      if c.pendingFin.Some? {
        CutOrder(d, w, DataUnits(d), d.k);
      }
      forall k | k in c.reasm.frags
        ensures FragLive(c.reasm, k, iss)
      {
        HeldLive(c.reasm, d, w, iss, k);
      }
    }
  }

  lemma FirstCut(d: Dir, w: seq<byte>)
    requires WellCut(d, w)
    ensures |d.cuts| >= 2 && d.cuts[1] == 1 && 0 <= DataUnits(d) < |d.cuts|
  {
  }

  lemma HeldLive(r: Reassembly.Reasm, d: Dir, w: seq<byte>, iss: u32, k: u32)
    requires WellCut(d, w) && Clean(r, d.cuts, w, d.got, d.k) && r.base == Add(iss, 1) && k in r.frags
    ensures FragLive(r, k, iss)
  {
    var i := SackReport.UnitOf(r, d.cuts, w, d.got, d.k, k);
    CutOrder(d, w, i, i + 1);
    hide WellCut, Clean;
    Shifted(iss, k, |r.frags[k]|);
  }

  lemma Shifted(iss: u32, k: u32, n: nat)
    requires k + 1 + n < TWO_31
    ensures Off(iss, Add(Add(iss, 1), k)) == k + 1
    ensures Off(iss, Add(Add(Add(iss, 1), k), Low32(n))) == k + 1 + n
  {
  }

  lemma SegmentLiveOneWay(p: Seg, iss: u32, d: Dir, w: seq<byte>, oIss: u32, e: Dir, v: seq<byte>)
    requires WellCut(d, w) && Honest(p, iss, d, w) && WellCut(e, v) && Truthful(p, oIss, e)
    ensures SegmentLive(p, iss, oIss)
  {
    PlaceLive(p, iss, d, w);
    hide Honest, WellCut, Off;
    if Has(p.flags, ACK) {
      var a :| AckAt(p.ackno, oIss, e, a);
      CutOrder(e, v, a, a);
    }
    forall b | b in p.opts.sack
      ensures Live(oIss, b.left) && Live(oIss, b.right)
    {
      var i, j :| BlockAt(b, oIss, e, i, j);
      CutOrder(e, v, i, j);
    }
  }

  lemma PlaceLive(p: Seg, iss: u32, d: Dir, w: seq<byte>)
    requires WellCut(d, w) && Honest(p, iss, d, w)
    ensures Live(iss, p.seqno) && Off(iss, p.seqno) + |p.payload| < TWO_31 && (p.payload != [] ==> 1 <= Off(iss, p.seqno))
  {
    FirstCut(d, w);
    hide WellCut, Off, Has;
    if Control(p, iss, d) {
      CutOrder(d, w, Units(d), Units(d));
    } else {
      var i :| Carries(p, iss, d, w, i);
      CutOrder(d, w, i, i + 1);
      CutOrder(d, w, i, 1);
      if 0 < i < DataUnits(d) {
        ContentLength(d, w, i);
      }
    }
  }

  lemma ContentLength(d: Dir, w: seq<byte>, i: int)
    requires WellCut(d, w) && 0 < i < DataUnits(d)
    ensures |Content(d, w, i)| == d.cuts[i + 1] - d.cuts[i]
  {
  }

  /** Both ends and the network, as seen by A. */
  lemma Parts(s: Sys) returns (ab: Dir, ba: Dir)
    requires Reached(s)
    ensures InvWith(s, ab, ba) && WellCut(ab, s.a.written) && WellCut(ba, s.b.written) && |s.a.written| < STREAM_LIMIT
    ensures s.a.conn.Some? ==> Sends(s.a.conn.value, ab, s.a.written) && s.a.conn.value.send.iss == s.aIss
    ensures s.a.conn.Some? ==> Receives(s.a.conn.value, s.bIss, ba, s.b.written, s.a.taken)
    ensures NetOk(s.toA, s.bIss, ba, s.b.written, s.aIss, ab)
  {
    hide Reached, InvWith, Sends, Receives, NetOk, Queued, WellCut;
    ReachedInv(s);
    ab, ba :| InvWith(s, ab, ba);
    PartsWith(s, ab, ba);
  }

  lemma PartsWith(s: Sys, ab: Dir, ba: Dir)
    requires InvWith(s, ab, ba)
    ensures WellCut(ab, s.a.written) && WellCut(ba, s.b.written) && |s.a.written| < STREAM_LIMIT
    ensures s.a.conn.Some? ==> Sends(s.a.conn.value, ab, s.a.written) && s.a.conn.value.send.iss == s.aIss
    ensures s.a.conn.Some? ==> Receives(s.a.conn.value, s.bIss, ba, s.b.written, s.a.taken)
    ensures NetOk(s.toA, s.bIss, ba, s.b.written, s.aIss, ab)
  {
    hide Sends, Receives, NetOk, Queued, WellCut;
  }

  /** In every reachable state, and whatever the initial sequence numbers, all the numbers an endpoint holds
      and all the numbers in anything it can be handed lie within 2^31 of one origin per direction. */
  lemma AllNumbersLive(s: Sys, p: Seg)
    requires Reached(s) && s.a.conn.Some?
    ensures SenderLive(s.a.conn.value, s.aIss) && ReceiverLive(s.a.conn.value, s.bIss)
    ensures Deliverable(s.toA, p) ==> SegmentLive(p, s.bIss, s.aIss)
  {
    hide Reached, InvWith, Sends, Receives, NetOk, WellCut, Honest, Truthful, Deliverable, SegmentLive, ReceiverLive;
    var ab, ba := Parts(s);
    var c := s.a.conn.value;
    UnaLive(c, ab, s.a.written);
    SenderLiveOneWay(c, ab, s.a.written);
    ReceiverLiveOneWay(c, s.bIss, ba, s.b.written, s.a.taken);
    ReachedRack(s);
    if Deliverable(s.toA, p) {
      VariantKeeps(s.toA, p, s.bIss, ba, s.b.written, s.aIss, ab);
      SegmentLiveOneWay(p, s.bIss, ba, s.b.written, s.aIss, ab, s.a.written);
    }
  }

  // ---- each decision on integers ----

  /** The acceptance test of section 5 of RFC 5961 on positions. It reaches MAX.SND.WND below SND.UNA, and is the
      one test that can leave the half circle: it agrees with the integer test SND.UNA - MAX.SND.WND <= SEG.ACK
      <= SND.NXT exactly while an ACK within those bounds is less than 2^31 past the lower one. */
  lemma AckAcceptableOnIntegers(c: Conn, iss: u32, ack: u32)
    requires Live(iss, c.send.una) && Live(iss, c.send.nxt) && Live(iss, ack)
    ensures var low := Off(iss, c.send.una) - c.send.maxWnd;
            && (AckAcceptable(c, ack) <==> low <= Off(iss, ack) <= Off(iss, c.send.nxt) && Off(iss, ack) - low < TWO_31)
            && ((AckAcceptable(c, ack) <==> low <= Off(iss, ack) <= Off(iss, c.send.nxt)) <==>
                Off(iss, ack) > Off(iss, c.send.nxt) || Off(iss, ack) - low < TWO_31)
  {
    BeforeOff(iss, ack, c.send.nxt);
    LowEdge(iss, c.send.una, c.send.maxWnd, ack);
    hide Off, Before, After, Sub;
  }

  lemma LowEdge(iss: u32, una: u32, maxWnd: Wnd, ack: u32)
    requires Live(iss, una) && Live(iss, ack)
    ensures !Before(ack, Sub(una, maxWnd)) <==> 0 <= Off(iss, ack) - (Off(iss, una) - maxWnd) < TWO_31
  {
  }

  /** With less than 2^31 between what is in flight and the largest window ever offered, it is the integer test. */
  lemma AckAcceptableWithin(c: Conn, iss: u32, ack: u32)
    requires Live(iss, c.send.una) && Live(iss, c.send.nxt) && Live(iss, ack)
    requires Off(iss, c.send.nxt) - Off(iss, c.send.una) + c.send.maxWnd < TWO_31
    ensures AckAcceptable(c, ack) <==>
            Off(iss, c.send.una) - c.send.maxWnd <= Off(iss, ack) <= Off(iss, c.send.nxt)
  {
    AckAcceptableOnIntegers(c, iss, ack);
    hide AckAcceptable, Off;
  }

  /** The receive-window test is the half-open interval test, even where the window's edge leaves the half circle. */
  lemma InWindowOnIntegers(c: Conn, iss: u32, x: u32)
    requires Live(iss, x) && Live(iss, c.recv.nxt)
    ensures InWindow(c, x) <==> Off(iss, c.recv.nxt) <= Off(iss, x) < Off(iss, c.recv.nxt) + c.recv.wnd
  {
  }

  /** SACK coverage is interval inclusion, and the queue keeps a segment exactly while its end lies beyond
      the acknowledgement. */
  lemma CoverageOnIntegers(x: Retransmit.Unacked, b: Block, iss: u32)
    requires EntryLive(x, iss) && Live(iss, b.left) && Live(iss, b.right)
    ensures Retransmit.Covers(b, x) <==>
            Off(iss, b.left) <= Off(iss, x.start) && Off(iss, x.end) <= Off(iss, b.right)
  {
    BeforeOff(iss, x.start, b.left);
    BeforeOff(iss, x.end, b.right);
  }

  /** Every test and distance the acknowledgement field of p calls for. */
  ghost predicate AckDecisions(c: Conn, p: Seg, iss: u32) {
    var una, nxt, ack := Off(iss, c.send.una), Off(iss, c.send.nxt), Off(iss, p.ackno);
    var low := una - Refresh(c, p).send.maxWnd;
    && (Between(c.send.una, p.ackno, c.send.nxt) <==> una < ack <= nxt)
    && (p.ackno == c.send.una <==> ack == una) && (p.ackno == c.send.nxt <==> ack == nxt)
    && (AckAcceptable(Refresh(c, p), p.ackno) <==> low <= ack <= nxt && ack - low < TWO_31)
    && (Congestion.InRecovery(c.cong) ==> (Before(p.ackno, c.recover) <==> ack < Off(iss, c.recover)))
    && (una <= ack ==> Sub(p.ackno, c.send.una) == ack - una)
    && forall x :: x in c.retx.segs ==> (Before(p.ackno, x.end) <==> ack < Off(iss, x.end))
  }

  /** Every test its SACK blocks call for. */
  ghost predicate SackDecisions(c: Conn, p: Seg, iss: u32) {
    forall b, x :: b in p.opts.sack && x in c.retx.segs ==>
      (Retransmit.Covers(b, x) <==> Off(iss, b.left) <= Off(iss, x.start) && Off(iss, x.end) <= Off(iss, b.right))
  }

  /** Every test its place, its data and its FIN call for: against RCV.NXT as it is, as positions in the
      reassembler, and against RCV.NXT after the data has been delivered. */
  ghost predicate DataDecisions(c: Conn, p: Seg, iss: u32) {
    var nxt, place := Off(iss, c.recv.nxt), Off(iss, p.seqno);
    && (p.seqno == c.recv.nxt <==> place == nxt) && (After(p.seqno, c.recv.nxt) <==> place > nxt)
    && (InWindow(c, p.seqno) <==> nxt <= place < nxt + c.recv.wnd)
    && Sub(c.recv.nxt, c.reasm.base) == nxt - 1 && (p.payload != [] ==> Sub(p.seqno, c.reasm.base) == place - 1)
    && FinDecisions(Deliver(c, p.seqno, p.payload), p, iss)
    && Off(iss, Deliver(c, p.seqno, p.payload).recv.nxt) ==
       nxt + |Deliver(c, p.seqno, p.payload).recvBuf| - |c.recvBuf|
  }

  predicate FinDecisions(c: Conn, p: Seg, iss: u32) {
    var nxt, fin := Off(iss, c.recv.nxt), Add(p.seqno, Low32(|p.payload|));
    && Off(iss, fin) == Off(iss, p.seqno) + |p.payload|
    && (Before(fin, c.recv.nxt) <==> Off(iss, fin) < nxt) && (After(fin, c.recv.nxt) <==> Off(iss, fin) > nxt)
    && (fin == c.recv.nxt <==> Off(iss, fin) == nxt)
    && (c.pendingFin.Some? ==> (c.pendingFin == Some(c.recv.nxt) <==> Off(iss, c.pendingFin.value) == nxt))
  }

  /** Every test and distance the timers and the transmitter use. */
  ghost predicate TimerDecisions(c: Conn, iss: u32) {
    && FlightSize(c) == Off(iss, c.send.nxt) - Off(iss, c.send.una)
    && Off(iss, Sub(c.send.nxt, 1)) == Off(iss, c.send.nxt) - 1
    && (forall n: nat :: n <= |c.sendBuf| ==> NextEnd(c, n, iss))
    && (forall x :: x in c.retx.segs ==> Sub(x.end, x.start) == Off(iss, x.end) - Off(iss, x.start))
    && (c.retx.rackTs > 0 ==> forall x :: x in c.retx.segs ==>
          (Before(x.start, c.retx.rackEnd) <==> Off(iss, x.start) < Off(iss, c.retx.rackEnd)))
    && forall x, y :: x in c.retx.segs && y in c.retx.segs ==> (After(x.start, y.start) <==> Off(iss, x.start) > Off(iss, y.start))
  }

  /** Sending n more bytes advances SND.NXT by n, as an integer. */
  predicate NextEnd(c: Conn, n: nat, iss: u32) {
    Off(iss, Add(c.send.nxt, Low32(n))) == Off(iss, c.send.nxt) + n
  }

  lemma RefreshSend(c: Conn, p: Seg)
    ensures var r := Refresh(c, p); r.send == c.send.(wnd := r.send.wnd, maxWnd := r.send.maxWnd) && r.recv == c.recv
  {
    hide Scaled, After;
  }

  lemma AckDecided(c: Conn, p: Seg, iss: u32)
    requires SenderLive(c, iss) && Live(iss, p.ackno)
    ensures AckDecisions(c, p, iss)
  {
    RefreshSend(c, p);
    BetweenOff(iss, c.send.una, p.ackno, c.send.nxt);
    BeforeOff(iss, p.ackno, c.send.una);
    BeforeOff(iss, p.ackno, c.send.nxt);
    AckAcceptableOnIntegers(Refresh(c, p), iss, p.ackno);
    if Congestion.InRecovery(c.cong) {
      BeforeOff(iss, p.ackno, c.recover);
    }
    hide Before, Between, Sub, Off, AckAcceptable, Refresh;
    forall x | x in c.retx.segs
      ensures Before(p.ackno, x.end) <==> Off(iss, p.ackno) < Off(iss, x.end)
    {
      assert EntryLive(x, iss);
      BeforeOff(iss, p.ackno, x.end);
    }
  }

  lemma SackDecided(c: Conn, p: Seg, iss: u32)
    requires SenderLive(c, iss) && forall b :: b in p.opts.sack ==> Live(iss, b.left) && Live(iss, b.right)
    ensures SackDecisions(c, p, iss)
  {
    hide Off, Retransmit.Covers, Live;
    forall b, x | b in p.opts.sack && x in c.retx.segs
      ensures Retransmit.Covers(b, x) <==> Off(iss, b.left) <= Off(iss, x.start) && Off(iss, x.end) <= Off(iss, b.right)
    {
      assert EntryLive(x, iss);
      CoverageOnIntegers(x, b, iss);
    }
  }

  lemma FinDecided(c: Conn, p: Seg, iss: u32)
    requires Live(iss, c.recv.nxt) && (c.pendingFin.Some? ==> Live(iss, c.pendingFin.value))
    requires Off(iss, p.seqno) + |p.payload| < TWO_31
    ensures FinDecisions(c, p, iss)
  {
    var fin := Add(p.seqno, Low32(|p.payload|));
    AddOff(iss, p.seqno, Low32(|p.payload|));
    BeforeOff(iss, fin, c.recv.nxt);
    if c.pendingFin.Some? {
      BeforeOff(iss, c.pendingFin.value, c.recv.nxt);
    }
    hide Off, Before, After, Add;
  }

  lemma PlaceDecided(c: Conn, p: Seg, iss: u32)
    requires ReceiverLive(c, iss) && c.state != SynSent && Live(iss, p.seqno) && (p.payload != [] ==> 1 <= Off(iss, p.seqno))
    ensures var nxt, place := Off(iss, c.recv.nxt), Off(iss, p.seqno);
            && (p.seqno == c.recv.nxt <==> place == nxt) && (After(p.seqno, c.recv.nxt) <==> place > nxt)
            && (InWindow(c, p.seqno) <==> nxt <= place < nxt + c.recv.wnd)
            && Sub(c.recv.nxt, c.reasm.base) == nxt - 1 && (p.payload != [] ==> Sub(p.seqno, c.reasm.base) == place - 1)
  {
    BeforeOff(iss, p.seqno, c.recv.nxt);
    InWindowOnIntegers(c, iss, p.seqno);
    Receiver.ShiftBase(iss, c.recv.nxt);
    if p.payload != [] {
      Receiver.ShiftBase(iss, p.seqno);
    }
    hide InWindow, After, Before, FragLive;
  }

  lemma TimersDecided(c: Conn, iss: u32)
    requires SenderLive(c, iss)
    ensures TimerDecisions(c, iss)
  {
    OffDistance(iss, c.send.una, c.send.nxt);
    assert Off(iss, Sub(c.send.nxt, 1)) == Off(iss, c.send.nxt) - 1;
    hide Off, Sub, Before, After, Add;
    forall n: nat | n <= |c.sendBuf|
      ensures NextEnd(c, n, iss)
    {
      Receiver.DeliveredOff(iss, c.send.nxt, n);
    }
    forall x | x in c.retx.segs
      ensures Sub(x.end, x.start) == Off(iss, x.end) - Off(iss, x.start)
      ensures c.retx.rackTs > 0 ==> (Before(x.start, c.retx.rackEnd) <==> Off(iss, x.start) < Off(iss, c.retx.rackEnd))
    {
      assert EntryLive(x, iss);
      OffDistance(iss, x.start, x.end);
      if c.retx.rackTs > 0 {
        BeforeOff(iss, x.start, c.retx.rackEnd);
      }
    }
    forall x, y | x in c.retx.segs && y in c.retx.segs
      ensures After(x.start, y.start) <==> Off(iss, x.start) > Off(iss, y.start)
    {
      assert EntryLive(x, iss) && EntryLive(y, iss);
      BeforeOff(iss, x.start, y.start);
    }
  }

  lemma DeliverLive(c: Conn, p: Seg, iss: u32, d: Dir, w: seq<byte>, taken: seq<byte>)
    requires Receives(c, iss, d, w, taken) && c.state != SynSent && Honest(p, iss, d, w)
    ensures var c1 := Deliver(c, p.seqno, p.payload);
            && Live(iss, c1.recv.nxt) && (c1.pendingFin.Some? ==> Live(iss, c1.pendingFin.value))
            && Off(iss, c1.recv.nxt) == Off(iss, c.recv.nxt) + |c1.recvBuf| - |c.recvBuf|
  {
    var c1 := Deliver(c, p.seqno, p.payload);
    var d1 := DeliverStage(c, iss, d, w, taken, p);
    DeliverFrame(c, p.seqno, p.payload);
    hide Deliver, Receives, Honest, Receiver.ReceiverMoved, Live;
    ReceiverLiveOneWay(c1, iss, d1, w, taken);
    PassedOn(c, iss, d, w, taken);
    PassedOn(c1, iss, d1, w, taken);
  }

  /** RCV.NXT counts the SYN, what was passed on and the FIN. */
  lemma PassedOn(c: Conn, iss: u32, d: Dir, w: seq<byte>, taken: seq<byte>)
    requires Receives(c, iss, d, w, taken) && c.state != SynSent
    ensures Off(iss, c.recv.nxt) == 1 + |taken| + |c.recvBuf| + if c.peerFin then 1 else 0
  {
    DeliveredWithin(c, d, w);
    assert |taken + c.recvBuf| == |w[..Direction.Delivered(c, d)]|;
    hide Clean, Off, Cuts;
  }

  lemma DeliveredWithin(c: Conn, d: Dir, w: seq<byte>)
    requires WellCut(d, w) && Progress(c, d)
    ensures 0 <= Direction.Delivered(c, d) <= |w|
  {
    CutOrder(d, w, d.k, DataUnits(d));
    CutOrder(d, w, 1, d.k);
    FirstCut(d, w);
    hide Cuts;
  }

  lemma DataDecided(c: Conn, p: Seg, iss: u32, d: Dir, w: seq<byte>, taken: seq<byte>)
    requires Receives(c, iss, d, w, taken) && c.state != SynSent && Honest(p, iss, d, w)
    ensures DataDecisions(c, p, iss)
  {
    hide Receives, Honest, Deliver, InWindow, After, Live, FinDecisions, ReceiverLive;
    ReceiverLiveOneWay(c, iss, d, w, taken);
    assert WellCut(d, w) by { ReceivesCut(c, iss, d, w, taken); }
    PlaceLive(p, iss, d, w);
    DeliverLive(c, p, iss, d, w, taken);
    PlaceDecided(c, p, iss);
    FinDecided(Deliver(c, p.seqno, p.payload), p, iss);
  }

  /** In every reachable state, and for anything the network may hand over: every decision the segment handler,
      the timers and the transmitter take on sequence numbers is the decision on positions in the two streams,
      whatever the initial numbers and however often the circle has been gone round. */
  lemma DecisionsAreIntegers(s: Sys, p: Seg)
    requires Reached(s) && s.a.conn.Some?
    ensures TimerDecisions(s.a.conn.value, s.aIss)
    ensures Deliverable(s.toA, p) ==>
              var c := s.a.conn.value;
              && (Has(p.flags, ACK) ==> AckDecisions(c, p, s.aIss))
              && SackDecisions(c, p, s.aIss)
              && (c.state != SynSent ==> DataDecisions(c, p, s.bIss))
  {
    hide Reached, InvWith, Sends, Receives, NetOk, WellCut, Honest, Truthful, Deliverable, SenderLive, ReceiverLive,
      TimerDecisions, AckDecisions, SackDecisions, DataDecisions;
    var c := s.a.conn.value;
    AllNumbersLive(s, p);
    TimersDecided(c, s.aIss);
    if Deliverable(s.toA, p) {
      SackDecided(c, p, s.aIss);
      if Has(p.flags, ACK) {
        AckDecided(c, p, s.aIss);
      }
      if c.state != SynSent {
        var ab, ba := Parts(s);
        VariantKeeps(s.toA, p, s.bIss, ba, s.b.written, s.aIss, ab);
        DataDecided(c, p, s.bIss, ba, s.b.written, s.a.taken);
      }
    }
  }

  lemma NextPlace(iss: u32, x: u32)
    requires Live(iss, x)
    ensures Off(iss, Add(x, 1)) == Off(iss, x) + 1
  {
  }

  lemma SenderAt(s: Sys)
    requires Reached(s) && s.a.conn.Some?
    ensures s.a.conn.value.send.iss == s.aIss
  {
    hide Reached;
    var _, _ := Parts(s);
  }
}
