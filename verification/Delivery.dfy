/** Does every byte written arrive in the end? Whatever the receiver waits for is always queued and on a timer,
    so the question is what its arrival does. It is accepted exactly under a condition on the segment, and one
    way to fail it is for good: a retransmission repeats the acknowledgement number of the first transmission,
    and once that lies further below SND.UNA than the largest window ever advertised, it is refused for ever. */
module Delivery {
  import opened Types
  import opened SeqNum
  import opened Segments
  import opened Connection
  import opened Calls
  import opened Lifecycle
  import opened AckField
  import opened Segmentation
  import opened Direction
  import opened Arrival
  import opened System
  import opened EndToEnd
  import opened NewReno
  import opened Wrap
  import opened Placement
  import Sender
  import Receiver
  import Backlog
  import Retransmit
  import Reassembly
  import Congestion
  import Rtt

  // ---- what is missing is queued ----

  lemma GapEntry(c: Conn, d: Dir, w: seq<byte>, k: int) returns (j: nat)
    requires Sends(c, d, w) && 1 <= k < Units(d) && k !in d.got && forall a :: a in d.stops ==> a <= k
    ensures j < |c.retx.segs| && !c.retx.segs[j].sacked && Carries(c.retx.segs[j].packet, c.send.iss, d, w, k)
  {
    assert Oldest(c, d) in d.stops;
    j := k - Oldest(c, d);
    assert Entry(c.retx.segs[j], c.send.iss, d, w, k);
  }

  lemma GapUnit(s: Sys, ab: Dir, ba: Dir)
    requires InvWith(s, ab, ba) && s.a.conn.Some? && Synced(s.b)
    requires Off(s.aIss, s.b.conn.value.recv.nxt) < Off(s.aIss, s.a.conn.value.send.nxt)
    ensures WellCut(ab, s.a.written) && 1 <= ab.k < Units(ab) && ab.k !in ab.got && (forall a :: a in ab.stops ==> a <= ab.k)
    ensures Off(s.aIss, s.b.conn.value.recv.nxt) == ab.cuts[ab.k] && !s.b.conn.value.peerFin
    ensures forall x :: x in s.a.conn.value.retx.segs ==> x.packet in s.toB
  {
    ReceiverOf(s, ab, ba);
    SenderOf(s, ab, ba);
    SendsFacts(s.a.conn.value, ab, s.a.written);
    MissingK(s, ab, ba);
    hide Sends, Receives, NetOk, Off, Cuts;
  }

  lemma MissingK(s: Sys, ab: Dir, ba: Dir)
    requires InvWith(s, ab, ba) && Synced(s.b)
    ensures ab.k !in ab.got && (s.b.conn.value.peerFin ==> ab.k == Units(ab))
  {
    hide Sends, NetOk, Queued, Buffered, Cuts, Off;
  }

  /** In every reachable state, if the receiver has not passed everything that was sent, the very segment that starts
      at its RCV.NXT is queued at the sender, not marked as SACKed, and in the network. */
  lemma MissingIsQueued(s: Sys) returns (j: nat)
    requires Reached(s) && s.a.conn.Some? && Synced(s.b)
    requires Off(s.aIss, s.b.conn.value.recv.nxt) < Off(s.aIss, s.a.conn.value.send.nxt)
    ensures var segs := s.a.conn.value.retx.segs;
            && j < |segs| && !segs[j].sacked && segs[j].packet in s.toB
            && segs[j].packet.seqno == s.b.conn.value.recv.nxt
            && (segs[j].packet.payload != [] || Has(segs[j].packet.flags, FIN))
            && !Has(segs[j].packet.flags, SYN) && !Has(segs[j].packet.flags, RST)
  {
    hide Reached, InvWith, Sends, Carries, Off, Has;
    ReachedInv(s);
    var ab, ba :| InvWith(s, ab, ba);
    GapUnit(s, ab, ba);
    SenderOf(s, ab, ba);
    var c := s.a.conn.value;
    j := GapEntry(c, ab, s.a.written, ab.k);
    UnitFlags(c.retx.segs[j].packet, s.aIss, ab, s.a.written, ab.k);
    OffInjective(s.aIss, c.retx.segs[j].packet.seqno, s.b.conn.value.recv.nxt);
    assert c.retx.segs[j] in c.retx.segs;
  }

  lemma UnitFlags(p: Seg, iss: u32, d: Dir, w: seq<byte>, k: int)
    requires WellCut(d, w) && Carries(p, iss, d, w, k) && 1 <= k
    ensures Off(iss, p.seqno) == d.cuts[k] && (p.payload != [] || Has(p.flags, FIN))
    ensures !Has(p.flags, SYN) && !Has(p.flags, RST) && (Has(p.flags, FIN) ==> p.payload == [])
  {
    if k < DataUnits(d) {
      ContentLength(d, w, k);
      CutOrder(d, w, k, k + 1);
    }
    hide Off, Has, Content, Cuts;
  }

  // ---- what its arrival does ----

  /** The states that take data in. */
  predicate Receiving(c: Conn) {
    c.state == Established || c.state == FinWait1 || c.state == FinWait2
  }

  /** ESTABLISHED applies PAWS and reads the acknowledgement field before the data, and may stop at either;
      FIN_WAIT_1 and FIN_WAIT_2 take the data in whatever it acknowledges. */
  predicate Refuses(c: Conn, p: Seg) {
    c.state == Established && (Paws(c, p) || StopsAtAck(c, p))
  }

  /** What RCV.NXT becomes. */
  lemma OpenMoves(c: Conn, p: Seg, env: Env, now: nat)
    requires c.state == Established && !Has(p.flags, RST) && !Has(p.flags, SYN)
    ensures var r := OnSegment(c, p, env, now).0;
            var d := Deliver(c, p.seqno, p.payload);
            if Refuses(c, p) then r.recv == c.recv && r.recvBuf == c.recvBuf && r.reasm == c.reasm
            else
              && r.recvBuf == d.recvBuf
              && r.recv.nxt == if Backlog.CompletesFin(c, p) then Add(d.recv.nxt, 1) else d.recv.nxt
  {
    hide OnSegment, Arrive, Refresh, OnAckField, OnText, Paws, Has, Backlog.CompletesFin, Deliver, StopsAtAck;
    var c2 := Refresh(Arrive(c, now), p);
    ArrivedFields(c, p, now);
    Backlog.OpenCases(c, p, env, now);
    var r := if Has(p.flags, ACK) then OnAckField(c2, p, Arrive(c, now).send.wnd, env, now) else (c2, None, false);
    Backlog.AckKeepsReceiver(c2, p, Arrive(c, now).send.wnd, env, now);
    AckKeepsBuffer(c2, p, Arrive(c, now).send.wnd, env, now);
    TextMoves(r.0, p);
    SameMoves(c, r.0, p);
  }

  /** What an arrival leaves alone before the acknowledgement field is read. */
  lemma ArrivedFields(c: Conn, p: Seg, now: nat)
    ensures var c2 := Refresh(Arrive(c, now), p);
            && c2.recv == c.recv && c2.reasm == c.reasm && c2.recvBuf == c.recvBuf && c2.state == c.state
            && c2.pendingFin == c.pendingFin && Arrive(c, now).recv == c.recv && Arrive(c, now).recvBuf == c.recvBuf
            && Arrive(c, now).reasm == c.reasm
  {
    hide Scaled, After;
  }

  /** The states after our own FIN read no acknowledgement range. */
  lemma FinWaitMoves(c: Conn, p: Seg, env: Env, now: nat)
    requires (c.state == FinWait1 || c.state == FinWait2) && !Has(p.flags, RST) && !Has(p.flags, SYN)
    ensures var r := OnSegment(c, p, env, now).0;
            var d := Deliver(c, p.seqno, p.payload);
            && r.recvBuf == d.recvBuf
            && r.recv.nxt == if Has(p.flags, FIN) && Add(p.seqno, Low32(|p.payload|)) == d.recv.nxt
                             then Add(d.recv.nxt, 1) else d.recv.nxt
  {
    hide OnSegment, Deliver, Backlog.WithData, Has, BareAck, Add, Low32, Backlog.FinHeard;
    Backlog.FinWaitCases(c, p, env, now);
  }

  lemma AckKeepsBuffer(c: Conn, s: Seg, prevWnd: u32, env: Env, now: nat)
    ensures OnAckField(c, s, prevWnd, env, now).0.recvBuf == c.recvBuf
  {
    if AckAcceptable(c, s.ackno) {
      AckFieldUnfold(c, s, prevWnd, env, now);
      var m := Marked(c, s);
      assert m.recvBuf == c.recvBuf by { hide Retransmit.MarkSacked; }
      NewAckBuffer(m, s, env, now);
      assert OnDuplicateAck(m, now).0.recvBuf == m.recvBuf by { hide Retransmit.FastRetransmit, Congestion.OnDupAck; }
      hide OnAckField, OnNewAck, OnDuplicateAck, Marked, AckAcceptable, Between;
    } else {
      hide AckAcceptable, BareAck, OnNewAck, OnDuplicateAck;
    }
  }

  lemma NewAckBuffer(c: Conn, s: Seg, env: Env, now: nat)
    ensures OnNewAck(c, s, env, now).0.recvBuf == c.recvBuf
  {
    hide AckSample, Retransmit.Ack, Rtt.Sample, Retransmit.FastRetransmit, Before, Congestion.OnPartialAck,
      Congestion.OnAck;
  }

  lemma TextMoves(c: Conn, p: Seg)
    requires c.state == Established
    ensures var r, d := OnText(c, p).0, Deliver(c, p.seqno, p.payload);
            && r.recvBuf == d.recvBuf
            && r.recv.nxt == if Backlog.CompletesFin(c, p) then Add(d.recv.nxt, 1) else d.recv.nxt
  {
    var d := Deliver(c, p.seqno, p.payload);
    assert d.state == c.state && d.pendingFin == c.pendingFin by {
      hide Reassembly.Recv;
    }
    hide Deliver, Add, Low32, Before, After, Has, BareAck, AckOptions;
  }

  lemma SameMoves(c: Conn, c': Conn, p: Seg)
    requires c'.recv == c.recv && c'.reasm == c.reasm && c'.pendingFin == c.pendingFin && c'.recvBuf == c.recvBuf
    ensures Backlog.CompletesFin(c', p) == Backlog.CompletesFin(c, p)
    ensures var d, d' := Deliver(c, p.seqno, p.payload), Deliver(c', p.seqno, p.payload);
            d'.recv == d.recv && d'.recvBuf == d.recvBuf
  {
    hide Reassembly.Recv, Add, Low32, Before, Has;
  }

  /** Data that starts at RCV.NXT is delivered at once, with whatever follows it. */
  lemma GapDelivers(c: Conn, payload: seq<byte>)
    requires payload != []
    ensures |Deliver(c, c.recv.nxt, payload).recvBuf| >= |c.recvBuf| + |payload|
  {
    RecvAhead(c.reasm, c.recv.nxt, payload, c.recv.nxt);
    hide Add, Low32, Off, Reassembly.Recv;
  }

  /** In every reachable state: the segment the receiver waits for, arriving, moves RCV.NXT on past all of it if
      and only if neither PAWS nor the acknowledgement field turns it away. */
  lemma MissingArrives(s: Sys, p: Seg, env: Env, now: nat)
    requires Reached(s) && s.a.conn.Some? && Receiving(s.a.conn.value) && Deliverable(s.toA, p)
    requires p.seqno == s.a.conn.value.recv.nxt && (p.payload != [] || Has(p.flags, FIN)) && !Has(p.flags, SYN)
    ensures var r := OnSegment(s.a.conn.value, p, env, now).0;
            if Refuses(s.a.conn.value, p) then r.recv.nxt == s.a.conn.value.recv.nxt
            else
              && Off(s.bIss, r.recv.nxt) >= Off(s.bIss, s.a.conn.value.recv.nxt) + Max(|p.payload|, 1)
              && |r.recvBuf| >= |s.a.conn.value.recvBuf| + |p.payload|
  {
    hide Reached, InvWith, Sends, Receives, NetOk, WellCut, Honest, Truthful, Deliverable, Refuses, OnSegment;
    var c := s.a.conn.value;
    var ab, ba := Parts(s);
    VariantKeeps(s.toA, p, s.bIss, ba, s.b.written, s.aIss, ab);
    HonestNeverResets(p, s.bIss, ba, s.b.written);
    if c.state == Established {
      OpenMoves(c, p, env, now);
    } else {
      FinWaitMoves(c, p, env, now);
      NeverRefused(c, p);
    }
    DeliverLive(c, p, s.bIss, ba, s.b.written, s.a.taken);
    hide Has, Off, Backlog.CompletesFin;
    var d := Deliver(c, p.seqno, p.payload);
    NextPlace(s.bIss, d.recv.nxt);
    if p.payload != [] {
      GapDelivers(c, p.payload);
    } else {
      FinAtGap(c, p);
    }
  }

  lemma NeverRefused(c: Conn, p: Seg)
    requires c.state != Established
    ensures !Refuses(c, p)
  {
  }

  lemma FinAtGap(c: Conn, p: Seg)
    requires p.payload == [] && Has(p.flags, FIN) && p.seqno == c.recv.nxt
    ensures Backlog.CompletesFin(c, p) && Deliver(c, p.seqno, p.payload) == c
    ensures Add(p.seqno, Low32(|p.payload|)) == c.recv.nxt
  {
    hide Has;
  }

  // ---- the acknowledgement field of a retransmission ----

  /** p acknowledges less than SND.UNA by more than `most`, the largest window advertised so far or to come. */
  predicate Stale(p: Seg, c: Conn, most: Wnd) {
    && Has(p.flags, ACK) && c.send.maxWnd <= most
    && Off(c.send.iss, p.ackno) + most < Off(c.send.iss, c.send.una)
  }

  /** Data that acknowledges nothing new is refused for its acknowledgement field exactly when that lies further
      below SND.UNA than the largest window advertised so far, its own included. */
  lemma OldAckRefused(c: Conn, p: Seg)
    requires Live(c.send.iss, c.send.una) && Live(c.send.iss, c.send.nxt) && p.payload != [] && Has(p.flags, ACK)
    requires Off(c.send.iss, p.ackno) <= Off(c.send.iss, c.send.una) <= Off(c.send.iss, c.send.nxt)
    ensures var most := Max(c.send.maxWnd, Scaled(p.window, c.opt.sndWscale));
            StopsAtAck(c, p) <==> Off(c.send.iss, p.ackno) + most < Off(c.send.iss, c.send.una)
  {
    var c1 := Refresh(c, p);
    assert c1.send == c.send.(wnd := c1.send.wnd, maxWnd := Max(c.send.maxWnd, Scaled(p.window, c.opt.sndWscale))) by {
      hide Scaled, After;
    }
    hide Refresh, Scaled;
    AckAcceptableOnIntegers(c1, c.send.iss, p.ackno);
    BetweenOff(c.send.iss, c.send.una, p.ackno, c.send.nxt);
    assert !Between(c1.send.una, p.ackno, c1.send.nxt);
    hide AckAcceptable, Between, Off, Has, SomeHole, HoleBeyond, ThirdDuplicate, Congestion.InRecovery;
  }

  /** So, in every reachable state, missing data that acknowledges nothing new is taken in if and only if PAWS lets it
      pass and it acknowledges at least SND.UNA less the largest window advertised so far. */
  lemma OldMissingArrives(s: Sys, p: Seg, env: Env, now: nat)
    requires Reached(s) && s.a.conn.Some? && s.a.conn.value.state == Established && Deliverable(s.toA, p)
    requires p.seqno == s.a.conn.value.recv.nxt && p.payload != [] && !Has(p.flags, SYN) && Has(p.flags, ACK)
    requires Off(s.aIss, p.ackno) <= Off(s.aIss, s.a.conn.value.send.una)
    ensures var c := s.a.conn.value;
            Off(s.bIss, OnSegment(c, p, env, now).0.recv.nxt) > Off(s.bIss, c.recv.nxt) <==>
            && !Paws(c, p)
            && Off(s.aIss, c.send.una) <= Off(s.aIss, p.ackno) + Max(c.send.maxWnd, Scaled(p.window, c.opt.sndWscale))
  {
    var c := s.a.conn.value;
    MissingArrives(s, p, env, now);
    LiveParts(s, p);
    SenderAt(s);
    hide Reached, OnSegment, Deliverable, Off, Has, Scaled, Paws, StopsAtAck, Live;
    OldAckRefused(c, p);
  }

  lemma StaleRefused(c: Conn, p: Seg, most: Wnd)
    requires c.state == Established && Stale(p, c, most) && Scaled(p.window, c.opt.sndWscale) <= most && p.payload != []
    requires Live(c.send.iss, c.send.una) && Live(c.send.iss, c.send.nxt)
    requires Off(c.send.iss, c.send.una) <= Off(c.send.iss, c.send.nxt)
    ensures Refuses(c, p)
  {
    hide Off, Has, Scaled, Paws, StopsAtAck;
    OldAckRefused(c, p);
  }

  // ---- staleness is for good ----

  /** What a call may do to SND.UNA, SND.NXT and the window books of a connection past its handshake. */
  predicate Onward(c: Conn, c': Conn, most: Wnd) {
    && c'.send.iss == c.send.iss && c'.opt.sndWscale == c.opt.sndWscale && c'.send.maxWnd <= most
    && Off(c.send.iss, c'.send.una) >= Off(c.send.iss, c.send.una)
  }

  lemma OnwardStale(p: Seg, c: Conn, c': Conn, most: Wnd)
    requires Stale(p, c, most) && Onward(c, c', most)
    ensures Stale(p, c', most)
  {
    hide Off, Has;
  }

  /** The acknowledgement field never moves SND.UNA back. */
  lemma AckFieldOnward(c: Conn, s: Seg, prevWnd: u32, env: Env, now: nat)
    requires Live(c.send.iss, c.send.una) && Live(c.send.iss, c.send.nxt) && Live(c.send.iss, s.ackno)
    ensures var r := OnAckField(c, s, prevWnd, env, now).0;
            && r.send.iss == c.send.iss && r.opt == c.opt && r.send.maxWnd == c.send.maxWnd
            && Off(c.send.iss, r.send.una) >= Off(c.send.iss, c.send.una)
  {
    BetweenOff(c.send.iss, c.send.una, s.ackno, c.send.nxt);
    if AckAcceptable(c, s.ackno) {
      AckFieldUnfold(c, s, prevWnd, env, now);
      MarkedKeeps(c, s);
      var m := Marked(c, s);
      assert m.opt == c.opt by { hide Retransmit.MarkSacked; }
      NewAckUna(m, s, env, now);
      assert OnDuplicateAck(m, now).0.send == m.send && OnDuplicateAck(m, now).0.opt == m.opt by {
        hide Retransmit.FastRetransmit, Congestion.OnDupAck;
      }
      hide OnAckField, OnNewAck, OnDuplicateAck, Marked, AckAcceptable, Between, Off;
    } else {
      hide AckAcceptable, BareAck, OnNewAck, OnDuplicateAck, Off;
    }
  }

  lemma NewAckUna(c: Conn, s: Seg, env: Env, now: nat)
    ensures var r := OnNewAck(c, s, env, now).0;
            r.send == c.send.(una := s.ackno) && r.opt == c.opt
  {
    hide AckSample, Retransmit.Ack, Rtt.Sample, Retransmit.FastRetransmit, Before, Congestion.OnPartialAck,
      Congestion.OnAck;
  }

  /** Nothing a connection past its handshake hears moves SND.UNA back or the window books past `most`. */
  lemma HeardOnward(c: Conn, p: Seg, most: Wnd, env: Env, now: nat)
    requires c.state == Established && Live(c.send.iss, c.send.una) && Live(c.send.iss, c.send.nxt)
    requires (Has(p.flags, ACK) ==> Live(c.send.iss, p.ackno)) && !Has(p.flags, RST)
    requires c.send.maxWnd <= most && Scaled(p.window, c.opt.sndWscale) <= most
    ensures Onward(c, OnSegment(c, p, env, now).0, most)
  {
    var c1 := Arrive(c, now);
    assert c1.send == c.send && c1.opt.sndWscale == c.opt.sndWscale && c1.state == c.state;
    hide Arrive;
    var c2 := Refresh(c1, p);
    assert c2.send == c1.send.(wnd := c2.send.wnd, maxWnd := c2.send.maxWnd) && c2.send.maxWnd <= most
           && c2.opt.sndWscale == c1.opt.sndWscale by {
      hide Scaled, After;
    }
    hide Refresh, OnText, Paws, Has, BareAck, OnRst, OnAckField, Live, Off;
    ChallengeUna(c1, env, now);
    TextUna(c2, p);
    if Has(p.flags, ACK) {
      AckFieldOnward(c2, p, c1.send.wnd, env, now);
      TextUna(OnAckField(c2, p, c1.send.wnd, env, now).0, p);
    }
    hide MaybeChallenge;
  }

  lemma ChallengeUna(c: Conn, env: Env, now: nat)
    ensures MaybeChallenge(c, env, now).0.send == c.send && MaybeChallenge(c, env, now).0.opt == c.opt
  {
    hide BareAck;
  }

  lemma TextUna(c: Conn, p: Seg)
    ensures OnText(c, p).0.send == c.send && OnText(c, p).0.opt == c.opt
  {
    hide Reassembly.Recv, Add, Before, After, Has, BareAck, AckOptions;
  }

  // ---- stranded ----

  /** No other data with X's number is under way. */
  ghost predicate OnlyX(net: set<Seg>, x: Seg) {
    forall q :: q in net && q.seqno == x.seqno && q.payload != [] ==> q == x
  }

  /** A waits for the data segment x, which B has sent once, and which acknowledges too little by now. */
  ghost predicate Stuck(s: Sys, x: Seg, most: Wnd, shift: Shift, had: seq<byte>) {
    && Reached(s) && s.a.conn.Some? && s.b.conn.Some? && x.payload != [] && x in s.toA && OnlyX(s.toA, x)
    && Off(s.bIss, x.seqno) < Off(s.bIss, s.b.conn.value.send.nxt)
    && Waits(s.a.conn.value, x, most, shift) && EndToEnd.Delivered(s.a) == had
  }

  predicate Waits(c: Conn, x: Seg, most: Wnd, shift: Shift) {
    && (c.state == Established || c.state == Closed) && c.recv.nxt == x.seqno
    && Stale(x, c, most) && c.opt.sndWscale == shift
  }

  /** A does not close, and hears of no window larger than `most`. B may do anything. */
  predicate Ordinary(act: Action, most: Wnd, shift: Shift) {
    act.AtA? ==> !act.event.CloseEvent? && (act.event.ReceiveEvent? ==> Scaled(act.event.p.window, shift) <= most)
  }

  lemma BStuck(s: Sys, e: Event, x: Seg, most: Wnd, shift: Shift, had: seq<byte>)
    requires Stuck(s, x, most, shift, had)
    ensures Stuck(Flip(StepA(Flip(s), e)), x, most, shift, had)
  {
    hide Reached, Waits, Local, EndToEnd.Delivered, Off, Placed;
    ReachedStepB(s, e);
    FlipReached(s);
    EventPlace(Flip(s), e);
    var r := Local(s.b, s.bIss, s.toB, e);
    BQueued(s);
    forall q | q in r.1 && q.seqno == x.seqno && q.payload != []
      ensures q in s.toA
    {
      PlacedAt(s.b.conn.value, r.1, q, StampOf(e));
      AtInvariantIss(s);
      if Retransmit.PacketIn(s.b.conn.value.retx.segs, q) {
        var i :| 0 <= i < |s.b.conn.value.retx.segs| && s.b.conn.value.retx.segs[i].packet == q;
        assert s.b.conn.value.retx.segs[i] in s.b.conn.value.retx.segs;
      }
    }
    AtInvariantIss(s);
  }

  lemma AtInvariantIss(s: Sys)
    requires Reached(s) && s.b.conn.Some?
    ensures s.b.conn.value.send.iss == s.bIss
  {
    FlipReached(s);
    hide Reached;
    var _, _ := Parts(Flip(s));
  }

  lemma BQueued(s: Sys)
    requires Reached(s) && s.b.conn.Some?
    ensures forall y :: y in s.b.conn.value.retx.segs ==> y.packet in s.toA
  {
    hide Reached, PeerOk, NetOk;
    ReachedInv(s);
  }

  lemma AStuck(s: Sys, e: Event, x: Seg, most: Wnd, shift: Shift, had: seq<byte>)
    requires Stuck(s, x, most, shift, had) && Ordinary(AtA(e), most, shift)
    ensures Stuck(StepA(s, e), x, most, shift, had)
  {
    hide Reached, Waits, Off, Apply, Take, Scaled, Deliverable;
    ReachedStepA(s, e);
    var c := s.a.conn.value;
    if e.ReceiveEvent? {
      if Deliverable(s.toA, e.p) {
        ApplyHeard(c, e);
        HeardStuck(s, e.p, e.env, e.now, x, most, shift);
      }
    } else {
      CallWaits(c, e, x, most, shift);
      if e.TakeEvent? {
        assert (s.a.taken + Take(c).1) + Apply(c, e).0.recvBuf == s.a.taken + (Take(c).1 + Apply(c, e).0.recvBuf);
      }
    }
    hide OnlyX;
  }

  /** A call other than closing leaves what A waits for, and what it has been given. */
  lemma CallWaits(c: Conn, e: Event, x: Seg, most: Wnd, shift: Shift)
    requires Waits(c, x, most, shift) && !e.ReceiveEvent? && !e.CloseEvent?
    ensures var c' := Apply(c, e).0;
            && Waits(c', x, most, shift)
            && (if e.TakeEvent? then Take(c).1 + c'.recvBuf == c.recvBuf else c'.recvBuf == c.recvBuf)
  {
    hide Off, OnTick, PollTransmit, OnSegment, Close, Has;
    match e {
      case PollEvent(now) =>
        PollFrame(c, now);
      case TickEvent(now) =>
        TickFrame(c, now);
        TickState(c, now);
      case _ =>
    }
  }

  lemma HeardStuck(s: Sys, p: Seg, env: Env, now: nat, x: Seg, most: Wnd, shift: Shift)
    requires Reached(s) && s.a.conn.Some? && Deliverable(s.toA, p) && x.payload != [] && x in s.toA && OnlyX(s.toA, x)
    requires Waits(s.a.conn.value, x, most, shift) && Scaled(p.window, shift) <= most
    ensures var c' := OnSegment(s.a.conn.value, p, env, now).0;
            Waits(c', x, most, shift) && c'.recvBuf == s.a.conn.value.recvBuf
  {
    var c := s.a.conn.value;
    NotReset(s, p);
    if c.state == Closed {
      ClosedDeaf(c, p, env, now);
      hide Has, OnSegment, Off, Reached, Deliverable, OnlyX;
    } else {
      AllNumbersLive(s, p);
      SenderAt(s);
      hide Reached, SenderLive, ReceiverLive, SegmentLive, Deliverable, Off, OnSegment, Has, Scaled, Stale;
      HeardNothing(s, p, env, now, x, most, shift);
      LiveParts(s, p);
      HeardOnward(c, p, most, env, now);
      OnwardStale(x, c, OnSegment(c, p, env, now).0, most);
      hide OnlyX;
    }
  }

  lemma NotReset(s: Sys, p: Seg)
    requires Reached(s) && s.a.conn.Some? && Deliverable(s.toA, p)
    ensures !Has(p.flags, RST)
  {
    hide Reached, InvWith, Sends, Receives, NetOk, WellCut, Honest, Truthful, Deliverable, Has;
    var ab, ba := Parts(s);
    VariantKeeps(s.toA, p, s.bIss, ba, s.b.written, s.aIss, ab);
    HonestNeverResets(p, s.bIss, ba, s.b.written);
  }

  lemma LiveParts(s: Sys, p: Seg)
    requires Reached(s) && s.a.conn.Some? && Deliverable(s.toA, p)
    ensures var c := s.a.conn.value;
            && Live(c.send.iss, c.send.una) && Live(c.send.iss, c.send.nxt)
            && Off(c.send.iss, c.send.una) <= Off(c.send.iss, c.send.nxt)
            && (Has(p.flags, ACK) ==> Live(c.send.iss, p.ackno))
  {
    AllNumbersLive(s, p);
    SenderAt(s);
    hide Reached, Off, Has, Deliverable;
  }

  lemma ClosedDeaf(c: Conn, p: Seg, env: Env, now: nat)
    requires c.state == Closed && !Has(p.flags, RST)
    ensures var r := OnSegment(c, p, env, now).0;
            r.state == Closed && r.recv == c.recv && r.send == c.send && r.recvBuf == c.recvBuf
            && r.opt.sndWscale == c.opt.sndWscale
  {
    hide Has;
  }

  /** Whatever an established A hears but X leaves the gap, and X itself is refused. */
  lemma HeardNothing(s: Sys, p: Seg, env: Env, now: nat, x: Seg, most: Wnd, shift: Shift)
    requires Reached(s) && s.a.conn.Some? && Deliverable(s.toA, p) && x.payload != [] && x in s.toA && OnlyX(s.toA, x)
    requires Waits(s.a.conn.value, x, most, shift) && s.a.conn.value.state == Established
    requires Scaled(p.window, shift) <= most && !Has(p.flags, RST)
    ensures var r := OnSegment(s.a.conn.value, p, env, now).0;
            r.state == Established && r.recv.nxt == x.seqno && r.recvBuf == s.a.conn.value.recvBuf
  {
    var c := s.a.conn.value;
    hide Reached, Deliverable, Off, Has, Scaled, OnSegment, OnlyX, Refuses, Stale;
    StaysEstablished(c, p, env, now);
    if Has(p.flags, SYN) {
      SynIgnored(c, p, env, now);
    } else {
      OpenMoves(c, p, env, now);
      if !Refuses(c, p) {
        GapStays(s, p, x, most, shift);
      }
    }
  }

  lemma SynIgnored(c: Conn, p: Seg, env: Env, now: nat)
    requires c.state == Established && Has(p.flags, SYN) && !Has(p.flags, RST)
    ensures var r := OnSegment(c, p, env, now).0;
            r.recv == c.recv && r.recvBuf == c.recvBuf && r.state == Established
  {
    hide Has, BareAck;
  }

  /** Only the FIN takes an established connection out of that state here. */
  lemma StaysEstablished(c: Conn, p: Seg, env: Env, now: nat)
    requires c.state == Established && !Has(p.flags, RST)
    ensures Refuses(c, p) || Has(p.flags, SYN) || !Backlog.CompletesFin(c, p) ==>
              OnSegment(c, p, env, now).0.state == Established
  {
    Backlog.EstablishedAfterSegment(c, p, env, now);
    var c1 := Arrive(c, now);
    SameMoves(c, c1, p);
    assert Paws(c1, p) == Paws(c, p);
    hide OnSegment, Arrive, Has, StopsAtAck, Backlog.CompletesFin, Paws, Establish;
  }

  /** An accepted segment is not the missing one, so it fills no gap. */
  lemma GapStays(s: Sys, p: Seg, x: Seg, most: Wnd, shift: Shift)
    requires Reached(s) && s.a.conn.Some? && Deliverable(s.toA, p) && x.payload != [] && x in s.toA && OnlyX(s.toA, x)
    requires Waits(s.a.conn.value, x, most, shift) && s.a.conn.value.state == Established
    requires Scaled(p.window, shift) <= most && !Refuses(s.a.conn.value, p)
    ensures var c := s.a.conn.value;
            var d := Deliver(c, p.seqno, p.payload);
            d.recv.nxt == c.recv.nxt && d.recvBuf == c.recvBuf && !Backlog.CompletesFin(c, p)
  {
    var c := s.a.conn.value;
    hide Reached, InvWith, Sends, Receives, NetOk, WellCut, Honest, Truthful, Deliverable, Off, Has, Scaled, Refuses;
    NotTheGap(s, p, x, most, shift);
    var ab, ba := Parts(s);
    VariantKeeps(s.toA, p, s.bIss, ba, s.b.written, s.aIss, ab);
    Handed(s.toA, x, x);
    VariantKeeps(s.toA, x, s.bIss, ba, s.b.written, s.aIss, ab);
    NothingDelivered(c, p, x, s.bIss, ba, s.b.written, s.a.taken);
    hide Deliver, Backlog.CompletesFin, OnlyX, Waits;
  }

  lemma NotTheGap(s: Sys, p: Seg, x: Seg, most: Wnd, shift: Shift)
    requires Reached(s) && s.a.conn.Some? && Deliverable(s.toA, p) && OnlyX(s.toA, x)
    requires Waits(s.a.conn.value, x, most, shift) && s.a.conn.value.state == Established
    requires Scaled(p.window, shift) <= most && !Refuses(s.a.conn.value, p)
    ensures p.payload == [] || p.seqno != x.seqno
  {
    var c := s.a.conn.value;
    if p.payload != [] && p.seqno == x.seqno {
      var q :| q in s.toA && Variant(p, q);
      assert q == x;
      LiveParts(s, p);
      assert Stale(p, c, most);
      hide Reached, Deliverable, Off, Has, Scaled, Refuses, OnlyX, Stale, Live;
      StaleRefused(c, p, most);
      assert false;
    }
  }

  /** A segment that is not the missing unit, at a receiver that misses a data unit. */
  lemma NothingDelivered(c: Conn, p: Seg, x: Seg, iss: u32, d: Dir, w: seq<byte>, taken: seq<byte>)
    requires Receives(c, iss, d, w, taken) && c.state == Established
    requires Honest(p, iss, d, w) && Honest(x, iss, d, w)
    requires x.seqno == c.recv.nxt && x.payload != [] && (p.payload == [] || p.seqno != x.seqno)
    ensures var e := Deliver(c, p.seqno, p.payload);
            e.recv.nxt == c.recv.nxt && e.recvBuf == c.recvBuf && !Backlog.CompletesFin(c, p)
  {
    hide Receives, Honest, Off, Has, Deliver;
    MissesData(c, x, iss, d, w, taken);
    if p.payload == [] {
      DeliverEmpty(c, p);
    } else {
      FillsElsewhere(c, p, x, iss, d, w, taken);
    }
    FinElsewhere(c, p, iss, d, w, taken);
  }

  lemma DeliverEmpty(c: Conn, p: Seg)
    requires p.payload == []
    ensures Deliver(c, p.seqno, p.payload) == c
  {
  }

  lemma MissesData(c: Conn, x: Seg, iss: u32, d: Dir, w: seq<byte>, taken: seq<byte>)
    requires Receives(c, iss, d, w, taken) && c.state == Established && Honest(x, iss, d, w)
    requires x.seqno == c.recv.nxt && x.payload != []
    ensures WellCut(d, w) && 0 < d.k < DataUnits(d) && Off(iss, c.recv.nxt) == d.cuts[d.k] && !c.peerFin
  {
    assert WellCut(d, w);
    var i :| Carries(x, iss, d, w, i);
    CutOrder(d, w, i, d.k);
    CutOrder(d, w, d.k, i);
    hide Clean, Cuts, Has, Content, Off;
  }

  lemma FillsElsewhere(c: Conn, p: Seg, x: Seg, iss: u32, d: Dir, w: seq<byte>, taken: seq<byte>)
    requires Receives(c, iss, d, w, taken) && c.state == Established && Honest(p, iss, d, w)
    requires WellCut(d, w) && 0 < d.k < DataUnits(d) && Off(iss, c.recv.nxt) == d.cuts[d.k]
    requires p.payload != [] && p.seqno != c.recv.nxt
    ensures var e := Deliver(c, p.seqno, p.payload);
            e.recv.nxt == c.recv.nxt && e.recvBuf == c.recvBuf
  {
    var i :| Carries(p, iss, d, w, i);
    DataUnitOf(p, iss, d, w, i);
    if i == d.k {
      OffInjective(iss, p.seqno, c.recv.nxt);
      assert false;
    } else {
      CutOrder(d, w, i, d.k);
      CutOrder(d, w, i + 1, d.k);
      CutOrder(d, w, d.k, i);
      CutOrder(d, w, 1, d.k);
      FirstCut(d, w);
      CutOrder(d, w, 1, i);
      Receiver.ShiftBase(iss, p.seqno);
      Receiver.ShiftBase(iss, c.recv.nxt);
      BaseOf(c, iss, d, w, taken);
      hide Receives, Honest, Carries, Off, WellCut, Content;
      RecvElsewhere(c.reasm, p.seqno, p.payload, c.recv.nxt);
      DeliveredNone(c, p);
    }
  }

  lemma DataUnitOf(p: Seg, iss: u32, d: Dir, w: seq<byte>, i: int)
    requires WellCut(d, w) && Carries(p, iss, d, w, i) && p.payload != []
    ensures 0 < i < DataUnits(d) && Off(iss, p.seqno) == d.cuts[i] && |p.payload| == d.cuts[i + 1] - d.cuts[i]
  {
    if 0 < i < DataUnits(d) {
      ContentLength(d, w, i);
    }
    hide Off, Has, Content, Cuts;
  }

  lemma BaseOf(c: Conn, iss: u32, d: Dir, w: seq<byte>, taken: seq<byte>)
    requires Receives(c, iss, d, w, taken) && c.state == Established
    ensures c.reasm.base == Add(iss, 1) && 1 <= d.k < |d.cuts| && d.cuts[d.k] - 1 !in c.reasm.frags
  {
    assert Clean(c.reasm, d.cuts, w, d.got, d.k);
    hide Cuts, Holds, Off;
    GapEmpty(c.reasm.frags, d.cuts, w, d.got, d.k);
  }

  lemma RecvElsewhere(r: Reassembly.Reasm, seqno: u32, data: seq<byte>, rcvNxt: u32)
    requires data != [] && Off(r.base, rcvNxt) !in r.frags
    requires Off(r.base, seqno) + |data| <= Off(r.base, rcvNxt) || Off(r.base, rcvNxt) < Off(r.base, seqno)
    ensures Reassembly.Recv(r, seqno, data, rcvNxt).1 == []
  {
    if Off(r.base, seqno) + |data| <= Off(r.base, rcvNxt) {
      RecvBehind(r, seqno, data, rcvNxt);
    } else {
      RecvAhead(r, seqno, data, rcvNxt);
      assert Reassembly.Drain(r.frags[Off(r.base, seqno) := data], Off(r.base, rcvNxt)).1 == [];
    }
    hide Off, Reassembly.Recv;
  }

  lemma DeliveredNone(c: Conn, p: Seg)
    requires Reassembly.Recv(c.reasm, p.seqno, p.payload, c.recv.nxt).1 == []
    ensures var e := Deliver(c, p.seqno, p.payload);
            e.recv.nxt == c.recv.nxt && e.recvBuf == c.recvBuf
  {
    hide Reassembly.Recv;
    assert c.recvBuf + [] == c.recvBuf;
    assert Add(c.recv.nxt, 0) == c.recv.nxt;
  }

  lemma FinElsewhere(c: Conn, p: Seg, iss: u32, d: Dir, w: seq<byte>, taken: seq<byte>)
    requires Receives(c, iss, d, w, taken) && c.state == Established && Honest(p, iss, d, w)
    requires WellCut(d, w) && 0 < d.k < DataUnits(d) && Off(iss, c.recv.nxt) == d.cuts[d.k]
    requires Deliver(c, p.seqno, p.payload).recv.nxt == c.recv.nxt
    ensures !Backlog.CompletesFin(c, p)
  {
    CutOrder(d, w, d.k, DataUnits(d));
    assert c.pendingFin.Some? ==> Off(iss, c.pendingFin.value) == d.cuts[DataUnits(d)];
    if Has(p.flags, FIN) {
      Receiver.FinPosition(p, iss, d, w);
    }
    hide Receives, Honest, Off, Has, Deliver, WellCut, Before;
  }

  /** Every action of a run is an ordinary one. */
  ghost predicate AllOrdinary(acts: seq<Action>, most: Wnd, shift: Shift) {
    forall i :: 0 <= i < |acts| ==> Ordinary(acts[i], most, shift)
  }

  /** A stuck connection is stuck for good. Whatever happens at either end and in the network (B may write, poll,
      retransmit and close, timers may run), as long as A does not close and is offered no window above `most`,
      A's application is never given another byte, although B's are queued, resent and delivered to A. */
  lemma {:induction false} StrandedForever(s: Sys, acts: seq<Action>, x: Seg, most: Wnd, shift: Shift, had: seq<byte>)
    requires Stuck(s, x, most, shift, had) && AllOrdinary(acts, most, shift)
    ensures Stuck(Run(s, acts), x, most, shift, had)
  {
    if acts != [] {
      var n := |acts| - 1;
      assert AllOrdinary(acts[..n], most, shift);
      assert Ordinary(acts[n], most, shift);
      hide Stuck, Ordinary, StepA, AllOrdinary;
      StrandedForever(s, acts[..n], x, most, shift, had);
      match acts[n] {
        case AtA(e) => AStuck(Run(s, acts[..n]), e, x, most, shift, had);
        case AtB(e) => BStuck(Run(s, acts[..n]), e, x, most, shift, had);
      }
    }
  }

  // ---- when a missing segment can still arrive ----

  /** A waits for the data segment x, which acknowledges nothing new and is the only one with its number. */
  ghost predicate Missing(s: Sys, x: Seg) {
    && Reached(s) && s.a.conn.Some? && s.b.conn.Some? && s.a.conn.value.state == Established
    && x in s.toA && x.payload != [] && OnlyX(s.toA, x) && x.seqno == s.a.conn.value.recv.nxt
    && Has(x.flags, ACK) && Off(s.aIss, x.ackno) <= Off(s.aIss, s.a.conn.value.send.una)
  }

  /** Some run of ordinary actions gives A's application another byte. */
  ghost predicate CanDeliver(s: Sys, most: Wnd, shift: Shift) {
    exists acts :: AllOrdinary(acts, most, shift) && MoreDelivered(s, acts)
  }

  predicate MoreDelivered(s: Sys, acts: seq<Action>) {
    |EndToEnd.Delivered(Run(s, acts).a)| > |EndToEnd.Delivered(s.a)|
  }

  /** The segment with a shut window and no timestamp, as the network may hand it over. */
  function Plain(x: Seg): Seg {
    x.(window := 0, opts := x.opts.(ts := None))
  }

  lemma PlainDeliverable(s: Sys, x: Seg)
    requires x in s.toA
    ensures Deliverable(s.toA, Plain(x))
  {
    Handed(s.toA, Plain(x), x);
  }

  lemma PlainUnscaled(shift: Shift)
    ensures Scaled(0, shift) == 0
  {
  }

  lemma MissingBelow(s: Sys, x: Seg)
    requires Missing(s, x)
    ensures Off(s.bIss, x.seqno) < Off(s.bIss, s.b.conn.value.send.nxt) && !Has(x.flags, SYN)
  {
    hide Reached, InvWith, Sends, Receives, NetOk, WellCut, Honest, Truthful, Deliverable, OnlyX, Off, Has;
    FlipReached(s);
    var ba, ab := Parts(Flip(s));
    Handed(s.toA, x, x);
    var ab', ba' := Parts(s);
    FromB(s, ab, ba, x);
    DataBelow(x, s.bIss, ba, s.b.written);
    SendsFacts(s.b.conn.value, ba, s.b.written);
  }

  lemma FromB(s: Sys, ab: Dir, ba: Dir, x: Seg)
    requires InvWith(Flip(s), ba, ab) && x in s.toA && WellCut(ba, s.b.written)
    ensures Honest(x, s.bIss, ba, s.b.written)
  {
    hide PeerOk, Honest, Truthful, WellCut, Queued;
  }

  lemma DataBelow(x: Seg, iss: u32, d: Dir, w: seq<byte>)
    requires WellCut(d, w) && Honest(x, iss, d, w) && x.payload != []
    ensures Off(iss, x.seqno) < d.cuts[Units(d)] && !Has(x.flags, SYN)
  {
    var i :| Carries(x, iss, d, w, i);
    CutOrder(d, w, i, Units(d));
    hide Off, Has, Content, Cuts;
  }

  lemma StrandedIfStale(s: Sys, x: Seg)
    requires Missing(s, x)
    requires var c := s.a.conn.value; Off(s.aIss, x.ackno) + c.send.maxWnd < Off(s.aIss, c.send.una)
    ensures !CanDeliver(s, s.a.conn.value.send.maxWnd, s.a.conn.value.opt.sndWscale)
  {
    var c := s.a.conn.value;
    var had := EndToEnd.Delivered(s.a);
    MissingBelow(s, x);
    SenderAt(s);
    assert Stuck(s, x, c.send.maxWnd, c.opt.sndWscale, had) by { hide Reached, OnlyX, EndToEnd.Delivered, Off, Has; }
    hide Reached, Missing, AllOrdinary, Run, Stuck;
    forall acts | AllOrdinary(acts, c.send.maxWnd, c.opt.sndWscale)
      ensures !MoreDelivered(s, acts)
    {
      StrandedForever(s, acts, x, c.send.maxWnd, c.opt.sndWscale, had);
      StuckHas(Run(s, acts), x, c.send.maxWnd, c.opt.sndWscale, had);
    }
  }

  lemma StuckHas(t: Sys, x: Seg, most: Wnd, shift: Shift, had: seq<byte>)
    requires Stuck(t, x, most, shift, had)
    ensures EndToEnd.Delivered(t.a) == had
  {
    hide Reached, Waits, OnlyX, EndToEnd.Delivered;
  }

  lemma DeliveredIfFresh(s: Sys, x: Seg)
    requires Missing(s, x)
    requires var c := s.a.conn.value; Off(s.aIss, c.send.una) <= Off(s.aIss, x.ackno) + c.send.maxWnd
    ensures CanDeliver(s, s.a.conn.value.send.maxWnd, s.a.conn.value.opt.sndWscale)
  {
    var c := s.a.conn.value;
    var p := Plain(x);
    var env := Env(Congestion.MSS, 1);
    MissingBelow(s, x);
    PlainDeliverable(s, x);
    PlainUnscaled(c.opt.sndWscale);
    PlainPasses(c, x);
    assert p.seqno == x.seqno && p.payload == x.payload && p.flags == x.flags && p.ackno == x.ackno && p.window == 0;
    hide Reached, Deliverable, OnSegment, Off, Has, OnlyX, Paws, Refuses, Plain;
    OldMissingArrives(s, p, env, 0);
    MissingArrives(s, p, env, 0);
    GivesMore(s, p, env);
  }

  lemma PlainPasses(c: Conn, x: Seg)
    ensures !Paws(c, Plain(x))
  {
  }

  lemma GivesMore(s: Sys, p: Seg, env: Env)
    requires s.a.conn.Some? && Deliverable(s.toA, p) && Scaled(p.window, s.a.conn.value.opt.sndWscale) == 0
    requires |OnSegment(s.a.conn.value, p, env, 0).0.recvBuf| > |s.a.conn.value.recvBuf|
    ensures CanDeliver(s, s.a.conn.value.send.maxWnd, s.a.conn.value.opt.sndWscale)
  {
    var c := s.a.conn.value;
    var act := AtA(ReceiveEvent(p, env, 0));
    hide OnSegment, Deliverable, Scaled;
    assert [act][..0] == [];
    assert Run(s, []) == s;
    assert Run(s, [act]) == StepA(s, act.event);
    assert AllOrdinary([act], c.send.maxWnd, c.opt.sndWscale);
    assert MoreDelivered(s, [act]);
  }

  /** The promise that every byte eventually arrives, for the byte an established A waits for: some ordinary run (A does
      not close, and hears of no window larger than before) gives A's application more if and only if what is
      missing acknowledges at least SND.UNA less the largest window advertised to A so far. */
  lemma StrandedExactly(s: Sys, x: Seg)
    requires Missing(s, x)
    ensures var c := s.a.conn.value;
            CanDeliver(s, c.send.maxWnd, c.opt.sndWscale) <==>
            Off(s.aIss, c.send.una) <= Off(s.aIss, x.ackno) + c.send.maxWnd
  {
    var c := s.a.conn.value;
    hide Missing, CanDeliver, Off;
    if Off(s.aIss, c.send.una) <= Off(s.aIss, x.ackno) + c.send.maxWnd {
      DeliveredIfFresh(s, x);
    } else {
      StrandedIfStale(s, x);
    }
  }
}
