/** Which segments are answered, and with what (section 3.10.7.4 of RFC 9293, section 4 of RFC 2018): the reply as a
    function of the segment and the connection before it. */
module Replies {
  import opened Types
  import opened SeqNum
  import opened Segments
  import opened Connection
  import opened Calls
  import opened Lifecycle
  import opened AckField
  import opened Backlog
  import opened SackReport
  import opened Challenges
  import opened Direction
  import opened Arrival
  import opened System
  import opened EndToEnd
  import opened NewReno
  import opened Wrap
  import Retransmit
  import Reassembly
  import Congestion
  import Rtt

  /** A pure acknowledgement of everything up to RCV.NXT, at SND.NXT. */
  predicate Acknowledges(p: Seg, c: Conn, now: nat) {
    p.seqno == c.send.nxt && p.flags == ACK && p.payload == [] && Reports(p, c, now)
  }

  /** The blocks are the first three runs of buffered bytes, or all of them if there are fewer: ascending, apart,
      entirely buffered, and whatever else is buffered lies beyond three of them. */
  ghost predicate FirstRuns(r: Reassembly.Reasm, blocks: seq<Block>) {
    && |blocks| <= 3 && Apart(r, blocks)
    && (forall o: int :: InBlocks(r, blocks, o) ==> Held(r, o))
    && forall o: int :: Held(r, o) && !InBlocks(r, blocks, o) ==> |blocks| == 3 && o > R(r, blocks[2])
  }

  /** A FIN this end has consumed already. */
  predicate FinAgain(c: Conn, s: Seg) {
    && c.state == CloseWait && Has(s.flags, FIN)
    && !After(Add(s.seqno, Low32(|s.payload|)), Deliver(c, s.seqno, s.payload).recv.nxt)
  }

  /** The FIN that ends the stream, with everything before it in. */
  predicate FinNow(c: Conn, s: Seg) {
    c.state == Established && CompletesFin(c, s)
  }

  lemma InPrefix(r: Reassembly.Reasm, bs: seq<Block>, o: int)
    requires |bs| > 3 && Apart(r, bs)
    ensures InBlocks(r, bs[..3], o) ==> InBlocks(r, bs, o)
    ensures InBlocks(r, bs, o) && !InBlocks(r, bs[..3], o) ==> o > R(r, bs[..3][2])
  {
    hide L, R;
    if InBlocks(r, bs[..3], o) {
      var m :| 0 <= m < 3 && InBlock(r, bs[..3][m], o);
      assert InBlock(r, bs[m], o);
    } else if InBlocks(r, bs, o) {
      var m :| 0 <= m < |bs| && InBlock(r, bs[m], o);
      assert forall n :: 0 <= n < 3 ==> bs[..3][n] == bs[n];
    }
  }

  lemma ReportsFirstRuns(r: Reassembly.Reasm)
    requires Disjoint(r.frags)
    ensures FirstRuns(r, FirstBlocks(Reassembly.SackBlocks(r)))
  {
    var bs := Reassembly.SackBlocks(r);
    hide Reassembly.SackBlocks, Held, InBlocks, OnEdges, Disjoint, L, R;
    SackBlocksAreMaximalRuns(r);
    if |bs| > 3 {
      forall o: int
        ensures InBlocks(r, bs[..3], o) ==> InBlocks(r, bs, o)
        ensures InBlocks(r, bs, o) && !InBlocks(r, bs[..3], o) ==> o > R(r, bs[..3][2])
      {
        InPrefix(r, bs, o);
      }
    }
  }

  // ---- data and FIN ----

  lemma BareAckIs(c: Conn, now: nat)
    requires c.opt.tsVal == Low32(now)
    ensures Acknowledges(BareAck(c), c, now) && BareAck(c).opts.sack == []
    ensures var p := BareAck(c).(opts := AckOptions(c));
            Acknowledges(p, c, now) && p.opts.sack == if c.opt.sackOk then FirstBlocks(Reassembly.SackBlocks(c.reasm)) else []
  {
    hide FirstBlocks, Reassembly.SackBlocks;
  }

  predicate Answer(c: Conn, s: Seg, now: nat, r: (Conn, Option<Seg>)) {
    && (r.1.Some? <==> s.payload != [] || FinNow(c, s) || FinAgain(c, s))
    && (r.1.Some? ==>
          && Acknowledges(r.1.value, r.0, now)
          && r.1.value.opts.sack == if c.opt.sackOk && !FinNow(c, s) && !FinAgain(c, s)
                                    then FirstBlocks(Reassembly.SackBlocks(r.0.reasm)) else [])
  }

  lemma TextReply(c: Conn, s: Seg, now: nat)
    requires c.opt.tsVal == Low32(now) && (c.state == Established || c.state == CloseWait)
    ensures Answer(c, s, now, OnText(c, s))
  {
    var d := Deliver(c, s.seqno, s.payload);
    var r := OnText(c, s).0;
    assert d.state == c.state && d.pendingFin == c.pendingFin && d.opt == c.opt by {
      hide Reassembly.Recv;
    }
    assert r.opt == d.opt by { hide Deliver, Add, Low32, Before, After, Has, BareAck, AckOptions; }
    BareAckIs(r, now);
    hide Deliver, Add, Low32, Before, After, Has, AckOptions, BareAck, Acknowledges, FirstBlocks, Reassembly.SackBlocks;
  }

  /** What the reply depends on is the same before the segment and when its data is looked at. */
  lemma SameAnswer(c: Conn, d: Conn, s: Seg, now: nat, r: (Conn, Option<Seg>))
    requires d.state == c.state && d.recv == c.recv && d.reasm == c.reasm && d.pendingFin == c.pendingFin
    requires d.opt.sackOk == c.opt.sackOk && Answer(d, s, now, r)
    ensures Answer(c, s, now, r)
  {
    SameDelivery(c, d, s);
    assert Deliver(d, s.seqno, s.payload).recv == Deliver(c, s.seqno, s.payload).recv by { hide Reassembly.Recv; }
    hide CompletesFin, Deliver, After, Acknowledges, Has, FirstBlocks, Reassembly.SackBlocks, Low32, Add;
  }

  /** The segment when its data is looked at. */
  lemma ReachesText(c: Conn, s: Seg, env: Env, now: nat)
    requires c.state == Established || c.state == CloseWait
    ensures var c1 := Arrive(c, now);
            var c2 := Refresh(c1, s);
            var d := if Has(s.flags, ACK) then OnAckField(c2, s, c1.send.wnd, env, now).0 else c2;
            && d.state == c.state && d.recv == c.recv && d.reasm == c.reasm && d.pendingFin == c.pendingFin
            && d.opt == c2.opt && d.opt.sackOk == c.opt.sackOk && d.opt.tsVal == Low32(now)
  {
    var c1 := Arrive(c, now);
    var c2 := Refresh(c1, s);
    assert c2.recv == c.recv && c2.reasm == c.reasm && c2.state == c.state && c2.pendingFin == c.pendingFin
           && c2.opt.sackOk == c.opt.sackOk && c2.opt.tsVal == Low32(now) by {
      hide Scaled, After;
    }
    hide Refresh, Arrive, OnAckField, Has;
    AckKeepsReceiver(c2, s, c1.send.wnd, env, now);
    AckFieldHandled(c2, s, c1.send.wnd, env, now);
    hide Handled;
  }

  lemma BareAckOf(c: Conn, now: nat)
    ensures var c1 := Arrive(c, now);
            && Acknowledges(BareAck(c1), c1, now) && BareAck(c1).opts.sack == []
            && OnlyNoted(c, c1, now) && c1.clock.challengeBudget == c.clock.challengeBudget
  {
  }

  /** A segment of an open connection, neither RST nor SYN. A date before TS.Recent is answered at once and changes
      nothing. If the acknowledgement field does not end the handling, the segment is acknowledged if and only if it
      carries data, or a FIN is consumed by it or was before; the acknowledgement states SND.NXT and the new RCV.NXT,
      and with SACK on and no FIN consumed the runs of buffered bytes. */
  lemma OpenReplies(c: Conn, s: Seg, env: Env, now: nat)
    requires (c.state == Established || c.state == CloseWait) && !Has(s.flags, RST) && !Has(s.flags, SYN)
    ensures var r := OnSegment(c, s, env, now);
            && (Paws(c, s) ==>
                  && OnlyNoted(c, r.0, now) && r.0.clock.challengeBudget == c.clock.challengeBudget
                  && r.1.Some? && Acknowledges(r.1.value, r.0, now) && r.1.value.opts.sack == [])
            && (!Paws(c, s) && !StopsAtAck(c, s) ==> Answer(c, s, now, r))
  {
    var c1 := Arrive(c, now);
    var c2 := Refresh(c1, s);
    var d := if Has(s.flags, ACK) then OnAckField(c2, s, c1.send.wnd, env, now).0 else c2;
    hide Arrive, Refresh, OnAckField, OnText, Paws, Has, BareAck, StopsAtAck, OnSegment, Answer, Acknowledges,
      OnlyNoted;
    OpenCases(c, s, env, now);
    ReachesText(c, s, env, now);
    BareAckOf(c, now);
    TextReply(d, s, now);
    SameAnswer(c, d, s, now, OnText(d, s));
  }

  // ---- after our own FIN ----

  /** The peer's FIN in order, with this segment's data in. */
  predicate FinArrives(c: Conn, s: Seg) {
    Has(s.flags, FIN) && Add(s.seqno, Low32(|s.payload|)) == Deliver(c, s.seqno, s.payload).recv.nxt
  }

  /** In FIN_WAIT_1 and FIN_WAIT_2 data and a FIN in order are acknowledged, and nothing else is answered. */
  lemma FinWaitReplies(c: Conn, s: Seg, env: Env, now: nat)
    requires (c.state == FinWait1 || c.state == FinWait2) && !Has(s.flags, RST) && !Has(s.flags, SYN)
    ensures var r := OnSegment(c, s, env, now);
            && (r.1.Some? <==> s.payload != [] || FinArrives(c, s))
            && (r.1.Some? ==> Acknowledges(r.1.value, r.0, now) && r.1.value.opts.sack == [])
  {
    hide OnSegment, Deliver, WithData, FinTail, Has, Low32, Add, FinHeard, Acknowledges;
    FinWaitCases(c, s, env, now);
    FinTailReply(WithData(c, s, now), s, FinHeard(c, s), now);
  }

  lemma FinTailReply(d: Conn, s: Seg, finAcked: bool, now: nat)
    requires d.opt.tsVal == Low32(now)
    ensures var r := FinTail(d, s, finAcked, now);
            && (r.1.Some? <==> s.payload != [] || (Has(s.flags, FIN) && Add(s.seqno, Low32(|s.payload|)) == d.recv.nxt))
            && (r.1.Some? ==> Acknowledges(r.1.value, r.0, now) && r.1.value.opts.sack == [])
  {
    var r := FinTail(d, s, finAcked, now).0;
    assert r.opt == d.opt by { hide Has, Add, BareAck; }
    BareAckIs(r, now);
    hide Has, Low32, AckOptions;
  }

  // ---- every segment ----

  /** An acceptable field that ends the handling does so with a packet. */
  lemma StopsWithPacket(c: Conn, s: Seg, prevWnd: u32, env: Env, now: nat)
    requires AckAcceptable(c, s.ackno) && OnAckField(c, s, prevWnd, env, now).2
    ensures OnAckField(c, s, prevWnd, env, now).1.Some?
  {
    AckFieldUnfold(c, s, prevWnd, env, now);
    hide OnAckField, AckAcceptable, Marked, Between, Before, Acked, Retransmit.FastRetransmit, Congestion.OnDupAck,
      Congestion.OnPartialAck, Congestion.OnAck;
  }

  /** Refused at the acknowledgement field: a hole is resent, or the field is unacceptable and the budget decides. */
  lemma StoppedReplies(c: Conn, s: Seg, env: Env, now: nat)
    requires (c.state == Established || c.state == CloseWait) && !Has(s.flags, RST) && !Has(s.flags, SYN)
    requires !Paws(c, s) && StopsAtAck(c, s) && AckAcceptable(Refresh(c, s), s.ackno)
    ensures OnSegment(c, s, env, now).1.Some?
  {
    var c1 := Arrive(c, now);
    var c2 := Refresh(c1, s);
    assert c2.send == Refresh(c, s).send by { hide After, Scaled; }
    ArrivedSame(c, s, now);
    StopsExactly(c1, s, env, now);
    StopsNeedsAck(c, s);
    hide Arrive, Refresh, OnAckField, OnText, Paws, Has, StopsAtAck, OnSegment;
    OpenCases(c, s, env, now);
    SameAcceptance(Refresh(c, s), c2, s.ackno);
    hide AckAcceptable;
    StopsWithPacket(c2, s, c1.send.wnd, env, now);
  }

  lemma StopsNeedsAck(c: Conn, s: Seg)
    requires StopsAtAck(c, s)
    ensures Has(s.flags, ACK)
  {
  }

  lemma SameAcceptance(c: Conn, d: Conn, ackno: u32)
    requires c.send == d.send
    ensures AckAcceptable(c, ackno) == AckAcceptable(d, ackno)
  {
  }

  /** The conditions under which a segment that provokes no challenge is answered. */
  predicate Answered(c: Conn, s: Seg) {
    && !Has(s.flags, RST)
    && match c.state
       case SynSent => Has(s.flags, SYN) && Has(s.flags, ACK) && s.ackno == c.send.nxt
       case SynRcvd =>
         Has(s.flags, ACK) && s.ackno == c.send.nxt && (Paws(c, s) || s.payload != [] || CompletesFin(c, s))
       case Established => Paws(c, s) || StopsAtAck(c, s) || s.payload != [] || CompletesFin(c, s)
       case CloseWait => Paws(c, s) || StopsAtAck(c, s) || s.payload != [] || FinAgain(c, s)
       case FinWait1 => s.payload != [] || FinArrives(c, s)
       case FinWait2 => s.payload != [] || FinArrives(c, s)
       case _ => false
  }

  lemma QuietReplies(c: Conn, s: Seg, env: Env, now: nat)
    requires c.state == LastAck || c.state == Closing || c.state == TimeWait || c.state == Closed
    requires !Provokes(c, s) && !Has(s.flags, RST)
    ensures OnSegment(c, s, env, now).1.None?
  {
    hide Has, Retransmit.Ack, InWindow;
  }

  lemma RstReplies(c: Conn, s: Seg, env: Env, now: nat)
    requires Has(s.flags, RST) && !Provokes(c, s)
    ensures OnSegment(c, s, env, now).1.None?
  {
    assert InWindow(Arrive(c, now), s.seqno) == InWindow(c, s.seqno);
    hide Has, InWindow, BareAck;
  }

  lemma OpeningReplies(c: Conn, s: Seg, env: Env, now: nat)
    requires c.state == SynSent && !Has(s.flags, RST)
    ensures var r := OnSegment(c, s, env, now);
            && (r.1.Some? <==> Has(s.flags, SYN) && Has(s.flags, ACK) && s.ackno == c.send.nxt)
            && (r.1.Some? ==> Acknowledges(r.1.value, r.0, now) && r.1.value.opts.sack == [])
  {
    hide Has, Retransmit.Ack, Add, Low32;
  }

  /** The last segment of a passive handshake: its acknowledgement is of the SYN alone, so only PAWS can keep its data
      out. */
  lemma HandshakeReplies(c: Conn, s: Seg, env: Env, now: nat)
    requires c.state == SynRcvd && !Has(s.flags, RST)
    ensures OnSegment(c, s, env, now).1.Some? <==> Answered(c, s)
  {
    var c1 := Arrive(c, now);
    if Has(s.flags, ACK) && s.ackno == c.send.nxt {
      var e := Establish(c1, s, now);
      assert e.state == Established && e.send.una == s.ackno == e.send.nxt && e.recv == c.recv && e.reasm == c.reasm
             && e.pendingFin == c.pendingFin && e.opt == c1.opt by {
        hide Retransmit.Ack;
      }
      assert OnSegment(c, s, env, now) == OnOpen(e, s, env, now) by { hide OnOpen, Has, MaybeChallenge, OnRst, Establish; }
      hide OnSegment, Establish, Arrive, Has;
      NeverStopsIdle(e, s);
      EstablishedReply(e, s, env, now);
      SameDelivery(c, e, s);
      assert Paws(e, s) == Paws(c, s) by { hide Before; ArrivedOptions(c, now); }
    } else {
      hide Has, OnSynced, OnRst, MaybeChallenge;
    }
  }

  lemma ArrivedOptions(c: Conn, now: nat)
    ensures Arrive(c, now).opt == c.opt.(tsVal := Low32(now))
  {
  }

  lemma EstablishedReply(e: Conn, s: Seg, env: Env, now: nat)
    requires e.state == Established && Has(s.flags, ACK) && !StopsAtAck(e, s) && e.opt.tsVal == Low32(now)
    ensures OnOpen(e, s, env, now).1.Some? <==> Paws(e, s) || s.payload != [] || CompletesFin(e, s)
  {
    var e2 := Refresh(e, s);
    assert e2.recv == e.recv && e2.reasm == e.reasm && e2.pendingFin == e.pendingFin && e2.state == e.state
           && e2.opt.tsVal == e.opt.tsVal by { hide Scaled, After; }
    hide Refresh, OnAckField, OnText, Paws, Has, BareAck, StopsAtAck, CompletesFin;
    StopsExactly(e, s, env, now);
    AckKeepsReceiver(e2, s, e.send.wnd, env, now);
    AckFieldHandled(e2, s, e.send.wnd, env, now);
    hide Handled;
    var r := OnAckField(e2, s, e.send.wnd, env, now).0;
    SameDelivery(e, r, s);
    TextReply(r, s, now);
    hide Acknowledges;
  }

  lemma ProvokedCharged(c: Conn, s: Seg, env: Env, now: nat)
    requires Provokes(c, s)
    ensures var r := OnSegment(c, s, env, now); Charged(c, r.0, r.1.Some?, env.budget, now)
  {
    CallBudget(c, ReceiveEvent(s, env, now));
    hide OnSegment, Charged, Provokes;
  }

  lemma UnprovokedOpen(c: Conn, s: Seg)
    requires (c.state == Established || c.state == CloseWait) && !Provokes(c, s) && !Has(s.flags, RST)
    ensures !Has(s.flags, SYN) && (!Paws(c, s) && StopsAtAck(c, s) ==> AckAcceptable(Refresh(c, s), s.ackno))
  {
    hide Has, Paws, AckAcceptable, Refresh, Between, SomeHole, HoleBeyond, ThirdDuplicate;
  }

  lemma UnprovokedFin(c: Conn, s: Seg)
    requires (c.state == FinWait1 || c.state == FinWait2) && !Provokes(c, s) && !Has(s.flags, RST)
    ensures !Has(s.flags, SYN)
  {
    hide Has;
  }

  /** Any segment, in any state: a segment that provokes a challenge is answered as far as the budget goes; any other
      exactly under the conditions of `Answered`. */
  lemma AnsweredExactly(c: Conn, s: Seg, env: Env, now: nat)
    ensures var r := OnSegment(c, s, env, now);
            if Provokes(c, s) then Charged(c, r.0, r.1.Some?, env.budget, now) else r.1.Some? <==> Answered(c, s)
  {
    hide OnSegment, Paws, StopsAtAck, CompletesFin, After, Deliver, FinArrives, Charged, Acknowledges, Has, InWindow,
      Refresh,
      AckAcceptable, OnlyNoted, Provokes;
    if Provokes(c, s) {
      ProvokedCharged(c, s, env, now);
    } else if Has(s.flags, RST) {
      RstReplies(c, s, env, now);
    } else if c.state == SynSent {
      OpeningReplies(c, s, env, now);
    } else if c.state == SynRcvd {
      HandshakeReplies(c, s, env, now);
    } else if c.state == Established || c.state == CloseWait {
      UnprovokedOpen(c, s);
      OpenReplies(c, s, env, now);
      if !Paws(c, s) && StopsAtAck(c, s) {
        StoppedReplies(c, s, env, now);
      }
    } else if c.state == FinWait1 || c.state == FinWait2 {
      UnprovokedFin(c, s);
      FinWaitReplies(c, s, env, now);
    } else {
      QuietReplies(c, s, env, now);
    }
  }

  // ---- in reachable states ----

  lemma ReachedDisjoint(s: Sys)
    requires Reached(s) && Synced(s.a)
    ensures Disjoint(s.a.conn.value.reasm.frags)
  {
    hide Reached, InvWith, Sends, NetOk, WellCut, Disjoint;
    var ab, ba := Parts(s);
    CleanIsDisjoint(s.a.conn.value.reasm, ba.cuts, s.b.written, ba.got, ba.k);
  }

  lemma NeverResets(s: Sys, p: Seg)
    requires Reached(s) && s.a.conn.Some? && Deliverable(s.toA, p)
    ensures !Has(p.flags, RST)
  {
    hide Reached, InvWith, Sends, Receives, NetOk, WellCut, Honest, Truthful, Deliverable, Has;
    var ab, ba := Parts(s);
    VariantKeeps(s.toA, p, s.bIss, ba, s.b.written, s.aIss, ab);
    HonestNeverResets(p, s.bIss, ba, s.b.written);
  }

  /** In every reachable state: data that is not refused, be it in order, early or a repeat, is acknowledged at once,
      with the new RCV.NXT, and where SACK is on with the first three runs of what is buffered then. */
  lemma DataAcknowledged(s: Sys, p: Seg, env: Env, now: nat)
    requires Reached(s) && s.a.conn.Some? && Deliverable(s.toA, p) && p.payload != [] && !Has(p.flags, SYN)
    requires s.a.conn.value.state == Established || s.a.conn.value.state == CloseWait
    requires !Paws(s.a.conn.value, p) && !StopsAtAck(s.a.conn.value, p)
    ensures var c, r := s.a.conn.value, OnSegment(s.a.conn.value, p, env, now);
            && r.1.Some? && Acknowledges(r.1.value, r.0, now)
            && if c.opt.sackOk && !FinNow(c, p) && !FinAgain(c, p) then FirstRuns(r.0.reasm, r.1.value.opts.sack)
               else r.1.value.opts.sack == []
  {
    var c := s.a.conn.value;
    hide Reached, OnSegment, Deliverable, Has, Paws, StopsAtAck, FinNow, FinAgain, Acknowledges, FirstRuns, OnlyNoted,
      FirstBlocks, Reassembly.SackBlocks, Disjoint;
    NeverResets(s, p);
    OpenReplies(c, p, env, now);
    BufferDisjoint(s, p, env, now);
    ReportsFirstRuns(OnSegment(c, p, env, now).0.reasm);
  }

  lemma BufferDisjoint(s: Sys, p: Seg, env: Env, now: nat)
    requires Reached(s) && s.a.conn.Some? && Deliverable(s.toA, p)
    requires s.a.conn.value.state == Established || s.a.conn.value.state == CloseWait
    ensures Disjoint(OnSegment(s.a.conn.value, p, env, now).0.reasm.frags)
  {
    hide Reached, OnSegment, Deliverable, Disjoint, Handled, StepA;
    ReachedReceive(s, s.a.conn.value, p, env, now);
    SegmentHandled(s.a.conn.value, p, env, now);
    ReachedDisjoint(StepA(s, ReceiveEvent(p, env, now)));
  }
}
