/** Loss-recovery episodes (section 3.2 of RFC 6582): what ends one, what a partial ACK does, and the
    multiplicative decrease. */
module NewReno {
  import opened Types
  import opened SeqNum
  import opened Segments
  import opened Connection
  import opened Calls
  import opened Lifecycle
  import opened AckField
  import opened System
  import opened EndToEnd
  import opened Timeouts
  import Retransmit
  import Reassembly
  import Congestion
  import Rtt

  // ---- what ends an episode ----

  /** The segment gets as far as the acknowledgement field. */
  predicate Reads(c: Conn, s: Seg) {
    && (c.state == Established || c.state == CloseWait)
    && !Has(s.flags, RST) && !Has(s.flags, SYN) && !Paws(c, s) && Has(s.flags, ACK)
  }

  /** And it acknowledges something new. */
  predicate Advances(c: Conn, s: Seg) {
    Reads(c, s) && AckAcceptable(Refresh(c, s), s.ackno) && Between(c.send.una, s.ackno, c.send.nxt)
  }

  /** The controller, the timer and the recovery point are as they were. */
  predicate SameControl(c: Conn, c': Conn) {
    c'.cong == c.cong && c'.rtt == c.rtt && c'.recover == c.recover
  }

  /** What the acknowledgement field has to say reaches the result unchanged. */
  lemma OpenAck(c: Conn, s: Seg, env: Env, now: nat)
    requires Reads(c, s)
    ensures var r := OnAckField(Refresh(c, s), s, c.send.wnd, env, now);
            var o := OnSynced(c, s, env, now);
            && Dispatch(c, s, env, now) == o
            && SameControl(r.0, o.0) && o.0.send == r.0.send && o.0.retx == r.0.retx
            && (r.2 ==> o == (r.0, r.1))
  {
    hide Has, Paws, OnAckField, Refresh, OnText, MaybeChallenge, OnRst, OnSynSent;
    TextKeeps(OnAckField(Refresh(c, s), s, c.send.wnd, env, now).0, s);
  }

  lemma TextKeeps(c: Conn, s: Seg)
    ensures var c' := OnText(c, s).0;
            SameControl(c, c') && c'.send == c.send && c'.retx == c.retx
  {
    hide Reassembly.Recv, Add, Before, After, Has, BareAck, AckOptions;
  }

  /** An acknowledgement ends the episode exactly when it is new and not before the recovery point. */
  lemma AckEndsEpisode(c: Conn, s: Seg, env: Env, now: nat)
    requires Congestion.InRecovery(c.cong) && Reads(c, s)
    ensures !Congestion.InRecovery(OnAckField(Refresh(c, s), s, c.send.wnd, env, now).0.cong) <==>
            Advances(c, s) && !Before(s.ackno, c.recover)
  {
    RefreshKeeps(c, s);
    var c1 := Refresh(c, s);
    hide Refresh, AckAcceptable, Between, Before, Paws, Has;
    if AckAcceptable(c1, s.ackno) {
      var c2 := Marked(c1, s);
      MarkedKeeps(c1, s);
      hide Marked;
      if Between(c1.send.una, s.ackno, c1.send.nxt) {
        NewAckEnds(c2, s, env, now);
      } else {
        DupAckKeepsEpisode(c2, now);
      }
      AckFieldUnfold(c1, s, c.send.wnd, env, now);
      hide OnNewAck, OnDuplicateAck, OnAckField;
    } else {
      hide MaybeChallenge;
      ChallengeCong(c1, env, now);
    }
  }

  lemma RefreshKeeps(c: Conn, s: Seg)
    ensures var c1 := Refresh(c, s);
            SameControl(c, c1) && c1.send.una == c.send.una && c1.send.nxt == c.send.nxt
  {
  }

  lemma MarkedKeeps(c: Conn, s: Seg)
    ensures var c1 := Marked(c, s);
            SameControl(c, c1) && c1.send == c.send
  {
  }

  lemma ChallengeCong(c: Conn, env: Env, now: nat)
    ensures SameControl(c, MaybeChallenge(c, env, now).0)
  {
  }

  lemma NewAckEnds(c: Conn, s: Seg, env: Env, now: nat)
    requires Congestion.InRecovery(c.cong)
    ensures Congestion.InRecovery(OnNewAck(c, s, env, now).0.cong) <==> Before(s.ackno, c.recover)
  {
    hide Before, AckSample, Retransmit.Ack, Rtt.Sample, Retransmit.FastRetransmit;
  }

  lemma DupAckKeepsEpisode(c: Conn, now: nat)
    requires Congestion.InRecovery(c.cong)
    ensures Congestion.InRecovery(OnDuplicateAck(c, now).0.cong)
  {
    hide Retransmit.FastRetransmit, Congestion.BetaCut;
  }

  /** Any segment at all, in any state: an episode ends only by such an acknowledgement. */
  lemma SegmentEndsEpisode(c: Conn, s: Seg, env: Env, now: nat)
    requires Congestion.InRecovery(c.cong)
    ensures !Congestion.InRecovery(OnSegment(c, s, env, now).0.cong) <==>
            Advances(Arrive(c, now), s) && !Before(s.ackno, c.recover)
  {
    var c1 := Arrive(c, now);
    if Reads(c1, s) {
      OpenAck(c1, s, env, now);
      AckEndsEpisode(c1, s, env, now);
      hide Dispatch, OnSynced, OnAckField, Refresh, Reads, AckAcceptable, Between, Before;
    } else {
      Unread(c1, s, env, now);
      hide Dispatch, Reads, AckAcceptable, Between, Before, Refresh;
    }
  }

  lemma Unread(c: Conn, s: Seg, env: Env, now: nat)
    requires !Reads(c, s)
    ensures SameControl(c, Dispatch(c, s, env, now).0)
  {
    hide Has, OnSynced, Establish, MaybeChallenge, OnRst, OnSynSent, Paws;
    if Has(s.flags, RST) {
      RstCong(c, s, env, now);
    } else if c.state == SynSent {
      SynSentCong(c, s, now);
    } else if Has(s.flags, SYN) && Synchronized(c.state) {
      ChallengeCong(c, env, now);
    } else if c.state == SynRcvd {
      if Has(s.flags, ACK) && s.ackno == c.send.nxt {
        EstablishCong(c, s, env, now);
      }
    } else if c.state == Established || c.state == CloseWait {
      UnreadOpen(c, s, env, now);
    } else {
      ClosingCong(c, s, env, now);
    }
  }

  lemma SynSentCong(c: Conn, s: Seg, now: nat)
    ensures SameControl(c, OnSynSent(c, s, now).0)
  {
    hide Has, Retransmit.Ack, BareAck, Add;
  }

  lemma UnreadOpen(c: Conn, s: Seg, env: Env, now: nat)
    requires (c.state == Established || c.state == CloseWait) && (Paws(c, s) || !Has(s.flags, ACK))
    ensures SameControl(c, OnSynced(c, s, env, now).0)
  {
    hide Has, Paws, OnAckField, Refresh, OnText, BareAck;
    RefreshKeeps(c, s);
    TextKeeps(Refresh(c, s), s);
  }

  /** The last handshake segment acknowledges the SYN alone: nothing new to the controller. */
  lemma EstablishCong(c: Conn, s: Seg, env: Env, now: nat)
    requires c.state == SynRcvd && Has(s.flags, ACK) && s.ackno == c.send.nxt
    ensures SameControl(c, OnSynced(Establish(c, s, now), s, env, now).0)
  {
    var c1 := Establish(c, s, now);
    assert c1.state == Established && SameControl(c, c1) && c1.send.una == s.ackno == c1.send.nxt by {
      hide Retransmit.Ack;
    }
    var c2 := Refresh(c1, s);
    RefreshKeeps(c1, s);
    hide Establish, Has, Paws, Refresh, OnAckField, OnText, BareAck;
    NothingNew(c2, s, c1.send.wnd, env, now);
    TextKeeps(OnAckField(c2, s, c1.send.wnd, env, now).0, s);
  }

  lemma NothingNew(c: Conn, s: Seg, prevWnd: u32, env: Env, now: nat)
    requires c.send.una == s.ackno == c.send.nxt
    ensures SameControl(c, OnAckField(c, s, prevWnd, env, now).0)
  {
    NotItself(c.send.una, s.ackno);
    MarkedKeeps(c, s);
    ChallengeCong(c, env, now);
    hide AckAcceptable, Between, OnNewAck, OnDuplicateAck, Retransmit.MarkSacked, MaybeChallenge;
  }

  lemma NotItself(una: u32, x: u32)
    ensures !Between(una, x, una)
  {
  }

  lemma ClosingCong(c: Conn, s: Seg, env: Env, now: nat)
    requires c.state != SynSent && c.state != SynRcvd && c.state != Established && c.state != CloseWait
    ensures SameControl(c, OnSynced(c, s, env, now).0)
  {
    hide Has, Retransmit.Ack, Reassembly.Recv, BareAck, Add;
  }

  lemma RstCong(c: Conn, s: Seg, env: Env, now: nat)
    ensures SameControl(c, OnRst(c, s, env, now).0)
  {
    ChallengeCong(c, env, now);
    hide MaybeChallenge, InWindow, Has;
  }

  /** A tick ends the episode exactly when a retransmission timeout fires in it. */
  lemma TickEndsEpisode(c: Conn, now: nat)
    requires Congestion.InRecovery(c.cong)
    ensures !Congestion.InRecovery(OnTick(c, now).0.cong) <==> RtoFires(c, now)
  {
    var _, _, _, _ := TickExactly(c, now);
    TimeoutEndsRecovery(c.cong);
    hide OnTick, RtoFires, Congestion.OnTimeout, Congestion.InRecovery;
  }

  /** Any call at all: an episode is ended by an acknowledgement not before the recovery point, by a
      timeout, or by switching the controller to BBR, and by nothing else. */
  lemma CallEndsEpisode(c: Conn, e: Event)
    requires Congestion.InRecovery(c.cong)
    ensures !Congestion.InRecovery(Apply(c, e).0.cong) <==>
            match e
            case ReceiveEvent(s, _, now) => Advances(Arrive(c, now), s) && !Before(s.ackno, c.recover)
            case TickEvent(now) => RtoFires(c, now)
            case BbrEvent => true
            case _ => false
  {
    hide OnSegment, OnTick, PollTransmit, Advances, RtoFires, Before, Segment;
    match e {
      case ReceiveEvent(s, env, now) => SegmentEndsEpisode(c, s, env, now);
      case TickEvent(now) => TickEndsEpisode(c, now);
      case PollEvent(now) => PollFrame(c, now);
      case _ =>
    }
  }

  // ---- partial ACKs in reachable states ----

  lemma RunAppend(s: Sys, acts: seq<Action>, act: Action)
    ensures Run(s, acts + [act]) == Step(Run(s, acts), act)
  {
    hide Step;
    assert (acts + [act])[..|acts|] == acts;
  }

  lemma ReachableStep(s: Sys, act: Action)
    requires Reachable(s)
    ensures Reachable(Step(s, act))
  {
    hide Run, Start, Step;
    var aIss, bIss, budget: Budget, now: nat, acts :| s == Run(Start(aIss, bIss, budget, now), acts);
    RunAppend(Start(aIss, bIss, budget, now), acts, act);
    assert Step(s, act) == Run(Start(aIss, bIss, budget, now), acts + [act]);
  }

  lemma ReachedStepA(s: Sys, e: Event)
    requires Reached(s)
    ensures Reached(StepA(s, e))
  {
    hide Reachable, Local;
    if Reachable(s) {
      ReachableStep(s, AtA(e));
    } else {
      ReachableStep(Flip(s), AtB(e));
      assert Flip(Flip(s)) == s;
      assert Flip(StepA(s, e)) == Step(Flip(s), AtB(e));
    }
  }

  lemma ReachedStepB(s: Sys, e: Event)
    requires Reached(s)
    ensures Reached(Flip(StepA(Flip(s), e)))
  {
    hide Reachable, StepA;
    assert Flip(Flip(s)) == s;
    ReachedStepA(Flip(s), e);
    assert Flip(Flip(StepA(Flip(s), e))) == StepA(Flip(s), e);
  }

  /** A partial ACK keeps the episode and the recovery point, and resends the first hole left. */
  lemma PartialAck(c: Conn, s: Seg, env: Env, now: nat)
    requires Congestion.InRecovery(c.cong) && Advances(Arrive(c, now), s) && Before(s.ackno, c.recover)
    ensures var r := OnSegment(c, s, env, now);
            var kept := Retransmit.Keep(Marked(Refresh(Arrive(c, now), s), s).retx.segs, s.ackno);
            var at := Retransmit.FirstUnsacked(kept, 0);
            && Congestion.InRecovery(r.0.cong) && r.0.recover == c.recover && r.0.send.una == s.ackno
            && (r.0.state == Established || r.0.state == CloseWait)
            && (at.Some? ==> r.1 == Some(kept[at.value].packet)
                             && r.0.retx.segs == kept[at.value := Retransmit.Touch(kept[at.value], now)])
            && (at.None? ==> r.0.retx.segs == kept)
  {
    var c1 := Arrive(c, now);
    var c2 := Refresh(c1, s);
    OpenAck(c1, s, env, now);
    RefreshKeeps(c1, s);
    StaysOpen(c, s, env, now);
    hide Dispatch, OnSynced, Refresh, Reads, AckAcceptable, Between, Before, OnAckField, OnNewAck;
    MarkedKeeps(c2, s);
    AckFieldUnfold(c2, s, c1.send.wnd, env, now);
    PartialNewAck(Marked(c2, s), s, env, now);
    hide Marked, Retransmit.FirstUnsacked, Retransmit.Keep, Congestion.InRecovery;
  }

  lemma PartialNewAck(c: Conn, s: Seg, env: Env, now: nat)
    requires Congestion.InRecovery(c.cong) && Before(s.ackno, c.recover)
    ensures var r := OnNewAck(c, s, env, now);
            var kept := Retransmit.Keep(c.retx.segs, s.ackno);
            var at := Retransmit.FirstUnsacked(kept, 0);
            && Congestion.InRecovery(r.0.cong) && r.0.recover == c.recover && r.0.send.una == s.ackno
            && (at.Some? ==> r.2 && r.1 == Some(kept[at.value].packet)
                             && r.0.retx.segs == kept[at.value := Retransmit.Touch(kept[at.value], now)])
            && (at.None? ==> r.0.retx.segs == kept)
  {
    hide Before, AckSample, Rtt.Sample, Retransmit.Keep, Retransmit.Scan, Retransmit.FirstUnsacked, Sub;
  }

  lemma StaysOpen(c: Conn, s: Seg, env: Env, now: nat)
    requires (c.state == Established || c.state == CloseWait) && !Has(s.flags, RST)
    ensures var r := OnSegment(c, s, env, now).0;
            r.state == Established || r.state == CloseWait
  {
    SegmentHandled(c, s, env, now);
    hide OnSegment, Handled, Has;
  }

  /** In every reachable state, a partial ACK is answered at once with the segment that starts exactly
      where it stopped: one hole per partial ACK, each the right one. */
  lemma PartialAckResendsNext(s: Sys, p: Seg, env: Env, now: nat)
    requires Reached(s) && s.a.conn.Some? && Deliverable(s.toA, p)
    requires var c := s.a.conn.value;
             Congestion.InRecovery(c.cong) && Advances(Arrive(c, now), p) && Before(p.ackno, c.recover)
    ensures var r := OnSegment(s.a.conn.value, p, env, now);
            && Congestion.InRecovery(r.0.cong) && r.0.recover == s.a.conn.value.recover && r.0.send.una == p.ackno
            && r.1.Some? && r.1.value.seqno == p.ackno
  {
    var c := s.a.conn.value;
    ReachedReceive(s, c, p, env, now);
    hide OnSegment, Reached, StepA, Advances, Before, Arrive, Congestion.InRecovery, Deliverable;
    PartialResend(StepA(s, ReceiveEvent(p, env, now)), c, p, env, now);
  }

  lemma PartialResend(s1: Sys, c: Conn, p: Seg, env: Env, now: nat)
    requires Congestion.InRecovery(c.cong) && Advances(Arrive(c, now), p) && Before(p.ackno, c.recover)
    requires Reached(s1) && s1.a.conn == Some(OnSegment(c, p, env, now).0)
    ensures var r := OnSegment(c, p, env, now);
            && Congestion.InRecovery(r.0.cong) && r.0.recover == c.recover && r.0.send.una == p.ackno
            && r.1.Some? && r.1.value.seqno == p.ackno
  {
    PartialAck(c, p, env, now);
    hide OnSegment, Reached, Advances, Before, Retransmit.Keep, Marked, Refresh, Arrive, Congestion.InRecovery;
    hide Retransmit.FirstUnsacked;
    var r := OnSegment(c, p, env, now);
    AfterPartial(s1, r.0);
    FirstResent(Retransmit.Keep(Marked(Refresh(Arrive(c, now), p), p).retx.segs, p.ackno), r.0.retx.segs, r.1, now);
  }

  lemma ReachedReceive(s: Sys, c: Conn, p: Seg, env: Env, now: nat)
    requires Reached(s) && s.a.conn == Some(c) && Deliverable(s.toA, p)
    ensures var s1 := StepA(s, ReceiveEvent(p, env, now));
            Reached(s1) && s1.a.conn == Some(OnSegment(c, p, env, now).0)
  {
    hide Reached, OnSegment, Deliverable;
    ReachedStepA(s, ReceiveEvent(p, env, now));
  }

  /** What the reachability theorems say of the state a partial ACK leaves. */
  lemma AfterPartial(s: Sys, c: Conn)
    requires Reached(s) && s.a.conn == Some(c) && Congestion.InRecovery(c.cong)
    requires c.state == Established || c.state == CloseWait
    ensures c.retx.segs != [] && !c.retx.segs[0].sacked && c.retx.segs[0].packet.seqno == c.send.una
  {
    EpisodeOpen(s, c);
    NotItself(c.send.una, c.recover);
    hide Reached, Off, Between, Tile;
    FirstTile(s, c);
  }

  lemma FirstTile(s: Sys, c: Conn)
    requires Reached(s) && s.a.conn == Some(c) && c.retx.segs != []
    ensures !c.retx.segs[0].sacked && c.retx.segs[0].packet.seqno == c.send.una
  {
    hide Reached, RightBytes;
    TilingAndConservation(s);
    OldestNeverSacked(s);
    assert Tile(c, s.a.written, 0);
  }

  /** While an episode is under way and the connection open, something is queued. */
  lemma EpisodeOpen(s: Sys, c: Conn)
    requires Reached(s) && s.a.conn == Some(c) && Congestion.InRecovery(c.cong)
    requires c.state == Established || c.state == CloseWait
    ensures Between(c.send.una, c.recover, c.send.nxt) && (c.retx.segs == [] ==> c.send.una == c.send.nxt)
  {
    hide Reached, Off, Between, Tile;
    RecoveryPoint(s);
    TilingAndConservation(s);
  }

  lemma FirstResent(kept: seq<Retransmit.Unacked>, segs: seq<Retransmit.Unacked>, reply: Option<Seg>, now: nat)
    requires var at := Retransmit.FirstUnsacked(kept, 0);
             if at.Some? then
               reply == Some(kept[at.value].packet) && segs == kept[at.value := Retransmit.Touch(kept[at.value], now)]
             else segs == kept
    requires segs != [] && !segs[0].sacked
    ensures reply.Some? && reply.value == segs[0].packet
  {
  }

  // ---- the multiplicative decrease ----

  /** The cut is 70% of the window (at least two segments) exactly while the product by seven fits in
      32 bits; beyond that it collapses. */
  lemma BetaCutExact(cwnd: u32)
    ensures Congestion.BetaCut(cwnd) == Max(cwnd * 7 / 10, 2 * Congestion.MSS) <==> cwnd <= 613_566_756
  {
    if cwnd <= 613_566_756 {
      assert cwnd * 7 < TWO_32;
    } else {
      assert cwnd * 7 / 10 >= 429_496_729;
      assert (cwnd * 7) % TWO_32 <= TWO_32 - 1;
      BetaWraps(cwnd);
    }
  }

  lemma BetaWraps(cwnd: u32)
    requires cwnd > 613_566_756
    ensures (cwnd * 7) % TWO_32 / 10 < cwnd * 7 / 10
  {
    var q := cwnd * 7 / TWO_32;
    assert q >= 1;
    assert cwnd * 7 == q * TWO_32 + (cwnd * 7) % TWO_32;
    assert (cwnd * 7) % TWO_32 + 10 <= cwnd * 7;
  }
}
