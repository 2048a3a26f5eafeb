/** What a segment makes of the rest of the connection (section 3.10.7 of RFC 9293): its state, SND.UNA and the windows,
    the timestamps, the queue and the clocks, each in terms of the segment and the connection before it. */
module Transitions {
  import opened Types
  import opened SeqNum
  import opened Segments
  import opened Connection
  import opened Calls
  import opened Lifecycle
  import opened AckField
  import opened Backlog
  import opened Challenges
  import opened NewReno
  import opened Timeouts
  import opened Signals
  import opened Karn
  import Delivery
  import Replies
  import Retransmit
  import Reassembly
  import Congestion
  import Rtt
  import TimerHistory

  // ---- the state ----

  /** Our FIN (or SYN) is acknowledged: SEG.ACK is SND.NXT. */
  predicate AcksAll(c: Conn, s: Seg) {
    Has(s.flags, ACK) && s.ackno == c.send.nxt
  }

  /** The whole state diagram, as far as segments go. */
  function Became(c: Conn, s: Seg): State {
    if Has(s.flags, RST) then
      if c.state == SynSent then (if AcksAll(c, s) then Closed else SynSent)
      else if c.state != TimeWait && s.seqno == c.recv.nxt then Closed
      else c.state
    else if Has(s.flags, SYN) && Synchronized(c.state) then c.state
    else
      match c.state
      case SynSent => if Has(s.flags, SYN) && AcksAll(c, s) then Established else SynSent
      case SynRcvd => if !AcksAll(c, s) then SynRcvd else if FinishesAtOnce(c, s) then CloseWait else Established
      case Established => if FinishesOpen(c, s) then CloseWait else Established
      case FinWait1 =>
        if Replies.FinArrives(c, s) then (if AcksAll(c, s) then TimeWait else State.Closing)
        else if AcksAll(c, s) then FinWait2 else FinWait1
      case FinWait2 => if Replies.FinArrives(c, s) then TimeWait else FinWait2
      case Closing => if AcksAll(c, s) then TimeWait else State.Closing
      case LastAck => if AcksAll(c, s) then Closed else LastAck
      case _ => c.state
  }

  lemma OpeningState(c: Conn, s: Seg, env: Env, now: nat)
    requires c.state == SynSent && !Has(s.flags, RST)
    ensures OnSegment(c, s, env, now).0.state == Became(c, s)
  {
    hide Has, Retransmit.Ack, Add, BareAck, FinishesOpen, FinishesAtOnce, Replies.FinArrives;
  }

  lemma FinWaitState(c: Conn, s: Seg, env: Env, now: nat)
    requires (c.state == FinWait1 || c.state == FinWait2) && !Has(s.flags, RST) && !Has(s.flags, SYN)
    ensures OnSegment(c, s, env, now).0.state == Became(c, s)
  {
    hide OnSegment, Deliver, WithData, Has, Low32, Add, BareAck, FinishesOpen, FinishesAtOnce;
    FinWaitCases(c, s, env, now);
  }

  lemma EndState(c: Conn, s: Seg, env: Env, now: nat)
    requires c.state == LastAck || c.state == Closing || c.state == TimeWait || c.state == Closed
    requires !Has(s.flags, RST)
    ensures OnSegment(c, s, env, now).0.state == Became(c, s)
  {
    hide Has, Retransmit.Ack, BareAck, FinishesOpen, FinishesAtOnce, Replies.FinArrives;
  }

  lemma OpenStates(c: Conn, s: Seg, env: Env, now: nat)
    requires c.state == Established || c.state == CloseWait
    requires !Has(s.flags, RST)
    ensures OnSegment(c, s, env, now).0.state == Became(c, s)
  {
    hide OnSegment, Has, FinishesOpen, FinishesAtOnce, Replies.FinArrives, Handled, AcksAll;
    EstablishedAfterSegment(c, s, env, now);
    SegmentHandled(c, s, env, now);
  }

  lemma HandshakeState(c: Conn, s: Seg, env: Env, now: nat)
    requires c.state == SynRcvd && !Has(s.flags, RST)
    ensures OnSegment(c, s, env, now).0.state == Became(c, s)
  {
    hide OnSegment, Has, FinishesOpen, FinishesAtOnce, Replies.FinArrives, Handled;
    EstablishedAfterSegment(c, s, env, now);
    SegmentHandled(c, s, env, now);
    StaysRcvd(c, s, env, now);
  }

  lemma StaysRcvd(c: Conn, s: Seg, env: Env, now: nat)
    requires c.state == SynRcvd && !Has(s.flags, RST)
    ensures OnSegment(c, s, env, now).0.state == SynRcvd <==> !AcksAll(c, s)
  {
    if AcksAll(c, s) {
      SynRcvdHandled(Arrive(c, now), s, env, now);
    }
    hide Has, OnSynced, Establish, OnRst, MaybeChallenge, Handled;
  }

  /** Any segment, in any state. */
  lemma StateExactly(c: Conn, s: Seg, env: Env, now: nat)
    ensures OnSegment(c, s, env, now).0.state == Became(c, s)
  {
    hide OnSegment, Has, FinishesOpen, FinishesAtOnce, Replies.FinArrives, OnRst, AcksAll;
    if Has(s.flags, RST) {
      ResetState(c, s, env, now);
    } else if c.state == SynSent {
      OpeningState(c, s, env, now);
    } else if c.state == SynRcvd {
      HandshakeState(c, s, env, now);
    } else if c.state == Established || c.state == CloseWait {
      OpenStates(c, s, env, now);
    } else if (c.state == FinWait1 || c.state == FinWait2) && !Has(s.flags, SYN) {
      FinWaitState(c, s, env, now);
    } else if c.state == FinWait1 || c.state == FinWait2 {
      SynState(c, s, env, now);
    } else {
      EndState(c, s, env, now);
    }
  }

  lemma SynState(c: Conn, s: Seg, env: Env, now: nat)
    requires Synchronized(c.state) && !Has(s.flags, RST) && Has(s.flags, SYN)
    ensures OnSegment(c, s, env, now).0.state == c.state
  {
    hide Has, BareAck, OnSynced, OnRst;
  }

  lemma ResetState(c: Conn, s: Seg, env: Env, now: nat)
    requires Has(s.flags, RST)
    ensures OnSegment(c, s, env, now).0.state == Became(c, s)
  {
    hide Has, InWindow, BareAck, FinishesOpen, FinishesAtOnce, Replies.FinArrives;
  }

  // ---- SND.UNA, the windows, the timestamps and the clocks ----

  /** The segment moves SND.UNA to SEG.ACK. */
  predicate MovesUna(c: Conn, s: Seg) {
    && !Has(s.flags, RST)
    && match c.state
       case SynSent => Has(s.flags, SYN) && AcksAll(c, s)
       case SynRcvd => AcksAll(c, s)
       case _ => Advances(c, s)
  }

  /** The segment's window is read: it belongs to an open connection, or opens it, and PAWS lets it pass. */
  predicate ReadsWindow(c: Conn, s: Seg) {
    && !Has(s.flags, RST) && !Paws(c, s)
    && (((c.state == Established || c.state == CloseWait) && !Has(s.flags, SYN)) || (c.state == SynRcvd && AcksAll(c, s)))
  }

  /** The table of shifts holds the powers of two. */
  lemma ShiftsArePowers(k: Shift)
    ensures SHIFTS[k] == TimerHistory.Pow2(k)
  {
    var p := (n: nat) => TimerHistory.Pow2(n);
    assert p(0) == 1 && p(1) == 2 && p(2) == 4 && p(3) == 8 && p(4) == 16 && p(5) == 32 && p(6) == 64 && p(7) == 128;
    assert p(8) == 256 && p(9) == 512 && p(10) == 1024 && p(11) == 2048 && p(12) == 4096;
    assert p(13) == 8192 && p(14) == 16384;
  }

  /** The sending half's numbers after the segment. */
  predicate Numbers(c: Conn, s: Seg, c': Conn) {
    var wnd := if ReadsWindow(c, s) then s.window * TimerHistory.Pow2(c.opt.sndWscale) else c.send.wnd;
    && c'.send.una == (if MovesUna(c, s) then s.ackno else c.send.una)
    && c'.send.nxt == c.send.nxt && c'.send.iss == c.send.iss
    && c'.send.wnd == wnd && c'.send.maxWnd == (if ReadsWindow(c, s) then Max(c.send.maxWnd, wnd) else c.send.maxWnd)
  }

  /** The clocks after it: a new acknowledgement ends the tail probe, and every arrival counts as a sign of life. */
  predicate Clocks(c: Conn, s: Seg, now: nat, c': Conn) {
    c'.clock == c.clock.(
      lastActiveMs := now, keepaliveProbes := 0,
      tlpDeadlineMs := if Advances(c, s) then 0 else c.clock.tlpDeadlineMs,
      tlpSent := !Advances(c, s) && c.clock.tlpSent,
      timeWaitMs := if Became(c, s) == TimeWait && c.state != TimeWait then now else c.clock.timeWaitMs,
      challengeBudget := c'.clock.challengeBudget, challengeWindowMs := c'.clock.challengeWindowMs)
  }

  /** The settings after a segment of a connection past SYN_SENT: nothing but the clock, and TS.Recent, which is the
      date of the last segment at or below RCV.NXT. */
  predicate Dates(c: Conn, s: Seg, now: nat, c': Conn) {
    c'.opt == c.opt.(
      tsVal := Low32(now),
      tsRecent := if ReadsWindow(c, s) && c.opt.tsEnabled && s.opts.ts.Some? && !After(s.seqno, c.recv.nxt)
                  then s.opts.ts.value.val else c.opt.tsRecent)
  }

  lemma RefreshExactly(c: Conn, s: Seg)
    ensures var r := Refresh(c, s);
            && r.send == c.send.(wnd := r.send.wnd, maxWnd := r.send.maxWnd)
            && r.send.wnd == s.window * TimerHistory.Pow2(c.opt.sndWscale) && r.send.maxWnd == Max(c.send.maxWnd, r.send.wnd)
            && r.opt == c.opt.(tsRecent := if c.opt.tsEnabled && s.opts.ts.Some? && !After(s.seqno, c.recv.nxt)
                                           then s.opts.ts.value.val else c.opt.tsRecent)
            && r.clock == c.clock
  {
    ShiftsArePowers(c.opt.sndWscale);
    hide After, TimerHistory.Pow2;
  }

  /** The acknowledgement field, as far as SND.UNA and the probe's clock go. */
  lemma FieldNumbers(c: Conn, s: Seg, prevWnd: u32, env: Env, now: nat)
    ensures var r := OnAckField(c, s, prevWnd, env, now).0;
            var moves := AckAcceptable(c, s.ackno) && Between(c.send.una, s.ackno, c.send.nxt);
            && r.send == c.send.(una := if moves then s.ackno else c.send.una) && r.opt == c.opt
            && r.clock == c.clock.(tlpDeadlineMs := if moves then 0 else c.clock.tlpDeadlineMs,
                                   tlpSent := !moves && c.clock.tlpSent,
                                   challengeBudget := r.clock.challengeBudget, challengeWindowMs := r.clock.challengeWindowMs)
  {
    var m := Marked(c, s);
    AckFieldUnfold(c, s, prevWnd, env, now);
    MarkedSend(c, s);
    NewAckNumbers(m, s, env, now);
    assert OnDuplicateAck(m, now).0.send == m.send && OnDuplicateAck(m, now).0.clock == m.clock
           && OnDuplicateAck(m, now).0.opt == m.opt by {
      hide Retransmit.FastRetransmit, Congestion.OnDupAck;
    }
    ChallengeNumbers(c, env, now);
    hide OnAckField, OnNewAck, OnDuplicateAck, Marked, AckAcceptable, Between, MaybeChallenge;
  }

  lemma ChallengeNumbers(c: Conn, env: Env, now: nat)
    ensures var r := MaybeChallenge(c, env, now).0;
            && r.send == c.send && r.opt == c.opt
            && r.clock == c.clock.(challengeBudget := r.clock.challengeBudget, challengeWindowMs := r.clock.challengeWindowMs)
  {
    hide BareAck;
  }

  lemma NewAckNumbers(c: Conn, s: Seg, env: Env, now: nat)
    ensures var r := OnNewAck(c, s, env, now).0;
            && r.send == c.send.(una := s.ackno) && r.opt == c.opt
            && r.clock == c.clock.(tlpDeadlineMs := 0, tlpSent := false)
  {
    hide AckSample, Retransmit.Ack, Rtt.Sample, Retransmit.FastRetransmit, Before, Congestion.OnPartialAck,
      Congestion.OnAck;
  }

  lemma TextNumbers(c: Conn, s: Seg)
    ensures var r := OnText(c, s).0; r.send == c.send && r.opt == c.opt && r.clock == c.clock
  {
    hide Reassembly.Recv, Add, Before, After, Has, BareAck, AckOptions;
  }

  /** The handler of ESTABLISHED and CLOSE_WAIT. */
  lemma OpenNumbers(c: Conn, s: Seg, env: Env, now: nat)
    requires c.state == Established || c.state == CloseWait
    ensures var r := OnOpen(c, s, env, now).0;
            var c2 := if Paws(c, s) then c else Refresh(c, s);
            var moves := !Paws(c, s) && Has(s.flags, ACK) && AckAcceptable(Refresh(c, s), s.ackno)
                       && Between(c.send.una, s.ackno, c.send.nxt);
            && r.send == c2.send.(una := if moves then s.ackno else c.send.una) && r.opt == c2.opt
            && r.clock == c.clock.(tlpDeadlineMs := if moves then 0 else c.clock.tlpDeadlineMs,
                                   tlpSent := !moves && c.clock.tlpSent,
                                   challengeBudget := r.clock.challengeBudget, challengeWindowMs := r.clock.challengeWindowMs)
  {
    var c2 := Refresh(c, s);
    assert c2.clock == c.clock && c2.send.una == c.send.una && c2.send.nxt == c.send.nxt by { hide Scaled, After; }
    hide Refresh, OnAckField, OnText, Paws, Has, BareAck, AckAcceptable, Between;
    FieldNumbers(c2, s, c.send.wnd, env, now);
    TextNumbers(OnAckField(c2, s, c.send.wnd, env, now).0, s);
    TextNumbers(c2, s);
  }

  /** The segment acknowledges something new and acceptable. */
  predicate NewAck(c: Conn, s: Seg) {
    !Paws(c, s) && Has(s.flags, ACK) && AckAcceptable(Refresh(c, s), s.ackno) && Between(c.send.una, s.ackno, c.send.nxt)
  }

  /** The same in numbers. */
  predicate Opened(c: Conn, s: Seg, o: Conn) {
    var wnd := if Paws(c, s) then c.send.wnd else s.window * TimerHistory.Pow2(c.opt.sndWscale);
    && o.send.una == (if NewAck(c, s) then s.ackno else c.send.una) && o.send.nxt == c.send.nxt && o.send.iss == c.send.iss
    && o.send.wnd == wnd && o.send.maxWnd == (if Paws(c, s) then c.send.maxWnd else Max(c.send.maxWnd, wnd))
    && o.opt == c.opt.(tsRecent := if !Paws(c, s) && c.opt.tsEnabled && s.opts.ts.Some? && !After(s.seqno, c.recv.nxt)
                                   then s.opts.ts.value.val else c.opt.tsRecent)
    && o.clock == c.clock.(tlpDeadlineMs := if NewAck(c, s) then 0 else c.clock.tlpDeadlineMs,
                           tlpSent := !NewAck(c, s) && c.clock.tlpSent,
                           challengeBudget := o.clock.challengeBudget, challengeWindowMs := o.clock.challengeWindowMs)
  }

  lemma OpenedExactly(c: Conn, s: Seg, env: Env, now: nat)
    requires c.state == Established || c.state == CloseWait
    ensures Opened(c, s, OnOpen(c, s, env, now).0)
  {
    hide OnOpen, Refresh, Paws, Has, AckAcceptable, Between, After, TimerHistory.Pow2;
    OpenNumbers(c, s, env, now);
    RefreshExactly(c, s);
  }

  predicate AllNumbers(c: Conn, s: Seg, now: nat, c': Conn) {
    Numbers(c, s, c') && Clocks(c, s, now, c') && (c.state != SynSent ==> Dates(c, s, now, c'))
  }

  lemma OpenedNumbers(c: Conn, s: Seg, now: nat, e: Conn, o: Conn)
    requires Opened(e, s, o)
    requires e.send == c.send && e.opt == c.opt.(tsVal := Low32(now)) && e.recv == c.recv
    requires e.clock == c.clock.(lastActiveMs := now, keepaliveProbes := 0)
    requires (c.state == Established || c.state == CloseWait) && !Has(s.flags, RST) && !Has(s.flags, SYN)
    requires Paws(e, s) == Paws(c, s) && NewAck(e, s) == Advances(c, s)
    ensures AllNumbers(c, s, now, o)
  {
    OpenNeverWaits(c, s);
    hide Paws, NewAck, Advances, Has, After, TimerHistory.Pow2, Became;
  }

  lemma OpenNeverWaits(c: Conn, s: Seg)
    requires (c.state == Established || c.state == CloseWait) && !Has(s.flags, RST)
    ensures Became(c, s) != TimeWait
  {
    hide Has, FinishesOpen;
  }

  /** The open states. */
  lemma OpenAll(c: Conn, s: Seg, env: Env, now: nat)
    requires (c.state == Established || c.state == CloseWait) && !Has(s.flags, RST) && !Has(s.flags, SYN)
    ensures AllNumbers(c, s, now, OnSegment(c, s, env, now).0)
  {
    var c1 := Arrive(c, now);
    assert c1.state == c.state && c1.send == c.send && c1.opt == c.opt.(tsVal := Low32(now)) && c1.recv == c.recv;
    assert c1.clock == c.clock.(lastActiveMs := now, keepaliveProbes := 0);
    hide OnOpen, Arrive, Paws, Has, MaybeChallenge, OnRst, OnSynSent, Establish, Opened, AllNumbers;
    OpenedExactly(c1, s, env, now);
    ArrivedSame(c, s, now);
    NewIsAdvance(c, s, now);
    OpenedNumbers(c, s, now, c1, OnOpen(c1, s, env, now).0);
  }

  lemma NewIsAdvance(c: Conn, s: Seg, now: nat)
    requires (c.state == Established || c.state == CloseWait) && !Has(s.flags, RST) && !Has(s.flags, SYN)
    ensures NewAck(Arrive(c, now), s) == Advances(c, s)
  {
    assert Arrive(c, now).state == c.state;
    hide Arrive, Paws, Has, Refresh, AckAcceptable, Between;
    SameTests(c, s, now);
  }

  lemma HandshakeNumbers(c: Conn, s: Seg, now: nat, e: Conn, o: Conn)
    requires Opened(e, s, o) && c.state == SynRcvd && !Has(s.flags, RST) && AcksAll(c, s)
    requires e.send == c.send.(una := s.ackno) && e.opt == c.opt.(tsVal := Low32(now)) && e.recv == c.recv
    requires e.clock == c.clock.(lastActiveMs := now, keepaliveProbes := 0) && Paws(e, s) == Paws(c, s)
    ensures AllNumbers(c, s, now, o)
  {
    NotItself(e.send.una, s.ackno);
    assert !NewAck(e, s) && !Advances(c, s) by { hide Paws, Has, AckAcceptable, Refresh, Between; }
    assert Became(c, s) != TimeWait by { hide FinishesAtOnce, Has; }
    hide Paws, NewAck, Advances, Has, After, TimerHistory.Pow2, Became;
  }

  /** The last segment of a passive handshake. */
  lemma HandshakeAll(c: Conn, s: Seg, env: Env, now: nat)
    requires c.state == SynRcvd && !Has(s.flags, RST) && AcksAll(c, s)
    ensures AllNumbers(c, s, now, OnSegment(c, s, env, now).0)
  {
    var c1 := Arrive(c, now);
    var e := Establish(c1, s, now);
    assert e.state == Established && e.send == c.send.(una := s.ackno) && e.opt == c.opt.(tsVal := Low32(now))
           && e.recv == c.recv && e.clock == c.clock.(lastActiveMs := now, keepaliveProbes := 0) by {
      hide Retransmit.Ack;
    }
    assert Paws(e, s) == Paws(c, s) by { hide Before, Establish; }
    assert c1.state == c.state && c1.send == c.send;
    hide OnOpen, Has, MaybeChallenge, OnRst, OnSynSent, Establish, Arrive, Opened, AllNumbers, Paws;
    OpenedExactly(e, s, env, now);
    HandshakeNumbers(c, s, now, e, OnOpen(e, s, env, now).0);
  }

  /** The states in which nothing but the state and the queue may move. */
  lemma RestAll(c: Conn, s: Seg, env: Env, now: nat)
    requires Has(s.flags, RST) || c.state == LastAck || c.state == Closing || c.state == TimeWait || c.state == Closed
             || (Has(s.flags, SYN) && Synchronized(c.state)) || (c.state == SynRcvd && !AcksAll(c, s))
    ensures AllNumbers(c, s, now, OnSegment(c, s, env, now).0)
  {
    hide Has, Retransmit.Ack, InWindow, BareAck, OnOpen, OnFinWait1, OnFinWait2, OnSynSent, AckAcceptable, Between,
      Paws, After,
      FinishesOpen, FinishesAtOnce, Replies.FinArrives, Establish, TimerHistory.Pow2, Refresh, Low32;
  }

  lemma FinWaitAll(c: Conn, s: Seg, env: Env, now: nat)
    requires (c.state == FinWait1 || c.state == FinWait2) && !Has(s.flags, RST) && !Has(s.flags, SYN)
    ensures AllNumbers(c, s, now, OnSegment(c, s, env, now).0)
  {
    hide OnSegment, Deliver, WithData, Has, FinTail, Became, TimerHistory.Pow2, After, Low32, AcksAll, FinHeard, Paws;
    FinWaitCases(c, s, env, now);
    FinTailClock(WithData(c, s, now), s, FinHeard(c, s), now);
    FinWaitState(c, s, env, now);
  }

  lemma FinTailClock(d: Conn, s: Seg, finAcked: bool, now: nat)
    requires d.state == FinWait1 || d.state == FinWait2
    ensures var r := FinTail(d, s, finAcked, now).0;
            && r.send == d.send && r.opt == d.opt && r.clock == d.clock.(timeWaitMs := r.clock.timeWaitMs)
            && r.clock.timeWaitMs == (if r.state == TimeWait then now else d.clock.timeWaitMs)
  {
    hide Has, Add, BareAck;
  }

  lemma OpeningAll(c: Conn, s: Seg, env: Env, now: nat)
    requires c.state == SynSent && !Has(s.flags, RST)
    ensures AllNumbers(c, s, now, OnSegment(c, s, env, now).0)
  {
    hide Has, Retransmit.Ack, Add, BareAck, Paws, After, TimerHistory.Pow2, Refresh, FinishesOpen, FinishesAtOnce,
      Replies.FinArrives, Low32;
  }

  /** Any segment, in any state: where SND.UNA and the windows stand after it (the window shifted left by the negotiated
      scale), what the clocks say, and what TS.Recent is. */
  lemma NumbersExactly(c: Conn, s: Seg, env: Env, now: nat)
    ensures AllNumbers(c, s, now, OnSegment(c, s, env, now).0)
  {
    hide OnSegment, Has, AllNumbers;
    if Has(s.flags, RST) || (Has(s.flags, SYN) && Synchronized(c.state)) {
      RestAll(c, s, env, now);
    } else if c.state == SynSent {
      OpeningAll(c, s, env, now);
    } else if c.state == SynRcvd && AcksAll(c, s) {
      HandshakeAll(c, s, env, now);
    } else if c.state == Established || c.state == CloseWait {
      OpenAll(c, s, env, now);
    } else if c.state == FinWait1 || c.state == FinWait2 {
      FinWaitAll(c, s, env, now);
    } else {
      RestAll(c, s, env, now);
    }
  }

  /** TS.Recent never goes back. */
  lemma RecentForward(c: Conn, s: Seg, env: Env, now: nat)
    requires c.state != SynSent
    ensures !Before(OnSegment(c, s, env, now).0.opt.tsRecent, c.opt.tsRecent)
  {
    NumbersExactly(c, s, env, now);
    hide OnSegment, Numbers, Clocks, Has, After, TimerHistory.Pow2;
  }

  // ---- the receiving half ----

  /** The segment's data and FIN are looked at. */
  predicate TakesData(c: Conn, s: Seg) {
    && !Has(s.flags, RST)
    && match c.state
       case SynRcvd => AcksAll(c, s) && !Paws(c, s)
       case Established => !Has(s.flags, SYN) && !Paws(c, s) && !StopsAtAck(c, s)
       case CloseWait => !Has(s.flags, SYN) && !Paws(c, s) && !StopsAtAck(c, s)
       case FinWait1 => !Has(s.flags, SYN)
       case FinWait2 => !Has(s.flags, SYN)
       case _ => false
  }

  /** The FIN it looks at, or one deferred before, is consumed. */
  predicate TakesFin(c: Conn, s: Seg) {
    && TakesData(c, s)
    && if c.state == FinWait1 || c.state == FinWait2 then Replies.FinArrives(c, s)
       else c.state != CloseWait && CompletesFin(c, s)
  }

  /** The FIN the connection defers: one it has looked at and not reached yet. */
  function Deferred(c: Conn, s: Seg): Option<u32> {
    var fin := Add(s.seqno, Low32(|s.payload|));
    if !TakesData(c, s) || (c.state != SynRcvd && c.state != Established) then c.pendingFin
    else if CompletesFin(c, s) then None
    else if Has(s.flags, FIN) && !Before(fin, Deliver(c, s.seqno, s.payload).recv.nxt) then Some(fin)
    else c.pendingFin
  }

  /** The receiving half after the segment. */
  predicate Received(c: Conn, s: Seg, c': Conn) {
    var d := if TakesData(c, s) then Deliver(c, s.seqno, s.payload) else c;
    && c'.reasm == d.reasm && c'.recvBuf == d.recvBuf
    && c'.recv == d.recv.(nxt := if TakesFin(c, s) then Add(d.recv.nxt, 1) else d.recv.nxt)
    && c'.peerFin == (c.peerFin || TakesFin(c, s)) && c'.pendingFin == Deferred(c, s)
  }

  /** The same for the handling of data itself. */
  predicate TextReceived(c: Conn, s: Seg, c': Conn) {
    var d := Deliver(c, s.seqno, s.payload);
    var fin := Add(s.seqno, Low32(|s.payload|));
    var eof := c.state == Established && CompletesFin(c, s);
    && c'.reasm == d.reasm && c'.recvBuf == d.recvBuf
    && c'.recv == d.recv.(nxt := if eof then Add(d.recv.nxt, 1) else d.recv.nxt)
    && c'.peerFin == (c.peerFin || eof)
    && c'.pendingFin == if c.state != Established then c.pendingFin else if eof then None
                        else if Has(s.flags, FIN) && !Before(fin, d.recv.nxt) then Some(fin) else c.pendingFin
  }

  lemma TextReceiver(c: Conn, s: Seg)
    requires c.state == Established || c.state == CloseWait
    ensures TextReceived(c, s, OnText(c, s).0)
  {
    var d := Deliver(c, s.seqno, s.payload);
    assert d.state == c.state && d.pendingFin == c.pendingFin && d.peerFin == c.peerFin by {
      hide Reassembly.Recv;
    }
    hide Deliver, Add, Low32, Before, After, Has, BareAck, AckOptions;
  }

  /** Two connections with the same receiving half. */
  predicate SameHalf(c: Conn, d: Conn) {
    d.recv == c.recv && d.reasm == c.reasm && d.recvBuf == c.recvBuf && d.pendingFin == c.pendingFin && d.peerFin == c.peerFin
  }

  lemma SameText(c: Conn, d: Conn, s: Seg, r: Conn)
    requires SameHalf(c, d) && d.state == c.state && TextReceived(d, s, r)
    ensures TextReceived(c, s, r)
  {
    SameDelivery(c, d, s);
    assert Deliver(d, s.seqno, s.payload).recv == Deliver(c, s.seqno, s.payload).recv
           && Deliver(d, s.seqno, s.payload).reasm == Deliver(c, s.seqno, s.payload).reasm
           && Deliver(d, s.seqno, s.payload).recvBuf == Deliver(c, s.seqno, s.payload).recvBuf by { hide Reassembly.Recv; }
    hide CompletesFin, Deliver, Before, Has, Low32, Add;
  }

  lemma FieldHalf(c: Conn, s: Seg, prevWnd: u32, env: Env, now: nat)
    ensures SameHalf(c, OnAckField(c, s, prevWnd, env, now).0)
  {
    AckKeepsReceiver(c, s, prevWnd, env, now);
    Delivery.AckKeepsBuffer(c, s, prevWnd, env, now);
    AckFieldHandled(c, s, prevWnd, env, now);
    hide OnAckField, Handled;
  }

  lemma ArrivedHalf(c: Conn, s: Seg, now: nat)
    ensures var c1 := Arrive(c, now);
            SameHalf(c, c1) && c1.state == c.state && SameHalf(c, Refresh(c1, s)) && Refresh(c1, s).state == c.state
  {
    hide Scaled, After;
  }

  lemma FromText(c: Conn, s: Seg, r: Conn)
    requires (c.state == Established || c.state == CloseWait) && TakesData(c, s) && TextReceived(c, s, r)
    ensures Received(c, s, r)
  {
    hide TakesData, CompletesFin, Deliver, Before, Has, Low32, Add;
  }

  lemma NotTaken(c: Conn, s: Seg, r: Conn)
    requires !TakesData(c, s) && SameHalf(c, r)
    ensures Received(c, s, r)
  {
    hide TakesData, CompletesFin, Deliver, Before, Has, Low32, Add;
  }

  lemma HalfTwice(c: Conn, d: Conn, e: Conn)
    requires SameHalf(c, d) && SameHalf(d, e)
    ensures SameHalf(c, e)
  {
  }

  /** The open states. */
  lemma OpenReceived(c: Conn, s: Seg, env: Env, now: nat)
    requires (c.state == Established || c.state == CloseWait) && !Has(s.flags, RST) && !Has(s.flags, SYN)
    ensures Received(c, s, OnSegment(c, s, env, now).0)
  {
    var c1 := Arrive(c, now);
    var c2 := Refresh(c1, s);
    var r := if Has(s.flags, ACK) then OnAckField(c2, s, c1.send.wnd, env, now).0 else c2;
    hide OnSegment, Arrive, Refresh, OnAckField, OnText, Paws, Has, StopsAtAck, BareAck, Received, TextReceived,
      SameHalf;
    OpenCases(c, s, env, now);
    ArrivedHalf(c, s, now);
    FieldHalf(c2, s, c1.send.wnd, env, now);
    HalfTwice(c, c2, r);
    AckKeepsReceiver(c2, s, c1.send.wnd, env, now);
    if TakesData(c, s) {
      TextReceiver(r, s);
      SameText(c, r, s, OnText(r, s).0);
      FromText(c, s, OnText(r, s).0);
    } else {
      NotTaken(c, s, OnSegment(c, s, env, now).0);
    }
  }

  /** Data with the last segment of a passive handshake. */
  lemma HandshakeReceived(c: Conn, s: Seg, env: Env, now: nat)
    requires c.state == SynRcvd && !Has(s.flags, RST) && AcksAll(c, s)
    ensures Received(c, s, OnSegment(c, s, env, now).0)
  {
    var c1 := Arrive(c, now);
    var e := Establish(c1, s, now);
    var e2 := Refresh(e, s);
    assert e.state == Established && e.send.una == s.ackno == e.send.nxt && SameHalf(c, e) by { hide Retransmit.Ack; }
    assert SameHalf(e, e2) && e2.state == e.state by { hide Scaled, After, Establish; }
    assert Paws(e, s) == Paws(c, s) by { hide Before; }
    assert c1.state == c.state && c1.send == c.send;
    hide OnOpen, Has, MaybeChallenge, OnRst, OnSynSent, Establish, Arrive, Paws, Received, SameHalf;
    EstablishedReceived(e, s, env, now);
    FromHandshake(c, s, e, OnOpen(e, s, env, now).0);
  }

  lemma EstablishedReceived(e: Conn, s: Seg, env: Env, now: nat)
    requires e.state == Established && Has(s.flags, ACK) && e.send.una == s.ackno == e.send.nxt
    ensures var o := OnOpen(e, s, env, now).0; if Paws(e, s) then SameHalf(e, o) else TextReceived(e, s, o)
  {
    var e2 := Refresh(e, s);
    var r := OnAckField(e2, s, e.send.wnd, env, now).0;
    assert SameHalf(e, e2) && e2.state == e.state by { hide Scaled, After; }
    assert SameHalf(e, e);
    hide Refresh, OnAckField, OnText, Paws, Has, StopsAtAck, BareAck, TextReceived, SameHalf;
    NeverStopsIdle(e, s);
    StopsExactly(e, s, env, now);
    FieldHalf(e2, s, e.send.wnd, env, now);
    AckKeepsReceiver(e2, s, e.send.wnd, env, now);
    HalfTwice(e, e2, r);
    TextReceiver(r, s);
    SameText(e, r, s, OnText(r, s).0);
  }

  lemma FromHandshake(c: Conn, s: Seg, e: Conn, o: Conn)
    requires c.state == SynRcvd && !Has(s.flags, RST) && AcksAll(c, s) && SameHalf(c, e) && e.state == Established
    requires if Paws(c, s) then SameHalf(e, o) else TextReceived(e, s, o)
    ensures Received(c, s, o)
  {
    SameDelivery(c, e, s);
    assert Deliver(e, s.seqno, s.payload).recv == Deliver(c, s.seqno, s.payload).recv
           && Deliver(e, s.seqno, s.payload).reasm == Deliver(c, s.seqno, s.payload).reasm
           && Deliver(e, s.seqno, s.payload).recvBuf == Deliver(c, s.seqno, s.payload).recvBuf by { hide Reassembly.Recv; }
    hide CompletesFin, Deliver, Before, Has, Low32, Add, Paws;
  }

  lemma FinWaitReceived(c: Conn, s: Seg, env: Env, now: nat)
    requires (c.state == FinWait1 || c.state == FinWait2) && !Has(s.flags, RST) && !Has(s.flags, SYN)
    ensures Received(c, s, OnSegment(c, s, env, now).0)
  {
    hide OnSegment, Deliver, WithData, FinTail, Has, Low32, Add, FinHeard, CompletesFin, Before, AcksAll, Paws,
      StopsAtAck;
    FinWaitCases(c, s, env, now);
    FinTailReceiver(WithData(c, s, now), s, FinHeard(c, s), now);
  }

  lemma FinTailReceiver(d: Conn, s: Seg, finAcked: bool, now: nat)
    ensures var r := FinTail(d, s, finAcked, now).0;
            var eof := Has(s.flags, FIN) && Add(s.seqno, Low32(|s.payload|)) == d.recv.nxt;
            && r.reasm == d.reasm && r.recvBuf == d.recvBuf && r.pendingFin == d.pendingFin && r.peerFin == (d.peerFin || eof)
            && r.recv == d.recv.(nxt := if eof then Add(d.recv.nxt, 1) else d.recv.nxt)
  {
    hide Has, Add, Low32, BareAck;
  }

  lemma RestReceived(c: Conn, s: Seg, env: Env, now: nat)
    requires c.state != SynSent || Has(s.flags, RST)
    requires Has(s.flags, RST) || c.state == LastAck || c.state == Closing || c.state == TimeWait || c.state == Closed
             || (Has(s.flags, SYN) && Synchronized(c.state)) || (c.state == SynRcvd && !AcksAll(c, s))
    ensures SameHalf(c, OnSegment(c, s, env, now).0) && !TakesData(c, s)
  {
    hide Has, Retransmit.Ack, InWindow, BareAck, OnOpen, OnFinWait1, OnFinWait2, OnSynSent, Paws, Establish, StopsAtAck;
  }

  /** Any segment of a connection past SYN_SENT: what is buffered, what the application can read, where RCV.NXT stands,
      whether end of file is known, and which FIN is deferred. */
  lemma ReceiverExactly(c: Conn, s: Seg, env: Env, now: nat)
    requires c.state != SynSent
    ensures Received(c, s, OnSegment(c, s, env, now).0)
  {
    hide OnSegment, Has, Received, TakesData, SameHalf, AcksAll;
    if Has(s.flags, RST) || (Has(s.flags, SYN) && Synchronized(c.state)) {
      RestReceived(c, s, env, now);
      NotTaken(c, s, OnSegment(c, s, env, now).0);
    } else if c.state == SynRcvd && AcksAll(c, s) {
      HandshakeReceived(c, s, env, now);
    } else if c.state == Established || c.state == CloseWait {
      OpenReceived(c, s, env, now);
    } else if c.state == FinWait1 || c.state == FinWait2 {
      FinWaitReceived(c, s, env, now);
    } else {
      RestReceived(c, s, env, now);
      NotTaken(c, s, OnSegment(c, s, env, now).0);
    }
  }
}
