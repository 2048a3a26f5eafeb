/** Challenge ACKs over whole runs (section 7 of RFC 5961): which segments draw one, and how many can be drawn. */
module Challenges {
  import opened Types
  import opened SeqNum
  import opened Segments
  import opened Connection
  import opened Calls
  import opened Lifecycle
  import opened AckField
  import opened NewReno
  import Retransmit
  import Reassembly
  import Congestion
  import Rtt

  /** The segments the code answers with a challenge ACK: a RST in the window that misses RCV.NXT, a SYN on a
      synchronized connection, an acknowledgement outside the acceptable range. */
  predicate Provokes(c: Conn, s: Seg) {
    if Has(s.flags, RST) then
      c.state != SynSent && c.state != TimeWait && s.seqno != c.recv.nxt && InWindow(c, s.seqno)
    else if Has(s.flags, SYN) && Synchronized(c.state) then true
    else
      && (c.state == Established || c.state == CloseWait)
      && !Paws(c, s) && Has(s.flags, ACK) && !AckAcceptable(Refresh(c, s), s.ackno)
  }

  predicate SameBudget(c: Conn, c': Conn) {
    c'.clock.challengeBudget == c.clock.challengeBudget && c'.clock.challengeWindowMs == c.clock.challengeWindowMs
  }

  /** One request for a challenge ACK at time now: a fresh budget once a second, and one unit spent if there is one. */
  predicate Charged(c: Conn, c': Conn, granted: bool, budget: Budget, now: nat) {
    var renewed := SatSub(now, c.clock.challengeWindowMs) >= CHALLENGE_WINDOW_MS || now < c.clock.challengeWindowMs;
    var have := if renewed then budget else c.clock.challengeBudget;
    && (granted <==> have > 0) && c'.clock.challengeBudget == (if have > 0 then have - 1 else 0)
    && c'.clock.challengeWindowMs == (if renewed then now else c.clock.challengeWindowMs)
  }

  lemma ChallengeCharges(c: Conn, env: Env, now: nat)
    ensures var r := MaybeChallenge(c, env, now); Charged(c, r.0, r.1.Some?, env.budget, now)
  {
    hide BareAck;
  }

  // ---- segment by segment ----

  lemma AckFieldBudget(c: Conn, s: Seg, prevWnd: u32, env: Env, now: nat)
    requires AckAcceptable(c, s.ackno)
    ensures SameBudget(c, OnAckField(c, s, prevWnd, env, now).0)
  {
    AckFieldUnfold(c, s, prevWnd, env, now);
    var m := Marked(c, s);
    assert m.clock == c.clock by { hide Retransmit.MarkSacked; }
    NewAckBudget(m, s, env, now);
    assert OnDuplicateAck(m, now).0.clock == m.clock by { hide Retransmit.FastRetransmit, Congestion.OnDupAck; }
    hide OnAckField, OnNewAck, OnDuplicateAck, Marked, AckAcceptable, Between;
  }

  lemma NewAckBudget(c: Conn, s: Seg, env: Env, now: nat)
    ensures SameBudget(c, OnNewAck(c, s, env, now).0)
  {
    hide AckSample, Retransmit.Ack, Rtt.Sample, Retransmit.FastRetransmit, Before, Congestion.OnPartialAck,
      Congestion.OnAck;
  }

  lemma TextBudget(c: Conn, s: Seg)
    ensures OnText(c, s).0.clock == c.clock
  {
    hide Reassembly.Recv, Add, Before, After, Has, BareAck, AckOptions;
  }

  lemma OpenBudget(c: Conn, s: Seg, env: Env, now: nat)
    requires c.state == Established || c.state == CloseWait
    ensures var r := OnOpen(c, s, env, now);
            if !Paws(c, s) && Has(s.flags, ACK) && !AckAcceptable(Refresh(c, s), s.ackno)
            then Charged(c, r.0, r.1.Some?, env.budget, now) else SameBudget(c, r.0)
  {
    var c1 := Refresh(c, s);
    assert c1.clock == c.clock by { hide Scaled, After; }
    hide Refresh, Paws, Has, OnText, BareAck, AckAcceptable;
    var r := OnAckField(c1, s, c.send.wnd, env, now);
    if !AckAcceptable(c1, s.ackno) {
      ChallengeCharges(c1, env, now);
      assert r == (MaybeChallenge(c1, env, now).0, MaybeChallenge(c1, env, now).1, true);
    } else {
      AckFieldBudget(c1, s, c.send.wnd, env, now);
    }
    hide OnAckField, MaybeChallenge;
    TextBudget(r.0, s);
    TextBudget(c1, s);
  }

  lemma EstablishBudget(c: Conn, s: Seg, env: Env, now: nat)
    requires c.state == SynRcvd && Has(s.flags, ACK) && s.ackno == c.send.nxt
    ensures SameBudget(c, OnSynced(Establish(c, s, now), s, env, now).0)
  {
    var c1 := Establish(c, s, now);
    assert c1.clock == c.clock && c1.state == Established && c1.send.una == s.ackno == c1.send.nxt by {
      hide Retransmit.Ack;
    }
    assert AckAcceptable(Refresh(c1, s), s.ackno) by { RefreshKeeps(c1, s); }
    hide Establish, Refresh, OnOpen, AckAcceptable, Has;
    OpenBudget(c1, s, env, now);
  }

  lemma ClosingBudget(c: Conn, s: Seg, env: Env, now: nat)
    requires c.state != SynSent && c.state != SynRcvd && c.state != Established && c.state != CloseWait
    ensures SameBudget(c, OnSynced(c, s, env, now).0)
  {
    hide Has, Retransmit.Ack, Reassembly.Recv, BareAck, Add;
  }

  lemma SynSentBudget(c: Conn, s: Seg, now: nat)
    ensures OnSynSent(c, s, now).0.clock == c.clock
  {
    hide Has, Retransmit.Ack, BareAck, Add;
  }

  lemma DispatchBudget(c: Conn, s: Seg, env: Env, now: nat)
    ensures var r := Dispatch(c, s, env, now);
            if Provokes(c, s) then Charged(c, r.0, r.1.Some?, env.budget, now) else SameBudget(c, r.0)
  {
    hide Has, OnSynced, Establish, MaybeChallenge, OnSynSent, Paws, InWindow, Refresh, AckAcceptable, Charged;
    ChallengeCharges(c, env, now);
    if !Has(s.flags, RST) {
      if c.state == SynSent {
        SynSentBudget(c, s, now);
      } else if c.state == SynRcvd {
        if Has(s.flags, ACK) && s.ackno == c.send.nxt {
          EstablishBudget(c, s, env, now);
        }
      } else if c.state == Established || c.state == CloseWait {
        OpenBudget(c, s, env, now);
        OpenSynced(c, s, env, now);
      } else {
        ClosingBudget(c, s, env, now);
      }
    }
  }

  lemma OpenSynced(c: Conn, s: Seg, env: Env, now: nat)
    requires c.state == Established || c.state == CloseWait
    ensures OnSynced(c, s, env, now) == OnOpen(c, s, env, now)
  {
    hide OnOpen;
  }

  /** The call is a segment answered with a challenge ACK. */
  predicate Challenged(c: Conn, e: Event) {
    e.ReceiveEvent? && Provokes(c, e.p) && OnSegment(c, e.p, e.env, e.now).1.Some?
  }

  /** The budget is charged by exactly the provoking segments, and no other call touches it. */
  lemma CallBudget(c: Conn, e: Event)
    ensures var c' := Apply(c, e).0;
            if e.ReceiveEvent? && Provokes(c, e.p) then Charged(c, c', Challenged(c, e), e.env.budget, e.now) else SameBudget(c, c')
  {
    if e.ReceiveEvent? {
      var c1 := Arrive(c, e.now);
      assert Provokes(c1, e.p) == Provokes(c, e.p) && SameBudget(c, c1) by { hide Has, Before, Add, After, Scaled; }
      DispatchBudget(c1, e.p, e.env, e.now);
      hide Dispatch, Provokes, Arrive;
    } else {
      hide OnTick, PollTransmit, Segment, Provokes;
      match e {
        case TickEvent(now) => TickState(c, now);
        case PollEvent(now) => PollState(c, now);
        case CloseEvent(now) => CloseState(c, now);
        case _ =>
      }
    }
  }

  // ---- whole runs ----

  /** How many of the calls draw a challenge ACK. */
  function Granted(c: Conn, es: seq<Event>): nat {
    if es == [] then 0 else
      var n := |es| - 1;
      Granted(c, es[..n]) + if Challenged(Driven(c, es[..n]), es[n]) then 1 else 0
  }

  /** The segments among the calls arrive at non-decreasing times between from and to. */
  ghost predicate Timed(es: seq<Event>, from: nat, to: nat) {
    && (forall i :: 0 <= i < |es| && es[i].ReceiveEvent? ==> from <= es[i].now <= to)
    && (forall i, j :: 0 <= i < j < |es| && es[i].ReceiveEvent? && es[j].ReceiveEvent? ==> es[i].now <= es[j].now)
  }

  lemma TimedPrefix(es: seq<Event>, from: nat, to: nat)
    requires Timed(es, from, to) && es != [] && from <= to
    ensures var n := |es| - 1;
            Timed(es[..n], from, to) && (es[n].ReceiveEvent? ==> Timed(es[..n], from, es[n].now) && from <= es[n].now <= to)
  {
  }

  lemma {:induction false} GrantedBound(c: Conn, es: seq<Event>, to: nat) returns (windows: nat)
    requires Timed(es, c.clock.challengeWindowMs, to) && c.clock.challengeWindowMs <= to
    ensures var r := Driven(c, es);
            && Granted(c, es) + r.clock.challengeBudget <= c.clock.challengeBudget + CHALLENGE_ACK_MAX * windows
            && c.clock.challengeWindowMs + CHALLENGE_WINDOW_MS * windows <= r.clock.challengeWindowMs <= to
  {
    windows := 0;
    if es != [] {
      var n := |es| - 1;
      var front := Driven(c, es[..n]);
      TimedPrefix(es, c.clock.challengeWindowMs, to);
      CallBudget(front, es[n]);
      DrivenStep(c, es);
      hide Apply, Challenged, Charged, Timed, Provokes;
      if es[n].ReceiveEvent? && Provokes(front, es[n].p) {
        windows := GrantedBound(c, es[..n], es[n].now);
        windows := OneCharge(front, Driven(c, es), Challenged(front, es[n]), es[n].env.budget, es[n].now, windows);
      } else {
        windows := GrantedBound(c, es[..n], to);
        assert !Challenged(front, es[n]) by { NotProvoked(front, es[n]); }
      }
    }
  }

  lemma NotProvoked(c: Conn, e: Event)
    requires !(e.ReceiveEvent? && Provokes(c, e.p))
    ensures !Challenged(c, e)
  {
    hide Provokes, OnSegment;
  }

  lemma OneCharge(c: Conn, c': Conn, granted: bool, budget: Budget, now: nat, windows: nat) returns (w: nat)
    requires Charged(c, c', granted, budget, now) && c.clock.challengeWindowMs <= now
    ensures windows <= w <= windows + 1
    ensures (if granted then 1 else 0) + c'.clock.challengeBudget <=
            c.clock.challengeBudget + CHALLENGE_ACK_MAX * (w - windows)
    ensures c.clock.challengeWindowMs + CHALLENGE_WINDOW_MS * (w - windows) <= c'.clock.challengeWindowMs <= now
  {
    w := if SatSub(now, c.clock.challengeWindowMs) >= CHALLENGE_WINDOW_MS then windows + 1 else windows;
  }

  /** Whatever is thrown at a connection, in whatever mix with writes, polls and timers: while the clock its
      segments see does not run backwards, it sends at most its budget plus five challenge ACKs per whole second. */
  lemma ChallengesRationed(c: Conn, es: seq<Event>, to: nat)
    requires Timed(es, c.clock.challengeWindowMs, to) && c.clock.challengeWindowMs <= to
    ensures Granted(c, es) <= c.clock.challengeBudget +
                              CHALLENGE_ACK_MAX * ((to - c.clock.challengeWindowMs) / CHALLENGE_WINDOW_MS)
  {
    hide Granted, Driven, Timed;
    var windows := GrantedBound(c, es, to);
    var r := Driven(c, es);
    WholeWindows(Granted(c, es), r.clock.challengeBudget, c.clock.challengeBudget, windows, r.clock.challengeWindowMs,
                 c.clock.challengeWindowMs, to);
  }

  lemma WholeWindows(granted: nat, left: nat, budget: nat, windows: nat, end: nat, start: nat, last: nat)
    requires granted + left <= budget + CHALLENGE_ACK_MAX * windows
    requires start + CHALLENGE_WINDOW_MS * windows <= end <= last
    ensures granted <= budget + CHALLENGE_ACK_MAX * ((last - start) / CHALLENGE_WINDOW_MS)
  {
  }
}
