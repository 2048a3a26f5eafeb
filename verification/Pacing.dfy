/** Pacing (src/tcp.rs, under BBR): one segment per poll, and the next one no sooner than the pacing rate allows, over
    any run. */
module Pacing {
  import opened Types
  import opened SeqNum
  import opened Segments
  import opened Connection
  import opened Calls
  import opened Lifecycle
  import Timeouts
  import Transitions
  import Retransmit
  import Congestion
  import Rtt

  /** The connection transmits and is paced. */
  predicate Paced(c: Conn) {
    (c.state == Established || c.state == CloseWait) && Congestion.PacingRate(c.cong) > 0.0
  }

  /** gap milliseconds at `rate` bytes a second carry n bytes, and one millisecond less does not (but one at least). */
  predicate Spacing(gap: int, rate: real, n: nat) {
    gap >= 1 && gap as real * rate >= n as real * 1000.0 && (gap == 1 || (gap - 1) as real * rate < n as real * 1000.0)
  }

  lemma CeilBounds(x: real)
    ensures Ceil(x) as real >= x && Ceil(x) as real < x + 1.0
  {
  }

  lemma Times(a: real, b: real, r: real)
    requires r > 0.0
    ensures a >= b / r ==> a * r >= b
    ensures a < b / r ==> a * r < b
  {
    assert b / r * r == b;
  }

  lemma GapSpaces(rate: real, n: nat)
    requires rate > 0.0
    ensures Spacing(Max(Ceil(n as real * 1000.0 / rate), 1), rate, n)
  {
    var x := n as real * 1000.0 / rate;
    CeilBounds(x);
    var gap := Max(Ceil(x), 1);
    Times(gap as real, n as real * 1000.0, rate);
    Times((gap - 1) as real, n as real * 1000.0, rate);
    hide Ceil;
  }

  /** With the gate shut nothing goes. */
  lemma GateShut(c: Conn, pacing: real, now: nat)
    requires pacing > 0.0 && now < c.clock.nextSendMs
    ensures FillWindow(c, pacing, now) == (c, [])
  {
    hide UsableWindow, FlightSize;
  }

  lemma OneSegment(c: Conn, pacing: real, now: nat)
    requires pacing > 0.0
    ensures var r := FillWindow(c, pacing, now);
            if r.1 == [] then r.0 == c
            else
              && |r.1| == 1 && now >= c.clock.nextSendMs && r.1[0].payload != []
              && Spacing(r.0.clock.nextSendMs - now, pacing, |r.1[0].payload|)
  {
    var n := NextSend(c, pacing, now);
    if c.sendBuf != [] && n != 0 {
      GateOpen(c, pacing, now);
      hide NextSend, FillWindow;
      var p := Pace(c, pacing, n, now);
      var t := Transmit(p, n, PSH + ACK, now);
      GapSpaces(pacing, n);
      SentFields(p, n, now);
      hide Spacing, Pace, Ceil, Transmit;
      Unfold(c, pacing, now, n);
      PacedAt(c, pacing, n, now);
      GateShut(t.0, pacing, now);
    }
  }

  lemma GateOpen(c: Conn, pacing: real, now: nat)
    requires pacing > 0.0 && NextSend(c, pacing, now) != 0
    ensures now >= c.clock.nextSendMs
  {
    hide UsableWindow, FlightSize;
  }

  lemma PacedAt(c: Conn, pacing: real, n: nat, now: nat)
    requires pacing > 0.0
    ensures var p := Pace(c, pacing, n, now);
            p.clock.nextSendMs == now + Max(Ceil(n as real * 1000.0 / pacing), 1) && p.sendBuf == c.sendBuf
  {
    hide Ceil;
  }

  lemma SentFields(c: Conn, n: nat, now: nat)
    requires n <= |c.sendBuf|
    ensures var t := Transmit(c, n, PSH + ACK, now);
            t.0.clock == c.clock && |t.1.payload| == n
  {
    hide TsOptions, Add, Sub, Low32;
  }

  lemma Unfold(c: Conn, pacing: real, now: nat, n: nat)
    requires c.sendBuf != [] && n == NextSend(c, pacing, now) && n != 0
    ensures n <= |c.sendBuf| == |Pace(c, pacing, n, now).sendBuf|
    ensures var t := Transmit(Pace(c, pacing, n, now), n, PSH + ACK, now);
            var rest := FillWindow(t.0, pacing, now);
            FillWindow(c, pacing, now) == (rest.0, [t.1] + rest.1)
  {
    hide UsableWindow, FlightSize, Ceil, Transmit;
  }

  lemma ProbeArmed(c: Conn, now: nat)
    ensures ArmProbe(c, now).clock.nextSendMs == c.clock.nextSendMs
  {
    hide FlightSize, Rtt.Rto;
  }

  /** One poll of a paced connection sends at most one segment, not before the time set, and sets the next time so
      that at the pacing rate the bytes it has sent are through by then, to the millisecond. */
  lemma PacedPoll(c: Conn, now: nat)
    requires Paced(c)
    ensures var r := PollTransmit(c, now);
            if r.1 == [] then r.0.clock.nextSendMs == c.clock.nextSendMs
            else
              && |r.1| == 1 && now >= c.clock.nextSendMs && r.1[0].payload != []
              && Spacing(r.0.clock.nextSendMs - now, Congestion.PacingRate(c.cong), |r.1[0].payload|)
  {
    var c1 := Stamped(c, now);
    assert c1.clock == c.clock && c1.cong == c.cong && c1.state == c.state;
    var rate := Congestion.PacingRate(c.cong);
    hide FillWindow, Spacing, ArmProbe, FillHoles, FillPipe, Stamped;
    OneSegment(c1, rate, now);
    ProbeArmed(FillWindow(c1, rate, now).0, now);
  }

  // ---- over runs ----

  lemma {:induction false} UnpacedFill(c: Conn, pacing: real, now: nat)
    requires pacing <= 0.0
    ensures FillWindow(c, pacing, now).0.clock == c.clock
    decreases |c.sendBuf|
  {
    hide Segment, UsableWindow, FlightSize, Add, Sub;
    if c.sendBuf != [] {
      var n := NextSend(c, pacing, now);
      hide NextSend;
      if n != 0 {
        UnpacedFill(Transmit(c, n, PSH + ACK, now).0, pacing, now);
      }
    }
  }

  lemma UnpacedPoll(c: Conn, now: nat)
    requires !Paced(c)
    ensures PollTransmit(c, now).0.clock.nextSendMs == c.clock.nextSendMs
  {
    var c1 := Stamped(c, now);
    assert c1.clock == c.clock && c1.cong == c.cong && c1.state == c.state;
    var holes := FillHoles(c1.retx, SendLimit(c1), now);
    FillPipeFrame(c1.(retx := holes.0), SendLimit(c1), now);
    hide FillPipe, FillHoles, SendLimit, ArmProbe, FillWindow, Stamped;
    if c.state == Established || c.state == CloseWait {
      UnpacedFill(c1, Congestion.PacingRate(c1.cong), now);
      ProbeArmed(FillWindow(c1, Congestion.PacingRate(c1.cong), now).0, now);
    }
  }

  /** The time set is moved on by a poll that sends, and kept by every other call. */
  lemma TimeAdvances(c: Conn, e: Event)
    ensures Apply(c, e).0.clock.nextSendMs >= c.clock.nextSendMs
  {
    hide OnSegment, OnTick, PollTransmit, Segment, Paced, Spacing;
    match e {
      case ReceiveEvent(s, env, now) => HeardTime(c, s, env, now);
      case TickEvent(now) => TickTime(c, now);
      case PollEvent(now) =>
        if Paced(c) {
          SpacingPositive(c, now);
        } else {
          UnpacedPoll(c, now);
        }
      case _ =>
    }
  }

  lemma SpacingPositive(c: Conn, now: nat)
    requires Paced(c)
    ensures PollTransmit(c, now).0.clock.nextSendMs >= c.clock.nextSendMs
  {
    PacedPoll(c, now);
    hide PollTransmit, Congestion.PacingRate;
  }

  lemma HeardTime(c: Conn, s: Seg, env: Env, now: nat)
    ensures OnSegment(c, s, env, now).0.clock.nextSendMs == c.clock.nextSendMs
  {
    Transitions.NumbersExactly(c, s, env, now);
    hide OnSegment, Transitions.Numbers, Transitions.Dates, Transitions.Became;
  }

  lemma TickTime(c: Conn, now: nat)
    ensures OnTick(c, now).0.clock.nextSendMs == c.clock.nextSendMs
  {
    var _, _, _, _ := Timeouts.TickExactly(c, now);
    hide OnTick, Timeouts.ResentAll, Timeouts.Shut, Timeouts.PersistDue, Timeouts.KeepaliveDue;
  }

  lemma {:induction false} TimeOfRun(c: Conn, es: seq<Event>)
    ensures Driven(c, es).clock.nextSendMs >= c.clock.nextSendMs
  {
    if es != [] {
      var n := |es| - 1;
      TimeOfRun(c, es[..n]);
      TimeAdvances(Driven(c, es[..n]), es[n]);
      DrivenStep(c, es);
      hide Driven, Apply;
    }
  }

  /** In any run, whatever comes between: from a paced poll that sends n bytes to the next paced poll that sends, the
      pacing rate of the first has had time for those n bytes. */
  lemma PacedApart(c: Conn, t1: nat, es: seq<Event>, t2: nat)
    requires Paced(c) && PollTransmit(c, t1).1 != []
    requires Paced(Driven(PollTransmit(c, t1).0, es)) && PollTransmit(Driven(PollTransmit(c, t1).0, es), t2).1 != []
    ensures t2 >= t1 + 1
    ensures (t2 - t1) as real * Congestion.PacingRate(c.cong) >= |PollTransmit(c, t1).1[0].payload| as real * 1000.0
  {
    hide PollTransmit, Driven, Paced, Spacing, Congestion.PacingRate;
    var r := PollTransmit(c, t1);
    PacedPoll(c, t1);
    TimeOfRun(r.0, es);
    PacedPoll(Driven(r.0, es), t2);
    PacedRate(c);
    Spaced(r.0.clock.nextSendMs - t1, t2 - t1, Congestion.PacingRate(c.cong), |r.1[0].payload|);
  }

  lemma PacedRate(c: Conn)
    requires Paced(c)
    ensures Congestion.PacingRate(c.cong) > 0.0
  {
  }

  lemma Spaced(gap: int, a: int, rate: real, n: nat)
    requires Spacing(gap, rate, n) && a >= gap && rate > 0.0
    ensures a >= 1 && a as real * rate >= n as real * 1000.0
  {
    assert (a - gap) as real * rate >= 0.0;
  }
}
