/** The Tail Loss Probe (section 7 of RFC 8985): when a poll arms it, that it is sent, and that it is sent once. */
module TailProbe {
  import opened Types
  import opened SeqNum
  import opened Segments
  import opened Connection
  import opened Calls
  import opened Lifecycle
  import opened System
  import opened EndToEnd
  import opened NewReno
  import opened Timeouts
  import Transitions
  import Retransmit
  import Congestion
  import Rtt

  /** All that is to be sent is in flight, outside recovery. */
  predicate Tail(c: Conn) {
    c.send.una != c.send.nxt && c.sendBuf == [] && !Congestion.InRecovery(c.cong)
  }

  /** A poll outside the recovery branch arms the probe half an RTO ahead (a millisecond at least) if it leaves a tail
      and the probe is not armed already, and otherwise, without a tail, disarms it. */
  lemma ArmedExactly(c: Conn, now: nat)
    requires (c.state == Established || c.state == CloseWait) && !(c.opt.sackOk && Congestion.InRecovery(c.cong))
    ensures var r := PollTransmit(c, now).0;
            if Tail(r) then
              && r.clock.tlpSent == c.clock.tlpSent
              && r.clock.tlpDeadlineMs == (if c.clock.tlpDeadlineMs == 0 then now + Max(Rtt.Rto(c.rtt) / 2, 1)
                                           else c.clock.tlpDeadlineMs)
            else !r.clock.tlpSent && r.clock.tlpDeadlineMs == 0
  {
    var c1 := Stamped(c, now);
    assert c1.clock == c.clock && c1.cong == c.cong && c1.state == c.state && c1.rtt == c.rtt && c1.opt.sackOk == c.opt.sackOk;
    hide FillWindow, FillHoles, FillPipe, Stamped, Rtt.Rto, Sub;
    FillWindowFrame(c1, Congestion.PacingRate(c1.cong), now);
    ArmStep(FillWindow(c1, Congestion.PacingRate(c1.cong), now).0, now);
    hide ArmProbe, Congestion.InRecovery;
  }

  lemma ArmStep(f: Conn, now: nat)
    ensures var r := ArmProbe(f, now);
            && r == f.(clock := f.clock.(tlpDeadlineMs := r.clock.tlpDeadlineMs, tlpSent := r.clock.tlpSent))
            && if Tail(f) then
                 && r.clock.tlpSent == f.clock.tlpSent
                 && r.clock.tlpDeadlineMs == (if f.clock.tlpDeadlineMs == 0 then now + Max(Rtt.Rto(f.rtt) / 2, 1)
                                              else f.clock.tlpDeadlineMs)
               else !r.clock.tlpSent && r.clock.tlpDeadlineMs == 0
  {
    FlightIs(f.send.una, f.send.nxt);
    hide Rtt.Rto, Sub, Congestion.InRecovery;
  }

  // ---- sent ----

  lemma {:induction false} LastOpen(segs: seq<Retransmit.Unacked>, j: nat) returns (i: nat)
    requires j < |segs| && !segs[j].sacked
    ensures IsTail(segs, i)
    decreases |segs| - j
  {
    if k :| j < k < |segs| && !segs[k].sacked {
      i := LastOpen(segs, k);
    } else {
      i := j;
    }
  }

  lemma Listed(segs: seq<Retransmit.Unacked>, p: int -> bool, outs: seq<Seg>, i: int)
    requires Lists(segs, p, outs) && 0 <= i < |segs| && p(i)
    ensures segs[i].packet in outs
  {
    var m :| ListsAt(segs, p, outs, m);
    assert i in m;
    var j :| 0 <= j < |m| && m[j] == i;
    assert outs[j] == segs[i].packet;
  }

  /** A tick at or past the time set sends the last segment not SACKed, clears the time and remembers that it has. */
  lemma ProbeSent(c: Conn, now: nat, i: int)
    requires ProbeDue(c, now) && IsTail(c.retx.segs, i)
    ensures var r := OnTick(c, now);
            c.retx.segs[i].packet in r.1 && r.0.clock.tlpSent && r.0.clock.tlpDeadlineMs == 0
  {
    var rack, probe, rto, more := TickExactly(c, now);
    assert ProbedAt(c, now, i);
    hide OnTick, IsTail, ProbeDue, RackLostAt, TimesOutAt, Lists, Added, AddedState, RtoFires, Resent, Resendings;
    Listed(c.retx.segs, i => ProbedAt(c, now, i), probe, i);
  }

  /** In every reachable state outside recovery with no probe sent yet: if a poll leaves everything in flight, the
      first tick at the time it sets resends the last outstanding segment not SACKed. */
  lemma TailIsProbed(s: Sys, t1: nat, t2: nat) returns (i: nat)
    requires Reached(s) && s.a.conn.Some?
    requires s.a.conn.value.state == Established || s.a.conn.value.state == CloseWait
    requires !Congestion.InRecovery(s.a.conn.value.cong) && !s.a.conn.value.clock.tlpSent
    requires Tail(PollTransmit(s.a.conn.value, t1).0)
    requires t2 >= Max(t1 + Max(Rtt.Rto(s.a.conn.value.rtt) / 2, 1), s.a.conn.value.clock.tlpDeadlineMs)
    ensures var r := PollTransmit(s.a.conn.value, t1).0;
            IsTail(r.retx.segs, i) && r.retx.segs[i].packet in OnTick(r, t2).1
  {
    var c := s.a.conn.value;
    var r := PollTransmit(c, t1).0;
    var t := StepA(s, PollEvent(t1));
    assert t.a.conn == Some(r) by { hide PollTransmit, Reached; }
    hide Reached, PollTransmit, OnTick, StepA, Rtt.Rto, IsTail;
    ReachedStepA(s, PollEvent(t1));
    ArmedExactly(c, t1);
    PollState(c, t1);
    TailQueued(t, r);
    i := LastOpen(r.retx.segs, 0);
    ProbeSent(r, t2, i);
  }

  /** What is in flight is queued, and the oldest of it is not SACKed. */
  lemma TailQueued(s: Sys, c: Conn)
    requires Reached(s) && s.a.conn == Some(c) && c.send.una != c.send.nxt
    requires c.state == Established || c.state == CloseWait
    ensures c.retx.segs != [] && !c.retx.segs[0].sacked
  {
    hide Reached, Tile;
    TilingAndConservation(s);
    OldestNeverSacked(s);
  }

  // ---- once ----

  /** The calls that forget a probe: a new acknowledgement, and a poll that finds no tail. */
  predicate Forgets(c: Conn, e: Event) {
    match e
    case ReceiveEvent(s, _, _) => Advances(c, s)
    case PollEvent(now) => !Tail(PollTransmit(c, now).0)
    case _ => false
  }

  lemma ProbeRemembered(c: Conn, e: Event)
    requires c.clock.tlpSent && !Forgets(c, e)
    ensures Apply(c, e).0.clock.tlpSent
  {
    hide OnSegment, OnTick, PollTransmit, Segment, Advances, Tail;
    match e {
      case ReceiveEvent(s, env, now) =>
        Transitions.NumbersExactly(c, s, env, now);
        hide Transitions.Numbers, Transitions.Dates, Transitions.Became;
      case TickEvent(now) => TickRemembers(c, now);
      case PollEvent(now) => PollRemembers(c, now);
      case _ =>
    }
  }

  lemma TickRemembers(c: Conn, now: nat)
    requires c.clock.tlpSent
    ensures OnTick(c, now).0.clock.tlpSent
  {
    var _, _, _, _ := TickExactly(c, now);
    hide OnTick, Added, AddedState, ResentInOrder, RtoFires, Resent, Resendings, ProbeDue;
  }

  lemma PollRemembers(c: Conn, now: nat)
    requires c.clock.tlpSent && Tail(PollTransmit(c, now).0)
    ensures PollTransmit(c, now).0.clock.tlpSent
  {
    PollFrame(c, now);
    if (c.state == Established || c.state == CloseWait) && !(c.opt.sackOk && Congestion.InRecovery(c.cong)) {
      ArmedExactly(c, now);
    }
    hide PollTransmit, Rtt.Rto;
  }

  /** Along any run without such a call no second probe is sent. */
  lemma {:induction false} ProbedOnce(c: Conn, es: seq<Event>, now: nat)
    requires c.clock.tlpSent && forall i :: 0 <= i < |es| ==> !Forgets(Driven(c, es[..i]), es[i])
    ensures Driven(c, es).clock.tlpSent && !ProbeDue(Driven(c, es), now)
  {
    if es != [] {
      var n := |es| - 1;
      forall i | 0 <= i < n
        ensures !Forgets(Driven(c, es[..n][..i]), es[..n][i])
      {
        assert es[..n][..i] == es[..i];
      }
      hide Driven, Apply, Forgets;
      ProbedOnce(c, es[..n], now);
      ProbeRemembered(Driven(c, es[..n]), es[n]);
      DrivenStep(c, es);
    }
  }
}
