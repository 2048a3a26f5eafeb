/** What segments tell the congestion controller, the retransmission timer and the recovery point (sections 3 and 4
    of RFC 5681, section 3.2 of RFC 6582), each as a test on the connection and the segment before the call. */
module Signals {
  import opened Types
  import opened SeqNum
  import opened Segments
  import opened Connection
  import opened Calls
  import opened Lifecycle
  import opened AckField
  import opened NewReno
  import opened Karn
  import Backlog
  import Retransmit
  import Congestion
  import Rtt

  /** The segment is an acceptable duplicate acknowledgement. */
  predicate Repeats(c: Conn, s: Seg) {
    Reads(c, s) && AckAcceptable(Refresh(c, s), s.ackno) && Duplicates(Refresh(c, s), s, c.send.wnd)
  }

  /** And the third in a row. */
  predicate RepeatsThird(c: Conn, s: Seg) {
    Repeats(c, s) && ThirdDuplicate(c.cong)
  }

  /** t is the round-trip sample of an acknowledgement: with timestamps the time since the echoed one, whatever was
      resent; without them Karn's. */
  ghost predicate IsSample(c: Conn, s: Seg, now: nat, t: Option<nat>) {
    if c.opt.tsEnabled then t == if s.opts.ts.Some? then Some((Low32(now) - s.opts.ts.value.ecr) % TWO_32) else None
    else
      if t.None? then forall i :: 0 <= i < |c.retx.segs| && !Before(s.ackno, c.retx.segs[i].end) ==> c.retx.segs[i].retries > 0
      else exists i :: FirstTimed(c.retx.segs, s.ackno, |c.retx.segs|, i) && t.value == SatSub(now, c.retx.segs[i].sentAt)
  }

  // ---- which signal a segment is ----

  /** An arrival's clock readings are nothing to the tests. */
  lemma SameTests(c: Conn, s: Seg, now: nat)
    ensures var c1 := Arrive(c, now);
            Reads(c1, s) == Reads(c, s) && Advances(c1, s) == Advances(c, s) && Repeats(c1, s) == Repeats(c, s)
  {
    var c1 := Arrive(c, now);
    assert Paws(c1, s) == Paws(c, s) && Reads(c1, s) == Reads(c, s) by { hide Before, Has; }
    assert Refresh(c1, s).send == Refresh(c, s).send by { hide After, Scaled; }
    assert c1.send == c.send && c1.cong == c.cong;
    hide Refresh, Reads, Before, After, Between, Has, Arrive;
  }

  lemma DuplicateIsOld(c: Conn, s: Seg)
    requires Repeats(c, s)
    ensures s.ackno == c.send.una && !Advances(c, s)
  {
    RefreshKeeps(c, s);
    NotNew(c.send.una, c.send.nxt);
    hide Refresh, Reads, Between, AckAcceptable;
  }

  lemma NotNew(una: u32, nxt: u32)
    ensures !Between(una, una, nxt)
  {
  }

  // ---- the sample ----

  lemma {:induction false} SameScan(q: Retransmit.Retx, r: Retransmit.Retx, una: u32, now: nat, n: nat)
    requires n <= |q.segs| == |r.segs|
    requires forall i :: 0 <= i < n ==> SameTimes(q.segs[i], r.segs[i])
    ensures Retransmit.Scan(q, una, now, n).sample == Retransmit.Scan(r, una, now, n).sample
  {
    hide Before;
    if n > 0 {
      SameScan(q, r, una, now, n - 1);
    }
  }

  predicate SameTimes(x: Retransmit.Unacked, y: Retransmit.Unacked) {
    x == y.(sacked := x.sacked)
  }

  lemma MarkedTimes(c: Conn, s: Seg)
    ensures var m := Marked(c, s);
            |m.retx.segs| == |c.retx.segs| && forall i :: 0 <= i < |c.retx.segs| ==> SameTimes(c.retx.segs[i], m.retx.segs[i])
  {
    hide Retransmit.Covered;
  }

  /** SACK marks do not change what is sampled. */
  lemma SampleOf(c: Conn, s: Seg, now: nat)
    requires c.opt.tsVal == Low32(now)
    ensures IsSample(c, s, now, AckSample(Marked(Refresh(c, s), s), s, now))
  {
    var r := Refresh(c, s);
    var m := Marked(r, s);
    assert r.retx == c.retx && r.opt.tsEnabled == c.opt.tsEnabled && r.opt.tsVal == c.opt.tsVal by { hide Scaled, After; }
    assert m.opt == r.opt by { hide Retransmit.MarkSacked; }
    MarkedTimes(r, s);
    SameScan(r.retx, m.retx, s.ackno, now, |c.retx.segs|);
    SampleExactly(c.retx, s.ackno, now);
    assert Retransmit.Ack(m.retx, s.ackno, now).1 == Retransmit.Ack(c.retx, s.ackno, now).1 by {
      hide Retransmit.Scan, Retransmit.Keep;
    }
    hide Refresh, Marked, Retransmit.Ack, FirstTimed, Before;
    if s.opts.ts.Some? {
      SubIsModular(c.opt.tsVal, s.opts.ts.value.ecr);
      hide Sub;
    }
  }

  // ---- what the handler makes of it ----

  /** The controller, the timer and the recovery point after the acknowledgement field has been read, for sample t. */
  predicate Told(c: Conn, s: Seg, env: Env, now: nat, t: Option<nat>, c': Conn) {
    var acked := Sub(s.ackno, c.send.una);
    && c'.cong == (
      if Advances(c, s) then
        if Congestion.InRecovery(c.cong) && Before(s.ackno, c.recover) then Congestion.OnPartialAck(c.cong, acked)
        else Congestion.OnAck(c.cong, acked, t, env.curve, now)
      else if Repeats(c, s) then Congestion.OnDupAck(c.cong).0
      else c.cong)
    && c'.rtt == (if Advances(c, s) && t.Some? then Rtt.Sample(c.rtt, t.value) else c.rtt)
    && c'.recover == (if RepeatsThird(c, s) then c.send.nxt else c.recover)
  }

  lemma NewAckTold(c: Conn, s: Seg, env: Env, now: nat)
    ensures var r := OnNewAck(c, s, env, now).0;
            var t := AckSample(c, s, now);
            var acked := Sub(s.ackno, c.send.una);
            && r.cong == (if Congestion.InRecovery(c.cong) && Before(s.ackno, c.recover)
                          then Congestion.OnPartialAck(c.cong, acked)
                          else Congestion.OnAck(c.cong, acked, t, env.curve, now))
            && r.rtt == (if t.Some? then Rtt.Sample(c.rtt, t.value) else c.rtt) && r.recover == c.recover
  {
    hide Before, AckSample, Rtt.Sample, Retransmit.Ack, Retransmit.FastRetransmit, Congestion.OnPartialAck,
      Congestion.OnAck, Sub;
  }

  lemma DuplicateTold(c: Conn, now: nat)
    ensures var r := OnDuplicateAck(c, now).0;
            && r.cong == Congestion.OnDupAck(c.cong).0 && r.rtt == c.rtt
            && r.recover == (if ThirdDuplicate(c.cong) then c.send.nxt else c.recover)
  {
    hide Retransmit.FastRetransmit, Congestion.BetaCut;
  }

  lemma FieldTold(c: Conn, s: Seg, env: Env, now: nat)
    requires Reads(c, s)
    ensures Told(c, s, env, now, AckSample(Marked(Refresh(c, s), s), s, now),
                 OnAckField(Refresh(c, s), s, c.send.wnd, env, now).0)
  {
    var r := Refresh(c, s);
    var m := Marked(r, s);
    RefreshKeeps(c, s);
    MarkedKeeps(r, s);
    AckFieldUnfold(r, s, c.send.wnd, env, now);
    NewAckTold(m, s, env, now);
    DuplicateTold(m, now);
    ChallengeCong(r, env, now);
    if Repeats(c, s) {
      DuplicateIsOld(c, s);
    }
    hide Reads, Refresh, Marked, AckAcceptable, Between, Before, OnAckField, OnNewAck, OnDuplicateAck,
      MaybeChallenge, AckSample,
      Congestion.OnAck, Congestion.OnPartialAck, Congestion.OnDupAck, Congestion.InRecovery, Rtt.Sample, ThirdDuplicate, Sub;
  }

  /** Any segment, in any state. New data acknowledged: a partial ACK, or an ordinary one with its round-trip sample. A
      duplicate: one more, and at the third the recovery point is SND.NXT. Anything else tells them nothing. */
  lemma SegmentTold(c: Conn, s: Seg, env: Env, now: nat) returns (t: Option<nat>)
    ensures IsSample(c, s, now, t) && Told(c, s, env, now, t, OnSegment(c, s, env, now).0)
  {
    var c1 := Arrive(c, now);
    t := AckSample(Marked(Refresh(c1, s), s), s, now);
    SampleOf(c1, s, now);
    assert IsSample(c, s, now, t);
    SameTests(c, s, now);
    if Reads(c1, s) {
      FieldTold(c1, s, env, now);
      OpenAck(c1, s, env, now);
    } else {
      Unread(c1, s, env, now);
    }
    hide IsSample, Dispatch, OnSynced, Reads, AckAcceptable, Between, Before, Duplicates, Refresh, OnAckField,
      AckSample, Marked,
      Congestion.OnAck, Congestion.OnPartialAck, Congestion.OnDupAck, Congestion.InRecovery, Rtt.Sample, ThirdDuplicate, Sub;
  }
}
