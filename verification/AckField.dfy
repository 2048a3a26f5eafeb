/** What the acknowledgement field of a segment makes of an open connection: its branches, and when it ends the
    handling before the data is looked at. */
module AckField {
  import opened Types
  import opened SeqNum
  import opened Segments
  import opened Connection
  import opened Lifecycle
  import Retransmit
  import Congestion
  import Rtt

  /** The five tests of a duplicate ACK (section 2 of RFC 5681). */
  predicate Duplicates(c: Conn, s: Seg, prevWnd: u32) {
    && s.ackno == c.send.una && c.send.una != c.send.nxt && s.payload == []
    && c.send.wnd == prevWnd && c.send.wnd != 0
  }

  /** The acknowledgement field, branch by branch. */
  lemma AckFieldUnfold(c: Conn, s: Seg, prevWnd: u32, env: Env, now: nat)
    ensures OnAckField(c, s, prevWnd, env, now) ==
            if !AckAcceptable(c, s.ackno) then (MaybeChallenge(c, env, now).0, MaybeChallenge(c, env, now).1, true)
            else if Between(c.send.una, s.ackno, c.send.nxt) then OnNewAck(Marked(c, s), s, env, now)
            else if Duplicates(c, s, prevWnd) then OnDuplicateAck(Marked(c, s), now)
            else (Marked(c, s), None, false)
  {
    MarkedSend(c, s);
    hide AckAcceptable, Between, OnNewAck, OnDuplicateAck, Retransmit.MarkSacked, MaybeChallenge;
  }

  lemma MarkedSend(c: Conn, s: Seg)
    ensures var m := Marked(c, s); m == c.(retx := m.retx)
  {
    hide Retransmit.MarkSacked;
  }

  // ---- holes ----

  /** A queued segment that is not SACKed, nor SACKed by s. */
  predicate Hole(c: Conn, s: Seg, x: Retransmit.Unacked) {
    !x.sacked && !(c.opt.sackOk && Retransmit.Covered(s.opts.sack, x))
  }

  predicate SomeHole(c: Conn, s: Seg) {
    exists i :: 0 <= i < |c.retx.segs| && Hole(c, s, c.retx.segs[i])
  }

  /** One of them ends past the acknowledgement. */
  predicate HoleBeyond(c: Conn, s: Seg) {
    exists i :: 0 <= i < |c.retx.segs| && Hole(c, s, c.retx.segs[i]) && Before(s.ackno, c.retx.segs[i].end)
  }

  /** The acknowledgement after this one is the third duplicate in a row. */
  predicate ThirdDuplicate(k: Congestion.Control) {
    (if k.CubicArm? then k.cubic.dupAcks else k.bbr.dupAcks) + 1 == Congestion.DUP_ACK_THRESHOLD
  }

  lemma MarkedHole(c: Conn, s: Seg, i: nat)
    requires i < |c.retx.segs|
    ensures var m := Marked(c, s).retx.segs;
            |m| == |c.retx.segs| && m[i].end == c.retx.segs[i].end && (!m[i].sacked <==> Hole(c, s, c.retx.segs[i]))
  {
    hide Retransmit.Covers;
    if s.opts.sack == [] {
      assert !Retransmit.Covered(s.opts.sack, c.retx.segs[i]);
    }
  }

  ghost predicate AnyOpen(segs: seq<Retransmit.Unacked>) {
    exists i :: 0 <= i < |segs| && !segs[i].sacked
  }

  ghost predicate AnyOpenBeyond(segs: seq<Retransmit.Unacked>, ackno: u32) {
    exists i :: 0 <= i < |segs| && !segs[i].sacked && Before(ackno, segs[i].end)
  }

  lemma MarkedHoles(c: Conn, s: Seg)
    ensures AnyOpen(Marked(c, s).retx.segs) <==> SomeHole(c, s)
    ensures AnyOpenBeyond(Marked(c, s).retx.segs, s.ackno) <==> HoleBeyond(c, s)
  {
    var m := Marked(c, s).retx.segs;
    assert |m| == |c.retx.segs| by { hide Retransmit.Covered; }
    hide Marked, Hole, Before;
    forall i | 0 <= i < |m|
      ensures m[i].end == c.retx.segs[i].end && (!m[i].sacked <==> Hole(c, s, c.retx.segs[i]))
    {
      MarkedHole(c, s, i);
    }
  }

  lemma {:induction false} KeptOpen(segs: seq<Retransmit.Unacked>, una: u32)
    ensures AnyOpen(Retransmit.Keep(segs, una)) <==> AnyOpenBeyond(segs, una)
  {
    if segs != [] {
      var n := |segs| - 1;
      KeptOpen(segs[..n], una);
      Retransmit.KeepLast(segs, una);
      hide Before, Retransmit.Keep;
      OpenLast(Retransmit.Keep(segs[..n], una), segs[n], Before(una, segs[n].end));
      BeyondLast(segs, una);
    }
  }

  lemma OpenLast(front: seq<Retransmit.Unacked>, x: Retransmit.Unacked, kept: bool)
    ensures AnyOpen(front + if kept then [x] else []) <==> AnyOpen(front) || (kept && !x.sacked)
  {
    var all := front + if kept then [x] else [];
    if AnyOpen(front) {
      var i :| 0 <= i < |front| && !front[i].sacked;
      assert !all[i].sacked;
    }
    if kept && !x.sacked {
      assert !all[|front|].sacked;
    }
  }

  lemma BeyondLast(segs: seq<Retransmit.Unacked>, una: u32)
    requires segs != []
    ensures var n := |segs| - 1;
            AnyOpenBeyond(segs, una) <==>
            AnyOpenBeyond(segs[..n], una) || (!segs[n].sacked && Before(una, segs[n].end))
  {
    hide Before;
    var n := |segs| - 1;
    if AnyOpenBeyond(segs[..n], una) {
      var i :| 0 <= i < n && !segs[..n][i].sacked && Before(una, segs[..n][i].end);
      assert !segs[i].sacked;
    }
    if i :| 0 <= i < |segs| && !segs[i].sacked && Before(una, segs[i].end) && i < n {
      assert !segs[..n][i].sacked;
    }
  }

  lemma HoleResent(c: Conn, now: nat)
    ensures RetransmitHole(c, now).2 <==> AnyOpen(c.retx.segs)
  {
  }

  // ---- when it ends the handling ----

  /** The acknowledgement is unacceptable; or it is a partial one with a hole left beyond it; or it is the third
      duplicate with a hole to resend. */
  predicate StopsAtAck(c: Conn, s: Seg) {
    Has(s.flags, ACK) &&
    var r := Refresh(c, s);
    || !AckAcceptable(r, s.ackno)
    || if Between(c.send.una, s.ackno, c.send.nxt)
       then Congestion.InRecovery(c.cong) && Before(s.ackno, c.recover) && HoleBeyond(c, s)
       else Duplicates(r, s, c.send.wnd) && ThirdDuplicate(c.cong) && SomeHole(c, s)
  }

  lemma NewAckStops(c: Conn, s: Seg, env: Env, now: nat)
    ensures OnNewAck(c, s, env, now).2 <==>
            Congestion.InRecovery(c.cong) && Before(s.ackno, c.recover) && AnyOpenBeyond(c.retx.segs, s.ackno)
  {
    var acked := Sub(s.ackno, c.send.una);
    var a := Acked(c, s, now);
    assert a.retx.segs == Retransmit.Keep(c.retx.segs, s.ackno) by {
      hide AckSample, Rtt.Sample, Retransmit.Scan, Retransmit.Keep;
    }
    KeptOpen(c.retx.segs, s.ackno);
    HoleResent(a.(cong := Congestion.OnPartialAck(c.cong, acked)), now);
    hide RetransmitHole, Acked, AckSample, Before, AnyOpen, AnyOpenBeyond, Congestion.OnPartialAck, Congestion.OnAck,
      Congestion.InRecovery;
  }

  lemma DuplicateStops(c: Conn, now: nat)
    ensures OnDuplicateAck(c, now).2 <==> ThirdDuplicate(c.cong) && AnyOpen(c.retx.segs)
  {
    var d := Congestion.OnDupAck(c.cong);
    assert d.1 <==> ThirdDuplicate(c.cong) by { hide Congestion.BetaCut; }
    HoleResent(c.(cong := d.0, recover := c.send.nxt), now);
    hide RetransmitHole, AnyOpen, Congestion.OnDupAck, ThirdDuplicate;
  }

  lemma RefreshSame(c: Conn, s: Seg)
    ensures var r := Refresh(c, s);
            && r == c.(opt := c.opt.(tsRecent := r.opt.tsRecent), send := c.send.(wnd := r.send.wnd, maxWnd := r.send.maxWnd))
            && SomeHole(r, s) == SomeHole(c, s) && HoleBeyond(r, s) == HoleBeyond(c, s)
  {
    hide Scaled, After, Before, Retransmit.Covered;
    assert forall x :: Hole(Refresh(c, s), s, x) == Hole(c, s, x);
    hide Hole;
  }

  /** The handler stops at the field under exactly these conditions on the state before it. */
  lemma StopsExactly(c: Conn, s: Seg, env: Env, now: nat)
    requires Has(s.flags, ACK)
    ensures OnAckField(Refresh(c, s), s, c.send.wnd, env, now).2 <==> StopsAtAck(c, s)
  {
    var r := Refresh(c, s);
    var m := Marked(r, s);
    RefreshSame(c, s);
    AckFieldUnfold(r, s, c.send.wnd, env, now);
    MarkedSend(r, s);
    MarkedHoles(r, s);
    NewAckStops(m, s, env, now);
    DuplicateStops(m, now);
    hide Refresh, Marked, OnAckField, OnNewAck, OnDuplicateAck, MaybeChallenge, AckAcceptable, Between, Before, AnyOpen,
      AnyOpenBeyond, SomeHole, HoleBeyond, ThirdDuplicate, Congestion.InRecovery, Has;
  }

  /** Right after the handshake nothing is in flight and the field never stops. */
  lemma NeverStopsIdle(c: Conn, s: Seg)
    requires c.send.una == s.ackno == c.send.nxt
    ensures !StopsAtAck(c, s)
  {
    RefreshSame(c, s);
    var r := Refresh(c, s);
    assert AckAcceptable(r, s.ackno) by { hide Refresh; }
    hide Refresh, AckAcceptable, SomeHole, HoleBeyond, Has, ThirdDuplicate;
  }
}
