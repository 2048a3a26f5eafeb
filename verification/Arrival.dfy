/** One arriving segment, both sides at once: if what it carries is honest and what it acknowledges
    is true, then both halves of the connection's state stay sound and so is the reply. */
module Arrival {
  import opened Types
  import opened SeqNum
  import opened Segments
  import opened Connection
  import opened Segmentation
  import opened Direction
  import opened Sender
  import opened Receiver
  import Retransmit
  import Reassembly
  import Congestion
  import Rtt

  /** Every queued packet was queued before. */
  ghost predicate QueueWithin(c: Conn, c': Conn) {
    forall x :: x in c'.retx.segs ==> Retransmit.PacketIn(c.retx.segs, x.packet)
  }

  /** A pure control segment that states where its sender stands (SND.NXT, RCV.NXT, what it holds), with its clock. */
  ghost predicate States(p: Seg, c: Conn) {
    Bare(p) && p.seqno == c.send.nxt && Speaks(p, c) && p.opts.ts == TsOptions(c).ts
  }

  ghost predicate Replies(c: Conn, out: Option<Seg>, c': Conn) {
    out.Some? ==> Retransmit.PacketIn(c.retx.segs, out.value) || (States(out.value, c'))
  }

  // ---- the acknowledgement ----

  lemma CutOrder(d: Dir, w: seq<byte>, i: int, j: int)
    requires WellCut(d, w) && 0 <= i < |d.cuts| && 0 <= j < |d.cuts|
    ensures d.cuts[i] < d.cuts[j] <==> i < j
    ensures d.cuts[i] < TWO_31 && d.cuts[j] < TWO_31
  {
    CutBound(d, w, i);
    CutBound(d, w, j);
  }

  lemma EntryAcked(e: Retransmit.Unacked, iss: u32, d: Dir, w: seq<byte>, i: int, ackno: u32, a: int)
    requires WellCut(d, w) && Entry(e, iss, d, w, i) && AckAt(ackno, iss, d, a)
    ensures Before(ackno, e.end) <==> a <= i
  {
    hide WellCut, Off, Before, Has;
    CutOrder(d, w, a, i + 1);
    BeforeOff(iss, ackno, e.end);
  }

  /** An acknowledgement that stands at cut a leaves exactly the units from a on. */
  lemma DropAcked(segs: seq<Retransmit.Unacked>, iss: u32, d: Dir, w: seq<byte>, ackno: u32, a: int)
    requires WellCut(d, w) && Tiled(segs, iss, d, w) && AckAt(ackno, iss, d, a) && Units(d) - |segs| <= a
    ensures var m := a - (Units(d) - |segs|);
            0 <= m <= |segs| && Retransmit.Keep(segs, ackno) == segs[m..] && Tiled(segs[m..], iss, d, w)
  {
    hide Entry, WellCut, Before;
    var m := a - (Units(d) - |segs|);
    KeptAcked(segs, iss, d, w, ackno, a);
    SuffixTiled(segs, iss, d, w, m);
  }

  lemma KeptAcked(segs: seq<Retransmit.Unacked>, iss: u32, d: Dir, w: seq<byte>, ackno: u32, a: int)
    requires WellCut(d, w) && Tiled(segs, iss, d, w) && AckAt(ackno, iss, d, a) && Units(d) - |segs| <= a
    ensures var m := a - (Units(d) - |segs|);
            0 <= m <= |segs| && Retransmit.Keep(segs, ackno) == segs[m..]
  {
    hide Entry, WellCut, Before, Retransmit.Keep;
    var m := a - (Units(d) - |segs|);
    assert 0 <= m <= |segs|;
    forall j | 0 <= j < |segs|
      ensures Before(ackno, segs[j].end) <==> j >= m
    {
      assert Entry(segs[j], iss, d, w, Units(d) - |segs| + j);
      EntryAcked(segs[j], iss, d, w, Units(d) - |segs| + j, ackno, a);
    }
    Retransmit.KeepSuffix(segs, ackno, m);
  }

  lemma SuffixTiled(segs: seq<Retransmit.Unacked>, iss: u32, d: Dir, w: seq<byte>, m: int)
    requires WellCut(d, w) && Tiled(segs, iss, d, w) && 0 <= m <= |segs|
    ensures Tiled(segs[m..], iss, d, w)
  {
    hide Entry, WellCut;
    forall j | 0 <= j < |segs[m..]|
      ensures Entry(segs[m..][j], iss, d, w, Units(d) - |segs[m..]| + j)
    {
      assert Entry(segs[m + j], iss, d, w, Units(d) - |segs| + (m + j));
    }
  }

  lemma SuffixWithin(segs: seq<Retransmit.Unacked>, m: int)
    requires 0 <= m <= |segs|
    ensures forall x :: x in segs[m..] ==> Retransmit.PacketIn(segs, x.packet)
  {
    AppendEmitsNone(segs);
  }

  /** SND.UNA moves to the acknowledged cut and the queue keeps exactly what lies beyond. */
  lemma AdvanceUna(c: Conn, d: Dir, w: seq<byte>, ackno: u32, a: int, c': Conn)
    requires Sends(c, d, w) && AckAt(ackno, c.send.iss, d, a) && Oldest(c, d) <= a
    requires c'.send == c.send.(una := ackno) && c'.sendBuf == c.sendBuf
    requires c'.retx.segs == Retransmit.Keep(c.retx.segs, ackno)
    requires c'.state == c.state || (c.state == SynRcvd && c'.state == Established) ||
             (c.state == SynSent && c'.state == Established)
    requires RecoverOk(c') && (c.state != FinWait2 && c.state != TimeWait)
    ensures Sends(c', d, w) && QueueWithin(c, c')
  {
    QueueTiles(c, d, w);
    hide Tiled, Retransmit.Keep, Retransmit.PacketIn, WellCut, Sends, RecoverOk, Off, UnaOk, FinStates;
    DropAcked(c.retx.segs, c.send.iss, d, w, ackno, a);
    SuffixWithin(c.retx.segs, a - Oldest(c, d));
    UnaAt(c', d, a);
    Requeued(c, d, w, c');
  }

  lemma UnaAt(c: Conn, d: Dir, a: int)
    requires 0 <= a < |d.cuts| && |c.retx.segs| == Units(d) - a && |d.cuts| >= 2
    requires a in d.stops && Off(c.send.iss, c.send.una) == d.cuts[a]
    requires c.state != FinWait2 && c.state != TimeWait
    ensures UnaOk(c, d)
  {
    hide Off;
  }

  lemma QueueTiles(c: Conn, d: Dir, w: seq<byte>)
    requires Sends(c, d, w)
    ensures WellCut(d, w) && Tiled(c.retx.segs, c.send.iss, d, w) && 0 <= Oldest(c, d) <= Units(d)
    ensures Off(c.send.iss, c.send.nxt) == d.cuts[Units(d)]
  {
    hide Entry, UnaOk, RecoverOk, Cuts, Off;
  }

  /** The sending half after a change of SND.UNA, the queue, the episode or the state. */
  lemma Requeued(c: Conn, d: Dir, w: seq<byte>, c': Conn)
    requires Sends(c, d, w) && WellCut(d, w)
    requires c'.send == c.send.(una := c'.send.una) && c'.sendBuf == c.sendBuf
    requires Tiled(c'.retx.segs, c.send.iss, d, w) && UnaOk(c', d) && RecoverOk(c')
    requires c'.state == c.state || (c.state == SynRcvd && c'.state == Established)
             || (c.state == SynSent && c'.state == Established) || (FinStates(c.state) && FinStates(c'.state))
             || c'.state == Closed
    ensures Sends(c', d, w)
  {
    hide Tiled, UnaOk, RecoverOk, Cuts, Off;
  }

  lemma CutBound(d: Dir, w: seq<byte>, i: int)
    requires WellCut(d, w) && 0 <= i < |d.cuts|
    ensures 0 <= d.cuts[i] <= d.cuts[Units(d)] < TWO_31
  {
  }

  lemma CoveredUnit(e: Retransmit.Unacked, iss: u32, d: Dir, w: seq<byte>, i: int, b: Block, x: int, y: int)
    requires WellCut(d, w) && 0 <= i < Units(d) && 0 < x < y < |d.cuts|
    requires Off(iss, e.start) == d.cuts[i] && Off(iss, e.end) == d.cuts[i + 1]
    requires Off(iss, b.left) == d.cuts[x] && Off(iss, b.right) == d.cuts[y] && Retransmit.Covers(b, e)
    ensures x <= i < y
  {
    CutBound(d, w, i);
    CutBound(d, w, i + 1);
    CutBound(d, w, x);
    CutBound(d, w, y);
    BeforeOff(iss, e.start, b.left);
    BeforeOff(iss, e.end, b.right);
    hide Off, Before;
  }

  lemma EntryMarked(e: Retransmit.Unacked, iss: u32, d: Dir, w: seq<byte>, i: int, s: Seg)
    requires WellCut(d, w) && 0 <= i < Units(d) && Entry(e, iss, d, w, i) && Truthful(s, iss, d)
    ensures Entry(Retransmit.MarkOne(s.opts.sack, e), iss, d, w, i)
  {
    hide Carries, WellCut, Off, Retransmit.Covers;
    if Retransmit.Covered(s.opts.sack, e) {
      var b :| b in s.opts.sack && Retransmit.Covers(b, e);
      var x, y :| BlockAt(b, iss, d, x, y);
      CoveredUnit(e, iss, d, w, i, b, x, y);
    }
  }

  lemma MarkTiled(q: Retransmit.Retx, iss: u32, d: Dir, w: seq<byte>, s: Seg)
    requires WellCut(d, w) && Tiled(q.segs, iss, d, w) && Truthful(s, iss, d)
    ensures Tiled(Retransmit.MarkSacked(q, s.opts.sack).segs, iss, d, w)
  {
    hide Entry, WellCut, Truthful, Retransmit.Covered;
    var segs' := Retransmit.MarkSacked(q, s.opts.sack).segs;
    forall j | 0 <= j < |segs'|
      ensures Entry(segs'[j], iss, d, w, Units(d) - |segs'| + j)
    {
      EntryMarked(q.segs[j], iss, d, w, Units(d) - |q.segs| + j, s);
    }
  }

  lemma MarkWithin(q: Retransmit.Retx, blocks: seq<Block>)
    ensures forall x :: x in Retransmit.MarkSacked(q, blocks).segs ==> Retransmit.PacketIn(q.segs, x.packet)
  {
    var segs' := Retransmit.MarkSacked(q, blocks).segs;
    forall x | x in segs'
      ensures Retransmit.PacketIn(q.segs, x.packet)
    {
      var i :| 0 <= i < |segs'| && segs'[i] == x;
      assert q.segs[i].packet == x.packet;
    }
  }

  lemma MarkSends(c: Conn, d: Dir, w: seq<byte>, s: Seg)
    requires Sends(c, d, w) && Truthful(s, c.send.iss, d)
    ensures var c' := c.(retx := Retransmit.MarkSacked(c.retx, s.opts.sack));
            Sends(c', d, w) && QueueWithin(c, c')
  {
    MarkTiled(c.retx, c.send.iss, d, w, s);
    MarkWithin(c.retx, s.opts.sack);
    hide Tiled, Cuts, Truthful, Retransmit.Covered, Retransmit.MarkOne;
  }

  ghost predicate AckStage(c: Conn, r: (Conn, Option<Seg>, bool), e: Dir, v: seq<byte>) {
    && Sends(r.0, e, v) && SameReceiver(c, r.0) && r.0.state == c.state && r.0.send.iss == c.send.iss
    && QueueWithin(c, r.0) && Replies(c, r.1, r.0)
  }

  lemma WithinTransitive(c: Conn, c1: Conn, c2: Conn)
    requires QueueWithin(c, c1) && Retransmit.SameShape(c1.retx.segs, c2.retx.segs)
    ensures QueueWithin(c, c2)
    ensures forall p :: Retransmit.PacketIn(c1.retx.segs, p) ==> Retransmit.PacketIn(c.retx.segs, p)
  {
    forall p | Retransmit.PacketIn(c1.retx.segs, p)
      ensures Retransmit.PacketIn(c.retx.segs, p)
    {
      var i :| 0 <= i < |c1.retx.segs| && c1.retx.segs[i].packet == p;
      assert c1.retx.segs[i] in c1.retx.segs;
    }
    forall x | x in c2.retx.segs
      ensures Retransmit.PacketIn(c.retx.segs, x.packet)
    {
      var i :| 0 <= i < |c2.retx.segs| && c2.retx.segs[i] == x;
      assert c1.retx.segs[i].packet == x.packet;
    }
  }

  lemma OnAckEndsRecovery(cong: Congestion.Control, acked: u32, rtt: Option<nat>, curve: Congestion.Window, now: nat)
    ensures !Congestion.InRecovery(Congestion.OnAck(cong, acked, rtt, curve, now))
  {
  }

  lemma HoleStage(c: Conn, c1: Conn, e: Dir, v: seq<byte>, now: nat)
    requires Sends(c1, e, v) && SameReceiver(c, c1) && c1.state == c.state && c1.send.iss == c.send.iss
    requires QueueWithin(c, c1)
    ensures AckStage(c, RetransmitHole(c1, now), e, v)
  {
    var f := Retransmit.FastRetransmit(c1.retx, now);
    Retransmit.ResendKeepsShape(c1.retx, Retransmit.FirstUnsacked(c1.retx.segs, 0), now);
    WithinTransitive(c, c1, c1.(retx := f.0));
    hide Sends, QueueWithin, Retransmit.SameShape, Retransmit.PacketIn;
    ShapeSends(c1, e, c1.(retx := f.0), v);
  }

  lemma FullAckStage(c: Conn, s: Seg, now: nat, cong: Congestion.Control, a: int, e: Dir, v: seq<byte>)
    requires Sends(c, e, v) && (c.state == Established || c.state == CloseWait)
    requires AckAt(s.ackno, c.send.iss, e, a) && Oldest(c, e) < a && !Congestion.InRecovery(cong)
    ensures AckStage(c, (Acked(c, s, now).(cong := cong), None, false), e, v)
  {
    AckedFrame(c, s, now);
    hide Sends, Acked, AckAt, QueueWithin;
    AdvanceUna(c, e, v, s.ackno, a, Acked(c, s, now).(cong := cong));
  }

  lemma PartialAckStage(c: Conn, s: Seg, now: nat, cong: Congestion.Control, a: int, e: Dir, v: seq<byte>)
    requires Sends(c, e, v) && (c.state == Established || c.state == CloseWait)
    requires AckAt(s.ackno, c.send.iss, e, a) && Oldest(c, e) < a
    requires Off(c.send.iss, s.ackno) < Off(c.send.iss, c.recover) <= Off(c.send.iss, c.send.nxt)
    ensures AckStage(c, RetransmitHole(Acked(c, s, now).(cong := cong), now), e, v)
  {
    var c1 := Acked(c, s, now).(cong := cong);
    AckedFrame(c, s, now);
    hide Sends, Acked, AckAt, QueueWithin, RetransmitHole, AckStage, Off;
    AdvanceUna(c, e, v, s.ackno, a, c1);
    HoleStage(c, c1, e, v, now);
  }

  lemma NewAckStage(c: Conn, s: Seg, env: Env, now: nat, e: Dir, v: seq<byte>)
    requires Sends(c, e, v) && (c.state == Established || c.state == CloseWait)
    requires Has(s.flags, ACK) && Truthful(s, c.send.iss, e) && Between(c.send.una, s.ackno, c.send.nxt)
    ensures AckStage(c, OnNewAck(c, s, env, now), e, v)
  {
    var a :| AckAt(s.ackno, c.send.iss, e, a);
    NewAckNumbers(c, s, e, v, a);
    var acked := Sub(s.ackno, c.send.una);
    hide Sends, Acked, AckSample, Truthful, Between, Before, Off, RetransmitHole, AckAt, AckStage,
      Congestion.OnPartialAck, Congestion.OnAck;
    if Congestion.InRecovery(c.cong) && Before(s.ackno, c.recover) {
      PartialAckStage(c, s, now, Congestion.OnPartialAck(c.cong, acked), a, e, v);
    } else {
      OnAckEndsRecovery(c.cong, acked, AckSample(c, s, now), env.curve, now);
      FullAckStage(c, s, now, Congestion.OnAck(c.cong, acked, AckSample(c, s, now), env.curve, now), a, e, v);
    }
  }

  /** In order: an acceptable new ACK lies at a cut past SND.UNA, and a partial one short of `recover`. */
  lemma NewAckNumbers(c: Conn, s: Seg, e: Dir, v: seq<byte>, a: int)
    requires Sends(c, e, v) && (c.state == Established || c.state == CloseWait)
    requires AckAt(s.ackno, c.send.iss, e, a) && Between(c.send.una, s.ackno, c.send.nxt)
    ensures Oldest(c, e) < a
    ensures Congestion.InRecovery(c.cong) && Before(s.ackno, c.recover) ==>
              Off(c.send.iss, s.ackno) < Off(c.send.iss, c.recover) <= Off(c.send.iss, c.send.nxt)
  {
    CutBound(e, v, a);
    CutBound(e, v, Oldest(c, e));
    BetweenOff(c.send.iss, c.send.una, s.ackno, c.send.nxt);
    if Congestion.InRecovery(c.cong) {
      BeforeOff(c.send.iss, s.ackno, c.recover);
    }
  }

  lemma DuplicateAckStage(c: Conn, now: nat, e: Dir, v: seq<byte>)
    requires Sends(c, e, v) && (c.state == Established || c.state == CloseWait) && c.send.una != c.send.nxt
    ensures AckStage(c, OnDuplicateAck(c, now), e, v)
  {
    var d := Congestion.OnDupAck(c.cong);
    AppendEmitsNone(c.retx.segs);
    if d.1 {
      var c1 := c.(cong := d.0, recover := c.send.nxt);
      DupNumbers(c, e, v);
      assert Sends(c1, e, v) by { hide Tiled, WellCut, Congestion.OnDupAck; }
      HoleStage(c, c1, e, v, now);
    } else {
      var c1 := c.(cong := d.0);
      assert Congestion.InRecovery(d.0) == Congestion.InRecovery(c.cong);
      hide Sends;
      ShapeSends(c, e, c1, v);
    }
  }

  lemma DupNumbers(c: Conn, e: Dir, v: seq<byte>)
    requires Sends(c, e, v) && (c.state == Established || c.state == CloseWait) && c.send.una != c.send.nxt
    ensures Off(c.send.iss, c.send.una) < Off(c.send.iss, c.send.nxt)
  {
    CutBound(e, v, Oldest(c, e));
    BeforeOff(c.send.iss, c.send.una, c.send.nxt);
  }

  lemma BareAckSpeaks(c: Conn)
    ensures States(BareAck(c), c) && Has(BareAck(c).flags, ACK)
  {
  }

  lemma ChallengeFrame(c: Conn, env: Env, now: nat)
    ensures var r := MaybeChallenge(c, env, now);
            && r.0.send == c.send && r.0.sendBuf == c.sendBuf && r.0.state == c.state && r.0.retx == c.retx
            && r.0.recover == c.recover && r.0.cong == c.cong && SameReceiver(c, r.0)
            && (r.1.Some? ==> r.1.value == BareAck(r.0))
  {
  }

  /** A reply that repeats nothing: the state as it was, and perhaps a bare ACK of it. */
  lemma AckOnly(c: Conn, c1: Conn, out: Option<Seg>, stop: bool, e: Dir, v: seq<byte>)
    requires Sends(c, e, v) && c1.send == c.send && c1.sendBuf == c.sendBuf && c1.state == c.state && c1.retx == c.retx
    requires c1.recover == c.recover && c1.cong == c.cong && SameReceiver(c, c1)
    requires out.Some? ==> out.value == BareAck(c1)
    ensures AckStage(c, (c1, out, stop), e, v)
  {
    BareAckSpeaks(c1);
    AppendEmitsNone(c.retx.segs);
    hide Sends, States, BareAck;
    ShapeSends(c, e, c1, v);
  }

  lemma AckFieldStage(c: Conn, s: Seg, prevWnd: u32, env: Env, now: nat, e: Dir, v: seq<byte>)
    requires Sends(c, e, v) && (c.state == Established || c.state == CloseWait)
    requires Has(s.flags, ACK) && Truthful(s, c.send.iss, e)
    ensures AckStage(c, OnAckField(c, s, prevWnd, env, now), e, v)
  {
    hide Sends, Truthful, Has, AckAcceptable, Between, OnNewAck, OnDuplicateAck, MaybeChallenge, AckStage;
    if !AckAcceptable(c, s.ackno) {
      var r := MaybeChallenge(c, env, now);
      ChallengeFrame(c, env, now);
      AckOnly(c, r.0, r.1, true, e, v);
    } else {
      var c1 := if c.opt.sackOk && s.opts.sack != [] then c.(retx := Retransmit.MarkSacked(c.retx, s.opts.sack)) else c;
      AppendEmitsNone(c.retx.segs);
      MarkSends(c, e, v, s);
      AckFieldAfterSack(c, c1, s, prevWnd, env, now, e, v);
    }
  }

  lemma AckFieldAfterSack(c: Conn, c1: Conn, s: Seg, prevWnd: u32, env: Env, now: nat, e: Dir, v: seq<byte>)
    requires Sends(c1, e, v) && (c.state == Established || c.state == CloseWait)
    requires Has(s.flags, ACK) && Truthful(s, c1.send.iss, e) && AckAcceptable(c, s.ackno)
    requires c1 == if c.opt.sackOk && s.opts.sack != [] then c.(retx := Retransmit.MarkSacked(c.retx, s.opts.sack)) else c
    requires QueueWithin(c, c1)
    ensures AckStage(c, OnAckField(c, s, prevWnd, env, now), e, v)
  {
    hide Sends, Truthful, Has, AckAcceptable, Between, OnNewAck, OnDuplicateAck, MaybeChallenge, AckStage,
      Retransmit.MarkSacked, QueueWithin;
    if Between(c1.send.una, s.ackno, c1.send.nxt) {
      NewAckStage(c1, s, env, now, e, v);
      StageAfter(c, c1, OnNewAck(c1, s, env, now), e, v);
    } else if s.ackno == c1.send.una && c1.send.una != c1.send.nxt && s.payload == [] && c1.send.wnd == prevWnd &&
              c1.send.wnd != 0 {
      DuplicateAckStage(c1, now, e, v);
      StageAfter(c, c1, OnDuplicateAck(c1, now), e, v);
    } else {
      NoStage(c, c1, e, v);
    }
  }

  lemma NoStage(c: Conn, c1: Conn, e: Dir, v: seq<byte>)
    requires QueueWithin(c, c1) && SameReceiver(c, c1) && c1.state == c.state && c1.send.iss == c.send.iss
    requires Sends(c1, e, v)
    ensures AckStage(c, (c1, None, false), e, v)
  {
    hide Sends;
  }

  lemma StageAfter(c: Conn, c1: Conn, r: (Conn, Option<Seg>, bool), e: Dir, v: seq<byte>)
    requires QueueWithin(c, c1) && SameReceiver(c, c1) && c1.state == c.state && c1.send.iss == c.send.iss
    requires AckStage(c1, r, e, v)
    ensures AckStage(c, r, e, v)
  {
    WithinTransitive(c, c1, c1);
    hide Sends;
  }

  // ---- data and FIN ----

  /** Everything handling a segment may do to the sending side without touching the queue. */
  predicate SameSender(c: Conn, c': Conn) {
    && c'.send == c.send && c'.sendBuf == c.sendBuf && c'.retx == c.retx && c'.cong == c.cong && c'.recover == c.recover
  }

  lemma SenderUnmoved(c: Conn, c': Conn, e: Dir, v: seq<byte>)
    requires Sends(c, e, v) && SameSender(c, c')
    requires c'.state == c.state || (c.state == Established && c'.state == CloseWait)
             || (c.state == FinWait1 && c'.state == Closing) || (c.state == FinWait2 && c'.state == TimeWait)
    ensures Sends(c', e, v) && QueueWithin(c, c')
  {
    AppendEmitsNone(c.retx.segs);
    hide Tiled, WellCut;
  }

  /** Our FIN is acknowledged: the peer stands at the end of the direction and the queue is empty. */
  lemma FinAcked(c: Conn, ackno: u32, e: Dir, v: seq<byte>, c': Conn)
    requires Sends(c, e, v) && (c.state == FinWait1 || c.state == Closing || c.state == LastAck)
    requires ackno == c.send.nxt && exists a :: AckAt(ackno, c.send.iss, e, a)
    requires c'.send == c.send && c'.sendBuf == c.sendBuf && c'.cong == c.cong && c'.recover == c.recover
    requires c'.retx.segs == Retransmit.Keep(c.retx.segs, ackno)
    requires c'.state == FinWait2 || c'.state == TimeWait || c'.state == Closed
    ensures Sends(c', e, v) && QueueWithin(c, c')
  {
    QueueTiles(c, e, v);
    var a :| AckAt(ackno, c.send.iss, e, a);
    assert a == Units(e) by {
      CutOrder(e, v, a, Units(e));
    }
    FinUna(c, e, v);
    hide Tiled, Retransmit.Keep, Retransmit.PacketIn, WellCut, Sends, RecoverOk, Off;
    DropAcked(c.retx.segs, c.send.iss, e, v, ackno, a);
    SuffixWithin(c.retx.segs, a - Oldest(c, e));
    FinRecover(c, c');
    Requeued(c, e, v, c');
  }

  lemma FinUna(c: Conn, e: Dir, v: seq<byte>)
    requires Sends(c, e, v) && (c.state == FinWait1 || c.state == Closing || c.state == LastAck)
    ensures 0 <= Oldest(c, e) <= Units(e) && Off(c.send.iss, c.send.una) == e.cuts[Oldest(c, e)] <= e.cuts[Units(e)]
    ensures RecoverOk(c)
  {
    CutBound(e, v, Oldest(c, e));
    hide Tiled, Cuts, Off;
  }

  lemma FinRecover(c: Conn, c': Conn)
    requires RecoverOk(c) && c'.send == c.send && c'.cong == c.cong && c'.recover == c.recover
    requires c'.state != SynSent && c'.state != SynRcvd
    ensures RecoverOk(c')
  {
  }

  /** Data from an honest segment. */
  lemma DeliverStage(c: Conn, iss: u32, d: Dir, w: seq<byte>, taken: seq<byte>, s: Seg) returns (d': Dir)
    requires Receives(c, iss, d, w, taken) && c.state != SynSent && Honest(s, iss, d, w)
    ensures Receives(Deliver(c, s.seqno, s.payload), iss, d', w, taken) && ReceiverMoved(d, d')
  {
    if s.payload == [] {
      d' := d;
      ReceiverRests(d);
    } else {
      var i :| Carries(s, iss, d, w, i);
      d' := DataArrives(c, iss, d, w, taken, s, i);
    }
  }

  ghost predicate TextStage(c: Conn, r: (Conn, Option<Seg>), iss: u32, d: Dir, d': Dir, w: seq<byte>, taken: seq<byte>) {
    && Receives(r.0, iss, d', w, taken) && ReceiverMoved(d, d')
    && SameSender(c, r.0) && (r.0.state == c.state || (c.state == Established && r.0.state == CloseWait))
    && (r.1.Some? ==> States(r.1.value, r.0))
  }

  lemma DeliverFrame(c: Conn, seqno: u32, payload: seq<byte>)
    ensures var c1 := Deliver(c, seqno, payload);
            SameSender(c, c1) && c1.state == c.state && c1.pendingFin == c.pendingFin && c1.peerFin == c.peerFin
  {
    hide Reassembly.Recv;
  }

  lemma SackAckSpeaks(c: Conn)
    ensures States(BareAck(c).(opts := AckOptions(c)), c)
  {
  }

  lemma TextStages(c: Conn, iss: u32, d: Dir, w: seq<byte>, taken: seq<byte>, s: Seg) returns (d': Dir)
    requires Receives(c, iss, d, w, taken) && (c.state == Established || c.state == CloseWait) && Honest(s, iss, d, w)
    ensures TextStage(c, OnText(c, s), iss, d, d', w, taken)
  {
    var c1 := Deliver(c, s.seqno, s.payload);
    DeliverFrame(c, s.seqno, s.payload);
    var d1 := DeliverStage(c, iss, d, w, taken, s);
    if Has(s.flags, FIN) {
      FinPosition(s, iss, d, w);
    }
    hide Honest, Deliver;
    d' := AfterDelivery(c, c1, iss, d, d1, w, taken, s);
  }

  lemma AfterDelivery(c: Conn, c1: Conn, iss: u32, d: Dir, d1: Dir, w: seq<byte>, taken: seq<byte>, s: Seg)
    returns (d': Dir)
    requires c1 == Deliver(c, s.seqno, s.payload) && (c.state == Established || c.state == CloseWait)
    requires Receives(c1, iss, d1, w, taken) && ReceiverMoved(d, d1)
    requires SameSender(c, c1) && c1.state == c.state
    requires Has(s.flags, FIN) ==> d1.fin && Off(iss, Add(s.seqno, Low32(|s.payload|))) == d1.cuts[DataUnits(d1)]
    ensures TextStage(c, OnText(c, s), iss, d, d', w, taken)
  {
    hide Deliver, Has, After, Before, Off, Add, Low32;
    var finSeq := Add(s.seqno, Low32(|s.payload|));
    BareAckSpeaks(c1);
    if Has(s.flags, FIN) && c1.state == CloseWait && !After(finSeq, c1.recv.nxt) {
      d' := d1;
    } else {
      var c2 := if Has(s.flags, FIN) && c1.state == Established && !Before(finSeq, c1.recv.nxt)
                then c1.(pendingFin := Some(finSeq)) else c1;
      PendingKept(c1, c2, iss, d1, w, taken);
      d' := AfterPending(c, c2, iss, d, d1, w, taken, s);
    }
  }

  lemma PendingKept(c: Conn, c': Conn, iss: u32, d: Dir, w: seq<byte>, taken: seq<byte>)
    requires Receives(c, iss, d, w, taken) && c.state != SynSent
    requires c' == c.(pendingFin := c'.pendingFin)
    requires c'.pendingFin == c.pendingFin ||
             (c'.pendingFin.Some? && d.fin && Off(iss, c'.pendingFin.value) == d.cuts[DataUnits(d)])
    ensures Receives(c', iss, d, w, taken)
  {
    hide Clean, WellCut, Off;
  }

  /** The tail of `OnText`, from the point where a FIN may be pending. */
  lemma AfterPending(c: Conn, c2: Conn, iss: u32, d: Dir, d1: Dir, w: seq<byte>, taken: seq<byte>, s: Seg)
    returns (d': Dir)
    requires Receives(c2, iss, d1, w, taken) && ReceiverMoved(d, d1) && SameSender(c, c2) && c2.state == c.state
    requires c.state == Established || c.state == CloseWait
    ensures var r := if c2.state == Established && c2.pendingFin == Some(c2.recv.nxt) then
                       var c3 := c2.(recv := c2.recv.(nxt := Add(c2.recv.nxt, 1)), pendingFin := None, peerFin := true,
                                     state := CloseWait);
                       (c3, Some(BareAck(c3)))
                     else if s.payload != [] then (c2, Some(BareAck(c2).(opts := AckOptions(c2))))
                     else (c2, None);
            TextStage(c, r, iss, d, d', w, taken)
  {
    if c2.state == Established && c2.pendingFin == Some(c2.recv.nxt) {
      var c3 := c2.(recv := c2.recv.(nxt := Add(c2.recv.nxt, 1)), pendingFin := None, peerFin := true, state := CloseWait);
      d' := FinArrives(c2, iss, d1, w, taken, s, c3);
      BareAckSpeaks(c3);
      LaterTransitive(d, d1, d');
    } else {
      d' := d1;
      SackAckSpeaks(c2);
    }
    hide Receives, States, BareAck, AckOptions, Add;
  }

  // ---- whole segments, state by state ----

  ghost predicate Sound(c: Conn, r: (Conn, Option<Seg>), iss: u32, d: Dir, d': Dir, w: seq<byte>, taken: seq<byte>,
                          e: Dir, v: seq<byte>) {
    && Receives(r.0, iss, d', w, taken) && ReceiverMoved(d, d')
    && Sends(r.0, e, v) && r.0.send.iss == c.send.iss
    && QueueWithin(c, r.0) && Replies(c, r.1, r.0)
    && (c.state != SynSent ==> r.0.state != SynSent) && (r.1.Some? ==> r.0.state != SynSent)
  }

  lemma HandledAfter(c: Conn, c1: Conn, r: (Conn, Option<Seg>), iss: u32, d: Dir, d1: Dir, d': Dir, w: seq<byte>,
                     taken: seq<byte>, e: Dir, v: seq<byte>)
    requires QueueWithin(c, c1) && c1.send.iss == c.send.iss && ReceiverMoved(d, d1)
    requires c.state != SynSent ==> c1.state != SynSent
    requires Sound(c1, r, iss, d1, d', w, taken, e, v)
    ensures Sound(c, r, iss, d, d', w, taken, e, v)
  {
    WithinTransitive(c, c1, c1);
    LaterTransitive(d, d1, d');
    hide Sends, Receives, Later;
  }

  lemma RefreshKeeps(c: Conn, s: Seg, iss: u32, d: Dir, w: seq<byte>, taken: seq<byte>, e: Dir, v: seq<byte>)
    requires Sends(c, e, v) && Receives(c, iss, d, w, taken)
    ensures var c1 := Refresh(c, s);
            Sends(c1, e, v) && Receives(c1, iss, d, w, taken) && c1.state == c.state && c1.send.iss == c.send.iss
            && c1.retx == c.retx && SameReceiver(c, c1)
  {
    hide Tiled, Clean, WellCut, Scaled, After;
  }

  lemma OpenStage(c: Conn, s: Seg, env: Env, now: nat, iss: u32, d: Dir, w: seq<byte>, taken: seq<byte>, e: Dir, v: seq<byte>)
    returns (d': Dir)
    requires Receives(c, iss, d, w, taken) && Sends(c, e, v) && (c.state == Established || c.state == CloseWait)
    requires Honest(s, iss, d, w) && Truthful(s, c.send.iss, e)
    ensures Sound(c, OnOpen(c, s, env, now), iss, d, d', w, taken, e, v)
  {
    if Paws(c, s) {
      d' := d;
      PawsStage(c, iss, d, w, taken, e, v);
    } else {
      var c1 := Refresh(c, s);
      RefreshKeeps(c, s, iss, d, w, taken, e, v);
      ReceiverRests(d);
      AppendEmitsNone(c.retx.segs);
      hide Sends, Receives, Refresh, ReceiverMoved, Honest, Truthful, OnAckField, OnText, Has, Paws, Sound, AckStage,
        BareAck;
      if Has(s.flags, ACK) {
        var r := OnAckField(c1, s, c.send.wnd, env, now);
        AckFieldStage(c1, s, c.send.wnd, env, now, e, v);
        d' := AfterAck(c1, r, s, iss, d, w, taken, e, v);
      } else {
        NoStage(c1, c1, e, v);
        d' := AfterAck(c1, (c1, None, false), s, iss, d, w, taken, e, v);
      }
      HandledAfter(c, c1, OnOpen(c, s, env, now), iss, d, d, d', w, taken, e, v);
    }
  }

  lemma PawsStage(c: Conn, iss: u32, d: Dir, w: seq<byte>, taken: seq<byte>, e: Dir, v: seq<byte>)
    requires Receives(c, iss, d, w, taken) && Sends(c, e, v) && c.state != SynSent
    ensures Sound(c, (c, Some(BareAck(c))), iss, d, d, w, taken, e, v)
  {
    ReceiverRests(d);
    AppendEmitsNone(c.retx.segs);
    BareAckSpeaks(c);
    hide Sends, Receives, BareAck, States, ReceiverMoved;
  }

  lemma AfterAck(c: Conn, r: (Conn, Option<Seg>, bool), s: Seg, iss: u32, d: Dir, w: seq<byte>, taken: seq<byte>,
                 e: Dir, v: seq<byte>) returns (d': Dir)
    requires Receives(c, iss, d, w, taken) && (c.state == Established || c.state == CloseWait)
    requires Honest(s, iss, d, w) && AckStage(c, r, e, v)
    ensures Sound(c, if r.2 then (r.0, r.1) else OnText(r.0, s), iss, d, d', w, taken, e, v)
  {
    ReceiverRests(d);
    UnmovedByAck(c, r.0, iss, d, w, taken);
    hide Sends, Receives, Honest, OnText, ReceiverMoved;
    if r.2 {
      d' := d;
    } else {
      d' := TextStages(r.0, iss, d, w, taken, s);
      var t := OnText(r.0, s);
      SenderUnmoved(r.0, t.0, e, v);
      WithinTransitive(c, r.0, r.0);
    }
  }

  lemma UnmovedByAck(c: Conn, c': Conn, iss: u32, d: Dir, w: seq<byte>, taken: seq<byte>)
    requires Receives(c, iss, d, w, taken) && SameReceiver(c, c') && c'.state == c.state && c.state != SynSent
    ensures Receives(c', iss, d, w, taken)
  {
    hide Clean, WellCut;
    ReceiverUnmoved(c, iss, d, w, taken, c');
  }

  /** The SYN-ACK completes an active open: both directions start at their first byte. */
  lemma SynSentStage(c: Conn, s: Seg, now: nat, iss: u32, d: Dir, w: seq<byte>, taken: seq<byte>, e: Dir, v: seq<byte>)
    returns (d': Dir)
    requires Receives(c, iss, d, w, taken) && Sends(c, e, v) && c.state == SynSent
    requires Honest(s, iss, d, w) && Truthful(s, c.send.iss, e)
    ensures Sound(c, OnSynSent(c, s, now), iss, d, d', w, taken, e, v)
  {
    AppendEmitsNone(c.retx.segs);
    ReceiverRests(d);
    if Has(s.flags, SYN) && Has(s.flags, ACK) && s.ackno == c.send.nxt {
      var c' := OnSynSent(c, s, now).0;
      d' := d.(got := {0}, k := 1, stops := {0, 1});
      StartReceiving(c, s, c', iss, d, d', w, taken);
      var a :| AckAt(s.ackno, c.send.iss, e, a);
      SynSentFrame(c, s, now);
      BareAckSpeaks(c');
      hide OnSynSent, States, BareAck, Receives, Truthful, Honest, Retransmit.Keep, Tiled;
      AdvanceUna(c, e, v, s.ackno, a, c');
    } else {
      d' := d;
    }
  }

  lemma SynSentFrame(c: Conn, s: Seg, now: nat)
    requires Has(s.flags, SYN) && Has(s.flags, ACK) && s.ackno == c.send.nxt
    ensures var r := OnSynSent(c, s, now);
            && r.0.send == c.send.(una := s.ackno) && r.0.sendBuf == c.sendBuf && r.0.state == Established
            && r.0.retx.segs == Retransmit.Keep(c.retx.segs, s.ackno) && r.0.cong == c.cong && r.0.recover == c.recover
            && r.1 == Some(BareAck(r.0))
  {
    hide BareAck, Retransmit.Keep, Retransmit.Scan;
  }

  lemma StartReceiving(c: Conn, s: Seg, c': Conn, iss: u32, d: Dir, d': Dir, w: seq<byte>, taken: seq<byte>)
    requires Receives(c, iss, d, w, taken) && c.state == SynSent && Honest(s, iss, d, w) && Has(s.flags, SYN)
    requires c'.recv == c.recv.(irs := s.seqno, nxt := Add(s.seqno, 1))
    requires c'.reasm == Reassembly.Reasm(Add(s.seqno, 1), map[])
    requires c'.recvBuf == c.recvBuf && c'.peerFin == c.peerFin && c'.pendingFin == c.pendingFin
    requires c'.state == Established && d' == d.(got := {0}, k := 1, stops := {0, 1})
    ensures Receives(c', iss, d', w, taken) && ReceiverMoved(d, d')
  {
    var i :| Carries(s, iss, d, w, i);
    assert s.seqno == iss;
    AddOff(iss, iss, 1);
    assert Clean(c'.reasm, d'.cuts, w, d'.got, 1);
    assert taken + c'.recvBuf == w[..0];
  }

  lemma EstablishStage(c: Conn, s: Seg, now: nat, iss: u32, d: Dir, w: seq<byte>, taken: seq<byte>, e: Dir, v: seq<byte>)
    requires Receives(c, iss, d, w, taken) && Sends(c, e, v) && c.state == SynRcvd
    requires Has(s.flags, ACK) && s.ackno == c.send.nxt && Truthful(s, c.send.iss, e)
    ensures var c1 := Establish(c, s, now);
            Receives(c1, iss, d, w, taken) && Sends(c1, e, v) && QueueWithin(c, c1)
  {
    var c1 := Establish(c, s, now);
    var a :| AckAt(s.ackno, c.send.iss, e, a);
    assert a == Units(e);
    ReceiverUnmoved(c, iss, d, w, taken, c1);
    hide Receives, Truthful, Retransmit.Keep, Retransmit.Scan, Tiled;
    AdvanceUna(c, e, v, s.ackno, a, c1);
  }

  /** The tail shared by FIN_WAIT_1 and FIN_WAIT_2: an in-order FIN, or an ACK of the data. */
  lemma FinWaitTail(c2: Conn, s: Seg, finAcked: bool, now: nat, iss: u32, d: Dir, d1: Dir, w: seq<byte>,
                    taken: seq<byte>) returns (d': Dir)
    requires Receives(c2, iss, d1, w, taken) && ReceiverMoved(d, d1) && !c2.peerFin && Honest(s, iss, d1, w)
    requires c2.state == FinWait1 || (c2.state == FinWait2 && finAcked)
    ensures var r := FinTail(c2, s, finAcked, now);
            && Receives(r.0, iss, d', w, taken) && ReceiverMoved(d, d')
            && (r.1.Some? ==> States(r.1.value, r.0))
  {
    var r := FinTail(c2, s, finAcked, now);
    FinTailSpeaks(c2, s, finAcked, now);
    hide States, BareAck;
    if Has(s.flags, FIN) && Add(s.seqno, Low32(|s.payload|)) == c2.recv.nxt {
      d' := FinArrives(c2, iss, d1, w, taken, s, r.0);
      LaterTransitive(d, d1, d');
    } else {
      d' := d1;
      ReceiverUnmoved(c2, iss, d1, w, taken, r.0);
    }
    hide Receives, Honest;
  }

  lemma FinTailSpeaks(c: Conn, s: Seg, finAcked: bool, now: nat)
    ensures var r := FinTail(c, s, finAcked, now);
            r.1.Some? ==> States(r.1.value, r.0)
  {
    hide Add, Low32;
    BareAckSpeaks(c);
    BareAckSpeaks(c.(recv := c.recv.(nxt := Add(c.recv.nxt, 1)), peerFin := true));
  }

  lemma FinTailFrame(c: Conn, s: Seg, finAcked: bool, now: nat)
    requires c.state == FinWait1 || (c.state == FinWait2 && finAcked)
    ensures var c' := FinTail(c, s, finAcked, now).0;
            && SameSender(c, c')
            && c'.state == if Has(s.flags, FIN) && Add(s.seqno, Low32(|s.payload|)) == c.recv.nxt
                           then (if finAcked then TimeWait else Closing)
                           else (if finAcked then FinWait2 else FinWait1)
  {
    hide Add, Low32, BareAck;
  }

  lemma FinWait1Stage(c: Conn, s: Seg, now: nat, iss: u32, d: Dir, w: seq<byte>, taken: seq<byte>, e: Dir, v: seq<byte>)
    returns (d': Dir)
    requires Receives(c, iss, d, w, taken) && Sends(c, e, v) && c.state == FinWait1
    requires Honest(s, iss, d, w) && Truthful(s, c.send.iss, e)
    ensures Sound(c, OnFinWait1(c, s, now), iss, d, d', w, taken, e, v)
  {
    var finAcked := Has(s.flags, ACK) && s.ackno == c.send.nxt;
    var c1 := if finAcked then c.(retx := Retransmit.Ack(c.retx, s.ackno, now).0) else c;
    ReceiverUnmoved(c, iss, d, w, taken, c1);
    assert WellCut(d, w);
    hide Receives, Sends, Honest, Deliver, Truthful, States, FinTail, ReceiverMoved, Has, WellCut, BareAck;
    hide Retransmit.Keep, Retransmit.Scan, FinStates, QueueWithin;
    var c2 := Deliver(c1, s.seqno, s.payload);
    DeliverFrame(c1, s.seqno, s.payload);
    var d1 := DeliverStage(c1, iss, d, w, taken, s);
    StillHonest(s, iss, d, d1, w);
    StillOpen(c2, iss, d1, w, taken);
    d' := FinWaitTail(c2, s, finAcked, now, iss, d, d1, w, taken);
    FinWait1Sends(c, s, now, finAcked, c2, e, v);
  }

  lemma FinWait1Sends(c: Conn, s: Seg, now: nat, finAcked: bool, c2: Conn, e: Dir, v: seq<byte>)
    requires Sends(c, e, v) && c.state == FinWait1 && Truthful(s, c.send.iss, e)
    requires finAcked == (Has(s.flags, ACK) && s.ackno == c.send.nxt)
    requires SameSender(if finAcked then c.(retx := Retransmit.Ack(c.retx, s.ackno, now).0) else c, c2)
    requires c2.state == FinWait1
    ensures var r := FinTail(c2, s, finAcked, now);
            Sends(r.0, e, v) && QueueWithin(c, r.0) && r.0.send.iss == c.send.iss && r.0.state != SynSent
  {
    var r := FinTail(c2, s, finAcked, now);
    FinTailFrame(c2, s, finAcked, now);
    hide Sends, FinTail, Retransmit.Keep, Retransmit.Scan, FinStates, QueueWithin, AckAt, Has;
    if finAcked {
      FinAcked(c, s.ackno, e, v, r.0);
    } else {
      SenderUnmoved(c, r.0, e, v);
    }
  }

  lemma StillHonest(s: Seg, iss: u32, d: Dir, d': Dir, w: seq<byte>)
    requires WellCut(d, w) && Honest(s, iss, d, w) && ReceiverMoved(d, d')
    ensures WellCut(d', w) && Honest(s, iss, d', w)
  {
    HonestLater(s, iss, d, d', w, w);
  }

  lemma StillOpen(c: Conn, iss: u32, d: Dir, w: seq<byte>, taken: seq<byte>)
    requires Receives(c, iss, d, w, taken) && (c.state == FinWait1 || c.state == FinWait2)
    ensures !c.peerFin
  {
  }

  lemma FinWait2Stage(c: Conn, s: Seg, now: nat, iss: u32, d: Dir, w: seq<byte>, taken: seq<byte>, e: Dir, v: seq<byte>)
    returns (d': Dir)
    requires Receives(c, iss, d, w, taken) && Sends(c, e, v) && c.state == FinWait2
    requires Honest(s, iss, d, w)
    ensures Sound(c, OnFinWait2(c, s, now), iss, d, d', w, taken, e, v)
  {
    assert WellCut(d, w);
    hide Receives, Sends, Honest, Deliver, States, FinTail, ReceiverMoved, Has, WellCut;
    var c2 := Deliver(c, s.seqno, s.payload);
    DeliverFrame(c, s.seqno, s.payload);
    var d1 := DeliverStage(c, iss, d, w, taken, s);
    StillHonest(s, iss, d, d1, w);
    StillOpen(c2, iss, d1, w, taken);
    d' := FinWaitTail(c2, s, true, now, iss, d, d1, w, taken);
    FinTailFrame(c2, s, true, now);
    SenderUnmoved(c, FinTail(c2, s, true, now).0, e, v);
  }

  lemma LastStages(c: Conn, s: Seg, now: nat, iss: u32, d: Dir, w: seq<byte>, taken: seq<byte>, e: Dir, v: seq<byte>)
    requires Receives(c, iss, d, w, taken) && Sends(c, e, v) && Truthful(s, c.send.iss, e)
    ensures c.state == LastAck ==> Sound(c, (OnLastAck(c, s, now), None), iss, d, d, w, taken, e, v)
    ensures c.state == Closing ==> Sound(c, (OnClosing(c, s, now), None), iss, d, d, w, taken, e, v)
  {
    ReceiverRests(d);
    AppendEmitsNone(c.retx.segs);
    if Has(s.flags, ACK) && s.ackno == c.send.nxt {
      if c.state == LastAck {
        var c' := OnLastAck(c, s, now);
        ReceiverUnmoved(c, iss, d, w, taken, c');
        hide Receives, Sends, Retransmit.Keep, Retransmit.Scan;
        FinAcked(c, s.ackno, e, v, c');
      } else if c.state == Closing {
        var c' := OnClosing(c, s, now);
        ReceiverUnmoved(c, iss, d, w, taken, c');
        hide Receives, Sends, Retransmit.Keep, Retransmit.Scan;
        FinAcked(c, s.ackno, e, v, c');
      }
    }
  }

  lemma Idle(c: Conn, c1: Conn, out: Option<Seg>, iss: u32, d: Dir, w: seq<byte>, taken: seq<byte>, e: Dir, v: seq<byte>)
    requires Receives(c, iss, d, w, taken) && Sends(c, e, v)
    requires SameSender(c, c1) && SameReceiver(c, c1) && c1.state == c.state
    requires out.Some? ==> out.value == BareAck(c1) && c.state != SynSent
    ensures Sound(c, (c1, out), iss, d, d, w, taken, e, v)
  {
    ReceiverRests(d);
    AppendEmitsNone(c.retx.segs);
    BareAckSpeaks(c1);
    IdleReceives(c, c1, iss, d, w, taken);
    hide Sends, Receives, BareAck, States, ReceiverMoved;
    SenderUnmoved(c, c1, e, v);
  }

  lemma IdleReceives(c: Conn, c1: Conn, iss: u32, d: Dir, w: seq<byte>, taken: seq<byte>)
    requires Receives(c, iss, d, w, taken) && SameReceiver(c, c1) && c1.state == c.state
    ensures Receives(c1, iss, d, w, taken)
  {
    hide Clean, WellCut;
  }

  lemma SyncedStep(c: Conn, s: Seg, env: Env, now: nat, iss: u32, d: Dir, w: seq<byte>, taken: seq<byte>, e: Dir, v: seq<byte>)
    returns (d': Dir)
    requires Receives(c, iss, d, w, taken) && Sends(c, e, v)
    requires Honest(s, iss, d, w) && Truthful(s, c.send.iss, e)
    ensures Sound(c, OnSynced(c, s, env, now), iss, d, d', w, taken, e, v)
  {
    hide Sends, Receives, Honest, Truthful, Sound, OnOpen, OnFinWait1, OnFinWait2, OnLastAck, OnClosing;
    d' := d;
    if c.state == Established || c.state == CloseWait {
      d' := OpenStage(c, s, env, now, iss, d, w, taken, e, v);
    } else if c.state == FinWait1 {
      d' := FinWait1Stage(c, s, now, iss, d, w, taken, e, v);
    } else if c.state == FinWait2 {
      d' := FinWait2Stage(c, s, now, iss, d, w, taken, e, v);
    } else if c.state == LastAck || c.state == Closing {
      LastStages(c, s, now, iss, d, w, taken, e, v);
    } else {
      Idle(c, c, None, iss, d, w, taken, e, v);
    }
  }

  lemma HonestNeverResets(s: Seg, iss: u32, d: Dir, w: seq<byte>)
    requires WellCut(d, w) && Honest(s, iss, d, w)
    ensures !Has(s.flags, RST)
  {
  }

  lemma SynRcvdStep(c: Conn, s: Seg, env: Env, now: nat, iss: u32, d: Dir, w: seq<byte>, taken: seq<byte>, e: Dir, v: seq<byte>)
    returns (d': Dir)
    requires Receives(c, iss, d, w, taken) && Sends(c, e, v) && c.state == SynRcvd
    requires Honest(s, iss, d, w) && Truthful(s, c.send.iss, e) && Has(s.flags, ACK) && s.ackno == c.send.nxt
    ensures Sound(c, OnSynced(Establish(c, s, now), s, env, now), iss, d, d', w, taken, e, v)
  {
    ReceiverRests(d);
    hide Sends, Receives, Honest, Truthful, Sound, Has, OnSynced, Establish, ReceiverMoved;
    EstablishStage(c, s, now, iss, d, w, taken, e, v);
    EstablishFrame(c, s, now);
    d' := SyncedStep(Establish(c, s, now), s, env, now, iss, d, w, taken, e, v);
    HandledAfter(c, Establish(c, s, now), OnSynced(Establish(c, s, now), s, env, now), iss, d, d, d', w, taken, e, v);
  }

  lemma ChallengeStep(c: Conn, env: Env, now: nat, iss: u32, d: Dir, w: seq<byte>, taken: seq<byte>, e: Dir, v: seq<byte>)
    requires Receives(c, iss, d, w, taken) && Sends(c, e, v) && c.state != SynSent
    ensures Sound(c, MaybeChallenge(c, env, now), iss, d, d, w, taken, e, v)
  {
    hide Sends, Receives, Sound, MaybeChallenge, BareAck;
    ChallengeFrame(c, env, now);
    Idle(c, MaybeChallenge(c, env, now).0, MaybeChallenge(c, env, now).1, iss, d, w, taken, e, v);
  }

  lemma DispatchStep(c: Conn, s: Seg, env: Env, now: nat, iss: u32, d: Dir, w: seq<byte>, taken: seq<byte>, e: Dir, v: seq<byte>)
    returns (d': Dir)
    requires Receives(c, iss, d, w, taken) && Sends(c, e, v)
    requires Honest(s, iss, d, w) && Truthful(s, c.send.iss, e)
    ensures Sound(c, Dispatch(c, s, env, now), iss, d, d', w, taken, e, v)
  {
    HonestNeverResets(s, iss, d, w);
    hide Sends, Receives, Honest, Truthful, Sound, Has, OnRst, OnSynced, OnSynSent, Establish, MaybeChallenge;
    d' := d;
    if c.state == SynSent {
      d' := SynSentStage(c, s, now, iss, d, w, taken, e, v);
    } else if Has(s.flags, SYN) && Synchronized(c.state) {
      ChallengeStep(c, env, now, iss, d, w, taken, e, v);
    } else if c.state != SynRcvd {
      d' := SyncedStep(c, s, env, now, iss, d, w, taken, e, v);
    } else if Has(s.flags, ACK) && s.ackno == c.send.nxt {
      d' := SynRcvdStep(c, s, env, now, iss, d, w, taken, e, v);
    } else {
      Idle(c, c, None, iss, d, w, taken, e, v);
    }
  }

  lemma EstablishFrame(c: Conn, s: Seg, now: nat)
    ensures Establish(c, s, now).state == Established && Establish(c, s, now).send.iss == c.send.iss
  {
  }

  /** Any honest, truthful segment, in any state: the receiving half still holds exactly whole units of
      the peer's stream and has passed on exactly its unbroken prefix, the sending half still tiles
      what is unacknowledged, and the reply repeats a queued packet or states the present. */
  lemma SegmentStep(c: Conn, s: Seg, env: Env, now: nat, iss: u32, d: Dir, w: seq<byte>, taken: seq<byte>, e: Dir, v: seq<byte>)
    returns (d': Dir)
    requires Receives(c, iss, d, w, taken) && Sends(c, e, v)
    requires Honest(s, iss, d, w) && Truthful(s, c.send.iss, e)
    ensures Sound(c, OnSegment(c, s, env, now), iss, d, d', w, taken, e, v)
  {
    var c1 := Arrive(c, now);
    Idle(c, c1, None, iss, d, w, taken, e, v);
    hide Sends, Receives, Honest, Truthful, Dispatch, ReceiverMoved, Replies;
    d' := DispatchStep(c1, s, env, now, iss, d, w, taken, e, v);
    ReceiverRests(d);
    HandledAfter(c, c1, Dispatch(c1, s, env, now), iss, d, d, d', w, taken, e, v);
  }
}
