/** What transmission, timers and closing do to the sending side: the queue keeps tiling the
    unacknowledged range, bytes are conserved, and every packet emitted is either a verbatim repeat
    or a whole new unit of the segmentation. */
module Sender {
  import opened Types
  import opened SeqNum
  import opened Segments
  import opened Connection
  import opened Calls
  import opened Segmentation
  import opened Direction
  import Retransmit
  import Reassembly
  import Congestion
  import Rtt

  /** p acknowledges what its sender has received by now, and reports what it holds. */
  ghost predicate Speaks(p: Seg, c: Conn) {
    && p.ackno == c.recv.nxt
    && forall b :: b in p.opts.sack ==> b in Reassembly.SackBlocks(c.reasm)
  }

  /** The state is kept, or a synchronized connection is given up. */
  predicate Quiet(c: Conn, c': Conn) {
    c'.state == c.state || (c'.state == Closed && c.state != SynSent)
  }

  /** Only the sender's part of the direction moved. */
  ghost predicate SenderMoved(d: Dir, d': Dir) {
    Later(d, d') && d'.got == d.got && d'.k == d.k && d'.stops == d.stops
  }

  ghost predicate Emits(c: Conn, outs: seq<Seg>, c': Conn, d': Dir, w: seq<byte>)
    requires WellCut(d', w)
  {
    && (forall p :: p in outs ==>
          Retransmit.PacketIn(c.retx.segs, p) || (c'.state != SynSent && Honest(p, c.send.iss, d', w) && Speaks(p, c')))
    && (forall e :: e in c'.retx.segs ==> Retransmit.PacketIn(c.retx.segs, e.packet) || e.packet in outs)
  }

  ghost predicate SenderStep(c: Conn, d: Dir, outs: seq<Seg>, c': Conn, d': Dir, w: seq<byte>) {
    && Sends(c', d', w) && SenderMoved(d, d') && c'.send.iss == c.send.iss
    && SameReceiver(c, c') && Emits(c, outs, c', d', w) && (c.state == SynSent <==> c'.state == SynSent)
  }

  lemma ComposeSteps(c: Conn, d: Dir, o1: seq<Seg>, c1: Conn, d1: Dir, o2: seq<Seg>, c2: Conn, d2: Dir, w: seq<byte>)
    requires SenderStep(c, d, o1, c1, d1, w) && SenderStep(c1, d1, o2, c2, d2, w)
    ensures SenderStep(c, d, o1 + o2, c2, d2, w)
  {
    LaterTransitive(d, d1, d2);
    forall p | p in o1 + o2
      ensures Retransmit.PacketIn(c.retx.segs, p) || (c2.state != SynSent && Honest(p, c.send.iss, d2, w) && Speaks(p, c2))
    {
      if p in o1 {
        EmittedLater(p, c, o1, c1, d1, d2, w);
      } else if Retransmit.PacketIn(c1.retx.segs, p) {
        var i :| 0 <= i < |c1.retx.segs| && c1.retx.segs[i].packet == p;
        assert c1.retx.segs[i] in c1.retx.segs;
        if p in o1 {
          EmittedLater(p, c, o1, c1, d1, d2, w);
        }
      }
    }
    forall e | e in c2.retx.segs
      ensures Retransmit.PacketIn(c.retx.segs, e.packet) || e.packet in o1 + o2
    {
      if Retransmit.PacketIn(c1.retx.segs, e.packet) {
        var i :| 0 <= i < |c1.retx.segs| && c1.retx.segs[i].packet == e.packet;
        assert c1.retx.segs[i] in c1.retx.segs;
      }
    }
  }

  lemma EmittedLater(p: Seg, c: Conn, outs: seq<Seg>, c': Conn, d: Dir, d': Dir, w: seq<byte>)
    requires WellCut(d, w) && WellCut(d', w) && Later(d, d') && Emits(c, outs, c', d, w) && p in outs
    ensures Retransmit.PacketIn(c.retx.segs, p) || (c'.state != SynSent && Honest(p, c.send.iss, d', w) && Speaks(p, c'))
  {
    if !Retransmit.PacketIn(c.retx.segs, p) {
      HonestLater(p, c.send.iss, d, d', w, w);
    }
  }

  // ---- changes to the queue that keep its shape ----

  lemma ShapeTiled(segs: seq<Retransmit.Unacked>, segs': seq<Retransmit.Unacked>, iss: u32, d: Dir, w: seq<byte>)
    requires WellCut(d, w) && Tiled(segs, iss, d, w) && Retransmit.SameShape(segs, segs')
    ensures Tiled(segs', iss, d, w)
  {
    forall j | 0 <= j < |segs'|
      ensures Entry(segs'[j], iss, d, w, Units(d) - |segs'| + j)
    {
      assert Entry(segs[j], iss, d, w, Units(d) - |segs| + j);
    }
  }

  /** Retransmissions, new timers and a timeout cut leave the sending side as it was. */
  lemma ShapeStep(c: Conn, d: Dir, outs: seq<Seg>, c': Conn, w: seq<byte>)
    requires Sends(c, d, w) && Retransmit.SameShape(c.retx.segs, c'.retx.segs)
    requires Retransmit.PacketsIn(c.retx.segs, outs)
    requires c'.send == c.send && c'.sendBuf == c.sendBuf && Quiet(c, c') && SameReceiver(c, c')
    requires Congestion.InRecovery(c'.cong) ==> Congestion.InRecovery(c.cong)
    requires c'.recover == c.recover
    ensures SenderStep(c, d, outs, c', d, w)
  {
    ShapeSends(c, d, c', w);
    ShapeEmits(c, d, outs, c', w);
  }

  lemma ShapeSends(c: Conn, d: Dir, c': Conn, w: seq<byte>)
    requires Sends(c, d, w) && Retransmit.SameShape(c.retx.segs, c'.retx.segs)
    requires c'.send == c.send && c'.sendBuf == c.sendBuf && Quiet(c, c')
    requires Congestion.InRecovery(c'.cong) ==> Congestion.InRecovery(c.cong)
    requires c'.recover == c.recover
    ensures Sends(c', d, w)
  {
    ShapeTiled(c.retx.segs, c'.retx.segs, c.send.iss, d, w);
    hide Entry, WellCut;
  }

  lemma ShapeEmits(c: Conn, d: Dir, outs: seq<Seg>, c': Conn, w: seq<byte>)
    requires WellCut(d, w) && Retransmit.SameShape(c.retx.segs, c'.retx.segs)
    requires Retransmit.PacketsIn(c.retx.segs, outs)
    ensures Emits(c, outs, c', d, w)
  {
    hide WellCut, Honest, Speaks;
    forall e | e in c'.retx.segs
      ensures Retransmit.PacketIn(c.retx.segs, e.packet)
    {
      var i :| 0 <= i < |c'.retx.segs| && c'.retx.segs[i] == e;
      assert c.retx.segs[i].packet == e.packet;
    }
  }

  /** A step that only touches fields the protocol state does not depend on. */
  lemma IdleStep(c: Conn, d: Dir, c': Conn, w: seq<byte>)
    requires Sends(c, d, w) && c'.retx.segs == c.retx.segs
    requires c'.send == c.send && c'.sendBuf == c.sendBuf && Quiet(c, c') && SameReceiver(c, c')
    requires c'.cong == c.cong && c'.recover == c.recover
    ensures SenderStep(c, d, [], c', d, w)
  {
    ShapeStep(c, d, [], c', w);
  }

  // ---- new data ----

  function Extended(d: Dir, n: int): Dir
    requires |d.cuts| > 0
  {
    d.(cuts := d.cuts + [d.cuts[|d.cuts| - 1] + n])
  }

  lemma ExtendCuts(d: Dir, w: seq<byte>, n: int)
    requires WellCut(d, w) && !d.fin && 0 < n && Sent(d) + n <= |w| && |w| + 3 < TWO_31
    ensures WellCut(Extended(d, n), w) && SenderMoved(d, Extended(d, n))
    ensures Sent(Extended(d, n)) == Sent(d) + n
  {
  }

  lemma AppendTiled(segs: seq<Retransmit.Unacked>, iss: u32, d: Dir, d': Dir, w: seq<byte>, e: Retransmit.Unacked)
    requires WellCut(d, w) && WellCut(d', w) && Later(d, d') && Units(d') == Units(d) + 1
    requires Tiled(segs, iss, d, w) && Entry(e, iss, d', w, Units(d))
    ensures Tiled(segs + [e], iss, d', w)
  {
    hide Entry, WellCut, Later;
    var segs' := segs + [e];
    assert |segs'| <= Units(d');
    forall j | 0 <= j < |segs'|
      ensures Entry(segs'[j], iss, d', w, Units(d') - |segs'| + j)
    {
      if j < |segs| {
        EntryLater(segs[j], iss, d, d', w, w, Units(d) - |segs| + j);
      }
    }
  }

  lemma AppendEmits(segs: seq<Retransmit.Unacked>, e: Retransmit.Unacked)
    ensures forall x :: x in segs + [e] ==> Retransmit.PacketIn(segs, x.packet) || x == e
  {
    forall x | x in segs + [e]
      ensures Retransmit.PacketIn(segs, x.packet) || x == e
    {
      if x in segs {
        var i :| 0 <= i < |segs| && segs[i] == x;
        assert segs[i].packet == x.packet;
      }
    }
  }

  /** The segment cut off the send buffer is the next unit, whole. */
  lemma TransmitCarries(c: Conn, d: Dir, w: seq<byte>, n: nat, flags: byte, now: nat)
    requires Sends(c, d, w) && !d.fin && |w| + 3 < TWO_31
    requires 0 < n <= |c.sendBuf| && (flags == ACK || flags == PSH + ACK)
    ensures WellCut(Extended(d, n), w)
    ensures Carries(Transmit(c, n, flags, now).1, c.send.iss, Extended(d, n), w, Units(d))
  {
    var p := Transmit(c, n, flags, now).1;
    var d' := Extended(d, n);
    ExtendCuts(d, w, n);
    assert c.sendBuf[..n] == w[Sent(d)..Sent(d) + n];
    assert p.payload == Content(d', w, Units(d));
  }

  lemma TransmitFrame(c: Conn, n: nat, flags: byte, now: nat)
    requires n <= |c.sendBuf|
    ensures var t := Transmit(c, n, flags, now);
            var end := Add(c.send.nxt, Low32(n));
            && t.0.state == c.state && t.0.send == c.send.(nxt := end) && t.0.sendBuf == c.sendBuf[n..]
            && t.0.recover == c.recover && t.0.cong == c.cong && SameReceiver(c, t.0)
            && t.0.retx.segs == c.retx.segs + [Retransmit.Unacked(Sub(end, Low32(n)), end, t.1, now, 0, false)]
            && t.1.ackno == c.recv.nxt && t.1.opts.sack == []
  {
    hide Add, Sub;
  }

  lemma {:induction false} TransmitStep(c: Conn, d: Dir, w: seq<byte>, n: nat, flags: byte, now: nat) returns (d': Dir)
    requires Sends(c, d, w) && (c.state == Established || c.state == CloseWait) && |w| + 3 < TWO_31
    requires 0 < n <= |c.sendBuf| && (flags == ACK || flags == PSH + ACK)
    ensures SenderStep(c, d, [Transmit(c, n, flags, now).1], Transmit(c, n, flags, now).0, d', w)
  {
    d' := Extended(d, n);
    TransmitCarries(c, d, w, n, flags, now);
    TransmitFrame(c, n, flags, now);
    hide Transmit, Has, Off, Add, Sub, Bare, Cuts;
    var t := Transmit(c, n, flags, now);
    ExtendCuts(d, w, n);
    TransmitTiled(c, d, w, t.0, d', n, now, t.1);
    TransmitSends(c, d, w, t.0, d');
    TransmitEmits(c, d', w, t.0, t.1, Units(d));
    hide Sends, WellCut, Emits, SenderMoved;
  }

  lemma SendState(c: Conn, d: Dir, w: seq<byte>)
    requires Sends(c, d, w)
    ensures WellCut(d, w) && 0 <= Sent(d) <= |w| && c.sendBuf == w[Sent(d)..]
    ensures Off(c.send.iss, c.send.nxt) == d.cuts[Units(d)] && Tiled(c.retx.segs, c.send.iss, d, w)
  {
    hide Off, Tiled, UnaOk, RecoverOk;
  }

  lemma TransmitTiled(c: Conn, d: Dir, w: seq<byte>, c': Conn, d': Dir, n: nat, now: nat, p: Seg)
    requires Sends(c, d, w) && !d.fin && 0 < n <= |c.sendBuf|
    requires d' == Extended(d, n) && WellCut(d', w) && Later(d, d') && Carries(p, c.send.iss, d', w, Units(d))
    requires var end := Add(c.send.nxt, Low32(n));
             && c'.send.nxt == end && c'.sendBuf == c.sendBuf[n..]
             && c'.retx.segs == c.retx.segs + [Retransmit.Unacked(Sub(end, Low32(n)), end, p, now, 0, false)]
    ensures Off(c.send.iss, c'.send.nxt) == d'.cuts[Units(d')] && c'.sendBuf == w[Sent(d')..]
    ensures Tiled(c'.retx.segs, c.send.iss, d', w)
  {
    hide Off, Add, Sub, Low32, Carries, Tiled, Sends, Later, WellCut, Entry;
    var e := c'.retx.segs[|c.retx.segs|];
    SendState(c, d, w);
    LastOfExtended(d, w, n);
    SuffixRest(w, Sent(d), n);
    TransmitNumbers(c.send.iss, c.send.nxt, n);
    NewEntry(e, c.send.iss, d', w, Units(d));
    AppendTiled(c.retx.segs, c.send.iss, d, d', w, e);
  }

  lemma NewEntry(e: Retransmit.Unacked, iss: u32, d: Dir, w: seq<byte>, i: int)
    requires WellCut(d, w) && Carries(e.packet, iss, d, w, i) && !e.sacked
    requires Off(iss, e.start) == d.cuts[i] && Off(iss, e.end) == d.cuts[i + 1]
    ensures Entry(e, iss, d, w, i)
  {
    hide Carries, WellCut, Off;
  }

  lemma LastOfExtended(d: Dir, w: seq<byte>, n: int)
    requires WellCut(d, w) && !d.fin && WellCut(Extended(d, n), w)
    ensures |d.cuts| >= 2 && Units(Extended(d, n)) == Units(d) + 1
    ensures Extended(d, n).cuts[Units(d)] == d.cuts[Units(d)]
    ensures Extended(d, n).cuts[Units(d) + 1] == d.cuts[Units(d)] + n < TWO_31
    ensures Sent(Extended(d, n)) == Sent(d) + n <= |w|
  {
  }

  lemma SuffixRest(w: seq<byte>, from: int, n: nat)
    requires 0 <= from && from + n <= |w|
    ensures w[from..][n..] == w[from + n..]
  {
  }

  lemma TransmitEmits(c: Conn, d': Dir, w: seq<byte>, c': Conn, p: Seg, i: int)
    requires WellCut(d', w) && Carries(p, c.send.iss, d', w, i)
    requires c'.state != SynSent && p.ackno == c'.recv.nxt && p.opts.sack == []
    requires |c'.retx.segs| == |c.retx.segs| + 1 && c'.retx.segs[..|c.retx.segs|] == c.retx.segs
    requires c'.retx.segs[|c.retx.segs|].packet == p
    ensures Emits(c, [p], c', d', w)
  {
    hide WellCut, Carries, Bare;
    AppendEmits(c.retx.segs, c'.retx.segs[|c.retx.segs|]);
    assert c'.retx.segs == c.retx.segs + [c'.retx.segs[|c.retx.segs|]];
  }

  lemma TransmitNumbers(iss: u32, nxt: u32, n: nat)
    requires Off(iss, nxt) + n < TWO_31
    ensures Off(iss, Add(nxt, Low32(n))) == Off(iss, nxt) + n
    ensures Sub(Add(nxt, Low32(n)), Low32(n)) == nxt
  {
  }

  lemma TransmitSends(c: Conn, d: Dir, w: seq<byte>, c': Conn, d': Dir)
    requires Sends(c, d, w) && WellCut(d', w) && Later(d, d') && Units(d') == Units(d) + 1
    requires d'.stops == d.stops && d'.fin == d.fin == false
    requires c.state == Established || c.state == CloseWait
    requires c'.state == c.state && c'.send == c.send.(nxt := c'.send.nxt) && c'.recover == c.recover && c'.cong == c.cong
    requires Off(c.send.iss, c'.send.nxt) == d'.cuts[Units(d')] && c'.sendBuf == w[Sent(d')..]
    requires |c'.retx.segs| == |c.retx.segs| + 1 && Tiled(c'.retx.segs, c.send.iss, d', w)
    ensures Sends(c', d', w)
  {
  }

  // ---- close ----

  lemma CloseCuts(d: Dir, w: seq<byte>)
    requires WellCut(d, w) && !d.fin && |w| + 3 < TWO_31
    ensures WellCut(Extended(d, 1).(fin := true), w) && SenderMoved(d, Extended(d, 1).(fin := true))
    ensures Sent(Extended(d, 1).(fin := true)) == Sent(d)
  {
  }

  lemma {:induction false} CloseStep(c: Conn, d: Dir, w: seq<byte>, now: nat) returns (d': Dir)
    requires Sends(c, d, w) && |w| + 3 < TWO_31
    ensures var r := Close(c, now);
            SenderStep(c, d, if r.1.Some? then [r.1.value] else [], r.0, d', w)
  {
    if c.state != Established && c.state != CloseWait {
      d' := d;
      hide Sends, SenderStep;
      IdleStep(c, d, c, w);
    } else {
      d' := Extended(d, 1).(fin := true);
      CloseFrame(c, now);
      hide Close, Has, Off, Add, Sub, Bare, Cuts;
      var r := Close(c, now);
      CloseCuts(d, w);
      CloseTiled(c, d, w, r.0, d', now, r.1.value);
      CloseSends(c, d, w, r.0, d');
      TransmitEmits(c, d', w, r.0, r.1.value, Units(d));
      hide Sends, WellCut, Emits, SenderMoved;
    }
  }

  lemma CloseFrame(c: Conn, now: nat)
    requires c.state == Established || c.state == CloseWait
    ensures var r := Close(c, now);
            var end := Add(c.send.nxt, 1);
            && r.1.Some? && (r.0.state == FinWait1 || r.0.state == LastAck)
            && r.0.send == c.send.(nxt := end) && r.0.sendBuf == c.sendBuf
            && r.0.recover == c.recover && r.0.cong == c.cong && SameReceiver(c, r.0)
            && r.0.retx.segs == c.retx.segs + [Retransmit.Unacked(c.send.nxt, end, r.1.value, now, 0, false)]
            && r.1.value.ackno == c.recv.nxt && r.1.value.opts.sack == []
            && r.1.value.seqno == c.send.nxt && r.1.value.flags == FIN + ACK && r.1.value.payload == []
  {
    hide Add;
  }

  lemma CloseTiled(c: Conn, d: Dir, w: seq<byte>, c': Conn, d': Dir, now: nat, p: Seg)
    requires Sends(c, d, w) && !d.fin
    requires d' == Extended(d, 1).(fin := true) && WellCut(d', w) && Later(d, d')
    requires p.seqno == c.send.nxt && p.flags == FIN + ACK && p.payload == []
    requires var end := Add(c.send.nxt, 1);
             && c'.send.nxt == end
             && c'.retx.segs == c.retx.segs + [Retransmit.Unacked(c.send.nxt, end, p, now, 0, false)]
    ensures Off(c.send.iss, c'.send.nxt) == d'.cuts[Units(d')]
    ensures Carries(p, c.send.iss, d', w, Units(d)) && Tiled(c'.retx.segs, c.send.iss, d', w)
  {
    var e := c'.retx.segs[|c.retx.segs|];
    TransmitNumbers(c.send.iss, c.send.nxt, 1);
    hide Off, Add, Sub, Low32, Tiled, UnaOk, RecoverOk;
    assert Carries(p, c.send.iss, d', w, Units(d));
    hide Carries;
    assert Entry(e, c.send.iss, d', w, Units(d));
    AppendTiled(c.retx.segs, c.send.iss, d, d', w, e);
  }

  lemma CloseSends(c: Conn, d: Dir, w: seq<byte>, c': Conn, d': Dir)
    requires Sends(c, d, w) && WellCut(d', w) && Later(d, d') && Units(d') == Units(d) + 1
    requires d'.stops == d.stops && !d.fin && d'.fin
    requires c.state == Established || c.state == CloseWait
    requires c'.state == FinWait1 || c'.state == LastAck
    requires c'.send == c.send.(nxt := c'.send.nxt) && c'.recover == c.recover && c'.cong == c.cong
    requires Off(c.send.iss, c'.send.nxt) == d'.cuts[Units(d')] && c'.sendBuf == c.sendBuf
    requires |c'.retx.segs| == |c.retx.segs| + 1 && Tiled(c'.retx.segs, c.send.iss, d', w)
    ensures Sends(c', d', w)
  {
    SendState(c, d, w);
    BothLater(c, d, c', d', w);
    assert Sent(d') == Sent(d) by { SentSame(d, d', w); }
    hide Tiled, Cuts, Off, Later;
  }

  lemma SentSame(d: Dir, d': Dir, w: seq<byte>)
    requires WellCut(d, w) && WellCut(d', w) && Later(d, d') && Units(d') == Units(d) + 1 && !d.fin && d'.fin
    ensures Sent(d') == Sent(d)
  {
  }

  /** SND.UNA and the recovery point stand where they stood. */
  lemma BothLater(c: Conn, d: Dir, c': Conn, d': Dir, w: seq<byte>)
    requires Sends(c, d, w) && WellCut(d', w) && Later(d, d') && Units(d') == Units(d) + 1 && d'.stops == d.stops
    requires c.state == Established || c.state == CloseWait
    requires c'.state == FinWait1 || c'.state == LastAck
    requires c'.send == c.send.(nxt := c'.send.nxt) && c'.recover == c.recover && c'.cong == c.cong
    requires Off(c.send.iss, c'.send.nxt) == d'.cuts[Units(d')] && |c'.retx.segs| == |c.retx.segs| + 1
    ensures |c'.retx.segs| <= Units(d') && UnaOk(c', d') && RecoverOk(c')
  {
    hide Tiled, Off;
    assert |c.retx.segs| <= Units(d) by { QueueWithinUnits(c, d, w); }
    assert d'.cuts[Units(d)] < d'.cuts[Units(d')];
  }

  lemma QueueWithinUnits(c: Conn, d: Dir, w: seq<byte>)
    requires Sends(c, d, w)
    ensures |c.retx.segs| <= Units(d)
  {
    hide Entry, Off;
  }

  // ---- poll_transmit ----

  lemma {:induction false} FillHolesShape(q: Retransmit.Retx, limit: u32, now: nat)
    ensures Retransmit.SameShape(q.segs, FillHoles(q, limit, now).0.segs)
    ensures Retransmit.PacketsIn(q.segs, FillHoles(q, limit, now).1)
    decreases Retransmit.NeverResent(q.segs)
  {
    var at := Retransmit.NextUntried(q.segs, 0);
    if Retransmit.Pipe(q) < limit && at.Some? {
      Retransmit.NeverResentDrops(q.segs, at.value, now);
      Retransmit.ResendKeepsShape(q, at, now);
      var r := Retransmit.NextLostRetransmit(q, now);
      FillHolesShape(r.0, limit, now);
      forall p | p in FillHoles(r.0, limit, now).1
        ensures Retransmit.PacketIn(q.segs, p)
      {
        var i :| 0 <= i < |r.0.segs| && r.0.segs[i].packet == p;
        assert q.segs[i].packet == p;
      }
    }
  }

  lemma {:induction false} FillPipeStep(c: Conn, d: Dir, w: seq<byte>, limit: u32, now: nat) returns (d': Dir)
    requires Sends(c, d, w) && (c.state == Established || c.state == CloseWait) && |w| + 3 < TWO_31
    ensures SenderStep(c, d, FillPipe(c, limit, now).1, FillPipe(c, limit, now).0, d', w)
    decreases |c.sendBuf|
  {
    hide Sends, Emits, SenderMoved, SameReceiver;
    var pipe := Retransmit.Pipe(c.retx);
    var n := Min(Min(limit - pipe, c.opt.sendMss), |c.sendBuf|);
    if c.sendBuf == [] || pipe >= limit || n == 0 {
      d' := d;
      IdleStep(c, d, c, w);
    } else {
      var t := Transmit(c, n, PSH + ACK, now);
      var d1 := TransmitStep(c, d, w, n, PSH + ACK, now);
      d' := FillPipeStep(t.0, d1, w, limit, now);
      var rest := FillPipe(t.0, limit, now);
      ComposeSteps(c, d, [t.1], t.0, d1, rest.1, rest.0, d', w);
    }
  }

  /** One segment of the window-clocked path: pacing, then transmission. */
  lemma SendOne(c: Conn, d: Dir, w: seq<byte>, pacing: real, n: nat, now: nat) returns (d': Dir)
    requires Sends(c, d, w) && (c.state == Established || c.state == CloseWait) && |w| + 3 < TWO_31
    requires 0 < n <= |c.sendBuf|
    ensures var t := Transmit(Pace(c, pacing, n, now), n, PSH + ACK, now); SenderStep(c, d, [t.1], t.0, d', w)
  {
    hide Sends, Emits, SenderMoved;
    var p := Pace(c, pacing, n, now);
    IdleStep(c, d, p, w);
    var t := Transmit(p, n, PSH + ACK, now);
    d' := TransmitStep(p, d, w, n, PSH + ACK, now);
    ComposeSteps(c, d, [], p, d, [t.1], t.0, d', w);
    assert [] + [t.1] == [t.1];
  }

  lemma {:induction false} FillWindowStep(c: Conn, d: Dir, w: seq<byte>, pacing: real, now: nat) returns (d': Dir)
    requires Sends(c, d, w) && (c.state == Established || c.state == CloseWait) && |w| + 3 < TWO_31
    ensures SenderStep(c, d, FillWindow(c, pacing, now).1, FillWindow(c, pacing, now).0, d', w)
    decreases |c.sendBuf|
  {
    hide Sends, Emits, SenderMoved, SameReceiver;
    var n := if c.sendBuf == [] then 0 else NextSend(c, pacing, now);
    if n == 0 {
      d' := d;
      IdleStep(c, d, c, w);
    } else {
      var t := Transmit(Pace(c, pacing, n, now), n, PSH + ACK, now);
      var d1 := SendOne(c, d, w, pacing, n, now);
      d' := FillWindowStep(t.0, d1, w, pacing, now);
      var rest := FillWindow(t.0, pacing, now);
      ComposeSteps(c, d, [t.1], t.0, d1, rest.1, rest.0, d', w);
    }
  }

  lemma RecoveryPoll(c: Conn, d: Dir, w: seq<byte>, now: nat) returns (d': Dir)
    requires Sends(c, d, w) && (c.state == Established || c.state == CloseWait) && |w| + 3 < TWO_31
    ensures var limit := SendLimit(c);
            var holes := FillHoles(c.retx, limit, now);
            var fill := FillPipe(c.(retx := holes.0), limit, now);
            SenderStep(c, d, holes.1 + fill.1, fill.0, d', w)
  {
    hide Sends, Emits, SenderMoved;
    var limit := SendLimit(c);
    var holes := FillHoles(c.retx, limit, now);
    FillHolesShape(c.retx, limit, now);
    var c1 := c.(retx := holes.0);
    ShapeStep(c, d, holes.1, c1, w);
    d' := FillPipeStep(c1, d, w, limit, now);
    var fill := FillPipe(c1, limit, now);
    ComposeSteps(c, d, holes.1, c1, d, fill.1, fill.0, d', w);
  }

  lemma ArmProbeFrame(c: Conn, now: nat)
    ensures var c' := ArmProbe(c, now);
            && c'.retx == c.retx && c'.send == c.send && c'.sendBuf == c.sendBuf && c'.state == c.state
            && SameReceiver(c, c') && c'.cong == c.cong && c'.recover == c.recover
  {
    hide FlightSize, Rtt.Rto;
  }

  lemma WindowPoll(c: Conn, d: Dir, w: seq<byte>, now: nat) returns (d': Dir)
    requires Sends(c, d, w) && (c.state == Established || c.state == CloseWait) && |w| + 3 < TWO_31
    ensures var fill := FillWindow(c, Congestion.PacingRate(c.cong), now);
            SenderStep(c, d, fill.1, ArmProbe(fill.0, now), d', w)
  {
    hide Sends, Emits, SenderMoved, SameReceiver;
    var fill := FillWindow(c, Congestion.PacingRate(c.cong), now);
    ArmProbeFrame(fill.0, now);
    hide ArmProbe, FillWindow;
    d' := FillWindowStep(c, d, w, Congestion.PacingRate(c.cong), now);
    IdleStep(fill.0, d', ArmProbe(fill.0, now), w);
    ComposeSteps(c, d, fill.1, fill.0, d', [], ArmProbe(fill.0, now), d', w);
    assert fill.1 + [] == fill.1;
  }

  lemma PollStep(c: Conn, d: Dir, w: seq<byte>, now: nat) returns (d': Dir)
    requires Sends(c, d, w) && |w| + 3 < TWO_31
    ensures SenderStep(c, d, PollTransmit(c, now).1, PollTransmit(c, now).0, d', w)
  {
    hide Sends, Emits, SenderMoved;
    if c.state != Established && c.state != CloseWait {
      d' := d;
      IdleStep(c, d, c, w);
    } else {
      var c0 := Stamped(c, now);
      var r := PollTransmit(c, now);
      IdleStep(c, d, c0, w);
      if c0.opt.sackOk && Congestion.InRecovery(c0.cong) {
        d' := RecoveryPoll(c0, d, w, now);
      } else {
        d' := WindowPoll(c0, d, w, now);
      }
      ComposeSteps(c, d, [], c0, d, r.1, r.0, d', w);
      assert [] + r.1 == r.1;
    }
  }

  // ---- on_tick ----

  lemma AppendEmitsNone(segs: seq<Retransmit.Unacked>)
    ensures forall x :: x in segs ==> Retransmit.PacketIn(segs, x.packet)
  {
    AppendEmits(segs, Retransmit.Unacked(0, 0, Seg(0, 0, 0, 0, NO_OPTIONS, []), 0, 0, false));
  }

  lemma CutFacts(d: Dir, w: seq<byte>)
    requires WellCut(d, w)
    ensures |d.cuts| >= 2 && SenderMoved(d, d)
  {
  }

  lemma ReapStep(c: Conn, d: Dir, w: seq<byte>, now: nat)
    requires Sends(c, d, w)
    ensures SenderStep(c, d, [], Reap(Stamped(c, now), now), d, w)
  {
    hide Sends, SenderStep;
    IdleStep(c, d, Reap(Stamped(c, now), now), w);
  }

  /** Repeats leave the sending half as it was. */
  lemma ResendStep(c: Conn, d: Dir, w: seq<byte>, r: (Conn, seq<Seg>))
    requires Sends(c, d, w) && Resends(c, r)
    ensures SenderStep(c, d, r.1, r.0, d, w)
  {
    hide Sends, SenderStep, Retransmit.SameShape, Retransmit.PacketsIn;
    ShapeStep(c, d, r.1, r.0, w);
  }

  lemma PersistStep(c: Conn, d: Dir, w: seq<byte>, now: nat) returns (d': Dir)
    requires Sends(c, d, w) && |w| + 3 < TWO_31
    ensures SenderStep(c, d, TickPersist(c, now).1, TickPersist(c, now).0, d', w)
  {
    hide Sends, Emits, SenderMoved;
    var r := TickPersist(c, now);
    if WindowShut(c) && c.clock.persistMs != 0 && now >= c.clock.persistMs {
      var t := Transmit(c, 1, ACK, now);
      d' := TransmitStep(c, d, w, 1, ACK, now);
      IdleStep(t.0, d', r.0, w);
      ComposeSteps(c, d, [t.1], t.0, d', [], r.0, d', w);
      assert [t.1] + [] == r.1;
    } else {
      d' := d;
      IdleStep(c, d, r.0, w);
    }
  }

  lemma OneBack(iss: u32, nxt: u32)
    requires 1 <= Off(iss, nxt)
    ensures Off(iss, Sub(nxt, 1)) == Off(iss, nxt) - 1
  {
  }

  lemma CutsStart(d: Dir, w: seq<byte>)
    requires WellCut(d, w)
    ensures |d.cuts| >= 2 && 1 <= d.cuts[Units(d)]
  {
  }

  lemma KeepaliveStep(c: Conn, d: Dir, w: seq<byte>, now: nat)
    requires Sends(c, d, w)
    ensures SenderStep(c, d, TickKeepalive(c, now).1, TickKeepalive(c, now).0, d, w)
  {
    var c' := TickKeepalive(c, now).0;
    assert Sends(c', d, w) && SameReceiver(c, c') by {
      KeepaliveFrame(c, now);
      Retransmit.ShapeSelf(c.retx.segs);
      hide Sends, TickKeepalive;
      ShapeSends(c, d, c', w);
    }
    CutFacts(d, w);
    AppendEmitsNone(c.retx.segs);
    KeepaliveFrame(c, now);
    KeepaliveSpeaks(c, d, w, now);
    hide Sends, WellCut, TickKeepalive, Honest, Speaks, SenderMoved;
  }

  lemma KeepaliveFrame(c: Conn, now: nat)
    ensures var c' := TickKeepalive(c, now).0;
            && c' == c.(state := c'.state, clock := c'.clock) && (c'.state == c.state || (c'.state == Closed && c.state == Established))
  {
    hide FlightSize, Segment;
  }

  lemma KeepaliveSpeaks(c: Conn, d: Dir, w: seq<byte>, now: nat)
    requires Sends(c, d, w)
    ensures WellCut(d, w)
    ensures forall p :: p in TickKeepalive(c, now).1 ==>
              Honest(p, c.send.iss, d, w) && Speaks(p, TickKeepalive(c, now).0) && TickKeepalive(c, now).0.state != SynSent
  {
    SendState(c, d, w);
    CutsStart(d, w);
    OneBack(c.send.iss, c.send.nxt);
    hide Sends, WellCut, Off, FlightSize;
    assert forall p :: p in TickKeepalive(c, now).1 ==> Control(p, c.send.iss, d);
  }

  lemma TickStep(c: Conn, d: Dir, w: seq<byte>, now: nat) returns (d': Dir)
    requires Sends(c, d, w) && |w| + 3 < TWO_31
    ensures SenderStep(c, d, OnTick(c, now).1, OnTick(c, now).0, d', w)
  {
    hide Sends, Emits, SenderMoved, SameReceiver, Resends, Reap, TickRack, TickProbe, TickRto, TickPersist,
      TickKeepalive;
    var c0 := Reap(Stamped(c, now), now);
    var a := TickRack(c0, now);
    var b := TickProbe(a.0, now);
    var r := TickRto(b.0, now);
    var e := TickPersist(r.0, now);
    var f := TickKeepalive(e.0, now);
    ReapStep(c, d, w, now);
    ResendSteps(c0, now);
    ResendStep(c0, d, w, a);
    ComposeSteps(c, d, [], c0, d, a.1, a.0, d, w);
    ResendSteps(a.0, now);
    ResendStep(a.0, d, w, b);
    ComposeSteps(c, d, [] + a.1, a.0, d, b.1, b.0, d, w);
    ResendSteps(b.0, now);
    ResendStep(b.0, d, w, r);
    ComposeSteps(c, d, [] + a.1 + b.1, b.0, d, r.1, r.0, d, w);
    d' := PersistStep(r.0, d, w, now);
    ComposeSteps(c, d, [] + a.1 + b.1 + r.1, r.0, d, e.1, e.0, d', w);
    KeepaliveStep(e.0, d', w, now);
    ComposeSteps(c, d, [] + a.1 + b.1 + r.1 + e.1, e.0, d', f.1, f.0, d', w);
    assert [] + a.1 + b.1 + r.1 + e.1 + f.1 == OnTick(c, now).1;
  }
}
