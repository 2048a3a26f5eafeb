/** What arriving segments do to the receiving side: it only ever holds whole units of the stream,
    passes on exactly the unbroken prefix, and stops at the FIN. */
module Receiver {
  import opened Types
  import opened SeqNum
  import opened Segments
  import opened Connection
  import opened Segmentation
  import opened Direction
  import Reassembly

  /** Only the receiver's part of the direction moved. */
  ghost predicate ReceiverMoved(d: Dir, d': Dir) {
    Later(d, d') && d'.cuts == d.cuts && d'.fin == d.fin
  }

  lemma ReceiverRests(d: Dir)
    requires |d.cuts| >= 2
    ensures ReceiverMoved(d, d)
  {
  }

  /** A unit already passed on changes nothing. */
  lemma RecvOld(r: Reassembly.Reasm, cuts: seq<int>, i: int, k: int, seqno: u32, data: seq<byte>, rcvNxt: u32)
    requires Cuts(cuts) && 0 <= i < k < |cuts| && |data| == cuts[i + 1] - cuts[i]
    requires Off(r.base, rcvNxt) == cuts[k] - 1 && Off(r.base, seqno) == cuts[i] - 1
    ensures Reassembly.Recv(r, seqno, data, rcvNxt) == (r, [])
  {
    assert cuts[i + 1] <= cuts[k];
  }

  lemma ShiftBase(iss: u32, x: u32)
    requires 1 <= Off(iss, x)
    ensures Off(Add(iss, 1), x) == Off(iss, x) - 1
  {
  }

  function Advanced(d: Dir, got: set<int>, k: int): Dir {
    d.(got := got, k := k, stops := d.stops + {k})
  }

  lemma AdvancedLater(d: Dir, got: set<int>, k: int)
    requires |d.cuts| >= 2 && d.got <= got && d.k <= k && k !in d.got
    ensures ReceiverMoved(d, Advanced(d, got, k))
  {
  }

  /** Data arrives: the stream delivered grows by exactly the stretch that became unbroken. */
  lemma {:induction false} DataArrives(c: Conn, iss: u32, d: Dir, w: seq<byte>, taken: seq<byte>, s: Seg, i: int)
    returns (d': Dir)
    requires Receives(c, iss, d, w, taken) && c.state != SynSent
    requires Carries(s, iss, d, w, i) && 0 < i < DataUnits(d)
    ensures Receives(Deliver(c, s.seqno, s.payload), iss, d', w, taken) && ReceiverMoved(d, d')
  {
    UnitArrives(c, iss, d, w, taken, s, i);
    hide Reassembly.Recv, Off, Buffered;
    if i < d.k {
      RecvOld(c.reasm, d.cuts, i, d.k, s.seqno, s.payload, c.recv.nxt);
      d' := d;
      DeliverNothing(c, iss, d, w, taken, s);
    } else {
      assert !c.peerFin && d.cuts[d.k] <= d.cuts[DataUnits(d)];
      var k' := RecvUnit(c.reasm, d.cuts, w, d.got, d.k, i, s.seqno, c.recv.nxt);
      var got' := Received(d.cuts, d.got, d.k, i);
      d' := Advanced(d, got', k');
      DeliverSome(c, iss, d, w, taken, s, got', k');
    }
  }

  /** A data unit, and where it and the receiver stand from the first byte on. */
  lemma UnitArrives(c: Conn, iss: u32, d: Dir, w: seq<byte>, taken: seq<byte>, s: Seg, i: int)
    requires Receives(c, iss, d, w, taken) && c.state != SynSent
    requires Carries(s, iss, d, w, i) && 0 < i < DataUnits(d)
    ensures DataUnit(d.cuts, w, i) && s.payload == UnitBytes(d.cuts, w, i) && |s.payload| == d.cuts[i + 1] - d.cuts[i]
    ensures Off(c.reasm.base, c.recv.nxt) == d.cuts[d.k] - 1 && Off(c.reasm.base, s.seqno) == d.cuts[i] - 1
  {
    assert d.cuts[1] <= d.cuts[i] && d.cuts[1] <= d.cuts[d.k];
    ShiftBase(iss, s.seqno);
    ShiftBase(iss, c.recv.nxt);
    assert d.cuts[i + 1] <= d.cuts[DataUnits(d)];
    hide Clean, Off, Has;
  }

  lemma DeliverNothing(c: Conn, iss: u32, d: Dir, w: seq<byte>, taken: seq<byte>, s: Seg)
    requires Receives(c, iss, d, w, taken) && c.state != SynSent
    requires Reassembly.Recv(c.reasm, s.seqno, s.payload, c.recv.nxt) == (c.reasm, [])
    ensures Receives(Deliver(c, s.seqno, s.payload), iss, d, w, taken) && ReceiverMoved(d, d)
  {
    assert Deliver(c, s.seqno, s.payload) == c by {
      assert c.recvBuf + [] == c.recvBuf;
      assert Add(c.recv.nxt, 0) == c.recv.nxt;
    }
    ReceiverRests(d);
  }

  lemma DeliverSome(c: Conn, iss: u32, d: Dir, w: seq<byte>, taken: seq<byte>, s: Seg, got': set<int>, k': int)
    requires Receives(c, iss, d, w, taken) && c.state != SynSent && !c.peerFin && s.payload != []
    requires d.got <= got' && (forall i :: i in got' ==> 0 <= i < DataUnits(d))
    requires d.cuts[d.k] <= d.cuts[DataUnits(d)]
    requires var r := Reassembly.Recv(c.reasm, s.seqno, s.payload, c.recv.nxt);
             && Clean(r.0, d.cuts, w, got', k') && k' >= d.k && d.cuts[d.k] <= d.cuts[k'] && d.cuts[k'] - 1 <= |w|
             && r.1 == w[d.cuts[d.k] - 1..d.cuts[k'] - 1] && r.0.base == c.reasm.base
    ensures Receives(Deliver(c, s.seqno, s.payload), iss, Advanced(d, got', k'), w, taken)
    ensures ReceiverMoved(d, Advanced(d, got', k'))
  {
    var r := Reassembly.Recv(c.reasm, s.seqno, s.payload, c.recv.nxt);
    var c' := Deliver(c, s.seqno, s.payload);
    DeliverFields(c, s);
    BelowFin(d, w, got', k');
    AdvancedLater(d, got', k');
    Standing(c, iss, d, w, taken);
    hide Deliver, Reassembly.Recv, Clean, WellCut, Off, ReceiverMoved, Receives, Add;
    DeliveredOff(iss, c.recv.nxt, |r.1|);
    Spliced(taken, c.recvBuf, r.1, w, d.cuts[d.k] - 1, d.cuts[k'] - 1);
    ReceivesAdvanced(c, iss, d, w, taken, c', got', k');
  }

  lemma DeliveredOff(iss: u32, nxt: u32, n: nat)
    requires Off(iss, nxt) + n < TWO_31
    ensures Off(iss, Add(nxt, Low32(n))) == Off(iss, nxt) + n
  {
  }

  lemma Standing(c: Conn, iss: u32, d: Dir, w: seq<byte>, taken: seq<byte>)
    requires Receives(c, iss, d, w, taken) && c.state != SynSent && !c.peerFin
    ensures 1 <= d.k < |d.cuts| && 1 <= d.cuts[d.k] && Off(iss, c.recv.nxt) == d.cuts[d.k]
    ensures d.cuts[d.k] - 1 <= |w| && taken + c.recvBuf == w[..d.cuts[d.k] - 1]
  {
    hide Clean, Off;
  }

  lemma ReceivesAdvanced(c: Conn, iss: u32, d: Dir, w: seq<byte>, taken: seq<byte>, c': Conn, got': set<int>, k': int)
    requires Receives(c, iss, d, w, taken) && c.state != SynSent && !c.peerFin
    requires Clean(c'.reasm, d.cuts, w, got', k') && d.k <= k' <= DataUnits(d) && 1 <= d.cuts[k'] <= |w| + 1
    requires c'.state == c.state && c'.peerFin == c.peerFin && c'.pendingFin == c.pendingFin
    requires c'.recv.irs == c.recv.irs && Off(iss, c'.recv.nxt) == d.cuts[k'] && c'.reasm.base == c.reasm.base
    requires taken + c'.recvBuf == w[..d.cuts[k'] - 1]
    requires forall i :: i in got' ==> 0 <= i < DataUnits(d)
    ensures Receives(c', iss, Advanced(d, got', k'), w, taken)
  {
    hide Clean, Cuts, Off;
  }

  lemma Spliced(taken: seq<byte>, buf: seq<byte>, more: seq<byte>, w: seq<byte>, a: int, b: int)
    requires 0 <= a <= b <= |w| && taken + buf == w[..a] && more == w[a..b]
    ensures taken + (buf + more) == w[..b]
  {
    assert taken + (buf + more) == (taken + buf) + more;
  }

  lemma DeliverFields(c: Conn, s: Seg)
    requires s.payload != []
    ensures var r := Reassembly.Recv(c.reasm, s.seqno, s.payload, c.recv.nxt);
            Deliver(c, s.seqno, s.payload) ==
            c.(reasm := r.0, recv := c.recv.(nxt := Add(c.recv.nxt, Low32(|r.1|))), recvBuf := c.recvBuf + r.1)
  {
    hide Reassembly.Recv;
  }

  lemma BelowFin(d: Dir, w: seq<byte>, got: set<int>, k: int)
    requires WellCut(d, w) && 1 <= k < |d.cuts| && FirstMissing(got, k)
    requires forall i :: i in got ==> 0 <= i < DataUnits(d)
    ensures k <= DataUnits(d)
    ensures 1 <= d.cuts[k] < TWO_31
  {
    assert DataUnits(d) !in got;
  }

  /** A FIN sits right after the last byte sent, and carries no data. */
  lemma FinPosition(s: Seg, iss: u32, d: Dir, w: seq<byte>)
    requires WellCut(d, w) && Honest(s, iss, d, w) && Has(s.flags, FIN)
    ensures d.fin && s.payload == [] && Off(iss, Add(s.seqno, Low32(|s.payload|))) == d.cuts[DataUnits(d)]
  {
    var i :| Carries(s, iss, d, w, i);
    assert i == DataUnits(d) < Units(d);
  }

  /** The FIN is consumed once RCV.NXT stands at it, deferred or just arrived in an honest segment: that is right
      after the last byte sent, and everything sent has been passed on. */
  lemma FinArrives(c: Conn, iss: u32, d: Dir, w: seq<byte>, taken: seq<byte>, s: Seg, c': Conn) returns (d': Dir)
    requires Receives(c, iss, d, w, taken) && c.state != SynSent && !c.peerFin
    requires c.pendingFin == Some(c.recv.nxt)
             || (Honest(s, iss, d, w) && Has(s.flags, FIN) && Add(s.seqno, Low32(|s.payload|)) == c.recv.nxt)
    requires c'.recv == c.recv.(nxt := Add(c.recv.nxt, 1)) && c'.peerFin
    requires c'.pendingFin == c.pendingFin || c'.pendingFin.None?
    requires c'.reasm == c.reasm && c'.recvBuf == c.recvBuf
    requires c'.state == CloseWait || c'.state == Closing || c'.state == TimeWait
    ensures Receives(c', iss, d', w, taken) && ReceiverMoved(d, d')
    ensures WellCut(d, w) && d.fin && Off(iss, c.recv.nxt) == Sent(d) + 1 && taken + c.recvBuf == w[..Sent(d)]
  {
    AtFin(c, iss, d, w, taken, s);
    var got' := d.got + {d.k};
    d' := Advanced(d, got', d.k + 1);
    AdvancedLater(d, got', d.k + 1);
    AddOff(iss, c.recv.nxt, 1);
    NothingAhead(c, d, w);
    assert Clean(c'.reasm, d'.cuts, w, d'.got, d'.k);
    hide Buffered, Cuts, Off, ReceiverMoved, Clean, Honest, Add, Low32;
  }

  lemma AtFin(c: Conn, iss: u32, d: Dir, w: seq<byte>, taken: seq<byte>, s: Seg)
    requires Receives(c, iss, d, w, taken) && c.state != SynSent && !c.peerFin
    requires c.pendingFin == Some(c.recv.nxt)
             || (Honest(s, iss, d, w) && Has(s.flags, FIN) && Add(s.seqno, Low32(|s.payload|)) == c.recv.nxt)
    ensures WellCut(d, w) && d.fin && Off(iss, c.recv.nxt) == d.cuts[DataUnits(d)] && d.k == DataUnits(d)
  {
    if c.pendingFin != Some(c.recv.nxt) {
      FinPosition(s, iss, d, w);
    }
    hide Clean, Off, Honest;
  }

  lemma FragUnit(frags: map<u32, seq<byte>>, cuts: seq<int>, w: seq<byte>, got: set<int>, k: int, o: u32) returns (i: int)
    requires Cuts(cuts) && Buffered(frags, cuts, w, got, k) && o in frags
    ensures i in got && i >= k
  {
    assert HasUnit(cuts, w, got, k, o);
    i :| i in got && i >= k && IsUnitAt(cuts, w, i, o);
  }

  lemma NothingAhead(c: Conn, d: Dir, w: seq<byte>)
    requires Clean(c.reasm, d.cuts, w, d.got, d.k) && (forall i :: i in d.got ==> i < d.k) && d.k + 1 < |d.cuts|
    ensures Buffered(c.reasm.frags, d.cuts, w, d.got + {d.k}, d.k + 1)
  {
    if c.reasm.frags != map[] {
      var o :| o in c.reasm.frags;
      var _ := FragUnit(c.reasm.frags, d.cuts, w, d.got, d.k, o);
      assert false;
    }
  }

  /** Handling that leaves the receiving fields alone keeps the invariant, whatever state follows. */
  lemma ReceiverUnmoved(c: Conn, iss: u32, d: Dir, w: seq<byte>, taken: seq<byte>, c': Conn)
    requires Receives(c, iss, d, w, taken) && SameReceiver(c, c')
    requires c.state != SynSent && c'.state != SynSent && Progress(c', d)
    ensures Receives(c', iss, d, w, taken)
  {
  }
}
