/** SACK loss recovery (section 4 of RFC 6675) keeps its books: the pipe estimate accounts for every
    queued byte, each retransmitted hole raises it by exactly its length, and the recovery branch of
    `poll_transmit` stops only for a full pipe or for want of anything to send. */
module RecoveryBooks {
  import opened Types
  import opened SeqNum
  import opened Segments
  import opened Connection
  import opened Retransmit
  import Congestion

  function Len(s: Unacked): nat {
    Sub(s.end, s.start)
  }

  function Total(segs: seq<Unacked>): nat {
    if segs == [] then 0 else Total(segs[..|segs| - 1]) + Len(segs[|segs| - 1])
  }

  /** Bytes the receiver has reported, among the first n segments. */
  function SackedBytes(segs: seq<Unacked>, n: nat): nat
    requires n <= |segs|
  {
    if n == 0 then 0 else SackedBytes(segs, n - 1) + if segs[n - 1].sacked then Len(segs[n - 1]) else 0
  }

  /** Bytes presumed lost and not tried again, among the first n segments. */
  function UntriedBytes(segs: seq<Unacked>, n: nat): nat
    requires n <= |segs|
  {
    if n == 0 then 0 else UntriedBytes(segs, n - 1) + if Untried(segs, n - 1) then Len(segs[n - 1]) else 0
  }

  lemma {:induction false} BooksUpTo(segs: seq<Unacked>, n: nat)
    requires n <= |segs| && Total(segs[..n]) < TWO_32
    ensures PipeUpTo(segs, n) + SackedBytes(segs, n) + UntriedBytes(segs, n) == Total(segs[..n])
  {
    if n > 0 {
      assert segs[..n][..n - 1] == segs[..n - 1];
      BooksUpTo(segs, n - 1);
      hide SackedAbove;
      assert !segs[n - 1].sacked ==> (InPipe(segs, n - 1) <==> !Untried(segs, n - 1));
    }
  }

  /** Every queued byte is in the pipe, SACKed, or lost and untried: nothing else, nothing twice. */
  lemma BooksBalance(q: Retx)
    requires Total(q.segs) < TWO_32
    ensures Pipe(q) + SackedBytes(q.segs, |q.segs|) + UntriedBytes(q.segs, |q.segs|) == Total(q.segs)
  {
    assert q.segs[..|q.segs|] == q.segs;
    BooksUpTo(q.segs, |q.segs|);
  }

  // ---- retransmitting a hole ----

  lemma {:induction false} SackedAboveShape(a: seq<Unacked>, b: seq<Unacked>, start: u32)
    requires SameShape(a, b)
    ensures SackedAbove(a, start) == SackedAbove(b, start)
  {
    if a != [] {
      SackedAboveShape(a[..|a| - 1], b[..|b| - 1], start);
    }
  }

  lemma LostShape(a: seq<Unacked>, b: seq<Unacked>, i: nat)
    requires SameShape(a, b) && i < |a|
    ensures IsLost(a, i) == IsLost(b, i)
  {
    hide SackedAbove;
    SackedAboveShape(a, b, a[i].start);
  }

  lemma {:induction false} TotalShape(a: seq<Unacked>, b: seq<Unacked>)
    requires SameShape(a, b)
    ensures Total(a) == Total(b)
  {
    if a != [] {
      TotalShape(a[..|a| - 1], b[..|b| - 1]);
    }
  }

  lemma {:induction false} TouchUpTo(segs: seq<Unacked>, at: nat, now: nat, n: nat)
    requires at < |segs| && Untried(segs, at) && n <= |segs|
    ensures var b := segs[at := Touch(segs[at], now)];
            && SackedBytes(b, n) == SackedBytes(segs, n)
            && UntriedBytes(segs, n) == UntriedBytes(b, n) + if at < n then Len(segs[at]) else 0
  {
    if n > 0 {
      TouchUpTo(segs, at, now, n - 1);
      var b := segs[at := Touch(segs[at], now)];
      LostShape(segs, b, n - 1);
      hide IsLost;
    }
  }

  /** A retransmitted hole enters the pipe with exactly its length, and leaves the lost bytes with it. */
  lemma HoleRaisesPipe(q: Retx, now: nat)
    requires Total(q.segs) < TWO_32 && NextUntried(q.segs, 0).Some?
    ensures var at := NextUntried(q.segs, 0).value;
            var q1 := NextLostRetransmit(q, now).0;
            && Pipe(q1) == Pipe(q) + Len(q.segs[at])
            && UntriedBytes(q1.segs, |q1.segs|) == UntriedBytes(q.segs, |q.segs|) - Len(q.segs[at])
            && Total(q1.segs) == Total(q.segs) && SameShape(q.segs, q1.segs)
  {
    var at := NextUntried(q.segs, 0).value;
    var q1 := NextLostRetransmit(q, now).0;
    TouchUpTo(q.segs, at, now, |q.segs|);
    ResendKeepsShape(q, NextUntried(q.segs, 0), now);
    TotalShape(q.segs, q1.segs);
    BooksBalance(q);
    BooksBalance(q1);
    hide Total, UntriedBytes, SackedBytes, Pipe;
  }

  ghost predicate NoLonger(segs: seq<Unacked>, most: nat) {
    forall i :: 0 <= i < |segs| ==> Len(segs[i]) <= most
  }

  lemma {:induction false} HolesFilled(q: Retx, limit: u32, now: nat, most: nat)
    requires Total(q.segs) < TWO_32 && NoLonger(q.segs, most) && most >= 1
    ensures var r := FillHoles(q, limit, now).0;
            && Pipe(q) <= Pipe(r) <= Max(Pipe(q), limit + most - 1)
            && (Pipe(r) >= limit || NextUntried(r.segs, 0).None?)
            && SameShape(q.segs, r.segs) && Total(r.segs) == Total(q.segs)
    decreases NeverResent(q.segs)
  {
    hide Total, UntriedBytes, SackedBytes, Pipe, NeverResent;
    var at := NextUntried(q.segs, 0);
    if Pipe(q) < limit && at.Some? {
      NeverResentDrops(q.segs, at.value, now);
      HoleRaisesPipe(q, now);
      var q1 := NextLostRetransmit(q, now).0;
      HolesFilled(q1, limit, now, most);
      ShapeTransitive(q.segs, q1.segs, FillHoles(q1, limit, now).0.segs);
    }
  }

  lemma ShapeTransitive(a: seq<Unacked>, b: seq<Unacked>, c: seq<Unacked>)
    requires SameShape(a, b) && SameShape(b, c)
    ensures SameShape(a, c)
  {
  }

  // ---- sending new data ----

  /** Every queued segment starts at or before `nxt`, with room for `more` beyond it. */
  ghost predicate Behind(segs: seq<Unacked>, iss: u32, nxt: u32, more: nat) {
    && Off(iss, nxt) + more < TWO_31
    && forall i :: 0 <= i < |segs| ==> Off(iss, segs[i].start) <= Off(iss, nxt)
  }

  lemma {:induction false} NoneAbove(segs: seq<Unacked>, iss: u32, nxt: u32)
    requires Behind(segs, iss, nxt, 0)
    ensures SackedAbove(segs, nxt) == 0
  {
    if segs != [] {
      var n := |segs| - 1;
      BeforeOff(iss, nxt, segs[n].start);
      NoneAbove(segs[..n], iss, nxt);
    }
  }

  lemma AppendLost(segs: seq<Unacked>, e: Unacked, i: nat)
    requires i < |segs| && !e.sacked
    ensures IsLost(segs + [e], i) == IsLost(segs, i)
    ensures Untried(segs + [e], i) == Untried(segs, i)
  {
    assert (segs + [e])[..|segs|] == segs;
  }

  lemma {:induction false} AppendUpTo(segs: seq<Unacked>, e: Unacked, n: nat)
    requires n <= |segs| && !e.sacked
    ensures PipeUpTo(segs + [e], n) == PipeUpTo(segs, n)
    ensures UntriedBytes(segs + [e], n) == UntriedBytes(segs, n)
  {
    if n > 0 {
      AppendUpTo(segs, e, n - 1);
      AppendLost(segs, e, n - 1);
      hide IsLost;
    }
  }

  /** A segment of new data enters the pipe with exactly its length and creates no hole. */
  lemma NewDataRaisesPipe(segs: seq<Unacked>, e: Unacked, iss: u32)
    requires Behind(segs, iss, e.start, 0) && !e.sacked && e.retries == 0
    requires Total(segs) + Len(e) < TWO_32
    ensures Total(segs + [e]) == Total(segs) + Len(e)
    ensures PipeUpTo(segs + [e], |segs| + 1) == PipeUpTo(segs, |segs|) + Len(e)
    ensures NextUntried(segs, 0).None? ==> NextUntried(segs + [e], 0).None?
  {
    var all := segs + [e];
    assert all[..|segs|] == segs;
    NoneAbove(segs, iss, e.start);
    assert !IsLost(all, |segs|);
    AppendUpTo(segs, e, |segs|);
    PipeBounded(segs);
    if NextUntried(segs, 0).None? {
      NoNewHole(segs, e);
    }
    hide IsLost, NextUntried;
  }

  lemma NoNewHole(segs: seq<Unacked>, e: Unacked)
    requires !e.sacked && !IsLost(segs + [e], |segs|) && NextUntried(segs, 0).None?
    ensures NextUntried(segs + [e], 0).None?
  {
    hide IsLost, NextUntried;
    var at := NextUntried(segs + [e], 0);
    if at.Some? && at.value < |segs| {
      AppendLost(segs, e, at.value);
    }
  }

  lemma PipeBounded(segs: seq<Unacked>)
    requires Total(segs) < TWO_32
    ensures PipeUpTo(segs, |segs|) <= Total(segs)
  {
    assert segs[..|segs|] == segs;
    BooksUpTo(segs, |segs|);
  }

  /** What sending n new bytes does to the queue. */
  lemma SendOne(c: Conn, n: nat, now: nat)
    requires 0 < n <= |c.sendBuf| && Behind(c.retx.segs, c.send.iss, c.send.nxt, |c.sendBuf|)
    requires Total(c.retx.segs) + |c.sendBuf| < TWO_32
    ensures var t := Transmit(c, n, PSH + ACK, now).0;
            && Pipe(t.retx) == Pipe(c.retx) + n && Total(t.retx.segs) + |t.sendBuf| == Total(c.retx.segs) + |c.sendBuf|
            && Behind(t.retx.segs, t.send.iss, t.send.nxt, |t.sendBuf|)
            && |t.sendBuf| == |c.sendBuf| - n && t.opt == c.opt
            && (NextUntried(c.retx.segs, 0).None? ==> NextUntried(t.retx.segs, 0).None?)
  {
    var t := Transmit(c, n, PSH + ACK, now).0;
    SendNumbers(c.send.iss, c.send.nxt, n);
    var e := t.retx.segs[|c.retx.segs|];
    hide Off, Add, Low32, Segment, PipeUpTo, NextUntried, Total;
    assert e.start == c.send.nxt && Len(e) == n;
    NewDataRaisesPipe(c.retx.segs, e, c.send.iss);
  }

  lemma SendNumbers(iss: u32, nxt: u32, n: nat)
    requires Off(iss, nxt) + n < TWO_31
    ensures var end := Add(nxt, Low32(n));
            Off(iss, end) == Off(iss, nxt) + n && Sub(end, Low32(n)) == nxt && Sub(end, nxt) == n
  {
  }

  lemma {:induction false} PipeFilled(c: Conn, limit: u32, now: nat)
    requires Behind(c.retx.segs, c.send.iss, c.send.nxt, |c.sendBuf|) && Total(c.retx.segs) + |c.sendBuf| < TWO_32
    ensures var r := FillPipe(c, limit, now).0;
            && Pipe(c.retx) <= Pipe(r.retx) <= Max(Pipe(c.retx), limit)
            && (Pipe(r.retx) >= limit || r.sendBuf == [] || c.opt.sendMss == 0)
            && (NextUntried(c.retx.segs, 0).None? ==> NextUntried(r.retx.segs, 0).None?)
    decreases |c.sendBuf|
  {
    hide Pipe, NextUntried, Total, Behind, Transmit;
    var pipe := Pipe(c.retx);
    if c.sendBuf != [] && pipe < limit {
      var n := Min(Min(limit - pipe, c.opt.sendMss), |c.sendBuf|);
      if n != 0 {
        SendOne(c, n, now);
        PipeFilled(Transmit(c, n, PSH + ACK, now).0, limit, now);
      }
    }
  }

  /** The whole recovery branch of `poll_transmit`: it overshoots the limit by less than one queued
      segment, and stops short of it only when no untried hole and no unsent data remain. */
  lemma RecoveryBranch(c: Conn, now: nat, most: nat)
    requires (c.state == Established || c.state == CloseWait) && c.opt.sackOk && Congestion.InRecovery(c.cong)
    requires Behind(c.retx.segs, c.send.iss, c.send.nxt, |c.sendBuf|) && Total(c.retx.segs) + |c.sendBuf| < TWO_32
    requires NoLonger(c.retx.segs, most) && most >= 1
    ensures var r := PollTransmit(c, now).0;
            && Pipe(r.retx) <= Max(Pipe(c.retx), SendLimit(c) + most - 1)
            && (Pipe(r.retx) >= SendLimit(c) ||
                (NextUntried(r.retx.segs, 0).None? && (r.sendBuf == [] || c.opt.sendMss == 0)))
  {
    hide Pipe, NextUntried, Total, FillHoles, FillPipe;
    var c0 := Stamped(c, now);
    var q := FillHoles(c.retx, SendLimit(c), now).0;
    HolesFilled(c.retx, SendLimit(c), now, most);
    PipeFilled(c0.(retx := q), SendLimit(c), now);
  }
}
