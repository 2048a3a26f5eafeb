/** SACK recovery in reachable states: the premises of `RecoveryBooks` always hold there, so
    `poll_transmit` overshoots its limit by less than one segment and never stalls short of it. */
module RecoveryPace {
  import opened Types
  import opened SeqNum
  import opened Segments
  import opened Connection
  import opened Calls
  import opened Lifecycle
  import opened System
  import opened EndToEnd
  import opened RecoveryBooks
  import Direction
  import Retransmit
  import Congestion
  import Rtt

  // ---- no queued segment is longer than the segment size ----

  /** The longest a segment may be: the negotiated size (a probe or the FIN counts one). */
  function Longest(c: Conn): nat {
    if c.state == SynSent then 1 else Max(c.opt.sendMss, 1)
  }

  ghost predicate Short(c: Conn) {
    NoLonger(c.retx.segs, Longest(c))
  }

  lemma ShortDerived(a: seq<Retransmit.Unacked>, b: seq<Retransmit.Unacked>, most: nat, more: nat)
    requires NoLonger(a, most) && Subqueue(a, b) && most <= more
    ensures NoLonger(b, more)
  {
    forall j | 0 <= j < |b|
      ensures Len(b[j]) <= more
    {
      var i := SubqueueAt(a, b, j);
    }
  }

  lemma ShortAppended(c: Conn, n: nat, flags: byte, now: nat, most: nat)
    requires n <= |c.sendBuf| && n <= most && n < TWO_32 && NoLonger(c.retx.segs, most)
    ensures NoLonger(Transmit(c, n, flags, now).0.retx.segs, most)
  {
    var t := Transmit(c, n, flags, now).0;
    EndsApart(Add(c.send.nxt, Low32(n)), n);
    hide Add, Sub, Low32, Segment;
    forall i | 0 <= i < |t.retx.segs|
      ensures Len(t.retx.segs[i]) <= most
    {
      assert i < |c.retx.segs| ==> t.retx.segs[i] == c.retx.segs[i];
    }
  }

  lemma EndsApart(end: u32, n: nat)
    requires n < TWO_32
    ensures Sub(end, Sub(end, Low32(n))) == n
  {
  }

  lemma {:induction false} FillPipeShort(c: Conn, limit: u32, now: nat, most: nat)
    requires NoLonger(c.retx.segs, most) && c.opt.sendMss <= most
    ensures NoLonger(FillPipe(c, limit, now).0.retx.segs, most) && FillPipe(c, limit, now).0.opt == c.opt
    decreases |c.sendBuf|
  {
    hide Retransmit.Pipe, NoLonger;
    var pipe := Retransmit.Pipe(c.retx);
    if c.sendBuf != [] && pipe < limit {
      var n := Min(Min(limit - pipe, c.opt.sendMss), |c.sendBuf|);
      if n != 0 {
        ShortAppended(c, n, PSH + ACK, now, most);
        FillPipeShort(Transmit(c, n, PSH + ACK, now).0, limit, now, most);
      }
    }
  }

  lemma {:induction false} FillWindowShort(c: Conn, pacing: real, now: nat, most: nat)
    requires NoLonger(c.retx.segs, most) && c.opt.sendMss <= most
    ensures NoLonger(FillWindow(c, pacing, now).0.retx.segs, most) && FillWindow(c, pacing, now).0.opt == c.opt
    decreases |c.sendBuf|
  {
    hide UsableWindow, NoLonger;
    if c.sendBuf != [] {
      var n := NextSend(c, pacing, now);
      if n != 0 {
        ShortAppended(Pace(c, pacing, n, now), n, PSH + ACK, now, most);
        FillWindowShort(Transmit(Pace(c, pacing, n, now), n, PSH + ACK, now).0, pacing, now, most);
      }
    }
  }

  lemma ShapeShort(a: seq<Retransmit.Unacked>, b: seq<Retransmit.Unacked>, most: nat)
    requires NoLonger(a, most) && Retransmit.SameShape(a, b)
    ensures NoLonger(b, most)
  {
  }

  lemma {:induction false} HolesShape(q: Retransmit.Retx, limit: u32, now: nat)
    ensures Retransmit.SameShape(q.segs, FillHoles(q, limit, now).0.segs)
    decreases Retransmit.NeverResent(q.segs)
  {
    hide Retransmit.Pipe, Retransmit.SameShape, Retransmit.NeverResent;
    var at := Retransmit.NextUntried(q.segs, 0);
    if Retransmit.Pipe(q) < limit && at.Some? {
      Retransmit.NeverResentDrops(q.segs, at.value, now);
      Retransmit.ResendKeepsShape(q, at, now);
      var q1 := Retransmit.NextLostRetransmit(q, now).0;
      HolesShape(q1, limit, now);
      ShapeTransitive(q.segs, q1.segs, FillHoles(q1, limit, now).0.segs);
    } else {
      Retransmit.ShapeSelf(q.segs);
    }
  }

  lemma PollShort(c: Conn, now: nat)
    requires Short(c)
    ensures Short(PollTransmit(c, now).0)
  {
    PollState(c, now);
    if c.state == Established || c.state == CloseWait {
      var c0 := Stamped(c, now);
      hide NoLonger, FillPipe, FillWindow, FillHoles, Rtt.Rto, FlightSize;
      HolesShape(c0.retx, SendLimit(c0), now);
      ShapeShort(c0.retx.segs, FillHoles(c0.retx, SendLimit(c0), now).0.segs, Longest(c));
      FillPipeShort(c0.(retx := FillHoles(c0.retx, SendLimit(c0), now).0), SendLimit(c0), now, Longest(c));
      FillWindowShort(c0, Congestion.PacingRate(c0.cong), now, Longest(c));
    }
  }

  lemma TickShort(c: Conn, now: nat)
    requires Short(c)
    ensures Short(OnTick(c, now).0)
  {
    hide NoLonger, Reap, TickRack, TickProbe, TickRto, TickPersist, TickKeepalive, Stamped, Longest;
    var c0 := Reap(Stamped(c, now), now);
    var a := TickRack(c0, now).0;
    var b := TickProbe(a, now).0;
    var d := TickRto(b, now).0;
    var e := TickPersist(d, now).0;
    ReapLonger(c, now);
    Same(c0, now);
    Same(a, now);
    Same(b, now);
    ShapeShort(c0.retx.segs, a.retx.segs, Longest(c));
    ShapeShort(a.retx.segs, b.retx.segs, Longest(c));
    ShapeShort(b.retx.segs, d.retx.segs, Longest(c));
    PersistShort(d, now);
    KeepaliveSame(e, now);
  }

  lemma ReapLonger(c: Conn, now: nat)
    ensures var c' := Reap(Stamped(c, now), now);
            c'.retx == c.retx && Longest(c') == Longest(c)
  {
  }

  lemma Same(c: Conn, now: nat)
    ensures Retransmit.SameShape(c.retx.segs, TickRack(c, now).0.retx.segs) && Longest(TickRack(c, now).0) == Longest(c)
    ensures Retransmit.SameShape(c.retx.segs, TickProbe(c, now).0.retx.segs) && Longest(TickProbe(c, now).0) == Longest(c)
    ensures Retransmit.SameShape(c.retx.segs, TickRto(c, now).0.retx.segs) && Longest(TickRto(c, now).0) == Longest(c)
  {
    hide Retransmit.SameShape, TickRack, TickProbe, TickRto;
    ResendSteps(c, now);
  }

  lemma PersistShort(c: Conn, now: nat)
    requires NoLonger(c.retx.segs, Longest(c))
    ensures NoLonger(TickPersist(c, now).0.retx.segs, Longest(c)) && Longest(TickPersist(c, now).0) == Longest(c)
  {
    hide NoLonger, Rtt.Rto, FlightSize;
    if c.sendBuf != [] {
      ShortAppended(c, 1, ACK, now, Longest(c));
    }
  }

  lemma KeepaliveSame(c: Conn, now: nat)
    ensures TickKeepalive(c, now).0.retx == c.retx && Longest(TickKeepalive(c, now).0) == Longest(c)
  {
    hide Segment, FlightSize;
  }

  lemma CloseShort(c: Conn, now: nat)
    requires Short(c)
    ensures Short(Close(c, now).0)
  {
    if c.state == Established || c.state == CloseWait {
      var r := Close(c, now).0;
      EndsApart(Add(c.send.nxt, 1), 1);
      OneApart(c.send.nxt);
      hide Add, Sub, Segment;
      forall i | 0 <= i < |r.retx.segs|
        ensures Len(r.retx.segs[i]) <= Longest(r)
      {
        assert i < |c.retx.segs| ==> r.retx.segs[i] == c.retx.segs[i];
      }
    }
  }

  lemma OneApart(x: u32)
    ensures Sub(Add(x, 1), x) == 1
  {
  }

  lemma SegmentShort(c: Conn, s: Seg, env: Env, now: nat)
    requires Short(c)
    ensures Short(OnSegment(c, s, env, now).0)
  {
    SegmentHandled(c, s, env, now);
    hide OnSegment, Subqueue, RackEnds, FinKnown, NoLonger;
    var r := OnSegment(c, s, env, now).0;
    ShortDerived(c.retx.segs, r.retx.segs, Longest(c), Longest(r));
  }

  lemma CallShort(c: Conn, e: Event)
    requires Short(c)
    ensures Short(Apply(c, e).0)
  {
    hide Short, PollTransmit, OnTick, Close, OnSegment;
    match e {
      case PollEvent(now) => PollShort(c, now);
      case TickEvent(now) => TickShort(c, now);
      case CloseEvent(now) => CloseShort(c, now);
      case ReceiveEvent(p, env, now) => SegmentShort(c, p, env, now);
      case WriteEvent(data) => QuietShort(c, e);
      case TakeEvent => QuietShort(c, e);
      case NoDelayEvent(on) => QuietShort(c, e);
      case KeepaliveEvent(on) => QuietShort(c, e);
      case BbrEvent => QuietShort(c, e);
    }
  }

  lemma QuietShort(c: Conn, e: Event)
    requires Short(c) && (e.WriteEvent? || e.TakeEvent? || e.NoDelayEvent? || e.KeepaliveEvent? || e.BbrEvent?)
    ensures Short(Apply(c, e).0)
  {
    hide PollTransmit, OnTick, Close, OnSegment;
  }

  lemma OpensShort(iss: u32, budget: Budget, now: nat, s: Seg)
    ensures Short(Connect(iss, budget, now).0)
    ensures Accept(s, iss, budget, now).Some? ==> Short(Accept(s, iss, budget, now).value.0)
  {
    OneApart(iss);
    hide Add, Sub, Has;
  }

  ghost predicate PeerShort(p: Peer) {
    p.conn.Some? ==> Short(p.conn.value)
  }

  lemma LocalShort(p: Peer, iss: u32, inbox: set<Seg>, e: Event)
    requires PeerShort(p)
    ensures PeerShort(Local(p, iss, inbox, e).0)
  {
    hide Apply, Accept, Short;
    if p.conn.Some? {
      CallShort(p.conn.value, e);
    } else if e.ReceiveEvent? {
      OpensShort(iss, e.env.budget, e.now, e.p);
    }
  }

  lemma {:induction false} RunShort(s: Sys, acts: seq<Action>)
    requires PeerShort(s.a) && PeerShort(s.b)
    ensures PeerShort(Run(s, acts).a) && PeerShort(Run(s, acts).b)
  {
    if acts != [] {
      var n := |acts| - 1;
      RunShort(s, acts[..n]);
      var t := Run(s, acts[..n]);
      hide PeerShort, Local;
      if acts[n].AtA? {
        LocalShort(t.a, t.aIss, t.toA, acts[n].event);
      } else {
        LocalShort(t.b, t.bIss, t.toB, acts[n].event);
      }
    }
  }

  lemma ReachedShort(s: Sys)
    requires Reached(s)
    ensures PeerShort(s.a)
  {
    hide PeerShort, Run, Start, Reachable;
    if Reachable(s) {
      ReachableShort(s);
    } else {
      ReachableShort(Flip(s));
    }
  }

  lemma ReachableShort(s: Sys)
    requires Reachable(s)
    ensures PeerShort(s.a) && PeerShort(s.b)
  {
    hide Run, Short;
    var aIss, bIss, budget: Budget, now: nat, acts :| s == Run(Start(aIss, bIss, budget, now), acts);
    OpensShort(aIss, budget, now, Seg(0, 0, 0, 0, NO_OPTIONS, []));
    RunShort(Start(aIss, bIss, budget, now), acts);
  }

  // ---- the queue's bytes ----

  lemma {:induction false} TiledTotal(segs: seq<Retransmit.Unacked>, iss: u32, d: Direction.Dir, w: seq<byte>, n: nat)
    requires Direction.WellCut(d, w) && Direction.Tiled(segs, iss, d, w) && n <= |segs|
    ensures var i := Direction.Units(d) - |segs|;
            Total(segs[..n]) == d.cuts[i + n] - d.cuts[i]
  {
    hide Direction.Entry, Direction.WellCut, Len;
    if n > 0 {
      var i := Direction.Units(d) - |segs| + n - 1;
      TiledTotal(segs, iss, d, w, n - 1);
      assert segs[..n][..n - 1] == segs[..n - 1];
      assert Direction.Entry(segs[n - 1], iss, d, w, i);
      EntryLen(segs[n - 1], iss, d, w, i);
    }
  }

  lemma EntryLen(e: Retransmit.Unacked, iss: u32, d: Direction.Dir, w: seq<byte>, i: int)
    requires Direction.WellCut(d, w) && Direction.Entry(e, iss, d, w, i)
    ensures Len(e) == d.cuts[i + 1] - d.cuts[i]
  {
    Ordered(d, w, i, i + 1);
    hide Off, Sub, Direction.Content, Has;
    OffDistance(iss, e.start, e.end);
  }

  lemma QueueTotal(c: Conn, d: Direction.Dir, w: seq<byte>)
    requires Direction.Sends(c, d, w) && |w| < STREAM_LIMIT
    ensures Total(c.retx.segs) + |c.sendBuf| < TWO_32
  {
    hide Direction.Sends, Direction.Tiled, Direction.WellCut, Direction.UnaOk, Off, Total;
    SendsFacts(c, d, w);
    QueueIsTiled(c, d, w);
    LastCut(d, w);
    Bounded(d, w, Direction.Oldest(c, d));
    TiledTotal(c.retx.segs, c.send.iss, d, w, |c.retx.segs|);
    assert c.retx.segs[..|c.retx.segs|] == c.retx.segs;
  }

  lemma QueueIsTiled(c: Conn, d: Direction.Dir, w: seq<byte>)
    requires Direction.Sends(c, d, w)
    ensures Direction.WellCut(d, w) && Direction.Tiled(c.retx.segs, c.send.iss, d, w)
    ensures 0 <= Direction.Oldest(c, d) <= Direction.Units(d)
  {
    hide Direction.UnaOk, Direction.Entry, Direction.RecoverOk, Off;
  }

  lemma QueuePremises(c: Conn, d: Direction.Dir, w: seq<byte>)
    requires Direction.Sends(c, d, w) && |w| < STREAM_LIMIT
    ensures Behind(c.retx.segs, c.send.iss, c.send.nxt, |c.sendBuf|) && Total(c.retx.segs) + |c.sendBuf| < TWO_32
  {
    SendsFacts(c, d, w);
    QueueTotal(c, d, w);
    hide Off, Direction.Sends, Direction.UnaOk, Direction.WellCut, Total;
    forall i | 0 <= i < |c.retx.segs|
      ensures Off(c.send.iss, c.retx.segs[i].start) <= Off(c.send.iss, c.send.nxt)
    {
      EntryEdges(c, d, w, i);
      Bounded(d, w, Direction.Oldest(c, d) + i);
    }
  }

  /** In every reachable state, one poll in the recovery branch leaves the pipe below the limit plus one
      segment (or where it was), and leaves it short of the limit only when no untried hole and no
      unsent data remain. */
  lemma RecoveryKeepsThePipeFull(s: Sys, now: nat)
    requires Reached(s) && s.a.conn.Some?
    requires var c := s.a.conn.value;
             (c.state == Established || c.state == CloseWait) && c.opt.sackOk && Congestion.InRecovery(c.cong)
    ensures var c := s.a.conn.value;
            var r := PollTransmit(c, now).0;
            && Retransmit.Pipe(r.retx) <= Max(Retransmit.Pipe(c.retx), SendLimit(c) + Max(c.opt.sendMss, 1) - 1)
            && (Retransmit.Pipe(r.retx) >= SendLimit(c) ||
                (Retransmit.NextUntried(r.retx.segs, 0).None? && (r.sendBuf == [] || c.opt.sendMss == 0)))
  {
    RecoveryPremises(s);
    hide Reached, PollTransmit, Retransmit.Pipe, Retransmit.NextUntried, Behind, Total, NoLonger, SendLimit;
    RecoveryBranch(s.a.conn.value, now, Max(s.a.conn.value.opt.sendMss, 1));
  }

  lemma RecoveryPremises(s: Sys)
    requires Reached(s) && s.a.conn.Some?
    ensures var c := s.a.conn.value;
            && Behind(c.retx.segs, c.send.iss, c.send.nxt, |c.sendBuf|) && Total(c.retx.segs) + |c.sendBuf| < TWO_32
            && NoLonger(c.retx.segs, Longest(c))
  {
    ReachedShort(s);
    ReachedInv(s);
    hide Reached, InvWith, Behind, Total, NoLonger, Direction.Sends;
    var ab, ba :| InvWith(s, ab, ba);
    var c := s.a.conn.value;
    SenderOf(s, ab, ba);
    StreamBound(s, ab, ba);
    QueuePremises(c, ab, s.a.written);
  }

  /** And in every reachable state the books balance: every queued byte is in the pipe, SACKed, or lost
      and untried. */
  lemma BooksBalanceAlways(s: Sys)
    requires Reached(s) && s.a.conn.Some?
    ensures var q := s.a.conn.value.retx;
            Retransmit.Pipe(q) + SackedBytes(q.segs, |q.segs|) + UntriedBytes(q.segs, |q.segs|) == Total(q.segs)
  {
    RecoveryPremises(s);
    hide Reached, Behind, Total, SackedBytes, UntriedBytes, Retransmit.Pipe, NoLonger;
    BooksBalance(s.a.conn.value.retx);
  }
}
