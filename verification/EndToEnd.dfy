/** What every run of the two-endpoint system guarantees, over any network. */
module EndToEnd {
  import opened Types
  import opened SeqNum
  import opened Segments
  import opened Connection
  import opened Segmentation
  import opened Direction
  import opened System
  import Retransmit
  import Reassembly
  import Congestion
  import SackReport

  /** All the application has been given: what it took and what waits for it. */
  function Delivered(p: Peer): seq<byte> {
    p.taken + if p.conn.Some? then p.conn.value.recvBuf else []
  }

  ghost predicate Reachable(s: Sys) {
    exists aIss, bIss, budget: Budget, now: nat, acts :: s == Run(Start(aIss, bIss, budget, now), acts)
  }

  /** A reachable state, seen from either end. */
  ghost predicate Reached(s: Sys) {
    Reachable(s) || Reachable(Flip(s))
  }

  lemma ReachableInv(s: Sys)
    requires Reachable(s)
    ensures Inv(s)
  {
    hide Inv, Start, Run;
    var aIss, bIss, budget: Budget, now: nat, acts :| s == Run(Start(aIss, bIss, budget, now), acts);
    StartInv(aIss, bIss, budget, now);
    RunInv(Start(aIss, bIss, budget, now), acts);
  }

  lemma ReachedInv(s: Sys)
    requires Reached(s)
    ensures Inv(s)
  {
    hide Inv, Reachable;
    if Reachable(s) {
      ReachableInv(s);
    } else {
      ReachableInv(Flip(s));
      FlipInv(Flip(s));
      assert Flip(Flip(s)) == s;
    }
  }

  lemma FlipReached(s: Sys)
    requires Reached(s)
    ensures Reached(Flip(s))
  {
    hide Reachable;
    assert Flip(Flip(s)) == s;
  }

  lemma Handed(net: set<Seg>, p: Seg, q: Seg)
    requires q in net && Variant(p, q)
    ensures Deliverable(net, p)
  {
  }

  // ---- one byte stream ----

  lemma SafeOneWay(s: Sys, ab: Dir, ba: Dir)
    requires InvWith(s, ab, ba)
    ensures Delivered(s.b) <= s.a.written
  {
    hide Sends, NetOk, Queued;
  }

  /** In every reachable state, what either application has been given is a prefix of what the other
      has written: nothing lost, doubled, reordered or invented. */
  lemma StreamSafety(s: Sys)
    requires Reached(s)
    ensures Delivered(s.b) <= s.a.written
    ensures Delivered(s.a) <= s.b.written
  {
    hide Reached, InvWith, Delivered;
    ReachedInv(s);
    var ab, ba :| InvWith(s, ab, ba);
    SafeOneWay(s, ab, ba);
    FlipInv(s);
    var ba', ab' :| InvWith(Flip(s), ba', ab');
    SafeOneWay(Flip(s), ba', ab');
  }

  // ---- nothing lost is forgotten ----

  /** Position o lies in a queued segment that the peer has not reported as received. */
  ghost predicate StillQueued(c: Conn, o: int) {
    exists j :: 0 <= j < |c.retx.segs| && QueuedAt(c, j, o)
  }

  predicate QueuedAt(c: Conn, j: nat, o: int)
    requires j < |c.retx.segs|
  {
    && !c.retx.segs[j].sacked
    && Off(c.send.iss, c.retx.segs[j].start) <= o < Off(c.send.iss, c.retx.segs[j].end)
  }

  /** Position o of the stream from `iss` has reached the receiver: passed on, or buffered. */
  ghost predicate Arrived(p: Peer, iss: u32, o: int) {
    p.conn.Some? && p.conn.value.state != SynSent
    && (o < Off(iss, p.conn.value.recv.nxt) || SackReport.Held(p.conn.value.reasm, o - 1))
  }

  lemma {:induction false} UnitAt(cuts: seq<int>, o: int, n: int) returns (i: int)
    requires 0 <= n < |cuts| && cuts[0] <= o < cuts[n]
    ensures 0 <= i < n && cuts[i] <= o < cuts[i + 1]
  {
    if cuts[n - 1] <= o {
      i := n - 1;
    } else {
      i := UnitAt(cuts, o, n - 1);
    }
  }

  lemma MissingUnitQueued(c: Conn, d: Dir, w: seq<byte>, o: int, i: int)
    requires Sends(c, d, w) && 0 <= i < Units(d) && d.cuts[i] <= o < d.cuts[i + 1]
    requires i !in d.got && forall a :: a in d.stops ==> a <= i
    ensures StillQueued(c, o)
  {
    assert Oldest(c, d) in d.stops;
    var j := i - Oldest(c, d);
    assert Entry(c.retx.segs[j], c.send.iss, d, w, i);
    assert QueuedAt(c, j, o);
  }

  lemma ForgottenOneWay(s: Sys, ab: Dir, ba: Dir, o: int)
    requires InvWith(s, ab, ba) && s.a.conn.Some?
    requires 0 <= o < Off(s.aIss, s.a.conn.value.send.nxt) && !Arrived(s.b, s.aIss, o)
    ensures StillQueued(s.a.conn.value, o)
  {
    var w := s.a.written;
    SenderOf(s, ab, ba);
    SendsFacts(s.a.conn.value, ab, w);
    assert Cuts(ab.cuts);
    hide Sends, UnaOk, WellCut, StillQueued, Off, InvWith, Arrived, Cuts;
    var i := UnitAt(ab.cuts, o, Units(ab));
    NotGot(s, ab, ba, o, i);
    MissingUnitQueued(s.a.conn.value, ab, w, o, i);
  }

  /** The unit of a position that has not arrived is not among those received, nor passed. */
  lemma NotGot(s: Sys, ab: Dir, ba: Dir, o: int, i: int)
    requires InvWith(s, ab, ba) && !Arrived(s.b, s.aIss, o)
    requires 0 <= i < Units(ab) && ab.cuts[i] <= o < ab.cuts[i + 1]
    ensures i !in ab.got && forall a :: a in ab.stops ==> a <= i
  {
    hide Sends, NetOk, Queued;
    if s.b.conn.Some? && s.b.conn.value.state != SynSent {
      var c := s.b.conn.value;
      assert ab.k <= i;
      if i in ab.got {
        UnitHeld(c.reasm, ab.cuts, s.a.written, ab.got, ab.k, i, o);
      }
    }
  }

  lemma UnitHeld(r: Reassembly.Reasm, cuts: seq<int>, w: seq<byte>, got: set<int>, k: int, i: int, o: int)
    requires Clean(r, cuts, w, got, k) && k <= i < |cuts| - 1 && i in got && cuts[i] <= o < cuts[i + 1]
    ensures SackReport.Held(r, o - 1)
  {
    assert Holds(r.frags, cuts, w, i);
    assert SackReport.InFrag(r, cuts[i] - 1, o - 1);
  }

  lemma OldestUnsacked(s: Sys, ab: Dir, ba: Dir)
    requires InvWith(s, ab, ba) && s.a.conn.Some? && s.a.conn.value.retx.segs != []
    ensures !s.a.conn.value.retx.segs[0].sacked
  {
    var c := s.a.conn.value;
    SenderOf(s, ab, ba);
    hide InvWith, Off, WellCut;
    assert Entry(c.retx.segs[0], s.aIss, ab, s.a.written, Oldest(c, ab));
    assert Oldest(c, ab) in ab.stops;
  }

  /** In every reachable state, each sequence number sent that has not arrived is in a queued segment
      not marked as SACKed, so a timer can still repair the loss. */
  lemma NothingForgotten(s: Sys, o: int)
    requires Reached(s) && s.a.conn.Some?
    requires 0 <= o < Off(s.aIss, s.a.conn.value.send.nxt) && !Arrived(s.b, s.aIss, o)
    ensures StillQueued(s.a.conn.value, o)
  {
    hide Reached, InvWith, Arrived, StillQueued, Off;
    ReachedInv(s);
    var ab, ba :| InvWith(s, ab, ba);
    ForgottenOneWay(s, ab, ba, o);
  }

  /** In every reachable state the oldest queued segment is not marked as SACKed, whatever SACK reports
      were reordered on the way. */
  lemma OldestNeverSacked(s: Sys)
    requires Reached(s) && s.a.conn.Some? && s.a.conn.value.retx.segs != []
    ensures !s.a.conn.value.retx.segs[0].sacked
  {
    hide Reached, InvWith;
    ReachedInv(s);
    var ab, ba :| InvWith(s, ab, ba);
    OldestUnsacked(s, ab, ba);
  }

  // ---- the two ends agree ----

  predicate Synced(p: Peer) {
    p.conn.Some? && p.conn.value.state != SynSent
  }

  /** Where the receiver stands. */
  lemma ReceiverOf(s: Sys, ab: Dir, ba: Dir)
    requires InvWith(s, ab, ba)
    ensures WellCut(ab, s.a.written)
    ensures !Synced(s.b) ==> ab.stops == {0}
    ensures Synced(s.b) ==>
              var c := s.b.conn.value;
              && 1 <= ab.k < |ab.cuts| && Off(s.aIss, c.recv.nxt) == ab.cuts[ab.k]
              && (forall a :: a in ab.stops ==> 0 <= a <= ab.k)
              && (Units(ab) in ab.stops && ab.fin ==> c.peerFin)
              && (c.peerFin ==> ab.fin && Delivered(s.b) == s.a.written[..Direction.Sent(ab)])
  {
    hide Sends, NetOk, Queued, Clean, Off;
  }

  lemma AgreementOneWay(s: Sys, ab: Dir, ba: Dir)
    requires InvWith(s, ab, ba) && s.a.conn.Some?
    ensures var c := s.a.conn.value;
            && (Synced(s.b) ==>
                  Off(s.aIss, c.send.una) <= Off(s.aIss, s.b.conn.value.recv.nxt) <= Off(s.aIss, c.send.nxt))
            && (c.state == FinWait2 || c.state == TimeWait ==> Synced(s.b) && s.b.conn.value.peerFin)
            && (Synced(s.b) && s.b.conn.value.peerFin ==>
                  (FinStates(c.state) || c.state == Closed) && Delivered(s.b) + c.sendBuf == s.a.written)
  {
    var c := s.a.conn.value;
    ReceiverOf(s, ab, ba);
    SenderOf(s, ab, ba);
    SendsFacts(c, ab, s.a.written);
    hide InvWith, Sends, Off, Delivered, WellCut;
    if Synced(s.b) {
      Bounded(ab, s.a.written, ab.k);
      if Off(s.aIss, c.send.una) == ab.cuts[Oldest(c, ab)] {
        Ordered(ab, s.a.written, Oldest(c, ab), ab.k);
      } else {
        Ordered(ab, s.a.written, Units(ab), ab.k);
      }
    }
    if c.state == FinWait2 || c.state == TimeWait {
      assert Units(ab) in ab.stops;
    }
  }

  lemma Bounded(d: Dir, w: seq<byte>, i: int)
    requires WellCut(d, w) && 0 <= i < |d.cuts|
    ensures 0 <= d.cuts[i] <= d.cuts[Units(d)]
  {
  }

  lemma Ordered(d: Dir, w: seq<byte>, i: int, j: int)
    requires WellCut(d, w) && 0 <= i <= j < |d.cuts|
    ensures d.cuts[i] <= d.cuts[j]
  {
  }

  /** The last cut is at most a SYN and a FIN ahead of the bytes sent. */
  lemma LastCut(d: Dir, w: seq<byte>)
    requires WellCut(d, w)
    ensures |d.cuts| >= 2 && d.cuts[Units(d)] <= Direction.Sent(d) + 2
  {
  }

  /** The acknowledged never exceeds the received, nor the received the sent; end of file is reported
      only once everything transmitted has been passed on; and an endpoint whose FIN was acknowledged
      knows that its peer has consumed it. */
  lemma Agreement(s: Sys)
    requires Reached(s) && s.a.conn.Some?
    ensures Synced(s.b) ==>
              Off(s.aIss, s.a.conn.value.send.una) <= Off(s.aIss, s.b.conn.value.recv.nxt)
              <= Off(s.aIss, s.a.conn.value.send.nxt)
    ensures s.a.conn.value.state == FinWait2 || s.a.conn.value.state == TimeWait ==>
              Synced(s.b) && s.b.conn.value.peerFin
    ensures Synced(s.b) && s.b.conn.value.peerFin ==>
              (FinStates(s.a.conn.value.state) || s.a.conn.value.state == Closed)
              && Delivered(s.b) + s.a.conn.value.sendBuf == s.a.written
  {
    hide Reached, InvWith, Delivered, Off;
    ReachedInv(s);
    var ab, ba :| InvWith(s, ab, ba);
    AgreementOneWay(s, ab, ba);
  }

  // ---- bytes are conserved and the queue tiles the unacknowledged range ----

  /** How many bytes have been put on the wire. */
  function Transmitted(p: Peer): int
    requires p.conn.Some?
  {
    |p.written| - |p.conn.value.sendBuf|
  }

  /** Segment j of the queue: non-empty, and the next one starts where it ends; a data segment carries
      exactly the bytes of the stream w at its position. */
  predicate Tile(c: Conn, w: seq<byte>, j: int)
    requires 0 <= j < |c.retx.segs|
  {
    && c.retx.segs[j].packet.seqno == c.retx.segs[j].start
    && c.retx.segs[j].end == (if j + 1 < |c.retx.segs| then c.retx.segs[j + 1].start else c.send.nxt)
    && RightBytes(c.retx.segs[j], c.send.iss, w, |w| - |c.sendBuf|)
  }

  predicate RightBytes(e: Retransmit.Unacked, iss: u32, w: seq<byte>, sent: int) {
    && Off(iss, e.start) < Off(iss, e.end)
    && (e.packet.payload == [] ==> Off(iss, e.end) == Off(iss, e.start) + 1)
    && (e.packet.payload != [] ==>
          && 1 <= Off(iss, e.start) && Off(iss, e.end) - 1 <= sent <= |w|
          && e.packet.payload == w[Off(iss, e.start) - 1..Off(iss, e.end) - 1])
  }

  lemma EntryTile(c: Conn, d: Dir, w: seq<byte>, j: int)
    requires Sends(c, d, w) && 0 <= j < |c.retx.segs|
    ensures Tile(c, w, j)
  {
    hide RightBytes, Sends, Entry, WellCut, UnaOk, Off;
    SendsFacts(c, d, w);
    NextTile(c, d, w, j);
    EntryAt(c, d, w, j);
    EntryPayload(c.retx.segs[j], c.send.iss, d, w, Oldest(c, d) + j);
  }

  lemma SendsFacts(c: Conn, d: Dir, w: seq<byte>)
    requires Sends(c, d, w)
    ensures WellCut(d, w) && 0 <= Oldest(c, d) && Off(c.send.iss, c.send.nxt) == d.cuts[Units(d)]
    ensures 0 <= Direction.Sent(d) <= |w| && c.sendBuf == w[Direction.Sent(d)..] && UnaOk(c, d)
    ensures (FinStates(c.state) ==> d.fin) && (d.fin ==> FinStates(c.state) || c.state == Closed)
  {
    hide Off, Entry, UnaOk, RecoverOk;
  }

  lemma EntryAt(c: Conn, d: Dir, w: seq<byte>, j: int)
    requires Sends(c, d, w) && 0 <= j < |c.retx.segs|
    ensures WellCut(d, w) && Entry(c.retx.segs[j], c.send.iss, d, w, Oldest(c, d) + j)
  {
    hide Off, Entry, UnaOk, RecoverOk, WellCut;
  }

  lemma EntryEdges(c: Conn, d: Dir, w: seq<byte>, j: int)
    requires Sends(c, d, w) && 0 <= j < |c.retx.segs|
    ensures 0 <= Oldest(c, d) + j < Units(d)
    ensures Off(c.send.iss, c.retx.segs[j].packet.seqno) == d.cuts[Oldest(c, d) + j]
    ensures Off(c.send.iss, c.retx.segs[j].start) == d.cuts[Oldest(c, d) + j]
    ensures Off(c.send.iss, c.retx.segs[j].end) == d.cuts[Oldest(c, d) + j + 1]
  {
    EntryAt(c, d, w, j);
    hide Off, Sends, Has, Content, WellCut;
  }

  lemma NextTile(c: Conn, d: Dir, w: seq<byte>, j: int)
    requires Sends(c, d, w) && 0 <= j < |c.retx.segs|
    ensures c.retx.segs[j].packet.seqno == c.retx.segs[j].start
    ensures c.retx.segs[j].end == if j + 1 < |c.retx.segs| then c.retx.segs[j + 1].start else c.send.nxt
  {
    hide Off, Sends, Entry, WellCut, UnaOk;
    var e := c.retx.segs[j];
    SendsFacts(c, d, w);
    EntryEdges(c, d, w, j);
    OffInjective(c.send.iss, e.packet.seqno, e.start);
    if j + 1 < |c.retx.segs| {
      EntryEdges(c, d, w, j + 1);
      OffInjective(c.send.iss, e.end, c.retx.segs[j + 1].start);
    } else {
      OffInjective(c.send.iss, e.end, c.send.nxt);
    }
  }

  lemma EntryPayload(e: Retransmit.Unacked, iss: u32, d: Dir, w: seq<byte>, i: int)
    requires WellCut(d, w) && Entry(e, iss, d, w, i)
    ensures RightBytes(e, iss, w, Direction.Sent(d))
  {
    UnitSpan(d, w, i);
    hide Off, Has, Content, Cuts;
  }

  /** What unit i holds, and where. */
  lemma UnitSpan(d: Dir, w: seq<byte>, i: int)
    requires WellCut(d, w) && 0 <= i < Units(d)
    ensures |d.cuts| >= 2 && d.cuts[i] < d.cuts[i + 1]
    ensures i == 0 || i == DataUnits(d) ==> d.cuts[i + 1] == d.cuts[i] + 1
    ensures 0 < i < DataUnits(d) ==>
              && 1 <= d.cuts[i] && d.cuts[i + 1] - 1 <= Direction.Sent(d) <= |w|
              && Content(d, w, i) == w[d.cuts[i] - 1..d.cuts[i + 1] - 1] && Content(d, w, i) != []
  {
    if 0 < i < DataUnits(d) {
      Ordered(d, w, 1, i);
      Ordered(d, w, i + 1, DataUnits(d));
    }
  }

  predicate Closing(s: State) {
    s == FinWait2 || s == TimeWait || s == Closed
  }

  lemma SenderOf(s: Sys, ab: Dir, ba: Dir)
    requires InvWith(s, ab, ba) && s.a.conn.Some?
    ensures Sends(s.a.conn.value, ab, s.a.written) && s.a.conn.value.send.iss == s.aIss
  {
    hide Sends, Receives, NetOk, Queued, WellCut;
  }

  lemma StreamBound(s: Sys, ab: Dir, ba: Dir)
    requires InvWith(s, ab, ba)
    ensures |s.a.written| < STREAM_LIMIT
  {
    hide Sends, Receives, NetOk;
  }

  lemma TilingOneWay(s: Sys, c: Conn, d: Dir)
    requires s.a.conn == Some(c) && c.send.iss == s.aIss && Sends(c, d, s.a.written)
    ensures 0 <= Transmitted(s.a) && c.sendBuf == s.a.written[Transmitted(s.a)..]
    ensures c.state != Closed ==>
              Off(s.aIss, c.send.nxt) == 1 + Transmitted(s.a) + if FinStates(c.state) then 1 else 0
    ensures c.retx.segs != [] ==> c.retx.segs[0].start == c.send.una
    ensures !Closing(c.state) ==> (c.retx.segs == [] <==> c.send.una == c.send.nxt)
  {
    assert Transmitted(s.a) == Direction.Sent(d);
    if c.retx.segs != [] {
      assert Entry(c.retx.segs[0], s.aIss, d, s.a.written, Oldest(c, d));
      OffInjective(s.aIss, c.retx.segs[0].start, c.send.una);
      Ordered(d, s.a.written, Oldest(c, d) + 1, Units(d));
    } else if Off(s.aIss, c.send.una) == d.cuts[Oldest(c, d)] {
      OffInjective(s.aIss, c.send.una, c.send.nxt);
    }
  }

  /** In every reachable state: what is written is what was transmitted followed by the send buffer,
      SND.NXT counts exactly the SYN, those bytes and the FIN, and the queue tiles the range from
      SND.UNA to SND.NXT with segments that still carry the right bytes. */
  lemma TilingAndConservation(s: Sys)
    requires Reached(s) && s.a.conn.Some?
    ensures var c := s.a.conn.value;
            && 0 <= Transmitted(s.a) && c.sendBuf == s.a.written[Transmitted(s.a)..]
            && (c.state != Closed ==>
                  Off(s.aIss, c.send.nxt) == 1 + Transmitted(s.a) + if FinStates(c.state) then 1 else 0)
            && (forall j :: 0 <= j < |c.retx.segs| ==> Tile(c, s.a.written, j))
            && (c.retx.segs != [] ==> c.retx.segs[0].start == c.send.una)
            && (!Closing(c.state) ==> (c.retx.segs == [] <==> c.send.una == c.send.nxt))
  {
    hide Reached, InvWith, Sends, Off, Tile, FinStates, Closing;
    ReachedInv(s);
    var ab, ba :| InvWith(s, ab, ba);
    SenderOf(s, ab, ba);
    var c := s.a.conn.value;
    TilingOneWay(s, c, ab);
    forall j | 0 <= j < |c.retx.segs|
      ensures Tile(c, s.a.written, j)
    {
      EntryTile(c, ab, s.a.written, j);
    }
  }

  // ---- NewReno episodes ----

  /** In every reachable state a recovery episode is under way only while its recovery point is ahead
      of SND.UNA and has been sent (section 3.2 of RFC 6582). */
  lemma RecoveryPoint(s: Sys)
    requires Reached(s) && s.a.conn.Some? && Congestion.InRecovery(s.a.conn.value.cong)
    ensures Between(s.a.conn.value.send.una, s.a.conn.value.recover, s.a.conn.value.send.nxt)
  {
    hide Reached, InvWith, Between, Off;
    ReachedInv(s);
    var ab, ba :| InvWith(s, ab, ba);
    SenderOf(s, ab, ba);
    var c := s.a.conn.value;
    Bounded(ab, s.a.written, Units(ab));
    BetweenOff(s.aIss, c.send.una, c.recover, c.send.nxt);
  }
}
