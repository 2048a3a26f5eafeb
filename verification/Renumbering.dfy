/** Whole runs of the two-endpoint system under other initial sequence numbers: every run is the translate of
    one that starts from zero at both ends, and there no number ever wraps. */
module Renumbering {
  import opened Types
  import opened SeqNum
  import opened Segments
  import opened Connection
  import opened Calls
  import opened Direction
  import opened System
  import opened EndToEnd
  import opened Translation
  import opened Twins
  import opened Wrap
  import Retransmit
  import Reassembly
  import Congestion

  function TurnNet(net: set<Seg>, k: u32, j: u32): set<Seg> {
    set p | p in net :: TurnSeg(p, k, j)
  }

  predicate TwinPeer(p: Peer, q: Peer, k: u32, j: u32) {
    && q.written == p.written && q.taken == p.taken && (q.conn.Some? <==> p.conn.Some?)
    && (p.conn.Some? ==> Twin(p.conn.value, q.conn.value, k, j))
  }

  /** Every field of either end, everything written and taken, and everything in the network: the same but for
      A's numbers turned by k and B's by j. */
  predicate TwinSys(s: Sys, t: Sys, k: u32, j: u32) {
    && t.aIss == Add(s.aIss, k) && t.bIss == Add(s.bIss, j)
    && TwinPeer(s.a, t.a, k, j) && TwinPeer(s.b, t.b, j, k)
    && t.toB == TurnNet(s.toB, k, j) && t.toA == TurnNet(s.toA, j, k)
  }

  function TurnAction(act: Action, k: u32, j: u32): Action {
    match act
    case AtA(e) => AtA(TurnEvent(e, k, j))
    case AtB(e) => AtB(TurnEvent(e, j, k))
  }

  function TurnActions(acts: seq<Action>, k: u32, j: u32): (r: seq<Action>)
    ensures |r| == |acts| && forall i :: 0 <= i < |acts| ==> r[i] == TurnAction(acts[i], k, j)
  {
    seq(|acts|, i requires 0 <= i < |acts| => TurnAction(acts[i], k, j))
  }

  // ---- the network ----

  lemma SameBlocks(a: seq<Block>, b: seq<Block>, k: u32)
    ensures TurnBlocks(a, k) == TurnBlocks(b, k) <==> a == b
  {
    if TurnBlocks(a, k) == TurnBlocks(b, k) {
      assert |a| == |b|;
      forall i | 0 <= i < |a|
        ensures a[i] == b[i]
      {
        assert TurnBlock(a[i], k) == TurnBlocks(a, k)[i] == TurnBlocks(b, k)[i] == TurnBlock(b[i], k);
        TurnOrder(a[i].left, b[i].left, k);
        TurnOrder(a[i].right, b[i].right, k);
      }
    }
  }

  lemma VariantTwin(p: Seg, q: Seg, k: u32, j: u32)
    ensures Variant(TurnSeg(p, k, j), TurnSeg(q, k, j)) <==> Variant(p, q)
  {
    TurnOrder(p.seqno, q.seqno, k);
    TurnOrder(p.ackno, q.ackno, j);
    SameBlocks(p.opts.sack, q.opts.sack, j);
    hide Add, TurnBlocks, Has;
  }

  lemma DeliverableTwin(net: set<Seg>, p: Seg, k: u32, j: u32)
    ensures Deliverable(TurnNet(net, k, j), TurnSeg(p, k, j)) <==> Deliverable(net, p)
  {
    hide Variant, TurnSeg;
    if Deliverable(net, p) {
      var q :| q in net && Variant(p, q);
      VariantTwin(p, q, k, j);
      assert TurnSeg(q, k, j) in TurnNet(net, k, j);
    }
    if Deliverable(TurnNet(net, k, j), TurnSeg(p, k, j)) {
      var r :| r in TurnNet(net, k, j) && Variant(TurnSeg(p, k, j), r);
      var q :| q in net && TurnSeg(q, k, j) == r;
      VariantTwin(p, q, k, j);
    }
  }

  lemma MoreNet(net: set<Seg>, outs: seq<Seg>, k: u32, j: u32)
    ensures TurnNet(net + OnWire(outs), k, j) == TurnNet(net, k, j) + OnWire(TurnSegs(outs, k, j))
  {
    hide TurnSeg;
    forall x
      ensures x in TurnNet(OnWire(outs), k, j) <==> x in OnWire(TurnSegs(outs, k, j))
    {
      if x in TurnNet(OnWire(outs), k, j) {
        var p :| p in outs && TurnSeg(p, k, j) == x;
        var i :| 0 <= i < |outs| && outs[i] == p;
        assert TurnSegs(outs, k, j)[i] == x;
      }
      if x in OnWire(TurnSegs(outs, k, j)) {
        var i :| 0 <= i < |outs| && TurnSegs(outs, k, j)[i] == x;
        assert outs[i] in outs;
      }
    }
    assert TurnNet(net + OnWire(outs), k, j) == TurnNet(net, k, j) + TurnNet(OnWire(outs), k, j);
  }

  // ---- one event ----

  lemma FreshTwin(state: State, iss: u32, irs: u32, budget: Budget, now: nat, k: u32, j: u32)
    requires state != SynSent
    ensures Twin(Fresh(state, iss, irs, Add(irs, 1), budget, now),
                 Fresh(state, Add(iss, k), Add(irs, j), Add(Add(irs, j), 1), budget, now), k, j)
  {
    TurnAdd(iss, 1, k);
    TurnAdd(irs, 1, j);
    assert TurnQueue([], k, j) == [];
    hide Add, Low32, TurnQueue;
  }

  lemma QueuedTwin(c: Conn, d: Conn, p: Seg, now: nat, k: u32, j: u32)
    requires Twin(c, d, k, j)
    ensures Twin(c.(retx := Retransmit.Record(c.retx, c.send.iss, c.send.nxt, p, now)),
                 d.(retx := Retransmit.Record(d.retx, d.send.iss, d.send.nxt, TurnSeg(p, k, j), now)), k, j)
  {
    TurnAppend(c.retx.segs, Retransmit.Unacked(c.send.iss, c.send.nxt, p, now, 0, false), k, j);
    hide Add, TurnQueue, TurnSeg, TwinReasm;
  }

  lemma WithOpt(c: Conn, d: Conn, opt: Settings, k: u32, j: u32)
    requires Twin(c, d, k, j)
    ensures Twin(c.(opt := opt), d.(opt := opt), k, j)
  {
    hide TwinQueue, Add, TwinReasm;
  }

  lemma AcceptTwin(p: Seg, iss: u32, budget: Budget, now: nat, k: u32, j: u32)
    ensures var r, t := Accept(p, iss, budget, now), Accept(TurnSeg(p, j, k), Add(iss, k), budget, now);
            && (t.Some? <==> r.Some?)
            && (r.Some? ==> Twin(r.value.0, t.value.0, k, j) && t.value.1 == TurnSeg(r.value.1, k, j))
  {
    var q := TurnSeg(p, j, k);
    if Has(p.flags, SYN) {
      FreshTwin(SynRcvd, iss, p.seqno, budget, now, k, j);
      var c := Fresh(SynRcvd, iss, p.seqno, Add(p.seqno, 1), budget, now);
      var d := Fresh(SynRcvd, Add(iss, k), q.seqno, Add(q.seqno, 1), budget, now);
      var r, t := Accept(p, iss, budget, now).value, Accept(q, Add(iss, k), budget, now).value;
      WithOpt(c, d, r.0.opt, k, j);
      var c1, d1 := c.(opt := r.0.opt), d.(opt := r.0.opt);
      QueuedTwin(c1, d1, r.1, now, k, j);
      TurnAdd(p.seqno, 1, j);
      NoBlocks(j);
      AcceptParts(p, iss, budget, now);
      AcceptParts(q, Add(iss, k), budget, now);
      SynAckTwin(p, iss, budget, now, k, j);
      hide Add, Accept, Fresh, Twin, TurnSeg, Has;
    }
  }

  lemma AcceptParts(p: Seg, iss: u32, budget: Budget, now: nat)
    requires Has(p.flags, SYN)
    ensures var r := Accept(p, iss, budget, now).value;
            var c := Fresh(SynRcvd, iss, p.seqno, Add(p.seqno, 1), budget, now).(opt := r.0.opt);
            r.0 == c.(retx := Retransmit.Record(c.retx, c.send.iss, c.send.nxt, r.1, now))
  {
    hide Add, Low32;
  }

  lemma SynAckTwin(p: Seg, iss: u32, budget: Budget, now: nat, k: u32, j: u32)
    requires Has(p.flags, SYN)
    ensures var r, t := Accept(p, iss, budget, now).value, Accept(TurnSeg(p, j, k), Add(iss, k), budget, now).value;
            t.1 == TurnSeg(r.1, k, j) && t.0.opt == r.0.opt
  {
    TurnAdd(p.seqno, 1, j);
    NoBlocks(j);
    hide Add, Low32, TurnBlocks;
  }

  predicate TwinLocal(r: (Peer, seq<Seg>), t: (Peer, seq<Seg>), k: u32, j: u32) {
    TwinPeer(r.0, t.0, k, j) && t.1 == TurnSegs(r.1, k, j)
  }

  lemma LocalTwin(p: Peer, q: Peer, iss: u32, inbox: set<Seg>, e: Event, k: u32, j: u32)
    requires TwinPeer(p, q, k, j)
    requires e.ReceiveEvent? && Deliverable(inbox, e.p) ==> !Has(e.p.flags, RST)
    ensures TwinLocal(Local(p, iss, inbox, e), Local(q, Add(iss, k), TurnNet(inbox, j, k), TurnEvent(e, k, j)), k, j)
  {
    TurnNone(k, j);
    var f := TurnEvent(e, k, j);
    if e.ReceiveEvent? {
      DeliverableTwin(inbox, e.p, j, k);
    }
    if p.conn.Some? {
      TakeTwin(p.conn.value, q.conn.value, k, j);
    }
    hide Deliverable, TurnNet, Apply, Accept, Twin, TurnSegs, TurnSeg, Has, Add, Take;
    if e.ReceiveEvent? && !Deliverable(inbox, e.p) {
    } else if p.conn.Some? {
      CallTwin(p.conn.value, q.conn.value, e, k, j);
    } else if e.ReceiveEvent? {
      AcceptTwin(e.p, iss, e.env.budget, e.now, k, j);
      OneTurned(e.p, iss, e.env.budget, e.now, k, j);
    }
  }

  lemma TakeTwin(c: Conn, d: Conn, k: u32, j: u32)
    requires Twin(c, d, k, j)
    ensures Take(d).1 == Take(c).1
  {
    hide TwinQueue, Add, TwinReasm;
  }

  lemma OneTurned(p: Seg, iss: u32, budget: Budget, now: nat, k: u32, j: u32)
    ensures var r := Accept(p, iss, budget, now);
            r.Some? ==> TurnSegs([r.value.1], k, j) == [TurnSeg(r.value.1, k, j)]
  {
    hide Accept, TurnSeg;
  }

  lemma NoResets(s: Sys, p: Seg)
    requires Inv(s) && Deliverable(s.toA, p)
    ensures !Has(p.flags, RST)
  {
    hide InvWith, NetOk, Honest, Truthful, Deliverable, WellCut;
    var ab, ba :| InvWith(s, ab, ba);
    PartsWith(s, ab, ba);
    VariantKeeps(s.toA, p, s.bIss, ba, s.b.written, s.aIss, ab);
    NeverReset(p, s.bIss, ba, s.b.written);
  }

  lemma NeverReset(p: Seg, iss: u32, d: Dir, w: seq<byte>)
    requires WellCut(d, w) && Honest(p, iss, d, w)
    ensures !Has(p.flags, RST)
  {
    hide Has, Off, Content;
  }

  lemma StepATwin(s: Sys, t: Sys, e: Event, k: u32, j: u32)
    requires TwinSys(s, t, k, j) && Inv(s)
    ensures TwinSys(StepA(s, e), StepA(t, TurnEvent(e, k, j)), k, j)
  {
    if e.ReceiveEvent? && Deliverable(s.toA, e.p) {
      NoResets(s, e.p);
    }
    hide Inv, Local, TwinPeer, Deliverable, TurnNet, Has, Add, TurnEvent;
    LocalTwin(s.a, t.a, s.aIss, s.toA, e, k, j);
    MoreNet(s.toB, Local(s.a, s.aIss, s.toA, e).1, k, j);
  }

  lemma StepTwin(s: Sys, t: Sys, act: Action, k: u32, j: u32)
    requires TwinSys(s, t, k, j) && Inv(s)
    ensures TwinSys(Step(s, act), Step(t, TurnAction(act, k, j)), k, j)
  {
    FlipInv(s);
    hide Inv, StepA, TwinPeer, TurnNet, Add, TurnEvent;
    match act {
      case AtA(e) => StepATwin(s, t, e, k, j);
      case AtB(e) =>
        StepATwin(Flip(s), Flip(t), e, j, k);
    }
  }

  lemma {:induction false} RunTwin(s: Sys, t: Sys, acts: seq<Action>, k: u32, j: u32)
    requires TwinSys(s, t, k, j) && Inv(s)
    ensures TwinSys(Run(s, acts), Run(t, TurnActions(acts, k, j)), k, j)
  {
    hide Inv, TwinSys, Step, TurnAction;
    if acts != [] {
      var n := |acts| - 1;
      RunTwin(s, t, acts[..n], k, j);
      RunInv(s, acts[..n]);
      assert TurnActions(acts, k, j)[..n] == TurnActions(acts[..n], k, j);
      StepTwin(Run(s, acts[..n]), Run(t, TurnActions(acts[..n], k, j)), acts[n], k, j);
    }
  }

  lemma ConnectTwin(iss: u32, budget: Budget, now: nat, k: u32, j: u32)
    ensures Twin(Connect(iss, budget, now).0, Connect(Add(iss, k), budget, now).0, k, j)
    ensures Connect(Add(iss, k), budget, now).1 == TurnSeg(Connect(iss, budget, now).1, k, j)
  {
    TurnAdd(iss, 1, k);
    NoBlocks(j);
    var c := Fresh(SynSent, iss, 0, 0, budget, now);
    var d := Fresh(SynSent, Add(iss, k), 0, 0, budget, now);
    assert TurnQueue([], k, j) == [];
    assert Twin(c, d, k, j) by { hide Add, Low32, TurnQueue; }
    var syn := Connect(iss, budget, now).1;
    assert Connect(Add(iss, k), budget, now).1 == TurnSeg(syn, k, j) by { hide Add, Low32, TurnBlocks; }
    QueuedTwin(c, d, syn, now, k, j);
    hide Add, Low32, TurnSeg, Twin;
  }

  lemma StartTwin(aIss: u32, bIss: u32, budget: Budget, now: nat, k: u32, j: u32)
    ensures TwinSys(Start(aIss, bIss, budget, now), Start(Add(aIss, k), Add(bIss, j), budget, now), k, j)
  {
    ConnectTwin(aIss, budget, now, k, j);
    hide Connect, Twin, Add, TurnSeg;
    var syn := Connect(aIss, budget, now).1;
    assert TurnNet({syn}, k, j) == {TurnSeg(syn, k, j)};
    assert TurnNet({}, j, k) == {};
  }

  /** The initial sequence numbers are immaterial: the same actions from other initial numbers, with the numbers
      in the segments handed over turned accordingly, lead to the same state turned accordingly. Every state,
      byte, window, timer, retransmission and reply is the same. */
  lemma InitialNumbersImmaterial(aIss: u32, bIss: u32, budget: Budget, now: nat, acts: seq<Action>, k: u32, j: u32)
    ensures TwinSys(Run(Start(aIss, bIss, budget, now), acts),
                    Run(Start(Add(aIss, k), Add(bIss, j), budget, now), TurnActions(acts, k, j)), k, j)
  {
    StartTwin(aIss, bIss, budget, now, k, j);
    StartInv(aIss, bIss, budget, now);
    hide Inv, TwinSys, Start, Run, Add;
    RunTwin(Start(aIss, bIss, budget, now), Start(Add(aIss, k), Add(bIss, j), budget, now), acts, k, j);
  }

  // ---- from zero ----

  function Negative(a: u32): u32 {
    Sub(0, a)
  }

  lemma BackToZero(a: u32)
    ensures Add(a, Negative(a)) == 0
  {
  }

  /** Every number the endpoint holds is below 2^31 as it stands, and SND.UNA, SND.NXT and the queue are in order. */
  ghost predicate Unwrapped(c: Conn) {
    && c.send.iss == 0 && c.send.una <= c.send.nxt && c.send.nxt + |c.sendBuf| < TWO_31
    && (forall x :: x in c.retx.segs ==> x.start < x.end <= c.send.nxt)
    && (c.retx.rackTs > 0 ==> c.retx.rackEnd < TWO_31)
    && (Congestion.InRecovery(c.cong) ==> c.send.una < c.recover <= c.send.nxt)
    && (c.state != SynSent ==>
          && 1 <= c.recv.nxt < TWO_31 && c.reasm.base == 1
          && (c.pendingFin.Some? ==> c.pendingFin.value < TWO_31)
          && forall o :: o in c.reasm.frags ==> 1 + o + |c.reasm.frags[o]| < TWO_31)
  }

  /** And so is every number in a segment. */
  ghost predicate UnwrappedSeg(p: Seg) {
    && p.seqno + |p.payload| < TWO_31 && (Has(p.flags, ACK) ==> p.ackno < TWO_31)
    && forall b :: b in p.opts.sack ==> b.left < TWO_31 && b.right < TWO_31
  }

  lemma FromZero(x: u32)
    ensures Off(0, x) == x && (Live(0, x) <==> x < TWO_31)
  {
  }

  lemma AllFromZero()
    ensures forall x: u32 {:trigger Off(0, x)} :: Off(0, x) == x
  {
    forall x: u32
      ensures Off(0, x) == x
    {
      FromZero(x);
    }
  }

  lemma UnwrappedEnd(s: Sys)
    requires Reached(s) && s.a.conn.Some? && s.aIss == 0 && s.bIss == 0
    ensures Unwrapped(s.a.conn.value)
  {
    hide Reached, Deliverable, SegmentLive, SenderLive, ReceiverLive, Sends, Receives, InvWith, NetOk, WellCut, Off,
      Between;
    var c := s.a.conn.value;
    AllNumbersLive(s, Seg(0, 0, 0, 0, NO_OPTIONS, []));
    var ab, ba := Parts(s);
    QueueBelow(c, ab, s.a.written);
    if Congestion.InRecovery(c.cong) {
      RecoveryPoint(s);
    }
    SenderFromZero(c);
    if c.state != SynSent {
      ReceiverFromZero(c);
    }
  }

  lemma SenderFromZero(c: Conn)
    requires SenderLive(c, 0) && forall x :: x in c.retx.segs ==> Off(0, x.end) <= Off(0, c.send.nxt)
    requires Congestion.InRecovery(c.cong) ==> Between(c.send.una, c.recover, c.send.nxt)
    ensures c.send.una <= c.send.nxt && c.send.nxt + |c.sendBuf| < TWO_31
    ensures forall x :: x in c.retx.segs ==> x.start < x.end <= c.send.nxt
    ensures c.retx.rackTs > 0 ==> c.retx.rackEnd < TWO_31
    ensures Congestion.InRecovery(c.cong) ==> c.send.una < c.recover <= c.send.nxt
  {
    AllFromZero();
    if Congestion.InRecovery(c.cong) {
      BetweenOff(0, c.send.una, c.recover, c.send.nxt);
    }
    hide Off, Between;
    forall x | x in c.retx.segs
      ensures x.start < x.end <= c.send.nxt
    {
      assert EntryLive(x, 0);
    }
  }

  lemma ReceiverFromZero(c: Conn)
    requires ReceiverLive(c, 0) && c.state != SynSent
    ensures 1 <= c.recv.nxt < TWO_31 && c.reasm.base == 1
    ensures c.pendingFin.Some? ==> c.pendingFin.value < TWO_31
    ensures forall o :: o in c.reasm.frags ==> 1 + o + |c.reasm.frags[o]| < TWO_31
  {
    AllFromZero();
    assert forall o :: o in c.reasm.frags ==> FragLive(c.reasm, o, 0);
  }

  lemma QueueBelow(c: Conn, d: Dir, w: seq<byte>)
    requires Sends(c, d, w)
    ensures forall x :: x in c.retx.segs ==> Off(c.send.iss, x.end) <= Off(c.send.iss, c.send.nxt)
  {
    hide Sends, Off;
    forall x | x in c.retx.segs
      ensures Off(c.send.iss, x.end) <= Off(c.send.iss, c.send.nxt)
    {
      var i :| 0 <= i < |c.retx.segs| && c.retx.segs[i] == x;
      EntryEdges(c, d, w, i);
      SendsFacts(c, d, w);
      Bounded(d, w, Oldest(c, d) + i + 1);
    }
  }

  lemma UnwrappedNet(s: Sys, p: Seg)
    requires Reached(s) && s.a.conn.Some? && s.aIss == 0 && s.bIss == 0 && Deliverable(s.toA, p)
    ensures UnwrappedSeg(p)
  {
    hide Reached, Deliverable, SenderLive, ReceiverLive, SegmentLive, UnwrappedSeg;
    AllNumbersLive(s, p);
    SegmentFromZero(p);
  }

  lemma SegmentFromZero(p: Seg)
    requires SegmentLive(p, 0, 0)
    ensures UnwrappedSeg(p)
  {
    AllFromZero();
    hide Off, Has;
  }

  /** A number the connection holds. */
  ghost predicate Holds(c: Conn, x: u32) {
    || x == c.send.una || x == c.send.nxt || (Congestion.InRecovery(c.cong) && x == c.recover)
    || (c.retx.rackTs > 0 && x == c.retx.rackEnd) || (exists y :: y in c.retx.segs && (x == y.start || x == y.end))
    || (c.state != SynSent && (x == c.recv.nxt || c.pendingFin == Some(x)))
  }

  /** A number the segment states. */
  ghost predicate Says(p: Seg, x: u32) {
    x == p.seqno || (Has(p.flags, ACK) && x == p.ackno) || exists b :: b in p.opts.sack && (x == b.left || x == b.right)
  }

  /** The wrapping tests and the wrapping distance are those of the integers as they stand. */
  predicate ComparesPlainly(x: u32, y: u32) {
    && (Before(x, y) <==> x < y) && (After(x, y) <==> x > y) && (x <= y ==> Sub(y, x) == y - x)
    && Add(x, y) == x + y
  }

  lemma UnwrappedCompares(x: u32, y: u32)
    requires x < TWO_31 && y < TWO_31
    ensures ComparesPlainly(x, y)
  {
  }

  /** What may be compared when the segment p reaches the connection c. */
  ghost predicate Met(c: Conn, p: Seg, x: u32) {
    Holds(c, x) || Says(p, x)
  }

  lemma MetCompares(c: Conn, p: Seg)
    requires Unwrapped(c) && UnwrappedSeg(p)
    ensures forall x, y :: Met(c, p, x) && Met(c, p, y) ==> ComparesPlainly(x, y)
  {
    forall x, y | Met(c, p, x) && Met(c, p, y)
      ensures ComparesPlainly(x, y)
    {
      MetBelow(c, p, x);
      MetBelow(c, p, y);
      UnwrappedCompares(x, y);
    }
  }

  lemma MetBelow(c: Conn, p: Seg, x: u32)
    requires Unwrapped(c) && UnwrappedSeg(p) && Met(c, p, x)
    ensures x < TWO_31
  {
    hide Has;
  }

  /** The endpoint's numbers are plain, and so is every comparison with anything it can be handed. */
  ghost predicate PlainEnd(p: Peer, inbox: set<Seg>) {
    p.conn.Some? ==>
      && Unwrapped(p.conn.value)
      && forall q, x, y {:trigger Met(p.conn.value, q, x), Met(p.conn.value, q, y)} ::
           Deliverable(inbox, q) && Met(p.conn.value, q, x) && Met(p.conn.value, q, y) ==> ComparesPlainly(x, y)
  }

  lemma EndIsPlain(s: Sys)
    requires Reached(s) && s.aIss == 0 && s.bIss == 0
    ensures PlainEnd(s.a, s.toA)
  {
    hide Reached, Deliverable, Unwrapped, UnwrappedSeg, Met, ComparesPlainly;
    if s.a.conn.Some? {
      var c := s.a.conn.value;
      UnwrappedEnd(s);
      forall q, x, y | Deliverable(s.toA, q) && Met(c, q, x) && Met(c, q, y)
        ensures ComparesPlainly(x, y)
      {
        UnwrappedNet(s, q);
        MetCompares(c, q);
      }
    }
  }

  /** Every run from any initial numbers is the translate of a run from zero at both ends; and in that run no
      number held or handed over reaches 2^31, and every comparison and distance of two of them is that of the
      integers themselves. */
  lemma EveryRunFromZero(aIss: u32, bIss: u32, budget: Budget, now: nat, acts: seq<Action>)
    ensures var z := Run(Start(0, 0, budget, now), TurnActions(acts, Negative(aIss), Negative(bIss)));
            && TwinSys(Run(Start(aIss, bIss, budget, now), acts), z, Negative(aIss), Negative(bIss))
            && PlainEnd(z.a, z.toA) && PlainEnd(z.b, z.toB)
            && (forall q :: z.a.conn.Some? && Deliverable(z.toA, q) ==> UnwrappedSeg(q))
            && (forall q :: z.b.conn.Some? && Deliverable(z.toB, q) ==> UnwrappedSeg(q))
  {
    BackToZero(aIss);
    BackToZero(bIss);
    InitialNumbersImmaterial(aIss, bIss, budget, now, acts, Negative(aIss), Negative(bIss));
    var turned := TurnActions(acts, Negative(aIss), Negative(bIss));
    var z := Run(Start(0, 0, budget, now), turned);
    assert Reachable(z);
    SameOrigins(Start(0, 0, budget, now), turned);
    assert z.aIss == 0 && z.bIss == 0;
    FlipReached(z);
    hide TwinSys, Start, Run, Add, Sub, Reached, PlainEnd, UnwrappedSeg, Deliverable;
    EndIsPlain(z);
    EndIsPlain(Flip(z));
    forall q | z.a.conn.Some? && Deliverable(z.toA, q)
      ensures UnwrappedSeg(q)
    {
      UnwrappedNet(z, q);
    }
    forall q | z.b.conn.Some? && Deliverable(z.toB, q)
      ensures UnwrappedSeg(q)
    {
      UnwrappedNet(Flip(z), q);
    }
  }

  lemma {:induction false} SameOrigins(s: Sys, acts: seq<Action>)
    ensures Run(s, acts).aIss == s.aIss && Run(s, acts).bIss == s.bIss
  {
    if acts != [] {
      SameOrigins(s, acts[..|acts| - 1]);
      hide Local;
    }
  }
}
