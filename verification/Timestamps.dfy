/** PAWS (section 5 of RFC 7323) in the two-endpoint system: while the sender's clock does not run backwards and
    its timestamps arrive as they were sent, the receiver never turns away the segment it waits for. */
module Timestamps {
  import opened Types
  import opened SeqNum
  import opened Segments
  import opened Connection
  import opened Calls
  import opened Lifecycle
  import opened Segmentation
  import opened Direction
  import opened Arrival
  import opened System
  import opened EndToEnd
  import opened NewReno
  import opened Wrap
  import opened Placement
  import Sender
  import Receiver
  import Retransmit
  import Reassembly
  import Congestion
  import Rtt

  /** The network hands over what was sent with the timestamp it was sent with. */
  predicate Genuine(net: set<Seg>, p: Seg) {
    exists q :: q in net && Variant(p, q) && p.opts.ts == q.opts.ts
  }

  /** Content, that is no pure control segment, that the receiver has not passed yet. */
  ghost predicate Awaited(a: Peer, bIss: u32, x: Seg) {
    !Bare(x) && (Synced(a) ==> Off(bIss, x.seqno) >= Off(bIss, a.conn.value.recv.nxt))
  }

  predicate NotAfter(q: Seg, t: nat) {
    q.opts.ts.Some? ==> q.opts.ts.value.val <= t
  }

  predicate InStep(q: Seg, x: Seg) {
    q.opts.ts.Some? && x.opts.ts.Some? ==> q.opts.ts.value.val <= x.opts.ts.value.val
  }

  ghost predicate PairsInStep(s: Sys) {
    forall q, x :: q in s.toA && x in s.toA && Awaited(s.a, s.bIss, x) && Off(s.bIss, q.seqno) <= Off(s.bIss, x.seqno) ==>
      InStep(q, x)
  }

  /** TS.Recent, once there is one, is no later than anything awaited. */
  ghost predicate RecentInStep(s: Sys, last: nat) {
    Synced(s.a) && s.a.conn.value.opt.tsEnabled ==>
      && s.a.conn.value.opt.tsRecent <= last
      && forall x :: x in s.toA && Awaited(s.a, s.bIss, x) && x.opts.ts.Some? ==>
           s.a.conn.value.opt.tsRecent <= x.opts.ts.value.val
  }

  /** B's clock has reached `last`; nothing on its way to A is dated later, and nothing at or below a place A still
      waits for is dated later than the content of that place. */
  ghost predicate Timely(s: Sys, last: nat) {
    && last < TWO_31
    && (s.b.conn.None? ==> s.toA == {})
    && (s.a.conn.Some? && s.a.conn.value.state == SynSent ==> !s.a.conn.value.opt.tsEnabled)
    && (forall q :: q in s.toA ==> NotAfter(q, last))
    && PairsInStep(s) && RecentInStep(s, last)
  }

  lemma TimelyLater(s: Sys, last: nat, later: nat)
    requires Timely(s, last) && last <= later < TWO_31
    ensures Timely(s, later)
  {
    hide Awaited, InStep, Off;
  }

  // ---- what B sends ----

  /** Content lies below SND.NXT. */
  lemma ContentBelow(s: Sys, x: Seg)
    requires Reached(s) && s.b.conn.Some? && x in s.toA && !Bare(x)
    ensures Off(s.bIss, x.seqno) < Off(s.bIss, s.b.conn.value.send.nxt)
  {
    hide Reached, InvWith, Sends, Receives, NetOk, WellCut, Truthful, Off, Bare;
    FlipReached(s);
    var ba, ab := Parts(Flip(s));
    InFlipped(s, ab, ba, x);
    HonestBelow(x, s.bIss, ba, s.b.written);
    SendsFacts(s.b.conn.value, ba, s.b.written);
  }

  lemma InFlipped(s: Sys, ab: Dir, ba: Dir, x: Seg)
    requires InvWith(Flip(s), ba, ab) && x in s.toA
    ensures WellCut(ba, s.b.written) && Honest(x, s.bIss, ba, s.b.written)
  {
    hide PeerOk, Honest, Truthful, WellCut, Queued;
    PeerCut(Flip(s).a, s.bIss, s.aIss, ab, s.a.written, ba);
  }

  lemma PeerCut(p: Peer, iss: u32, oIss: u32, ins: Dir, w: seq<byte>, out: Dir)
    requires PeerOk(p, iss, oIss, ins, w, out)
    ensures WellCut(out, p.written)
  {
    hide Receives, Sends;
  }

  lemma HonestBelow(x: Seg, iss: u32, d: Dir, w: seq<byte>)
    requires WellCut(d, w) && Honest(x, iss, d, w) && !Bare(x)
    ensures Off(iss, x.seqno) < d.cuts[Units(d)]
  {
    var i :| Carries(x, iss, d, w, i);
    CutOrder(d, w, i, Units(d));
    hide Off, Has, Content, Cuts;
  }

  /** With nothing of B's in flight, nothing of B's is awaited. */
  lemma NothingAwaited(s: Sys, x: Seg)
    requires Reached(s) && s.b.conn.Some? && s.b.conn.value.send.una == s.b.conn.value.send.nxt
    requires x in s.toA && !Bare(x)
    ensures !Awaited(s.a, s.bIss, x)
  {
    hide Reached, InvWith, Off, Bare;
    ContentBelow(s, x);
    FlipReached(s);
    ReachedInv(Flip(s));
    var ba, ab :| InvWith(Flip(s), ba, ab);
    AcknowledgedIsHeard(Flip(s), ba, ab);
  }

  /** What is acknowledged has been received. */
  lemma AcknowledgedIsHeard(s: Sys, ab: Dir, ba: Dir)
    requires InvWith(s, ab, ba) && s.a.conn.Some? && s.a.conn.value.send.una == s.a.conn.value.send.nxt
    ensures Synced(s.b) && Off(s.aIss, s.a.conn.value.send.nxt) <= Off(s.aIss, s.b.conn.value.recv.nxt)
  {
    var c := s.a.conn.value;
    AgreementOneWay(s, ab, ba);
    ReceiverOf(s, ab, ba);
    SenderOf(s, ab, ba);
    SendsFacts(c, ab, s.a.written);
    hide InvWith, Sends, Off, WellCut;
    if !Synced(s.b) {
      AllHeard(c, ab, s.a.written);
    }
  }

  lemma AllHeard(c: Conn, d: Dir, w: seq<byte>)
    requires Sends(c, d, w) && c.send.una == c.send.nxt
    ensures Units(d) in d.stops && Units(d) > 0
  {
    SendsFacts(c, d, w);
    if Off(c.send.iss, c.send.una) == d.cuts[Oldest(c, d)] {
      CutOrder(d, w, Oldest(c, d), Units(d));
      CutOrder(d, w, Units(d), Oldest(c, d));
    }
    hide Tiled, Off, Cuts;
  }

  /** A packet of B's output was sent before, or has the clock v and lies where nothing awaited lies. */
  ghost predicate NewOrOld(s: Sys, o: Seg, v: u32) {
    o in s.toA || (Dated(o, v) && Apart(s, o))
  }

  ghost predicate Apart(s: Sys, o: Seg) {
    forall x :: x in s.toA && Awaited(s.a, s.bIss, x) ==> Off(s.bIss, x.seqno) < Off(s.bIss, o.seqno)
  }

  lemma OutputApart(s: Sys, e: Event, o: Seg)
    requires Reached(s) && s.b.conn.Some? && o in Local(s.b, s.bIss, s.toB, e).1
    ensures NewOrOld(s, o, StampOf(e))
  {
    hide Reached, Local, Placed, Awaited, Off, Bare, Dated;
    FlipReached(s);
    EventPlace(Flip(s), e);
    SenderAt(Flip(s));
    var c := s.b.conn.value;
    PlacedAt(c, Local(s.b, s.bIss, s.toB, e).1, o, StampOf(e));
    if Retransmit.PacketIn(c.retx.segs, o) {
      QueuedSent(s, o);
    } else {
      forall x | x in s.toA && Awaited(s.a, s.bIss, x)
        ensures Off(s.bIss, x.seqno) < Off(s.bIss, o.seqno)
      {
        AwaitedContent(s.a, s.bIss, x);
        ContentBelow(s, x);
        if c.send.una == c.send.nxt {
          NothingAwaited(s, x);
        }
      }
    }
  }

  lemma AwaitedContent(a: Peer, bIss: u32, x: Seg)
    requires Awaited(a, bIss, x)
    ensures !Bare(x)
  {
  }

  lemma QueuedSent(s: Sys, o: Seg)
    requires Reached(s) && s.b.conn.Some? && Retransmit.PacketIn(s.b.conn.value.retx.segs, o)
    ensures o in s.toA
  {
    hide Reached, PeerOk, NetOk;
    ReachedInv(s);
    var i :| 0 <= i < |s.b.conn.value.retx.segs| && s.b.conn.value.retx.segs[i].packet == o;
    assert s.b.conn.value.retx.segs[i] in s.b.conn.value.retx.segs;
  }

  /** The event has a clock. */
  predicate HasClock(e: Event) {
    e.PollEvent? || e.TickEvent? || e.CloseEvent? || e.ReceiveEvent?
  }

  /** Adding such output keeps the order. */
  lemma MoreTimely(s: Sys, t: Sys, outs: set<Seg>, last: nat, now: nat)
    requires Timely(s, last) && last <= now < TWO_31
    requires t.a == s.a && t.bIss == s.bIss && t.toA == s.toA + outs && (t.b.conn.None? ==> s.b.conn.None? && outs == {})
    requires forall o :: o in outs ==> NewOrOld(s, o, now)
    ensures Timely(t, now)
  {
    hide Awaited, Off;
    forall q, x | q in t.toA && x in t.toA && Awaited(t.a, t.bIss, x) && Off(t.bIss, q.seqno) <= Off(t.bIss, x.seqno)
      ensures InStep(q, x)
    {
      assert q in s.toA || NewOrOld(s, q, now);
      assert x in s.toA || NewOrOld(s, x, now);
    }
  }

  lemma ListenerAnswers(s: Sys, e: Event, last: nat)
    requires Timely(s, last) && s.b.conn.None? && (HasClock(e) ==> last <= e.now < TWO_31)
    ensures var t := Flip(StepA(Flip(s), e));
            Timely(t, if HasClock(e) then e.now else last)
  {
    hide PairsInStep, RecentInStep, Deliverable, Has;
    var t := Flip(StepA(Flip(s), e));
    var r := Local(s.b, s.bIss, s.toB, e);
    assert s.toA + OnWire([]) == s.toA;
    if r.0.conn.None? {
      assert t == s;
      TimelyLater(s, last, if HasClock(e) then e.now else last);
    } else {
      var a := Accept(e.p, s.bIss, e.env.budget, e.now).value;
      AcceptDated(e.p, s.bIss, e.env.budget, e.now);
      hide Accept;
      assert r == (s.b.(conn := Some(a.0)), [a.1]);
      Dawn(s, t, a.1, last, e.now);
    }
  }

  lemma AcceptDated(p: Seg, iss: u32, budget: Budget, now: nat)
    requires Accept(p, iss, budget, now).Some?
    ensures Dated(Accept(p, iss, budget, now).value.1, Low32(now))
  {
    hide Add, Has;
  }

  lemma Dawn(s: Sys, t: Sys, o: Seg, last: nat, now: nat)
    requires Timely(s, last) && s.toA == {} && last <= now < TWO_31 && Dated(o, Low32(now))
    requires t.a == s.a && t.bIss == s.bIss && t.toA == {o} && t.b.conn.Some?
    ensures Timely(t, now)
  {
    hide Awaited, Off;
  }

  lemma QuietEventsSilent(p: Peer, iss: u32, inbox: set<Seg>, e: Event)
    requires !HasClock(e)
    ensures Local(p, iss, inbox, e).1 == []
  {
    hide Deliverable;
  }

  lemma StepAtB(s: Sys, e: Event)
    requires s.b.conn.Some?
    ensures var t := Flip(StepA(Flip(s), e));
            var r := Local(s.b, s.bIss, s.toB, e);
            t.a == s.a && t.bIss == s.bIss && t.toA == s.toA + OnWire(r.1) && t.b.conn.Some?
  {
    hide Apply, Deliverable, Take;
  }

  lemma ClockIsStamp(e: Event)
    ensures HasClock(e) && e.now < TWO_31 ==> StampOf(e) == e.now
  {
  }

  /** Any event at B, at a time not before the last. */
  lemma TimelyAtB(s: Sys, e: Event, last: nat)
    requires Reached(s) && Timely(s, last) && (HasClock(e) ==> last <= e.now < TWO_31)
    ensures Timely(Flip(StepA(Flip(s), e)), if HasClock(e) then e.now else last)
  {
    assert last < TWO_31;
    hide Reached, Timely, Local, NewOrOld, StepA;
    if s.b.conn.None? {
      ListenerAnswers(s, e, last);
    } else {
      var t := Flip(StepA(Flip(s), e));
      var r := Local(s.b, s.bIss, s.toB, e);
      var now := if HasClock(e) then e.now else last;
      StepAtB(s, e);
      if !HasClock(e) {
        QuietEventsSilent(s.b, s.bIss, s.toB, e);
      }
      ClockIsStamp(e);
      forall o | o in OnWire(r.1)
        ensures NewOrOld(s, o, now)
      {
        OutputApart(s, e, o);
      }
      MoreTimely(s, t, OnWire(r.1), last, now);
    }
  }

  // ---- what A hears ----

  /** TS.Recent only ever takes the timestamp of a segment at or below RCV.NXT. */
  ghost predicate RecentFrom(c: Conn, c': Conn, p: Seg) {
    && c'.opt.tsEnabled == c.opt.tsEnabled
    && (c'.opt.tsRecent == c.opt.tsRecent ||
        (p.opts.ts.Some? && c'.opt.tsRecent == p.opts.ts.value.val && !After(p.seqno, c.recv.nxt)))
  }

  predicate SameRecent(c: Conn, c': Conn) {
    c'.opt.tsEnabled == c.opt.tsEnabled && c'.opt.tsRecent == c.opt.tsRecent
  }

  lemma ChallengeRecent(c: Conn, env: Env, now: nat)
    ensures SameRecent(c, MaybeChallenge(c, env, now).0) && MaybeChallenge(c, env, now).0.state == c.state
  {
    hide BareAck;
  }

  lemma TextRecent(c: Conn, s: Seg)
    ensures OnText(c, s).0.opt == c.opt
  {
    hide Reassembly.Recv, Add, Before, After, Has, BareAck, AckOptions;
  }

  lemma RefreshRecent(c: Conn, s: Seg)
    ensures RecentFrom(c, Refresh(c, s), s)
  {
    hide Scaled, After;
  }

  lemma OpenRecent(c: Conn, s: Seg, env: Env, now: nat)
    requires c.state == Established || c.state == CloseWait
    ensures RecentFrom(c, OnOpen(c, s, env, now).0, s)
  {
    hide Derived, Refresh, OnAckField, OnText, Paws, Has, BareAck, After;
    var c1 := Refresh(c, s);
    RefreshRecent(c, s);
    AckFieldFrame(c1, s, c.send.wnd, env, now);
    TextRecent(c1, s);
    TextRecent(OnAckField(c1, s, c.send.wnd, env, now).0, s);
  }

  lemma ClosingRecent(c: Conn, s: Seg, env: Env, now: nat)
    requires c.state != SynSent && c.state != SynRcvd && c.state != Established && c.state != CloseWait
    ensures SameRecent(c, OnSynced(c, s, env, now).0)
  {
    hide Has, Retransmit.Ack, Reassembly.Recv, BareAck, Add;
  }

  lemma EstablishRecent(c: Conn, s: Seg, now: nat)
    ensures SameRecent(c, Establish(c, s, now)) && Establish(c, s, now).state == Established
    ensures Establish(c, s, now).recv == c.recv
  {
    hide Retransmit.Ack;
  }

  lemma RstRecent(c: Conn, s: Seg, env: Env, now: nat)
    ensures SameRecent(c, OnRst(c, s, env, now).0)
  {
    ChallengeRecent(c, env, now);
    hide MaybeChallenge, InWindow, Has;
  }

  lemma HeardRecent(c: Conn, p: Seg, env: Env, now: nat)
    requires c.state != SynSent
    ensures RecentFrom(c, OnSegment(c, p, env, now).0, p)
  {
    var c1 := Arrive(c, now);
    assert SameRecent(c, c1) && c1.state == c.state && c1.recv == c.recv && c1.send == c.send;
    hide Arrive, OnRst, OnSynced, OnOpen, MaybeChallenge, Establish, Has, After;
    if Has(p.flags, RST) {
      RstRecent(c1, p, env, now);
    } else if Has(p.flags, SYN) && Synchronized(c.state) {
      ChallengeRecent(c1, env, now);
    } else if c.state == SynRcvd {
      if Has(p.flags, ACK) && p.ackno == c.send.nxt {
        EstablishRecent(c1, p, now);
        OpenRecent(Establish(c1, p, now), p, env, now);
        OpenSynced(Establish(c1, p, now), p, env, now);
      }
    } else if c.state == Established || c.state == CloseWait {
      OpenRecent(c1, p, env, now);
      OpenSynced(c1, p, env, now);
    } else {
      ClosingRecent(c1, p, env, now);
    }
  }

  lemma OpenSynced(c: Conn, s: Seg, env: Env, now: nat)
    requires c.state == Established || c.state == CloseWait
    ensures OnSynced(c, s, env, now) == OnOpen(c, s, env, now)
  {
    hide OnOpen;
  }

  /** The SYN-ACK of an active open brings the first TS.Recent. */
  lemma OpeningRecent(c: Conn, p: Seg, env: Env, now: nat)
    requires c.state == SynSent && !c.opt.tsEnabled && !Has(p.flags, RST)
    ensures var c' := OnSegment(c, p, env, now).0;
            if c'.state == SynSent then !c'.opt.tsEnabled
            else
              && Has(p.flags, SYN) && c'.recv.nxt == Add(p.seqno, 1)
              && (c'.opt.tsEnabled <==> p.opts.ts.Some?) && (p.opts.ts.Some? ==> c'.opt.tsRecent == p.opts.ts.value.val)
  {
    hide Retransmit.Ack, BareAck, Has, Add;
  }

  lemma AcceptRecent(p: Seg, iss: u32, budget: Budget, now: nat)
    requires Accept(p, iss, budget, now).Some?
    ensures var c := Accept(p, iss, budget, now).value.0;
            && Has(p.flags, SYN) && c.state == SynRcvd && c.recv.nxt == Add(p.seqno, 1)
            && (c.opt.tsEnabled <==> p.opts.ts.Some?) && (p.opts.ts.Some? ==> c.opt.tsRecent == p.opts.ts.value.val)
  {
    hide Add, Has;
  }

  /** RCV.NXT never moves back. */
  lemma NeverBack(s: Sys, e: Event)
    requires Reached(s) && Synced(s.a)
    ensures var t := StepA(s, e);
            Synced(t.a) && Off(s.bIss, t.a.conn.value.recv.nxt) >= Off(s.bIss, s.a.conn.value.recv.nxt)
  {
    hide Reached, InvWith, PeerOk, NetOk, Local, LocalStep, Off, Apply;
    ReachedInv(s);
    var ab, ba :| InvWith(s, ab, ba);
    Halves(s, ab, ba);
    var ba', ab' := EventStep(s.a, s.aIss, s.bIss, ba, s.b.written, ab, s.toA, e);
    SyncedStays(s.a, s.aIss, s.toA, e);
    Moved(s.a, Local(s.a, s.aIss, s.toA, e), s.aIss, s.bIss, ba, s.b.written, ab, ba', ab');
  }

  lemma Halves(s: Sys, ab: Dir, ba: Dir)
    requires InvWith(s, ab, ba)
    ensures PeerOk(s.a, s.aIss, s.bIss, ba, s.b.written, ab) && NetOk(s.toA, s.bIss, ba, s.b.written, s.aIss, ab)
  {
    hide PeerOk, NetOk;
  }

  lemma SyncedStays(p: Peer, iss: u32, inbox: set<Seg>, e: Event)
    requires Synced(p)
    ensures Synced(Local(p, iss, inbox, e).0)
  {
    hide Apply, Deliverable, Take;
    NotSynSent(p.conn.value, e);
  }

  lemma NotSynSent(c: Conn, e: Event)
    requires c.state != SynSent
    ensures Apply(c, e).0.state != SynSent
  {
    CallFollowsEdges(c, e);
    hide Apply, FinKnown;
  }

  lemma Moved(p: Peer, r: (Peer, seq<Seg>), iss: u32, oIss: u32, ins: Dir, w: seq<byte>, out: Dir, ins': Dir, out': Dir)
    requires PeerOk(p, iss, oIss, ins, w, out) && LocalStep(p, iss, oIss, ins, w, out, r, ins', out')
    requires Synced(p) && Synced(r.0)
    ensures Off(oIss, r.0.conn.value.recv.nxt) >= Off(oIss, p.conn.value.recv.nxt)
  {
    StandsAt(p, iss, oIss, ins, w, out);
    StandsAt(r.0, iss, oIss, ins', w, out');
    assert Receiver.ReceiverMoved(ins, ins');
    CutOrder(ins, w, ins.k, ins'.k);
    CutOrder(ins, w, ins'.k, ins.k);
    hide PeerOk, LocalStep, Off, WellCut;
  }

  lemma StandsAt(p: Peer, iss: u32, oIss: u32, ins: Dir, w: seq<byte>, out: Dir)
    requires PeerOk(p, iss, oIss, ins, w, out) && Synced(p)
    ensures WellCut(ins, w) && 0 <= ins.k < |ins.cuts| && Off(oIss, p.conn.value.recv.nxt) == ins.cuts[ins.k]
  {
    hide Sends, Clean, Off, WellCut;
  }

  /** What A awaits later it awaits now. */
  lemma AwaitedBefore(s: Sys, t: Sys, x: Seg)
    requires t.bIss == s.bIss && Awaited(t.a, t.bIss, x)
    requires Synced(s.a) ==> Synced(t.a) && Off(s.bIss, t.a.conn.value.recv.nxt) >= Off(s.bIss, s.a.conn.value.recv.nxt)
    ensures Awaited(s.a, s.bIss, x)
  {
    hide Off;
  }

  lemma FewerAwaited(s: Sys, t: Sys, last: nat)
    requires Timely(s, last) && t.toA == s.toA && t.bIss == s.bIss
    requires Synced(s.a) ==> Synced(t.a) && Off(s.bIss, t.a.conn.value.recv.nxt) >= Off(s.bIss, s.a.conn.value.recv.nxt)
    ensures PairsInStep(t)
  {
    hide Off, Awaited;
    forall q, x | q in t.toA && x in t.toA && Awaited(t.a, t.bIss, x) && Off(t.bIss, q.seqno) <= Off(t.bIss, x.seqno)
      ensures InStep(q, x)
    {
      AwaitedBefore(s, t, x);
    }
  }

  /** TS.Recent taken over from a segment q at or below everything awaited. */
  lemma RecentTaken(s: Sys, t: Sys, q: Seg, last: nat)
    requires Timely(s, last) && t.toA == s.toA && t.bIss == s.bIss && q in s.toA && Synced(t.a)
    requires Synced(s.a) ==> Off(s.bIss, t.a.conn.value.recv.nxt) >= Off(s.bIss, s.a.conn.value.recv.nxt)
    requires q.opts.ts.Some? && t.a.conn.value.opt.tsRecent == q.opts.ts.value.val
    requires Off(s.bIss, q.seqno) <= Off(s.bIss, t.a.conn.value.recv.nxt)
    ensures RecentInStep(t, last)
  {
    hide Off;
    forall x | x in t.toA && Awaited(t.a, t.bIss, x) && x.opts.ts.Some?
      ensures t.a.conn.value.opt.tsRecent <= x.opts.ts.value.val
    {
      AwaitedBefore(s, t, x);
      hide Awaited;
      assert InStep(q, x);
    }
    assert NotAfter(q, last);
  }

  lemma RecentKept(s: Sys, t: Sys, last: nat)
    requires Timely(s, last) && t.toA == s.toA && t.bIss == s.bIss && Synced(s.a) && Synced(t.a)
    requires Off(s.bIss, t.a.conn.value.recv.nxt) >= Off(s.bIss, s.a.conn.value.recv.nxt)
    requires SameRecent(s.a.conn.value, t.a.conn.value)
    ensures RecentInStep(t, last)
  {
    hide Off;
    forall x | x in t.toA && Awaited(t.a, t.bIss, x)
      ensures Awaited(s.a, s.bIss, x)
    {
      AwaitedBefore(s, t, x);
    }
    hide Awaited;
  }

  /** A segment the network may hand over, and the one it was. */
  lemma Source(s: Sys, p: Seg) returns (q: Seg)
    requires Reached(s) && Genuine(s.toA, p)
    ensures q in s.toA && Variant(p, q) && p.opts.ts == q.opts.ts && p.seqno == q.seqno && Deliverable(s.toA, p)
  {
    hide Reached;
    q :| q in s.toA && Variant(p, q) && p.opts.ts == q.opts.ts;
  }

  lemma SynAtZero(s: Sys, p: Seg)
    requires Reached(s) && Deliverable(s.toA, p) && Has(p.flags, SYN)
    ensures Off(s.bIss, p.seqno) == 0
  {
    hide Reached, InvWith, NetOk, WellCut, Honest, Truthful, Deliverable, Off, Has, Sends, Receives;
    var ab, ba := Parts(s);
    VariantKeeps(s.toA, p, s.bIss, ba, s.b.written, s.aIss, ab);
    SynFirst(p, s.bIss, ba, s.b.written);
  }

  lemma SynFirst(p: Seg, iss: u32, d: Dir, w: seq<byte>)
    requires WellCut(d, w) && Honest(p, iss, d, w) && Has(p.flags, SYN)
    ensures Off(iss, p.seqno) == 0
  {
    hide Off, Has, Content;
  }

  lemma NotReset(s: Sys, p: Seg)
    requires Reached(s) && Deliverable(s.toA, p)
    ensures !Has(p.flags, RST)
  {
    hide Reached, InvWith, NetOk, WellCut, Honest, Truthful, Deliverable, Has, Sends, Receives;
    var ab, ba := Parts(s);
    VariantKeeps(s.toA, p, s.bIss, ba, s.b.written, s.aIss, ab);
    HonestNeverResets(p, s.bIss, ba, s.b.written);
  }

  /** In ESTABLISHED and everywhere past the handshake. */
  lemma TimelyHeard(s: Sys, e: Event, last: nat)
    requires Reached(s) && Timely(s, last) && Synced(s.a) && e.ReceiveEvent? && Genuine(s.toA, e.p)
    ensures Timely(StepA(s, e), last)
  {
    var t := StepA(s, e);
    var c := s.a.conn.value;
    var q := Source(s, e.p);
    hide Reached, Timely, Off, OnSegment, Deliverable, Genuine, Awaited, PairsInStep, RecentInStep;
    HeardIs(s, e);
    NeverBack(s, e);
    NoReturn(s, e);
    assert PairsInStep(t) by { FewerAwaited(s, t, last); }
    HeardRecent(c, e.p, e.env, e.now);
    var c' := t.a.conn.value;
    if SameRecent(c, c') {
      RecentKept(s, t, last);
    } else {
      AtOrBelow(s, e.p);
      RecentTaken(s, t, q, last);
    }
    StillTimely(s, t, last);
  }

  lemma AtOrBelow(s: Sys, p: Seg)
    requires Reached(s) && Synced(s.a) && Deliverable(s.toA, p) && !After(p.seqno, s.a.conn.value.recv.nxt)
    ensures Off(s.bIss, p.seqno) <= Off(s.bIss, s.a.conn.value.recv.nxt)
  {
    AllNumbersLive(s, p);
    hide Reached, Deliverable, Off, After;
    BeforeOff(s.bIss, p.seqno, s.a.conn.value.recv.nxt);
  }

  lemma HeardIs(s: Sys, e: Event)
    requires e.ReceiveEvent? && Deliverable(s.toA, e.p) && s.a.conn.Some?
    ensures var t := StepA(s, e);
            && t.toA == s.toA && t.bIss == s.bIss && t.b == s.b
            && t.a.conn == Some(OnSegment(s.a.conn.value, e.p, e.env, e.now).0)
  {
    hide OnSegment, Deliverable;
  }

  lemma NoReturn(s: Sys, e: Event)
    requires Synced(s.a) && Synced(StepA(s, e).a)
    ensures StepA(s, e).a.conn.value.state != SynSent
  {
    hide Local;
  }

  lemma StillTimely(s: Sys, t: Sys, last: nat)
    requires Timely(s, last) && t.toA == s.toA && t.b == s.b && Synced(t.a)
    requires PairsInStep(t) && RecentInStep(t, last)
    ensures Timely(t, last)
  {
    hide PairsInStep, RecentInStep;
  }

  /** The handshake: the first segment A hears is B's SYN, below everything else. */
  lemma TimelyOpening(s: Sys, e: Event, last: nat)
    requires Reached(s) && Timely(s, last) && !Synced(s.a) && e.ReceiveEvent? && Genuine(s.toA, e.p)
    ensures Timely(StepA(s, e), last)
  {
    hide Reached, Off, OnSegment, Accept, Deliverable, Genuine, Awaited, StepA, Has, PairsInStep, RecentInStep;
    var t := StepA(s, e);
    var q := Source(s, e.p);
    OpeningIs(s, e);
    FewerAwaited(s, t, last);
    if Synced(t.a) {
      SynAtZero(s, e.p);
      if e.p.opts.ts.Some? {
        RecentTaken(s, t, q, last);
      } else {
        NoRecent(t, last);
      }
    } else {
      NoRecent(t, last);
    }
  }

  lemma NoRecent(t: Sys, last: nat)
    requires !Synced(t.a) || !t.a.conn.value.opt.tsEnabled
    ensures RecentInStep(t, last)
  {
  }

  /** What A becomes on the first segment it hears. */
  lemma OpeningIs(s: Sys, e: Event)
    requires Reached(s) && !Synced(s.a) && e.ReceiveEvent? && Deliverable(s.toA, e.p)
    requires s.a.conn.Some? ==> !s.a.conn.value.opt.tsEnabled
    ensures var t := StepA(s, e);
            && t.toA == s.toA && t.bIss == s.bIss && t.b == s.b
            && (t.a.conn.Some? && t.a.conn.value.state == SynSent ==> !t.a.conn.value.opt.tsEnabled)
            && (Synced(t.a) ==>
                  && Has(e.p.flags, SYN) && t.a.conn.value.recv.nxt == Add(e.p.seqno, 1)
                  && (t.a.conn.value.opt.tsEnabled <==> e.p.opts.ts.Some?)
                  && (e.p.opts.ts.Some? ==> t.a.conn.value.opt.tsRecent == e.p.opts.ts.value.val))
  {
    hide Reached, OnSegment, Accept, Deliverable, StepA, Has, Add;
    NotReset(s, e.p);
    if s.a.conn.Some? {
      HeardIs(s, e);
      OpeningRecent(s.a.conn.value, e.p, e.env, e.now);
    } else {
      ListenIs(s, e);
      if Accept(e.p, s.aIss, e.env.budget, e.now).Some? {
        AcceptRecent(e.p, s.aIss, e.env.budget, e.now);
      }
    }
  }

  lemma ListenIs(s: Sys, e: Event)
    requires e.ReceiveEvent? && Deliverable(s.toA, e.p) && s.a.conn.None?
    ensures var t := StepA(s, e);
            var r := Accept(e.p, s.aIss, e.env.budget, e.now);
            && t.toA == s.toA && t.bIss == s.bIss && t.b == s.b
            && t.a.conn == if r.Some? then Some(r.value.0) else None
  {
    hide Accept, Deliverable;
  }

  /** A call of A's own application, its clock or nothing at all. */
  lemma TimelyQuiet(s: Sys, e: Event, last: nat)
    requires Reached(s) && Timely(s, last) && (e.ReceiveEvent? ==> !Deliverable(s.toA, e.p))
    ensures Timely(StepA(s, e), last)
  {
    var t := StepA(s, e);
    assert t.toA == s.toA && t.b == s.b && t.bIss == s.bIss by { hide Local; }
    if s.a.conn.Some? && !e.ReceiveEvent? {
      QuietRecent(s.a.conn.value, e);
      LocalIs(s.a, s.aIss, s.toA, e);
    } else {
      NothingDone(s.a, s.aIss, s.toA, e);
    }
    hide Local, Reached, Deliverable, Off, Apply;
    if s.a.conn.Some? {
      assert t.a.conn.Some? && SameRecent(s.a.conn.value, t.a.conn.value);
      if Synced(s.a) {
        NeverBack(s, e);
        hide Awaited;
        FewerAwaited(s, t, last);
        RecentKept(s, t, last);
      } else {
        FewerAwaited(s, t, last);
      }
    } else {
      FewerAwaited(s, t, last);
    }
    hide PairsInStep, Awaited;
  }

  lemma QuietRecent(c: Conn, e: Event)
    requires !e.ReceiveEvent?
    ensures var c' := Apply(c, e).0;
            SameRecent(c, c') && (c'.state == SynSent <==> c.state == SynSent)
  {
    hide OnTick, PollTransmit, Segment;
    match e {
      case TickEvent(now) =>
        TickFrame(c, now);
        TickState(c, now);
      case PollEvent(now) => PollFrame(c, now);
      case _ =>
    }
  }

  lemma LocalIs(p: Peer, iss: u32, inbox: set<Seg>, e: Event)
    requires p.conn.Some? && !e.ReceiveEvent?
    ensures var r := Local(p, iss, inbox, e).0;
            r.conn == Some(Apply(p.conn.value, e).0) || r.conn == p.conn
  {
    hide Apply, Take;
  }

  lemma NothingDone(p: Peer, iss: u32, inbox: set<Seg>, e: Event)
    requires (e.ReceiveEvent? && !Deliverable(inbox, e.p)) || (p.conn.None? && !e.ReceiveEvent?)
    ensures Local(p, iss, inbox, e) == (p, [])
  {
    hide Deliverable, Accept;
  }

  /** Any event at A, where segments arrive with the timestamps they were sent with. */
  lemma TimelyAtA(s: Sys, e: Event, last: nat)
    requires Reached(s) && Timely(s, last) && (e.ReceiveEvent? && Deliverable(s.toA, e.p) ==> Genuine(s.toA, e.p))
    ensures Timely(StepA(s, e), last)
  {
    hide Reached, Timely, StepA, Deliverable, Genuine;
    if e.ReceiveEvent? && Deliverable(s.toA, e.p) {
      if Synced(s.a) {
        TimelyHeard(s, e, last);
      } else {
        TimelyOpening(s, e, last);
      }
    } else {
      TimelyQuiet(s, e, last);
    }
  }

  // ---- whole runs ----

  predicate ClockAtB(act: Action) {
    act.AtB? && HasClock(act.event)
  }

  /** B's clock readings do not decrease, from `from` up to `to`. */
  ghost predicate ClockRuns(acts: seq<Action>, from: nat, to: nat) {
    && (forall i :: 0 <= i < |acts| && ClockAtB(acts[i]) ==> from <= acts[i].event.now <= to)
    && (forall i, j :: 0 <= i < j < |acts| && ClockAtB(acts[i]) && ClockAtB(acts[j]) ==> acts[i].event.now <= acts[j].event.now)
  }

  /** Action i hands A a segment only as it was dated. */
  predicate GenuineAt(s: Sys, acts: seq<Action>, i: nat)
    requires i < |acts|
  {
    acts[i].AtA? && acts[i].event.ReceiveEvent? && Deliverable(Run(s, acts[..i]).toA, acts[i].event.p) ==>
      Genuine(Run(s, acts[..i]).toA, acts[i].event.p)
  }

  ghost predicate AllGenuine(s: Sys, acts: seq<Action>) {
    forall i :: 0 <= i < |acts| ==> GenuineAt(s, acts, i)
  }

  lemma GenuinePrefix(s: Sys, acts: seq<Action>, n: nat)
    requires n <= |acts| && AllGenuine(s, acts)
    ensures AllGenuine(s, acts[..n])
  {
    hide Run, Deliverable, Genuine;
    forall i | 0 <= i < n
      ensures GenuineAt(s, acts[..n], i)
    {
      assert GenuineAt(s, acts, i);
      assert acts[..n][..i] == acts[..i];
    }
  }

  lemma ClockPrefix(acts: seq<Action>, from: nat, to: nat)
    requires acts != [] && ClockRuns(acts, from, to)
    ensures var n := |acts| - 1;
            && ClockRuns(acts[..n], from, to)
            && (ClockAtB(acts[n]) ==> ClockRuns(acts[..n], from, acts[n].event.now) && from <= acts[n].event.now <= to)
  {
  }

  lemma {:induction false} TimelyRun(s: Sys, acts: seq<Action>, from: nat, to: nat)
    requires Reached(s) && Timely(s, from) && from <= to < TWO_31 && ClockRuns(acts, from, to) && AllGenuine(s, acts)
    ensures Reached(Run(s, acts)) && Timely(Run(s, acts), to)
  {
    if acts == [] {
      TimelyLater(s, from, to);
    } else {
      var n := |acts| - 1;
      var act := acts[n];
      GenuinePrefix(s, acts, n);
      assert GenuineAt(s, acts, n);
      ClockPrefix(acts, from, to);
      hide Reached, Timely, StepA, ClockRuns, AllGenuine, Deliverable, Genuine;
      var t := Run(s, acts[..n]);
      if ClockAtB(act) {
        TimelyRun(s, acts[..n], from, act.event.now);
        TimelyAtB(t, act.event, act.event.now);
        ReachedStepB(t, act.event);
        TimelyLater(Run(s, acts), act.event.now, to);
      } else {
        TimelyRun(s, acts[..n], from, to);
        if act.AtB? {
          TimelyAtB(t, act.event, to);
          ReachedStepB(t, act.event);
        } else {
          TimelyAtA(t, act.event, to);
          ReachedStepA(t, act.event);
        }
      }
    }
  }

  lemma StartTimely(aIss: u32, bIss: u32, budget: Budget, now: nat)
    requires now < TWO_31
    ensures var s := Start(aIss, bIss, budget, now);
            Reached(s) && Timely(s, now) && Reached(Flip(s)) && Timely(Flip(s), now)
  {
    var s := Start(aIss, bIss, budget, now);
    assert s == Run(s, []);
    FlipReached(s);
    hide Reached, Off;
    assert Timely(s, now) by { hide Bare; }
    OneSyn(Flip(s), Connect(aIss, budget, now).1, now);
  }

  lemma OneSyn(s: Sys, syn: Seg, now: nat)
    requires now < TWO_31 && s.toA == {syn} && s.a.conn.None? && s.b.conn.Some? && Dated(syn, Low32(now))
    ensures Timely(s, now)
  {
    hide Off, Bare;
  }

  /** PAWS never refuses what the receiver waits for: in every run of two endpoints, at either end, in which the other
      end's clock does not run backwards and stays below 2^31 ms, and segments arrive with the timestamps they were
      sent with (however late, often or out of order), content that starts at RCV.NXT passes. */
  lemma PawsSpares(aIss: u32, bIss: u32, budget: Budget, now: nat, opener: bool, acts: seq<Action>, to: nat, x: Seg)
    requires now <= to < TWO_31 && ClockRuns(acts, now, to)
    requires var z := Start(aIss, bIss, budget, now);
             AllGenuine(if opener then z else Flip(z), acts)
    ensures var z := Start(aIss, bIss, budget, now);
            var s := Run(if opener then z else Flip(z), acts);
            s.a.conn.Some? && s.a.conn.value.state != SynSent && Genuine(s.toA, x) && !Bare(x)
            && x.seqno == s.a.conn.value.recv.nxt ==>
              !Paws(s.a.conn.value, x)
  {
    var z := Start(aIss, bIss, budget, now);
    StartTimely(aIss, bIss, budget, now);
    hide Start, Run, Reached, Timely, AllGenuine, ClockRuns, Genuine, Bare, Paws;
    var s0 := if opener then z else Flip(z);
    TimelyRun(s0, acts, now, to);
    var s := Run(s0, acts);
    if Synced(s.a) && Genuine(s.toA, x) && !Bare(x) && x.seqno == s.a.conn.value.recv.nxt {
      TimelySpares(s, to, x);
    }
  }

  lemma TimelySpares(s: Sys, last: nat, x: Seg)
    requires Reached(s) && Timely(s, last) && Synced(s.a) && Genuine(s.toA, x) && !Bare(x)
    requires x.seqno == s.a.conn.value.recv.nxt
    ensures !Paws(s.a.conn.value, x)
  {
    var q := Source(s, x);
    assert Awaited(s.a, s.bIss, q) by { hide Off; }
    assert NotAfter(q, last);
    hide Reached, Genuine, Deliverable, Awaited, Off, PairsInStep;
  }
}
