/** Progress: from every reachable state in which nothing queued for the receiver acknowledges too little, the
    network can bring it all that was transmitted, just by handing over what was sent. */
module Progress {
  import opened Types
  import opened SeqNum
  import opened Segments
  import opened Connection
  import opened Calls
  import opened Lifecycle
  import opened AckField
  import opened Segmentation
  import opened Direction
  import opened Arrival
  import opened System
  import opened EndToEnd
  import opened NewReno
  import opened Wrap
  import opened Timestamps
  import opened Delivery
  import Sender
  import Receiver
  import Backlog
  import Retransmit
  import Reassembly
  import Congestion
  import Rtt

  // ---- the largest window known ----

  predicate PeerWnd(p: Peer) {
    p.conn.Some? ==> p.conn.value.send.maxWnd >= RCV_WND
  }

  lemma CallWnd(c: Conn, e: Event)
    ensures Apply(c, e).0.send.maxWnd >= c.send.maxWnd
  {
    hide OnSegment, OnTick, PollTransmit, Segment;
    match e {
      case ReceiveEvent(p, env, now) =>
        SegmentHandled(c, p, env, now);
        hide Derived, FinKnown, Heard;
      case TickEvent(now) => TickFrame(c, now);
      case PollEvent(now) => PollFrame(c, now);
      case _ =>
    }
  }

  lemma AcceptWnd(p: Seg, iss: u32, budget: Budget, now: nat)
    ensures Accept(p, iss, budget, now).Some? ==> Accept(p, iss, budget, now).value.0.send.maxWnd == RCV_WND
  {
    hide Has, Add;
  }

  lemma LocalWnd(p: Peer, iss: u32, inbox: set<Seg>, e: Event)
    requires PeerWnd(p)
    ensures PeerWnd(Local(p, iss, inbox, e).0)
  {
    hide Apply, Accept, Deliverable, Take;
    if p.conn.Some? {
      CallWnd(p.conn.value, e);
    } else if e.ReceiveEvent? {
      AcceptWnd(e.p, iss, e.env.budget, e.now);
    }
  }

  lemma {:induction false} RunWnd(s: Sys, acts: seq<Action>)
    requires PeerWnd(s.a) && PeerWnd(s.b)
    ensures PeerWnd(Run(s, acts).a) && PeerWnd(Run(s, acts).b)
  {
    if acts != [] {
      var n := |acts| - 1;
      var t := Run(s, acts[..n]);
      RunWnd(s, acts[..n]);
      hide PeerWnd, Local;
      match acts[n] {
        case AtA(e) => LocalWnd(t.a, t.aIss, t.toA, e);
        case AtB(e) => LocalWnd(t.b, t.bIss, t.toB, e);
      }
    }
  }

  /** MAX.SND.WND never falls below what it starts at. */
  lemma ReachedWnd(s: Sys)
    requires Reached(s)
    ensures PeerWnd(s.a)
  {
    hide PeerWnd, Reachable;
    if Reachable(s) {
      ReachableWnd(s);
    } else {
      ReachableWnd(Flip(s));
    }
  }

  lemma ReachableWnd(s: Sys)
    requires Reachable(s)
    ensures PeerWnd(s.a) && PeerWnd(s.b)
  {
    hide Run;
    var aIss, bIss, budget: Budget, now: nat, acts :| s == Run(Start(aIss, bIss, budget, now), acts);
    assert PeerWnd(Start(aIss, bIss, budget, now).a) && PeerWnd(Start(aIss, bIss, budget, now).b);
    hide PeerWnd, Start;
    RunWnd(Start(aIss, bIss, budget, now), acts);
  }

  // ---- one segment handed over ----

  /** The way segments are handed over: as they were sent, or with a shut window and no timestamp. */
  function Form(x: Seg, genuine: bool): Seg {
    if genuine then x else Plain(x)
  }

  lemma FormFacts(s: Sys, x: Seg, genuine: bool)
    requires x in s.toA
    ensures var p := Form(x, genuine);
            && Deliverable(s.toA, p) && (genuine ==> Genuine(s.toA, p)) && (!genuine ==> p.opts.ts.None?)
            && p.seqno == x.seqno && p.ackno == x.ackno && p.flags == x.flags && p.payload == x.payload
  {
    var p := Form(x, genuine);
    Handed(s.toA, p, x);
    assert Variant(x, x);
  }

  lemma FormSays(x: Seg, genuine: bool)
    ensures var p := Form(x, genuine);
            p.seqno == x.seqno && p.ackno == x.ackno && p.flags == x.flags && p.payload == x.payload
  {
  }

  /** B's queue holds what A misses and none of it acknowledges too little for A, nor too much for half the circle. */
  ghost predicate NothingStale(s: Sys) {
    s.a.conn.Some? && s.b.conn.Some? &&
    var c := s.a.conn.value;
    c.state == Established ==>
      && Off(s.aIss, c.send.nxt) - Off(s.aIss, c.send.una) < 0x4000_0000
      && forall y :: y in s.b.conn.value.retx.segs ==> FreshFor(c, s.aIss, y.packet)
  }

  predicate FreshFor(c: Conn, iss: u32, p: Seg) {
    Has(p.flags, ACK) ==> Off(iss, c.send.nxt) <= Off(iss, p.ackno) + c.send.maxWnd
  }

  /** An acknowledgement never runs ahead of what was sent. */
  lemma AckWithin(s: Sys, p: Seg)
    requires Reached(s) && s.a.conn.Some? && Deliverable(s.toA, p) && Has(p.flags, ACK)
    ensures Off(s.aIss, p.ackno) <= Off(s.aIss, s.a.conn.value.send.nxt)
  {
    hide Reached, InvWith, NetOk, WellCut, Honest, Truthful, Deliverable, Off, Sends, Receives, Has;
    var ab, ba := Parts(s);
    VariantKeeps(s.toA, p, s.bIss, ba, s.b.written, s.aIss, ab);
    TrueAck(p, s.aIss, ab, s.a.written);
    SendsFacts(s.a.conn.value, ab, s.a.written);
  }

  lemma TrueAck(p: Seg, iss: u32, d: Dir, w: seq<byte>)
    requires WellCut(d, w) && Truthful(p, iss, d) && Has(p.flags, ACK)
    ensures |d.cuts| >= 2 && Off(iss, p.ackno) <= d.cuts[Units(d)]
  {
    var a :| AckAt(p.ackno, iss, d, a);
    Bounded(d, w, a);
    hide Off, Has, WellCut;
  }

  /** A fresh segment is acceptable. */
  lemma FreshAcceptable(s: Sys, p: Seg)
    requires Reached(s) && s.a.conn.Some? && Deliverable(s.toA, p) && Has(p.flags, ACK)
    requires Off(s.aIss, s.a.conn.value.send.nxt) - Off(s.aIss, s.a.conn.value.send.una) < 0x4000_0000
    requires FreshFor(s.a.conn.value, s.aIss, p)
    ensures AckAcceptable(Refresh(s.a.conn.value, p), p.ackno)
  {
    var c := s.a.conn.value;
    LiveParts(s, p);
    SenderAt(s);
    AckWithin(s, p);
    RefreshedWnd(c, p);
    hide Reached, Deliverable, Off, Refresh, AckAcceptable, Has;
    AckAcceptableOnIntegers(Refresh(c, p), s.aIss, p.ackno);
  }

  lemma RefreshedWnd(c: Conn, p: Seg)
    ensures var r := Refresh(c, p);
            r.send.una == c.send.una && r.send.nxt == c.send.nxt && r.send.iss == c.send.iss && r.send.maxWnd >= c.send.maxWnd
  {
    hide Scaled, After;
  }

  /** An acceptable segment that acknowledges nothing new and is no third duplicate is not stopped at its
      acknowledgement field. */
  lemma OldPasses(c: Conn, p: Seg)
    requires Has(p.flags, ACK) ==>
               && AckAcceptable(Refresh(c, p), p.ackno) && !Between(c.send.una, p.ackno, c.send.nxt)
               && !ThirdDuplicate(c.cong)
    ensures !StopsAtAck(c, p)
  {
    hide AckAcceptable, Between, Refresh, Has, ThirdDuplicate, SomeHole, HoleBeyond;
  }

  /** An acceptable segment that is stopped leaves a connection that will not stop it again. */
  lemma StoppedOnce(c: Conn, p: Seg, env: Env, now: nat)
    requires c.state == Established && !Has(p.flags, RST) && !Has(p.flags, SYN) && !Paws(c, p)
    requires StopsAtAck(c, p) && AckAcceptable(Refresh(c, p), p.ackno)
    ensures var r := OnSegment(c, p, env, now).0;
            && !ThirdDuplicate(r.cong) && r.send.una == p.ackno && r.state == Established && r.recv == c.recv
  {
    var c1 := Arrive(c, now);
    var c2 := Refresh(c1, p);
    ArrivedFields(c, p, now);
    Backlog.ArrivedSame(c, p, now);
    SameAcceptance(c, p, now);
    Backlog.OpenCases(c, p, env, now);
    hide OnSegment, Arrive, Refresh, OnAckField, OnText, Paws, Has, StopsAtAck, AckAcceptable;
    var r := OnAckField(c2, p, c1.send.wnd, env, now);
    Backlog.AckKeepsReceiver(c2, p, c1.send.wnd, env, now);
    NoAck(c, p);
    StopsExactly(c1, p, env, now);
    AckFieldUnfold(c2, p, c1.send.wnd, env, now);
    StoppedNew(Marked(c2, p), p, env, now);
    StoppedDuplicate(Marked(c2, p), now);
    MarkedSend(c2, p);
    hide OnNewAck, OnDuplicateAck, Marked, MaybeChallenge, Between, ThirdDuplicate;
  }

  lemma NoAck(c: Conn, p: Seg)
    ensures StopsAtAck(c, p) ==> Has(p.flags, ACK)
  {
  }

  lemma SameAcceptance(c: Conn, p: Seg, now: nat)
    ensures AckAcceptable(Refresh(Arrive(c, now), p), p.ackno) == AckAcceptable(Refresh(c, p), p.ackno)
  {
    hide Before, After, Scaled;
  }

  lemma StoppedNew(c: Conn, p: Seg, env: Env, now: nat)
    ensures var r := OnNewAck(c, p, env, now);
            r.2 ==> !ThirdDuplicate(r.0.cong) && r.0.send.una == p.ackno
  {
    hide AckSample, Retransmit.Ack, Rtt.Sample, Retransmit.FastRetransmit, Before;
  }

  lemma StoppedDuplicate(c: Conn, now: nat)
    ensures var r := OnDuplicateAck(c, now);
            r.2 ==> !ThirdDuplicate(r.0.cong) && r.0.send.una == c.send.una
  {
    hide Retransmit.FastRetransmit, Congestion.BetaCut;
  }

  // ---- until it is accepted ----

  /** Every action hands A something out of the network, in the given form. */
  predicate HandsOver(act: Action, net: set<Seg>, genuine: bool) {
    act.AtA? && act.event.ReceiveEvent? && exists x :: x in net && act.event.p == Form(x, genuine)
  }

  ghost predicate AllHandOver(acts: seq<Action>, net: set<Seg>, genuine: bool) {
    forall i :: 0 <= i < |acts| ==> HandsOver(acts[i], net, genuine)
  }

  const HAND := Env(Congestion.MSS, 1)

  function Hand(x: Seg, genuine: bool): Action {
    AtA(ReceiveEvent(Form(x, genuine), HAND, 0))
  }

  lemma Hands(x: Seg, net: set<Seg>, genuine: bool)
    requires x in net
    ensures HandsOver(Hand(x, genuine), net, genuine)
  {
  }

  lemma {:induction false} RunOn(s: Sys, xs: seq<Action>, ys: seq<Action>)
    ensures Run(s, xs + ys) == Run(Run(s, xs), ys)
  {
    hide Step;
    if ys == [] {
      assert xs + ys == xs;
    } else {
      var n := |ys| - 1;
      RunOn(s, xs, ys[..n]);
      assert (xs + ys)[..|xs| + n] == xs + ys[..n];
    }
  }

  lemma BothHandOver(xs: seq<Action>, ys: seq<Action>, net: set<Seg>, genuine: bool)
    requires AllHandOver(xs, net, genuine) && AllHandOver(ys, net, genuine)
    ensures AllHandOver(xs + ys, net, genuine)
  {
    hide HandsOver;
  }

  /** Something is missing at A, and A is in a state to take it. */
  ghost predicate Lacks(s: Sys) {
    && Reached(s) && Synced(s.a) && s.b.conn.Some?
    && (Off(s.bIss, s.a.conn.value.recv.nxt) < Off(s.bIss, s.b.conn.value.send.nxt) ==> Receiving(s.a.conn.value))
  }

  /** All that is needed of a state, and kept by handing over. */
  ghost predicate Good(s: Sys, genuine: bool, last: nat) {
    Lacks(s) && NothingStale(s) && (genuine ==> Timely(s, last))
  }

  function Distance(s: Sys): int
    requires Synced(s.a) && s.b.conn.Some?
  {
    Off(s.bIss, s.b.conn.value.send.nxt) - Off(s.bIss, s.a.conn.value.recv.nxt)
  }

  /** The segment A waits for. */
  lemma Wanted(s: Sys) returns (x: Seg)
    requires Reached(s) && Synced(s.a) && s.b.conn.Some? && Distance(s) > 0
    ensures x in s.toA && x.seqno == s.a.conn.value.recv.nxt && (x.payload != [] || Has(x.flags, FIN))
    ensures !Has(x.flags, SYN) && !Has(x.flags, RST)
    ensures exists y :: y in s.b.conn.value.retx.segs && y.packet == x
  {
    FlipReached(s);
    hide Reached, Off, Has;
    var j := MissingIsQueued(Flip(s));
    x := s.b.conn.value.retx.segs[j].packet;
    assert s.b.conn.value.retx.segs[j] in s.b.conn.value.retx.segs;
  }

  /** What one handing over leaves as it was. */
  ghost predicate Onwards(s: Sys, t: Sys) {
    && s.a.conn.Some? && Reached(t) && t.b == s.b && t.toA == s.toA && t.aIss == s.aIss && t.bIss == s.bIss && Synced(t.a)
    && t.a.conn.value.send.nxt == s.a.conn.value.send.nxt
    && Off(s.aIss, t.a.conn.value.send.una) >= Off(s.aIss, s.a.conn.value.send.una)
    && t.a.conn.value.send.maxWnd >= s.a.conn.value.send.maxWnd
    && (t.a.conn.value.state == Established ==> s.a.conn.value.state == Established)
    && Off(s.bIss, t.a.conn.value.recv.nxt) >= Off(s.bIss, s.a.conn.value.recv.nxt)
  }

  lemma HandedKeeps(s: Sys, x: Seg, genuine: bool)
    requires Reached(s) && Synced(s.a) && s.b.conn.Some? && Receiving(s.a.conn.value) && x in s.toA
    ensures var t := Run(s, [Hand(x, genuine)]);
            && Onwards(s, t) && t == StepA(s, Hand(x, genuine).event)
            && t.a.conn.value == OnSegment(s.a.conn.value, Form(x, genuine), HAND, 0).0
  {
    var c := s.a.conn.value;
    var p := Form(x, genuine);
    var e := Hand(x, genuine).event;
    var t := StepA(s, e);
    assert Run(s, [Hand(x, genuine)]) == t by {
      hide StepA;
      assert [Hand(x, genuine)][..0] == [];
      assert Run(s, []) == s;
    }
    FormFacts(s, x, genuine);
    HeardIs(s, e);
    hide Reached, StepA, Run, OnSegment, Off, Deliverable, Form;
    ReachedStepA(s, e);
    NeverBack(s, e);
    Timestamps.NotReset(s, p);
    HeardWithin(s, p);
    EstablishedBefore(c, p);
    SenderAt(s);
  }

  lemma EstablishedBefore(c: Conn, p: Seg)
    requires Receiving(c)
    ensures OnSegment(c, p, HAND, 0).0.state == Established ==> c.state == Established
    ensures OnSegment(c, p, HAND, 0).0.send.nxt == c.send.nxt && OnSegment(c, p, HAND, 0).0.send.maxWnd >= c.send.maxWnd
  {
    SegmentHandled(c, p, HAND, 0);
    hide OnSegment, Derived, FinKnown, Has;
  }

  lemma HeardWithin(s: Sys, p: Seg)
    requires Reached(s) && s.a.conn.Some? && Receiving(s.a.conn.value) && Deliverable(s.toA, p) && !Has(p.flags, RST)
    ensures Off(s.aIss, OnSegment(s.a.conn.value, p, HAND, 0).0.send.una) >= Off(s.aIss, s.a.conn.value.send.una)
  {
    var c := s.a.conn.value;
    SenderAt(s);
    LiveParts(s, p);
    hide Reached, Deliverable, Has, OnSegment, Off, Live;
    if c.state == Established {
      var most: Wnd := 65535 * 16384;
      HeardOnward(c, p, most, HAND, 0);
    } else {
      FinWaitUna(c, p);
    }
  }

  lemma FinWaitUna(c: Conn, p: Seg)
    requires (c.state == FinWait1 || c.state == FinWait2) && !Has(p.flags, RST)
    ensures OnSegment(c, p, HAND, 0).0.send == c.send
  {
    hide Has, Reassembly.Recv, Retransmit.Ack, BareAck, Add, Low32;
  }

  lemma StaleLater(s: Sys, t: Sys)
    requires NothingStale(s) && s.a.conn.Some? && s.b.conn.Some? && Onwards(s, t)
    ensures NothingStale(t)
  {
    hide Reached, Off, Has;
  }

  /** The states in which A has stopped listening are those in which it has heard the FIN. */
  lemma StillReceiving(s: Sys, x: Seg, genuine: bool)
    requires Reached(s) && Synced(s.a) && s.b.conn.Some? && Receiving(s.a.conn.value) && x in s.toA
    ensures var t := Run(s, [Hand(x, genuine)]);
            Lacks(t)
  {
    var t := Run(s, [Hand(x, genuine)]);
    var c := s.a.conn.value;
    HandedKeeps(s, x, genuine);
    FormFacts(s, x, genuine);
    hide Reached, Run, StepA, OnSegment, Off, Deliverable, Form;
    Timestamps.NotReset(s, Form(x, genuine));
    ResetExactly(c, Form(x, genuine), HAND, 0);
    HeardStates(c, Form(x, genuine));
    if Distance(t) > 0 {
      NoFinYet(t);
    }
  }

  lemma HeardStates(c: Conn, p: Seg)
    requires Receiving(c)
    ensures var r := OnSegment(c, p, HAND, 0).0;
            Receiving(r) || r.state == Closed || r.state == CloseWait || r.state == Closing || r.state == TimeWait
  {
    SegmentHandled(c, p, HAND, 0);
    hide OnSegment, Handled, Has;
  }

  lemma NoFinYet(t: Sys)
    requires Reached(t) && Synced(t.a) && t.b.conn.Some? && Distance(t) > 0
    ensures var st := t.a.conn.value.state; st != CloseWait && st != Closing && st != TimeWait
  {
    hide Reached, InvWith, Off, Receives, Sends, NetOk, WellCut;
    FlipReached(t);
    ReachedInv(Flip(t));
    var ba, ab :| InvWith(Flip(t), ba, ab);
    GapUnit(Flip(t), ba, ab);
    var ab', ba' := Parts(t);
    FinStatesKnow(t.a.conn.value, t.bIss, ba', t.b.written, t.a.taken);
  }

  lemma FinStatesKnow(c: Conn, iss: u32, d: Dir, w: seq<byte>, taken: seq<byte>)
    requires Receives(c, iss, d, w, taken) && c.state != SynSent
    ensures c.state == CloseWait || c.state == Closing || c.state == TimeWait ==> c.peerFin
  {
    hide Clean, WellCut, Off;
  }

  /** One or two copies of the segment A waits for bring it past it. */
  lemma BringsOn(s: Sys, genuine: bool, last: nat) returns (acts: seq<Action>)
    requires Good(s, genuine, last) && Distance(s) > 0
    ensures AllHandOver(acts, s.toA, genuine)
    ensures var t := Run(s, acts);
            Good(t, genuine, last) && t.b == s.b && t.toA == s.toA && t.bIss == s.bIss && Distance(t) < Distance(s)
  {
    assert Lacks(s);
    hide NothingStale, Timely, Run, Reached, Off, HandsOver, Has, StopsAtAck, Paws, AckAcceptable, Refresh, FreshFor,
      Form;
    hide Receiving;
    var x := Wanted(s);
    var first := Hand(x, genuine);
    var t := Run(s, [first]);
    GoodAfter(s, x, genuine, last);
    Hands(x, s.toA, genuine);
    assert AllHandOver([first], s.toA, genuine);
    hide Good;
    PassesPaws(s, x, genuine, last);
    FreshOne(s, x, genuine, last);
    FormSays(x, genuine);
    if s.a.conn.value.state != Established || !StopsAtAck(s.a.conn.value, Form(x, genuine)) {
      acts := [first];
      Accepted(s, x, genuine, last);
    } else {
      NoAck(s.a.conn.value, Form(x, genuine));
      acts := BringsTwice(s, x, genuine, last);
    }
  }

  lemma BringsTwice(s: Sys, x: Seg, genuine: bool, last: nat) returns (acts: seq<Action>)
    requires Good(s, genuine, last) && Distance(s) > 0 && x in s.toA && x.seqno == s.a.conn.value.recv.nxt
    requires (x.payload != [] || Has(x.flags, FIN)) && !Has(x.flags, SYN) && !Has(x.flags, RST)
    requires s.a.conn.value.state == Established && !Paws(s.a.conn.value, Form(x, genuine))
    requires StopsAtAck(s.a.conn.value, Form(x, genuine))
    requires Has(x.flags, ACK) ==> AckAcceptable(Refresh(s.a.conn.value, Form(x, genuine)), x.ackno)
    requires FreshFor(s.a.conn.value, s.aIss, Form(x, genuine))
    ensures AllHandOver(acts, s.toA, genuine)
    ensures var t := Run(s, acts);
            Good(t, genuine, last) && t.b == s.b && t.toA == s.toA && t.bIss == s.bIss && Distance(t) < Distance(s)
  {
    hide Run, Off, HandsOver, Has, StopsAtAck, Paws, AckAcceptable, Refresh, FreshFor, NothingStale, Timely, Reached,
      Receiving;
    hide Form;
    var first := Hand(x, genuine);
    var t := Run(s, [first]);
    acts := [first] + [first];
    GoodAfter(s, x, genuine, last);
    Hands(x, s.toA, genuine);
    StoppedThenPasses(s, x, genuine, last);
    hide Good, Distance, Hand;
    assert AllHandOver([first], s.toA, genuine);
    RunOn(s, [first], [first]);
    BothHandOver([first], [first], s.toA, genuine);
    GoodAfter(t, x, genuine, last);
    PassesPaws(t, x, genuine, last);
    Accepted(t, x, genuine, last);
  }

  lemma GoodAfter(s: Sys, x: Seg, genuine: bool, last: nat)
    requires Good(s, genuine, last) && Distance(s) > 0 && x in s.toA
    ensures var t := Run(s, [Hand(x, genuine)]);
            Good(t, genuine, last) && t.b == s.b && t.toA == s.toA && t.bIss == s.bIss && t.aIss == s.aIss
            && Distance(t) <= Distance(s)
  {
    var t := Run(s, [Hand(x, genuine)]);
    HandedKeeps(s, x, genuine);
    StillReceiving(s, x, genuine);
    FormFacts(s, x, genuine);
    hide Run, Reached, StepA, OnSegment, Off, Timely, Deliverable, Form, Genuine;
    StaleLater(s, t);
    if genuine {
      TimelyAtA(s, Hand(x, genuine).event, last);
    }
    hide NothingStale;
  }

  lemma PassesPaws(s: Sys, x: Seg, genuine: bool, last: nat)
    requires Good(s, genuine, last) && x in s.toA && x.seqno == s.a.conn.value.recv.nxt
    requires x.payload != [] || Has(x.flags, FIN)
    ensures !Paws(s.a.conn.value, Form(x, genuine))
  {
    FormFacts(s, x, genuine);
    if genuine {
      hide Reached, Timely, NothingStale, Has;
      assert !Bare(x);
      TimelySpares(s, last, x);
    }
  }

  /** What the queue condition says of the segment A waits for. */
  lemma FreshOne(s: Sys, x: Seg, genuine: bool, last: nat)
    requires Good(s, genuine, last) && x in s.toA
    requires exists y :: y in s.b.conn.value.retx.segs && y.packet == x
    requires Distance(s) > 0
    ensures var c := s.a.conn.value;
            var p := Form(x, genuine);
            c.state == Established && Has(p.flags, ACK) ==>
              AckAcceptable(Refresh(c, p), p.ackno) && FreshFor(c, s.aIss, p)
  {
    var c := s.a.conn.value;
    var p := Form(x, genuine);
    FormFacts(s, x, genuine);
    assert Reached(s) && NothingStale(s);
    if c.state == Established && Has(p.flags, ACK) {
      assert FreshFor(c, s.aIss, x);
      hide Reached, Good, Off, Deliverable, Has, AckAcceptable, Refresh, Form;
      FreshAcceptable(s, p);
    }
  }

  lemma Accepted(s: Sys, x: Seg, genuine: bool, last: nat)
    requires Good(s, genuine, last) && Distance(s) > 0 && x in s.toA && x.seqno == s.a.conn.value.recv.nxt
    requires (x.payload != [] || Has(x.flags, FIN)) && !Has(x.flags, SYN)
    requires !Paws(s.a.conn.value, Form(x, genuine))
    requires s.a.conn.value.state != Established || !StopsAtAck(s.a.conn.value, Form(x, genuine))
    ensures var t := Run(s, [Hand(x, genuine)]);
            Synced(t.a) && t.b.conn.Some? && Distance(t) < Distance(s)
  {
    var p := Form(x, genuine);
    FormFacts(s, x, genuine);
    HandedKeeps(s, x, genuine);
    assert !Refuses(s.a.conn.value, p);
    hide Reached, Run, StepA, OnSegment, Off, Deliverable, Form, Paws, StopsAtAck, NothingStale, Timely, Has, Refuses;
    MissingArrives(s, p, HAND, 0);
  }

  lemma StoppedThenPasses(s: Sys, x: Seg, genuine: bool, last: nat)
    requires Good(s, genuine, last) && Distance(s) > 0 && x in s.toA && x.seqno == s.a.conn.value.recv.nxt
    requires (x.payload != [] || Has(x.flags, FIN)) && !Has(x.flags, SYN) && !Has(x.flags, RST)
    requires s.a.conn.value.state == Established && !Paws(s.a.conn.value, Form(x, genuine))
    requires StopsAtAck(s.a.conn.value, Form(x, genuine))
    requires Has(x.flags, ACK) ==> AckAcceptable(Refresh(s.a.conn.value, Form(x, genuine)), x.ackno)
    requires FreshFor(s.a.conn.value, s.aIss, Form(x, genuine))
    ensures var t := Run(s, [Hand(x, genuine)]);
            && Synced(t.a) && t.b.conn.Some? && t.a.conn.value.state == Established && x.seqno == t.a.conn.value.recv.nxt
            && !StopsAtAck(t.a.conn.value, Form(x, genuine)) && Distance(t) == Distance(s)
  {
    var c := s.a.conn.value;
    var p := Form(x, genuine);
    var t := Run(s, [Hand(x, genuine)]);
    FormFacts(s, x, genuine);
    HandedKeeps(s, x, genuine);
    NoAck(c, p);
    assert Reached(s) && NothingStale(s);
    hide Reached, Good, Run, StepA, OnSegment, Off, Deliverable, Form, Paws, StopsAtAck, Has, AckAcceptable, Refresh;
    StoppedOnce(c, p, HAND, 0);
    StaleLater(s, t);
    NotBetweenItself(t.a.conn.value, p);
    FreshStill(s, t, p);
    FreshAcceptable(t, p);
    OldPasses(t.a.conn.value, p);
  }

  lemma NotBetweenItself(c: Conn, p: Seg)
    ensures c.send.una == p.ackno ==> !Between(c.send.una, p.ackno, c.send.nxt)
  {
  }

  lemma FreshStill(s: Sys, t: Sys, p: Seg)
    requires s.a.conn.Some? && NothingStale(t) && Onwards(s, t) && FreshFor(s.a.conn.value, s.aIss, p)
    requires t.a.conn.value.state == Established
    ensures FreshFor(t.a.conn.value, t.aIss, p)
    ensures Off(t.aIss, t.a.conn.value.send.nxt) - Off(t.aIss, t.a.conn.value.send.una) < 0x4000_0000
  {
    hide Reached, Off, Has;
  }

  // ---- everything ----

  lemma {:induction false} BringsAll(s: Sys, genuine: bool, last: nat) returns (acts: seq<Action>)
    requires Good(s, genuine, last)
    ensures AllHandOver(acts, s.toA, genuine)
    ensures var t := Run(s, acts);
            Good(t, genuine, last) && t.b == s.b && t.toA == s.toA && t.bIss == s.bIss && Distance(t) <= 0
    decreases Max(Distance(s), 0)
  {
    assert Synced(s.a) && s.b.conn.Some?;
    hide Good, HandsOver, Off, Step;
    if Distance(s) <= 0 {
      acts := [];
      assert Run(s, []) == s;
    } else {
      var some := BringsOn(s, genuine, last);
      var t := Run(s, some);
      hide Run;
      var rest := BringsAll(t, genuine, last);
      acts := some + rest;
      RunOn(s, some, rest);
      BothHandOver(some, rest, s.toA, genuine);
    }
  }

  /** With RCV.NXT at the peer's SND.NXT, everything transmitted has been passed on. */
  lemma AllPassed(s: Sys)
    requires Reached(s) && Synced(s.a) && s.b.conn.Some? && Distance(s) <= 0
    ensures EndToEnd.Delivered(s.a) + s.b.conn.value.sendBuf == s.b.written
  {
    hide Reached, InvWith, Off, Sends, NetOk, WellCut, Receives, EndToEnd.Delivered;
    FlipReached(s);
    ReachedInv(Flip(s));
    var ba, ab :| InvWith(Flip(s), ba, ab);
    Halves(Flip(s), ba, ab);
    PassedHalf(s, ab, ba);
  }

  lemma PassedHalf(s: Sys, ab: Dir, ba: Dir)
    requires InvWith(Flip(s), ba, ab) && Synced(s.a) && s.b.conn.Some? && Distance(s) <= 0
    ensures EndToEnd.Delivered(s.a) + s.b.conn.value.sendBuf == s.b.written
  {
    hide InvWith, Sends, Off, Clean, WellCut, Receives, UnaOk;
    SenderOf(Flip(s), ba, ab);
    SendsFacts(s.b.conn.value, ba, s.b.written);
    ReceiverHalf(Flip(s), ba, ab);
    PassedTo(s.a.conn.value, s.bIss, ba, s.b.written, s.a.taken);
  }

  lemma ReceiverHalf(s: Sys, ab: Dir, ba: Dir)
    requires InvWith(s, ab, ba) && s.b.conn.Some?
    ensures Receives(s.b.conn.value, s.aIss, ab, s.a.written, s.b.taken)
  {
    hide Receives, Sends, NetOk, Queued, WellCut;
  }

  lemma PassedTo(c: Conn, iss: u32, d: Dir, w: seq<byte>, taken: seq<byte>)
    requires Receives(c, iss, d, w, taken) && c.state != SynSent && WellCut(d, w)
    requires 0 <= Direction.Sent(d) <= |w| && Off(iss, c.recv.nxt) >= d.cuts[Units(d)]
    ensures taken + c.recvBuf + w[Direction.Sent(d)..] == w
  {
    CutOrder(d, w, d.k, Units(d));
    hide Clean, Off, Cuts;
    assert taken + c.recvBuf == w[..Direction.Sent(d)];
  }

  /** The network can always finish what was transmitted: from every reachable state in which A still takes data and B's
      queue acknowledges enough, handing over segments out of the network, and nothing else, gives A everything B
      has transmitted. The segments may be taken exactly as they were sent if B's clock has not run backwards. */
  lemma SomeRunDelivers(s: Sys, genuine: bool, last: nat) returns (acts: seq<Action>)
    requires Reached(s) && s.a.conn.Some? && Receiving(s.a.conn.value) && NothingStale(s) && (genuine ==> Timely(s, last))
    ensures AllHandOver(acts, s.toA, genuine)
    ensures var t := Run(s, acts);
            && t.b == s.b && s.b.conn.Some? && EndToEnd.Delivered(t.a) + s.b.conn.value.sendBuf == s.b.written
  {
    hide Reached, NothingStale, Timely, Run, Off, HandsOver, EndToEnd.Delivered;
    assert s.b.conn.Some? by { BothThere(s); }
    acts := BringsAll(s, genuine, last);
    AllPassed(Run(s, acts));
  }

  lemma BothThere(s: Sys)
    requires NothingStale(s)
    ensures s.b.conn.Some?
  {
  }

  /** The traffic in one direction: a receiver that has written less than one window of its own never finds anything
      stale, so whatever has happened so far, everything transmitted to it can still arrive. */
  lemma OneWayDelivers(s: Sys, genuine: bool, last: nat) returns (acts: seq<Action>)
    requires Reached(s) && s.a.conn.Some? && s.b.conn.Some? && Receiving(s.a.conn.value)
    requires |s.a.written| < RCV_WND && (genuine ==> Timely(s, last))
    ensures AllHandOver(acts, s.toA, genuine)
    ensures var t := Run(s, acts);
            t.b == s.b && EndToEnd.Delivered(t.a) + s.b.conn.value.sendBuf == s.b.written
  {
    FewWritten(s);
    hide Reached, NothingStale, Timely, Run, Off, HandsOver, EndToEnd.Delivered;
    acts := SomeRunDelivers(s, genuine, last);
  }

  lemma FewWritten(s: Sys)
    requires Reached(s) && s.a.conn.Some? && s.b.conn.Some? && |s.a.written| < RCV_WND
    ensures NothingStale(s)
    ensures s.a.conn.value.state == Established ==> Off(s.aIss, s.a.conn.value.send.una) <= s.a.conn.value.send.maxWnd
  {
    var c := s.a.conn.value;
    ReachedWnd(s);
    AllNumbersLive(s, Seg(0, 0, 0, 0, NO_OPTIONS, []));
    if c.state == Established {
      TilingAndConservation(s);
      hide Reached, Off, Has, Tile;
      assert Off(s.aIss, c.send.nxt) <= RCV_WND;
    }
  }

  /** In particular the byte such a receiver waits for is never stranded: the condition of `Delivery.StrandedExactly`
      always holds. */
  lemma OneWayNeverStranded(s: Sys, x: Seg)
    requires Missing(s, x) && |s.a.written| < RCV_WND
    ensures CanDeliver(s, s.a.conn.value.send.maxWnd, s.a.conn.value.opt.sndWscale)
  {
    FewWritten(s);
    hide Reached, OnlyX, Off, Has, CanDeliver, NothingStale;
    StrandedExactly(s, x);
  }
}
