/** The life of a connection (section 3.3.2 of RFC 9293) under any calls and any segments, honest or
    forged: which states follow which, what ends a connection, and what the queue can become. */
module Lifecycle {
  import opened Types
  import opened SeqNum
  import opened Segments
  import opened Connection
  import opened Calls
  import Retransmit
  import Reassembly
  import Congestion
  import Rtt

  /** The states an arriving segment may lead to: the edges of the diagram and the resets. */
  function Heard(s: State): set<State> {
    match s
    case SynSent => {SynSent, Established, Closed}
    case SynRcvd => {SynRcvd, Established, CloseWait, Closed}
    case Established => {Established, CloseWait, Closed}
    case CloseWait => {CloseWait, Closed}
    case LastAck => {LastAck, Closed}
    case FinWait1 => {FinWait1, FinWait2, Closing, TimeWait, Closed}
    case FinWait2 => {FinWait2, TimeWait, Closed}
    case Closing => {Closing, TimeWait, Closed}
    case TimeWait => {TimeWait}
    case Closed => {Closed}
  }

  /** The states one call may lead to. */
  function Next(s: State, e: Event): set<State> {
    match e
    case ReceiveEvent(_, _, _) => Heard(s)
    case TickEvent(_) =>
      if s == TimeWait || s == FinWait2 || s == CloseWait || s == Established then {s, Closed} else {s}
    case CloseEvent(_) => if s == Established then {FinWait1} else if s == CloseWait then {LastAck} else {s}
    case _ => {s}
  }

  // ---- what a call leaves alone ----

  predicate SameRange(a: Retransmit.Unacked, b: Retransmit.Unacked) {
    a.start == b.start && a.end == b.end && a.packet == b.packet
  }

  /** Entry j of b is entry m[j] of a, for ever larger m[j]. */
  predicate Selects(m: seq<nat>, a: seq<Retransmit.Unacked>, b: seq<Retransmit.Unacked>) {
    && |m| == |b| && (forall j :: 0 <= j < |m| ==> m[j] < |a| && SameRange(a[m[j]], b[j]))
    && forall i, j :: 0 <= i < j < |m| ==> m[i] < m[j]
  }

  /** b is what is left of the queue a, in order: entries may go, none comes, none changes its range or packet. */
  ghost predicate Subqueue(a: seq<Retransmit.Unacked>, b: seq<Retransmit.Unacked>) {
    exists m :: Selects(m, a, b)
  }

  /** What handling a segment may make of the queue a. */
  ghost predicate Derived(a: Retransmit.Retx, b: Retransmit.Retx) {
    Subqueue(a.segs, b.segs) && RackEnds(a, b)
  }

  /** RACK's record ends where it did, or at the end of one of the queue's entries. */
  ghost predicate RackEnds(a: Retransmit.Retx, b: Retransmit.Retx) {
    (b.rackTs == a.rackTs && b.rackEnd == a.rackEnd) || exists x :: x in a.segs && b.rackEnd == x.end
  }

  lemma SubqueueAt(a: seq<Retransmit.Unacked>, b: seq<Retransmit.Unacked>, j: nat) returns (i: nat)
    requires Subqueue(a, b) && j < |b|
    ensures j <= i < |a| && SameRange(a[i], b[j])
  {
    var m :| Selects(m, a, b);
    SelectsAhead(m, a, b, j);
    i := m[j];
  }

  lemma {:induction false} SelectsAhead(m: seq<nat>, a: seq<Retransmit.Unacked>, b: seq<Retransmit.Unacked>, j: nat)
    requires Selects(m, a, b) && j < |b|
    ensures j <= m[j]
  {
    if j > 0 {
      SelectsAhead(m, a, b, j - 1);
    }
  }

  lemma SubqueueShorter(a: seq<Retransmit.Unacked>, b: seq<Retransmit.Unacked>)
    requires Subqueue(a, b)
    ensures |b| <= |a|
  {
    if b != [] {
      var _ := SubqueueAt(a, b, |b| - 1);
    }
  }

  /** Same length, same ranges. */
  lemma SameSubqueue(a: seq<Retransmit.Unacked>, b: seq<Retransmit.Unacked>)
    requires |a| == |b| && forall j :: 0 <= j < |a| ==> SameRange(a[j], b[j])
    ensures Subqueue(a, b)
  {
    var m := seq(|a|, (j: nat) => j);
    assert Selects(m, a, b);
  }

  lemma SubqueueTransitive(a: seq<Retransmit.Unacked>, b: seq<Retransmit.Unacked>, c: seq<Retransmit.Unacked>)
    requires Subqueue(a, b) && Subqueue(b, c)
    ensures Subqueue(a, c)
  {
    var m :| Selects(m, a, b);
    var n :| Selects(n, b, c);
    var k := seq(|n|, (j: nat) requires j < |n| => m[n[j]]);
    assert Selects(k, a, c);
  }

  lemma SubqueueAppend(a: seq<Retransmit.Unacked>, b: seq<Retransmit.Unacked>, x: Retransmit.Unacked)
    requires Subqueue(a, b)
    ensures Subqueue(a + [x], b) && Subqueue(a + [x], b + [x])
  {
    var m :| Selects(m, a, b);
    var last: nat := |a|;
    assert Selects(m, a + [x], b);
    assert Selects(m + [last], a + [x], b + [x]);
  }

  lemma {:induction false} KeepSubqueue(segs: seq<Retransmit.Unacked>, una: u32)
    ensures Subqueue(segs, Retransmit.Keep(segs, una))
  {
    hide Before, Subqueue;
    if segs == [] {
      SameSubqueue(segs, segs);
    } else {
      var n := |segs| - 1;
      KeepSubqueue(segs[..n], una);
      SubqueueAppend(segs[..n], Retransmit.Keep(segs[..n], una), segs[n]);
      assert segs == segs[..n] + [segs[n]];
      assert Retransmit.Keep(segs[..n], una) + [] == Retransmit.Keep(segs[..n], una);
    }
  }

  lemma {:induction false} ScanEnds(q: Retransmit.Retx, una: u32, now: nat, n: nat)
    requires n <= |q.segs|
    ensures var s := Retransmit.Scan(q, una, now, n);
            (s.rackTs == q.rackTs && s.rackEnd == q.rackEnd) || exists x :: x in q.segs && s.rackEnd == x.end
  {
    hide Before;
    if n > 0 {
      ScanEnds(q, una, now, n - 1);
      assert q.segs[n - 1] in q.segs;
    }
  }

  lemma AckDerived(q: Retransmit.Retx, una: u32, now: nat)
    ensures Derived(q, Retransmit.Ack(q, una, now).0)
  {
    KeepSubqueue(q.segs, una);
    ScanEnds(q, una, now, |q.segs|);
    hide Subqueue, Retransmit.Keep, Retransmit.Scan;
  }

  lemma ShapeDerived(a: Retransmit.Retx, b: Retransmit.Retx)
    requires Retransmit.SameShape(a.segs, b.segs) && b.rackTs == a.rackTs && b.rackEnd == a.rackEnd
    ensures Derived(a, b)
  {
    SameSubqueue(a.segs, b.segs);
    hide Subqueue;
  }

  lemma RackTransitive(a: Retransmit.Retx, b: Retransmit.Retx, c: Retransmit.Retx)
    requires Subqueue(a.segs, b.segs) && RackEnds(a, b) && RackEnds(b, c)
    ensures RackEnds(a, c)
  {
    if !(c.rackTs == b.rackTs && c.rackEnd == b.rackEnd) {
      var x :| x in b.segs && c.rackEnd == x.end;
      var j :| 0 <= j < |b.segs| && b.segs[j] == x;
      var i := SubqueueAt(a.segs, b.segs, j);
      assert a.segs[i] in a.segs;
    }
  }

  lemma DerivedTransitive(a: Retransmit.Retx, b: Retransmit.Retx, c: Retransmit.Retx)
    requires Derived(a, b) && Derived(b, c)
    ensures Derived(a, c)
  {
    hide Subqueue, RackEnds;
    SubqueueTransitive(a.segs, b.segs, c.segs);
    RackTransitive(a, b, c);
  }

  lemma {:induction false} MarkEnds(q: Retransmit.Retx, blocks: seq<Block>, n: nat)
    requires n <= |q.segs|
    ensures var r := Retransmit.MarkUpTo(q, blocks, n);
            (r.rackTs == q.rackTs && r.rackEnd == q.rackEnd) || exists x :: x in q.segs && r.rackEnd == x.end
  {
    hide Retransmit.Covered;
    if n > 0 {
      MarkEnds(q, blocks, n - 1);
      assert q.segs[n - 1] in q.segs;
    }
  }

  lemma MarkDerived(q: Retransmit.Retx, blocks: seq<Block>)
    ensures Derived(q, Retransmit.MarkSacked(q, blocks))
  {
    SameSubqueue(q.segs, Retransmit.MarkSacked(q, blocks).segs);
    MarkEnds(q, blocks, |q.segs|);
    hide Subqueue;
  }

  /** Handling a segment never adds to the queue nor touches what the application has written; it
      settles the segment size only in SYN_SENT. */
  ghost predicate Framed(c: Conn, c': Conn) {
    && Derived(c.retx, c'.retx)
    && c'.sendBuf == c.sendBuf && c'.send.nxt == c.send.nxt && c'.send.iss == c.send.iss
    && c'.opt.nagle == c.opt.nagle && (c.state != SynSent ==> c'.opt.sendMss == c.opt.sendMss)
    && c'.send.maxWnd >= c.send.maxWnd
  }

  /** End of file has been reported exactly in the states that say so. */
  predicate FinKnown(c: Conn) {
    c.state != Closed ==>
      (c.peerFin <==> c.state == CloseWait || c.state == LastAck || c.state == Closing || c.state == TimeWait)
  }

  /** One step of handling, started in state c. */
  ghost predicate Handled(c: Conn, c': Conn, now: nat) {
    && Framed(c, c')
    && (FinKnown(c) ==> FinKnown(c'))
    && (c.opt.tsVal == Low32(now) ==> c'.opt.tsVal == Low32(now))
    && (c'.state == TimeWait ==> c'.clock.timeWaitMs == if c.state == TimeWait then c.clock.timeWaitMs else now)
  }

  lemma Untouched(c: Conn, c': Conn, now: nat)
    requires c'.retx == c.retx && c'.sendBuf == c.sendBuf && c'.send.nxt == c.send.nxt && c'.send.iss == c.send.iss
    requires c'.opt.nagle == c.opt.nagle && c'.opt.sendMss == c.opt.sendMss
    requires c'.state == c.state || c'.state == Closed
    requires c'.peerFin == c.peerFin && c'.clock.timeWaitMs == c.clock.timeWaitMs
    requires c'.send.maxWnd >= c.send.maxWnd && (c'.opt.tsVal == c.opt.tsVal || c'.opt.tsVal == Low32(now))
    ensures Handled(c, c', now)
  {
    ShapeDerived(c.retx, c.retx);
  }

  lemma ChallengeHandled(c: Conn, env: Env, now: nat)
    ensures var c' := MaybeChallenge(c, env, now).0;
            c'.state == c.state && Handled(c, c', now)
  {
    hide Handled;
    Untouched(c, MaybeChallenge(c, env, now).0, now);
  }

  lemma RstHandled(c: Conn, s: Seg, env: Env, now: nat)
    ensures var c' := OnRst(c, s, env, now).0;
            && Handled(c, c', now)
            && (c'.state == c.state || c'.state == Closed)
            && (c'.state == Closed && c.state != Closed <==>
                if c.state == SynSent then Has(s.flags, ACK) && s.ackno == c.send.nxt
                else c.state != TimeWait && c.state != Closed && s.seqno == c.recv.nxt)
  {
    ChallengeHandled(c, env, now);
    hide MaybeChallenge, Handled, InWindow, Has;
    Untouched(c, c, now);
    Untouched(c, c.(state := Closed), now);
  }

  lemma SynSentHandled(c: Conn, s: Seg, now: nat)
    requires c.state == SynSent
    ensures var c' := OnSynSent(c, s, now).0;
            Handled(c, c', now) && (c'.state == SynSent || c'.state == Established)
  {
    if Has(s.flags, SYN) && Has(s.flags, ACK) && s.ackno == c.send.nxt {
      SynSentFields(c, s, now);
      AckDerived(c.retx, s.ackno, now);
      hide OnSynSent, Derived, Retransmit.Ack, Has;
    } else {
      hide Has, Handled;
      Untouched(c, c, now);
    }
  }

  lemma SynSentFields(c: Conn, s: Seg, now: nat)
    requires Has(s.flags, SYN) && Has(s.flags, ACK) && s.ackno == c.send.nxt
    ensures var c' := OnSynSent(c, s, now).0;
            && c'.state == Established && c'.retx == Retransmit.Ack(c.retx, s.ackno, now).0
            && c'.sendBuf == c.sendBuf && c'.send.nxt == c.send.nxt && c'.send.iss == c.send.iss
            && c'.opt.nagle == c.opt.nagle && c'.peerFin == c.peerFin
            && c'.opt.tsVal == c.opt.tsVal && c'.send.maxWnd == c.send.maxWnd
  {
    hide Retransmit.Ack, Add, BareAck, Has;
  }

  lemma EstablishHandled(c: Conn, s: Seg, now: nat)
    requires c.state == SynRcvd
    ensures Handled(c, Establish(c, s, now), now) && Establish(c, s, now).state == Established
  {
    AckDerived(c.retx, s.ackno, now);
    hide Derived, Retransmit.Ack;
  }

  lemma DeliverHandled(c: Conn, s: Seg, now: nat)
    ensures var c' := Deliver(c, s.seqno, s.payload);
            c'.state == c.state && Handled(c, c', now) && c'.peerFin == c.peerFin && c'.send == c.send
  {
    hide Reassembly.Recv, Handled;
    Untouched(c, Deliver(c, s.seqno, s.payload), now);
  }

  lemma HandledTransitive(c: Conn, c1: Conn, c2: Conn, now: nat)
    requires Handled(c, c1, now) && Handled(c1, c2, now)
    requires (c.state != SynSent ==> c1.state != SynSent) && (c.state == TimeWait ==> c1.state == TimeWait)
    ensures Handled(c, c2, now)
  {
    DerivedTransitive(c.retx, c1.retx, c2.retx);
    hide Derived;
  }

  /** Only the queue's timers and marks, SND.UNA and the controllers move. */
  lemma AckFieldHandled(c: Conn, s: Seg, prevWnd: u32, env: Env, now: nat)
    ensures var c' := OnAckField(c, s, prevWnd, env, now).0;
            AckKeeps(c, c') && Handled(c, c', now)
  {
    var c' := OnAckField(c, s, prevWnd, env, now).0;
    AckFieldFrame(c, s, prevWnd, env, now);
    hide OnAckField, Derived;
  }

  lemma AckFieldFrame(c: Conn, s: Seg, prevWnd: u32, env: Env, now: nat)
    ensures var c' := OnAckField(c, s, prevWnd, env, now).0;
            AckKeeps(c, c') && Derived(c.retx, c'.retx)
  {
    hide Derived, OnNewAck, OnDuplicateAck, Retransmit.MarkSacked, AckAcceptable, Between, MaybeChallenge, AckKeeps;
    if AckAcceptable(c, s.ackno) {
      var c1 := Marked(c, s);
      MarkedFrame(c, s);
      if Between(c.send.una, s.ackno, c.send.nxt) {
        NewAckFrame(c1, s, env, now);
        FrameTransitive(c, c1, OnNewAck(c1, s, env, now).0);
      } else {
        DuplicateAckFrame(c1, now);
        FrameTransitive(c, c1, OnDuplicateAck(c1, now).0);
      }
    } else {
      ChallengeKeeps(c, env, now);
      ShapeDerived(c.retx, c.retx);
    }
  }

  function Marked(c: Conn, s: Seg): Conn {
    if c.opt.sackOk && s.opts.sack != [] then c.(retx := Retransmit.MarkSacked(c.retx, s.opts.sack)) else c
  }

  lemma MarkedFrame(c: Conn, s: Seg)
    ensures AckKeeps(c, Marked(c, s)) && Derived(c.retx, Marked(c, s).retx)
  {
    hide Derived, Retransmit.MarkSacked;
    MarkDerived(c.retx, s.opts.sack);
    ShapeDerived(c.retx, c.retx);
  }

  lemma FrameTransitive(c: Conn, c1: Conn, c2: Conn)
    requires AckKeeps(c, c1) && AckKeeps(c1, c2)
    requires Derived(c.retx, c1.retx) && Derived(c1.retx, c2.retx)
    ensures AckKeeps(c, c2) && Derived(c.retx, c2.retx)
  {
    DerivedFrame(c, c1, c2);
    hide Derived;
  }

  lemma ChallengeKeeps(c: Conn, env: Env, now: nat)
    ensures AckKeeps(c, MaybeChallenge(c, env, now).0) && MaybeChallenge(c, env, now).0.retx == c.retx
  {
    hide BareAck;
  }

  /** Everything but the sending side's progress is kept. */
  predicate AckKeeps(c: Conn, c': Conn) {
    && c'.state == c.state && c'.peerFin == c.peerFin && c'.recv == c.recv && c'.pendingFin == c.pendingFin
    && c'.opt == c.opt && c'.sendBuf == c.sendBuf && c'.send.nxt == c.send.nxt && c'.send.iss == c.send.iss
    && c'.send.maxWnd == c.send.maxWnd
    && c'.clock.timeWaitMs == c.clock.timeWaitMs
  }

  lemma DerivedFrame(c: Conn, c1: Conn, c2: Conn)
    requires Derived(c.retx, c1.retx) && Derived(c1.retx, c2.retx)
    ensures Derived(c.retx, c2.retx)
  {
    DerivedTransitive(c.retx, c1.retx, c2.retx);
  }

  lemma HoleFrame(c: Conn, now: nat)
    ensures AckKeeps(c, RetransmitHole(c, now).0) && Derived(c.retx, RetransmitHole(c, now).0.retx)
  {
    Retransmit.ResendKeepsShape(c.retx, Retransmit.FirstUnsacked(c.retx.segs, 0), now);
    hide Derived, Retransmit.SameShape;
    ShapeDerived(c.retx, RetransmitHole(c, now).0.retx);
  }

  lemma NewAckFrame(c: Conn, s: Seg, env: Env, now: nat)
    ensures AckKeeps(c, OnNewAck(c, s, env, now).0) && Derived(c.retx, OnNewAck(c, s, env, now).0.retx)
  {
    AckDerived(c.retx, s.ackno, now);
    var c1 := Acked(c, s, now).(cong := Congestion.OnPartialAck(c.cong, Sub(s.ackno, c.send.una)));
    HoleFrame(c1, now);
    hide Derived, AckSample, Retransmit.Ack, Rtt.Sample, RetransmitHole;
    DerivedFrame(c, c1, RetransmitHole(c1, now).0);
  }

  lemma DuplicateAckFrame(c: Conn, now: nat)
    ensures AckKeeps(c, OnDuplicateAck(c, now).0) && Derived(c.retx, OnDuplicateAck(c, now).0.retx)
  {
    var d := Congestion.OnDupAck(c.cong);
    HoleFrame(c.(cong := d.0, recover := c.send.nxt), now);
    ShapeDerived(c.retx, c.retx);
    hide Derived, Congestion.OnDupAck, RetransmitHole;
  }

  lemma TextHandled(c: Conn, s: Seg, now: nat)
    requires c.state == Established || c.state == CloseWait
    ensures var c' := OnText(c, s).0;
            && Handled(c, c', now) && c'.opt == c.opt
            && (c'.state == c.state || (c.state == Established && c'.state == CloseWait))
  {
    var c1 := Deliver(c, s.seqno, s.payload);
    DeliverHandled(c, s, now);
    TextTailFrame(c1, s);
    hide Derived, Deliver, TextTail;
  }

  lemma TextTailFrame(c: Conn, s: Seg)
    requires c.state == Established || c.state == CloseWait
    ensures var c' := TextTail(c, s).0;
            && c'.opt == c.opt && c'.retx == c.retx && c'.sendBuf == c.sendBuf && c'.clock == c.clock && c'.send == c.send
            && if c'.state == c.state then c'.peerFin == c.peerFin
               else c.state == Established && c'.state == CloseWait && c'.peerFin
  {
    hide Add, Before, After, Has, BareAck, AckOptions;
  }

  lemma OpenHandled(c: Conn, s: Seg, env: Env, now: nat)
    requires c.state == Established || c.state == CloseWait
    ensures var c' := OnOpen(c, s, env, now).0;
            && Handled(c, c', now)
            && (c'.state == c.state || (c.state == Established && c'.state == CloseWait))
  {
    Untouched(c, c, now);
    if !Paws(c, s) {
      var c1 := Refresh(c, s);
      RefreshHandled(c, s, now);
      hide Handled, Refresh, OnAckField, OnText, Has, Paws;
      if Has(s.flags, ACK) {
        var r := OnAckField(c1, s, c.send.wnd, env, now);
        AckFieldHandled(c1, s, c.send.wnd, env, now);
        HandledTransitive(c, c1, r.0, now);
        if !r.2 {
          TextHandled(r.0, s, now);
          HandledTransitive(c, r.0, OnText(r.0, s).0, now);
        }
      } else {
        TextHandled(c1, s, now);
        HandledTransitive(c, c1, OnText(c1, s).0, now);
      }
    }
  }

  lemma RefreshHandled(c: Conn, s: Seg, now: nat)
    ensures Handled(c, Refresh(c, s), now) && Refresh(c, s).state == c.state
  {
    hide Handled, Scaled, After;
    Untouched(c, Refresh(c, s), now);
  }

  lemma FinWaitHandled(c: Conn, s: Seg, now: nat)
    requires c.state == FinWait1 || c.state == FinWait2
    ensures c.state == FinWait1 ==>
              Handled(c, OnFinWait1(c, s, now).0, now) && OnFinWait1(c, s, now).0.state in {FinWait1, FinWait2, Closing, TimeWait}
    ensures c.state == FinWait2 ==>
              Handled(c, OnFinWait2(c, s, now).0, now) && OnFinWait2(c, s, now).0.state in {FinWait2, TimeWait}
  {
    var finAcked := Has(s.flags, ACK) && s.ackno == c.send.nxt;
    var c1 := c.(retx := Retransmit.Ack(c.retx, s.ackno, now).0);
    DeliverHandled(c, s, now);
    DeliverHandled(c1, s, now);
    AckedHandled(c, s, now);
    FinTailHandled(Deliver(c, s.seqno, s.payload), s, true, now);
    hide Handled, Deliver, FinTail, Has, Retransmit.Ack;
    if c.state == FinWait1 {
      FinTailHandled(Deliver(c, s.seqno, s.payload), s, false, now);
      FinTailHandled(Deliver(c1, s.seqno, s.payload), s, true, now);
      var c2 := Deliver(if finAcked then c1 else c, s.seqno, s.payload);
      if finAcked {
        HandledTransitive(c, c1, c2, now);
      }
      HandledTransitive(c, c2, FinTail(c2, s, finAcked, now).0, now);
    } else {
      var c2 := Deliver(c, s.seqno, s.payload);
      HandledTransitive(c, c2, FinTail(c2, s, true, now).0, now);
    }
  }

  lemma AckedHandled(c: Conn, s: Seg, now: nat)
    requires c.state != SynSent
    ensures Handled(c, c.(retx := Retransmit.Ack(c.retx, s.ackno, now).0), now)
  {
    AckDerived(c.retx, s.ackno, now);
    hide Derived, Retransmit.Ack;
  }

  lemma FinTailHandled(c: Conn, s: Seg, finAcked: bool, now: nat)
    requires c.state == FinWait1 || (c.state == FinWait2 && finAcked)
    ensures var c' := FinTail(c, s, finAcked, now).0;
            && Handled(c, c', now)
            && c'.state in (if finAcked then {FinWait2, TimeWait} else {FinWait1, Closing})
  {
    ShapeDerived(c.retx, c.retx);
    hide Derived, Add, Has, BareAck;
  }

  lemma LastHandled(c: Conn, s: Seg, now: nat)
    ensures c.state == LastAck ==>
              Handled(c, OnLastAck(c, s, now), now) && OnLastAck(c, s, now).state in {LastAck, Closed}
    ensures c.state == Closing ==>
              Handled(c, OnClosing(c, s, now), now) && OnClosing(c, s, now).state in {Closing, TimeWait}
  {
    Untouched(c, c, now);
    var c1 := c.(retx := Retransmit.Ack(c.retx, s.ackno, now).0);
    if c.state == LastAck || c.state == Closing {
      AckedHandled(c, s, now);
      hide Handled, Retransmit.Ack, Has;
      Ended(c, c1, c1.(state := Closed), now);
      Ended(c, c1, Linger(c1, now), now);
    }
  }

  lemma Ended(c: Conn, c1: Conn, c2: Conn, now: nat)
    requires Handled(c, c1, now) && c1.state == c.state && (c.state == LastAck || c.state == Closing)
    requires (c2 == c1.(state := Closed)) || (c2 == Linger(c1, now))
    ensures c2.state == Closed || c.state == Closing ==> Handled(c, c2, now)
  {
    hide Derived;
  }

  lemma SyncedOpen(c: Conn, s: Seg, env: Env, now: nat)
    requires c.state == Established || c.state == CloseWait
    ensures var c' := OnSynced(c, s, env, now).0;
            Handled(c, c', now) && c'.state in Heard(c.state) && c'.state != Closed
  {
    hide Handled, OnOpen;
    OpenHandled(c, s, env, now);
  }

  lemma SyncedFin(c: Conn, s: Seg, env: Env, now: nat)
    requires c.state == FinWait1 || c.state == FinWait2
    ensures var c' := OnSynced(c, s, env, now).0;
            Handled(c, c', now) && c'.state in Heard(c.state) && c'.state != Closed
  {
    hide Handled, OnFinWait1, OnFinWait2;
    FinWaitHandled(c, s, now);
  }

  lemma SyncedLast(c: Conn, s: Seg, env: Env, now: nat)
    requires c.state == LastAck || c.state == Closing || c.state == TimeWait || c.state == Closed
    ensures var c' := OnSynced(c, s, env, now).0;
            && Handled(c, c', now) && c'.state in Heard(c.state)
            && (c'.state == Closed ==> c.state == Closed || c.state == LastAck)
  {
    hide Handled, OnLastAck, OnClosing, OnOpen, OnFinWait1, OnFinWait2, Has;
    Untouched(c, c, now);
    LastHandled(c, s, now);
  }

  lemma SyncedHandled(c: Conn, s: Seg, env: Env, now: nat)
    requires c.state != SynSent && c.state != SynRcvd
    ensures var c' := OnSynced(c, s, env, now).0;
            && Handled(c, c', now) && c'.state in Heard(c.state)
            && (c'.state == Closed ==> c.state == Closed || c.state == LastAck)
  {
    hide Handled, OnSynced, Heard;
    if c.state == Established || c.state == CloseWait {
      SyncedOpen(c, s, env, now);
    } else if c.state == FinWait1 || c.state == FinWait2 {
      SyncedFin(c, s, env, now);
    } else {
      SyncedLast(c, s, env, now);
    }
  }

  lemma SynRcvdHandled(c: Conn, s: Seg, env: Env, now: nat)
    requires c.state == SynRcvd && Has(s.flags, ACK) && s.ackno == c.send.nxt
    ensures var c' := OnSynced(Establish(c, s, now), s, env, now).0;
            Handled(c, c', now) && c'.state in Heard(Established) && c'.state != Closed
  {
    EstablishHandled(c, s, now);
    hide Handled, OnSynced, Establish, Has;
    SyncedOpen(Establish(c, s, now), s, env, now);
    HandledTransitive(c, Establish(c, s, now), OnSynced(Establish(c, s, now), s, env, now).0, now);
  }

  lemma DispatchHandled(c: Conn, s: Seg, env: Env, now: nat)
    ensures var c' := Dispatch(c, s, env, now).0;
            && Handled(c, c', now) && c'.state in Heard(c.state)
            && (c'.state == Closed && c.state != Closed && c.state != LastAck ==> Has(s.flags, RST))
  {
    hide Handled, OnRst, OnSynSent, OnSynced, MaybeChallenge, Establish, Has;
    if Has(s.flags, RST) {
      RstHandled(c, s, env, now);
    } else if c.state == SynSent {
      SynSentHandled(c, s, now);
    } else if Has(s.flags, SYN) && Synchronized(c.state) {
      ChallengeHandled(c, env, now);
    } else if c.state == SynRcvd {
      Untouched(c, c, now);
      if Has(s.flags, ACK) && s.ackno == c.send.nxt {
        SynRcvdHandled(c, s, env, now);
      }
    } else {
      SyncedHandled(c, s, env, now);
    }
  }

  lemma ArriveHandled(c: Conn, now: nat)
    ensures Handled(c, Arrive(c, now), now) && Arrive(c, now).state == c.state
  {
    hide Handled;
    Untouched(c, Arrive(c, now), now);
  }

  lemma SegmentHandled(c: Conn, s: Seg, env: Env, now: nat)
    ensures var c' := OnSegment(c, s, env, now).0;
            && Handled(c, c', now) && c'.state in Heard(c.state)
            && (c'.state == Closed && c.state != Closed && c.state != LastAck ==> Has(s.flags, RST))
  {
    hide Handled, Dispatch, Arrive, Has, Heard;
    ArriveHandled(c, now);
    DispatchHandled(Arrive(c, now), s, env, now);
    HandledTransitive(c, Arrive(c, now), OnSegment(c, s, env, now).0, now);
  }

  // ---- single calls ----

  /** Every call follows an edge of the diagram, keeps end of file in step with the state, and stamps
      TIME_WAIT exactly when it enters it. */
  lemma CallFollowsEdges(c: Conn, e: Event)
    ensures var c' := Apply(c, e).0;
            && c'.state in Next(c.state, e)
            && (FinKnown(c) ==> FinKnown(c'))
            && (c.state == TimeWait && c'.state == TimeWait ==> c'.clock.timeWaitMs == c.clock.timeWaitMs)
            && (c.state != TimeWait && c'.state == TimeWait ==> e.ReceiveEvent? && c'.clock.timeWaitMs == e.now)
  {
    hide OnSegment, PollTransmit, OnTick, Close, Framed;
    match e {
      case ReceiveEvent(p, env, now) => SegmentHandled(c, p, env, now);
      case TickEvent(now) => TickState(c, now);
      case PollEvent(now) => PollState(c, now);
      case CloseEvent(now) => CloseState(c, now);
      case _ =>
    }
  }

  /** What a segment can do to end a connection: exactly a RST that names RCV.NXT, or in SYN_SENT one that
      acknowledges our SYN (section 3.2 of RFC 5961), or in LAST_ACK the acknowledgement of our FIN. Nothing
      forged without one of those numbers can. */
  lemma ResetExactly(c: Conn, s: Seg, env: Env, now: nat)
    requires c.state != Closed
    ensures OnSegment(c, s, env, now).0.state == Closed <==>
            if Has(s.flags, RST) then
              if c.state == SynSent then Has(s.flags, ACK) && s.ackno == c.send.nxt
              else c.state != TimeWait && s.seqno == c.recv.nxt
            else c.state == LastAck && !Has(s.flags, SYN) && Has(s.flags, ACK) && s.ackno == c.send.nxt
  {
    if c.state == LastAck {
      hide Has, InWindow, BareAck;
    } else {
      ResetOnly(c, s, env, now);
    }
  }

  lemma ResetOnly(c: Conn, s: Seg, env: Env, now: nat)
    requires c.state != Closed && c.state != LastAck
    ensures OnSegment(c, s, env, now).0.state == Closed <==>
            && Has(s.flags, RST)
            && if c.state == SynSent then Has(s.flags, ACK) && s.ackno == c.send.nxt
               else c.state != TimeWait && s.seqno == c.recv.nxt
  {
    SegmentHandled(c, s, env, now);
    var c1 := Arrive(c, now);
    if Has(s.flags, RST) {
      RstHandled(c1, s, env, now);
      hide OnRst, Has, Handled;
    } else {
      hide Dispatch, Has, Handled;
    }
  }

  /** The connection in every respect but the clock readings an arrival refreshes and the challenge budget. */
  predicate OnlyNoted(c: Conn, c': Conn, now: nat) {
    c' == c.(opt := c.opt.(tsVal := Low32(now)),
             clock := c.clock.(lastActiveMs := now, keepaliveProbes := 0, challengeBudget := c'.clock.challengeBudget,
                               challengeWindowMs := c'.clock.challengeWindowMs))
  }

  /** A RST anywhere else changes nothing. In the window it draws a challenge ACK (that states SND.NXT and
      RCV.NXT) if and only if the budget allows, and is charged for it; elsewhere it is not answered. */
  lemma BlindResetChallenged(c: Conn, s: Seg, env: Env, now: nat)
    requires Has(s.flags, RST) && c.state != SynSent && c.state != TimeWait && s.seqno != c.recv.nxt
    ensures var r := OnSegment(c, s, env, now);
            var renewed := SatSub(now, c.clock.challengeWindowMs) >= 1000 || now < c.clock.challengeWindowMs;
            var budget := if renewed then env.budget else c.clock.challengeBudget;
            && OnlyNoted(c, r.0, now)
            && (if InWindow(c, s.seqno) then
                  && (r.1.Some? <==> budget > 0)
                  && (r.1.Some? ==> r.1.value.seqno == c.send.nxt && r.1.value.ackno == c.recv.nxt
                                    && r.1.value.flags == ACK && r.1.value.payload == [])
                  && r.0.clock.challengeBudget == (if budget > 0 then budget - 1 else 0)
                  && r.0.clock.challengeWindowMs == (if renewed then now else c.clock.challengeWindowMs)
                else r.1.None? && r.0.clock.challengeBudget == c.clock.challengeBudget
                     && r.0.clock.challengeWindowMs == c.clock.challengeWindowMs)
  {
    hide Has, Before, Add, Low32;
  }

  /** TIME_WAIT answers a segment only with a challenge ACK to a SYN. In particular a retransmitted FIN
      draws no ACK, although docs/doc7-book.md gives that as the first reason to linger. */
  lemma TimeWaitAnswersOnlySyn(c: Conn, s: Seg, env: Env, now: nat)
    requires c.state == TimeWait
    ensures var renewed := SatSub(now, c.clock.challengeWindowMs) >= 1000 || now < c.clock.challengeWindowMs;
            OnSegment(c, s, env, now).1.Some? <==>
            && Has(s.flags, SYN) && !Has(s.flags, RST)
            && (if renewed then env.budget else c.clock.challengeBudget) > 0
  {
    hide Has;
  }

  lemma RetransmittedFinIgnored(c: Conn, s: Seg, env: Env, now: nat)
    requires c.state == TimeWait && s.flags == FIN + ACK
    ensures OnSegment(c, s, env, now).1.None?
  {
    TimeWaitAnswersOnlySyn(c, s, env, now);
    hide OnSegment;
  }

  // ---- whole runs ----

  lemma {:induction false} FinKnownAlways(c: Conn, es: seq<Event>)
    requires FinKnown(c)
    ensures FinKnown(Driven(c, es))
  {
    if es != [] {
      var n := |es| - 1;
      FinKnownAlways(c, es[..n]);
      CallFollowsEdges(Driven(c, es[..n]), es[n]);
      hide FinKnown, Apply, Driven;
      DrivenStep(c, es);
    }
  }

  lemma DrivenStep(c: Conn, es: seq<Event>)
    requires es != []
    ensures Driven(c, es) == Apply(Driven(c, es[..|es| - 1]), es[|es| - 1]).0
  {
    hide Apply;
  }

  /** A connection just opened, actively or on a SYN. */
  ghost predicate Opens(c: Conn) {
    || (exists iss, budget: Budget, now: nat :: c == Connect(iss, budget, now).0)
    || (exists s, iss, budget: Budget, now: nat :: AcceptsAs(s, iss, budget, now, c))
  }

  predicate AcceptsAs(s: Seg, iss: u32, budget: Budget, now: nat, c: Conn) {
    var r := Accept(s, iss, budget, now);
    r.Some? && r.value.0 == c
  }

  lemma OpensKnown(c: Conn)
    requires Opens(c)
    ensures FinKnown(c)
  {
  }

  /** In every run from either kind of open, until the connection closes: end of file has been reported
      exactly in CLOSE_WAIT, LAST_ACK, CLOSING and TIME_WAIT. */
  lemma EndOfFileStates(c: Conn, es: seq<Event>)
    requires Opens(c)
    ensures var r := Driven(c, es);
            r.state != Closed ==>
              (r.peerFin <==> r.state == CloseWait || r.state == LastAck || r.state == Closing || r.state == TimeWait)
  {
    OpensKnown(c);
    FinKnownAlways(c, es);
    hide Driven, Opens;
  }

  /** CLOSED is absorbing. */
  lemma {:induction false} ClosedForever(c: Conn, es: seq<Event>)
    requires c.state == Closed
    ensures Driven(c, es).state == Closed
  {
    if es != [] {
      var n := |es| - 1;
      ClosedForever(c, es[..n]);
      CallFollowsEdges(Driven(c, es[..n]), es[n]);
      hide Apply, Driven;
      DrivenStep(c, es);
    }
  }

  /** One of the calls is a tick at least 240 s after t. */
  ghost predicate Expires(es: seq<Event>, t: nat) {
    exists i :: 0 <= i < |es| && ExpiresAt(es[i], t)
  }

  predicate ExpiresAt(e: Event, t: nat) {
    e.TickEvent? && SatSub(e.now, t) >= TIME_WAIT_MS
  }

  /** TIME_WAIT ends exactly with the first tick at least 240 s after its stamp, whatever arrives. */
  lemma {:induction false} TimeWaitLasts(c: Conn, es: seq<Event>)
    requires c.state == TimeWait
    ensures Driven(c, es).state == if Expires(es, c.clock.timeWaitMs) then Closed else TimeWait
    ensures Driven(c, es).state == TimeWait ==> Driven(c, es).clock.timeWaitMs == c.clock.timeWaitMs
  {
    if es != [] {
      var n := |es| - 1;
      var t := c.clock.timeWaitMs;
      var mid := Driven(c, es[..n]);
      TimeWaitLasts(c, es[..n]);
      ExpiresSplit(es, t);
      DrivenStep(c, es);
      hide Expires, Driven, Apply;
      TimeWaitStep(mid, es[n]);
    }
  }

  lemma TimeWaitStep(c: Conn, e: Event)
    requires c.state == TimeWait || c.state == Closed
    ensures var c' := Apply(c, e).0;
            && c'.state == (if c.state == TimeWait && !ExpiresAt(e, c.clock.timeWaitMs) then TimeWait else Closed)
            && (c'.state == TimeWait ==> c'.clock.timeWaitMs == c.clock.timeWaitMs)
  {
    CallFollowsEdges(c, e);
    hide OnTick, OnSegment, PollTransmit, Close, FinKnown;
    if e.TickEvent? {
      TickState(c, e.now);
    }
  }

  lemma ExpiresSplit(es: seq<Event>, t: nat)
    requires es != []
    ensures Expires(es, t) <==> Expires(es[..|es| - 1], t) || ExpiresAt(es[|es| - 1], t)
  {
    var front := es[..|es| - 1];
    hide ExpiresAt;
    if Expires(front, t) {
      var i :| 0 <= i < |front| && ExpiresAt(front[i], t);
      assert ExpiresAt(es[i], t);
    }
    if Expires(es, t) && !ExpiresAt(es[|es| - 1], t) {
      var i :| 0 <= i < |es| && ExpiresAt(es[i], t);
      assert ExpiresAt(front[i], t);
    }
  }

  // ---- what a tick may give up ----

  /** A tick closes a connection exactly when TIME_WAIT has lasted 240 s, a half-closed connection has been
      idle for 60 s (FIN_WAIT_2) or 120 s (CLOSE_WAIT), or, with keepalive on, an idle established one has
      left three probes unanswered for 75 s since the last segment. */
  lemma TickAbortsExactly(c: Conn, now: nat)
    requires c.state != Closed
    ensures OnTick(c, now).0.state == Closed <==>
            || (c.state == TimeWait && SatSub(now, c.clock.timeWaitMs) >= 240_000)
            || (c.state == FinWait2 && SatSub(now, c.clock.lastActiveMs) >= 60_000)
            || (c.state == CloseWait && SatSub(now, c.clock.lastActiveMs) >= 120_000)
            || (c.state == Established && c.opt.keepaliveEnabled && FlightSize(c) == 0 && c.sendBuf == []
                && c.clock.keepaliveProbes >= 3
                && now >= c.clock.lastActiveMs + 60_000 + 5_000 * c.clock.keepaliveProbes)
  {
    var c0 := Reap(Stamped(c, now), now);
    var a := TickRack(c0, now).0;
    var b := TickProbe(a, now).0;
    var d := TickRto(b, now).0;
    var e := TickPersist(d, now).0;
    TickKeeps(c0, a, b, d, e, now);
    hide TickRack, TickProbe, TickRto, TickPersist, Sub, Segment;
  }

  /** The steps between reaping and keepalive leave what keepalive looks at as it was. */
  lemma TickKeeps(c0: Conn, a: Conn, b: Conn, d: Conn, e: Conn, now: nat)
    requires a == TickRack(c0, now).0 && b == TickProbe(a, now).0 && d == TickRto(b, now).0 && e == TickPersist(d, now).0
    ensures e.state == c0.state && e.opt == c0.opt
    ensures e.clock.lastActiveMs == c0.clock.lastActiveMs && e.clock.keepaliveProbes == c0.clock.keepaliveProbes
    ensures c0.state == Established ==>
              ((e.sendBuf == [] && FlightSize(e) == 0) <==> (c0.sendBuf == [] && FlightSize(c0) == 0))
  {
    assert IdleKept(c0, a) && IdleKept(a, b) && IdleKept(b, d) by {
      hide Retransmit.RackMarkLost, Retransmit.RetransmitLast, Retransmit.Due, Rtt.Rto, Congestion.OnTimeout,
        FlightSize;
    }
    PersistIdle(d, now);
    hide TickRack, TickProbe, TickRto, TickPersist;
  }

  predicate IdleKept(c: Conn, c': Conn) {
    && c'.state == c.state && c'.opt == c.opt && c'.send == c.send && c'.sendBuf == c.sendBuf
    && c'.clock.lastActiveMs == c.clock.lastActiveMs && c'.clock.keepaliveProbes == c.clock.keepaliveProbes
  }

  lemma PersistIdle(c: Conn, now: nat)
    ensures var c' := TickPersist(c, now).0;
            && c'.state == c.state && c'.opt == c.opt
            && c'.clock.lastActiveMs == c.clock.lastActiveMs && c'.clock.keepaliveProbes == c.clock.keepaliveProbes
            && ((c'.sendBuf == [] && FlightSize(c') == 0) <==> (c.sendBuf == [] && FlightSize(c) == 0))
  {
    hide Segment, Rtt.Rto;
    if TickPersist(c, now).1 != [] {
      OneInFlight(c.send.una, c.send.nxt);
    }
  }

  lemma OneInFlight(una: u32, nxt: u32)
    requires Sub(nxt, una) == 0
    ensures Sub(Add(nxt, Low32(1)), una) == 1
  {
  }
}
