/** Which connections the server hands to its application (`poll` and `accept_one` in src/socket.rs), over
    whole runs: at most once per incarnation, and exactly those that are still established when the poll
    that completed their handshake flushes. */
module Backlog {
  import opened Types
  import opened SeqNum
  import opened Segments
  import opened Connection
  import opened Packets
  import opened Calls
  import opened Lifecycle
  import opened AckField
  import opened Server
  import Retransmit
  import Reassembly
  import Rtt
  import Congestion

  // ---- once per incarnation ----

  /** How many incarnations of the connection have begun. */
  function Births(q: Quad, ops: seq<Op>): nat {
    if ops == [] then 0 else
      var s := SoloRun(q, ops[..|ops| - 1]);
      var op := ops[|ops| - 1];
      Births(q, ops[..|ops| - 1]) +
      if op.PollOp? && s.conn.None? && SoloPumped(s, q, op.arrivals, op.now).conn.Some? then 1 else 0
  }

  /** How many times the 4-tuple has been put on the backlog in the life of its present connection, or of
      its last one. The count starts again where the slot was empty. */
  function LifeAnnouncements(q: Quad, ops: seq<Op>): nat {
    if ops == [] then 0 else
      var s := SoloRun(q, ops[..|ops| - 1]);
      var op := ops[|ops| - 1];
      (if s.conn.None? then 0 else LifeAnnouncements(q, ops[..|ops| - 1])) +
      if op.PollOp? && Announces(s, q, op.arrivals, op.now) then 1 else 0
  }

  lemma {:induction false} IngestKeeps(s: Slot, q: Quad, arrivals: seq<Arrival>, now: nat)
    ensures var r := SoloIngest(s, q, arrivals, now);
            r.announced == s.announced && (s.conn.Some? ==> r.conn.Some?)
  {
    if arrivals != [] {
      IngestKeeps(s, q, arrivals[..|arrivals| - 1], now);
      hide OnSegment, Accept, OpensHere;
    }
  }

  /** Pumping keeps the connection until it is reaped, and announces only an established one. */
  lemma PumpedKeeps(s: Slot, q: Quad, arrivals: seq<Arrival>, now: nat)
    ensures var r := SoloPumped(s, q, arrivals, now);
            && (s.conn.Some? ==> r.conn.Some?) && (s.announced ==> r.announced)
            && (r.announced && !s.announced ==> r.conn.Some? && r.conn.value.state == Established)
  {
    var t := SoloTick(s, now);
    IngestKeeps(t, q, arrivals, now);
    hide OnTick, SoloIngest, PollTransmit;
  }

  lemma RunStep(q: Quad, ops: seq<Op>)
    requires ops != []
    ensures SoloRun(q, ops) == SoloStep(SoloRun(q, ops[..|ops| - 1]), q, ops[|ops| - 1])
  {
    hide SoloStep;
  }

  /** After any run only 4-tuples with a connection are marked announced, and in the life of a connection
      it is put on the backlog exactly once if it is marked and never if it is not. */
  lemma {:induction false} AnnouncedOncePerIncarnation(q: Quad, ops: seq<Op>)
    ensures var s := SoloRun(q, ops);
            && (s.announced ==> s.conn.Some?)
            && LifeAnnouncements(q, ops) <= 1
            && (s.conn.Some? ==> LifeAnnouncements(q, ops) == if s.announced then 1 else 0)
  {
    if ops != [] {
      var n := |ops| - 1;
      AnnouncedOncePerIncarnation(q, ops[..n]);
      RunStep(q, ops);
      hide SoloPumped, Apply, SoloRun;
      if ops[n].PollOp? {
        PumpedKeeps(SoloRun(q, ops[..n]), q, ops[n].arrivals, ops[n].now);
      }
    }
  }

  /** So over a whole run the 4-tuple is on the backlog at most once per incarnation. */
  lemma {:induction false} AnnouncementsBounded(q: Quad, ops: seq<Op>)
    ensures Announcements(q, ops) <= Births(q, ops)
    ensures var s := SoloRun(q, ops);
            s.conn.Some? && !s.announced ==> Announcements(q, ops) < Births(q, ops)
  {
    if ops != [] {
      var n := |ops| - 1;
      AnnouncementsBounded(q, ops[..n]);
      AnnouncedOncePerIncarnation(q, ops[..n]);
      RunStep(q, ops);
      hide SoloPumped, Apply, SoloRun, LifeAnnouncements;
      if ops[n].PollOp? {
        PumpedKeeps(SoloRun(q, ops[..n]), q, ops[n].arrivals, ops[n].now);
      }
    }
  }

  // ---- birth and death ----

  /** A SYN without ACK for this 4-tuple is among the arrivals. */
  ghost predicate Knocks(q: Quad, arrivals: seq<Arrival>) {
    exists i :: 0 <= i < |arrivals| && KnocksAt(q, arrivals[i])
  }

  predicate KnocksAt(q: Quad, a: Arrival) {
    a.quad == q && Has(a.seg.flags, SYN) && !Has(a.seg.flags, ACK)
  }

  lemma KnocksSplit(q: Quad, arrivals: seq<Arrival>)
    requires arrivals != []
    ensures var n := |arrivals| - 1; Knocks(q, arrivals) <==> Knocks(q, arrivals[..n]) || KnocksAt(q, arrivals[n])
  {
    hide KnocksAt;
    var n := |arrivals| - 1;
    if i :| 0 <= i < n && KnocksAt(q, arrivals[..n][i]) {
      assert KnocksAt(q, arrivals[i]);
    }
    if i :| 0 <= i < |arrivals| && KnocksAt(q, arrivals[i]) && i < n {
      assert KnocksAt(q, arrivals[..n][i]);
    }
  }

  /** In an empty slot a connection is born exactly if a SYN without ACK for its 4-tuple arrives; in one that is taken
      none is. */
  lemma {:induction false} BornExactly(s: Slot, q: Quad, arrivals: seq<Arrival>, now: nat)
    ensures SoloIngest(s, q, arrivals, now).conn.Some? <==> s.conn.Some? || Knocks(q, arrivals)
  {
    if arrivals != [] {
      var n := |arrivals| - 1;
      BornExactly(s, q, arrivals[..n], now);
      KnocksSplit(q, arrivals);
      hide OnSegment, SoloIngest, Knocks, Has;
      IngestLast(s, q, arrivals, now);
      hide Accept;
      TakenOnSyn(arrivals[n], now);
    }
  }

  lemma TakenOnSyn(a: Arrival, now: nat)
    ensures Accept(a.seg, a.iss, a.env.budget, now).Some? <==> Has(a.seg.flags, SYN)
  {
    hide Has;
  }

  /** After any run that ends with a poll, a 4-tuple has a connection exactly if it had one when the poll was about to
      reap that was not closed; the table keeps no closed one, and no mark of one. */
  lemma KeepsNoneClosed(q: Quad, ops: seq<Op>)
    requires ops != [] && ops[|ops| - 1].PollOp?
    ensures var p := SoloPumped(SoloRun(q, ops[..|ops| - 1]), q, ops[|ops| - 1].arrivals, ops[|ops| - 1].now);
            var r := SoloRun(q, ops);
            && (r.conn.Some? <==> p.conn.Some? && p.conn.value.state != Closed)
            && (r.conn.Some? ==> r == p) && (r.conn.None? && p.conn.Some? ==> !r.announced && r.sent == p.sent)
  {
    RunStep(q, ops);
    hide SoloPumped, SoloRun;
  }

  // ---- what takes a connection out of ESTABLISHED ----

  /** With this segment's data in, RCV.NXT stands at the FIN: its own, or one deferred before. */
  predicate CompletesFin(c: Conn, s: Seg) {
    var nxt := Deliver(c, s.seqno, s.payload).recv.nxt;
    var fin := Add(s.seqno, Low32(|s.payload|));
    if Has(s.flags, FIN) && !Before(fin, nxt) then fin == nxt else c.pendingFin == Some(nxt)
  }

  predicate FinishesOpen(c: Conn, s: Seg) {
    !Paws(c, s) && !StopsAtAck(c, s) && CompletesFin(c, s)
  }

  /** The segment takes an established connection out of that state: a RST naming RCV.NXT, or the FIN. */
  predicate Leaves(c: Conn, s: Seg) {
    if Has(s.flags, RST) then s.seqno == c.recv.nxt else !Has(s.flags, SYN) && FinishesOpen(c, s)
  }

  /** The last handshake segment brings in the FIN as well. */
  predicate FinishesAtOnce(c: Conn, s: Seg) {
    !Paws(c, s) && CompletesFin(c, s)
  }

  /** The segment completes the handshake of a passive open. */
  predicate Completes(c: Conn, s: Seg) {
    c.state == SynRcvd && !Has(s.flags, RST) && Has(s.flags, ACK) && s.ackno == c.send.nxt
  }

  lemma AckKeepsReceiver(c: Conn, s: Seg, prevWnd: u32, env: Env, now: nat)
    ensures var r := OnAckField(c, s, prevWnd, env, now).0;
            r.state == c.state && r.recv == c.recv && r.reasm == c.reasm && r.pendingFin == c.pendingFin
  {
    AckFieldHandled(c, s, prevWnd, env, now);
    AckKeepsReasm(c, s, prevWnd, env, now);
    hide OnAckField, Handled;
  }

  lemma AckKeepsReasm(c: Conn, s: Seg, prevWnd: u32, env: Env, now: nat)
    ensures OnAckField(c, s, prevWnd, env, now).0.reasm == c.reasm
  {
    hide AckAcceptable, Between, Before, BareAck, Retransmit.MarkSacked, Retransmit.FastRetransmit, Acked;
    assert forall x: Conn :: Acked(x, s, now).reasm == x.reasm by {
      forall x: Conn ensures Acked(x, s, now).reasm == x.reasm {
        AckedReasm(x, s, now);
      }
    }
  }

  lemma AckedReasm(c: Conn, s: Seg, now: nat)
    ensures Acked(c, s, now).reasm == c.reasm
  {
    hide AckSample, Retransmit.Ack, Rtt.Sample;
  }

  lemma TextState(c: Conn, s: Seg)
    requires c.state == Established
    ensures OnText(c, s).0.state == if CompletesFin(c, s) then CloseWait else Established
  {
    var d := Deliver(c, s.seqno, s.payload);
    assert d.state == c.state && d.pendingFin == c.pendingFin by {
      hide Reassembly.Recv;
    }
    hide Deliver, Add, Low32, Before, After, Has, BareAck, AckOptions;
  }

  lemma SameDelivery(c: Conn, d: Conn, s: Seg)
    requires d.recv == c.recv && d.reasm == c.reasm && d.pendingFin == c.pendingFin
    ensures CompletesFin(d, s) == CompletesFin(c, s)
  {
    hide Reassembly.Recv, Add, Low32, Before, Has;
  }

  lemma OpenState(c: Conn, s: Seg, env: Env, now: nat)
    requires c.state == Established
    ensures OnOpen(c, s, env, now).0.state == if FinishesOpen(c, s) then CloseWait else Established
  {
    var c1 := Refresh(c, s);
    assert c1.state == c.state && c1.recv == c.recv && c1.reasm == c.reasm && c1.pendingFin == c.pendingFin by {
      hide Scaled, After;
    }
    var r := if Has(s.flags, ACK) then OnAckField(c1, s, c.send.wnd, env, now) else (c1, None, false);
    AckKeepsReceiver(c1, s, c.send.wnd, env, now);
    assert r.2 <==> StopsAtAck(c, s) by {
      if Has(s.flags, ACK) {
        StopsExactly(c, s, env, now);
      }
    }
    hide OnAckField, Refresh, CompletesFin, OnText, Paws, Has, BareAck, StopsAtAck;
    SameDelivery(c, r.0, s);
    TextState(r.0, s);
  }

  /** An arrival's clock readings are nothing to the tests. */
  lemma ArrivedSame(c: Conn, s: Seg, now: nat)
    ensures FinishesOpen(Arrive(c, now), s) == FinishesOpen(c, s)
    ensures Paws(Arrive(c, now), s) == Paws(c, s) && StopsAtAck(Arrive(c, now), s) == StopsAtAck(c, s)
    ensures CompletesFin(Arrive(c, now), s) == CompletesFin(c, s)
  {
    var c1 := Arrive(c, now);
    SameDelivery(c, c1, s);
    assert AckAcceptable(Refresh(c1, s), s.ackno) == AckAcceptable(Refresh(c, s), s.ackno) by {
      hide Before, After, Scaled;
    }
    assert Duplicates(Refresh(c1, s), s, c1.send.wnd) == Duplicates(Refresh(c, s), s, c.send.wnd) by {
      hide After, Scaled;
    }
    assert HoleBeyond(c1, s) == HoleBeyond(c, s) && SomeHole(c1, s) == SomeHole(c, s) by {
      assert forall x :: Hole(c1, s, x) == Hole(c, s, x);
      hide Hole, Before;
    }
    hide AckAcceptable, Refresh, Duplicates, HoleBeyond, SomeHole, CompletesFin, Between, Before, Has, Low32;
  }

  /** The handler of ESTABLISHED and CLOSE_WAIT, branch by branch. */
  lemma OpenCases(c: Conn, p: Seg, env: Env, now: nat)
    requires (c.state == Established || c.state == CloseWait) && !Has(p.flags, RST) && !Has(p.flags, SYN)
    ensures var c1 := Arrive(c, now);
            var c2 := Refresh(c1, p);
            var r := if Has(p.flags, ACK) then OnAckField(c2, p, c1.send.wnd, env, now) else (c2, None, false);
            OnSegment(c, p, env, now) ==
            if Paws(c, p) then (c1, Some(BareAck(c1))) else if StopsAtAck(c, p) then (r.0, r.1) else OnText(r.0, p)
  {
    var c1 := Arrive(c, now);
    ArrivedSame(c, p, now);
    assert c1.state == c.state;
    if Has(p.flags, ACK) {
      StopsExactly(c1, p, env, now);
    } else {
      NoAckNoStop(c, p);
    }
    hide Arrive, Refresh, OnAckField, OnText, Paws, Has, BareAck, MaybeChallenge, OnRst, StopsAtAck;
  }

  lemma NoAckNoStop(c: Conn, p: Seg)
    requires !Has(p.flags, ACK)
    ensures !StopsAtAck(c, p)
  {
  }

  /** Our FIN is acknowledged, now or already. */
  predicate FinHeard(c: Conn, s: Seg) {
    c.state == FinWait2 || (Has(s.flags, ACK) && s.ackno == c.send.nxt)
  }

  /** A connection in FIN_WAIT_1 or FIN_WAIT_2 with this segment's data in. */
  function WithData(c: Conn, s: Seg, now: nat): Conn {
    var c1 := Arrive(c, now);
    Deliver(if c.state == FinWait1 && FinHeard(c, s) then c1.(retx := Retransmit.Ack(c1.retx, s.ackno, now).0) else c1,
            s.seqno, s.payload)
  }

  /** The handler of FIN_WAIT_1 and FIN_WAIT_2. */
  lemma FinWaitCases(c: Conn, s: Seg, env: Env, now: nat)
    requires (c.state == FinWait1 || c.state == FinWait2) && !Has(s.flags, RST) && !Has(s.flags, SYN)
    ensures OnSegment(c, s, env, now) == FinTail(WithData(c, s, now), s, FinHeard(c, s), now)
    ensures var w, d := WithData(c, s, now), Deliver(c, s.seqno, s.payload);
            && w.recv == d.recv && w.recvBuf == d.recvBuf && w.reasm == d.reasm && w.state == c.state && w.send == c.send
            && w.opt == c.opt.(tsVal := Low32(now)) && w.clock == c.clock.(lastActiveMs := now, keepaliveProbes := 0)
            && w.cong == c.cong && w.rtt == c.rtt && w.pendingFin == c.pendingFin && w.peerFin == c.peerFin
            && w.retx == if c.state == FinWait1 && FinHeard(c, s) then Retransmit.Ack(c.retx, s.ackno, now).0 else c.retx
  {
    WithDataFields(c, s, now);
    hide FinTail, Deliver, Retransmit.Ack, Has, MaybeChallenge, OnRst;
  }

  lemma WithDataFields(c: Conn, s: Seg, now: nat)
    ensures var w, d := WithData(c, s, now), Deliver(c, s.seqno, s.payload);
            && w.recv == d.recv && w.recvBuf == d.recvBuf && w.reasm == d.reasm && w.state == c.state && w.send == c.send
            && w.opt == c.opt.(tsVal := Low32(now)) && w.clock == c.clock.(lastActiveMs := now, keepaliveProbes := 0)
            && w.cong == c.cong && w.rtt == c.rtt && w.pendingFin == c.pendingFin && w.peerFin == c.peerFin
            && w.retx == if c.state == FinWait1 && FinHeard(c, s) then Retransmit.Ack(c.retx, s.ackno, now).0 else c.retx
  {
    hide Reassembly.Recv, Retransmit.Ack, Has;
  }

  /** The handshake's last segment acknowledges the SYN alone, so its acknowledgement field stops nothing. */
  lemma FinishedAtOnce(c: Conn, s: Seg, now: nat)
    requires c.state == SynRcvd && s.ackno == c.send.nxt
    ensures FinishesOpen(Establish(Arrive(c, now), s, now), s) == FinishesAtOnce(c, s)
  {
    var e := Establish(Arrive(c, now), s, now);
    assert e.send.una == s.ackno == e.send.nxt && e.opt.tsEnabled == c.opt.tsEnabled && e.opt.tsRecent == c.opt.tsRecent
           && e.recv == c.recv && e.reasm == c.reasm && e.pendingFin == c.pendingFin by {
      hide Retransmit.Ack;
    }
    hide Establish, Arrive, CompletesFin, StopsAtAck;
    NeverStopsIdle(e, s);
    SameDelivery(c, e, s);
  }

  /** A segment leaves a connection established exactly when it was established and the segment does not
      take it out, or it completes the handshake and does not finish at once what it has opened. */
  lemma EstablishedAfterSegment(c: Conn, s: Seg, env: Env, now: nat)
    requires c.state != SynSent
    ensures OnSegment(c, s, env, now).0.state == Established <==>
            || (c.state == Established && !Leaves(c, s))
            || (Completes(c, s) && !FinishesAtOnce(c, s))
  {
    var c1 := Arrive(c, now);
    assert c1.state == c.state && c1.send == c.send && c1.recv == c.recv;
    ArrivedSame(c, s, now);
    hide Arrive, FinishesOpen, FinishesAtOnce, OnOpen, Has, InWindow, MaybeChallenge, StopsAtAck, CompletesFin;
    if Has(s.flags, RST) {
      RstState(c1, s, env, now);
    } else if c.state == Established {
      OpenState(c1, s, env, now);
      ChallengeHandled(c1, env, now);
      hide Handled, OnRst;
    } else if Completes(c, s) {
      assert Establish(c1, s, now).state == Established by { hide Retransmit.Ack; }
      hide Establish, OnRst;
      OpenState(Establish(c1, s, now), s, env, now);
      FinishedAtOnce(c, s, now);
    } else {
      SegmentHandled(c, s, env, now);
      hide OnRst, Handled, OnSynced, Establish;
      StaysOut(c, s, env, now);
    }
  }

  lemma RstState(c: Conn, s: Seg, env: Env, now: nat)
    requires c.state != SynSent
    ensures OnRst(c, s, env, now).0.state ==
            if c.state != TimeWait && s.seqno == c.recv.nxt then Closed else c.state
  {
    hide InWindow, BareAck;
  }

  lemma StaysOut(c: Conn, s: Seg, env: Env, now: nat)
    requires c.state != SynSent && c.state != Established && !Has(s.flags, RST) && !Completes(c, s)
    ensures OnSegment(c, s, env, now).0.state != Established
  {
    SegmentHandled(c, s, env, now);
    hide Has, OnSynced, OnRst, MaybeChallenge, Handled, Establish;
  }

  // ---- which are announced ----

  predicate InState(s: Slot, state: State) {
    s.conn.Some? && s.conn.value.state == state
  }

  /** The slot when arrival i of the poll is about to be handled. */
  function At(t: Slot, q: Quad, arrivals: seq<Arrival>, now: nat, i: nat): Slot
    requires i <= |arrivals|
  {
    SoloIngest(t, q, arrivals[..i], now)
  }

  /** Arrival i completes the handshake of this 4-tuple. */
  predicate CompletesAt(t: Slot, q: Quad, arrivals: seq<Arrival>, now: nat, i: nat)
    requires i < |arrivals|
  {
    arrivals[i].quad == q && At(t, q, arrivals, now, i).conn.Some?
    && Completes(At(t, q, arrivals, now, i).conn.value, arrivals[i].seg)
  }

  /** Arrival i is for another 4-tuple, or does not take the connection out of ESTABLISHED. */
  predicate SparesAt(t: Slot, q: Quad, arrivals: seq<Arrival>, now: nat, i: nat)
    requires i < |arrivals|
  {
    arrivals[i].quad == q && At(t, q, arrivals, now, i).conn.Some? ==>
      !Leaves(At(t, q, arrivals, now, i).conn.value, arrivals[i].seg)
  }

  /** Arrival i completes the handshake without finishing the connection in the same stroke, and nothing
      after it in this poll is a RST naming RCV.NXT or brings in the FIN. */
  ghost predicate Lasting(t: Slot, q: Quad, arrivals: seq<Arrival>, now: nat, i: nat)
    requires i < |arrivals|
  {
    && CompletesAt(t, q, arrivals, now, i)
    && !FinishesAtOnce(At(t, q, arrivals, now, i).conn.value, arrivals[i].seg)
    && SparedAfter(t, q, arrivals, now, i)
  }

  ghost predicate SparedAfter(t: Slot, q: Quad, arrivals: seq<Arrival>, now: nat, i: nat) {
    forall j :: i < j < |arrivals| ==> SparesAt(t, q, arrivals, now, j)
  }

  ghost predicate SomeLasting(t: Slot, q: Quad, arrivals: seq<Arrival>, now: nat) {
    exists i :: 0 <= i < |arrivals| && Lasting(t, q, arrivals, now, i)
  }

  /** Dropping the last arrival. */
  lemma AtPrefix(t: Slot, q: Quad, arrivals: seq<Arrival>, now: nat, i: nat)
    requires i < |arrivals| - 1
    ensures var front := arrivals[..|arrivals| - 1];
            && CompletesAt(t, q, arrivals, now, i) == CompletesAt(t, q, front, now, i)
            && SparesAt(t, q, arrivals, now, i) == SparesAt(t, q, front, now, i)
            && At(t, q, arrivals, now, i) == At(t, q, front, now, i)
  {
    assert arrivals[..|arrivals| - 1][..i] == arrivals[..i];
    hide SoloIngest, Completes, Leaves;
  }

  lemma LastingPrefix(t: Slot, q: Quad, arrivals: seq<Arrival>, now: nat, i: nat)
    requires i < |arrivals| - 1
    ensures Lasting(t, q, arrivals, now, i) <==>
            Lasting(t, q, arrivals[..|arrivals| - 1], now, i) && SparesAt(t, q, arrivals, now, |arrivals| - 1)
  {
    AtPrefix(t, q, arrivals, now, i);
    SparedPrefix(t, q, arrivals, now, i);
    hide CompletesAt, SparesAt, SparedAfter, FinishesAtOnce, At;
  }

  lemma SparedPrefix(t: Slot, q: Quad, arrivals: seq<Arrival>, now: nat, i: nat)
    requires i < |arrivals| - 1
    ensures SparedAfter(t, q, arrivals, now, i) <==>
            SparedAfter(t, q, arrivals[..|arrivals| - 1], now, i) && SparesAt(t, q, arrivals, now, |arrivals| - 1)
  {
    var n := |arrivals| - 1;
    hide SparesAt, SoloIngest;
    forall j | i < j < n
      ensures SparesAt(t, q, arrivals, now, j) == SparesAt(t, q, arrivals[..n], now, j)
    {
      AtPrefix(t, q, arrivals, now, j);
    }
  }

  lemma IngestLast(t: Slot, q: Quad, arrivals: seq<Arrival>, now: nat)
    requires arrivals != []
    ensures var last := arrivals[|arrivals| - 1];
            var m := At(t, q, arrivals, now, |arrivals| - 1);
            SoloIngest(t, q, arrivals, now) == if last.quad == q then SoloSegment(m, last, now) else m
  {
    hide SoloSegment;
  }

  /** One more arrival. */
  lemma EstablishedStep(t: Slot, q: Quad, arrivals: seq<Arrival>, now: nat)
    requires arrivals != [] && !InState(At(t, q, arrivals, now, |arrivals| - 1), SynSent)
    ensures InState(SoloIngest(t, q, arrivals, now), Established) <==>
            || (InState(At(t, q, arrivals, now, |arrivals| - 1), Established)
                && SparesAt(t, q, arrivals, now, |arrivals| - 1))
            || Lasting(t, q, arrivals, now, |arrivals| - 1)
  {
    var n := |arrivals| - 1;
    var last := arrivals[n];
    var m := At(t, q, arrivals, now, n);
    IngestLast(t, q, arrivals, now);
    hide SoloIngest, At, FinishesAtOnce, Leaves, OnSegment, Completes;
    if last.quad == q && m.conn.Some? {
      EstablishedAfterSegment(m.conn.value, last.seg, last.env, now);
      CompletesRcvd(m.conn.value, last.seg);
    } else if last.quad == q {
      AcceptedState(last.seg, last.iss, last.env.budget, now);
      hide Accept, OpensHere;
    }
  }

  lemma CompletesRcvd(c: Conn, s: Seg)
    ensures Completes(c, s) ==> c.state == SynRcvd
  {
  }

  lemma AcceptedState(s: Seg, iss: u32, budget: Budget, now: nat)
    ensures var r := Accept(s, iss, budget, now);
            r.Some? ==> r.value.0.state == SynRcvd
  {
  }

  /** Ingesting never leads to SYN_SENT. */
  lemma {:induction false} NeverSynSent(t: Slot, q: Quad, arrivals: seq<Arrival>, now: nat)
    requires !InState(t, SynSent)
    ensures !InState(SoloIngest(t, q, arrivals, now), SynSent)
  {
    if arrivals != [] {
      var n := |arrivals| - 1;
      var m := SoloIngest(t, q, arrivals[..n], now);
      NeverSynSent(t, q, arrivals[..n], now);
      hide OnSegment, Accept, OpensHere;
      AcceptedState(arrivals[n].seg, arrivals[n].iss, arrivals[n].env.budget, now);
      if m.conn.Some? {
        SegmentHandled(m.conn.value, arrivals[n].seg, arrivals[n].env, now);
        hide Handled;
      }
    }
  }

  lemma {:induction false} EstablishedAfterArrivals(t: Slot, q: Quad, arrivals: seq<Arrival>, now: nat)
    requires !InState(t, SynSent) && !InState(t, Established)
    ensures InState(SoloIngest(t, q, arrivals, now), Established) <==> SomeLasting(t, q, arrivals, now)
  {
    if arrivals != [] {
      var n := |arrivals| - 1;
      var front := arrivals[..n];
      EstablishedAfterArrivals(t, q, front, now);
      NeverSynSent(t, q, front, now);
      EstablishedStep(t, q, arrivals, now);
      assert At(t, q, arrivals, now, n) == SoloIngest(t, q, front, now);
      hide Lasting, SparesAt, SoloIngest, At;
      if SomeLasting(t, q, front, now) && SparesAt(t, q, arrivals, now, n) {
        var i :| 0 <= i < n && Lasting(t, q, front, now, i);
        LastingPrefix(t, q, arrivals, now, i);
      }
      if SomeLasting(t, q, arrivals, now) && !Lasting(t, q, arrivals, now, n) {
        var i :| 0 <= i <= n && Lasting(t, q, arrivals, now, i);
        LastingPrefix(t, q, arrivals, now, i);
      }
    }
  }

  /** Past the point where the connection could still be announced. */
  predicate Past(s: State) {
    s != SynSent && s != SynRcvd && s != Established
  }

  /** What every run keeps: a slot not announced is empty, still in its handshake, or past it. */
  predicate Settled(s: Slot) {
    s.conn.Some? ==>
      if s.announced then s.conn.value.state != SynSent && s.conn.value.state != SynRcvd
      else s.conn.value.state == SynRcvd || Past(s.conn.value.state)
  }

  /** A poll announces an unannounced 4-tuple exactly when its slot holds an established connection once
      the timers have run and the datagrams are in. */
  lemma AnnouncesEstablished(s: Slot, q: Quad, arrivals: seq<Arrival>, now: nat)
    requires !s.announced
    ensures Announces(s, q, arrivals, now) <==> InState(SoloIngest(SoloTick(s, now), q, arrivals, now), Established)
  {
    IngestKeeps(SoloTick(s, now), q, arrivals, now);
    var m := SoloIngest(SoloTick(s, now), q, arrivals, now);
    TickedSlot(s, now);
    hide SoloIngest, PollTransmit, SoloTick;
    if m.conn.Some? {
      PollState(m.conn.value, now);
    }
  }

  lemma TickedSlot(s: Slot, now: nat)
    ensures var t := SoloTick(s, now);
            && t.announced == s.announced && (t.conn.Some? <==> s.conn.Some?)
            && (s.conn.Some? ==>
                  && (t.conn.value.state == s.conn.value.state || t.conn.value.state == Closed)
                  && (s.conn.value.state == SynRcvd || s.conn.value.state == SynSent ==>
                        t.conn.value.state == s.conn.value.state))
  {
    hide OnTick;
    if s.conn.Some? {
      TickState(s.conn.value, now);
    }
  }

  lemma {:induction false} NoneCompletes(t: Slot, q: Quad, arrivals: seq<Arrival>, now: nat)
    requires t.conn.Some? && t.conn.value.state != SynSent && t.conn.value.state != SynRcvd
    ensures !SomeLasting(t, q, arrivals, now)
    ensures var m := SoloIngest(t, q, arrivals, now);
            m.conn.Some? && m.conn.value.state != SynSent && m.conn.value.state != SynRcvd
  {
    if arrivals != [] {
      var n := |arrivals| - 1;
      var front := arrivals[..n];
      NoneCompletes(t, q, front, now);
      NoneCompletesNext(t, q, arrivals, now);
      hide Lasting, SoloIngest;
      if SomeLasting(t, q, arrivals, now) {
        var i :| 0 <= i <= n && Lasting(t, q, arrivals, now, i);
        LastingPrefix(t, q, arrivals, now, i);
      }
    }
  }

  lemma NoneCompletesNext(t: Slot, q: Quad, arrivals: seq<Arrival>, now: nat)
    requires arrivals != []
    requires var m := SoloIngest(t, q, arrivals[..|arrivals| - 1], now);
             m.conn.Some? && m.conn.value.state != SynSent && m.conn.value.state != SynRcvd
    ensures !Lasting(t, q, arrivals, now, |arrivals| - 1)
    ensures var m := SoloIngest(t, q, arrivals, now);
            m.conn.Some? && m.conn.value.state != SynSent && m.conn.value.state != SynRcvd
  {
    var last := arrivals[|arrivals| - 1];
    var m := At(t, q, arrivals, now, |arrivals| - 1);
    IngestLast(t, q, arrivals, now);
    hide OnSegment, Accept, SoloIngest, SparedAfter, FinishesAtOnce, Completes, OpensHere;
    PastHandshake(m.conn.value, last.seg, last.env, now);
    CompletesRcvd(m.conn.value, last.seg);
  }

  lemma PastHandshake(c: Conn, s: Seg, env: Env, now: nat)
    requires c.state != SynSent && c.state != SynRcvd
    ensures var r := OnSegment(c, s, env, now).0; r.state != SynSent && r.state != SynRcvd
  {
    SegmentHandled(c, s, env, now);
    hide OnSegment, Handled;
  }

  lemma PollSettled(s: Slot, q: Quad, arrivals: seq<Arrival>, now: nat)
    requires Settled(s) && (s.announced ==> s.conn.Some?)
    ensures Settled(SoloPoll(s, q, arrivals, now))
    ensures Announces(s, q, arrivals, now) <==> SomeLasting(SoloTick(s, now), q, arrivals, now)
  {
    var t := SoloTick(s, now);
    hide SoloIngest, SoloTick, SomeLasting, SoloFlush;
    TickedSlot(s, now);
    IngestKeeps(t, q, arrivals, now);
    NeverSynSent(t, q, arrivals, now);
    if s.announced {
      NoneCompletes(t, q, arrivals, now);
    } else {
      AnnouncesEstablished(s, q, arrivals, now);
      EstablishedAfterArrivals(t, q, arrivals, now);
    }
    FlushSettled(SoloIngest(t, q, arrivals, now), now);
  }

  lemma FlushSettled(m: Slot, now: nat)
    requires !InState(m, SynSent) && (m.announced ==> m.conn.Some? && !InState(m, SynRcvd))
    ensures Settled(SoloFlush(m, now))
  {
    hide PollTransmit;
    if m.conn.Some? {
      PollState(m.conn.value, now);
    }
  }

  lemma CallSettled(s: Slot, e: Event)
    requires Settled(s) && !e.ReceiveEvent?
    ensures Settled(SoloCall(s, e))
  {
    hide Apply;
    if s.conn.Some? {
      CallFollowsEdges(s.conn.value, e);
      hide FinKnown;
    }
  }

  /** The operations of a server: polls, and calls by the application. */
  ghost predicate Served(ops: seq<Op>) {
    forall i :: 0 <= i < |ops| ==> ByServer(ops[i])
  }

  predicate ByServer(op: Op) {
    op.CallOp? ==> !op.e.ReceiveEvent?
  }

  lemma ServedPrefix(ops: seq<Op>, n: nat)
    requires Served(ops) && n <= |ops|
    ensures Served(ops[..n])
  {
  }

  lemma {:induction false} RunSettled(q: Quad, ops: seq<Op>)
    requires Served(ops)
    ensures Settled(SoloRun(q, ops)) && (SoloRun(q, ops).announced ==> SoloRun(q, ops).conn.Some?)
  {
    AnnouncedOncePerIncarnation(q, ops);
    if ops != [] {
      var n := |ops| - 1;
      ServedPrefix(ops, n);
      RunSettled(q, ops[..n]);
      RunStep(q, ops);
      assert ByServer(ops[n]);
      hide Settled, SoloPoll, SoloCall, SoloRun, Served;
      if ops[n].PollOp? {
        PollSettled(SoloRun(q, ops[..n]), q, ops[n].arrivals, ops[n].now);
      } else {
        CallSettled(SoloRun(q, ops[..n]), ops[n].e);
      }
    }
  }

  /** In every run, a poll announces a 4-tuple exactly when one of its datagrams completes a handshake and
      nothing up to the flush takes that connection out of ESTABLISHED again. */
  lemma AnnouncedExactly(q: Quad, ops: seq<Op>, arrivals: seq<Arrival>, now: nat)
    requires Served(ops)
    ensures var s := SoloRun(q, ops);
            Announces(s, q, arrivals, now) <==> SomeLasting(SoloTick(s, now), q, arrivals, now)
  {
    RunSettled(q, ops);
    hide SoloRun, Settled, Announces, SomeLasting;
    PollSettled(SoloRun(q, ops), q, arrivals, now);
  }

  // ---- missed for good ----

  lemma PollPast(s: Slot, q: Quad, arrivals: seq<Arrival>, now: nat)
    requires s.conn.Some? && Past(s.conn.value.state) && !s.announced
    ensures !Announces(s, q, arrivals, now)
    ensures var r := SoloPoll(s, q, arrivals, now);
            !r.announced && (r.conn.Some? ==> Past(r.conn.value.state))
  {
    hide SoloIngest, SoloTick, SomeLasting, SoloFlush, Announces;
    var t := SoloTick(s, now);
    TickedSlot(s, now);
    IngestKeeps(t, q, arrivals, now);
    NoneCompletes(t, q, arrivals, now);
    AnnouncesEstablished(s, q, arrivals, now);
    EstablishedAfterArrivals(t, q, arrivals, now);
    FlushPast(SoloIngest(t, q, arrivals, now), now);
  }

  lemma FlushPast(m: Slot, now: nat)
    requires m.conn.Some? && Past(m.conn.value.state) && !m.announced
    ensures var r := SoloFlush(m, now);
            r.conn.Some? && Past(r.conn.value.state) && !r.announced
  {
    hide PollTransmit;
    PollState(m.conn.value, now);
  }

  lemma CallPast(s: Slot, e: Event)
    requires s.conn.Some? && Past(s.conn.value.state) && !s.announced && !e.ReceiveEvent?
    ensures var r := SoloCall(s, e);
            !r.announced && r.conn.Some? && Past(r.conn.value.state)
  {
    hide Apply;
    CallFollowsEdges(s.conn.value, e);
    hide FinKnown;
  }

  /** The connection of the slot has lived through the operations. */
  ghost predicate Alive(s: Slot, q: Quad, ops: seq<Op>) {
    forall i :: 0 <= i < |ops| ==> AliveAt(s, q, ops, i)
  }

  predicate AliveAt(s: Slot, q: Quad, ops: seq<Op>, i: nat)
    requires i < |ops|
  {
    SoloFrom(s, q, ops[..i]).conn.Some?
  }

  /** Operation i puts the 4-tuple on the backlog. */
  predicate AnnouncesAt(s: Slot, q: Quad, ops: seq<Op>, i: nat)
    requires i < |ops|
  {
    ops[i].PollOp? && Announces(SoloFrom(s, q, ops[..i]), q, ops[i].arrivals, ops[i].now)
  }

  lemma {:induction false} StaysMissed(s: Slot, q: Quad, ops: seq<Op>)
    requires s.conn.Some? && Past(s.conn.value.state) && !s.announced && Served(ops) && Alive(s, q, ops)
    ensures var r := SoloFrom(s, q, ops);
            !r.announced && (r.conn.Some? ==> Past(r.conn.value.state))
  {
    if ops != [] {
      var n := |ops| - 1;
      ServedPrefix(ops, n);
      AlivePrefix(s, q, ops, n);
      StaysMissed(s, q, ops[..n]);
      assert AliveAt(s, q, ops, n) && ByServer(ops[n]);
      var m := SoloFrom(s, q, ops[..n]);
      hide Past, SoloPoll, SoloCall, Served, Alive;
      if ops[n].PollOp? {
        PollPast(m, q, ops[n].arrivals, ops[n].now);
      } else {
        CallPast(m, ops[n].e);
      }
    }
  }

  lemma AlivePrefix(s: Slot, q: Quad, ops: seq<Op>, n: nat)
    requires Alive(s, q, ops) && n <= |ops|
    ensures Alive(s, q, ops[..n])
  {
    hide SoloFrom;
    forall i | 0 <= i < n
      ensures AliveAt(s, q, ops[..n], i)
    {
      assert AliveAt(s, q, ops, i);
      assert ops[..n][..i] == ops[..i];
    }
  }

  /** A connection past ESTABLISHED that has not been announced never is, whatever polls and calls follow,
      for as long as it lives. */
  lemma MissedForever(s: Slot, q: Quad, ops: seq<Op>)
    requires s.conn.Some? && Past(s.conn.value.state) && !s.announced && Served(ops) && Alive(s, q, ops)
    ensures forall i :: 0 <= i < |ops| ==> !AnnouncesAt(s, q, ops, i)
    ensures !SoloFrom(s, q, ops).announced
  {
    hide Past, SoloFrom, Announces, Served, Alive;
    StaysMissed(s, q, ops);
    forall i | 0 <= i < |ops|
      ensures !AnnouncesAt(s, q, ops, i)
    {
      ServedPrefix(ops, i);
      AlivePrefix(s, q, ops, i);
      StaysMissed(s, q, ops[..i]);
      if ops[i].PollOp? {
        var m := SoloFrom(s, q, ops[..i]);
        assert m.conn.Some? by {
          AliveIs(s, q, ops, i);
        }
        PollPast(m, q, ops[i].arrivals, ops[i].now);
      }
    }
  }

  lemma AliveIs(s: Slot, q: Quad, ops: seq<Op>, i: nat)
    requires Alive(s, q, ops) && i < |ops|
    ensures SoloFrom(s, q, ops[..i]).conn.Some?
  {
    hide SoloFrom;
    assert AliveAt(s, q, ops, i);
  }

  // ---- a connection established and missed ----

  /** A passive connection waiting for its last handshake segment, without timestamps. */
  predicate Waiting(c: Conn, iss: u32, rcvNxt: u32) {
    c.state == SynRcvd && c.send.nxt == Add(iss, 1) && c.recv.nxt == rcvNxt && !c.opt.tsEnabled && c.pendingFin.None?
  }

  lemma TickWaits(c: Conn, now: nat, iss: u32, rcvNxt: u32)
    requires Waiting(c, iss, rcvNxt)
    ensures Waiting(OnTick(c, now).0, iss, rcvNxt)
  {
    hide Retransmit.RackMarkLost, Retransmit.RetransmitLast, Retransmit.Due, Segment, FlightSize, Congestion.OnTimeout,
      Rtt.Rto, Add;
    var a := TickRack(Reap(Stamped(c, now), now), now).0;
    assert Waiting(a, iss, rcvNxt);
    var b := TickProbe(a, now).0;
    assert Waiting(b, iss, rcvNxt);
    var d := TickRto(b, now).0;
    assert Waiting(d, iss, rcvNxt);
    hide TickRack, TickProbe, TickRto, Reap;
  }

  lemma AcceptWaits(syn: Seg, iss: u32, budget: Budget, now: nat)
    requires syn.flags == SYN && syn.opts.ts.None?
    ensures var r := Accept(syn, iss, budget, now);
            r.Some? && Waiting(r.value.0, iss, Add(syn.seqno, 1))
  {
    hide Add;
  }

  /** The FIN on the last segment of the handshake takes the connection from SYN_RCVD to CLOSE_WAIT in one call. */
  lemma FinWithHandshake(c: Conn, seg: Seg, env: Env, now: nat)
    requires c.state == SynRcvd && seg.flags == FIN + ACK && seg.ackno == c.send.nxt && seg.seqno == c.recv.nxt
    requires seg.payload == [] && !c.opt.tsEnabled && c.pendingFin.None?
    ensures OnSegment(c, seg, env, now).0.state == CloseWait
  {
    hide OnOpen, Retransmit.Ack;
    var c1 := Establish(Arrive(c, now), seg, now);
    assert OnSegment(c, seg, env, now) == OnOpen(c1, seg, env, now);
    FinOpens(c1, seg, env, now);
  }

  lemma FinOpens(c: Conn, seg: Seg, env: Env, now: nat)
    requires c.state == Established && seg.flags == FIN + ACK && seg.ackno == c.send.una == c.send.nxt
    requires seg.seqno == c.recv.nxt && seg.payload == [] && !c.opt.tsEnabled
    ensures OnOpen(c, seg, env, now).0.state == CloseWait
  {
    var c1 := Refresh(c, seg);
    assert AckAcceptable(c1, seg.ackno);
    hide Retransmit.MarkSacked, MaybeChallenge, OnNewAck, OnDuplicateAck, Refresh, AckAcceptable, BareAck;
  }

  lemma FirstPoll(q: Quad, syn: Arrival, now: nat)
    requires syn.quad == q && syn.seg.flags == SYN && syn.seg.opts.ts.None?
    ensures var s := SoloPoll(EMPTY_SLOT, q, [syn], now);
            s.conn.Some? && Waiting(s.conn.value, syn.iss, Add(syn.seg.seqno, 1)) && !s.announced
  {
    AcceptWaits(syn.seg, syn.iss, syn.env.budget, now);
    var c := Accept(syn.seg, syn.iss, syn.env.budget, now).value.0;
    assert PollTransmit(c, now) == (c, []);
    hide Accept, PollTransmit, Add;
    assert [syn][..0] == [];
    assert SoloIngest(EMPTY_SLOT, q, [], now) == EMPTY_SLOT;
  }

  lemma SecondPoll(s: Slot, q: Quad, fin: Arrival, now: nat, rcvNxt: u32, iss: u32)
    requires s.conn.Some? && Waiting(s.conn.value, iss, rcvNxt) && !s.announced
    requires fin.quad == q && fin.seg.flags == FIN + ACK && fin.seg.payload == []
    requires fin.seg.seqno == rcvNxt && fin.seg.ackno == Add(iss, 1)
    ensures var r := SoloPoll(s, q, [fin], now);
            InState(r, CloseWait) && !r.announced && !Announces(s, q, [fin], now)
  {
    TickWaits(s.conn.value, now, iss, rcvNxt);
    var t := SoloTick(s, now);
    FinWithHandshake(t.conn.value, fin.seg, fin.env, now);
    hide OnTick, PollTransmit, OnSegment, Add, SoloTick;
    assert [fin][..0] == [];
    assert SoloIngest(t, q, [], now) == t;
    var m := SoloIngest(t, q, [fin], now);
    assert InState(m, CloseWait);
    PollState(m.conn.value, now);
    IngestKeeps(t, q, [fin], now);
    TickedSlot(s, now);
    hide SoloIngest;
  }

  /** And that does happen, from the first poll on: a SYN in one poll, and in the next a last handshake segment
      that carries the FIN. The connection is established, never announced, and waits to be closed. */
  lemma EstablishedAndMissed(q: Quad, syn: Arrival, fin: Arrival, t1: nat, t2: nat)
    requires syn.quad == fin.quad == q
    requires syn.seg.flags == SYN && syn.seg.opts.ts.None?
    requires fin.seg.flags == FIN + ACK && fin.seg.payload == []
    requires fin.seg.seqno == Add(syn.seg.seqno, 1) && fin.seg.ackno == Add(syn.iss, 1)
    ensures var ops := [PollOp([syn], t1), PollOp([fin], t2)];
            && Served(ops) && InState(SoloRun(q, ops), CloseWait) && !SoloRun(q, ops).announced
            && Births(q, ops) == 1 && Announcements(q, ops) == 0
  {
    hide SoloPoll, Waiting, Add, SoloPumped, Has;
    var ops := [PollOp([syn], t1), PollOp([fin], t2)];
    FirstPoll(q, syn, t1);
    var s := SoloPoll(EMPTY_SLOT, q, [syn], t1);
    SecondPoll(s, q, fin, t2, Add(syn.seg.seqno, 1), syn.iss);
    assert ops[..1] == [PollOp([syn], t1)] && ops[..1][..0] == [];
    RunStep(q, ops);
    RunStep(q, ops[..1]);
    AnnouncementsBounded(q, ops);
    AnnouncementsBounded(q, ops[..1]);
    AnnouncementsBounded(q, []);
    assert Births(q, ops) <= 1;
  }
}
