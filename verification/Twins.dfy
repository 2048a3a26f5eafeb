/** A connection and its translate take the same steps: every call keeps them translates of each other and
    puts translates on the wire. No input is assumed honest. */
module Twins {
  import opened Types
  import opened SeqNum
  import opened Segments
  import opened Connection
  import opened Calls
  import opened Lifecycle
  import opened AckField
  import opened NewReno
  import opened Translation
  import Retransmit
  import Reassembly
  import Congestion
  import Rtt

  function TurnFin(f: Option<u32>, j: u32): Option<u32> {
    if f.Some? then Some(Add(f.value, j)) else None
  }

  /** d is c with its own numbers turned by k and its peer's by j. In SYN_SENT nothing is known of the peer's. */
  predicate Twin(c: Conn, d: Conn, k: u32, j: u32) {
    && d.send == c.send.(iss := Add(c.send.iss, k), una := Add(c.send.una, k), nxt := Add(c.send.nxt, k))
    && TwinQueue(c.retx, d.retx, k, j) && d.recover == Add(c.recover, k) && d.pendingFin == TurnFin(c.pendingFin, j)
    && d.recv.wnd == c.recv.wnd && (c.state != SynSent ==> TwinReceiver(c, d, j))
    && d == c.(send := d.send, retx := d.retx, recover := d.recover, pendingFin := d.pendingFin, recv := d.recv,
               reasm := d.reasm)
  }

  predicate TwinReceiver(c: Conn, d: Conn, j: u32) {
    && d.recv == c.recv.(irs := Add(c.recv.irs, j), nxt := Add(c.recv.nxt, j))
    && TwinReasm(c.reasm, d.reasm, j)
  }

  /** Twin outcomes of a call: twin connections and translated output. */
  predicate TwinStep(r: (Conn, seq<Seg>), t: (Conn, seq<Seg>), k: u32, j: u32) {
    Twin(r.0, t.0, k, j) && t.1 == TurnSegs(r.1, k, j)
  }

  predicate TwinReply(r: (Conn, Option<Seg>), t: (Conn, Option<Seg>), k: u32, j: u32) {
    Twin(r.0, t.0, k, j) && t.1 == TurnOut(r.1, k, j)
  }

  predicate TwinStage(r: (Conn, Option<Seg>, bool), t: (Conn, Option<Seg>, bool), k: u32, j: u32) {
    Twin(r.0, t.0, k, j) && t.1 == TurnOut(r.1, k, j) && t.2 == r.2
  }

  // ---- segments ----

  lemma NoBlocks(j: u32)
    ensures TurnBlocks([], j) == []
  {
  }

  lemma SegmentTwin(c: Conn, d: Conn, seqno: u32, ackno: u32, flags: byte, payload: seq<byte>, k: u32, j: u32)
    requires Twin(c, d, k, j) && Has(flags, ACK)
    ensures Segment(d, Add(seqno, k), Add(ackno, j), flags, payload) == TurnSeg(Segment(c, seqno, ackno, flags, payload), k, j)
  {
    NoBlocks(j);
    hide Add, Has, TwinQueue, TwinReceiver, TurnBlocks;
  }

  lemma BareAckTwin(c: Conn, d: Conn, k: u32, j: u32)
    requires Twin(c, d, k, j) && c.state != SynSent
    ensures BareAck(d) == TurnSeg(BareAck(c), k, j)
  {
    SegmentTwin(c, d, c.send.nxt, c.recv.nxt, ACK, [], k, j);
    hide Add, Segment, TurnSeg, TwinQueue;
  }

  lemma AckBlocksTwin(c: Conn, d: Conn, k: u32, j: u32)
    requires Twin(c, d, k, j) && c.state != SynSent
    ensures BareAck(d).(opts := AckOptions(d)) == TurnSeg(BareAck(c).(opts := AckOptions(c)), k, j)
  {
    SackBlocksTwin(c.reasm, d.reasm, j);
    NoBlocks(j);
    hide Add, TwinQueue, TurnBlocks, FirstBlocks, Reassembly.SackBlocks;
  }

  // ---- replies to segments ----

  lemma ChallengeTwin(c: Conn, d: Conn, env: Env, now: nat, k: u32, j: u32)
    requires Twin(c, d, k, j) && c.state != SynSent
    ensures TwinReply(MaybeChallenge(c, env, now), MaybeChallenge(d, env, now), k, j)
  {
    hide Add, TwinQueue, BareAck, TurnSeg, TwinReasm;
    ChallengeShape(c, env, now);
    ChallengeShape(d, env, now);
    var c1, d1 := MaybeChallenge(c, env, now).0, MaybeChallenge(d, env, now).0;
    hide MaybeChallenge;
    assert Twin(c1, d1, k, j);
    BareAckTwin(c1, d1, k, j);
  }

  lemma ChallengeShape(c: Conn, env: Env, now: nat)
    ensures var r := MaybeChallenge(c, env, now);
            && r.0 == c.(clock := r.0.clock)
            && r.0.clock == MaybeChallengeClock(c.clock, env, now).0
            && r.1 == if MaybeChallengeClock(c.clock, env, now).1 then Some(BareAck(r.0)) else None
  {
    hide Low32, Has;
  }

  /** The budget and whether it allows one more. */
  function MaybeChallengeClock(k: Clock, env: Env, now: nat): (Clock, bool) {
    var k := if SatSub(now, k.challengeWindowMs) >= CHALLENGE_WINDOW_MS || now < k.challengeWindowMs
             then k.(challengeWindowMs := now, challengeBudget := env.budget) else k;
    if k.challengeBudget == 0 then (k, false) else (k.(challengeBudget := k.challengeBudget - 1), true)
  }

  lemma RstTwin(c: Conn, d: Conn, p: Seg, env: Env, now: nat, k: u32, j: u32)
    requires Twin(c, d, k, j) && c.state != SynSent
    ensures TwinReply(OnRst(c, p, env, now), OnRst(d, TurnSeg(p, j, k), env, now), k, j)
  {
    ChallengeTwin(c, d, env, now, k, j);
    TurnOrder(p.seqno, c.recv.nxt, j);
    TurnAdd(c.recv.nxt, c.recv.wnd, j);
    TurnOrder(p.seqno, Add(c.recv.nxt, c.recv.wnd), j);
    hide Add, Before, TwinQueue, MaybeChallenge, Has, TwinReasm;
  }

  lemma SynSentTwin(c: Conn, d: Conn, p: Seg, now: nat, k: u32, j: u32)
    requires Twin(c, d, k, j) && c.state == SynSent
    ensures TwinReply(OnSynSent(c, p, now), OnSynSent(d, TurnSeg(p, j, k), now), k, j)
  {
    TurnOrder(p.ackno, c.send.nxt, k);
    TurnAdd(p.seqno, 1, j);
    AckTwin(c.retx, d.retx, p.ackno, now, k, j);
    hide Add, TwinQueue, BareAck, Has, Retransmit.Ack, TurnBlocks;
    if Has(p.flags, SYN) && Has(p.flags, ACK) && p.ackno == c.send.nxt {
      var c1, d1 := OnSynSent(c, p, now).0, OnSynSent(d, TurnSeg(p, j, k), now).0;
      assert Twin(c1, d1, k, j);
      BareAckTwin(c1, d1, k, j);
    }
  }

  lemma EstablishTwin(c: Conn, d: Conn, p: Seg, now: nat, k: u32, j: u32)
    requires Twin(c, d, k, j) && c.state == SynRcvd && Has(p.flags, ACK)
    ensures Twin(Establish(c, p, now), Establish(d, TurnSeg(p, j, k), now), k, j)
  {
    AckTwin(c.retx, d.retx, p.ackno, now, k, j);
    hide Add, TwinQueue, Has, Retransmit.Ack, TurnBlocks, TwinReceiver;
    assert TwinReceiver(Establish(c, p, now), Establish(d, TurnSeg(p, j, k), now), j) by { ReceiverStands(c, d, j); }
  }

  /** Twin receivers stay twins while their fields stand. */
  lemma ReceiverStands(c: Conn, d: Conn, j: u32)
    requires TwinReceiver(c, d, j)
    ensures forall c1: Conn, d1: Conn :: c1.recv == c.recv && c1.reasm == c.reasm && d1.recv == d.recv && d1.reasm == d.reasm ==>
              TwinReceiver(c1, d1, j)
  {
  }

  lemma RefreshTwin(c: Conn, d: Conn, p: Seg, k: u32, j: u32)
    requires Twin(c, d, k, j) && c.state != SynSent
    ensures Twin(Refresh(c, p), Refresh(d, TurnSeg(p, j, k)), k, j)
    ensures Paws(d, TurnSeg(p, j, k)) == Paws(c, p)
  {
    TurnOrder(p.seqno, c.recv.nxt, j);
    hide Add, After, Before, TwinQueue, Scaled, TurnBlocks, TwinReasm, Has;
  }

  lemma AcceptableTwin(c: Conn, d: Conn, ack: u32, k: u32, j: u32)
    requires Twin(c, d, k, j)
    ensures AckAcceptable(d, Add(ack, k)) == AckAcceptable(c, ack)
  {
    TurnBack(c.send.una, c.send.maxWnd, k);
    TurnOrder(ack, Sub(c.send.una, c.send.maxWnd), k);
    TurnOrder(ack, c.send.nxt, k);
    hide Add, Sub, Before, After, TwinQueue, TwinReceiver;
  }

  lemma MarkedTwin(c: Conn, d: Conn, p: Seg, k: u32, j: u32)
    requires Twin(c, d, k, j)
    ensures Twin(Marked(c, p), Marked(d, TurnSeg(p, j, k)), k, j)
  {
    MarkTwin(c.retx, d.retx, p.opts.sack, |c.retx.segs|, k, j);
    assert |d.retx.segs| == |c.retx.segs|;
    hide Add, TwinQueue, Has, Retransmit.MarkUpTo, TurnBlocks, TwinReasm;
  }

  lemma AckSampleTwin(c: Conn, d: Conn, p: Seg, now: nat, k: u32, j: u32)
    requires Twin(c, d, k, j) && Has(p.flags, ACK)
    ensures AckSample(d, TurnSeg(p, j, k), now) == AckSample(c, p, now)
  {
    AckTwin(c.retx, d.retx, p.ackno, now, k, j);
    hide Add, Sub, TwinQueue, Has, Retransmit.Ack, TurnBlocks, TwinReceiver;
  }

  lemma AckedTwin(c: Conn, d: Conn, p: Seg, now: nat, k: u32, j: u32)
    requires Twin(c, d, k, j) && Has(p.flags, ACK)
    ensures Twin(Acked(c, p, now), Acked(d, TurnSeg(p, j, k), now), k, j)
  {
    AckSampleTwin(c, d, p, now, k, j);
    AckTwin(c.retx, d.retx, p.ackno, now, k, j);
    hide Add, TwinQueue, Has, Retransmit.Ack, TurnBlocks, TwinReasm, AckSample, Rtt.Sample;
  }

  lemma WithCong(c: Conn, d: Conn, cong: Congestion.Control, k: u32, j: u32)
    requires Twin(c, d, k, j)
    ensures Twin(c.(cong := cong), d.(cong := cong), k, j)
  {
    hide TwinQueue, Add, TwinReasm;
  }

  lemma HoleTwin(c: Conn, d: Conn, now: nat, k: u32, j: u32)
    requires Twin(c, d, k, j)
    ensures TwinStage(RetransmitHole(c, now), RetransmitHole(d, now), k, j)
  {
    FirstTwin(c.retx.segs, 0, k, j);
    ResendTwin(c.retx, d.retx, Retransmit.FirstUnsacked(c.retx.segs, 0), now, k, j);
    assert d.retx.segs == TurnQueue(c.retx.segs, k, j);
    hide Add, TwinQueue, Retransmit.FirstUnsacked, Retransmit.Resend, TwinReasm, TurnQueue;
  }

  lemma NewAckTwin(c: Conn, d: Conn, p: Seg, env: Env, now: nat, k: u32, j: u32)
    requires Twin(c, d, k, j) && Has(p.flags, ACK)
    ensures TwinStage(OnNewAck(c, p, env, now), OnNewAck(d, TurnSeg(p, j, k), env, now), k, j)
  {
    var q := TurnSeg(p, j, k);
    AckedTwin(c, d, p, now, k, j);
    AckSampleTwin(c, d, p, now, k, j);
    TurnSub(p.ackno, c.send.una, k);
    TurnOrder(p.ackno, c.recover, k);
    assert q.ackno == Add(p.ackno, k) && d.cong == c.cong && d.recover == Add(c.recover, k) && d.send.una == Add(c.send.una, k);
    hide Add, Sub, Before, Acked, AckSample, Twin, RetransmitHole, TurnSeg, Has, Congestion.OnAck,
      Congestion.OnPartialAck;
    var acked := Sub(p.ackno, c.send.una);
    var part := Congestion.OnPartialAck(c.cong, acked);
    WithCong(Acked(c, p, now), Acked(d, q, now), part, k, j);
    HoleTwin(Acked(c, p, now).(cong := part), Acked(d, q, now).(cong := part), now, k, j);
    WithCong(Acked(c, p, now), Acked(d, q, now), Congestion.OnAck(c.cong, acked, AckSample(c, p, now), env.curve, now), k, j);
  }

  lemma DuplicateTwin(c: Conn, d: Conn, now: nat, k: u32, j: u32)
    requires Twin(c, d, k, j)
    ensures TwinStage(OnDuplicateAck(c, now), OnDuplicateAck(d, now), k, j)
  {
    var cut := Congestion.OnDupAck(c.cong);
    hide Add, TwinQueue, TwinReasm, Congestion.OnDupAck, RetransmitHole;
    if cut.1 {
      HoleTwin(c.(cong := cut.0, recover := c.send.nxt), d.(cong := cut.0, recover := d.send.nxt), now, k, j);
    }
  }

  lemma AckFieldTwin(c: Conn, d: Conn, p: Seg, prevWnd: u32, env: Env, now: nat, k: u32, j: u32)
    requires Twin(c, d, k, j) && Has(p.flags, ACK) && c.state != SynSent
    ensures TwinStage(OnAckField(c, p, prevWnd, env, now), OnAckField(d, TurnSeg(p, j, k), prevWnd, env, now), k, j)
  {
    var q := TurnSeg(p, j, k);
    assert q.ackno == Add(p.ackno, k) && q.payload == p.payload;
    AcceptableTwin(c, d, p.ackno, k, j);
    ChallengeTwin(c, d, env, now, k, j);
    MarkedTwin(c, d, p, k, j);
    var m, n := Marked(c, p), Marked(d, q);
    NewAckTwin(m, n, p, env, now, k, j);
    DuplicateTwin(m, n, now, k, j);
    TurnBetween(c.send.una, p.ackno, c.send.nxt, k);
    TurnOrder(p.ackno, c.send.una, k);
    TurnOrder(c.send.nxt, c.send.una, k);
    AckFieldUnfold(c, p, prevWnd, env, now);
    AckFieldUnfold(d, q, prevWnd, env, now);
    assert d.send.una == Add(c.send.una, k) && d.send.nxt == Add(c.send.nxt, k) && d.send.wnd == c.send.wnd;
    hide Add, Between, AckAcceptable, Marked, OnNewAck, OnDuplicateAck, MaybeChallenge, OnAckField, Twin, TurnSeg, Has;
  }

  lemma DeliverTwin(c: Conn, d: Conn, seqno: u32, payload: seq<byte>, k: u32, j: u32)
    requires Twin(c, d, k, j) && c.state != SynSent
    ensures Twin(Deliver(c, seqno, payload), Deliver(d, Add(seqno, j), payload), k, j)
    ensures Deliver(c, seqno, payload).state == c.state
  {
    RecvTwin(c.reasm, d.reasm, seqno, payload, c.recv.nxt, j);
    TurnAdd(c.recv.nxt, Low32(|Reassembly.Recv(c.reasm, seqno, payload, c.recv.nxt).1|), j);
    hide Add, Low32, TwinQueue, Reassembly.Recv;
  }

  lemma WithFin(c: Conn, d: Conn, f: Option<u32>, k: u32, j: u32)
    requires Twin(c, d, k, j)
    ensures Twin(c.(pendingFin := f), d.(pendingFin := TurnFin(f, j)), k, j)
  {
    hide TwinQueue, Add, TwinReasm;
  }

  lemma FinConsumedTwin(c: Conn, d: Conn, state: State, k: u32, j: u32)
    requires Twin(c, d, k, j) && c.state != SynSent && state != SynSent
    ensures Twin(c.(recv := c.recv.(nxt := Add(c.recv.nxt, 1)), peerFin := true, state := state),
                 d.(recv := d.recv.(nxt := Add(d.recv.nxt, 1)), peerFin := true, state := state), k, j)
  {
    TurnAdd(c.recv.nxt, 1, j);
    hide TwinQueue, Add, TwinReasm;
  }

  lemma TextTailTwin(c: Conn, d: Conn, p: Seg, k: u32, j: u32)
    requires Twin(c, d, k, j) && c.state != SynSent
    ensures TwinReply(TextTail(c, p), TextTail(d, TurnSeg(p, j, k)), k, j)
  {
    var q := TurnSeg(p, j, k);
    var fin := Add(p.seqno, Low32(|p.payload|));
    TurnAdd(p.seqno, Low32(|p.payload|), j);
    assert Add(q.seqno, Low32(|q.payload|)) == Add(fin, j) && q.payload == p.payload && q.flags == p.flags;
    TurnOrder(fin, c.recv.nxt, j);
    assert d.recv.nxt == Add(c.recv.nxt, j) && d.state == c.state;
    BareAckTwin(c, d, k, j);
    var f := if Has(p.flags, FIN) && c.state == Established && !Before(fin, c.recv.nxt) then Some(fin) else c.pendingFin;
    var c1, d1 := c.(pendingFin := f), d.(pendingFin := TurnFin(f, j));
    WithFin(c, d, f, k, j);
    assert d.pendingFin == TurnFin(c.pendingFin, j);
    TextTailUnfold(c, p, f);
    TextTailUnfold(d, q, TurnFin(f, j));
    hide Twin, Low32, Has, TextTail, TurnSeg, BareAck;
    AfterFinTwin(c1, d1, p.payload, k, j);
    hide Add, Before, After;
  }

  lemma TextTailUnfold(c: Conn, s: Seg, f: Option<u32>)
    requires var fin := Add(s.seqno, Low32(|s.payload|));
             f == if Has(s.flags, FIN) && c.state == Established && !Before(fin, c.recv.nxt) then Some(fin) else c.pendingFin
    ensures var fin := Add(s.seqno, Low32(|s.payload|));
            TextTail(c, s) ==
            if Has(s.flags, FIN) && c.state == CloseWait && !After(fin, c.recv.nxt) then (c, Some(BareAck(c)))
            else AfterFin(c.(pendingFin := f), s.payload)
  {
    hide Add, Low32, Before, After, Has, BareAck, AckOptions;
  }

  /** The tail of `TextTail` once a FIN may be pending. */
  function AfterFin(c: Conn, payload: seq<byte>): (Conn, Option<Seg>) {
    if c.state == Established && c.pendingFin == Some(c.recv.nxt) then
      var c := c.(recv := c.recv.(nxt := Add(c.recv.nxt, 1)), pendingFin := None, peerFin := true, state := CloseWait);
      (c, Some(BareAck(c)))
    else if payload != [] then (c, Some(BareAck(c).(opts := AckOptions(c))))
    else (c, None)
  }

  lemma AfterFinTwin(c: Conn, d: Conn, payload: seq<byte>, k: u32, j: u32)
    requires Twin(c, d, k, j) && c.state != SynSent
    ensures TwinReply(AfterFin(c, payload), AfterFin(d, payload), k, j)
  {
    AckBlocksTwin(c, d, k, j);
    if c.pendingFin.Some? {
      TurnOrder(c.pendingFin.value, c.recv.nxt, j);
    }
    assert d.state == c.state && d.recv.nxt == Add(c.recv.nxt, j) && d.pendingFin == TurnFin(c.pendingFin, j);
    hide Twin, BareAck, AckOptions, TurnSeg;
    if c.state == Established && c.pendingFin == Some(c.recv.nxt) {
      FinConsumedTwin(c, d, CloseWait, k, j);
      var c1 := c.(recv := c.recv.(nxt := Add(c.recv.nxt, 1)), peerFin := true, state := CloseWait);
      var d1 := d.(recv := d.recv.(nxt := Add(d.recv.nxt, 1)), peerFin := true, state := CloseWait);
      WithFin(c1, d1, None, k, j);
      BareAckTwin(c1.(pendingFin := None), d1.(pendingFin := None), k, j);
    }
    hide Add;
  }

  lemma TextTwin(c: Conn, d: Conn, p: Seg, k: u32, j: u32)
    requires Twin(c, d, k, j) && c.state != SynSent
    ensures TwinReply(OnText(c, p), OnText(d, TurnSeg(p, j, k)), k, j)
  {
    DeliverTwin(c, d, p.seqno, p.payload, k, j);
    hide Twin, Deliver, TextTail, Add, Has, TurnBlocks;
    TextTailTwin(Deliver(c, p.seqno, p.payload), Deliver(d, Add(p.seqno, j), p.payload), p, k, j);
  }

  lemma OpenTwin(c: Conn, d: Conn, p: Seg, env: Env, now: nat, k: u32, j: u32)
    requires Twin(c, d, k, j) && (c.state == Established || c.state == CloseWait)
    ensures TwinReply(OnOpen(c, p, env, now), OnOpen(d, TurnSeg(p, j, k), env, now), k, j)
  {
    var q := TurnSeg(p, j, k);
    assert q.flags == p.flags && d.send.wnd == c.send.wnd;
    RefreshTwin(c, d, p, k, j);
    BareAckTwin(c, d, k, j);
    var c1, d1 := Refresh(c, p), Refresh(d, q);
    assert c1.state == c.state by { hide Scaled, After; }
    hide Twin, Refresh, Paws, OnAckField, OnText, Has, BareAck, TurnSeg;
    if Has(p.flags, ACK) {
      AckFieldTwin(c1, d1, p, c.send.wnd, env, now, k, j);
      var r, t := OnAckField(c1, p, c.send.wnd, env, now), OnAckField(d1, q, c.send.wnd, env, now);
      AckFieldState(c1, p, c.send.wnd, env, now);
      TextTwin(r.0, t.0, p, k, j);
    } else {
      TextTwin(c1, d1, p, k, j);
    }
  }

  lemma AckFieldState(c: Conn, s: Seg, prevWnd: u32, env: Env, now: nat)
    ensures OnAckField(c, s, prevWnd, env, now).0.state == c.state
  {
    AckFieldHandled(c, s, prevWnd, env, now);
    hide OnAckField, Handled;
  }

  lemma LingerTwin(c: Conn, d: Conn, now: nat, k: u32, j: u32)
    requires Twin(c, d, k, j) && c.state != SynSent
    ensures Twin(Linger(c, now), Linger(d, now), k, j)
  {
    hide TwinQueue, Add, TwinReasm;
  }

  lemma WithState(c: Conn, d: Conn, state: State, k: u32, j: u32)
    requires Twin(c, d, k, j) && c.state != SynSent
    ensures Twin(c.(state := state), d.(state := state), k, j)
  {
    hide TwinQueue, Add, TwinReasm;
  }

  lemma QueueAckedTwin(c: Conn, d: Conn, p: Seg, now: nat, k: u32, j: u32)
    requires Twin(c, d, k, j) && Has(p.flags, ACK)
    ensures Twin(c.(retx := Retransmit.Ack(c.retx, p.ackno, now).0),
                 d.(retx := Retransmit.Ack(d.retx, TurnSeg(p, j, k).ackno, now).0), k, j)
  {
    AckTwin(c.retx, d.retx, p.ackno, now, k, j);
    hide Add, TwinQueue, Has, Retransmit.Ack, TurnBlocks, TwinReasm;
  }

  lemma FinTailTwin(c: Conn, d: Conn, p: Seg, finAcked: bool, now: nat, k: u32, j: u32)
    requires Twin(c, d, k, j) && c.state != SynSent
    ensures TwinReply(FinTail(c, p, finAcked, now), FinTail(d, TurnSeg(p, j, k), finAcked, now), k, j)
  {
    var q := TurnSeg(p, j, k);
    var fin := Add(p.seqno, Low32(|p.payload|));
    TurnAdd(p.seqno, Low32(|p.payload|), j);
    assert Add(q.seqno, Low32(|q.payload|)) == Add(fin, j) && q.payload == p.payload && q.flags == p.flags;
    TurnOrder(fin, c.recv.nxt, j);
    assert d.recv.nxt == Add(c.recv.nxt, j) && d.state == c.state;
    BareAckTwin(c, d, k, j);
    hide Low32, Has, TurnSeg, BareAck;
    FinConsumedTwin(c, d, c.state, k, j);
    var c1 := c.(recv := c.recv.(nxt := Add(c.recv.nxt, 1)), peerFin := true);
    var d1 := d.(recv := d.recv.(nxt := Add(d.recv.nxt, 1)), peerFin := true);
    assert c1.(state := c.state) == c1 && d1.(state := c.state) == d1;
    hide Twin, Add;
    BareAckTwin(c1, d1, k, j);
    LingerTwin(c1, d1, now, k, j);
    WithState(c1, d1, Closing, k, j);
    WithState(c, d, FinWait2, k, j);
  }

  lemma FinWait1Twin(c: Conn, d: Conn, p: Seg, now: nat, k: u32, j: u32)
    requires Twin(c, d, k, j) && c.state != SynSent
    ensures TwinReply(OnFinWait1(c, p, now), OnFinWait1(d, TurnSeg(p, j, k), now), k, j)
  {
    var q := TurnSeg(p, j, k);
    TurnOrder(p.ackno, c.send.nxt, k);
    assert q.flags == p.flags && q.payload == p.payload && q.seqno == Add(p.seqno, j);
    assert d.send.nxt == Add(c.send.nxt, k);
    assert Has(p.flags, ACK) ==> q.ackno == Add(p.ackno, k);
    var finAcked := Has(p.flags, ACK) && p.ackno == c.send.nxt;
    hide Twin, TurnSeg, Add, Has, Deliver, FinTail, Retransmit.Ack;
    var c1, d1 := c, d;
    if finAcked {
      QueueAckedTwin(c, d, p, now, k, j);
      c1 := c.(retx := Retransmit.Ack(c.retx, p.ackno, now).0);
      d1 := d.(retx := Retransmit.Ack(d.retx, q.ackno, now).0);
    }
    DeliverTwin(c1, d1, p.seqno, p.payload, k, j);
    FinTailTwin(Deliver(c1, p.seqno, p.payload), Deliver(d1, q.seqno, p.payload), p, finAcked, now, k, j);
  }

  lemma FinWait2Twin(c: Conn, d: Conn, p: Seg, now: nat, k: u32, j: u32)
    requires Twin(c, d, k, j) && c.state != SynSent
    ensures TwinReply(OnFinWait2(c, p, now), OnFinWait2(d, TurnSeg(p, j, k), now), k, j)
  {
    var q := TurnSeg(p, j, k);
    assert q.payload == p.payload && q.seqno == Add(p.seqno, j);
    hide Twin, TurnSeg, Add, Has, Deliver, FinTail;
    DeliverTwin(c, d, p.seqno, p.payload, k, j);
    FinTailTwin(Deliver(c, p.seqno, p.payload), Deliver(d, q.seqno, p.payload), p, true, now, k, j);
  }

  lemma LastTwins(c: Conn, d: Conn, p: Seg, now: nat, k: u32, j: u32)
    requires Twin(c, d, k, j) && c.state != SynSent
    ensures Twin(OnLastAck(c, p, now), OnLastAck(d, TurnSeg(p, j, k), now), k, j)
    ensures Twin(OnClosing(c, p, now), OnClosing(d, TurnSeg(p, j, k), now), k, j)
  {
    var q := TurnSeg(p, j, k);
    TurnOrder(p.ackno, c.send.nxt, k);
    assert q.flags == p.flags && d.send.nxt == Add(c.send.nxt, k);
    assert Has(p.flags, ACK) ==> q.ackno == Add(p.ackno, k);
    hide Twin, TurnSeg, Add, Has, Retransmit.Ack;
    if Has(p.flags, ACK) && p.ackno == c.send.nxt {
      QueueAckedTwin(c, d, p, now, k, j);
      var c1 := c.(retx := Retransmit.Ack(c.retx, p.ackno, now).0);
      var d1 := d.(retx := Retransmit.Ack(d.retx, q.ackno, now).0);
      WithState(c1, d1, Closed, k, j);
      LingerTwin(c1, d1, now, k, j);
      hide Linger;
    }
  }

  lemma SyncedTwin(c: Conn, d: Conn, p: Seg, env: Env, now: nat, k: u32, j: u32)
    requires Twin(c, d, k, j) && c.state != SynSent
    ensures TwinReply(OnSynced(c, p, env, now), OnSynced(d, TurnSeg(p, j, k), env, now), k, j)
  {
    assert d.state == c.state;
    hide Twin, TurnSeg, OnOpen, OnFinWait1, OnFinWait2, OnLastAck, OnClosing;
    SyncedCases(c, p, env, now);
    SyncedCases(d, TurnSeg(p, j, k), env, now);
    hide OnSynced;
    if c.state == Established || c.state == CloseWait {
      OpenTwin(c, d, p, env, now, k, j);
    } else if c.state == FinWait1 {
      FinWait1Twin(c, d, p, now, k, j);
    } else if c.state == FinWait2 {
      FinWait2Twin(c, d, p, now, k, j);
    } else if c.state == LastAck || c.state == Closing {
      LastTwins(c, d, p, now, k, j);
    }
  }

  lemma SyncedCases(c: Conn, s: Seg, env: Env, now: nat)
    ensures var r := OnSynced(c, s, env, now);
            if c.state == Established || c.state == CloseWait then r == OnOpen(c, s, env, now)
            else if c.state == LastAck then r == (OnLastAck(c, s, now), None)
            else if c.state == FinWait1 then r == OnFinWait1(c, s, now)
            else if c.state == FinWait2 then r == OnFinWait2(c, s, now)
            else if c.state == Closing then r == (OnClosing(c, s, now), None)
            else r == (c, None)
  {
    hide OnOpen, OnFinWait1, OnFinWait2, OnLastAck, OnClosing;
  }

  lemma ArriveTwin(c: Conn, d: Conn, now: nat, k: u32, j: u32)
    requires Twin(c, d, k, j)
    ensures Twin(Arrive(c, now), Arrive(d, now), k, j) && Twin(Stamped(c, now), Stamped(d, now), k, j)
  {
    hide TwinQueue, Add, TwinReasm, Low32;
  }

  /** Any segment, forged or not, but a RST in SYN_SENT: it closes a connection that knows nothing of the
      peer's numbers yet. */
  lemma HeardTwin(c: Conn, d: Conn, p: Seg, env: Env, now: nat, k: u32, j: u32)
    requires Twin(c, d, k, j) && !(c.state == SynSent && Has(p.flags, RST))
    ensures TwinReply(OnSegment(c, p, env, now), OnSegment(d, TurnSeg(p, j, k), env, now), k, j)
  {
    var q := TurnSeg(p, j, k);
    var c1, d1 := Arrive(c, now), Arrive(d, now);
    ArriveTwin(c, d, now, k, j);
    TurnOrder(p.ackno, c.send.nxt, k);
    assert q.flags == p.flags && d1.state == c1.state == c.state && d1.send.nxt == Add(c1.send.nxt, k) && c1.send.nxt == c.send.nxt;
    assert Has(p.flags, ACK) ==> q.ackno == Add(p.ackno, k);
    hide Arrive, Twin, TurnSeg, Add, Has, OnRst, OnSynSent, OnSynced, MaybeChallenge, Establish;
    if Has(p.flags, RST) {
      RstTwin(c1, d1, p, env, now, k, j);
    } else if c.state == SynSent {
      SynSentTwin(c1, d1, p, now, k, j);
    } else if Has(p.flags, SYN) && Synchronized(c.state) {
      ChallengeTwin(c1, d1, env, now, k, j);
    } else if c.state == SynRcvd {
      if Has(p.flags, ACK) && p.ackno == c.send.nxt {
        EstablishTwin(c1, d1, p, now, k, j);
        EstablishedState(c1, p, now);
        SyncedTwin(Establish(c1, p, now), Establish(d1, q, now), p, env, now, k, j);
      }
    } else {
      SyncedTwin(c1, d1, p, env, now, k, j);
    }
  }

  lemma EstablishedState(c: Conn, p: Seg, now: nat)
    ensures Establish(c, p, now).state == Established
  {
    hide Retransmit.Ack;
  }

  // ---- transmission ----

  lemma TransmitTwin(c: Conn, d: Conn, n: nat, flags: byte, now: nat, k: u32, j: u32)
    requires Twin(c, d, k, j) && c.state != SynSent && n <= |c.sendBuf| && Has(flags, ACK)
    ensures |d.sendBuf| == |c.sendBuf|
    ensures Twin(Transmit(c, n, flags, now).0, Transmit(d, n, flags, now).0, k, j)
    ensures Transmit(d, n, flags, now).1 == TurnSeg(Transmit(c, n, flags, now).1, k, j)
    ensures Transmit(c, n, flags, now).0.state == c.state
  {
    SegmentTwin(c, d, c.send.nxt, c.recv.nxt, flags, c.sendBuf[..n], k, j);
    TurnAdd(c.send.nxt, Low32(n), k);
    TurnBack(Add(c.send.nxt, Low32(n)), Low32(n), k);
    var end := Add(c.send.nxt, Low32(n));
    TurnAppend(c.retx.segs, Retransmit.Unacked(Sub(end, Low32(n)), end, Transmit(c, n, flags, now).1, now, 0, false), k, j);
    hide Add, Sub, Low32, Segment, TurnSeg, TwinReasm, TurnQueue, Has;
  }

  lemma {:induction false} FillHolesTwin(q: Retransmit.Retx, r: Retransmit.Retx, limit: u32, now: nat, k: u32, j: u32)
    requires TwinQueue(q, r, k, j)
    ensures TwinQueue(FillHoles(q, limit, now).0, FillHoles(r, limit, now).0, k, j)
    ensures FillHoles(r, limit, now).1 == TurnSegs(FillHoles(q, limit, now).1, k, j)
    decreases Retransmit.NeverResent(q.segs)
  {
    var at := Retransmit.NextUntried(q.segs, 0);
    PipeTwin(q.segs, |q.segs|, k, j);
    UntriedTwin(q.segs, 0, k, j);
    assert r.segs == TurnQueue(q.segs, k, j);
    hide Retransmit.PipeUpTo, Add, TurnSeg, TurnQueue, TurnSegs, TwinQueue;
    if Retransmit.Pipe(q) < limit && at.Some? {
      Retransmit.NeverResentDrops(q.segs, at.value, now);
      ResendTwin(q, r, at, now, k, j);
      var q1, r1 := Retransmit.NextLostRetransmit(q, now), Retransmit.NextLostRetransmit(r, now);
      assert q1 == Retransmit.Resend(q, at, now) && r1 == Retransmit.Resend(r, at, now);
      FillHolesTwin(q1.0, r1.0, limit, now, k, j);
      HolesUnfold(q, limit, now);
      HolesUnfold(r, limit, now);
      TurnFirst(q1.1.value, FillHoles(q1.0, limit, now).1, k, j);
      hide FillHoles;
    } else {
      TurnNone(k, j);
    }
  }

  lemma TurnNone(k: u32, j: u32)
    ensures TurnSegs([], k, j) == []
  {
  }

  lemma TurnFirst(p: Seg, ps: seq<Seg>, k: u32, j: u32)
    ensures TurnSegs([p] + ps, k, j) == [TurnSeg(p, k, j)] + TurnSegs(ps, k, j)
  {
    hide TurnSeg;
  }

  lemma HolesUnfold(q: Retransmit.Retx, limit: u32, now: nat)
    requires Retransmit.Pipe(q) < limit && Retransmit.NextUntried(q.segs, 0).Some?
    ensures var r := Retransmit.NextLostRetransmit(q, now);
            r.1.Some? && FillHoles(q, limit, now) == (FillHoles(r.0, limit, now).0, [r.1.value] + FillHoles(r.0, limit, now).1)
  {
    hide Retransmit.Pipe;
  }

  lemma PipeSame(c: Conn, d: Conn, k: u32, j: u32)
    requires Twin(c, d, k, j)
    ensures Retransmit.Pipe(d.retx) == Retransmit.Pipe(c.retx) && d.opt == c.opt && d.sendBuf == c.sendBuf
  {
    PipeTwin(c.retx.segs, |c.retx.segs|, k, j);
    hide Retransmit.PipeUpTo, Add, TurnEntry, TwinReasm;
  }

  lemma {:induction false} FillPipeTwin(c: Conn, d: Conn, limit: u32, now: nat, k: u32, j: u32)
    requires Twin(c, d, k, j) && c.state != SynSent
    ensures TwinStep(FillPipe(c, limit, now), FillPipe(d, limit, now), k, j)
    decreases |c.sendBuf|
  {
    PipeSame(c, d, k, j);
    var pipe := Retransmit.Pipe(c.retx);
    hide Retransmit.Pipe, Twin, TurnSeg, TurnSegs, Transmit;
    if c.sendBuf != [] && pipe < limit && Min(Min(limit - pipe, c.opt.sendMss), |c.sendBuf|) != 0 {
      var n := Min(Min(limit - pipe, c.opt.sendMss), |c.sendBuf|);
      TransmitTwin(c, d, n, PSH + ACK, now, k, j);
      var t, u := Transmit(c, n, PSH + ACK, now), Transmit(d, n, PSH + ACK, now);
      TransmitShrinks(c, n, PSH + ACK, now);
      FillPipeTwin(t.0, u.0, limit, now, k, j);
      TurnFirst(t.1, FillPipe(t.0, limit, now).1, k, j);
    } else {
      TurnNone(k, j);
    }
  }

  lemma TransmitShrinks(c: Conn, n: nat, flags: byte, now: nat)
    requires n <= |c.sendBuf|
    ensures |Transmit(c, n, flags, now).0.sendBuf| == |c.sendBuf| - n
  {
    hide Segment, Add, Sub;
  }

  lemma FlightTwin(c: Conn, d: Conn, k: u32, j: u32)
    requires Twin(c, d, k, j)
    ensures FlightSize(d) == FlightSize(c)
  {
    TurnSub(c.send.nxt, c.send.una, k);
    hide Add, Sub, TwinQueue, TwinReasm;
  }

  lemma PaceTwin(c: Conn, d: Conn, pacing: real, n: nat, now: nat, k: u32, j: u32)
    requires Twin(c, d, k, j)
    ensures Twin(Pace(c, pacing, n, now), Pace(d, pacing, n, now), k, j)
    ensures NextSend(d, pacing, now) == NextSend(c, pacing, now) && d.sendBuf == c.sendBuf
    ensures Pace(c, pacing, n, now).state == c.state && Pace(c, pacing, n, now).sendBuf == c.sendBuf
  {
    FlightTwin(c, d, k, j);
    hide Add, FlightSize, TwinQueue, TwinReasm, Ceil;
  }

  lemma {:induction false} FillWindowTwin(c: Conn, d: Conn, pacing: real, now: nat, k: u32, j: u32)
    requires Twin(c, d, k, j) && c.state != SynSent
    ensures TwinStep(FillWindow(c, pacing, now), FillWindow(d, pacing, now), k, j)
    decreases |c.sendBuf|
  {
    hide Twin, TurnSeg, TurnSegs, Transmit, Pace, UsableWindow, FlightSize, TurnEntry, TurnQueue;
    var n := if c.sendBuf == [] then 0 else NextSend(c, pacing, now);
    PaceTwin(c, d, pacing, n, now, k, j);
    if n != 0 {
      var c1, d1 := Pace(c, pacing, n, now), Pace(d, pacing, n, now);
      TransmitTwin(c1, d1, n, PSH + ACK, now, k, j);
      var t, u := Transmit(c1, n, PSH + ACK, now), Transmit(d1, n, PSH + ACK, now);
      TransmitShrinks(c1, n, PSH + ACK, now);
      hide NextSend;
      FillWindowTwin(t.0, u.0, pacing, now, k, j);
      TurnFirst(t.1, FillWindow(t.0, pacing, now).1, k, j);
    } else {
      TurnNone(k, j);
    }
  }

  lemma ArmProbeTwin(c: Conn, d: Conn, now: nat, k: u32, j: u32)
    requires Twin(c, d, k, j)
    ensures Twin(ArmProbe(c, now), ArmProbe(d, now), k, j)
  {
    FlightTwin(c, d, k, j);
    hide Add, FlightSize, TwinQueue, TwinReasm, Rtt.Rto;
  }

  lemma WithRetx(c: Conn, d: Conn, q: Retransmit.Retx, r: Retransmit.Retx, k: u32, j: u32)
    requires Twin(c, d, k, j) && TwinQueue(q, r, k, j)
    ensures Twin(c.(retx := q), d.(retx := r), k, j)
  {
    hide Add, TwinQueue, TwinReasm;
  }

  lemma PollTwin(c: Conn, d: Conn, now: nat, k: u32, j: u32)
    requires Twin(c, d, k, j)
    ensures TwinStep(PollTransmit(c, now), PollTransmit(d, now), k, j)
  {
    var c0, d0 := Stamped(c, now), Stamped(d, now);
    ArriveTwin(c, d, now, k, j);
    TurnNone(k, j);
    assert d.state == c.state && d0.opt == c0.opt && d0.cong == c0.cong && SendLimit(d0) == SendLimit(c0) && c0.state == c.state;
    assert TwinQueue(c0.retx, d0.retx, k, j);
    hide Twin, Stamped, TurnSegs, FillHoles, FillPipe, FillWindow, ArmProbe, SendLimit, TwinQueue;
    if c.state == Established || c.state == CloseWait {
      var limit := SendLimit(c0);
      FillHolesTwin(c0.retx, d0.retx, limit, now, k, j);
      var h, g := FillHoles(c0.retx, limit, now), FillHoles(d0.retx, limit, now);
      WithRetx(c0, d0, h.0, g.0, k, j);
      FillPipeTwin(c0.(retx := h.0), d0.(retx := g.0), limit, now, k, j);
      TurnMore(h.1, FillPipe(c0.(retx := h.0), limit, now).1, k, j);
      FillWindowTwin(c0, d0, Congestion.PacingRate(c0.cong), now, k, j);
      ArmProbeTwin(FillWindow(c0, Congestion.PacingRate(c0.cong), now).0, FillWindow(d0, Congestion.PacingRate(c0.cong), now).0,
                   now, k, j);
    }
  }

  // ---- timers ----

  lemma ReapTwin(c: Conn, d: Conn, now: nat, k: u32, j: u32)
    requires Twin(c, d, k, j)
    ensures Twin(Reap(Stamped(c, now), now), Reap(Stamped(d, now), now), k, j)
    ensures Reap(Stamped(c, now), now).state == SynSent <==> c.state == SynSent
  {
    hide Add, TwinQueue, TwinReasm, Low32;
  }

  lemma TickRackTwin(c: Conn, d: Conn, now: nat, k: u32, j: u32)
    requires Twin(c, d, k, j)
    ensures TwinStep(TickRack(c, now), TickRack(d, now), k, j) && TickRack(c, now).0.state == c.state
  {
    RackMarkTwin(c.retx, d.retx, now, Max(Rtt.Rto(c.rtt) / 4, 1), k, j);
    hide Add, TwinQueue, TwinReasm, Rtt.Rto, Retransmit.RackMarkLost, TurnSegs;
  }

  lemma TickProbeTwin(c: Conn, d: Conn, now: nat, k: u32, j: u32)
    requires Twin(c, d, k, j)
    ensures TwinStep(TickProbe(c, now), TickProbe(d, now), k, j) && TickProbe(c, now).0.state == c.state
  {
    var at := Retransmit.LastUnsacked(c.retx.segs, |c.retx.segs|);
    FlightTwin(c, d, k, j);
    LastTwin(c.retx.segs, |c.retx.segs|, k, j);
    ResendTwin(c.retx, d.retx, at, now, k, j);
    TurnNone(k, j);
    assert Retransmit.RetransmitLast(d.retx, now) == Retransmit.Resend(d.retx, at, now);
    var r := Retransmit.RetransmitLast(c.retx, now);
    if r.1.Some? {
      TurnFirst(r.1.value, [], k, j);
      assert [r.1.value] + [] == [r.1.value];
      assert [TurnSeg(r.1.value, k, j)] + [] == [TurnSeg(r.1.value, k, j)];
    }
    hide Add, TwinQueue, TwinReasm, FlightSize, Retransmit.RetransmitLast, Retransmit.Resend, TurnSegs, TurnSeg;
  }

  lemma TickRtoTwin(c: Conn, d: Conn, now: nat, k: u32, j: u32)
    requires Twin(c, d, k, j)
    ensures TwinStep(TickRto(c, now), TickRto(d, now), k, j) && TickRto(c, now).0.state == c.state
  {
    DueTwin(c.retx, d.retx, now, Rtt.Rto(c.rtt), k, j);
    TurnNone(k, j);
    hide Add, TwinQueue, TwinReasm, Rtt.Rto, Retransmit.Due, Congestion.OnTimeout, TurnSeg;
  }

  lemma PersistAt(c: Conn, d: Conn, at: nat, k: u32, j: u32)
    requires Twin(c, d, k, j)
    ensures Twin(Persist(c, at), Persist(d, at), k, j)
  {
    hide Add, TwinQueue, TwinReasm;
  }

  lemma TickPersistTwin(c: Conn, d: Conn, now: nat, k: u32, j: u32)
    requires Twin(c, d, k, j)
    ensures TwinStep(TickPersist(c, now), TickPersist(d, now), k, j) && TickPersist(c, now).0.state == c.state
  {
    FlightTwin(c, d, k, j);
    TurnNone(k, j);
    assert WindowShut(d) == WindowShut(c) && d.clock == c.clock && d.rtt == c.rtt && d.sendBuf == c.sendBuf;
    PersistAt(c, d, 0, k, j);
    PersistAt(c, d, now + Rtt.Rto(c.rtt), k, j);
    if WindowShut(c) && c.clock.persistMs != 0 && now >= c.clock.persistMs {
      TransmitTwin(c, d, 1, ACK, now, k, j);
      var t, u := Transmit(c, 1, ACK, now), Transmit(d, 1, ACK, now);
      PersistAt(t.0, u.0, 0, k, j);
      TurnFirst(t.1, [], k, j);
      assert [t.1] + [] == [t.1] && [u.1] + [] == [u.1];
    }
    hide Twin, FlightSize, Transmit, TurnSegs, TurnSeg, Rtt.Rto;
  }

  lemma TickKeepaliveTwin(c: Conn, d: Conn, now: nat, k: u32, j: u32)
    requires Twin(c, d, k, j)
    ensures TwinStep(TickKeepalive(c, now), TickKeepalive(d, now), k, j)
  {
    FlightTwin(c, d, k, j);
    TurnNone(k, j);
    TurnBack(c.send.nxt, 1, k);
    if c.state != SynSent {
      SegmentTwin(c, d, Sub(c.send.nxt, 1), c.recv.nxt, ACK, [], k, j);
      var p := Segment(c, Sub(c.send.nxt, 1), c.recv.nxt, ACK, []);
      TurnFirst(p, [], k, j);
      assert [p] + [] == [p] && [TurnSeg(p, k, j)] + [] == [TurnSeg(p, k, j)];
    }
    hide Add, Sub, TwinQueue, TwinReasm, FlightSize, Segment, TurnSegs, TurnSeg;
  }

  lemma Joined(r: (Conn, seq<Seg>), t: (Conn, seq<Seg>), before: seq<Seg>, before': seq<Seg>, k: u32, j: u32)
    requires TwinStep(r, t, k, j) && before' == TurnSegs(before, k, j)
    ensures TwinStep((r.0, before + r.1), (t.0, before' + t.1), k, j)
  {
    TurnMore(before, r.1, k, j);
    hide Twin, TurnSegs;
  }

  lemma TickTwin(c: Conn, d: Conn, now: nat, k: u32, j: u32)
    requires Twin(c, d, k, j)
    ensures TwinStep(OnTick(c, now), OnTick(d, now), k, j)
  {
    hide Twin, TurnSegs, Reap, Stamped, TickRack, TickProbe, TickRto, TickPersist, TickKeepalive;
    var c0, d0 := Reap(Stamped(c, now), now), Reap(Stamped(d, now), now);
    ReapTwin(c, d, now, k, j);
    var a, a' := TickRack(c0, now), TickRack(d0, now);
    TickRackTwin(c0, d0, now, k, j);
    var b, b' := TickProbe(a.0, now), TickProbe(a'.0, now);
    TickProbeTwin(a.0, a'.0, now, k, j);
    Joined(b, b', a.1, a'.1, k, j);
    var r, r' := TickRto(b.0, now), TickRto(b'.0, now);
    TickRtoTwin(b.0, b'.0, now, k, j);
    Joined(r, r', a.1 + b.1, a'.1 + b'.1, k, j);
    var e, e' := TickPersist(r.0, now), TickPersist(r'.0, now);
    TickPersistTwin(r.0, r'.0, now, k, j);
    Joined(e, e', a.1 + b.1 + r.1, a'.1 + b'.1 + r'.1, k, j);
    var f, f' := TickKeepalive(e.0, now), TickKeepalive(e'.0, now);
    TickKeepaliveTwin(e.0, e'.0, now, k, j);
    Joined(f, f', a.1 + b.1 + r.1 + e.1, a'.1 + b'.1 + r'.1 + e'.1, k, j);
  }

  lemma CloseTwin(c: Conn, d: Conn, now: nat, k: u32, j: u32)
    requires Twin(c, d, k, j)
    ensures TwinReply(Close(c, now), Close(d, now), k, j)
  {
    var c0, d0 := Stamped(c, now), Stamped(d, now);
    ArriveTwin(c, d, now, k, j);
    if c.state == Established || c.state == CloseWait {
      var fin := Segment(c0, c0.send.nxt, c0.recv.nxt, FIN + ACK, []);
      SegmentTwin(c0, d0, c0.send.nxt, c0.recv.nxt, FIN + ACK, [], k, j);
      TurnAdd(c.send.nxt, 1, k);
      TurnAppend(c.retx.segs, Retransmit.Unacked(c.send.nxt, Add(c.send.nxt, 1), fin, now, 0, false), k, j);
    }
    hide Add, Segment, TurnSeg, TurnQueue, TwinReasm, Low32;
  }

  // ---- any call ----

  function TurnEvent(e: Event, k: u32, j: u32): Event {
    if e.ReceiveEvent? then e.(p := TurnSeg(e.p, j, k)) else e
  }

  /** Any call: twins stay twins and say the same, translated. */
  lemma CallTwin(c: Conn, d: Conn, e: Event, k: u32, j: u32)
    requires Twin(c, d, k, j) && !(c.state == SynSent && e.ReceiveEvent? && Has(e.p.flags, RST))
    ensures TwinStep(Apply(c, e), Apply(d, TurnEvent(e, k, j)), k, j)
  {
    TurnNone(k, j);
    match e {
      case ReceiveEvent(p, env, now) =>
        HeardTwin(c, d, p, env, now, k, j);
        TurnOuts(OnSegment(c, p, env, now).1, k, j);
        hide OnSegment, Twin, TurnSegs, TurnSeg, Has;
      case TickEvent(now) =>
        TickTwin(c, d, now, k, j);
        hide OnTick, Twin;
      case PollEvent(now) =>
        PollTwin(c, d, now, k, j);
        hide PollTransmit, Twin;
      case CloseEvent(now) =>
        CloseTwin(c, d, now, k, j);
        TurnOuts(Close(c, now).1, k, j);
        hide Close, Twin, TurnSegs, TurnSeg;
      case _ =>
        SettingTwin(c, d, e, k, j);
    }
  }

  lemma SettingTwin(c: Conn, d: Conn, e: Event, k: u32, j: u32)
    requires Twin(c, d, k, j) && !e.ReceiveEvent? && !e.TickEvent? && !e.PollEvent? && !e.CloseEvent?
    ensures TwinStep(Apply(c, e), Apply(d, e), k, j)
  {
    TurnNone(k, j);
    hide OnSegment, OnTick, PollTransmit, Close, TwinQueue, TwinReasm, Add;
  }
}
