/** What opening a connection settles (sections 3.5 and 3.7.1 of RFC 9293, section 2 of RFC 7323, section 2 of RFC
    2018): the numbers and the options each end adopts from any peer, and the three-way handshake between two of these
    ends. */
module Handshake {
  import opened Types
  import opened SeqNum
  import opened Segments
  import opened Connection
  import opened Calls
  import opened Lifecycle
  import opened AckField
  import opened Transitions
  import Backlog
  import QueueSteps
  import Replies
  import Retransmit
  import Reassembly
  import Congestion
  import Rtt
  import TimerHistory

  /** The segment size to use towards a peer that offers `mss`: no more than it takes, and no more than one Ethernet
      frame; without an offer, `without`. */
  function AgreedMss(mss: Option<u16>, without: u16): u16 {
    if mss.None? then without else if mss.value < 1460 then mss.value else 1460
  }

  /** Nothing received beyond the SYN numbered irs, and nothing buffered. */
  predicate HeardSyn(c: Conn, irs: u32) {
    c.recv == Recv(irs, Add(irs, 1), 1024) && c.reasm == Reassembly.Reasm(Add(irs, 1), map[])
    && c.recvBuf == [] && !c.peerFin && c.pendingFin.None?
  }

  /** The one thing sent is a SYN at iss, and it is queued. */
  predicate SentSyn(c: Conn, iss: u32, syn: Seg, now: nat) {
    && c.send.iss == iss && c.send.una == iss && c.send.nxt == Add(iss, 1) && c.sendBuf == []
    && c.retx == Retransmit.Retx([Retransmit.Unacked(iss, Add(iss, 1), syn, now, 0, false)], 0, 0)
    && syn.seqno == iss && syn.payload == [] && syn.window == 1024 && syn.opts.mss == Some(1460) && syn.opts.sack == []
  }

  /** An active open offers everything: segments of 1460 bytes, timestamps, scaling (by nothing) and SACK. */
  lemma ConnectExactly(iss: u32, budget: Budget, now: nat)
    ensures var (c, syn) := Connect(iss, budget, now);
            && c.state == SynSent && SentSyn(c, iss, syn, now)
            && syn.flags == SYN && syn.opts.ts == Some(Stamp(Low32(now), 0)) && syn.opts.wscale == Some(0)
            && syn.opts.sackPermitted
            && c.rtt == Rtt.FRESH && c.cong == Congestion.CubicArm(Congestion.Cubic(1460, 65535, 0, false, 0, 0))
            && c.opt == Settings(true, 1460, false, 0, Low32(now), 0, false, false)
            && c.send.wnd == 1024 && c.clock.challengeBudget == budget
  {
  }

  /** A passive open is taken exactly on a SYN. It adopts what the SYN offers and offers back what it has adopted. */
  lemma AcceptExactly(s: Seg, iss: u32, budget: Budget, now: nat)
    ensures Accept(s, iss, budget, now).Some? <==> Has(s.flags, SYN)
    ensures Has(s.flags, SYN) ==>
              var (c, synAck) := Accept(s, iss, budget, now).value;
              && c.state == SynRcvd && SentSyn(c, iss, synAck, now) && HeardSyn(c, s.seqno)
              && c.opt.sendMss == AgreedMss(s.opts.mss, 1460) && c.opt.sackOk == s.opts.sackPermitted
              && c.opt.tsEnabled == s.opts.ts.Some? && (c.opt.tsEnabled ==> c.opt.tsRecent == s.opts.ts.value.val)
              && c.opt.sndWscale == (if s.opts.wscale.Some? then s.opts.wscale.value else 0)
              && synAck.flags == SYN + ACK && synAck.ackno == Add(s.seqno, 1)
              && synAck.opts.sackPermitted == s.opts.sackPermitted
              && synAck.opts.ts == (if s.opts.ts.Some? then Some(Stamp(Low32(now), s.opts.ts.value.val)) else None)
              && synAck.opts.wscale == (if s.opts.wscale.Some? then Some(0) else None)
              && c.rtt == Rtt.FRESH && c.cong == Congestion.CubicArm(Congestion.Cubic(1460, 65535, 0, false, 0, 0))
  {
    hide Has;
  }

  /** A SYN-ACK of our SYN opens the connection: the peer's numbers and offers are adopted, our SYN is off the queue,
      and the third segment of the handshake acknowledges the peer's SYN. */
  lemma OpenedExactly(c: Conn, s: Seg, env: Env, now: nat)
    requires c.state == SynSent && !Has(s.flags, RST) && Has(s.flags, SYN) && Has(s.flags, ACK) && s.ackno == c.send.nxt
    requires c.recv.wnd == 1024
    ensures var r := OnSegment(c, s, env, now);
            && r.0.state == Established && r.0.recv == Recv(s.seqno, Add(s.seqno, 1), 1024)
            && r.0.reasm == Reassembly.Reasm(Add(s.seqno, 1), map[])
            && r.0.send == c.send.(una := s.ackno) && r.0.sendBuf == c.sendBuf && r.0.recvBuf == c.recvBuf
            && r.0.peerFin == c.peerFin && r.0.pendingFin == c.pendingFin
            && r.0.rtt == c.rtt && r.0.cong == c.cong
            && r.0.opt.sendMss == AgreedMss(s.opts.mss, c.opt.sendMss)
            && r.0.opt.sackOk == (c.opt.sackOk || s.opts.sackPermitted)
            && r.0.opt.tsEnabled == (c.opt.tsEnabled || s.opts.ts.Some?)
            && (s.opts.ts.Some? ==> r.0.opt.tsRecent == s.opts.ts.value.val)
            && r.0.opt.sndWscale == (if s.opts.wscale.Some? then s.opts.wscale.value else c.opt.sndWscale)
            && r.0.opt.nagle == c.opt.nagle && r.0.opt.keepaliveEnabled == c.opt.keepaliveEnabled
            && r.1.Some? && Replies.Acknowledges(r.1.value, r.0, now) && r.1.value.opts.sack == []
  {
    hide Has, Retransmit.Ack, Add, Low32;
  }

  /** Acknowledging SND.NXT empties the queue of a connection that has sent its SYN alone. */
  lemma SynAcknowledged(c: Conn, s: Seg, env: Env, now: nat)
    requires |c.retx.segs| == 1 && c.retx.segs[0].end == c.send.nxt && s.ackno == c.send.nxt
    requires QueueSteps.Drops(c, s)
    ensures OnSegment(c, s, env, now).0.retx.segs == []
  {
    var m := QueueSteps.QueueExactly(c, s, env, now);
    hide OnSegment, QueueSteps.Drops, QueueSteps.Noted, QueueSteps.Resends, QueueSteps.Chosen, Before;
    if m != [] {
      FirstStays(c.retx.segs, x => QueueSteps.Stays(c, s, x), m);
    }
    NotBeforeItself(c.send.nxt);
  }

  lemma FirstStays(segs: seq<Retransmit.Unacked>, p: Retransmit.Unacked -> bool, m: seq<nat>)
    requires QueueSteps.Chosen(segs, p, m) && m != []
    ensures m[0] < |segs| && p(segs[m[0]])
  {
    assert m[0] in m;
  }

  lemma NotBeforeItself(x: u32)
    ensures !Before(x, x)
  {
  }

  lemma FlagsOf()
    ensures Has(SYN + ACK, SYN) && Has(SYN + ACK, ACK) && !Has(SYN + ACK, RST)
    ensures Has(ACK, ACK) && !Has(ACK, SYN) && !Has(ACK, RST) && !Has(ACK, FIN)
    ensures Has(SYN, SYN) && !Has(SYN, ACK)
  {
  }

  /** Both ends of an opened connection agree: each has the other's numbers, nothing in flight, full-sized segments,
      SACK and timestamps on, and no scaling. */
  predicate Paired(a: Conn, b: Conn, aIss: u32, bIss: u32) {
    && a.state == Established && a.retx.segs == [] && a.send.una == a.send.nxt == Add(aIss, 1) == b.recv.nxt
    && a.opt.sendMss == 1460 && a.opt.sackOk && a.opt.tsEnabled && a.opt.sndWscale == 0 && a.recv.irs == bIss
  }

  /** The three-way handshake, whatever the initial numbers, the budgets and the clocks: three segments, delivered as
      sent, open both ends, and they agree. */
  lemma ThreeWay(aIss: u32, bIss: u32, aBudget: Budget, bBudget: Budget, t0: nat, t1: nat, t2: nat, t3: nat,
                 env: Env, env': Env)
    ensures var (a0, syn) := Connect(aIss, aBudget, t0);
            var accepted := Accept(syn, bIss, bBudget, t1);
            && accepted.Some?
            && var (b0, synAck) := accepted.value;
               var answer := OnSegment(a0, synAck, env, t2);
               && answer.1.Some?
               && var (a, b) := (answer.0, OnSegment(b0, answer.1.value, env', t3).0);
                  Paired(a, b, aIss, bIss) && Paired(b, a, bIss, aIss) && a.opt.tsRecent == Low32(t1)
  {
    var (a0, syn) := Connect(aIss, aBudget, t0);
    FlagsOf();
    ConnectExactly(aIss, aBudget, t0);
    AcceptExactly(syn, bIss, bBudget, t1);
    var (b0, synAck) := Accept(syn, bIss, bBudget, t1).value;
    hide Accept, OnSegment, Has;
    assert a0.recv.wnd == 1024;
    hide Connect, Add;
    OpenedExactly(a0, synAck, env, t2);
    SynAcknowledged(a0, synAck, env, t2);
    var answer := OnSegment(a0, synAck, env, t2);
    LastSegment(b0, answer.1.value, env', t3);
  }

  /** The third segment, at the passive end. */
  lemma LastSegment(b: Conn, p: Seg, env: Env, now: nat)
    requires b.state == SynRcvd && p.flags == ACK && p.payload == [] && p.ackno == b.send.nxt && b.pendingFin.None?
    requires |b.retx.segs| == 1 && b.retx.segs[0].end == b.send.nxt
    ensures var r := OnSegment(b, p, env, now).0;
            && r.state == Established && r.retx.segs == [] && r.send.una == r.send.nxt == b.send.nxt && r.recv == b.recv
            && r.opt == b.opt.(tsVal := Low32(now), tsRecent := r.opt.tsRecent)
  {
    FlagsOf();
    StateExactly(b, p, env, now);
    NumbersExactly(b, p, env, now);
    ReceiverExactly(b, p, env, now);
    NoFin(b, p);
    hide OnSegment, Paws, TimerHistory.Pow2, After, StopsAtAck, Low32;
    SynAcknowledged(b, p, env, now);
  }

  lemma NoFin(b: Conn, p: Seg)
    requires b.state == SynRcvd && p.payload == [] && !Has(p.flags, FIN) && b.pendingFin.None?
    ensures !Backlog.CompletesFin(b, p) && Deliver(b, p.seqno, p.payload) == b
  {
  }
}
