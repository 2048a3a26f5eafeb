/** What a tick resends and what it concludes from it (RFC 6298, sections 6.2 and 7 of RFC 8985): every step of the
    timers as a test on the state before the tick, entry by entry of the queue. */
module Timeouts {
  import opened Types
  import opened SeqNum
  import opened Segments
  import opened Connection
  import opened Calls
  import Retransmit
  import Congestion
  import Rtt
  import TimerHistory

  /** RACK gives the entry up: something sent later has arrived, and the reordering window of a quarter RTO is over. */
  predicate RackLost(c: Conn, now: nat, x: Retransmit.Unacked) {
    && !x.sacked && x.sentAt < c.retx.rackTs && Before(x.start, c.retx.rackEnd)
    && SatSub(now, x.sentAt) > Max(Rtt.Rto(c.rtt) / 4, 1)
  }

  /** The Tail Loss Probe is due. */
  predicate ProbeDue(c: Conn, now: nat) {
    && c.clock.tlpDeadlineMs != 0 && now >= c.clock.tlpDeadlineMs && !c.clock.tlpSent
    && c.send.una != c.send.nxt && !Congestion.InRecovery(c.cong)
  }

  /** The last entry not SACKed. */
  predicate IsTail(segs: seq<Retransmit.Unacked>, i: int) {
    0 <= i < |segs| && !segs[i].sacked && forall j :: i < j < |segs| ==> segs[j].sacked
  }

  predicate ProbedAt(c: Conn, now: nat, i: int) {
    ProbeDue(c, now) && IsTail(c.retx.segs, i)
  }

  predicate RackLostAt(c: Conn, now: nat, i: int) {
    0 <= i < |c.retx.segs| && RackLost(c, now, c.retx.segs[i])
  }

  /** The entry has been out for a whole RTO, and neither RACK nor the probe resends it in this tick. */
  predicate TimesOutAt(c: Conn, now: nat, i: int) {
    && 0 <= i < |c.retx.segs| && !c.retx.segs[i].sacked && SatSub(now, c.retx.segs[i].sentAt) >= Rtt.Rto(c.rtt)
    && !RackLostAt(c, now, i) && !ProbedAt(c, now, i)
  }

  predicate RtoFires(c: Conn, now: nat) {
    exists i :: 0 <= i < |c.retx.segs| && TimesOutAt(c, now, i)
  }

  /** How often the tick sends entry i again: at most once by RACK or the RTO, and once more as a probe. */
  function Resendings(c: Conn, now: nat, i: int): nat {
    (if RackLostAt(c, now, i) then 1 else 0) + (if ProbedAt(c, now, i) then 1 else 0) + if TimesOutAt(c, now, i) then 1 else 0
  }

  function Resent(x: Retransmit.Unacked, now: nat, times: nat): Retransmit.Unacked {
    if times == 0 then x else x.(sentAt := now, retries := x.retries + times)
  }

  // ---- the packets a selection yields ----

  /** outs are the packets of exactly the entries p selects, in order. */
  ghost predicate Lists(segs: seq<Retransmit.Unacked>, p: int -> bool, outs: seq<Seg>) {
    exists m :: ListsAt(segs, p, outs, m)
  }

  ghost predicate ListsAt(segs: seq<Retransmit.Unacked>, p: int -> bool, outs: seq<Seg>, m: seq<int>) {
    && |m| == |outs| && (forall j :: 0 <= j < |m| ==> 0 <= m[j] < |segs| && outs[j] == segs[m[j]].packet)
    && (forall i, j :: 0 <= i < j < |m| ==> m[i] < m[j])
    && forall i :: 0 <= i < |segs| ==> (p(i) <==> i in m)
  }

  lemma {:induction false} PacketsList(segs: seq<Retransmit.Unacked>, sel: Retransmit.Unacked -> bool, p: int -> bool)
    requires forall i :: 0 <= i < |segs| ==> (p(i) <==> sel(segs[i]))
    ensures Lists(segs, p, Retransmit.Packets(segs, sel))
  {
    hide Lists;
    if segs == [] {
      ListsNone(segs, p);
    } else {
      var n := |segs| - 1;
      PacketsList(segs[..n], sel, p);
      ListsMore(segs, p, Retransmit.Packets(segs[..n], sel));
    }
  }

  lemma ListsNone(segs: seq<Retransmit.Unacked>, p: int -> bool)
    requires segs == []
    ensures Lists(segs, p, [])
  {
    assert ListsAt(segs, p, [], []);
  }

  lemma ListsMore(segs: seq<Retransmit.Unacked>, p: int -> bool, outs: seq<Seg>)
    requires segs != [] && Lists(segs[..|segs| - 1], p, outs)
    ensures var n := |segs| - 1; Lists(segs, p, outs + if p(n) then [segs[n].packet] else [])
  {
    var n := |segs| - 1;
    var m :| ListsAt(segs[..n], p, outs, m);
    assert ListsAt(segs, p, outs + (if p(n) then [segs[n].packet] else []), m + if p(n) then [n] else []);
  }

  // ---- step by step ----

  /** Nothing the timers look at. */
  predicate SameTimers(c: Conn, c': Conn) {
    && c'.retx == c.retx && c'.rtt == c.rtt && c'.cong == c.cong && c'.send == c.send
    && c'.clock.tlpDeadlineMs == c.clock.tlpDeadlineMs && c'.clock.tlpSent == c.clock.tlpSent
  }

  lemma Reaped(c: Conn, now: nat)
    ensures SameTimers(c, Reap(Stamped(c, now), now))
  {
  }

  lemma RackStep(c: Conn, now: nat)
    ensures var r := TickRack(c, now);
            && r.0 == c.(retx := c.retx.(segs := r.0.retx.segs)) && |r.0.retx.segs| == |c.retx.segs|
            && (forall i :: 0 <= i < |c.retx.segs| ==>
                  r.0.retx.segs[i] == Resent(c.retx.segs[i], now, if RackLostAt(c, now, i) then 1 else 0)
                  && r.0.retx.segs[i].packet == c.retx.segs[i].packet)
            && Lists(c.retx.segs, i => RackLostAt(c, now, i), r.1)
  {
    hide Rtt.Rto, Before, Lists;
    PacketsList(c.retx.segs, Retransmit.IsRackLost(c.retx, now, Max(Rtt.Rto(c.rtt) / 4, 1)), i => RackLostAt(c, now, i));
  }

  lemma TailFound(segs: seq<Retransmit.Unacked>)
    ensures var t := Retransmit.LastUnsacked(segs, |segs|);
            if t.Some? then IsTail(segs, t.value) && forall i :: IsTail(segs, i) ==> i == t.value
            else forall i :: !IsTail(segs, i)
  {
    var t := Retransmit.LastUnsacked(segs, |segs|);
    if t.Some? {
      assert IsTail(segs, t.value);
    }
  }

  lemma ProbeStep(c: Conn, now: nat)
    ensures var r := TickProbe(c, now);
            && |r.0.retx.segs| == |c.retx.segs|
            && r.0 == c.(retx := c.retx.(segs := r.0.retx.segs),
                         clock := c.clock.(tlpDeadlineMs := if ProbeDue(c, now) then 0 else c.clock.tlpDeadlineMs,
                                           tlpSent := r.0.clock.tlpSent))
            && (r.0.clock.tlpSent <==> c.clock.tlpSent || exists i :: ProbedAt(c, now, i))
            && (forall i :: 0 <= i < |c.retx.segs| ==>
                  r.0.retx.segs[i] == Resent(c.retx.segs[i], now, if ProbedAt(c, now, i) then 1 else 0))
            && (if exists i :: ProbedAt(c, now, i) then exists i :: ProbedAt(c, now, i) && r.1 == [c.retx.segs[i].packet]
                else r.1 == [])
  {
    TailFound(c.retx.segs);
    FlightIs(c.send.una, c.send.nxt);
    hide Retransmit.LastUnsacked, IsTail, Sub;
    if ProbeDue(c, now) {
      var t := Retransmit.LastUnsacked(c.retx.segs, |c.retx.segs|);
      assert t.Some? ==> ProbedAt(c, now, t.value);
    }
  }

  lemma FlightIs(una: u32, nxt: u32)
    ensures Sub(nxt, una) > 0 <==> una != nxt
  {
  }

  lemma RtoStep(c: Conn, now: nat, p: int -> bool)
    requires forall i :: 0 <= i < |c.retx.segs| ==>
               (p(i) <==> !c.retx.segs[i].sacked && SatSub(now, c.retx.segs[i].sentAt) >= Rtt.Rto(c.rtt))
    ensures var r := TickRto(c, now);
            var fires := exists i :: 0 <= i < |c.retx.segs| && p(i);
            && |r.0.retx.segs| == |c.retx.segs|
            && r.0 == c.(retx := c.retx.(segs := r.0.retx.segs),
                         cong := if fires then Congestion.OnTimeout(c.cong) else c.cong,
                         rtt := if fires then Rtt.BackOff(c.rtt) else c.rtt)
            && (forall i :: 0 <= i < |c.retx.segs| ==>
                  r.0.retx.segs[i] == Resent(c.retx.segs[i], now, if p(i) then 1 else 0))
            && Lists(c.retx.segs, p, r.1)
  {
    hide Rtt.Rto, Congestion.OnTimeout, Rtt.BackOff, Lists;
    PacketsList(c.retx.segs, Retransmit.IsDue(now, Rtt.Rto(c.rtt)), p);
    ListsSome(c.retx.segs, p, TickRto(c, now).1);
  }

  lemma ListsSome(segs: seq<Retransmit.Unacked>, p: int -> bool, outs: seq<Seg>)
    requires Lists(segs, p, outs)
    ensures outs != [] <==> exists i :: 0 <= i < |segs| && p(i)
  {
    var m :| ListsAt(segs, p, outs, m);
    if outs != [] {
      assert m[0] in m && p(m[0]);
    }
  }

  // ---- the three together ----

  /** What RACK and the probe have resent is young again, and the rest is as old as it was. */
  lemma DueAfterBoth(c: Conn, now: nat, a: Conn, b: Conn, i: int)
    requires a == TickRack(c, now).0 && b == TickProbe(a, now).0 && 0 <= i < |c.retx.segs|
    ensures |b.retx.segs| == |c.retx.segs| && b.retx.rackTs == c.retx.rackTs && b.retx.rackEnd == c.retx.rackEnd
    ensures ProbedAt(a, now, i) <==> ProbedAt(c, now, i)
    ensures b.retx.segs[i] == Resent(c.retx.segs[i], now,
                                     (if RackLostAt(c, now, i) then 1 else 0) + if ProbedAt(c, now, i) then 1 else 0)
    ensures !b.retx.segs[i].sacked && SatSub(now, b.retx.segs[i].sentAt) >= Rtt.Rto(c.rtt) <==> TimesOutAt(c, now, i)
  {
    RackStep(c, now);
    ProbeStep(a, now);
    TimerHistory.RtoBounded(c.rtt);
    hide TickRack, TickProbe, Rtt.Rto, RackLost, Lists;
    assert forall j :: 0 <= j < |c.retx.segs| ==> a.retx.segs[j].sacked == c.retx.segs[j].sacked;
  }

  /** The connection as far as the three resending steps go, from what was before the tick. */
  predicate ResentAll(c: Conn, now: nat, d: Conn) {
    && d.cong == (if RtoFires(c, now) then Congestion.OnTimeout(c.cong) else c.cong)
    && d.rtt == (if RtoFires(c, now) then Rtt.BackOff(c.rtt) else c.rtt)
    && d.retx.rackTs == c.retx.rackTs && d.retx.rackEnd == c.retx.rackEnd
    && d.clock.tlpDeadlineMs == (if ProbeDue(c, now) then 0 else c.clock.tlpDeadlineMs)
    && (d.clock.tlpSent <==> c.clock.tlpSent || exists i :: 0 <= i < |c.retx.segs| && ProbedAt(c, now, i))
    && |d.retx.segs| >= |c.retx.segs|
    && forall i :: 0 <= i < |c.retx.segs| ==> d.retx.segs[i] == Resent(c.retx.segs[i], now, Resendings(c, now, i))
  }

  /** The packets: RACK's in order, the probe, and those that timed out in order. */
  ghost predicate ResentInOrder(c: Conn, now: nat, rack: seq<Seg>, probe: seq<Seg>, rto: seq<Seg>) {
    && Lists(c.retx.segs, i => RackLostAt(c, now, i), rack)
    && Lists(c.retx.segs, i => ProbedAt(c, now, i), probe)
    && Lists(c.retx.segs, i => TimesOutAt(c, now, i), rto)
  }

  lemma SamePackets(a: seq<Retransmit.Unacked>, b: seq<Retransmit.Unacked>, p: int -> bool, outs: seq<Seg>)
    requires Lists(a, p, outs) && |a| == |b| && forall i :: 0 <= i < |a| ==> a[i].packet == b[i].packet
    ensures Lists(b, p, outs)
  {
    var m :| ListsAt(a, p, outs, m);
    assert ListsAt(b, p, outs, m);
  }

  lemma SameSelection(segs: seq<Retransmit.Unacked>, p: int -> bool, q: int -> bool, outs: seq<Seg>)
    requires Lists(segs, p, outs) && forall i :: 0 <= i < |segs| ==> (p(i) <==> q(i))
    ensures Lists(segs, q, outs)
  {
    var m :| ListsAt(segs, p, outs, m);
    assert ListsAt(segs, q, outs, m);
  }

  lemma OneTail(c: Conn, now: nat)
    ensures forall i, j :: ProbedAt(c, now, i) && ProbedAt(c, now, j) ==> i == j
  {
  }

  /** The queue when the retransmission timer looks at it. */
  lemma BeforeRto(c: Conn, now: nat, a: Conn, b: Conn)
    requires a == TickRack(c, now).0 && b == TickProbe(a, now).0
    ensures |b.retx.segs| == |c.retx.segs|
    ensures b.retx == c.retx.(segs := b.retx.segs) && b.cong == c.cong && b.rtt == c.rtt
    ensures b.clock.tlpDeadlineMs == (if ProbeDue(c, now) then 0 else c.clock.tlpDeadlineMs)
    ensures forall i :: ProbedAt(a, now, i) <==> ProbedAt(c, now, i)
    ensures b.clock.tlpSent <==> c.clock.tlpSent || exists i :: 0 <= i < |c.retx.segs| && ProbedAt(c, now, i)
    ensures forall i :: 0 <= i < |c.retx.segs| ==>
              && b.retx.segs[i] == Resent(c.retx.segs[i], now,
                                          (if RackLostAt(c, now, i) then 1 else 0) + if ProbedAt(c, now, i) then 1 else 0)
              && (!b.retx.segs[i].sacked && SatSub(now, b.retx.segs[i].sentAt) >= Rtt.Rto(c.rtt) <==> TimesOutAt(c, now, i))
  {
    RackStep(c, now);
    ProbeStep(a, now);
    forall i
      ensures ProbedAt(a, now, i) <==> ProbedAt(c, now, i)
    {
      if 0 <= i < |c.retx.segs| {
        DueAfterBoth(c, now, a, b, i);
      }
    }
    forall i | 0 <= i < |c.retx.segs|
      ensures b.retx.segs[i] == Resent(c.retx.segs[i], now,
                                       (if RackLostAt(c, now, i) then 1 else 0) + if ProbedAt(c, now, i) then 1 else 0)
      ensures !b.retx.segs[i].sacked && SatSub(now, b.retx.segs[i].sentAt) >= Rtt.Rto(c.rtt) <==> TimesOutAt(c, now, i)
    {
      DueAfterBoth(c, now, a, b, i);
    }
    hide TickRack, TickProbe, Rtt.Rto, RackLostAt, Lists, TimesOutAt, IsTail, Resent;
  }

  lemma Twice(x: Retransmit.Unacked, now: nat, j: nat, k: nat)
    ensures Resent(Resent(x, now, j), now, k) == Resent(x, now, j + k)
  {
  }

  lemma QueueOfBoth(c: Conn, now: nat, mid: seq<Retransmit.Unacked>, end: seq<Retransmit.Unacked>)
    requires |end| == |mid| == |c.retx.segs|
    requires forall i :: 0 <= i < |c.retx.segs| ==>
               mid[i] == Resent(c.retx.segs[i], now,
                                (if RackLostAt(c, now, i) then 1 else 0) + if ProbedAt(c, now, i) then 1 else 0)
    requires forall i :: 0 <= i < |c.retx.segs| ==> end[i] == Resent(mid[i], now, if TimesOutAt(c, now, i) then 1 else 0)
    ensures forall i :: 0 <= i < |c.retx.segs| ==> end[i] == Resent(c.retx.segs[i], now, Resendings(c, now, i))
  {
    hide Resent, RackLostAt, ProbedAt, TimesOutAt;
    forall i | 0 <= i < |c.retx.segs|
      ensures end[i] == Resent(c.retx.segs[i], now, Resendings(c, now, i))
    {
      Twice(c.retx.segs[i], now, (if RackLostAt(c, now, i) then 1 else 0) + (if ProbedAt(c, now, i) then 1 else 0),
            if TimesOutAt(c, now, i) then 1 else 0);
    }
  }

  lemma ThreeSteps(c: Conn, now: nat, a: (Conn, seq<Seg>), b: (Conn, seq<Seg>), d: (Conn, seq<Seg>))
    requires a == TickRack(c, now) && b == TickProbe(a.0, now) && d == TickRto(b.0, now)
    ensures ResentAll(c, now, d.0) && ResentInOrder(c, now, a.1, b.1, d.1)
  {
    hide TickRack, TickProbe, TickRto, Rtt.Rto, RackLostAt, Lists, TimesOutAt, ProbedAt, ProbeDue, Rtt.BackOff,
      Congestion.OnTimeout, Resendings, Resent;
    BeforeRto(c, now, a.0, b.0);
    RtoStep(b.0, now, i => TimesOutAt(c, now, i));
    QueueOfBoth(c, now, b.0.retx.segs, d.0.retx.segs);
    ListedInOrder(c, now, a, b, d.1);
  }

  lemma ListedInOrder(c: Conn, now: nat, a: (Conn, seq<Seg>), b: (Conn, seq<Seg>), outs: seq<Seg>)
    requires a == TickRack(c, now) && b == TickProbe(a.0, now)
    requires Lists(b.0.retx.segs, i => TimesOutAt(c, now, i), outs)
    ensures ResentInOrder(c, now, a.1, b.1, outs)
  {
    hide TickRack, TickProbe, Rtt.Rto, RackLostAt, Lists, TimesOutAt, ProbedAt, ProbeDue, Resent;
    RackStep(c, now);
    ProbeStep(a.0, now);
    BeforeRto(c, now, a.0, b.0);
    SameAsBefore(c, now, b.0);
    SamePackets(b.0.retx.segs, c.retx.segs, i => TimesOutAt(c, now, i), outs);
    ProbeListed(c, now, a.0, b.1);
  }

  lemma SameAsBefore(c: Conn, now: nat, b: Conn)
    requires |b.retx.segs| == |c.retx.segs|
    requires forall i :: 0 <= i < |c.retx.segs| ==>
               b.retx.segs[i] == Resent(c.retx.segs[i], now,
                                        (if RackLostAt(c, now, i) then 1 else 0) + if ProbedAt(c, now, i) then 1 else 0)
    ensures forall i :: 0 <= i < |c.retx.segs| ==> b.retx.segs[i].packet == c.retx.segs[i].packet
  {
    hide RackLostAt, ProbedAt;
  }

  lemma ProbeListed(c: Conn, now: nat, a: Conn, outs: seq<Seg>)
    requires |a.retx.segs| == |c.retx.segs|
    requires forall i :: 0 <= i < |c.retx.segs| ==> a.retx.segs[i].packet == c.retx.segs[i].packet
    requires forall i :: ProbedAt(a, now, i) <==> ProbedAt(c, now, i)
    requires if exists i :: ProbedAt(a, now, i) then exists i :: ProbedAt(a, now, i) && outs == [a.retx.segs[i].packet]
             else outs == []
    ensures Lists(c.retx.segs, i => ProbedAt(c, now, i), outs)
  {
    OneTail(c, now);
    assert forall i :: ProbedAt(c, now, i) ==> 0 <= i < |c.retx.segs|;
    hide ProbedAt;
    if i :| ProbedAt(a, now, i) && outs == [a.retx.segs[i].packet] {
      assert ProbedAt(c, now, i);
      assert ListsAt(c.retx.segs, i => ProbedAt(c, now, i), outs, [i]);
    } else {
      assert ListsAt(c.retx.segs, i => ProbedAt(c, now, i), outs, []);
    }
  }

  // ---- the whole tick ----

  /** What persist and keepalive do when `d` is reached. */
  lemma TailOfTick(d: Conn, now: nat)
    ensures Spared(d, TickKeepalive(TickPersist(d, now).0, now).0)
  {
    var e := TickPersist(d, now).0;
    assert Spared(d, e) by { hide Segment, FlightSize, Rtt.Rto, Add, Sub; }
    hide TickPersist;
    assert Spared(e, TickKeepalive(e, now).0) by { hide Segment, FlightSize, Sub; }
    hide TickKeepalive;
  }

  predicate Spared(d: Conn, f: Conn) {
    && f.cong == d.cong && f.rtt == d.rtt && f.retx.rackTs == d.retx.rackTs && f.retx.rackEnd == d.retx.rackEnd
    && f.clock.tlpDeadlineMs == d.clock.tlpDeadlineMs && f.clock.tlpSent == d.clock.tlpSent
    && d.retx.segs <= f.retx.segs
  }

  lemma SameSelectors(c: Conn, c0: Conn, now: nat)
    requires SameTimers(c, c0)
    ensures ProbeDue(c0, now) == ProbeDue(c, now)
    ensures forall i :: RackLostAt(c0, now, i) == RackLostAt(c, now, i) && ProbedAt(c0, now, i) == ProbedAt(c, now, i) &&
                        TimesOutAt(c0, now, i) == TimesOutAt(c, now, i)
  {
    hide Rtt.Rto, Before, Congestion.InRecovery, IsTail;
  }

  // ---- persist and keepalive ----

  /** Data to send, nothing in flight and a shut window, in a connection that is not being reaped. */
  predicate Shut(c: Conn, now: nat) {
    && (c.state == Established || (c.state == CloseWait && SatSub(now, c.clock.lastActiveMs) < 120_000))
    && c.send.wnd == 0 && c.sendBuf != [] && c.send.una == c.send.nxt
  }

  predicate PersistDue(c: Conn, now: nat) {
    Shut(c, now) && c.clock.persistMs != 0 && now >= c.clock.persistMs
  }

  /** A minute of silence and five seconds for every probe so far. */
  predicate KeepaliveDue(c: Conn, now: nat) {
    && c.opt.keepaliveEnabled && c.state == Established && c.send.una == c.send.nxt && c.sendBuf == []
    && now >= c.clock.lastActiveMs + 60_000 + 5_000 * c.clock.keepaliveProbes
  }

  /** What persist and keepalive add: the next byte into the shut window, or a segment below SND.NXT to an idle peer. */
  predicate Added(c: Conn, now: nat, more: seq<Seg>) {
    if PersistDue(c, now) then
      |more| == 1 && Reports(more[0], c, now) && more[0].flags == ACK && more[0].opts.sack == []
      && more[0].seqno == c.send.nxt && more[0].payload == c.sendBuf[..1]
    else if KeepaliveDue(c, now) && c.clock.keepaliveProbes < 3 then
      |more| == 1 && Reports(more[0], c, now) && more[0].flags == ACK && more[0].opts.sack == []
      && more[0].seqno == Sub(c.send.nxt, 1) && more[0].payload == []
    else more == []
  }

  /** And what becomes of their clocks, of the send buffer and of SND.NXT. */
  predicate AddedState(c: Conn, now: nat, c': Conn, more: seq<Seg>) {
    && c'.clock.persistMs == (if !Shut(c, now) || PersistDue(c, now) then 0
                              else if c.clock.persistMs == 0 then now + Rtt.Rto(c'.rtt) else c.clock.persistMs)
    && c'.clock.keepaliveProbes == (if KeepaliveDue(c, now) && c.clock.keepaliveProbes < 3 then c.clock.keepaliveProbes + 1
                                    else c.clock.keepaliveProbes)
    && c'.clock.nextSendMs == c.clock.nextSendMs && c'.clock.lastActiveMs == c.clock.lastActiveMs
    && (if PersistDue(c, now) then
          && |more| == 1 && c'.sendBuf == c.sendBuf[1..] && c'.send == c.send.(nxt := Add(c.send.nxt, 1))
          && |c'.retx.segs| == |c.retx.segs| + 1
          && c'.retx.segs[|c.retx.segs|] == Retransmit.Unacked(c.send.nxt, Add(c.send.nxt, 1), more[0], now, 0, false)
        else c'.sendBuf == c.sendBuf && c'.send == c.send && |c'.retx.segs| == |c.retx.segs|)
  }

  lemma PersistStep(d: Conn, now: nat, e: (Conn, seq<Seg>))
    requires e == TickPersist(d, now) && d.opt.tsVal == Low32(now)
    ensures var due := WindowShut(d) && d.clock.persistMs != 0 && now >= d.clock.persistMs;
            && e.0.clock == d.clock.(persistMs :=
                 if !WindowShut(d) || due then 0 else if d.clock.persistMs == 0 then now + Rtt.Rto(d.rtt) else d.clock.persistMs)
            && e.0.state == d.state && e.0.opt == d.opt && e.0.recv == d.recv && e.0.rtt == d.rtt
            && if due then
                 && |e.1| == 1 && Reports(e.1[0], d, now) && e.1[0].flags == ACK && e.1[0].opts.sack == []
                 && e.1[0].seqno == d.send.nxt && e.1[0].payload == d.sendBuf[..1]
                 && e.0.sendBuf == d.sendBuf[1..] && e.0.send == d.send.(nxt := Add(d.send.nxt, 1))
                 && e.0.retx.segs == d.retx.segs + [Retransmit.Unacked(d.send.nxt, Add(d.send.nxt, 1), e.1[0], now, 0, false)]
               else e.1 == [] && e.0.sendBuf == d.sendBuf && e.0.send == d.send && e.0.retx == d.retx
  {
    hide Rtt.Rto, FlightSize;
    BackOne(d.send.nxt);
  }

  lemma BackOne(x: u32)
    ensures Sub(Add(x, Low32(1)), Low32(1)) == x && Add(x, Low32(1)) == Add(x, 1)
  {
  }

  lemma KeepaliveStep(e: Conn, now: nat, f: (Conn, seq<Seg>))
    requires f == TickKeepalive(e, now) && e.opt.tsVal == Low32(now)
    ensures var probe := KeepaliveDue(e, now) && e.clock.keepaliveProbes < 3;
            && f.0.clock == e.clock.(keepaliveProbes := e.clock.keepaliveProbes + if probe then 1 else 0)
            && f.0.sendBuf == e.sendBuf && f.0.send == e.send && f.0.retx == e.retx && f.0.rtt == e.rtt
            && if probe then
                 && |f.1| == 1 && Reports(f.1[0], e, now) && f.1[0].flags == ACK && f.1[0].opts.sack == []
                 && f.1[0].seqno == Sub(e.send.nxt, 1) && f.1[0].payload == []
               else f.1 == []
  {
    FlightIs(e.send.una, e.send.nxt);
    hide Sub;
  }

  /** What reaches persist. */
  lemma Reaching(c: Conn, now: nat, d: Conn)
    requires var c0 := Reap(Stamped(c, now), now);
             d == TickRto(TickProbe(TickRack(c0, now).0, now).0, now).0
    ensures d.state == Reap(Stamped(c, now), now).state && d.send == c.send && d.sendBuf == c.sendBuf && d.recv == c.recv
    ensures d.opt == c.opt.(tsVal := Low32(now)) && |d.retx.segs| == |c.retx.segs|
    ensures d.clock == c.clock.(tlpDeadlineMs := d.clock.tlpDeadlineMs, tlpSent := d.clock.tlpSent)
  {
    var c0 := Reap(Stamped(c, now), now);
    var a := TickRack(c0, now).0;
    var b := TickProbe(a, now).0;
    RackStep(c0, now);
    ProbeStep(a, now);
    var p := (i: int) => 0 <= i < |b.retx.segs| && !b.retx.segs[i].sacked && SatSub(now, b.retx.segs[i].sentAt) >= Rtt.Rto(b.rtt);
    RtoStep(b, now, p);
    hide TickRack, TickProbe, TickRto, Rtt.Rto, Lists, ProbedAt, RackLostAt, Resent, ProbeDue, Congestion.OnTimeout,
      Rtt.BackOff;
  }

  lemma ShutAfter(c: Conn, now: nat, d: Conn)
    requires d.state == Reap(Stamped(c, now), now).state && d.send == c.send && d.sendBuf == c.sendBuf
    ensures WindowShut(d) <==> Shut(c, now)
  {
    FlightIs(c.send.una, c.send.nxt);
    hide Sub;
  }

  lemma NextDiffers(x: u32)
    ensures Add(x, 1) != x
  {
  }

  /** Keepalive sees what was before the tick, unless persist has just sent. */
  lemma DueAfter(c: Conn, now: nat, d: Conn, e: Conn)
    requires d.state == Reap(Stamped(c, now), now).state && d.send == c.send && d.sendBuf == c.sendBuf
    requires d.opt == c.opt.(tsVal := Low32(now))
    requires d.clock == c.clock.(tlpDeadlineMs := d.clock.tlpDeadlineMs, tlpSent := d.clock.tlpSent)
    requires e.state == d.state && e.opt == d.opt && e.clock == d.clock.(persistMs := e.clock.persistMs)
    requires if PersistDue(c, now) then e.send == d.send.(nxt := Add(d.send.nxt, 1))
             else e.send == d.send && e.sendBuf == d.sendBuf
    ensures KeepaliveDue(e, now) == KeepaliveDue(c, now) && (KeepaliveDue(c, now) ==> !PersistDue(c, now))
  {
    NextDiffers(c.send.nxt);
    hide Low32, Add;
  }

  lemma AddedAfter(c: Conn, now: nat, d: Conn, e: (Conn, seq<Seg>), f: (Conn, seq<Seg>))
    requires d.state == Reap(Stamped(c, now), now).state && d.send == c.send && d.sendBuf == c.sendBuf && d.recv == c.recv
    requires d.opt == c.opt.(tsVal := Low32(now)) && |d.retx.segs| == |c.retx.segs|
    requires d.clock == c.clock.(tlpDeadlineMs := d.clock.tlpDeadlineMs, tlpSent := d.clock.tlpSent)
    requires e == TickPersist(d, now) && f == TickKeepalive(e.0, now)
    ensures Added(c, now, e.1 + f.1) && AddedState(c, now, f.0, e.1 + f.1)
  {
    hide TickPersist, TickKeepalive, WindowShut, Rtt.Rto, Add, Sub, Low32, Shut, KeepaliveDue, Reap, Stamped;
    ShutAfter(c, now, d);
    PersistStep(d, now, e);
    DueAfter(c, now, d, e.0);
    KeepaliveStep(e.0, now, f);
  }

  /** Any tick, in any state. The packets are those RACK gives up, the tail probe, those whose RTO has elapsed, and what
      persist and keepalive add; each entry is re-stamped and counted as often as it is resent and otherwise left as it
      was; and the controller and the timer hear of a timeout exactly when some entry timed out. */
  lemma TickExactly(c: Conn, now: nat) returns (rack: seq<Seg>, probe: seq<Seg>, rto: seq<Seg>, more: seq<Seg>)
    ensures OnTick(c, now).1 == rack + probe + rto + more
    ensures ResentInOrder(c, now, rack, probe, rto)
    ensures ResentAll(c, now, OnTick(c, now).0)
    ensures Added(c, now, more) && AddedState(c, now, OnTick(c, now).0, more)
  {
    var c0 := Reap(Stamped(c, now), now);
    var a := TickRack(c0, now);
    var b := TickProbe(a.0, now);
    var d := TickRto(b.0, now);
    var e := TickPersist(d.0, now);
    var f := TickKeepalive(e.0, now);
    hide Reap, Stamped, TickRack, TickProbe, TickRto, TickPersist, TickKeepalive, ResentAll, ResentInOrder, SameTimers,
      Added, AddedState;
    rack, probe, rto, more := a.1, b.1, d.1, e.1 + f.1;
    Reaped(c, now);
    ThreeSteps(c0, now, a, b, d);
    TailOfTick(d.0, now);
    assert rack + probe + rto + more == rack + probe + rto + e.1 + f.1;
    ResentSame(c, c0, now, d.0, f.0);
    OrderSame(c, c0, now, rack, probe, rto);
    Reaching(c, now, d.0);
    AddedAfter(c, now, d.0, e, f);
  }

  lemma ResentSame(c: Conn, c0: Conn, now: nat, d: Conn, f: Conn)
    requires SameTimers(c, c0) && ResentAll(c0, now, d)
    requires Spared(d, f)
    ensures ResentAll(c, now, f)
  {
    SameSelectors(c, c0, now);
    hide RackLostAt, ProbedAt, TimesOutAt, ProbeDue, Congestion.OnTimeout, Rtt.BackOff;
    assert RtoFires(c0, now) == RtoFires(c, now);
    assert forall i :: Resendings(c0, now, i) == Resendings(c, now, i);
    hide RtoFires, Resendings, Resent;
  }

  lemma OrderSame(c: Conn, c0: Conn, now: nat, rack: seq<Seg>, probe: seq<Seg>, rto: seq<Seg>)
    requires SameTimers(c, c0) && ResentInOrder(c0, now, rack, probe, rto)
    ensures ResentInOrder(c, now, rack, probe, rto)
  {
    SameSelectors(c, c0, now);
    hide RackLostAt, ProbedAt, TimesOutAt, Lists;
    SameSelection(c.retx.segs, i => RackLostAt(c0, now, i), i => RackLostAt(c, now, i), rack);
    SameSelection(c.retx.segs, i => ProbedAt(c0, now, i), i => ProbedAt(c, now, i), probe);
    SameSelection(c.retx.segs, i => TimesOutAt(c0, now, i), i => TimesOutAt(c, now, i), rto);
  }
}
