/** What a poll puts on the wire: the holes it resends and the bytes it takes from the send buffer, each in a segment
    that is queued as it is sent. */
module Transmissions {
  import opened Types
  import opened SeqNum
  import opened Segments
  import opened Connection
  import opened Calls
  import opened Lifecycle
  import RecoveryBooks
  import Timeouts
  import Retransmit
  import Congestion
  import Rtt

  // ---- new data ----

  /** The bytes of some segments, one after the other. */
  function Bytes(ps: seq<Seg>): seq<byte> {
    if ps == [] then [] else ps[0].payload + Bytes(ps[1..])
  }

  /** Where the segment after p starts. */
  function EndOf(p: Seg): u32 {
    Add(p.seqno, Low32(|p.payload|))
  }

  /** The queue entry of a segment sent for the first time. */
  function Queued(p: Seg, now: nat): Retransmit.Unacked {
    Retransmit.Unacked(p.seqno, EndOf(p), p, now, 0, false)
  }

  /** A data segment of this connection. */
  predicate Carries(p: Seg, c: Conn, now: nat) {
    p.flags == PSH + ACK && Reports(p, c, now) && p.opts.sack == [] && 0 < |p.payload| <= c.opt.sendMss
  }

  /** The segments ps start at SND.NXT, follow each other without a gap, and carry the first bytes of the send buffer;
      c' is the connection with those bytes taken out, SND.NXT behind them, and each segment queued. */
  ghost predicate Sends(c: Conn, now: nat, ps: seq<Seg>, c': Conn) {
    && (forall k :: 0 <= k < |ps| ==> Carries(ps[k], c, now))
    && (ps != [] ==> ps[0].seqno == c.send.nxt) && (forall k :: 0 < k < |ps| ==> ps[k].seqno == EndOf(ps[k - 1]))
    && c.sendBuf == Bytes(ps) + c'.sendBuf
    && c'.send == c.send.(nxt := if ps == [] then c.send.nxt else EndOf(ps[|ps| - 1]))
    && |c'.retx.segs| == |c.retx.segs| + |ps| && c'.retx == c.retx.(segs := c'.retx.segs)
    && (forall i :: 0 <= i < |c.retx.segs| ==> c'.retx.segs[i] == c.retx.segs[i])
    && forall k :: 0 <= k < |ps| ==> c'.retx.segs[|c.retx.segs| + k] == Queued(ps[k], now)
  }

  /** The segment a transmission makes. */
  lemma OneSent(c: Conn, n: nat, now: nat)
    requires 0 < n <= |c.sendBuf| && n <= c.opt.sendMss && c.opt.tsVal == Low32(now)
    ensures var t := Transmit(c, n, PSH + ACK, now);
            && Carries(t.1, c, now) && t.1.seqno == c.send.nxt && t.1.payload == c.sendBuf[..n]
            && t.0 == c.(sendBuf := c.sendBuf[n..], send := c.send.(nxt := EndOf(t.1)),
                         retx := c.retx.(segs := c.retx.segs + [Queued(t.1, now)]))
  {
    BackAgain(c.send.nxt, Low32(n));
    hide Add, Sub, Low32;
  }

  lemma BackAgain(x: u32, n: u32)
    ensures Sub(Add(x, n), n) == x
  {
  }

  lemma NothingSent(c: Conn, now: nat, c': Conn)
    requires c'.sendBuf == c.sendBuf && c'.send == c.send && c'.retx == c.retx
    ensures Sends(c, now, [], c')
  {
    assert Bytes([]) + c'.sendBuf == c.sendBuf;
  }

  /** The same connection, as far as what its segments say goes. */
  predicate Speaks(c: Conn, d: Conn) {
    d.recv == c.recv && d.opt == c.opt
  }

  lemma CarriesSame(p: Seg, c: Conn, d: Conn, now: nat)
    requires Speaks(c, d)
    ensures Carries(p, d, now) == Carries(p, c, now)
  {
  }

  lemma Shifted(ps: seq<Seg>, p: Seg, k: nat)
    requires k < |ps|
    ensures ([p] + ps)[k + 1] == ps[k] && ([p] + ps)[0] == p
  {
  }

  lemma FollowsFirst(c: Conn, now: nat, p: Seg, d: Conn, ps: seq<Seg>, c': Conn, k: nat)
    requires Carries(p, c, now) && p.seqno == c.send.nxt && Speaks(c, d) && k <= |ps|
    requires d.send.nxt == EndOf(p) && d.retx.segs == c.retx.segs + [Queued(p, now)] && Sends(d, now, ps, c')
    ensures var all := [p] + ps;
            && Carries(all[k], c, now) && all[k].seqno == (if k == 0 then c.send.nxt else EndOf(all[k - 1]))
            && c'.retx.segs[|c.retx.segs| + k] == Queued(all[k], now)
  {
    hide EndOf, Queued, Carries, Bytes;
    var n := |c.retx.segs|;
    if k == 0 {
      assert c'.retx.segs[n] == d.retx.segs[n];
    } else {
      Shifted(ps, p, k - 1);
      CarriesSame(ps[k - 1], c, d, now);
      assert c'.retx.segs[|d.retx.segs| + (k - 1)] == Queued(ps[k - 1], now);
      if k > 1 {
        Shifted(ps, p, k - 2);
      }
    }
  }

  lemma BytesFirst(p: Seg, ps: seq<Seg>, rest: seq<byte>)
    ensures Bytes([p] + ps) + rest == p.payload + (Bytes(ps) + rest)
  {
    assert ([p] + ps)[1..] == ps;
  }

  /** One segment, and then more. */
  lemma SentFirst(c: Conn, now: nat, p: Seg, d: Conn, ps: seq<Seg>, c': Conn)
    requires Carries(p, c, now) && p.seqno == c.send.nxt && p.payload + d.sendBuf == c.sendBuf
    requires d.send == c.send.(nxt := EndOf(p)) && d.retx == c.retx.(segs := c.retx.segs + [Queued(p, now)])
    requires Speaks(c, d) && Sends(d, now, ps, c')
    ensures Sends(c, now, [p] + ps, c')
  {
    hide EndOf, Queued, Carries, Bytes;
    var all := [p] + ps;
    BytesFirst(p, ps, c'.sendBuf);
    forall k | 0 <= k < |all|
      ensures Carries(all[k], c, now) && all[k].seqno == (if k == 0 then c.send.nxt else EndOf(all[k - 1]))
      ensures c'.retx.segs[|c.retx.segs| + k] == Queued(all[k], now)
    {
      FollowsFirst(c, now, p, d, ps, c', k);
    }
    forall i | 0 <= i < |c.retx.segs|
      ensures c'.retx.segs[i] == c.retx.segs[i]
    {
      assert c'.retx.segs[i] == d.retx.segs[i];
    }
    if ps != [] {
      Shifted(ps, p, |ps| - 1);
    }
  }

  lemma {:induction false} PipeSends(c: Conn, limit: u32, now: nat)
    requires c.opt.tsVal == Low32(now)
    ensures var r := FillPipe(c, limit, now); Sends(c, now, r.1, r.0)
    decreases |c.sendBuf|
  {
    var pipe := Retransmit.Pipe(c.retx);
    hide Retransmit.Pipe, Sends, Carries, EndOf, Queued, Low32;
    var n := if pipe >= limit then 0 else Min(Min(limit - pipe, c.opt.sendMss), |c.sendBuf|);
    if c.sendBuf == [] || n == 0 {
      NothingSent(c, now, c);
    } else {
      OneSent(c, n, now);
      var t := Transmit(c, n, PSH + ACK, now);
      hide Transmit;
      PipeSends(t.0, limit, now);
      var rest := FillPipe(t.0, limit, now);
      SentFirst(c, now, t.1, t.0, rest.1, rest.0);
    }
  }

  lemma PaceFields(c: Conn, pacing: real, n: nat, now: nat)
    ensures var p := Pace(c, pacing, n, now); p == c.(clock := p.clock)
  {
    hide Ceil;
  }

  lemma SendsFromPaced(c: Conn, p: Conn, now: nat, ps: seq<Seg>, c': Conn)
    requires p == c.(clock := p.clock) && Sends(p, now, ps, c')
    ensures Sends(c, now, ps, c')
  {
    hide EndOf, Queued, Carries, Bytes;
    forall k | 0 <= k < |ps|
      ensures Carries(ps[k], c, now)
    {
      CarriesSame(ps[k], c, p, now);
    }
  }

  lemma NextFits(c: Conn, pacing: real, now: nat)
    ensures var n := NextSend(c, pacing, now); n <= |c.sendBuf| && n <= c.opt.sendMss
  {
    hide UsableWindow, FlightSize;
  }

  lemma {:induction false} WindowSends(c: Conn, pacing: real, now: nat)
    requires c.opt.tsVal == Low32(now)
    ensures var r := FillWindow(c, pacing, now); Sends(c, now, r.1, r.0)
    decreases |c.sendBuf|
  {
    hide Sends, Carries, EndOf, Queued, Low32, NextSend;
    NextFits(c, pacing, now);
    var n := NextSend(c, pacing, now);
    if c.sendBuf == [] || n == 0 {
      NothingSent(c, now, c);
    } else {
      var p := Pace(c, pacing, n, now);
      PaceFields(c, pacing, n, now);
      hide Pace;
      OneSent(p, n, now);
      var t := Transmit(p, n, PSH + ACK, now);
      hide Transmit;
      WindowSends(t.0, pacing, now);
      var rest := FillWindow(t.0, pacing, now);
      SentFirst(p, now, t.1, t.0, rest.1, rest.0);
      SendsFromPaced(c, p, now, [t.1] + rest.1, rest.0);
    }
  }

  // ---- holes ----

  /** At least three SACKed entries start after entry i: where they are. */
  ghost predicate ThreeAbove(segs: seq<Retransmit.Unacked>, i: int, x: int, y: int, z: int) {
    && 0 <= i < |segs| && 0 <= x < y < z < |segs|
    && Above(segs, i, x) && Above(segs, i, y) && Above(segs, i, z)
  }

  predicate Above(segs: seq<Retransmit.Unacked>, i: int, j: int)
    requires 0 <= i < |segs| && 0 <= j < |segs|
  {
    AboveStart(segs[j], segs[i].start)
  }

  predicate AboveStart(x: Retransmit.Unacked, start: u32) {
    x.sacked && After(x.start, start)
  }

  /** k entries of the list, at ever later places. */
  ghost predicate Places(segs: seq<Retransmit.Unacked>, start: u32, m: seq<int>) {
    && (forall j :: 0 <= j < |m| ==> 0 <= m[j] < |segs| && AboveStart(segs[m[j]], start))
    && forall i, j :: 0 <= i < j < |m| ==> m[i] < m[j]
  }

  /** The count names as many places, and no more can be named. */
  lemma {:induction false} CountPlaces(segs: seq<Retransmit.Unacked>, start: u32) returns (m: seq<int>)
    ensures Places(segs, start, m) && |m| == Retransmit.SackedAbove(segs, start)
    ensures forall i :: 0 <= i < |segs| && AboveStart(segs[i], start) ==> i in m
  {
    hide After;
    m := [];
    if segs != [] {
      var n := |segs| - 1;
      var front := CountPlaces(segs[..n], start);
      m := front + if AboveStart(segs[n], start) then [n] else [];
      forall i | 0 <= i < |segs| && AboveStart(segs[i], start)
        ensures i in m
      {
        if i < n {
          assert segs[..n][i] == segs[i];
        }
      }
    }
  }

  /** An entry is presumed lost exactly when it is not SACKed and three SACKed entries start after it. */
  lemma LostExactly(segs: seq<Retransmit.Unacked>, i: nat)
    requires i < |segs|
    ensures Retransmit.IsLost(segs, i) <==> !segs[i].sacked && exists x, y, z :: ThreeAbove(segs, i, x, y, z)
  {
    hide After;
    var m := CountPlaces(segs, segs[i].start);
    hide Retransmit.SackedAbove;
    if Retransmit.IsLost(segs, i) {
      assert ThreeAbove(segs, i, m[0], m[1], m[2]);
    }
    if x, y, z :| ThreeAbove(segs, i, x, y, z) {
      assert x in m && y in m && z in m;
      ThreeMembers(m, x, y, z);
    }
  }

  lemma ThreeMembers(m: seq<int>, x: int, y: int, z: int)
    requires x in m && y in m && z in m && x != y && y != z && x != z
    ensures |m| >= 3
  {
    var i :| 0 <= i < |m| && m[i] == x;
    var j :| 0 <= j < |m| && m[j] == y;
    var k :| 0 <= k < |m| && m[k] == z;
  }

  /** The packets outs are those of the entries of q at the places m, all of them holes not tried before, lowest first
      and none left out between. */
  ghost predicate HolePlaces(q: Retransmit.Retx, outs: seq<Seg>, m: seq<nat>) {
    && |m| == |outs| && (forall i, j :: 0 <= i < j < |m| ==> m[i] < m[j])
    && (forall k :: 0 <= k < |m| ==> m[k] < |q.segs| && Retransmit.Untried(q.segs, m[k]) && outs[k] == q.segs[m[k]].packet)
    && forall i, k :: 0 <= k < |m| && 0 <= i < m[k] && Retransmit.Untried(q.segs, i) ==> i in m
  }

  /** r is q with exactly the entries at the places m re-stamped and counted. */
  predicate Restamped(q: Retransmit.Retx, now: nat, r: Retransmit.Retx, m: seq<nat>) {
    && |r.segs| == |q.segs| && r == q.(segs := r.segs)
    && forall i :: 0 <= i < |q.segs| ==>
         r.segs[i] == if i in m then q.segs[i].(sentAt := now, retries := q.segs[i].retries + 1) else q.segs[i]
  }

  ghost predicate ResendsHoles(q: Retransmit.Retx, now: nat, outs: seq<Seg>, r: Retransmit.Retx, m: seq<nat>) {
    HolePlaces(q, outs, m) && Restamped(q, now, r, m)
  }

  /** Resending a hole leaves the others holes. */
  lemma UntriedAfter(q: Retransmit.Retx, at: nat, now: nat, i: nat)
    requires at < |q.segs| && i < |q.segs| && Retransmit.Untried(q.segs, at)
    ensures var t := q.segs[at := Retransmit.Touch(q.segs[at], now)];
            Retransmit.Untried(t, i) <==> i != at && Retransmit.Untried(q.segs, i)
  {
    var t := q.segs[at := Retransmit.Touch(q.segs[at], now)];
    assert Retransmit.SameShape(q.segs, t);
    RecoveryBooks.LostShape(q.segs, t, i);
    hide Retransmit.SackedAbove;
  }

  lemma FirstPlace(q: Retransmit.Retx, t: Retransmit.Retx, at: nat, outs: seq<Seg>, m: seq<nat>)
    requires at < |q.segs| == |t.segs| && Retransmit.Untried(q.segs, at)
    requires forall j :: 0 <= j < at ==> !Retransmit.Untried(q.segs, j)
    requires forall i :: 0 <= i < |q.segs| ==> (Retransmit.Untried(t.segs, i) <==> i != at && Retransmit.Untried(q.segs, i))
    requires forall i :: 0 <= i < |q.segs| ==> t.segs[i].packet == q.segs[i].packet
    requires HolePlaces(t, outs, m)
    ensures HolePlaces(q, [q.segs[at].packet] + outs, [at] + m) && forall k :: 0 <= k < |m| ==> m[k] != at
  {
    hide Retransmit.Untried;
    assert forall k :: 0 <= k < |m| ==> m[k] > at;
  }

  lemma FirstRestamped(q: Retransmit.Retx, at: nat, now: nat, r: Retransmit.Retx, m: seq<nat>)
    requires at < |q.segs| && at !in m
    requires Restamped(q.(segs := q.segs[at := Retransmit.Touch(q.segs[at], now)]), now, r, m)
    ensures Restamped(q, now, r, [at] + m)
  {
  }

  lemma FirstHole(q: Retransmit.Retx, at: nat, now: nat, outs: seq<Seg>, r: Retransmit.Retx, m: seq<nat>)
    requires at < |q.segs| && Retransmit.Untried(q.segs, at) && forall j :: 0 <= j < at ==> !Retransmit.Untried(q.segs, j)
    requires ResendsHoles(q.(segs := q.segs[at := Retransmit.Touch(q.segs[at], now)]), now, outs, r, m)
    ensures ResendsHoles(q, now, [q.segs[at].packet] + outs, r, [at] + m)
  {
    var t := q.(segs := q.segs[at := Retransmit.Touch(q.segs[at], now)]);
    forall i | 0 <= i < |q.segs|
      ensures Retransmit.Untried(t.segs, i) <==> i != at && Retransmit.Untried(q.segs, i)
    {
      UntriedAfter(q, at, now, i);
    }
    hide Retransmit.Untried, HolePlaces, Restamped;
    FirstPlace(q, t, at, outs, m);
    FirstRestamped(q, at, now, r, m);
  }

  lemma NoHole(q: Retransmit.Retx, now: nat)
    ensures ResendsHoles(q, now, [], q, [])
  {
  }

  lemma {:induction false} HolesExactly(q: Retransmit.Retx, limit: u32, now: nat) returns (m: seq<nat>)
    ensures var r := FillHoles(q, limit, now); ResendsHoles(q, now, r.1, r.0, m)
    decreases Retransmit.NeverResent(q.segs)
  {
    hide Retransmit.Pipe, ResendsHoles, Retransmit.Untried;
    var at := Retransmit.NextUntried(q.segs, 0);
    if Retransmit.Pipe(q) < limit && at.Some? {
      assert q.segs[at.value].retries == 0 by { UntriedFresh(q.segs, at.value); }
      Retransmit.NeverResentDrops(q.segs, at.value, now);
      var r := Retransmit.NextLostRetransmit(q, now);
      var rest := HolesExactly(r.0, limit, now);
      FirstHole(q, at.value, now, FillHoles(r.0, limit, now).1, FillHoles(r.0, limit, now).0, rest);
      m := [at.value] + rest;
    } else {
      NoHole(q, now);
      m := [];
    }
  }

  lemma UntriedFresh(segs: seq<Retransmit.Unacked>, i: nat)
    requires i < |segs| && Retransmit.Untried(segs, i)
    ensures segs[i].retries == 0
  {
  }

  lemma ArmedSends(c: Conn, now: nat, ps: seq<Seg>, f: Conn)
    requires Sends(c, now, ps, f)
    ensures Sends(c, now, ps, ArmProbe(f, now))
  {
    assert ArmProbe(f, now) == f.(clock := ArmProbe(f, now).clock) by { hide FlightSize, Rtt.Rto; }
    hide ArmProbe, Carries, EndOf, Queued;
  }

  // ---- how much ----

  /** Bytes already out when the segment at `seqno` goes. */
  function Out(c: Conn, seqno: u32): u32 {
    Sub(seqno, c.send.una)
  }

  /** Segment k of ps is as long as the smaller window, the segment size and the data left allow. */
  predicate AsLongAsAllowed(c: Conn, ps: seq<Seg>, k: nat)
    requires k < |ps|
  {
    |ps[k].payload| ==
    Min(Min(SatSub(Min(c.send.wnd, Congestion.Cwnd(c.cong)), Out(c, ps[k].seqno)), c.opt.sendMss),
        |c.sendBuf| - |Bytes(ps[..k])|)
  }

  /** Outside the recovery branch every segment is as long as it may be. */
  lemma {:induction false} WindowSizes(c: Conn, pacing: real, now: nat, k: nat)
    requires c.opt.tsVal == Low32(now) && k < |FillWindow(c, pacing, now).1|
    ensures AsLongAsAllowed(c, FillWindow(c, pacing, now).1, k)
    decreases |c.sendBuf|
  {
    hide Carries, EndOf, Queued, Low32, Sub, Congestion.Cwnd;
    NextFits(c, pacing, now);
    var n := NextSend(c, pacing, now);
    var p := Pace(c, pacing, n, now);
    PaceFields(c, pacing, n, now);
    hide Pace;
    OneSent(p, n, now);
    var t := Transmit(p, n, PSH + ACK, now);
    var rest := FillWindow(t.0, pacing, now).1;
    var all := FillWindow(c, pacing, now).1;
    assert all == [t.1] + rest;
    hide Transmit, FillWindow;
    if k == 0 {
      NextIs(c, pacing, now);
    } else {
      WindowSizes(t.0, pacing, now, k - 1);
      assert all[..k][1..] == rest[..k - 1];
      assert Bytes(all[..k]) == t.1.payload + Bytes(rest[..k - 1]);
      hide NextSend;
    }
  }

  lemma NextIs(c: Conn, pacing: real, now: nat)
    requires NextSend(c, pacing, now) != 0
    ensures NextSend(c, pacing, now) ==
            Min(Min(SatSub(Min(c.send.wnd, Congestion.Cwnd(c.cong)), Out(c, c.send.nxt)), c.opt.sendMss), |c.sendBuf|)
  {
    hide Congestion.Cwnd, Sub;
  }

  /** The queue when segment k of the new data goes, out of the queue at the end. */
  function QueueAt(c: Conn, end: Retransmit.Retx, k: nat): Retransmit.Retx
    requires |c.retx.segs| + k <= |end.segs|
  {
    end.(segs := end.segs[..|c.retx.segs| + k])
  }

  /** Segment k of ps is as long as the room in the pipe, the segment size and the data left allow. */
  predicate FillsPipe(c: Conn, limit: u32, ps: seq<Seg>, end: Retransmit.Retx, k: nat)
    requires k < |ps| && |c.retx.segs| + k <= |end.segs|
  {
    |ps[k].payload| ==
    Min(Min(SatSub(limit, Retransmit.Pipe(QueueAt(c, end, k))), c.opt.sendMss), |c.sendBuf| - |Bytes(ps[..k])|)
  }

  lemma QueuedBehind(c: Conn, limit: u32, now: nat)
    requires c.opt.tsVal == Low32(now)
    ensures var r := FillPipe(c, limit, now);
            && |r.0.retx.segs| == |c.retx.segs| + |r.1| && r.0.retx == c.retx.(segs := r.0.retx.segs)
            && r.0.retx.segs[..|c.retx.segs|] == c.retx.segs
  {
    PipeSends(c, limit, now);
    hide FillPipe, Carries, EndOf, Queued;
  }

  /** In the recovery branch every new segment is. */
  lemma {:induction false} PipeSizes(c: Conn, limit: u32, now: nat, k: nat)
    requires c.opt.tsVal == Low32(now) && k < |FillPipe(c, limit, now).1|
    ensures var r := FillPipe(c, limit, now);
            |r.0.retx.segs| == |c.retx.segs| + |r.1| && FillsPipe(c, limit, r.1, r.0.retx, k)
    decreases |c.sendBuf|
  {
    hide FillPipe, Retransmit.Pipe, Carries, EndOf, Queued, Low32, Transmit;
    QueuedBehind(c, limit, now);
    var n := PipeUnfold(c, limit, now);
    OneSent(c, n, now);
    var t := Transmit(c, n, PSH + ACK, now);
    var r, rest := FillPipe(c, limit, now), FillPipe(t.0, limit, now);
    if k == 0 {
      assert QueueAt(c, r.0.retx, 0) == c.retx;
    } else {
      PipeSizes(t.0, limit, now, k - 1);
      assert QueueAt(t.0, rest.0.retx, k - 1) == QueueAt(c, r.0.retx, k);
      assert r.1[..k][1..] == rest.1[..k - 1];
      assert Bytes(r.1[..k]) == t.1.payload + Bytes(rest.1[..k - 1]);
    }
  }

  /** The first segment and the rest. */
  lemma PipeUnfold(c: Conn, limit: u32, now: nat) returns (n: nat)
    requires FillPipe(c, limit, now).1 != []
    ensures Retransmit.Pipe(c.retx) < limit && 0 < n == Min(Min(limit - Retransmit.Pipe(c.retx), c.opt.sendMss), |c.sendBuf|)
    ensures var t := Transmit(c, n, PSH + ACK, now);
            var rest := FillPipe(t.0, limit, now);
            FillPipe(c, limit, now) == (rest.0, [t.1] + rest.1)
  {
    hide Retransmit.Pipe, Transmit;
    n := Min(Min(limit - Retransmit.Pipe(c.retx), c.opt.sendMss), |c.sendBuf|);
  }

  lemma PipeAll(c: Conn, limit: u32, now: nat)
    requires c.opt.tsVal == Low32(now)
    ensures var r := FillPipe(c, limit, now);
            && |r.0.retx.segs| == |c.retx.segs| + |r.1|
            && forall k :: 0 <= k < |r.1| ==> FillsPipe(c, limit, r.1, r.0.retx, k)
  {
    QueuedBehind(c, limit, now);
    var r := FillPipe(c, limit, now);
    hide FillPipe, FillsPipe;
    forall k | 0 <= k < |r.1|
      ensures FillsPipe(c, limit, r.1, r.0.retx, k)
    {
      PipeSizes(c, limit, now, k);
    }
  }

  lemma WindowAll(c: Conn, pacing: real, now: nat)
    requires c.opt.tsVal == Low32(now)
    ensures var ps := FillWindow(c, pacing, now).1; forall k :: 0 <= k < |ps| ==> AsLongAsAllowed(c, ps, k)
  {
    hide FillWindow, AsLongAsAllowed;
    forall k | 0 <= k < |FillWindow(c, pacing, now).1|
      ensures AsLongAsAllowed(c, FillWindow(c, pacing, now).1, k)
    {
      WindowSizes(c, pacing, now, k);
    }
  }

  // ---- the whole poll ----

  lemma RecoveryPoll(c: Conn, now: nat) returns (holes: seq<Seg>, data: seq<Seg>, m: seq<nat>, mid: Retransmit.Retx)
    requires (c.state == Established || c.state == CloseWait) && c.opt.sackOk && Congestion.InRecovery(c.cong)
    requires c.opt.tsVal == Low32(now)
    ensures var limit := Min(c.send.wnd, Congestion.Cwnd(c.cong));
            var fill := FillPipe(c.(retx := mid), limit, now);
            && (var h := FillHoles(c.retx, limit, now); (fill.0, h.1 + fill.1)) == (fill.0, holes + data)
            && ResendsHoles(c.retx, now, holes, mid, m) && Sends(c.(retx := mid), now, data, fill.0)
            && data == fill.1 && mid == FillHoles(c.retx, limit, now).0
            && |fill.0.retx.segs| == |mid.segs| + |data|
            && forall k :: 0 <= k < |data| ==> FillsPipe(c.(retx := mid), limit, data, fill.0.retx, k)
  {
    hide FillHoles, FillPipe, Sends, ResendsHoles, FillsPipe, Low32, Congestion.Cwnd;
    var limit := Min(c.send.wnd, Congestion.Cwnd(c.cong));
    var h := FillHoles(c.retx, limit, now);
    m := HolesExactly(c.retx, limit, now);
    PipeSends(c.(retx := h.0), limit, now);
    PipeAll(c.(retx := h.0), limit, now);
    holes, data, mid := h.1, FillPipe(c.(retx := h.0), limit, now).1, h.0;
  }

  lemma WindowPoll(c: Conn, now: nat) returns (data: seq<Seg>)
    requires c.opt.tsVal == Low32(now)
    ensures var fill := FillWindow(c, Congestion.PacingRate(c.cong), now);
            && data == fill.1 && Sends(c, now, data, ArmProbe(fill.0, now))
            && forall k :: 0 <= k < |data| ==> AsLongAsAllowed(c, data, k)
  {
    hide FillWindow, Sends, ArmProbe, AsLongAsAllowed, Low32, Congestion.PacingRate;
    data := FillWindow(c, Congestion.PacingRate(c.cong), now).1;
    WindowSends(c, Congestion.PacingRate(c.cong), now);
    WindowAll(c, Congestion.PacingRate(c.cong), now);
    ArmedSends(c, now, data, FillWindow(c, Congestion.PacingRate(c.cong), now).0);
  }

  /** The clock is nothing to the room there is. */
  lemma SameRoom(c: Conn, d: Conn)
    requires d == c.(opt := c.opt.(tsVal := d.opt.tsVal))
    ensures forall ps: seq<Seg>, k: nat | k < |ps| :: AsLongAsAllowed(d, ps, k) == AsLongAsAllowed(c, ps, k)
    ensures forall limit, ps: seq<Seg>, mid: Retransmit.Retx, end: Retransmit.Retx, k: nat |
              k < |ps| && |mid.segs| + k <= |end.segs| ::
              FillsPipe(d.(retx := mid), limit, ps, end, k) == FillsPipe(c.(retx := mid), limit, ps, end, k)
  {
    hide Bytes, Congestion.Cwnd, Sub, Retransmit.Pipe;
  }

  /** What a poll of an open connection sends: in SACK recovery first holes and then new data, each segment as long as
      the room in the pipe allows; otherwise new data alone, each segment as long as the window allows. The new
      segments are queued behind what was queued, with their bytes taken from the send buffer in order, and nothing
      else is touched. */
  lemma PollExactly(c: Conn, now: nat) returns (holes: seq<Seg>, data: seq<Seg>, m: seq<nat>, mid: Retransmit.Retx)
    requires c.state == Established || c.state == CloseWait
    ensures PollTransmit(c, now).1 == holes + data
    ensures ResendsHoles(c.retx, now, holes, mid, m)
    ensures Sends(c.(opt := c.opt.(tsVal := Low32(now)), retx := mid), now, data, PollTransmit(c, now).0)
    ensures if c.opt.sackOk && Congestion.InRecovery(c.cong) then
              && |PollTransmit(c, now).0.retx.segs| == |mid.segs| + |data|
              && forall k :: 0 <= k < |data| ==>
                   FillsPipe(c.(retx := mid), Min(c.send.wnd, Congestion.Cwnd(c.cong)), data, PollTransmit(c, now).0.retx, k)
            else holes == [] && forall k :: 0 <= k < |data| ==> AsLongAsAllowed(c, data, k)
  {
    var c1 := c.(opt := c.opt.(tsVal := Low32(now)));
    hide FillHoles, FillPipe, FillWindow, ArmProbe, Sends, ResendsHoles, Low32, Congestion.Cwnd, FillsPipe,
      AsLongAsAllowed,
      Congestion.PacingRate;
    SameRoom(c, c1);
    if c.opt.sackOk && Congestion.InRecovery(c.cong) {
      holes, data, m, mid := RecoveryPoll(c1, now);
    } else {
      NoHole(c.retx, now);
      data := WindowPoll(c1, now);
      holes, m, mid := [], [], c.retx;
      assert holes + data == data;
    }
  }

  /** How long one more segment could be. */
  function Room(c: Conn): nat {
    Min(Min(SatSub(Min(c.send.wnd, Congestion.Cwnd(c.cong)), Out(c, c.send.nxt)), c.opt.sendMss), |c.sendBuf|)
  }

  /** Why no more goes: nothing to send or no room for it; Nagle, if it is on, for a short segment while something is in
      flight; or the pacing clock. */
  predicate Waits(c: Conn, now: nat) {
    || Room(c) == 0
    || (c.opt.nagle && Room(c) < c.opt.sendMss && c.send.una != c.send.nxt)
    || (Congestion.PacingRate(c.cong) > 0.0 && now < c.clock.nextSendMs)
  }

  lemma NoneIs(c: Conn, now: nat)
    requires c.sendBuf == [] || NextSend(c, Congestion.PacingRate(c.cong), now) == 0
    ensures Waits(c, now)
  {
    Timeouts.FlightIs(c.send.una, c.send.nxt);
    hide Congestion.Cwnd, Sub, Congestion.PacingRate;
  }

  lemma {:induction false} FillStops(c: Conn, now: nat)
    ensures Waits(FillWindow(c, Congestion.PacingRate(c.cong), now).0, now)
    decreases |c.sendBuf|
  {
    hide Waits, NextSend, Congestion.PacingRate;
    var pacing := Congestion.PacingRate(c.cong);
    NextFits(c, pacing, now);
    var n := NextSend(c, pacing, now);
    if c.sendBuf == [] || n == 0 {
      NoneIs(c, now);
    } else {
      var p := Pace(c, pacing, n, now);
      PaceFields(c, pacing, n, now);
      hide Pace;
      var t := Transmit(p, n, PSH + ACK, now);
      assert t.0.cong == c.cong && |t.0.sendBuf| < |c.sendBuf| by { hide Segment, Add, Sub, Low32; }
      hide Transmit;
      FillStops(t.0, now);
    }
  }

  /** Outside the recovery branch a poll stops for one of these reasons only. */
  lemma PollStops(c: Conn, now: nat)
    requires (c.state == Established || c.state == CloseWait) && !(c.opt.sackOk && Congestion.InRecovery(c.cong))
    ensures Waits(PollTransmit(c, now).0, now)
  {
    var c1 := c.(opt := c.opt.(tsVal := Low32(now)));
    hide FillWindow, Waits, Low32, Congestion.PacingRate, FillHoles, FillPipe, ArmProbe;
    FillStops(c1, now);
    ArmedWaits(FillWindow(c1, Congestion.PacingRate(c1.cong), now).0, now);
  }

  lemma ArmedWaits(f: Conn, now: nat)
    ensures Waits(ArmProbe(f, now), now) == Waits(f, now)
  {
    assert ArmProbe(f, now) == f.(clock := f.clock.(tlpDeadlineMs := ArmProbe(f, now).clock.tlpDeadlineMs,
                                                   tlpSent := ArmProbe(f, now).clock.tlpSent)) by { hide FlightSize, Rtt.Rto; }
    hide ArmProbe, Congestion.Cwnd, Congestion.PacingRate, Sub;
  }

  /** Closing sends and queues one FIN at SND.NXT, with the present RCV.NXT, and moves SND.NXT past it. */
  lemma CloseExactly(c: Conn, now: nat)
    requires c.state == Established || c.state == CloseWait
    ensures var r := Close(c, now);
            && r.1.Some? && Reports(r.1.value, c, now) && r.1.value.opts.sack == [] && r.1.value.flags == FIN + ACK
            && r.1.value.seqno == c.send.nxt && r.1.value.payload == []
            && r.0 == c.(state := if c.state == Established then FinWait1 else LastAck,
                         opt := c.opt.(tsVal := Low32(now)), send := c.send.(nxt := Add(c.send.nxt, 1)),
                         retx := c.retx.(segs := c.retx.segs +
                           [Retransmit.Unacked(c.send.nxt, Add(c.send.nxt, 1), r.1.value, now, 0, false)]))
  {
    hide Add, Low32;
  }
}
