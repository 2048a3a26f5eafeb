/** The retransmission queue (`RetxQueue` in src/tcp.rs): what each operation does to the queue as a
    value. `RetxQueue` in RetxQueue.dfy is the object that does it in place. */
module Retransmit {
  import opened Types
  import opened SeqNum
  import opened Segments

  const DUP_THRESH := 3

  datatype Unacked = Unacked(start: u32, end: u32, packet: Seg, sentAt: nat, retries: nat, sacked: bool)

  datatype Retx = Retx(segs: seq<Unacked>, rackTs: nat, rackEnd: u32)

  const EMPTY := Retx([], 0, 0)

  function Record(q: Retx, start: u32, end: u32, packet: Seg, now: nat): Retx {
    q.(segs := q.segs + [Unacked(start, end, packet, now, 0, false)])
  }

  // ---- acknowledgement ----

  /** The segments `una` does not cover yet, in order. */
  function Keep(segs: seq<Unacked>, una: u32): (r: seq<Unacked>)
    ensures |r| <= |segs|
  {
    if segs == [] then [] else
      var n := |segs| - 1;
      Keep(segs[..n], una) + if Before(una, segs[n].end) then [segs[n]] else []
  }

  /** RTT sample and RACK bookkeeping, threaded through the dropped segments in order. */
  datatype AckScan = AckScan(sample: Option<nat>, rackTs: nat, rackEnd: u32)

  function ScanOne(a: AckScan, s: Unacked, una: u32, now: nat): AckScan {
    if Before(una, s.end) then a else
      var sample := if s.retries == 0 && a.sample.None? then Some(SatSub(now, s.sentAt)) else a.sample;
      if s.sentAt >= a.rackTs then AckScan(sample, s.sentAt, s.end) else AckScan(sample, a.rackTs, a.rackEnd)
  }

  function Scan(q: Retx, una: u32, now: nat, n: nat): AckScan
    requires n <= |q.segs|
  {
    if n == 0 then AckScan(None, q.rackTs, q.rackEnd)
    else ScanOne(Scan(q, una, now, n - 1), q.segs[n - 1], una, now)
  }

  function Ack(q: Retx, una: u32, now: nat): (Retx, Option<nat>) {
    var scan := Scan(q, una, now, |q.segs|);
    (Retx(Keep(q.segs, una), scan.rackTs, scan.rackEnd), scan.sample)
  }

  // ---- retransmission ----

  function Touch(s: Unacked, now: nat): Unacked {
    s.(sentAt := now, retries := s.retries + 1)
  }

  /** Resend every segment `p` selects: new timers, and the packets in order. */
  function TouchAll(segs: seq<Unacked>, p: Unacked -> bool, now: nat): (r: seq<Unacked>)
    ensures |r| == |segs|
    ensures forall i :: 0 <= i < |segs| ==> r[i] == if p(segs[i]) then Touch(segs[i], now) else segs[i]
  {
    if segs == [] then [] else
      var n := |segs| - 1;
      TouchAll(segs[..n], p, now) + [if p(segs[n]) then Touch(segs[n], now) else segs[n]]
  }

  predicate PacketIn(segs: seq<Unacked>, p: Seg) {
    exists i :: 0 <= i < |segs| && segs[i].packet == p
  }

  predicate PacketsIn(segs: seq<Unacked>, ps: seq<Seg>) {
    forall p :: p in ps ==> PacketIn(segs, p)
  }

  function Packets(segs: seq<Unacked>, p: Unacked -> bool): (r: seq<Seg>)
    ensures PacketsIn(segs, r)
  {
    if segs == [] then [] else
      var n := |segs| - 1;
      Packets(segs[..n], p) + if p(segs[n]) then [segs[n].packet] else []
  }

  function IsDue(now: nat, rto: nat): Unacked -> bool {
    (s: Unacked) => !s.sacked && SatSub(now, s.sentAt) >= rto
  }

  function Due(q: Retx, now: nat, rto: nat): (Retx, seq<Seg>) {
    (q.(segs := TouchAll(q.segs, IsDue(now, rto), now)), Packets(q.segs, IsDue(now, rto)))
  }

  function IsRackLost(q: Retx, now: nat, reoWnd: nat): Unacked -> bool {
    (s: Unacked) => !s.sacked && s.sentAt < q.rackTs && Before(s.start, q.rackEnd) &&
                    SatSub(now, s.sentAt) > reoWnd
  }

  function RackMarkLost(q: Retx, now: nat, reoWnd: nat): (Retx, seq<Seg>) {
    (q.(segs := TouchAll(q.segs, IsRackLost(q, now, reoWnd), now)), Packets(q.segs, IsRackLost(q, now, reoWnd)))
  }

  /** The first index at or after `i` that is not SACKed. */
  function FirstUnsacked(segs: seq<Unacked>, i: nat): (r: Option<nat>)
    requires i <= |segs|
    ensures r.Some? ==> i <= r.value < |segs| && !segs[r.value].sacked &&
                        forall j :: i <= j < r.value ==> segs[j].sacked
    ensures r.None? ==> forall j :: i <= j < |segs| ==> segs[j].sacked
    decreases |segs| - i
  {
    if i == |segs| then None else if !segs[i].sacked then Some(i) else FirstUnsacked(segs, i + 1)
  }

  /** The last index below `n` that is not SACKed. */
  function LastUnsacked(segs: seq<Unacked>, n: nat): (r: Option<nat>)
    requires n <= |segs|
    ensures r.Some? ==> r.value < n && !segs[r.value].sacked &&
                        forall j :: r.value < j < n ==> segs[j].sacked
    ensures r.None? ==> forall j :: 0 <= j < n ==> segs[j].sacked
  {
    if n == 0 then None else if !segs[n - 1].sacked then Some(n - 1) else LastUnsacked(segs, n - 1)
  }

  function Resend(q: Retx, at: Option<nat>, now: nat): (Retx, Option<Seg>)
    requires at.Some? ==> at.value < |q.segs|
  {
    if at.None? then (q, None) else
      (q.(segs := q.segs[at.value := Touch(q.segs[at.value], now)]), Some(q.segs[at.value].packet))
  }

  function FastRetransmit(q: Retx, now: nat): (Retx, Option<Seg>) {
    Resend(q, FirstUnsacked(q.segs, 0), now)
  }

  function RetransmitLast(q: Retx, now: nat): (Retx, Option<Seg>) {
    Resend(q, LastUnsacked(q.segs, |q.segs|), now)
  }

  // ---- selective acknowledgement ----

  predicate Covers(b: Block, s: Unacked) {
    !Before(s.start, b.left) && !After(s.end, b.right)
  }

  predicate Covered(blocks: seq<Block>, s: Unacked) {
    exists b :: b in blocks && Covers(b, s)
  }

  function MarkOne(blocks: seq<Block>, s: Unacked): Unacked {
    s.(sacked := s.sacked || Covered(blocks, s))
  }

  /** The first n segments after marking, with the RACK record carried along. */
  function MarkUpTo(q: Retx, blocks: seq<Block>, n: nat): (r: Retx)
    requires n <= |q.segs|
    ensures |r.segs| == n
    ensures forall i :: 0 <= i < n ==> r.segs[i] == MarkOne(blocks, q.segs[i])
  {
    if n == 0 then q.(segs := []) else
      var r := MarkUpTo(q, blocks, n - 1);
      var s := q.segs[n - 1];
      var segs := r.segs + [MarkOne(blocks, s)];
      if !s.sacked && Covered(blocks, s) && s.sentAt >= r.rackTs then Retx(segs, s.sentAt, s.end)
      else r.(segs := segs)
  }

  function MarkSacked(q: Retx, blocks: seq<Block>): Retx {
    MarkUpTo(q, blocks, |q.segs|)
  }

  // ---- the pipe estimate (section 4 of RFC 6675) ----

  function SackedAbove(segs: seq<Unacked>, start: u32): nat {
    if segs == [] then 0 else
      var n := |segs| - 1;
      SackedAbove(segs[..n], start) + if segs[n].sacked && After(segs[n].start, start) then 1 else 0
  }

  predicate IsLost(segs: seq<Unacked>, i: nat)
    requires i < |segs|
  {
    !segs[i].sacked && SackedAbove(segs, segs[i].start) >= DUP_THRESH
  }

  /** Still on the wire: neither held by the receiver nor presumed lost without a resend. */
  predicate InPipe(segs: seq<Unacked>, i: nat)
    requires i < |segs|
  {
    !segs[i].sacked && (!IsLost(segs, i) || segs[i].retries > 0)
  }

  function PipeUpTo(segs: seq<Unacked>, n: nat): u32
    requires n <= |segs|
  {
    if n == 0 then 0 else
      var rest := PipeUpTo(segs, n - 1);
      if InPipe(segs, n - 1) then Add(rest, Sub(segs[n - 1].end, segs[n - 1].start)) else rest
  }

  function Pipe(q: Retx): u32 {
    PipeUpTo(q.segs, |q.segs|)
  }

  /** A hole not tried yet. */
  predicate Untried(segs: seq<Unacked>, i: nat)
    requires i < |segs|
  {
    !segs[i].sacked && segs[i].retries == 0 && IsLost(segs, i)
  }

  function NextUntried(segs: seq<Unacked>, i: nat): (r: Option<nat>)
    requires i <= |segs|
    ensures r.Some? ==> i <= r.value < |segs| && Untried(segs, r.value) &&
                        forall j :: i <= j < r.value ==> !Untried(segs, j)
    ensures r.None? ==> forall j :: i <= j < |segs| ==> !Untried(segs, j)
    decreases |segs| - i
  {
    if i == |segs| then None else if Untried(segs, i) then Some(i) else NextUntried(segs, i + 1)
  }

  function NextLostRetransmit(q: Retx, now: nat): (Retx, Option<Seg>) {
    Resend(q, NextUntried(q.segs, 0), now)
  }

  /** How many queued segments have never been resent: what the recovery loop uses up. */
  function NeverResent(segs: seq<Unacked>): nat {
    if segs == [] then 0 else
      NeverResent(segs[..|segs| - 1]) + if segs[|segs| - 1].retries == 0 then 1 else 0
  }

  lemma {:induction false} NeverResentDrops(segs: seq<Unacked>, i: nat, now: nat)
    requires i < |segs| && segs[i].retries == 0
    ensures NeverResent(segs[i := Touch(segs[i], now)]) == NeverResent(segs) - 1
  {
    var n := |segs| - 1;
    var t := segs[i := Touch(segs[i], now)];
    if i == n {
      assert t[..n] == segs[..n];
    } else {
      NeverResentDrops(segs[..n], i, now);
      assert t[..n] == segs[..n][i := Touch(segs[i], now)];
    }
  }

  // ---- facts the protocol proofs use ----

  /** Same ranges, packets and SACK marks: only timers and counters may differ. */
  predicate SameShape(a: seq<Unacked>, b: seq<Unacked>) {
    |a| == |b| && forall i :: 0 <= i < |a| ==>
      a[i].start == b[i].start && a[i].end == b[i].end && a[i].packet == b[i].packet && a[i].sacked == b[i].sacked
  }

  lemma ShapeSelf(segs: seq<Unacked>)
    ensures SameShape(segs, segs)
  {
  }

  /** Retransmission only ever repeats queued packets and never changes what is queued. */
  lemma ResendKeepsShape(q: Retx, at: Option<nat>, now: nat)
    requires at.Some? ==> at.value < |q.segs|
    ensures SameShape(q.segs, Resend(q, at, now).0.segs)
    ensures Resend(q, at, now).1.Some? ==> PacketIn(q.segs, Resend(q, at, now).1.value)
  {
    if at.Some? {
      assert q.segs[at.value].packet == Resend(q, at, now).1.value;
    }
  }

  lemma DueKeepsShape(q: Retx, now: nat, rto: nat)
    ensures SameShape(q.segs, Due(q, now, rto).0.segs)
    ensures PacketsIn(q.segs, Due(q, now, rto).1)
  {
  }

  lemma RackKeepsShape(q: Retx, now: nat, reoWnd: nat)
    ensures SameShape(q.segs, RackMarkLost(q, now, reoWnd).0.segs)
    ensures PacketsIn(q.segs, RackMarkLost(q, now, reoWnd).1)
  {
  }

  /** If a prefix is acknowledged and the rest is not, exactly the prefix is dropped. */
  lemma {:induction false} KeepSuffix(segs: seq<Unacked>, una: u32, m: nat)
    requires m <= |segs|
    requires forall j :: 0 <= j < m ==> !Before(una, segs[j].end)
    requires forall j :: m <= j < |segs| ==> Before(una, segs[j].end)
    ensures Keep(segs, una) == segs[m..]
  {
    hide Before;
    if segs != [] {
      var n := |segs| - 1;
      var front := segs[..n];
      KeepSuffix(front, una, if m == |segs| then n else m);
      SuffixMore(segs, m);
      hide Keep;
      assert Keep(segs, una) == Keep(front, una) + if Before(una, segs[n].end) then [segs[n]] else [] by { KeepLast(segs, una); }
    }
  }

  lemma KeepLast(segs: seq<Unacked>, una: u32)
    requires segs != []
    ensures var n := |segs| - 1;
            Keep(segs, una) == Keep(segs[..n], una) + if Before(una, segs[n].end) then [segs[n]] else []
  {
    hide Before;
  }

  lemma SuffixMore(segs: seq<Unacked>, m: nat)
    requires m <= |segs| && segs != []
    ensures var n := |segs| - 1;
            segs[m..] == if m == |segs| then segs[..n][n..] else segs[..n][m..] + [segs[n]]
  {
  }
}
