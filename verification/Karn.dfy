/** What an acknowledgement takes out of the retransmission queue, which round-trip sample it yields (Karn's
    algorithm, section 3 of RFC 6298) and what it tells RACK (section 6.2 of RFC 8985), entry by entry. */
module Karn {
  import opened Types
  import opened SeqNum
  import opened Segments
  import opened Retransmit

  /** The acknowledgement covers the whole segment. */
  predicate Done(x: Unacked, una: u32) {
    !Before(una, x.end)
  }

  // ---- the sample ----

  predicate Timed(x: Unacked, una: u32) {
    Done(x, una) && x.retries == 0
  }

  /** Entry i is the first of the first n that is acknowledged and was sent only once. */
  predicate FirstTimed(segs: seq<Unacked>, una: u32, n: nat, i: int) {
    0 <= i < n <= |segs| && Timed(segs[i], una) && forall j :: 0 <= j < i ==> !Timed(segs[j], una)
  }

  lemma {:induction false} ScanSample(q: Retx, una: u32, now: nat, n: nat)
    requires n <= |q.segs|
    ensures Scan(q, una, now, n).sample.None? <==> forall i :: 0 <= i < n ==> !Timed(q.segs[i], una)
    ensures forall i :: FirstTimed(q.segs, una, n, i) ==> Scan(q, una, now, n).sample == Some(SatSub(now, q.segs[i].sentAt))
  {
    hide Before;
    if n > 0 {
      ScanSample(q, una, now, n - 1);
      forall i | FirstTimed(q.segs, una, n, i)
        ensures Scan(q, una, now, n).sample == Some(SatSub(now, q.segs[i].sentAt))
      {
        assert i < n - 1 ==> FirstTimed(q.segs, una, n - 1, i);
      }
    }
  }

  lemma {:induction false} SomeFirst(segs: seq<Unacked>, una: u32, n: nat) returns (i: nat)
    requires n <= |segs| && exists j :: 0 <= j < n && Timed(segs[j], una)
    ensures FirstTimed(segs, una, n, i)
  {
    hide Timed;
    i := 0;
    while !Timed(segs[i], una)
      invariant i < n && forall j :: 0 <= j < i ==> !Timed(segs[j], una)
      invariant exists j :: i <= j < n && Timed(segs[j], una)
      decreases n - i
    {
      i := i + 1;
    }
  }

  /** Karn's algorithm: the sample is how long ago the first acknowledged segment that was sent only once was
      sent; if every acknowledged segment was resent there is none. */
  lemma SampleExactly(q: Retx, una: u32, now: nat)
    ensures var r := Ack(q, una, now).1;
            && (r.None? <==> forall i :: 0 <= i < |q.segs| && !Before(una, q.segs[i].end) ==> q.segs[i].retries > 0)
            && forall t :: r == Some(t) <==>
                 exists i :: FirstTimed(q.segs, una, |q.segs|, i) && t == SatSub(now, q.segs[i].sentAt)
  {
    ScanSample(q, una, now, |q.segs|);
    hide Before, Keep, Scan;
    var r := Ack(q, una, now).1;
    if r.Some? {
      var i := SomeFirst(q.segs, una, |q.segs|);
      assert r == Some(SatSub(now, q.segs[i].sentAt));
    }
  }

  // ---- RACK's record ----

  /** (ts, end) is what RACK remembers after hearing of the first n entries that p selects: the latest
      transmission so far, and where the last segment sent at that time ends. */
  ghost predicate Latest(q: Retx, p: Unacked -> bool, n: nat, ts: nat, end: u32) {
    && n <= |q.segs|
    && ts >= q.rackTs && (forall i :: 0 <= i < n && p(q.segs[i]) ==> q.segs[i].sentAt <= ts)
    && if exists i :: 0 <= i < n && p(q.segs[i]) && q.segs[i].sentAt >= q.rackTs then
         exists i :: LastSent(q, p, n, ts, i) && end == q.segs[i].end
       else ts == q.rackTs && end == q.rackEnd
  }

  predicate LastSent(q: Retx, p: Unacked -> bool, n: nat, ts: nat, i: int) {
    && 0 <= i < n <= |q.segs| && p(q.segs[i]) && q.segs[i].sentAt == ts
    && forall j :: i < j < n && p(q.segs[j]) ==> q.segs[j].sentAt < ts
  }

  /** One more entry heard of. */
  lemma LatestStep(q: Retx, p: Unacked -> bool, n: nat, ts: nat, end: u32)
    requires n < |q.segs| && Latest(q, p, n, ts, end)
    ensures var x := q.segs[n];
            if p(x) && x.sentAt >= ts then Latest(q, p, n + 1, x.sentAt, x.end) else Latest(q, p, n + 1, ts, end)
  {
    var x := q.segs[n];
    if p(x) && x.sentAt >= ts {
      assert LastSent(q, p, n + 1, x.sentAt, n);
    } else if i0 :| 0 <= i0 < n && p(q.segs[i0]) && q.segs[i0].sentAt >= q.rackTs {
      var i :| LastSent(q, p, n, ts, i) && end == q.segs[i].end;
      assert LastSent(q, p, n + 1, ts, i);
    }
  }

  function IsDone(una: u32): Unacked -> bool {
    (x: Unacked) => Done(x, una)
  }

  lemma {:induction false} ScanRack(q: Retx, una: u32, now: nat, n: nat)
    requires n <= |q.segs|
    ensures var a := Scan(q, una, now, n); Latest(q, IsDone(una), n, a.rackTs, a.rackEnd)
  {
    if n > 0 {
      hide Latest, Before;
      ScanRack(q, una, now, n - 1);
      var a := Scan(q, una, now, n - 1);
      LatestStep(q, IsDone(una), n - 1, a.rackTs, a.rackEnd);
    }
  }

  /** After an acknowledgement RACK's time is the greatest of the old one and the transmission times of the
      acknowledged segments, and its end that of the last of them sent at that time. */
  lemma RackHearsAck(q: Retx, una: u32, now: nat)
    ensures var r := Ack(q, una, now).0; Latest(q, IsDone(una), |q.segs|, r.rackTs, r.rackEnd)
  {
    ScanRack(q, una, now, |q.segs|);
    hide Scan, Keep, Latest;
  }

  function IsNews(blocks: seq<Block>): Unacked -> bool {
    (x: Unacked) => !x.sacked && Covered(blocks, x)
  }

  lemma {:induction false} MarkRack(q: Retx, blocks: seq<Block>, n: nat)
    requires n <= |q.segs|
    ensures var r := MarkUpTo(q, blocks, n); Latest(q, IsNews(blocks), n, r.rackTs, r.rackEnd)
  {
    hide Latest, MarkUpTo, IsNews;
    if n == 0 {
      NothingMarked(q, blocks);
    } else {
      MarkRack(q, blocks, n - 1);
      var r := MarkUpTo(q, blocks, n - 1);
      LatestStep(q, IsNews(blocks), n - 1, r.rackTs, r.rackEnd);
      MarkedLast(q, blocks, n);
    }
  }

  lemma NothingMarked(q: Retx, blocks: seq<Block>)
    ensures var r := MarkUpTo(q, blocks, 0); Latest(q, IsNews(blocks), 0, r.rackTs, r.rackEnd)
  {
  }

  lemma MarkedLast(q: Retx, blocks: seq<Block>, n: nat)
    requires 0 < n <= |q.segs|
    ensures var before, r, x := MarkUpTo(q, blocks, n - 1), MarkUpTo(q, blocks, n), q.segs[n - 1];
            if IsNews(blocks)(x) && x.sentAt >= before.rackTs then r.rackTs == x.sentAt && r.rackEnd == x.end
            else r.rackTs == before.rackTs && r.rackEnd == before.rackEnd
  {
    hide Covered;
  }

  /** SACK blocks mark exactly the covered segments and tell RACK of the newly marked ones in the same way. */
  lemma RackHearsSack(q: Retx, blocks: seq<Block>)
    ensures var r := MarkSacked(q, blocks);
            && Latest(q, IsNews(blocks), |q.segs|, r.rackTs, r.rackEnd)
            && |r.segs| == |q.segs|
            && forall i :: 0 <= i < |q.segs| ==>
                 r.segs[i] == q.segs[i].(sacked := q.segs[i].sacked || exists b :: b in blocks && Covers(b, q.segs[i]))
  {
    MarkRack(q, blocks, |q.segs|);
    hide Latest, Covers;
  }

  // ---- what stays ----

  /** The entries of a that p selects, in order, are b: entry j of b is entry m[j] of a. */
  ghost predicate Selected(a: seq<Unacked>, p: Unacked -> bool, b: seq<Unacked>, m: seq<nat>) {
    && |m| == |b| && (forall j :: 0 <= j < |m| ==> m[j] < |a| && b[j] == a[m[j]])
    && (forall i, j :: 0 <= i < j < |m| ==> m[i] < m[j])
    && forall i :: 0 <= i < |a| ==> (p(a[i]) <==> i in m)
  }

  function IsOpen(una: u32): Unacked -> bool {
    (x: Unacked) => !Done(x, una)
  }

  /** The queue keeps exactly the segments the acknowledgement does not cover, in order and as they were. */
  lemma {:induction false} KeepExactly(segs: seq<Unacked>, una: u32) returns (m: seq<nat>)
    ensures Selected(segs, IsOpen(una), Keep(segs, una), m)
  {
    m := [];
    if segs != [] {
      var n: nat := |segs| - 1;
      var front := KeepExactly(segs[..n], una);
      m := front + if Done(segs[n], una) then [] else [n];
      KeepLast(segs, una);
      hide Before, Keep;
      SelectedMore(segs, IsOpen(una), Keep(segs[..n], una), front);
    }
  }

  lemma SelectedMore(a: seq<Unacked>, p: Unacked -> bool, b: seq<Unacked>, m: seq<nat>)
    requires a != [] && Selected(a[..|a| - 1], p, b, m)
    ensures var n: nat := |a| - 1;
            Selected(a, p, b + (if p(a[n]) then [a[n]] else []), m + if p(a[n]) then [n] else [])
  {
    var n: nat := |a| - 1;
    forall i | 0 <= i < |a|
      ensures p(a[i]) <==> i in m + if p(a[n]) then [n] else []
    {
      if i < n {
        assert a[..n][i] == a[i];
      }
    }
  }
}
