/** Initial sequence numbers are immaterial: move them, and every run moves with them. Whatever a connection
    does from one pair of initial numbers it does from any other, translated. */
module Translation {
  import opened Types
  import opened SeqNum
  import opened Segments
  import opened Connection
  import opened Calls
  import Retransmit
  import Reassembly
  import Congestion
  import Rtt

  // ---- the circle turned by k ----

  lemma TurnSub(a: u32, b: u32, k: u32)
    ensures Sub(Add(a, k), Add(b, k)) == Sub(a, b)
  {
  }

  lemma TurnAdd(a: u32, n: u32, k: u32)
    ensures Add(Add(a, k), n) == Add(Add(a, n), k)
  {
  }

  lemma TurnBack(a: u32, n: u32, k: u32)
    ensures Sub(Add(a, k), n) == Add(Sub(a, n), k)
  {
  }

  /** Every comparison is of a difference, and differences do not move. */
  lemma TurnOrder(a: u32, b: u32, k: u32)
    ensures Before(Add(a, k), Add(b, k)) <==> Before(a, b)
    ensures After(Add(a, k), Add(b, k)) <==> After(a, b)
    ensures Add(a, k) == Add(b, k) <==> a == b
  {
    TurnSub(a, b, k);
    TurnSub(b, a, k);
  }

  lemma TurnBetween(a: u32, x: u32, b: u32, k: u32)
    ensures Between(Add(a, k), Add(x, k), Add(b, k)) <==> Between(a, x, b)
  {
    TurnOrder(x, a, k);
    TurnOrder(x, b, k);
    hide Before, Add;
  }

  function TurnBlock(b: Block, k: u32): Block {
    Block(Add(b.left, k), Add(b.right, k))
  }

  function TurnBlocks(bs: seq<Block>, k: u32): (r: seq<Block>)
    ensures |r| == |bs| && forall i :: 0 <= i < |bs| ==> r[i] == TurnBlock(bs[i], k)
  {
    seq(|bs|, i requires 0 <= i < |bs| => TurnBlock(bs[i], k))
  }

  /** The segment with its own number turned by k and what it reports by j. */
  function TurnSeg(p: Seg, k: u32, j: u32): Seg {
    p.(seqno := Add(p.seqno, k), ackno := if Has(p.flags, ACK) then Add(p.ackno, j) else p.ackno,
       opts := p.opts.(sack := TurnBlocks(p.opts.sack, j)))
  }

  function TurnSegs(ps: seq<Seg>, k: u32, j: u32): (r: seq<Seg>)
    ensures |r| == |ps| && forall i :: 0 <= i < |ps| ==> r[i] == TurnSeg(ps[i], k, j)
  {
    seq(|ps|, i requires 0 <= i < |ps| => TurnSeg(ps[i], k, j))
  }

  function TurnOut(o: Option<Seg>, k: u32, j: u32): Option<Seg> {
    if o.Some? then Some(TurnSeg(o.value, k, j)) else None
  }

  lemma TurnMore(a: seq<Seg>, b: seq<Seg>, k: u32, j: u32)
    ensures TurnSegs(a + b, k, j) == TurnSegs(a, k, j) + TurnSegs(b, k, j)
  {
    hide TurnSeg;
  }

  lemma TurnOuts(o: Option<Seg>, k: u32, j: u32)
    ensures Outs(TurnOut(o, k, j)) == TurnSegs(Outs(o), k, j)
  {
    hide TurnSeg;
  }

  // ---- the queue ----

  function TurnEntry(x: Retransmit.Unacked, k: u32, j: u32): Retransmit.Unacked {
    x.(start := Add(x.start, k), end := Add(x.end, k), packet := TurnSeg(x.packet, k, j))
  }

  function TurnQueue(segs: seq<Retransmit.Unacked>, k: u32, j: u32): (r: seq<Retransmit.Unacked>)
    ensures |r| == |segs| && forall i :: 0 <= i < |segs| ==> r[i] == TurnEntry(segs[i], k, j)
  {
    seq(|segs|, i requires 0 <= i < |segs| => TurnEntry(segs[i], k, j))
  }

  /** RACK's record is read only once something has been delivered. */
  predicate TwinQueue(q: Retransmit.Retx, r: Retransmit.Retx, k: u32, j: u32) {
    && r.segs == TurnQueue(q.segs, k, j) && r.rackTs == q.rackTs
    && (q.rackTs > 0 ==> r.rackEnd == Add(q.rackEnd, k))
  }

  lemma TurnFront(segs: seq<Retransmit.Unacked>, n: nat, k: u32, j: u32)
    requires n <= |segs|
    ensures TurnQueue(segs, k, j)[..n] == TurnQueue(segs[..n], k, j)
  {
    hide TurnEntry;
  }

  lemma TurnAppend(a: seq<Retransmit.Unacked>, x: Retransmit.Unacked, k: u32, j: u32)
    ensures TurnQueue(a + [x], k, j) == TurnQueue(a, k, j) + [TurnEntry(x, k, j)]
  {
    hide TurnEntry;
  }

  lemma {:induction false} KeepTwin(segs: seq<Retransmit.Unacked>, una: u32, k: u32, j: u32)
    ensures Retransmit.Keep(TurnQueue(segs, k, j), Add(una, k)) == TurnQueue(Retransmit.Keep(segs, una), k, j)
  {
    if segs != [] {
      var n := |segs| - 1;
      KeepTwin(segs[..n], una, k, j);
      TurnFront(segs, n, k, j);
      TurnOrder(una, segs[n].end, k);
      TurnAppend(Retransmit.Keep(segs[..n], una), segs[n], k, j);
      hide Before, Add, TurnSeg;
    }
  }

  predicate TwinScan(a: Retransmit.AckScan, b: Retransmit.AckScan, k: u32) {
    b.sample == a.sample && b.rackTs == a.rackTs && (a.rackTs > 0 ==> b.rackEnd == Add(a.rackEnd, k))
  }

  lemma {:induction false} ScanTwin(q: Retransmit.Retx, r: Retransmit.Retx, una: u32, now: nat, n: nat, k: u32, j: u32)
    requires TwinQueue(q, r, k, j) && n <= |q.segs|
    ensures TwinScan(Retransmit.Scan(q, una, now, n), Retransmit.Scan(r, Add(una, k), now, n), k)
  {
    if n > 0 {
      ScanTwin(q, r, una, now, n - 1, k, j);
      TurnOrder(una, q.segs[n - 1].end, k);
      hide Before, Add, TurnSeg;
    }
  }

  lemma AckTwin(q: Retransmit.Retx, r: Retransmit.Retx, una: u32, now: nat, k: u32, j: u32)
    requires TwinQueue(q, r, k, j)
    ensures TwinQueue(Retransmit.Ack(q, una, now).0, Retransmit.Ack(r, Add(una, k), now).0, k, j)
    ensures Retransmit.Ack(q, una, now).1 == Retransmit.Ack(r, Add(una, k), now).1
  {
    KeepTwin(q.segs, una, k, j);
    ScanTwin(q, r, una, now, |q.segs|, k, j);
    hide Add, Retransmit.Keep, Retransmit.Scan, TurnQueue;
  }

  /** The two selections agree entry by entry. */
  ghost predicate Alike(segs: seq<Retransmit.Unacked>, p: Retransmit.Unacked -> bool, s: Retransmit.Unacked -> bool,
                        k: u32, j: u32) {
    forall i :: 0 <= i < |segs| ==> s(TurnEntry(segs[i], k, j)) == p(segs[i])
  }

  lemma {:induction false} TouchTwin(segs: seq<Retransmit.Unacked>, p: Retransmit.Unacked -> bool,
                                     s: Retransmit.Unacked -> bool, now: nat, k: u32, j: u32)
    requires Alike(segs, p, s, k, j)
    ensures Retransmit.TouchAll(TurnQueue(segs, k, j), s, now) == TurnQueue(Retransmit.TouchAll(segs, p, now), k, j)
    ensures Retransmit.Packets(TurnQueue(segs, k, j), s) == TurnSegs(Retransmit.Packets(segs, p), k, j)
  {
    hide Add, TurnSeg, Retransmit.PacketsIn;
    if segs != [] {
      var n := |segs| - 1;
      TurnFront(segs, n, k, j);
      TouchTwin(segs[..n], p, s, now, k, j);
      TurnMore(Retransmit.Packets(segs[..n], p), if p(segs[n]) then [segs[n].packet] else [], k, j);
    }
  }

  lemma DueTwin(q: Retransmit.Retx, r: Retransmit.Retx, now: nat, rto: nat, k: u32, j: u32)
    requires TwinQueue(q, r, k, j)
    ensures TwinQueue(Retransmit.Due(q, now, rto).0, Retransmit.Due(r, now, rto).0, k, j)
    ensures Retransmit.Due(r, now, rto).1 == TurnSegs(Retransmit.Due(q, now, rto).1, k, j)
  {
    hide Add, TurnSeg, Retransmit.PacketsIn;
    var p := Retransmit.IsDue(now, rto);
    assert Alike(q.segs, p, p, k, j);
    TouchTwin(q.segs, p, p, now, k, j);
  }

  lemma RackMarkTwin(q: Retransmit.Retx, r: Retransmit.Retx, now: nat, wnd: nat, k: u32, j: u32)
    requires TwinQueue(q, r, k, j)
    ensures TwinQueue(Retransmit.RackMarkLost(q, now, wnd).0, Retransmit.RackMarkLost(r, now, wnd).0, k, j)
    ensures Retransmit.RackMarkLost(r, now, wnd).1 == TurnSegs(Retransmit.RackMarkLost(q, now, wnd).1, k, j)
  {
    hide Add, Before, TurnSeg, Retransmit.PacketsIn;
    var p, s := Retransmit.IsRackLost(q, now, wnd), Retransmit.IsRackLost(r, now, wnd);
    forall i | 0 <= i < |q.segs|
      ensures s(TurnEntry(q.segs[i], k, j)) == p(q.segs[i])
    {
      if q.rackTs > 0 {
        TurnOrder(q.segs[i].start, q.rackEnd, k);
      }
    }
    TouchTwin(q.segs, p, s, now, k, j);
  }

  lemma {:induction false} FirstTwin(segs: seq<Retransmit.Unacked>, i: nat, k: u32, j: u32)
    requires i <= |segs|
    ensures Retransmit.FirstUnsacked(TurnQueue(segs, k, j), i) == Retransmit.FirstUnsacked(segs, i)
    decreases |segs| - i
  {
    hide Add, TurnSeg;
    if i < |segs| {
      FirstTwin(segs, i + 1, k, j);
    }
  }

  lemma {:induction false} LastTwin(segs: seq<Retransmit.Unacked>, n: nat, k: u32, j: u32)
    requires n <= |segs|
    ensures Retransmit.LastUnsacked(TurnQueue(segs, k, j), n) == Retransmit.LastUnsacked(segs, n)
  {
    hide Add, TurnSeg;
    if n > 0 {
      LastTwin(segs, n - 1, k, j);
    }
  }

  lemma ResendTwin(q: Retransmit.Retx, r: Retransmit.Retx, at: Option<nat>, now: nat, k: u32, j: u32)
    requires TwinQueue(q, r, k, j) && (at.Some? ==> at.value < |q.segs|)
    ensures TwinQueue(Retransmit.Resend(q, at, now).0, Retransmit.Resend(r, at, now).0, k, j)
    ensures Retransmit.Resend(r, at, now).1 == TurnOut(Retransmit.Resend(q, at, now).1, k, j)
  {
    hide Add, TurnSeg;
  }

  // ---- selective acknowledgement and the pipe ----

  lemma CoveredTwin(blocks: seq<Block>, x: Retransmit.Unacked, k: u32, j: u32)
    ensures Retransmit.Covered(TurnBlocks(blocks, k), TurnEntry(x, k, j)) == Retransmit.Covered(blocks, x)
  {
    hide Add, Before, TurnSeg, TurnBlocks;
    forall i | 0 <= i < |blocks|
      ensures Retransmit.Covers(TurnBlocks(blocks, k)[i], TurnEntry(x, k, j)) == Retransmit.Covers(blocks[i], x)
    {
      TurnOrder(x.start, blocks[i].left, k);
      TurnOrder(x.end, blocks[i].right, k);
    }
    hide Retransmit.Covers;
    var turned := TurnBlocks(blocks, k);
    if Retransmit.Covered(blocks, x) {
      var b :| b in blocks && Retransmit.Covers(b, x);
      var i :| 0 <= i < |blocks| && blocks[i] == b;
      assert turned[i] in turned;
    }
    if Retransmit.Covered(turned, TurnEntry(x, k, j)) {
      var b :| b in turned && Retransmit.Covers(b, TurnEntry(x, k, j));
      var i :| 0 <= i < |turned| && turned[i] == b;
      assert blocks[i] in blocks;
    }
  }

  lemma MarkUnfold(q: Retransmit.Retx, blocks: seq<Block>, n: nat)
    requires 0 < n <= |q.segs|
    ensures var r, x := Retransmit.MarkUpTo(q, blocks, n - 1), q.segs[n - 1];
            Retransmit.MarkUpTo(q, blocks, n) ==
            MarkNext(r, x, Retransmit.MarkOne(blocks, x), !x.sacked && Retransmit.Covered(blocks, x))
  {
    hide Retransmit.Covered;
  }

  function MarkNext(r: Retransmit.Retx, x: Retransmit.Unacked, marked: Retransmit.Unacked, newly: bool): Retransmit.Retx {
    if newly && x.sentAt >= r.rackTs then Retransmit.Retx(r.segs + [marked], x.sentAt, x.end)
    else r.(segs := r.segs + [marked])
  }

  lemma MarkNextTwin(q: Retransmit.Retx, r: Retransmit.Retx, x: Retransmit.Unacked, m: Retransmit.Unacked, newly: bool,
                     k: u32, j: u32)
    requires TwinQueue(q, r, k, j)
    ensures TwinQueue(MarkNext(q, x, m, newly), MarkNext(r, TurnEntry(x, k, j), TurnEntry(m, k, j), newly), k, j)
  {
    TurnAppend(q.segs, m, k, j);
    hide Add, TurnSeg, TurnQueue;
  }

  lemma {:induction false} MarkTwin(q: Retransmit.Retx, r: Retransmit.Retx, blocks: seq<Block>, n: nat, k: u32, j: u32)
    requires TwinQueue(q, r, k, j) && n <= |q.segs|
    ensures TwinQueue(Retransmit.MarkUpTo(q, blocks, n), Retransmit.MarkUpTo(r, TurnBlocks(blocks, k), n), k, j)
  {
    hide Add, TurnSeg, TurnBlocks, Retransmit.Covered, MarkNext;
    if n > 0 {
      var x := q.segs[n - 1];
      MarkTwin(q, r, blocks, n - 1, k, j);
      CoveredTwin(blocks, x, k, j);
      MarkUnfold(q, blocks, n);
      MarkUnfold(r, TurnBlocks(blocks, k), n);
      MarkNextTwin(Retransmit.MarkUpTo(q, blocks, n - 1), Retransmit.MarkUpTo(r, TurnBlocks(blocks, k), n - 1), x,
                   Retransmit.MarkOne(blocks, x), !x.sacked && Retransmit.Covered(blocks, x), k, j);
      hide TwinQueue, TurnQueue;
    }
  }

  lemma {:induction false} SackedAboveTwin(segs: seq<Retransmit.Unacked>, start: u32, k: u32, j: u32)
    ensures Retransmit.SackedAbove(TurnQueue(segs, k, j), Add(start, k)) == Retransmit.SackedAbove(segs, start)
  {
    if segs != [] {
      var n := |segs| - 1;
      TurnFront(segs, n, k, j);
      SackedAboveTwin(segs[..n], start, k, j);
      TurnOrder(segs[n].start, start, k);
      hide Add, After, TurnSeg;
    }
  }

  lemma LostTwin(segs: seq<Retransmit.Unacked>, i: nat, k: u32, j: u32)
    requires i < |segs|
    ensures Retransmit.IsLost(TurnQueue(segs, k, j), i) == Retransmit.IsLost(segs, i)
    ensures Retransmit.InPipe(TurnQueue(segs, k, j), i) == Retransmit.InPipe(segs, i)
    ensures Retransmit.Untried(TurnQueue(segs, k, j), i) == Retransmit.Untried(segs, i)
  {
    SackedAboveTwin(segs, segs[i].start, k, j);
    hide Add, TurnSeg, Retransmit.SackedAbove;
  }

  lemma {:induction false} PipeTwin(segs: seq<Retransmit.Unacked>, n: nat, k: u32, j: u32)
    requires n <= |segs|
    ensures Retransmit.PipeUpTo(TurnQueue(segs, k, j), n) == Retransmit.PipeUpTo(segs, n)
  {
    if n > 0 {
      PipeTwin(segs, n - 1, k, j);
      LostTwin(segs, n - 1, k, j);
      TurnSub(segs[n - 1].end, segs[n - 1].start, k);
      hide Add, Sub, TurnSeg, Retransmit.InPipe;
    }
  }

  lemma {:induction false} UntriedTwin(segs: seq<Retransmit.Unacked>, i: nat, k: u32, j: u32)
    requires i <= |segs|
    ensures Retransmit.NextUntried(TurnQueue(segs, k, j), i) == Retransmit.NextUntried(segs, i)
    decreases |segs| - i
  {
    hide Retransmit.Untried, TurnEntry;
    if i < |segs| {
      UntriedTwin(segs, i + 1, k, j);
      LostTwin(segs, i, k, j);
    }
  }

  // ---- the reassembler ----

  predicate TwinReasm(r: Reassembly.Reasm, s: Reassembly.Reasm, j: u32) {
    s == Reassembly.Reasm(Add(r.base, j), r.frags)
  }

  lemma RecvTwin(r: Reassembly.Reasm, s: Reassembly.Reasm, seqno: u32, data: seq<byte>, rcvNxt: u32, j: u32)
    requires TwinReasm(r, s, j)
    ensures TwinReasm(Reassembly.Recv(r, seqno, data, rcvNxt).0, Reassembly.Recv(s, Add(seqno, j), data, Add(rcvNxt, j)).0, j)
    ensures Reassembly.Recv(r, seqno, data, rcvNxt).1 == Reassembly.Recv(s, Add(seqno, j), data, Add(rcvNxt, j)).1
  {
    TurnSub(rcvNxt, r.base, j);
    TurnSub(seqno, r.base, j);
    hide Add, Sub, Reassembly.Drain;
  }

  /** The block list with one more range. */
  function Coalesce(bs: seq<Block>, left: u32, right: u32): seq<Block> {
    if bs != [] && bs[|bs| - 1].right == left then bs[|bs| - 1 := Block(bs[|bs| - 1].left, right)]
    else bs + [Block(left, right)]
  }

  lemma CoalesceTwin(bs: seq<Block>, left: u32, right: u32, j: u32)
    ensures Coalesce(TurnBlocks(bs, j), Add(left, j), Add(right, j)) == TurnBlocks(Coalesce(bs, left, right), j)
  {
    if bs != [] {
      TurnOrder(bs[|bs| - 1].right, left, j);
    }
    hide Add;
  }

  lemma {:induction false} BlocksTwin(r: Reassembly.Reasm, s: Reassembly.Reasm, keys: seq<u32>, n: nat, j: u32)
    requires TwinReasm(r, s, j) && n <= |keys| && forall x :: x in keys ==> x in r.frags
    ensures Reassembly.BlocksUpTo(s, keys, n) == TurnBlocks(Reassembly.BlocksUpTo(r, keys, n), j)
  {
    hide Add, Low32, TurnBlock;
    if n > 0 {
      BlocksTwin(r, s, keys, n - 1, j);
      var bs := Reassembly.BlocksUpTo(r, keys, n - 1);
      var left := Add(r.base, keys[n - 1]);
      var len := Low32(|r.frags[keys[n - 1]]|);
      TurnAdd(r.base, keys[n - 1], j);
      TurnAdd(left, len, j);
      CoalesceTwin(bs, left, Add(left, len), j);
      assert Reassembly.BlocksUpTo(r, keys, n) == Coalesce(bs, left, Add(left, len));
      assert Reassembly.BlocksUpTo(s, keys, n) == Coalesce(TurnBlocks(bs, j), Add(left, j), Add(Add(left, len), j));
      hide Coalesce;
    }
  }

  lemma SackBlocksTwin(r: Reassembly.Reasm, s: Reassembly.Reasm, j: u32)
    requires TwinReasm(r, s, j)
    ensures Reassembly.SackBlocks(s) == TurnBlocks(Reassembly.SackBlocks(r), j)
    ensures FirstBlocks(Reassembly.SackBlocks(s)) == TurnBlocks(FirstBlocks(Reassembly.SackBlocks(r)), j)
  {
    var keys := Reassembly.Ascending(r.frags.Keys);
    BlocksTwin(r, s, keys, |keys|, j);
    hide Reassembly.BlocksUpTo, Reassembly.Ascending, TurnBlock;
  }
}
