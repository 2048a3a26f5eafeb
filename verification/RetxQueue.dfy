/** The retransmission queue as an object (`RetxQueue` in src/tcp.rs), updated in place. Every method
    computes what the function of the same name in `Retransmit` says about the old queue. */
module RetxQueues {
  import opened Types
  import opened SeqNum
  import opened Segments
  import Retransmit

  class RetxQueue {
    var segments: seq<Retransmit.Unacked>
    var rackXmitTs: nat
    var rackEndSeq: u32

    function View(): Retransmit.Retx
      reads this
    {
      Retransmit.Retx(segments, rackXmitTs, rackEndSeq)
    }

    constructor ()
      ensures View() == Retransmit.EMPTY
    {
      segments, rackXmitTs, rackEndSeq := [], 0, 0;
    }

    method Record(start: u32, end: u32, packet: Seg, now: nat)
      modifies this
      ensures View() == Retransmit.Record(old(View()), start, end, packet, now)
    {
      segments := segments + [Retransmit.Unacked(start, end, packet, now, 0, false)];
    }

    /** `retain`, with the sample and the RACK record threaded through the dropped segments. */
    method Ack(una: u32, now: nat) returns (sample: Option<nat>)
      modifies this
      ensures (View(), sample) == Retransmit.Ack(old(View()), una, now)
    {
      var kept: seq<Retransmit.Unacked> := [];
      var ts, end := rackXmitTs, rackEndSeq;
      var i := 0;
      sample := None;
      while i < |segments|
        invariant 0 <= i <= |segments|
        invariant unchanged(this)
        invariant kept == Retransmit.Keep(segments[..i], una)
        invariant Retransmit.AckScan(sample, ts, end) == Retransmit.Scan(View(), una, now, i)
      {
        var s := segments[i];
        assert segments[..i + 1][..i] == segments[..i];
        if Before(una, s.end) {
          kept := kept + [s];
        } else {
          if s.retries == 0 && sample.None? {
            sample := Some(SatSub(now, s.sentAt));
          }
          if s.sentAt >= ts {
            ts, end := s.sentAt, s.end;
          }
        }
        i := i + 1;
      }
      assert segments[..i] == segments;
      segments, rackXmitTs, rackEndSeq := kept, ts, end;
    }

    method Due(now: nat, rto: nat) returns (out: seq<Seg>)
      modifies this`segments
      ensures (View(), out) == Retransmit.Due(old(View()), now, rto)
    {
      ghost var was := segments;
      ghost var p := Retransmit.IsDue(now, rto);
      out := [];
      var i := 0;
      while i < |segments|
        invariant 0 <= i <= |was| == |segments|
        invariant forall k :: 0 <= k < i ==> segments[k] == if p(was[k]) then Retransmit.Touch(was[k], now) else was[k]
        invariant forall k :: i <= k < |was| ==> segments[k] == was[k]
        invariant out == Retransmit.Packets(was[..i], p)
      {
        var s := segments[i];
        assert was[..i + 1][..i] == was[..i];
        if !s.sacked && SatSub(now, s.sentAt) >= rto {
          segments := segments[i := s.(sentAt := now, retries := s.retries + 1)];
          out := out + [s.packet];
        }
        i := i + 1;
      }
      assert was[..i] == was;
      assert segments == Retransmit.TouchAll(was, p, now);
    }

    /** Resend segment i: a new timer and one more retry. */
    method Resend(i: nat, now: nat) returns (packet: Seg)
      requires i < |segments|
      modifies this`segments
      ensures segments == old(segments)[i := Retransmit.Touch(old(segments)[i], now)]
      ensures packet == old(segments)[i].packet
    {
      var s := segments[i];
      segments := segments[i := s.(retries := s.retries + 1, sentAt := now)];
      packet := s.packet;
    }

    method FastRetransmit(now: nat) returns (out: Option<Seg>)
      modifies this`segments
      ensures (View(), out) == Retransmit.FastRetransmit(old(View()), now)
    {
      var i := 0;
      while i < |segments| && segments[i].sacked
        invariant 0 <= i <= |segments|
        invariant unchanged(this)
        invariant Retransmit.FirstUnsacked(segments, i) == Retransmit.FirstUnsacked(segments, 0)
      {
        i := i + 1;
      }
      if i == |segments| {
        return None;
      }
      var packet := Resend(i, now);
      return Some(packet);
    }

    method RetransmitLast(now: nat) returns (out: Option<Seg>)
      modifies this`segments
      ensures (View(), out) == Retransmit.RetransmitLast(old(View()), now)
    {
      var n := |segments|;
      while n > 0 && segments[n - 1].sacked
        invariant 0 <= n <= |segments|
        invariant unchanged(this)
        invariant Retransmit.LastUnsacked(segments, n) == Retransmit.LastUnsacked(segments, |segments|)
      {
        n := n - 1;
      }
      if n == 0 {
        return None;
      }
      var packet := Resend(n - 1, now);
      return Some(packet);
    }

    method MarkSacked(blocks: seq<Block>)
      modifies this
      ensures View() == Retransmit.MarkSacked(old(View()), blocks)
    {
      ghost var was := View();
      var ts, end := rackXmitTs, rackEndSeq;
      var i := 0;
      while i < |segments|
        invariant 0 <= i <= |was.segs| == |segments|
        invariant forall k :: 0 <= k < i ==> segments[k] == Retransmit.MarkOne(blocks, was.segs[k])
        invariant forall k :: i <= k < |was.segs| ==> segments[k] == was.segs[k]
        invariant Retransmit.MarkUpTo(was, blocks, i).rackTs == ts
        invariant Retransmit.MarkUpTo(was, blocks, i).rackEnd == end
      {
        var s := segments[i];
        if !s.sacked {
          var covered := IsCovered(blocks, s);
          if covered {
            segments := segments[i := s.(sacked := true)];
            if s.sentAt >= ts {
              ts, end := s.sentAt, s.end;
            }
          }
        }
        i := i + 1;
      }
      rackXmitTs, rackEndSeq := ts, end;
      assert segments == Retransmit.MarkSacked(was, blocks).segs;
    }

    /** Does one of the blocks cover the whole segment? */
    static method IsCovered(blocks: seq<Block>, s: Retransmit.Unacked) returns (covered: bool)
      ensures covered <==> exists b :: b in blocks && !Before(s.start, b.left) && !After(s.end, b.right)
      ensures covered == Retransmit.Covered(blocks, s)
    {
      var j := 0;
      while j < |blocks|
        invariant 0 <= j <= |blocks|
        invariant forall k :: 0 <= k < j ==> !Retransmit.Covers(blocks[k], s)
      {
        if !Before(s.start, blocks[j].left) && !After(s.end, blocks[j].right) {
          assert Retransmit.Covers(blocks[j], s);
          return true;
        }
        j := j + 1;
      }
      return false;
    }

    method RackMarkLost(now: nat, reoWnd: nat) returns (out: seq<Seg>)
      modifies this`segments
      ensures (View(), out) == Retransmit.RackMarkLost(old(View()), now, reoWnd)
    {
      hide Before, SatSub;
      ghost var was := segments;
      ghost var p := Retransmit.IsRackLost(View(), now, reoWnd);
      out := [];
      var i := 0;
      while i < |segments|
        invariant 0 <= i <= |was| == |segments|
        invariant forall k :: 0 <= k < i ==> segments[k] == if p(was[k]) then Retransmit.Touch(was[k], now) else was[k]
        invariant forall k :: i <= k < |was| ==> segments[k] == was[k]
        invariant out == Retransmit.Packets(was[..i], p)
      {
        var s := segments[i];
        assert was[..i + 1][..i] == was[..i];
        var lost := false;
        if !s.sacked {
          var sentBeforeAcked := s.sentAt < rackXmitTs && Before(s.start, rackEndSeq);
          lost := sentBeforeAcked && SatSub(now, s.sentAt) > reoWnd;
        }
        assert lost == p(was[i]) && was[..i + 1] == was[..i] + [was[i]];
        if lost {
          var packet := Resend(i, now);
          out := out + [packet];
        }
        i := i + 1;
      }
      assert was[..i] == was;
      assert segments == Retransmit.TouchAll(was, p, now);
    }

    /** At least DUP_THRESH segments above segment i have been SACKed, and it has not. */
    method IsLost(i: nat) returns (lost: bool)
      requires i < |segments|
      ensures lost == Retransmit.IsLost(segments, i)
    {
      var seg := segments[i];
      if seg.sacked {
        return false;
      }
      var above := 0;
      var j := 0;
      while j < |segments|
        invariant 0 <= j <= |segments|
        invariant above == Retransmit.SackedAbove(segments[..j], seg.start)
      {
        assert segments[..j + 1][..j] == segments[..j];
        if segments[j].sacked && After(segments[j].start, seg.start) {
          above := above + 1;
        }
        j := j + 1;
      }
      assert segments[..j] == segments;
      return above >= Retransmit.DUP_THRESH;
    }

    /** An estimate of the bytes in flight (section 4 of RFC 6675). */
    method Pipe() returns (pipe: u32)
      ensures pipe == Retransmit.Pipe(View())
    {
      pipe := 0;
      var i := 0;
      while i < |segments|
        invariant 0 <= i <= |segments|
        invariant pipe == Retransmit.PipeUpTo(segments, i)
      {
        var s := segments[i];
        if !s.sacked {
          var lost := IsLost(i);
          if !lost || s.retries > 0 {
            pipe := Add(pipe, Sub(s.end, s.start));
          }
        }
        i := i + 1;
      }
    }

    method NextLostRetransmit(now: nat) returns (out: Option<Seg>)
      modifies this`segments
      ensures (View(), out) == Retransmit.NextLostRetransmit(old(View()), now)
    {
      var i := 0;
      while i < |segments|
        invariant 0 <= i <= |segments|
        invariant unchanged(this)
        invariant Retransmit.NextUntried(segments, i) == Retransmit.NextUntried(segments, 0)
      {
        var s := segments[i];
        if !s.sacked && s.retries == 0 {
          var lost := IsLost(i);
          if lost {
            var packet := Resend(i, now);
            return Some(packet);
          }
        }
        i := i + 1;
      }
      return None;
    }
  }
}
