/** The reassembly buffer as an object (`Reassembler` in src/reassembly.rs), updated in place. The
    ordered map is a map; its cursor is the least key of a set. */
module Reassemblers {
  import opened Types
  import opened SeqNum
  import opened Segments
  import Reassembly

  class Reassembler {
    var base: u32
    var frags: map<u32, seq<byte>>

    function View(): Reassembly.Reasm
      reads this
    {
      Reassembly.Reasm(base, frags)
    }

    constructor (firstDataSeq: u32)
      ensures View() == Reassembly.Reasm(firstDataSeq, map[])
    {
      base, frags := firstDataSeq, map[];
    }

    /** Start over for a stream whose first byte is now known. */
    method Rebase(firstDataSeq: u32)
      modifies this
      ensures View() == Reassembly.Reasm(firstDataSeq, map[])
    {
      base, frags := firstDataSeq, map[];
    }

    /** What has become contiguous from `rcvNxt`, in order. */
    method Recv(seqno: u32, segment: seq<byte>, rcvNxt: u32) returns (out: seq<byte>)
      modifies this
      ensures (View(), out) == Reassembly.Recv(old(View()), seqno, segment, rcvNxt)
    {
      if segment == [] {
        return [];
      }
      var nxtOff := Sub(rcvNxt, base);
      var off := Sub(seqno, base);
      var data := segment;
      if off < nxtOff {
        var skip := nxtOff - off;
        if skip >= |data| {
          return [];
        }
        data := data[skip..];
        off := nxtOff;
      }
      if off - nxtOff > Reassembly.MAX_AHEAD {
        return [];
      }
      frags := frags[off := data];
      out := Deliver(nxtOff);
    }

    /** Deliver the unbroken run that starts at `start`, fragment by fragment. */
    method Deliver(start: u32) returns (out: seq<byte>)
      modifies this`frags
      ensures (frags, out) == Reassembly.Drain(old(frags), start)
    {
      hide DrainRest;
      out := [];
      var cur := start;
      DrainNone(frags, start);
      var ahead := set k | k in frags && k >= cur;
      while ahead != {}
        invariant ahead == set k | k in frags && k >= cur
        invariant cur in frags ==> cur in ahead
        invariant DrainRest(old(frags), start, frags, cur, out)
        decreases |frags|
      {
        var o := Reassembly.Least(ahead);
        if o != cur {
          break;
        }
        var bytes := frags[o];
        DrainOneMore(old(frags), start, frags, cur, out);
        frags := frags - {o};
        cur := Add(cur, Low32(|bytes|));
        out := out + bytes;
        ahead := set k | k in frags && k >= cur;
      }
      DrainDone(old(frags), start, frags, cur, out);
    }

    /** What remains to be delivered from `cur`, after `out`, is what was to be delivered at first. */
    static ghost predicate DrainRest(was: map<u32, seq<byte>>, start: u32, frags: map<u32, seq<byte>>, cur: u32, out: seq<byte>) {
      Reassembly.Drain(was, start) == (Reassembly.Drain(frags, cur).0, out + Reassembly.Drain(frags, cur).1)
    }

    static lemma DrainNone(frags: map<u32, seq<byte>>, start: u32)
      ensures DrainRest(frags, start, frags, start, [])
    {
      assert [] + Reassembly.Drain(frags, start).1 == Reassembly.Drain(frags, start).1;
    }

    static lemma DrainOneMore(was: map<u32, seq<byte>>, start: u32, frags: map<u32, seq<byte>>, cur: u32, out: seq<byte>)
      requires DrainRest(was, start, frags, cur, out) && cur in frags
      ensures DrainRest(was, start, frags - {cur}, Add(cur, Low32(|frags[cur]|)), out + frags[cur])
      ensures |frags - {cur}| < |frags|
    {
      Smaller(frags, cur);
      var rest := Reassembly.Drain(frags - {cur}, Add(cur, Low32(|frags[cur]|))).1;
      hide Add;
      assert out + (frags[cur] + rest) == (out + frags[cur]) + rest;
    }

    static lemma DrainDone(was: map<u32, seq<byte>>, start: u32, frags: map<u32, seq<byte>>, cur: u32, out: seq<byte>)
      requires DrainRest(was, start, frags, cur, out) && cur !in frags
      ensures Reassembly.Drain(was, start) == (frags, out)
    {
      assert out + [] == out;
    }

    static lemma Smaller(frags: map<u32, seq<byte>>, o: u32)
      requires o in frags
      ensures |frags - {o}| < |frags|
    {
      assert (frags - {o}).Keys == frags.Keys - {o};
      assert |frags.Keys| == |frags| && |(frags - {o}).Keys| == |frags - {o}|;
    }

    /** The buffered ranges, adjacent fragments joined. */
    method SackBlocks() returns (blocks: seq<Block>)
      ensures blocks == Reassembly.SackBlocks(View())
    {
      hide Add, Low32, Reassembly.Ascending;
      blocks := [];
      var keys := Reassembly.Ascending(frags.Keys);
      for i := 0 to |keys|
        invariant blocks == Reassembly.BlocksUpTo(View(), keys, i)
      {
        var left := Add(base, keys[i]);
        var right := Add(left, Low32(|frags[keys[i]]|));
        var n := |blocks|;
        if n > 0 && blocks[n - 1].right == left {
          blocks := blocks[n - 1 := Block(blocks[n - 1].left, right)];
        } else {
          blocks := blocks + [Block(left, right)];
        }
      }
    }
  }
}
