/** Out-of-order reassembly (src/reassembly.rs): what `recv` and `sack_blocks` do to the fragment map
    as a value. `Reassembler` in Reassembler.dfy is the object that does it in place. */
module Reassembly {
  import opened Types
  import opened SeqNum
  import opened Segments

  const MAX_AHEAD := 0x1_0000

  datatype Reasm = Reasm(base: u32, frags: map<u32, seq<byte>>)

  /** Deliver the unbroken run that starts at `cur`: the remaining fragments and the bytes. */
  function Drain(frags: map<u32, seq<byte>>, cur: u32): (map<u32, seq<byte>>, seq<byte>)
    decreases |frags|
  {
    if cur !in frags then (frags, []) else
      var data := frags[cur];
      var rest := Drain(frags - {cur}, Add(cur, Low32(|data|)));
      (rest.0, data + rest.1)
  }

  function Recv(r: Reasm, seqno: u32, data: seq<byte>, rcvNxt: u32): (Reasm, seq<byte>) {
    if data == [] then (r, []) else
      var nxtOff := Sub(rcvNxt, r.base);
      var off0 := Sub(seqno, r.base);
      if off0 < nxtOff && nxtOff - off0 >= |data| then (r, []) else
        var tail := if off0 < nxtOff then data[nxtOff - off0..] else data;
        var off := if off0 < nxtOff then nxtOff else off0;
        if off - nxtOff > MAX_AHEAD then (r, []) else
          var d := Drain(r.frags[off := tail], nxtOff);
          (r.(frags := d.0), d.1)
  }

  // ---- SACK blocks ----

  predicate IsLeast(s: set<u32>, k: u32) {
    k in s && forall j :: j in s ==> k <= j
  }

  lemma {:induction false} LeastExists(s: set<u32>)
    requires s != {}
    ensures exists k :: IsLeast(s, k)
  {
    var x :| x in s;
    var rest := s - {x};
    assert forall j :: j in s ==> j == x || j in rest;
    if rest == {} {
      assert IsLeast(s, x);
    } else {
      LeastExists(rest);
      var k :| IsLeast(rest, k);
      assert IsLeast(s, if x < k then x else k);
    }
  }

  function Least(s: set<u32>): (k: u32)
    requires s != {}
    ensures IsLeast(s, k)
  {
    LeastExists(s);
    var k :| IsLeast(s, k);
    k
  }

  /** The keys of a `BTreeMap` in iteration order. */
  function Ascending(s: set<u32>): (r: seq<u32>)
    ensures forall x :: x in r <==> x in s
    ensures forall i, j :: 0 <= i < j < |r| ==> r[i] < r[j]
    decreases |s|
  {
    if s == {} then [] else
      var k := Least(s);
      [k] + Ascending(s - {k})
  }

  /** The block list after the first n fragments: a fragment that starts where the last block ends
      extends it, any other opens a new one. */
  function BlocksUpTo(r: Reasm, keys: seq<u32>, n: nat): seq<Block>
    requires n <= |keys| && forall k :: k in keys ==> k in r.frags
  {
    if n == 0 then [] else
      var bs := BlocksUpTo(r, keys, n - 1);
      var left := Add(r.base, keys[n - 1]);
      var right := Add(left, Low32(|r.frags[keys[n - 1]]|));
      if bs != [] && bs[|bs| - 1].right == left
      then bs[|bs| - 1 := Block(bs[|bs| - 1].left, right)]
      else bs + [Block(left, right)]
  }

  function SackBlocks(r: Reasm): seq<Block> {
    var keys := Ascending(r.frags.Keys);
    BlocksUpTo(r, keys, |keys|)
  }
}
