/** What the SACK blocks say (section 3 of RFC 2018): exactly the maximal buffered runs. */
module SackReport {
  import opened Types
  import opened SeqNum
  import opened Segments
  import opened Reassembly
  import opened Segmentation

  /** Non-empty fragments that do not overlap, inside the first half of the circle. */
  ghost predicate Disjoint(frags: map<u32, seq<byte>>) {
    && (forall k :: k in frags ==> frags[k] != [] && k + |frags[k]| < TWO_31)
    && (forall a, b :: a in frags && b in frags && a < b ==> a + |frags[a]| <= b)
  }

  ghost predicate InFrag(r: Reasm, k: u32, o: int) {
    k in r.frags && k <= o < k + |r.frags[k]|
  }

  /** Byte offset o is buffered. */
  ghost predicate Held(r: Reasm, o: int) {
    exists k :: k in r.frags && InFrag(r, k, o)
  }

  function L(r: Reasm, b: Block): u32 { Off(r.base, b.left) }
  function R(r: Reasm, b: Block): u32 { Off(r.base, b.right) }

  ghost predicate InBlock(r: Reasm, b: Block, o: int) {
    L(r, b) <= o < R(r, b)
  }

  ghost predicate InBlocks(r: Reasm, bs: seq<Block>, o: int) {
    exists m :: 0 <= m < |bs| && InBlock(r, bs[m], o)
  }

  ghost predicate HeldBy(r: Reasm, keys: seq<u32>, n: int, o: int) {
    exists j :: 0 <= j < n <= |keys| && InFrag(r, keys[j], o)
  }

  /** Ascending, non-empty, with a gap between any two blocks. */
  ghost predicate Apart(r: Reasm, bs: seq<Block>) {
    && (forall m :: 0 <= m < |bs| ==> L(r, bs[m]) < R(r, bs[m]))
    && (forall m, n :: 0 <= m < n < |bs| ==> R(r, bs[m]) < L(r, bs[n]))
  }

  /** Both edges of every block are edges of fragments. */
  ghost predicate OnEdges(r: Reasm, bs: seq<Block>) {
    forall m :: 0 <= m < |bs| ==> StartsFrag(r, L(r, bs[m])) && EndsFrag(r, R(r, bs[m]))
  }

  ghost predicate StartsFrag(r: Reasm, o: int) {
    o in r.frags
  }

  ghost predicate EndsFrag(r: Reasm, o: int) {
    exists k :: k in r.frags && k + |r.frags[k]| == o
  }

  lemma FragEdges(r: Reasm, k: u32)
    requires k in r.frags && k + |r.frags[k]| < TWO_31
    ensures Off(r.base, Add(r.base, k)) == k
    ensures Off(r.base, Add(Add(r.base, k), Low32(|r.frags[k]|))) == k + |r.frags[k]|
  {
  }

  ghost predicate UpTo(r: Reasm, keys: seq<u32>, n: nat, bs: seq<Block>)
    requires n <= |keys|
  {
    && Apart(r, bs) && OnEdges(r, bs)
    && (n == 0 ==> bs == [])
    && (n > 0 ==> bs != [] && keys[n - 1] in r.frags && R(r, bs[|bs| - 1]) == keys[n - 1] + |r.frags[keys[n - 1]]|)
    && forall o: int :: InBlocks(r, bs, o) <==> HeldBy(r, keys, n, o)
  }

  lemma {:induction false} BlocksInvariant(r: Reasm, keys: seq<u32>, n: nat)
    requires n <= |keys| && Disjoint(r.frags)
    requires forall k :: k in keys ==> k in r.frags
    requires forall i, j :: 0 <= i < j < |keys| ==> keys[i] < keys[j]
    ensures UpTo(r, keys, n, BlocksUpTo(r, keys, n))
  {
    if n > 0 {
      BlocksInvariant(r, keys, n - 1);
      var k := keys[n - 1];
      if n > 1 {
        assert keys[n - 2] < k && keys[n - 2] in r.frags;
      }
      BlocksStep(r, keys, n, BlocksUpTo(r, keys, n - 1));
    }
  }

  lemma BlocksStep(r: Reasm, keys: seq<u32>, n: nat, bs: seq<Block>)
    requires 0 < n <= |keys| && (forall k :: k in keys ==> k in r.frags)
    requires bs == BlocksUpTo(r, keys, n - 1) && UpTo(r, keys, n - 1, bs)
    requires r.frags[keys[n - 1]] != [] && keys[n - 1] + |r.frags[keys[n - 1]]| < TWO_31
    requires n > 1 ==> keys[n - 2] + |r.frags[keys[n - 2]]| <= keys[n - 1]
    ensures UpTo(r, keys, n, BlocksUpTo(r, keys, n))
  {
    var k := keys[n - 1];
    var b := Block(Add(r.base, k), Add(Add(r.base, k), Low32(|r.frags[k]|)));
    FragEdges(r, k);
    if bs != [] && bs[|bs| - 1].right == b.left {
      ExtendLast(r, keys, n, bs, b);
    } else {
      if bs != [] && R(r, bs[|bs| - 1]) == L(r, b) {
        OffInjective(r.base, bs[|bs| - 1].right, b.left);
      }
      OpenNew(r, keys, n, bs, b);
    }
  }

  lemma ExtendLast(r: Reasm, keys: seq<u32>, n: nat, bs: seq<Block>, b: Block)
    requires 0 < n <= |keys| && keys[n - 1] in r.frags && r.frags[keys[n - 1]] != []
    requires UpTo(r, keys, n - 1, bs) && bs != [] && bs[|bs| - 1].right == b.left
    requires L(r, b) == keys[n - 1] && R(r, b) == keys[n - 1] + |r.frags[keys[n - 1]]|
    ensures UpTo(r, keys, n, bs[|bs| - 1 := Block(bs[|bs| - 1].left, b.right)])
  {
    var last := |bs| - 1;
    var bs' := bs[last := Block(bs[last].left, b.right)];
    assert R(r, bs'[last]) == R(r, b) && L(r, bs'[last]) == L(r, bs[last]) && R(r, bs[last]) == L(r, b);
    forall o: int
      ensures InBlocks(r, bs', o) <==> HeldBy(r, keys, n, o)
    {
      assert InBlocks(r, bs, o) <==> HeldBy(r, keys, n - 1, o);
      if InBlocks(r, bs, o) {
        var m :| 0 <= m < |bs| && InBlock(r, bs[m], o);
        assert InBlock(r, bs'[m], o);
      }
      if InFrag(r, keys[n - 1], o) {
        assert InBlock(r, bs'[last], o);
      }
      if InBlocks(r, bs', o) {
        var m :| 0 <= m < |bs'| && InBlock(r, bs'[m], o);
        assert m < last ==> InBlock(r, bs[m], o);
        assert m == last ==> InBlock(r, bs[last], o) || InFrag(r, keys[n - 1], o);
      }
    }
  }

  lemma OpenNew(r: Reasm, keys: seq<u32>, n: nat, bs: seq<Block>, b: Block)
    requires 0 < n <= |keys| && keys[n - 1] in r.frags && r.frags[keys[n - 1]] != []
    requires UpTo(r, keys, n - 1, bs) && (bs != [] ==> R(r, bs[|bs| - 1]) < L(r, b))
    requires L(r, b) == keys[n - 1] && R(r, b) == keys[n - 1] + |r.frags[keys[n - 1]]|
    ensures UpTo(r, keys, n, bs + [b])
  {
    var bs' := bs + [b];
    assert Apart(r, bs') && OnEdges(r, bs') by {
      hide InBlocks, HeldBy, L, R;
    }
    hide L, R, Apart, OnEdges;
    forall o: int
      ensures InBlocks(r, bs', o) <==> HeldBy(r, keys, n, o)
    {
      OpenNewMember(r, keys, n, bs, b, o);
    }
  }

  lemma OpenNewMember(r: Reasm, keys: seq<u32>, n: nat, bs: seq<Block>, b: Block, o: int)
    requires 0 < n <= |keys| && keys[n - 1] in r.frags
    requires InBlocks(r, bs, o) <==> HeldBy(r, keys, n - 1, o)
    requires L(r, b) == keys[n - 1] && R(r, b) == keys[n - 1] + |r.frags[keys[n - 1]]|
    ensures InBlocks(r, bs + [b], o) <==> HeldBy(r, keys, n, o)
  {
    var bs' := bs + [b];
    hide L, R;
    assert InBlock(r, b, o) <==> InFrag(r, keys[n - 1], o);
    hide InFrag, InBlock;
    if InBlocks(r, bs, o) {
      var m :| 0 <= m < |bs| && InBlock(r, bs[m], o);
      assert InBlock(r, bs'[m], o);
    }
    if InFrag(r, keys[n - 1], o) {
      assert InBlock(r, bs'[|bs|], o);
    }
    if InBlocks(r, bs', o) {
      var m :| 0 <= m < |bs'| && InBlock(r, bs'[m], o);
      assert m < |bs| ==> InBlock(r, bs[m], o);
    }
  }

  /** The report of `sack_blocks`: ascending, pairwise separated by at least one missing byte, and a
      byte is inside a block if and only if it is buffered. These three facts leave no choice: the
      blocks are the maximal runs. */
  lemma SackBlocksAreMaximalRuns(r: Reasm)
    requires Disjoint(r.frags)
    ensures Apart(r, SackBlocks(r)) && OnEdges(r, SackBlocks(r))
    ensures forall o: int :: InBlocks(r, SackBlocks(r), o) <==> Held(r, o)
  {
    var keys := Ascending(r.frags.Keys);
    BlocksInvariant(r, keys, |keys|);
    forall o: int
      ensures InBlocks(r, SackBlocks(r), o) <==> Held(r, o)
    {
      assert InBlocks(r, SackBlocks(r), o) <==> HeldBy(r, keys, |keys|, o);
      if Held(r, o) {
        var k :| k in r.frags && InFrag(r, k, o);
        assert k in keys;
        var j :| 0 <= j < |keys| && keys[j] == k;
        assert HeldBy(r, keys, |keys|, o);
      }
    }
  }

  lemma UnitOf(r: Reasm, cuts: seq<int>, w: seq<byte>, got: set<int>, k: int, a: u32) returns (i: int)
    requires Clean(r, cuts, w, got, k) && a in r.frags
    ensures i in got && k < i && DataUnit(cuts, w, i)
    ensures cuts[i] - 1 == a && |r.frags[a]| == cuts[i + 1] - cuts[i]
  {
    assert HasUnit(cuts, w, got, k, a);
    i :| i in got && i >= k && IsUnitAt(cuts, w, i, a);
    assert Holds(r.frags, cuts, w, i);
  }

  /** A reassembler fed a fixed segmentation meets that condition. */
  lemma CleanIsDisjoint(r: Reasm, cuts: seq<int>, w: seq<byte>, got: set<int>, k: int)
    requires Clean(r, cuts, w, got, k)
    ensures Disjoint(r.frags)
  {
    forall a | a in r.frags
      ensures r.frags[a] != [] && a + |r.frags[a]| < TWO_31
    {
      var i := UnitOf(r, cuts, w, got, k, a);
    }
    forall a, b | a in r.frags && b in r.frags && a < b
      ensures a + |r.frags[a]| <= b
    {
      var i := UnitOf(r, cuts, w, got, k, a);
      var j := UnitOf(r, cuts, w, got, k, b);
      assert i < j;
    }
  }

  /** In units: a block runs from one cut to a later one, past the first missing unit, and every unit
      in between has been received. */
  ghost predicate Names(cuts: seq<int>, got: set<int>, k: int, base: u32, b: Block, i: int, j: int) {
    && 0 <= k < i < j < |cuts| && Off(base, b.left) == cuts[i] - 1 && Off(base, b.right) == cuts[j] - 1
    && forall m :: i <= m < j ==> m in got
  }

  lemma BlockNamesReceivedUnits(r: Reasm, cuts: seq<int>, w: seq<byte>, got: set<int>, k: int, n: int)
    returns (i: int, j: int)
    requires Clean(r, cuts, w, got, k) && 0 <= n < |SackBlocks(r)|
    ensures Names(cuts, got, k, r.base, SackBlocks(r)[n], i, j)
  {
    CleanIsDisjoint(r, cuts, w, got, k);
    SackBlocksAreMaximalRuns(r);
    i, j := BlockUnits(r, cuts, w, got, k, SackBlocks(r), n);
  }

  lemma BlockUnits(r: Reasm, cuts: seq<int>, w: seq<byte>, got: set<int>, k: int, bs: seq<Block>, n: int)
    returns (i: int, j: int)
    requires Clean(r, cuts, w, got, k) && 0 <= n < |bs| && Apart(r, bs) && OnEdges(r, bs)
    requires forall o: int :: InBlocks(r, bs, o) <==> Held(r, o)
    ensures Names(cuts, got, k, r.base, bs[n], i, j)
  {
    var b := bs[n];
    assert StartsFrag(r, L(r, b)) && EndsFrag(r, R(r, b));
    i := UnitOf(r, cuts, w, got, k, L(r, b));
    var last: u32 :| last in r.frags && last + |r.frags[last]| == R(r, b);
    var j0 := UnitOf(r, cuts, w, got, k, last);
    j := j0 + 1;
    assert i < j;
    forall m | i <= m < j
      ensures m in got
    {
      UnitInsideBlock(r, cuts, w, got, k, bs, n, i, j, m);
    }
  }

  lemma UnitInsideBlock(r: Reasm, cuts: seq<int>, w: seq<byte>, got: set<int>, k: int, bs: seq<Block>, n: int,
                        i: int, j: int, m: int)
    requires Clean(r, cuts, w, got, k) && 0 <= n < |bs| && 0 <= i <= m < j < |cuts|
    requires L(r, bs[n]) == cuts[i] - 1 && R(r, bs[n]) == cuts[j] - 1
    requires forall o: int :: InBlocks(r, bs, o) <==> Held(r, o)
    ensures m in got
  {
    var o := cuts[m] - 1;
    assert InBlock(r, bs[n], o);
    assert InBlocks(r, bs, o);
    var a :| a in r.frags && InFrag(r, a, o);
    var m' := UnitOf(r, cuts, w, got, k, a);
    assert m' == m;
  }
}
