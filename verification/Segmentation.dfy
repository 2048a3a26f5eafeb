/** Reassembly of a fixed segmentation. A stream is cut once, at increasing positions counted from
    the sender's initial sequence number (0 is the SYN, 1 the first byte); unit i is the interval
    between cuts i and i+1, and any unit may arrive any number of times in any order. */
module Segmentation {
  import opened Types
  import opened SeqNum
  import opened Segments
  import opened Reassembly

  ghost predicate Cuts(cuts: seq<int>) {
    && |cuts| >= 2 && cuts[0] == 0 && cuts[1] == 1
    && (forall i, j :: 0 <= i < j < |cuts| ==> cuts[i] < cuts[j])
    && cuts[|cuts| - 1] < TWO_31
  }

  ghost predicate DataUnit(cuts: seq<int>, w: seq<byte>, i: int) {
    1 <= i < |cuts| - 1 && cuts[i + 1] - 1 <= |w|
  }

  /** Unit i sits in the fragment map under its own position, whole. */
  ghost predicate Holds(frags: map<u32, seq<byte>>, cuts: seq<int>, w: seq<byte>, i: int)
    requires Cuts(cuts)
  {
    && DataUnit(cuts, w, i)
    && cuts[i] - 1 in frags && frags[cuts[i] - 1] == UnitBytes(cuts, w, i)
  }

  ghost predicate IsUnitAt(cuts: seq<int>, w: seq<byte>, i: int, o: int) {
    DataUnit(cuts, w, i) && cuts[i] - 1 == o
  }

  ghost predicate HasUnit(cuts: seq<int>, w: seq<byte>, got: set<int>, k: int, o: int) {
    exists i {:trigger i in got} :: i in got && i >= k && IsUnitAt(cuts, w, i, o)
  }

  ghost function UnitBytes(cuts: seq<int>, w: seq<byte>, i: int): seq<byte>
    requires Cuts(cuts) && DataUnit(cuts, w, i)
  {
    w[cuts[i] - 1..cuts[i + 1] - 1]
  }

  /** The fragment map holds exactly the received units numbered k or more. */
  ghost predicate Buffered(frags: map<u32, seq<byte>>, cuts: seq<int>, w: seq<byte>, got: set<int>, k: int)
    requires Cuts(cuts)
  {
    && (forall i {:trigger i in got} :: i in got && i >= k ==> Holds(frags, cuts, w, i))
    && (forall o {:trigger HasUnit(cuts, w, got, k, o)} :: o in frags ==> HasUnit(cuts, w, got, k, o))
  }

  /** k is the number of the first missing unit. */
  ghost predicate FirstMissing(got: set<int>, k: int) {
    k !in got && forall i :: 0 <= i < k ==> i in got
  }

  /** The reassembler after receiving exactly the units `got`, of which the first missing is k. */
  ghost predicate Clean(r: Reasm, cuts: seq<int>, w: seq<byte>, got: set<int>, k: int) {
    && Cuts(cuts) && 1 <= k < |cuts|
    && FirstMissing(got, k)
    && Buffered(r.frags, cuts, w, got, k)
  }

  lemma DropFirst(frags: map<u32, seq<byte>>, cuts: seq<int>, w: seq<byte>, got: set<int>, k: int)
    requires Cuts(cuts) && k in got && Buffered(frags, cuts, w, got, k)
    ensures Holds(frags, cuts, w, k)
    ensures Buffered(frags - {cuts[k] - 1}, cuts, w, got, k + 1)
  {
    var rest := frags - {cuts[k] - 1};
    forall i | i in got && i >= k + 1
      ensures Holds(rest, cuts, w, i)
    {
      assert Holds(frags, cuts, w, i);
      assert cuts[k] < cuts[i];
    }
    forall o | o in rest
      ensures HasUnit(cuts, w, got, k + 1, o)
    {
      assert HasUnit(cuts, w, got, k, o);
      var i :| i in got && i >= k && IsUnitAt(cuts, w, i, o);
      assert i in got && i >= k + 1 && IsUnitAt(cuts, w, i, o);
    }
  }

  lemma NoUnitAtGap(frags: map<u32, seq<byte>>, cuts: seq<int>, w: seq<byte>, got: set<int>, k: int)
    requires Cuts(cuts) && 1 <= k < |cuts| && k !in got && Buffered(frags, cuts, w, got, k)
    ensures cuts[k] - 1 !in frags
    ensures Buffered(frags, cuts, w, got, k + 1)
  {
    GapEmpty(frags, cuts, w, got, k);
    assert forall o :: o in frags ==> HasUnit(cuts, w, got, k, o);
    PastGap(cuts, w, got, k);
    hide Cuts, Holds, HasUnit, UnitBytes;
  }

  lemma GapEmpty(frags: map<u32, seq<byte>>, cuts: seq<int>, w: seq<byte>, got: set<int>, k: int)
    requires Cuts(cuts) && 1 <= k < |cuts| && k !in got && Buffered(frags, cuts, w, got, k)
    ensures cuts[k] - 1 !in frags
  {
    assert !HasUnit(cuts, w, got, k, cuts[k] - 1);
  }

  lemma PastGap(cuts: seq<int>, w: seq<byte>, got: set<int>, k: int)
    requires k !in got
    ensures forall o {:trigger HasUnit(cuts, w, got, k + 1, o)} :: HasUnit(cuts, w, got, k, o) ==> HasUnit(cuts, w, got, k + 1, o)
  {
    hide IsUnitAt;
    forall o | HasUnit(cuts, w, got, k, o)
      ensures HasUnit(cuts, w, got, k + 1, o)
    {
      var i :| i in got && i >= k && IsUnitAt(cuts, w, i, o);
      assert i in got && i >= k + 1 && IsUnitAt(cuts, w, i, o);
    }
  }

  /** Draining from the first cut delivers the stream up to the first missing unit. */
  lemma {:induction false} DrainUnits(frags: map<u32, seq<byte>>, cuts: seq<int>, w: seq<byte>, got: set<int>, k: int)
    returns (k': int)
    requires Cuts(cuts) && 1 <= k < |cuts| && cuts[k] - 1 <= |w|
    requires Buffered(frags, cuts, w, got, k)
    ensures k <= k' < |cuts| && cuts[k] <= cuts[k'] && cuts[k'] - 1 <= |w|
    ensures k' !in got && forall i :: k <= i < k' ==> i in got
    ensures Drain(frags, cuts[k] - 1).1 == w[cuts[k] - 1..cuts[k'] - 1]
    ensures Buffered(Drain(frags, cuts[k] - 1).0, cuts, w, got, k')
    decreases |cuts| - k
  {
    if k in got {
      DropFirst(frags, cuts, w, got, k);
      k' := DrainUnits(frags - {cuts[k] - 1}, cuts, w, got, k + 1);
      DrainFirst(frags, w, cuts[k] - 1, cuts[k + 1] - 1, cuts[k'] - 1);
    } else {
      k' := k;
      NoUnitAtGap(frags, cuts, w, got, k);
    }
  }

  lemma DrainFirst(frags: map<u32, seq<byte>>, w: seq<byte>, a: u32, b: u32, c: int)
    requires a < b <= c <= |w| && b < TWO_31
    requires a in frags && frags[a] == w[a..b]
    requires Drain(frags - {a}, b).1 == w[b..c]
    ensures Drain(frags, a).1 == w[a..c]
    ensures Drain(frags, a).0 == Drain(frags - {a}, b).0
  {
    assert |frags[a]| == b - a;
    hide Add, Low32;
    AddSmall(a, |frags[a]|);
    SliceJoin(w, a, b, c);
  }

  lemma AddSmall(a: u32, n: nat)
    requires a + n < TWO_31
    ensures Add(a, Low32(n)) == a + n
  {
  }

  lemma SliceJoin(w: seq<byte>, a: int, b: int, c: int)
    requires 0 <= a <= b <= c <= |w|
    ensures w[a..b] + w[b..c] == w[a..c]
  {
  }

  /** A unit within MAX_AHEAD of the first missing byte is remembered (or already was). */
  predicate Accepts(cuts: seq<int>, i: int, k: int)
    requires 0 <= i < |cuts| && 0 <= k < |cuts|
  {
    cuts[i] <= cuts[k] + MAX_AHEAD
  }

  ghost function Received(cuts: seq<int>, got: set<int>, k: int, i: int): set<int>
    requires 0 <= i < |cuts| && 0 <= k < |cuts|
  {
    if Accepts(cuts, i, k) then got + {i} else got
  }

  /** One arrival: the received set grows by the unit, and what is delivered is exactly the stretch
      of the stream from the old first missing unit to the new one. */
  lemma {:induction false} RecvUnit(r: Reasm, cuts: seq<int>, w: seq<byte>, got: set<int>, k: int, i: int,
                                    seqno: u32, rcvNxt: u32)
    returns (k': int)
    requires Clean(r, cuts, w, got, k) && DataUnit(cuts, w, i) && cuts[k] - 1 <= |w|
    requires Off(r.base, rcvNxt) == cuts[k] - 1 && Off(r.base, seqno) == cuts[i] - 1
    ensures Clean(Recv(r, seqno, UnitBytes(cuts, w, i), rcvNxt).0, cuts, w, Received(cuts, got, k, i), k')
    ensures k' >= k && cuts[k] <= cuts[k'] && cuts[k'] - 1 <= |w|
    ensures Recv(r, seqno, UnitBytes(cuts, w, i), rcvNxt).1 == w[cuts[k] - 1..cuts[k'] - 1]
    ensures Recv(r, seqno, UnitBytes(cuts, w, i), rcvNxt).0.base == r.base
  {
    var data := UnitBytes(cuts, w, i);
    var got' := Received(cuts, got, k, i);
    RecvCases(r, cuts, w, k, i, seqno, rcvNxt);
    if i < k || !Accepts(cuts, i, k) {
      assert got' == got;
      assert w[cuts[k] - 1..cuts[k] - 1] == [];
      k' := k;
    } else {
      AddUnit(r.frags, cuts, w, got, k, i);
      hide Recv, Buffered, Cuts, UnitBytes;
      k' := DrainUnits(r.frags[cuts[i] - 1 := data], cuts, w, got', k);
      assert got' == got + {i};
    }
    hide Recv, Buffered, Cuts, UnitBytes;
  }

  /** What `Recv` does with a whole unit: ignored if it was passed on or lies too far ahead, else
      remembered and drained. */
  lemma RecvCases(r: Reasm, cuts: seq<int>, w: seq<byte>, k: int, i: int, seqno: u32, rcvNxt: u32)
    requires Cuts(cuts) && DataUnit(cuts, w, i) && 1 <= k < |cuts|
    requires Off(r.base, rcvNxt) == cuts[k] - 1 && Off(r.base, seqno) == cuts[i] - 1
    ensures var data := UnitBytes(cuts, w, i);
            Recv(r, seqno, data, rcvNxt) ==
            if i < k || !Accepts(cuts, i, k) then (r, [])
            else var d := Drain(r.frags[cuts[i] - 1 := data], cuts[k] - 1); (r.(frags := d.0), d.1)
  {
    var data := UnitBytes(cuts, w, i);
    assert |data| == cuts[i + 1] - cuts[i] && data != [];
    assert if i < k then cuts[i + 1] <= cuts[k] else cuts[k] <= cuts[i];
    hide Cuts, UnitBytes, Recv, Drain;
    if i < k {
      RecvBehind(r, seqno, data, rcvNxt);
    } else {
      RecvAhead(r, seqno, data, rcvNxt);
    }
  }

  lemma RecvBehind(r: Reasm, seqno: u32, data: seq<byte>, rcvNxt: u32)
    requires data != [] && Off(r.base, seqno) + |data| <= Off(r.base, rcvNxt)
    ensures Recv(r, seqno, data, rcvNxt) == (r, [])
  {
    hide Drain, Sub;
  }

  lemma RecvAhead(r: Reasm, seqno: u32, data: seq<byte>, rcvNxt: u32)
    requires data != [] && Off(r.base, rcvNxt) <= Off(r.base, seqno)
    ensures var nxt, off := Off(r.base, rcvNxt), Off(r.base, seqno);
            Recv(r, seqno, data, rcvNxt) ==
            if off > nxt + MAX_AHEAD then (r, []) else var d := Drain(r.frags[off := data], nxt); (r.(frags := d.0), d.1)
  {
    hide Drain, Sub;
  }

  lemma AddUnit(frags: map<u32, seq<byte>>, cuts: seq<int>, w: seq<byte>, got: set<int>, k: int, i: int)
    requires Cuts(cuts) && Buffered(frags, cuts, w, got, k) && DataUnit(cuts, w, i) && 1 <= k <= i
    ensures Buffered(frags[cuts[i] - 1 := UnitBytes(cuts, w, i)], cuts, w, got + {i}, k)
    ensures cuts[k] <= cuts[i]
  {
    var o: u32 := cuts[i] - 1;
    assert cuts[k] <= cuts[i];
    AddAll(frags, cuts, w, got, k, i);
    assert forall x :: x in frags ==> HasUnit(cuts, w, got, k, x);
    hide Cuts, Holds, HasUnit, UnitBytes;
    forall x | x in frags[o := UnitBytes(cuts, w, i)]
      ensures HasUnit(cuts, w, got + {i}, k, x)
    {
      AddedHasUnit(cuts, w, got, k, i, x);
    }
  }

  lemma AddAll(frags: map<u32, seq<byte>>, cuts: seq<int>, w: seq<byte>, got: set<int>, k: int, i: int)
    requires Cuts(cuts) && Buffered(frags, cuts, w, got, k) && DataUnit(cuts, w, i)
    ensures forall j {:trigger Holds(frags[cuts[i] - 1 := UnitBytes(cuts, w, i)], cuts, w, j)} ::
              j in got + {i} && j >= k ==> Holds(frags[cuts[i] - 1 := UnitBytes(cuts, w, i)], cuts, w, j)
  {
    assert forall j :: j in got && j >= k ==> Holds(frags, cuts, w, j);
    hide Cuts, Holds, HasUnit, UnitBytes;
    forall j | j in got + {i} && j >= k
      ensures Holds(frags[cuts[i] - 1 := UnitBytes(cuts, w, i)], cuts, w, j)
    {
      AddedHolds(frags, cuts, w, i, j);
    }
  }

  lemma AddedHolds(frags: map<u32, seq<byte>>, cuts: seq<int>, w: seq<byte>, i: int, j: int)
    requires Cuts(cuts) && DataUnit(cuts, w, i) && (j == i || Holds(frags, cuts, w, j))
    ensures Holds(frags[cuts[i] - 1 := UnitBytes(cuts, w, i)], cuts, w, j)
  {
    if j != i {
      assert cuts[j] != cuts[i];
    }
  }

  lemma AddedHasUnit(cuts: seq<int>, w: seq<byte>, got: set<int>, k: int, i: int, o: int)
    requires Cuts(cuts) && DataUnit(cuts, w, i) && k <= i
    requires o == cuts[i] - 1 || HasUnit(cuts, w, got, k, o)
    ensures HasUnit(cuts, w, got + {i}, k, o)
  {
    hide Cuts;
    if o == cuts[i] - 1 {
      assert i in got + {i} && IsUnitAt(cuts, w, i, o);
    } else {
      var j :| j in got && j >= k && IsUnitAt(cuts, w, j, o);
      assert j in got + {i};
    }
  }

  /** The state is a function of the set of units received: the order and the repeats are gone. */
  lemma {:induction false} StateDeterminedByReceivedSet(r1: Reasm, r2: Reasm, cuts: seq<int>, w: seq<byte>,
                                                        got: set<int>, k1: int, k2: int)
    requires Clean(r1, cuts, w, got, k1) && Clean(r2, cuts, w, got, k2)
    ensures k1 == k2 && r1.frags == r2.frags
  {
    assert k1 == k2;
    SubMap(r1.frags, r2.frags, cuts, w, got, k1);
    SubMap(r2.frags, r1.frags, cuts, w, got, k1);
  }

  lemma {:induction false} SubMap(f: map<u32, seq<byte>>, g: map<u32, seq<byte>>, cuts: seq<int>, w: seq<byte>,
                                  got: set<int>, k: int)
    requires Cuts(cuts) && Buffered(f, cuts, w, got, k) && Buffered(g, cuts, w, got, k)
    ensures forall o :: o in f ==> o in g && f[o] == g[o]
  {
    forall o | o in f
      ensures o in g && f[o] == g[o]
    {
      assert HasUnit(cuts, w, got, k, o);
      var i :| i in got && i >= k && IsUnitAt(cuts, w, i, o);
    }
  }
}
