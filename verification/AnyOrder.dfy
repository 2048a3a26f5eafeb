/** Reassembly over whole arrival histories: any order, any repeats. */
module AnyOrder {
  import opened Types
  import opened SeqNum
  import opened Reassembly
  import opened Segmentation

  /** A receiver: its reassembler, RCV.NXT, and everything delivered so far. */
  datatype Receiver = Receiver(r: Reasm, rcvNxt: u32, delivered: seq<byte>)

  function Fresh(irs: u32): Receiver {
    Receiver(Reasm(Add(irs, 1), map[]), Add(irs, 1), [])
  }

  /** Unit i arrives; the caller advances RCV.NXT by what was delivered. */
  ghost function Arrive(x: Receiver, irs: u32, cuts: seq<int>, w: seq<byte>, i: int): Receiver
    requires Cuts(cuts) && DataUnit(cuts, w, i)
  {
    var d := Recv(x.r, Add(irs, cuts[i]), UnitBytes(cuts, w, i), x.rcvNxt);
    Receiver(d.0, Add(x.rcvNxt, Low32(|d.1|)), x.delivered + d.1)
  }

  ghost predicate AllUnits(cuts: seq<int>, w: seq<byte>, order: seq<int>) {
    Cuts(cuts) && forall n :: 0 <= n < |order| ==> DataUnit(cuts, w, order[n])
  }

  ghost function After(irs: u32, cuts: seq<int>, w: seq<byte>, order: seq<int>): Receiver
    requires AllUnits(cuts, w, order)
  {
    if order == [] then Fresh(irs)
    else Arrive(After(irs, cuts, w, order[..|order| - 1]), irs, cuts, w, order[|order| - 1])
  }

  /** No arrival lay more than MAX_AHEAD past RCV.NXT at its time. */
  ghost predicate NeverTooFar(irs: u32, cuts: seq<int>, w: seq<byte>, order: seq<int>)
    requires AllUnits(cuts, w, order)
  {
    forall n :: 0 <= n < |order| ==>
      cuts[order[n]] <= Off(irs, After(irs, cuts, w, order[..n]).rcvNxt) + MAX_AHEAD
  }

  ghost function Seen(order: seq<int>): set<int> {
    {0} + set n | 0 <= n < |order| :: order[n]
  }

  ghost predicate Settled(x: Receiver, irs: u32, cuts: seq<int>, w: seq<byte>, got: set<int>, k: int) {
    && Clean(x.r, cuts, w, got, k) && x.r.base == Add(irs, 1)
    && Off(irs, x.rcvNxt) == cuts[k] && cuts[k] - 1 <= |w| && x.delivered == w[..cuts[k] - 1]
  }

  lemma Offsets(irs: u32, x: u32, o: int)
    requires 1 <= o < TWO_31
    ensures Off(Add(irs, 1), Add(irs, o)) == o - 1
    ensures Off(irs, x) == o ==> Off(Add(irs, 1), x) == o - 1
  {
  }

  lemma ArriveSettled(x: Receiver, irs: u32, cuts: seq<int>, w: seq<byte>, got: set<int>, k: int, i: int) returns (k': int)
    requires Settled(x, irs, cuts, w, got, k) && DataUnit(cuts, w, i)
    ensures Settled(Arrive(x, irs, cuts, w, i), irs, cuts, w, Received(cuts, got, k, i), k')
  {
    Offsets(irs, x.rcvNxt, cuts[k]);
    Offsets(irs, 0, cuts[i]);
    k' := RecvUnit(x.r, cuts, w, got, k, i, Add(irs, cuts[i]), x.rcvNxt);
    var d := Recv(x.r, Add(irs, cuts[i]), UnitBytes(cuts, w, i), x.rcvNxt);
    AddOff(irs, x.rcvNxt, Low32(|d.1|));
    assert w[..cuts[k'] - 1] == w[..cuts[k] - 1] + d.1;
  }

  lemma ShorterHistory(irs: u32, cuts: seq<int>, w: seq<byte>, order: seq<int>, n: int)
    requires AllUnits(cuts, w, order) && NeverTooFar(irs, cuts, w, order) && n == |order| - 1 >= 0
    ensures AllUnits(cuts, w, order[..n]) && NeverTooFar(irs, cuts, w, order[..n])
    ensures cuts[order[n]] <= Off(irs, After(irs, cuts, w, order[..n]).rcvNxt) + MAX_AHEAD
    ensures Seen(order) == Seen(order[..n]) + {order[n]}
  {
    hide After;
    forall m | 0 <= m < n
      ensures order[..n][..m] == order[..m]
    {
    }
  }

  lemma Begin(irs: u32, cuts: seq<int>, w: seq<byte>)
    requires Cuts(cuts)
    ensures Settled(Fresh(irs), irs, cuts, w, {0}, 1)
  {
    assert Clean(Fresh(irs).r, cuts, w, {0}, 1);
  }

  /** After any history that never runs too far ahead, what has been delivered is exactly the longest
      prefix all of whose units have arrived (k is the first missing unit), and what is buffered is
      exactly the arrived units beyond it. */
  lemma {:induction false} DeliversLongestPrefix(irs: u32, cuts: seq<int>, w: seq<byte>, order: seq<int>) returns (k: int)
    requires AllUnits(cuts, w, order) && NeverTooFar(irs, cuts, w, order)
    ensures Settled(After(irs, cuts, w, order), irs, cuts, w, Seen(order), k)
    decreases |order|
  {
    if order == [] {
      k := 1;
      Begin(irs, cuts, w);
      assert Seen(order) == {0};
    } else {
      var n := |order| - 1;
      ShorterHistory(irs, cuts, w, order, n);
      var k0 := DeliversLongestPrefix(irs, cuts, w, order[..n]);
      k := ArriveSettled(After(irs, cuts, w, order[..n]), irs, cuts, w, Seen(order[..n]), k0, order[n]);
      hide Clean, NeverTooFar, Arrive, Off;
    }
  }

  /** Two histories with the same units end in the same state, having delivered the same bytes. */
  lemma OrderIrrelevant(irs: u32, cuts: seq<int>, w: seq<byte>, order1: seq<int>, order2: seq<int>)
    requires AllUnits(cuts, w, order1) && AllUnits(cuts, w, order2)
    requires NeverTooFar(irs, cuts, w, order1) && NeverTooFar(irs, cuts, w, order2)
    requires forall i :: i in order1 <==> i in order2
    ensures After(irs, cuts, w, order1) == After(irs, cuts, w, order2)
  {
    var k1 := DeliversLongestPrefix(irs, cuts, w, order1);
    var k2 := DeliversLongestPrefix(irs, cuts, w, order2);
    assert Seen(order1) == Seen(order2) by {
      SeenIs(order1);
      SeenIs(order2);
    }
    var x1, x2 := After(irs, cuts, w, order1), After(irs, cuts, w, order2);
    StateDeterminedByReceivedSet(x1.r, x2.r, cuts, w, Seen(order1), k1, k2);
    OffInjective(irs, x1.rcvNxt, x2.rcvNxt);
  }

  lemma SeenIs(order: seq<int>)
    ensures forall i :: i in Seen(order) <==> i == 0 || i in order
  {
  }
}
