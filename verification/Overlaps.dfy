/** Reassembly when segments overlap in any way, as after a resend with other boundaries: whatever slices of a stream
    arrive, in whatever order, what is delivered is its beginning, and an arrival that reaches RCV.NXT takes it past its
    own end. (`AnyOrder` says more where the boundaries are fixed.) */
module Overlaps {
  import opened Types
  import opened SeqNum
  import opened Reassembly
  import AnyOrder
  import Segmentation

  /** A buffered fragment is a slice of the stream w. */
  predicate IsSlice(w: seq<byte>, o: int, data: seq<byte>) {
    data != [] && 0 <= o && o + |data| <= |w| && data == w[o..o + |data|]
  }

  /** Everything buffered is where it belongs. */
  ghost predicate Slices(w: seq<byte>, frags: map<u32, seq<byte>>) {
    forall k :: k in frags ==> IsSlice(w, k, frags[k])
  }

  lemma Joined(w: seq<byte>, a: int, b: int, c: int)
    requires 0 <= a <= b <= c <= |w|
    ensures w[a..b] + w[b..c] == w[a..c]
  {
  }

  lemma SliceAt(w: seq<byte>, frags: map<u32, seq<byte>>, k: u32)
    requires Slices(w, frags) && k in frags
    ensures IsSlice(w, k, frags[k]) && Slices(w, frags - {k})
  {
  }

  lemma AddNext(cur: u32, n: nat)
    requires cur + n < TWO_31
    ensures Add(cur, Low32(n)) == cur + n
  {
  }

  /** Draining delivers the stream from `cur` on, and stops where nothing buffered starts. */
  lemma {:induction false} DrainSlices(w: seq<byte>, frags: map<u32, seq<byte>>, cur: u32)
    requires |w| < TWO_31 && Slices(w, frags) && cur <= |w|
    ensures var d := Drain(frags, cur);
            && Slices(w, d.0) && cur + |d.1| <= |w| && d.1 == w[cur..cur + |d.1|]
            && (cur in frags ==> |d.1| >= |frags[cur]|) && cur + |d.1| !in d.0
            && (forall k :: k in d.0 ==> k in frags && d.0[k] == frags[k])
            && forall k :: k in frags && k !in d.0 ==> cur <= k && k + |frags[k]| <= cur + |d.1|
    decreases |frags|
  {
    hide Slices, Add, Low32;
    if cur in frags {
      var data := frags[cur];
      SliceAt(w, frags, cur);
      AddNext(cur, |data|);
      var next: u32 := cur + |data|;
      DrainSlices(w, frags - {cur}, next);
      var rest := Drain(frags - {cur}, next);
      Joined(w, cur, next, next + |rest.1|);
    }
  }

  /** Bytes o to o + n of the stream, arriving when the first p are delivered. */
  lemma TrimmedSlice(w: seq<byte>, o: int, n: nat, p: int)
    requires 0 <= o <= p < o + n <= |w|
    ensures w[o..o + n][p - o..] == w[p..o + n]
  {
  }

  /** One arrival: bytes o to o + n of the stream w, when its first p have been delivered. */
  ghost predicate Arrives(w: seq<byte>, r: Reasm, seqno: u32, data: seq<byte>, rcvNxt: u32, o: int, n: nat, p: int) {
    && |w| < TWO_31 && Slices(w, r.frags) && p !in r.frags
    && 0 <= o && o + n <= |w| && 0 <= p <= |w| && data == w[o..o + n]
    && Off(r.base, seqno) == o && Off(r.base, rcvNxt) == p
  }

  /** The outcome, by where the arrival lies. Old: nothing. Reaching RCV.NXT: what is new of it is delivered, and
      whatever is buffered from there on. Ahead: it is buffered, unless it is too far ahead. */
  lemma ArrivalDelivers(w: seq<byte>, r: Reasm, seqno: u32, data: seq<byte>, rcvNxt: u32, o: int, n: nat, p: int)
    requires Arrives(w, r, seqno, data, rcvNxt, o, n, p)
    ensures var d := Recv(r, seqno, data, rcvNxt);
            && d.0.base == r.base && Slices(w, d.0.frags)
            && p + |d.1| <= |w| && d.1 == w[p..p + |d.1|] && p + |d.1| !in d.0.frags
            && (if n == 0 || o + n <= p || o > p + 65536 then d == (r, [])
                else if o <= p then p + |d.1| >= o + n
                else d == (r.(frags := r.frags[o := data]), []))
  {
    hide Drain, Sub;
    if n > 0 && o + n > p && o <= p + MAX_AHEAD {
      RecvIs(w, r, seqno, data, rcvNxt, o, n, p);
      var off: u32 := if o <= p then p else o;
      var tail := w[off..o + n];
      assert IsSlice(w, off, tail);
      DrainSlices(w, r.frags[off := tail], p);
      if o > p {
        NothingThere(r.frags[off := tail], p);
      }
    }
  }

  lemma NothingThere(frags: map<u32, seq<byte>>, p: u32)
    requires p !in frags
    ensures Drain(frags, p) == (frags, [])
  {
  }

  lemma RecvIs(w: seq<byte>, r: Reasm, seqno: u32, data: seq<byte>, rcvNxt: u32, o: int, n: nat, p: int)
    requires Arrives(w, r, seqno, data, rcvNxt, o, n, p) && n > 0 && o + n > p && o <= p + MAX_AHEAD
    ensures var off: u32 := if o <= p then p else o;
            var d := Drain(r.frags[off := w[off..o + n]], p);
            Recv(r, seqno, data, rcvNxt) == (r.(frags := d.0), d.1)
  {
    hide Drain, Slices, Sub;
    if o < p {
      TrimmedSlice(w, o, n, p);
      RecvTrims(r, seqno, data, rcvNxt);
    } else {
      Segmentation.RecvAhead(r, seqno, data, rcvNxt);
    }
  }

  lemma RecvTrims(r: Reasm, seqno: u32, data: seq<byte>, rcvNxt: u32)
    requires var nxt, off := Off(r.base, rcvNxt), Off(r.base, seqno); off < nxt < off + |data|
    ensures var nxt, off := Off(r.base, rcvNxt), Off(r.base, seqno);
            var d := Drain(r.frags[nxt := data[nxt - off..]], nxt);
            Recv(r, seqno, data, rcvNxt) == (r.(frags := d.0), d.1)
  {
    hide Drain, Sub;
  }

  // ---- whole histories ----

  /** Bytes o to o + n of the stream. */
  datatype Slice = Slice(o: nat, n: nat)

  ghost predicate Within(w: seq<byte>, arrivals: seq<Slice>) {
    forall i :: 0 <= i < |arrivals| ==> arrivals[i].o + arrivals[i].n <= |w|
  }

  function Arrive(x: AnyOrder.Receiver, w: seq<byte>, s: Slice): AnyOrder.Receiver
    requires s.o + s.n <= |w| < TWO_31
  {
    var d := Recv(x.r, Add(x.r.base, s.o), w[s.o..s.o + s.n], x.rcvNxt);
    AnyOrder.Receiver(d.0, Add(x.rcvNxt, Low32(|d.1|)), x.delivered + d.1)
  }

  ghost function After(base: u32, w: seq<byte>, arrivals: seq<Slice>): AnyOrder.Receiver
    requires |w| < TWO_31 && Within(w, arrivals)
  {
    if arrivals == [] then AnyOrder.Receiver(Reasm(base, map[]), base, [])
    else
      var n := |arrivals| - 1;
      Arrive(After(base, w, arrivals[..n]), w, arrivals[n])
  }

  ghost predicate Sound(x: AnyOrder.Receiver, base: u32, w: seq<byte>) {
    && x.r.base == base && Slices(w, x.r.frags)
    && |x.delivered| <= |w| && x.delivered == w[..|x.delivered|]
    && Off(base, x.rcvNxt) == |x.delivered| && |x.delivered| !in x.r.frags
  }

  lemma Placed(base: u32, o: u32)
    ensures Off(base, Add(base, o)) == o
  {
  }

  lemma LowIs(n: nat)
    requires n < TWO_31
    ensures Low32(n) == n
  {
  }

  lemma ArriveSound(x: AnyOrder.Receiver, base: u32, w: seq<byte>, s: Slice)
    requires |w| < TWO_31 && Sound(x, base, w) && s.o + s.n <= |w|
    ensures var y := Arrive(x, w, s);
            && Sound(y, base, w) && |y.delivered| >= |x.delivered|
            && (s.o <= |x.delivered| ==> |y.delivered| >= s.o + s.n)
  {
    var p := |x.delivered|;
    hide Recv, Slices, Off, Add;
    Placed(base, s.o);
    assert Arrives(w, x.r, Add(base, s.o), w[s.o..s.o + s.n], x.rcvNxt, s.o, s.n, p);
    ArrivalDelivers(w, x.r, Add(base, s.o), w[s.o..s.o + s.n], x.rcvNxt, s.o, s.n, p);
    var d := Recv(x.r, Add(base, s.o), w[s.o..s.o + s.n], x.rcvNxt);
    LowIs(|d.1|);
    AddOff(base, x.rcvNxt, Low32(|d.1|));
    Joined(w, 0, p, p + |d.1|);
  }

  /** After any slices of the stream, in any order and overlapping in any way: what has been delivered is the
      beginning of the stream, everything buffered belongs where it is, and RCV.NXT stands right after what is
      delivered. */
  lemma {:induction false} DeliversBeginning(base: u32, w: seq<byte>, arrivals: seq<Slice>)
    requires |w| < TWO_31 && Within(w, arrivals)
    ensures Sound(After(base, w, arrivals), base, w)
  {
    hide Slices, Recv;
    if arrivals == [] {
      NothingYet(base, w);
    } else {
      var n := |arrivals| - 1;
      DeliversBeginning(base, w, arrivals[..n]);
      ArriveSound(After(base, w, arrivals[..n]), base, w, arrivals[n]);
    }
  }

  lemma NothingYet(base: u32, w: seq<byte>)
    ensures Sound(AnyOrder.Receiver(Reasm(base, map[]), base, []), base, w)
  {
  }

  /** And nothing that starts in what is delivered is lost: the last arrival, if it starts at or below RCV.NXT, is
      delivered to its end. */
  lemma DeliversWhatItReaches(base: u32, w: seq<byte>, arrivals: seq<Slice>)
    requires |w| < TWO_31 && Within(w, arrivals) && arrivals != []
    requires var n := |arrivals| - 1; arrivals[n].o <= |After(base, w, arrivals[..n]).delivered|
    ensures var n := |arrivals| - 1; |After(base, w, arrivals).delivered| >= arrivals[n].o + arrivals[n].n
  {
    var n := |arrivals| - 1;
    DeliversBeginning(base, w, arrivals[..n]);
    ArriveSound(After(base, w, arrivals[..n]), base, w, arrivals[n]);
    hide Arrive, Sound;
  }
}
