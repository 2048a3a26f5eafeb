/** One direction of a connection: what its sender has cut and queued, what its receiver has, and
    what any segment travelling in it may say. Positions count from the sender's initial sequence
    number: 0 is the SYN, 1 the first byte written, and the FIN follows the last byte sent. */
module Direction {
  import opened Types
  import opened SeqNum
  import opened Segments
  import opened Connection
  import opened Segmentation
  import Retransmit
  import Congestion

  /** cuts: the fixed segmentation. fin: its last unit is the FIN. got: units the receiver has taken
      in. k: the first unit it misses. stops: every value k has ever had. */
  datatype Dir = Dir(cuts: seq<int>, fin: bool, got: set<int>, k: int, stops: set<int>)

  function Units(d: Dir): int {
    |d.cuts| - 1
  }

  function DataUnits(d: Dir): int {
    if d.fin then |d.cuts| - 2 else |d.cuts| - 1
  }

  ghost predicate WellCut(d: Dir, w: seq<byte>) {
    && Cuts(d.cuts)
    && (d.fin ==> |d.cuts| >= 3 && d.cuts[|d.cuts| - 1] == d.cuts[|d.cuts| - 2] + 1)
    && d.cuts[DataUnits(d)] - 1 <= |w|
  }

  /** How many bytes of w have been put on the wire. */
  function Sent(d: Dir): int
    requires |d.cuts| >= 2 && (d.fin ==> |d.cuts| >= 3)
  {
    d.cuts[DataUnits(d)] - 1
  }

  /** Segment p is unit i, whole. */
  ghost predicate Carries(p: Seg, iss: u32, d: Dir, w: seq<byte>, i: int)
    requires WellCut(d, w)
  {
    && 0 <= i < Units(d) && Off(iss, p.seqno) == d.cuts[i] && !Has(p.flags, RST)
    && (Has(p.flags, SYN) <==> i == 0)
    && (Has(p.flags, FIN) <==> i == DataUnits(d))
    && p.payload == if 0 < i < DataUnits(d) then Content(d, w, i) else []
  }

  ghost function Content(d: Dir, w: seq<byte>, i: int): seq<byte>
    requires WellCut(d, w) && 0 < i < DataUnits(d)
  {
    assert d.cuts[i + 1] <= d.cuts[DataUnits(d)];
    UnitBytes(d.cuts, w, i)
  }

  /** A pure control segment: no data, no SYN, no FIN, no RST. */
  predicate Bare(p: Seg) {
    p.payload == [] && !Has(p.flags, SYN) && !Has(p.flags, FIN) && !Has(p.flags, RST)
  }

  /** A pure control segment at a number already in use. */
  predicate Control(p: Seg, iss: u32, d: Dir)
    requires |d.cuts| > 0
  {
    Bare(p) && Off(iss, p.seqno) <= d.cuts[Units(d)]
  }

  ghost predicate Honest(p: Seg, iss: u32, d: Dir, w: seq<byte>)
    requires WellCut(d, w)
  {
    Control(p, iss, d) || exists i :: Carries(p, iss, d, w, i)
  }

  /** An acknowledgement number names a place where the receiver really stood. */
  ghost predicate AckAt(ackno: u32, iss: u32, d: Dir, a: int) {
    a in d.stops && 0 <= a < |d.cuts| && Off(iss, ackno) == d.cuts[a]
  }

  /** A SACK block names whole units the receiver holds, none of which it ever waited for since. */
  ghost predicate BlockAt(b: Block, iss: u32, d: Dir, i: int, j: int) {
    && 0 < i < j < |d.cuts| && Off(iss, b.left) == d.cuts[i] && Off(iss, b.right) == d.cuts[j]
    && forall m :: i <= m < j ==> m in d.got && m !in d.stops
  }

  /** What a segment says about the opposite direction d is true. */
  ghost predicate Truthful(p: Seg, iss: u32, d: Dir) {
    && (Has(p.flags, ACK) ==> exists a :: AckAt(p.ackno, iss, d, a))
    && forall b :: b in p.opts.sack ==> exists i, j :: BlockAt(b, iss, d, i, j)
  }

  // ---- the sender ----

  /** Number of the oldest queued unit. */
  function Oldest(c: Conn, d: Dir): int {
    Units(d) - |c.retx.segs|
  }

  ghost predicate Entry(e: Retransmit.Unacked, iss: u32, d: Dir, w: seq<byte>, i: int)
    requires WellCut(d, w)
  {
    && Carries(e.packet, iss, d, w, i)
    && Off(iss, e.start) == d.cuts[i] && Off(iss, e.end) == d.cuts[i + 1]
    && (e.sacked ==> i in d.got && i !in d.stops)
  }

  ghost predicate Tiled(segs: seq<Retransmit.Unacked>, iss: u32, d: Dir, w: seq<byte>)
    requires WellCut(d, w)
  {
    && |segs| <= Units(d)
    && forall j :: 0 <= j < |segs| ==> Entry(segs[j], iss, d, w, Units(d) - |segs| + j)
  }

  predicate FinStates(s: State) {
    s == FinWait1 || s == FinWait2 || s == Closing || s == LastAck || s == TimeWait
  }

  /** The queue tiles [SND.UNA, SND.NXT) with whole units, or our FIN has been acknowledged and it is
      empty; what is written is what is sent followed by the send buffer. */
  ghost predicate Sends(c: Conn, d: Dir, w: seq<byte>) {
    && WellCut(d, w)
    && Off(c.send.iss, c.send.nxt) == d.cuts[Units(d)]
    && c.sendBuf == w[Sent(d)..]
    && (c.state == SynSent || c.state == SynRcvd ==> Units(d) == 1)
    && (c.state == SynSent || c.state == SynRcvd || c.state == Established || c.state == CloseWait ==> !d.fin)
    && (FinStates(c.state) ==> d.fin)
    && Tiled(c.retx.segs, c.send.iss, d, w)
    && UnaOk(c, d)
    && RecoverOk(c)
  }

  ghost predicate UnaOk(c: Conn, d: Dir)
    requires |d.cuts| >= 2 && |c.retx.segs| <= Units(d)
  {
    (c.state == FinWait2 || c.state == TimeWait ==> c.retx.segs == []) &&
    if Off(c.send.iss, c.send.una) == d.cuts[Oldest(c, d)] then Oldest(c, d) in d.stops
    else
      && c.retx.segs == [] && Off(c.send.iss, c.send.una) < d.cuts[Units(d)] && Units(d) in d.stops
      && (c.state == FinWait2 || c.state == TimeWait || c.state == Closed)
  }

  /** NewReno (section 3.2 of RFC 6582): SND.UNA < recover <= SND.NXT during recovery. */
  predicate RecoverOk(c: Conn) {
    Congestion.InRecovery(c.cong) ==>
      && c.state != SynSent && c.state != SynRcvd
      && Off(c.send.iss, c.send.una) < Off(c.send.iss, c.recover) <= Off(c.send.iss, c.send.nxt)
  }

  // ---- the receiver ----

  ghost predicate Receives(c: Conn, iss: u32, d: Dir, w: seq<byte>, taken: seq<byte>) {
    WellCut(d, w) &&
    if c.state == SynSent then
      d.got == {} && d.k == 0 && d.stops == {0} && taken == [] && c.recvBuf == [] && !c.peerFin && c.pendingFin.None?
    else
      && c.recv.irs == iss && c.reasm.base == Add(iss, 1)
      && Clean(c.reasm, d.cuts, w, d.got, d.k)
      && Off(iss, c.recv.nxt) == d.cuts[d.k]
      && Progress(c, d)
      && (forall i :: i in d.got ==> 0 <= i < DataUnits(d) + (if c.peerFin then 1 else 0))
      && taken + c.recvBuf == w[..Delivered(c, d)]
      && d.k in d.stops && 0 in d.stops && (forall a :: a in d.stops ==> 0 <= a <= d.k)
      && (c.pendingFin.Some? ==> d.fin && Off(iss, c.pendingFin.value) == d.cuts[DataUnits(d)])
  }

  /** The receiver has passed the FIN exactly when it has reported end of file. */
  predicate Progress(c: Conn, d: Dir) {
    && 1 <= d.k < |d.cuts| && d.k <= DataUnits(d) + (if c.peerFin then 1 else 0)
    && (c.peerFin ==> d.fin && d.k == Units(d))
    && (c.state == SynRcvd || c.state == Established || c.state == FinWait1 || c.state == FinWait2 ==> !c.peerFin)
    && (c.state == CloseWait || c.state == LastAck || c.state == Closing || c.state == TimeWait ==> c.peerFin)
  }

  /** The receiving side did not move. */
  predicate SameReceiver(c: Conn, c': Conn) {
    && c'.recv == c.recv && c'.reasm == c.reasm && c'.recvBuf == c.recvBuf
    && c'.peerFin == c.peerFin && c'.pendingFin == c.pendingFin
  }

  /** How many bytes the receiver has passed on. */
  function Delivered(c: Conn, d: Dir): (n: int)
    requires |d.cuts| >= 2 && Progress(c, d)
  {
    d.cuts[d.k] - 1 - (if c.peerFin then 1 else 0)
  }

  // ---- time passes ----

  /** d' is a later state of the direction d. */
  ghost predicate Later(d: Dir, d': Dir) {
    && |d.cuts| >= 2 && d.cuts <= d'.cuts
    && (d.fin ==> d'.cuts == d.cuts && d'.fin)
    && (!d.fin && d'.fin ==> |d.cuts| < |d'.cuts|)
    && d.got <= d'.got && d.k <= d'.k && d.stops <= d'.stops
    && (forall m :: m in d.got && m !in d.stops ==> m !in d'.stops)
  }

  lemma LaterTransitive(a: Dir, b: Dir, c: Dir)
    requires Later(a, b) && Later(b, c)
    ensures Later(a, c)
  {
  }

  lemma CarriesLater(p: Seg, iss: u32, d: Dir, d': Dir, w: seq<byte>, w': seq<byte>, i: int)
    requires WellCut(d, w) && WellCut(d', w') && Later(d, d') && w <= w' && Carries(p, iss, d, w, i)
    ensures Carries(p, iss, d', w', i)
  {
    hide Off, Has, Cuts;
    if 0 < i < DataUnits(d) {
      SameContent(d, d', w, w', i);
    }
  }

  lemma SameContent(d: Dir, d': Dir, w: seq<byte>, w': seq<byte>, i: int)
    requires WellCut(d, w) && WellCut(d', w') && Later(d, d') && w <= w' && 0 < i < DataUnits(d)
    ensures 0 < i < DataUnits(d') && Content(d, w, i) == Content(d', w', i)
  {
    assert d.cuts[i + 1] <= d.cuts[DataUnits(d)];
    assert d'.cuts[i] == d.cuts[i] && d'.cuts[i + 1] == d.cuts[i + 1];
    SamePrefix(w, w', d.cuts[i] - 1, d.cuts[i + 1] - 1);
  }

  lemma HonestLater(p: Seg, iss: u32, d: Dir, d': Dir, w: seq<byte>, w': seq<byte>)
    requires WellCut(d, w) && WellCut(d', w') && Later(d, d') && w <= w' && Honest(p, iss, d, w)
    ensures Honest(p, iss, d', w')
  {
    if Control(p, iss, d) {
      assert d'.cuts[Units(d)] <= d'.cuts[Units(d')];
    } else {
      var i :| Carries(p, iss, d, w, i);
      CarriesLater(p, iss, d, d', w, w', i);
    }
  }

  lemma TruthfulLater(p: Seg, iss: u32, d: Dir, d': Dir)
    requires Later(d, d') && Truthful(p, iss, d)
    ensures Truthful(p, iss, d')
  {
    if Has(p.flags, ACK) {
      var a :| AckAt(p.ackno, iss, d, a);
      assert AckAt(p.ackno, iss, d', a);
    }
    forall b | b in p.opts.sack
      ensures exists i, j :: BlockAt(b, iss, d', i, j)
    {
      var i, j :| BlockAt(b, iss, d, i, j);
      assert BlockAt(b, iss, d', i, j);
    }
  }

  lemma EntryLater(e: Retransmit.Unacked, iss: u32, d: Dir, d': Dir, w: seq<byte>, w': seq<byte>, i: int)
    requires WellCut(d, w) && WellCut(d', w') && Later(d, d') && w <= w' && Entry(e, iss, d, w, i)
    ensures Entry(e, iss, d', w', i)
  {
    CarriesLater(e.packet, iss, d, d', w, w', i);
  }

  lemma TiledLater(segs: seq<Retransmit.Unacked>, iss: u32, d: Dir, d': Dir, w: seq<byte>, w': seq<byte>)
    requires WellCut(d, w) && WellCut(d', w') && Later(d, d') && w <= w' && Tiled(segs, iss, d, w)
    requires Units(d') == Units(d)
    ensures Tiled(segs, iss, d', w')
  {
    forall j | 0 <= j < |segs|
      ensures Entry(segs[j], iss, d', w', Units(d') - |segs| + j)
    {
      EntryLater(segs[j], iss, d, d', w, w', Units(d) - |segs| + j);
    }
  }

  /** The sender is untouched by what the receiver does. */
  lemma SendsLater(c: Conn, d: Dir, d': Dir, w: seq<byte>)
    requires Sends(c, d, w) && Later(d, d') && d'.cuts == d.cuts && d'.fin == d.fin
    ensures Sends(c, d', w)
  {
    TiledLater(c.retx.segs, c.send.iss, d, d', w, w);
  }

  /** The receiver is untouched by what the sender does. */
  lemma ReceivesLater(c: Conn, iss: u32, d: Dir, d': Dir, w: seq<byte>, w': seq<byte>, taken: seq<byte>)
    requires Receives(c, iss, d, w, taken) && WellCut(d', w') && Later(d, d') && w <= w'
    requires d'.got == d.got && d'.k == d.k && d'.stops == d.stops
    ensures Receives(c, iss, d', w', taken)
  {
    if c.state != SynSent {
      BufferedLater(c.reasm.frags, d.cuts, d'.cuts, w, w', d.got, d.k);
    }
  }

  lemma HoldsLater(frags: map<u32, seq<byte>>, cuts: seq<int>, cuts': seq<int>, w: seq<byte>, w': seq<byte>, i: int)
    requires Cuts(cuts) && Cuts(cuts') && cuts <= cuts' && w <= w' && Holds(frags, cuts, w, i)
    ensures Holds(frags, cuts', w', i)
  {
    assert cuts'[1] <= cuts'[i] < cuts'[i + 1];
    hide Cuts;
    assert cuts'[i] == cuts[i] && cuts'[i + 1] == cuts[i + 1];
    SamePrefix(w, w', cuts[i] - 1, cuts[i + 1] - 1);
  }

  lemma HasUnitLater(cuts: seq<int>, cuts': seq<int>, w: seq<byte>, w': seq<byte>, got: set<int>, k: int, o: int)
    requires Cuts(cuts) && Cuts(cuts') && cuts <= cuts' && |w| <= |w'| && HasUnit(cuts, w, got, k, o)
    ensures HasUnit(cuts', w', got, k, o)
  {
    hide Cuts;
    var i :| i in got && i >= k && IsUnitAt(cuts, w, i, o);
    assert i in got && i >= k && IsUnitAt(cuts', w', i, o);
  }

  lemma SamePrefix(w: seq<byte>, w': seq<byte>, a: int, b: int)
    requires w <= w' && 0 <= a <= b <= |w|
    ensures w[a..b] == w'[a..b]
  {
    assert w == w'[..|w|];
  }

  lemma BufferedLater(frags: map<u32, seq<byte>>, cuts: seq<int>, cuts': seq<int>, w: seq<byte>, w': seq<byte>,
                      got: set<int>, k: int)
    requires Cuts(cuts) && Cuts(cuts') && cuts <= cuts' && w <= w' && Buffered(frags, cuts, w, got, k)
    ensures Buffered(frags, cuts', w', got, k)
  {
    hide Cuts, Holds, HasUnit;
    forall i | i in got && i >= k
      ensures Holds(frags, cuts', w', i)
    {
      HoldsLater(frags, cuts, cuts', w, w', i);
    }
    forall o | o in frags
      ensures HasUnit(cuts', w', got, k, o)
    {
      assert HasUnit(cuts, w, got, k, o);
      HasUnitLater(cuts, cuts', w, w', got, k, o);
    }
  }
}
