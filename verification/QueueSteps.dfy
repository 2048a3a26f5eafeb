/** What a segment makes of the retransmission queue, entry by entry and in terms of the state before it: which
    entries go, which are marked, which one is resent, and what RACK remembers. */
module QueueSteps {
  import opened Types
  import opened SeqNum
  import opened Segments
  import opened Connection
  import opened Calls
  import opened Lifecycle
  import opened AckField
  import opened Backlog
  import opened NewReno
  import opened Timeouts
  import opened Signals
  import opened Karn
  import opened Transitions
  import Episodes
  import Retransmit
  import Reassembly
  import Congestion
  import Rtt

  /** The acknowledgement drops what it covers: new data acknowledged, the SYN, or our FIN. */
  predicate Drops(c: Conn, s: Seg) {
    && !Has(s.flags, RST)
    && match c.state
       case SynSent => Has(s.flags, SYN) && AcksAll(c, s)
       case SynRcvd => AcksAll(c, s)
       case Established => Advances(c, s)
       case CloseWait => Advances(c, s)
       case FinWait1 => !Has(s.flags, SYN) && AcksAll(c, s)
       case Closing => !Has(s.flags, SYN) && AcksAll(c, s)
       case LastAck => !Has(s.flags, SYN) && AcksAll(c, s)
       case _ => false
  }

  /** The SACK blocks are read. */
  predicate Marks(c: Conn, s: Seg) {
    if c.state == SynRcvd then !Has(s.flags, RST) && AcksAll(c, s) && !Paws(c, s)
    else Reads(c, s) && AckAcceptable(Refresh(c, s), s.ackno)
  }

  /** A hole is resent at once: a partial ACK in recovery, or the third duplicate. */
  predicate Resends(c: Conn, s: Seg) {
    (Advances(c, s) && Congestion.InRecovery(c.cong) && Before(s.ackno, c.recover)) || RepeatsThird(c, s)
  }

  /** The entry with the segment's marks. */
  function Noted(c: Conn, s: Seg, x: Retransmit.Unacked): Retransmit.Unacked {
    if Marks(c, s) then x.(sacked := !Hole(c, s, x)) else x
  }

  /** Entry i of the old queue stays. */
  predicate Stays(c: Conn, s: Seg, x: Retransmit.Unacked) {
    !Drops(c, s) || Before(s.ackno, x.end)
  }

  /** m lists exactly the entries that p lets stay, in order. */
  ghost predicate Chosen(segs: seq<Retransmit.Unacked>, p: Retransmit.Unacked -> bool, m: seq<nat>) {
    && (forall j :: 0 <= j < |m| ==> m[j] < |segs|) && (forall i, j :: 0 <= i < j < |m| ==> m[i] < m[j])
    && forall i :: 0 <= i < |segs| ==> (p(segs[i]) <==> i in m)
  }

  /** The queue r is what stays of q, each entry noted, and if `resend` the first one not SACKed sent again. */
  ghost predicate Left(q: seq<Retransmit.Unacked>, note: Retransmit.Unacked -> Retransmit.Unacked, m: seq<nat>,
                       resend: bool, now: nat, r: seq<Retransmit.Unacked>)
    requires forall j :: 0 <= j < |m| ==> m[j] < |q|
  {
    && |r| == |m|
    && forall j :: 0 <= j < |r| ==>
         r[j] == Resent(note(q[m[j]]), now,
                        if resend && !note(q[m[j]]).sacked && (forall k :: 0 <= k < j ==> note(q[m[k]]).sacked) then 1 else 0)
  }

  lemma Fast(q: Retransmit.Retx, now: nat)
    ensures var r := Retransmit.FastRetransmit(q, now).0;
            && |r.segs| == |q.segs| && r == q.(segs := r.segs)
            && forall j :: 0 <= j < |q.segs| ==>
                 r.segs[j] == Resent(q.segs[j], now,
                                     if !q.segs[j].sacked && (forall k :: 0 <= k < j ==> q.segs[k].sacked) then 1 else 0)
  {
  }

  /** The acknowledgement field's queue. */
  function FieldQueue(c: Conn, s: Seg, now: nat): Retransmit.Retx {
    var m := Marked(c, s).retx;
    var k := if Advances(c, s) then Retransmit.Ack(m, s.ackno, now).0 else m;
    if !Marks(c, s) then c.retx else if Resends(c, s) then Retransmit.FastRetransmit(k, now).0 else k
  }

  lemma NewAckQueue(c: Conn, s: Seg, env: Env, now: nat)
    ensures var k := Retransmit.Ack(c.retx, s.ackno, now).0;
            OnNewAck(c, s, env, now).0.retx ==
            if Congestion.InRecovery(c.cong) && Before(s.ackno, c.recover) then Retransmit.FastRetransmit(k, now).0 else k
  {
    hide Before, AckSample, Rtt.Sample, Retransmit.Ack, Retransmit.FastRetransmit, Congestion.OnPartialAck,
      Congestion.OnAck;
  }

  lemma DuplicateQueue(c: Conn, now: nat)
    ensures OnDuplicateAck(c, now).0.retx ==
            if ThirdDuplicate(c.cong) then Retransmit.FastRetransmit(c.retx, now).0 else c.retx
  {
    hide Retransmit.FastRetransmit, Congestion.BetaCut;
  }

  lemma RefreshedMarks(c: Conn, s: Seg)
    ensures Marked(Refresh(c, s), s).retx == Marked(c, s).retx && Refresh(c, s).retx == c.retx
  {
    hide Scaled, After, Retransmit.MarkSacked;
  }

  lemma ReadQueue(c: Conn, s: Seg, env: Env, now: nat)
    requires Reads(c, s)
    ensures OnAckField(Refresh(c, s), s, c.send.wnd, env, now).0.retx == FieldQueue(c, s, now)
  {
    var c2 := Refresh(c, s);
    var m := Marked(c2, s);
    RefreshKeeps(c, s);
    MarkedKeeps(c2, s);
    RefreshedMarks(c, s);
    AckFieldUnfold(c2, s, c.send.wnd, env, now);
    NewAckQueue(m, s, env, now);
    DuplicateQueue(m, now);
    ChallengeQueue(c2, env, now);
    if Repeats(c, s) {
      DuplicateIsOld(c, s);
    }
    hide Reads, Refresh, Marked, AckAcceptable, Between, Before, OnAckField, OnNewAck, OnDuplicateAck, MaybeChallenge,
      Congestion.InRecovery, ThirdDuplicate, Retransmit.Ack, Retransmit.FastRetransmit;
  }

  lemma ChallengeQueue(c: Conn, env: Env, now: nat)
    ensures MaybeChallenge(c, env, now).0.retx == c.retx
  {
    hide BareAck;
  }

  /** Which entries stay. */
  lemma KeptIndices(q: seq<Retransmit.Unacked>, marked: seq<Retransmit.Unacked>, una: u32, drops: bool) returns (m: seq<nat>)
    requires |marked| == |q| && forall i :: 0 <= i < |q| ==> marked[i].end == q[i].end
    ensures Chosen(q, (x: Retransmit.Unacked) => !drops || Before(una, x.end), m)
    ensures var kept := if drops then Retransmit.Keep(marked, una) else marked;
            |kept| == |m| && forall j :: 0 <= j < |m| ==> kept[j] == marked[m[j]]
  {
    hide Before, Retransmit.Keep;
    if drops {
      m := KeepExactly(marked, una);
      assert forall i :: 0 <= i < |q| ==> (IsOpen(una)(marked[i]) <==> i in m);
    } else {
      m := seq(|q|, (i: nat) => i);
      forall i | 0 <= i < |q|
        ensures i in m
      {
        assert m[i] == i;
      }
    }
  }

  /** One of them resent. */
  lemma LeftAfter(q: seq<Retransmit.Unacked>, note: Retransmit.Unacked -> Retransmit.Unacked, m: seq<nat>,
                  resend: bool, now: nat, kept: Retransmit.Retx)
    requires forall j :: 0 <= j < |m| ==> m[j] < |q|
    requires |kept.segs| == |m| && forall j :: 0 <= j < |m| ==> kept.segs[j] == note(q[m[j]])
    ensures Left(q, note, m, resend, now, (if resend then Retransmit.FastRetransmit(kept, now).0 else kept).segs)
  {
    Fast(kept, now);
    hide Retransmit.FastRetransmit;
  }

  lemma ChosenSame(q: seq<Retransmit.Unacked>, p: Retransmit.Unacked -> bool, p': Retransmit.Unacked -> bool, m: seq<nat>)
    requires Chosen(q, p, m) && forall x :: p(x) == p'(x)
    ensures Chosen(q, p', m)
  {
  }

  lemma NotedEntries(c: Conn, s: Seg, marked: seq<Retransmit.Unacked>)
    requires marked == (if Marks(c, s) then Marked(c, s).retx.segs else c.retx.segs)
    ensures |marked| == |c.retx.segs|
    ensures forall i :: 0 <= i < |marked| ==> marked[i] == Noted(c, s, c.retx.segs[i]) && marked[i].end == c.retx.segs[i].end
  {
    Episodes.MarkedEntries(c, s, Marked(c, s).retx.segs);
    hide Marked, Marks, Hole;
  }

  /** Entry by entry. */
  lemma FieldEntries(c: Conn, s: Seg, now: nat) returns (m: seq<nat>)
    requires c.state == Established || c.state == CloseWait
    ensures Chosen(c.retx.segs, x => Stays(c, s, x), m)
    ensures Left(c.retx.segs, x => Noted(c, s, x), m, Resends(c, s), now, FieldQueue(c, s, now).segs)
  {
    hide Marked, Before, Marks, Advances, Noted, Resends, Drops, Chosen, Left, Retransmit.Keep, Retransmit.Scan,
      Retransmit.FastRetransmit;
    var q := if Marks(c, s) then Marked(c, s).retx else c.retx;
    NotedEntries(c, s, q.segs);
    StaysWhen(c, s);
    m := KeptIndices(c.retx.segs, q.segs, s.ackno, Advances(c, s));
    ChosenSame(c.retx.segs, (x: Retransmit.Unacked) => !Advances(c, s) || Before(s.ackno, x.end), x => Stays(c, s, x), m);
    InRange(c.retx.segs, x => Stays(c, s, x), m);
    LeftAfter(c.retx.segs, x => Noted(c, s, x), m, Resends(c, s), now,
              if Advances(c, s) then Retransmit.Ack(q, s.ackno, now).0 else q);
  }

  lemma InRange(q: seq<Retransmit.Unacked>, p: Retransmit.Unacked -> bool, m: seq<nat>)
    requires Chosen(q, p, m)
    ensures forall j :: 0 <= j < |m| ==> m[j] < |q|
  {
  }

  lemma StaysWhen(c: Conn, s: Seg)
    requires c.state == Established || c.state == CloseWait
    ensures Drops(c, s) == Advances(c, s) && (Advances(c, s) ==> Marks(c, s)) && (Resends(c, s) ==> Marks(c, s))
  {
    hide AckAcceptable, Between, Before, Refresh, Paws, Duplicates, ThirdDuplicate, Has, AcksAll;
  }

  // ---- every state ----

  /** The queue after a segment, by the index in the old queue of each entry that is left. */
  ghost predicate QueueAfter(c: Conn, s: Seg, now: nat, r: seq<Retransmit.Unacked>, m: seq<nat>) {
    && Chosen(c.retx.segs, x => Stays(c, s, x), m)
    && Left(c.retx.segs, x => Noted(c, s, x), m, Resends(c, s), now, r)
  }

  lemma SameAfter(c: Conn, d: Conn, s: Seg, now: nat, r: seq<Retransmit.Unacked>, m: seq<nat>)
    requires d.retx == c.retx && Drops(d, s) == Drops(c, s) && Marks(d, s) == Marks(c, s) && Resends(d, s) == Resends(c, s)
    requires d.opt.sackOk == c.opt.sackOk && QueueAfter(d, s, now, r, m)
    ensures QueueAfter(c, s, now, r, m)
  {
    hide Drops, Marks, Resends, Before, Retransmit.Covered;
    assert forall x :: Stays(d, s, x) == Stays(c, s, x) && Noted(d, s, x) == Noted(c, s, x);
    hide Stays, Noted, Resent;
  }

  lemma ArrivedQueue(c: Conn, s: Seg, now: nat)
    requires c.state != SynRcvd
    ensures var c1 := Arrive(c, now);
            && c1.retx == c.retx && c1.opt.sackOk == c.opt.sackOk && c1.state == c.state
            && Drops(c1, s) == Drops(c, s) && Marks(c1, s) == Marks(c, s) && Resends(c1, s) == Resends(c, s)
  {
    var c1 := Arrive(c, now);
    assert Refresh(c1, s).send == Refresh(c, s).send by { hide After, Scaled; }
    assert c1.retx == c.retx && c1.opt.sackOk == c.opt.sackOk && c1.state == c.state && c1.send == c.send && c1.cong == c.cong
           && c1.recover == c.recover;
    hide Arrive, Refresh, Reads, Advances, Repeats, ThirdDuplicate, Before, After, Has, Congestion.InRecovery;
    SameTests(c, s, now);
  }

  /** The open states. */
  lemma OpenQueue(c: Conn, s: Seg, env: Env, now: nat) returns (m: seq<nat>)
    requires (c.state == Established || c.state == CloseWait) && !Has(s.flags, RST) && !Has(s.flags, SYN)
    ensures QueueAfter(c, s, now, OnSegment(c, s, env, now).0.retx.segs, m)
  {
    var c1 := Arrive(c, now);
    ArrivedQueue(c, s, now);
    hide Arrive, QueueAfter, Drops, Marks, Resends, FieldQueue, Reads, Dispatch, OnSynced, OnAckField, Refresh;
    m := OpenEntries(c1, s, now);
    if Reads(c1, s) {
      ReadQueue(c1, s, env, now);
      OpenAck(c1, s, env, now);
    } else {
      UnreadQueue(c1, s, env, now);
    }
    SameAfter(c, c1, s, now, FieldQueue(c1, s, now).segs, m);
  }

  lemma OpenEntries(c: Conn, s: Seg, now: nat) returns (m: seq<nat>)
    requires c.state == Established || c.state == CloseWait
    ensures QueueAfter(c, s, now, FieldQueue(c, s, now).segs, m)
  {
    hide Stays, Noted, FieldQueue, Resends, Left;
    m := FieldEntries(c, s, now);
  }

  lemma UnreadQueue(c: Conn, s: Seg, env: Env, now: nat)
    requires (c.state == Established || c.state == CloseWait) && !Has(s.flags, RST) && !Has(s.flags, SYN) && !Reads(c, s)
    ensures Dispatch(c, s, env, now).0.retx == FieldQueue(c, s, now)
  {
    assert Refresh(c, s).retx == c.retx by { hide Scaled, After; }
    hide Has, Paws, OnAckField, Refresh, OnText, MaybeChallenge, OnRst, OnSynSent, Establish, BareAck, Marked,
      Retransmit.Ack,
      Retransmit.FastRetransmit, AckAcceptable;
    TextKeeps(Refresh(c, s), s);
  }

  /** Where the acknowledgement is at most of the SYN or of our FIN. */
  lemma DropOnly(c: Conn, s: Seg, now: nat, r: Retransmit.Retx) returns (m: seq<nat>)
    requires !Marks(c, s) && !Resends(c, s)
    requires r.segs == if Drops(c, s) then Retransmit.Ack(c.retx, s.ackno, now).0.segs else c.retx.segs
    ensures QueueAfter(c, s, now, r.segs, m)
  {
    hide Before, Marks, Resends, Drops, Chosen, Retransmit.Keep, Retransmit.Scan;
    m := KeptIndices(c.retx.segs, c.retx.segs, s.ackno, Drops(c, s));
    ChosenSame(c.retx.segs, (x: Retransmit.Unacked) => !Drops(c, s) || Before(s.ackno, x.end), x => Stays(c, s, x), m);
    InRange(c.retx.segs, x => Stays(c, s, x), m);
  }

  lemma NothingRead(c: Conn, s: Seg)
    requires Has(s.flags, RST) || (c.state != Established && c.state != CloseWait) || Has(s.flags, SYN)
    ensures !Advances(c, s) && !Repeats(c, s) && !Resends(c, s)
    ensures c.state != SynRcvd || Has(s.flags, RST) || !AcksAll(c, s) ==> !Marks(c, s)
  {
    hide Has, Paws, AckAcceptable, Refresh, Between, Before, Duplicates, AcksAll;
  }

  lemma RestQueue(c: Conn, s: Seg, env: Env, now: nat)
    requires Has(s.flags, RST) || (c.state != Established && c.state != CloseWait)
             || Has(s.flags, SYN)
    requires c.state == SynRcvd ==> Has(s.flags, RST) || !AcksAll(c, s)
    ensures OnSegment(c, s, env, now).0.retx == if Drops(c, s) then Retransmit.Ack(c.retx, s.ackno, now).0 else c.retx
  {
    NothingRead(c, s);
    if (c.state == FinWait1 || c.state == FinWait2) && !Has(s.flags, RST) && !Has(s.flags, SYN) {
      FinWaitQueue(c, s, env, now);
      hide OnSegment, Has, Retransmit.Ack, Advances;
    } else {
      hide Has, Retransmit.Ack, InWindow, BareAck, OnOpen, OnFinWait1, OnFinWait2, Establish, Advances, Add;
    }
  }

  lemma FinWaitQueue(c: Conn, s: Seg, env: Env, now: nat)
    requires (c.state == FinWait1 || c.state == FinWait2) && !Has(s.flags, RST) && !Has(s.flags, SYN)
    ensures OnSegment(c, s, env, now).0.retx ==
            if c.state == FinWait1 && AcksAll(c, s) then Retransmit.Ack(c.retx, s.ackno, now).0 else c.retx
  {
    hide OnSegment, Deliver, WithData, Has, Low32, Add, BareAck;
    FinWaitCases(c, s, env, now);
  }

  lemma IdleField(e: Conn, s: Seg, env: Env, now: nat)
    requires e.state == Established && Has(s.flags, ACK) && e.send.una == s.ackno == e.send.nxt
    ensures OnOpen(e, s, env, now).0.retx == if Paws(e, s) then e.retx else Marked(e, s).retx
  {
    var e2 := Refresh(e, s);
    assert e2.send.una == s.ackno == e2.send.nxt by { hide Scaled, After; }
    assert AckAcceptable(e2, s.ackno);
    NotItself(s.ackno, s.ackno);
    RefreshedMarks(e, s);
    AckFieldUnfold(e2, s, e.send.wnd, env, now);
    hide Refresh, Marked, OnAckField, OnText, Paws, Has, BareAck, AckAcceptable, Between, OnNewAck, OnDuplicateAck,
      MaybeChallenge;
    TextKeeps(OnAckField(e2, s, e.send.wnd, env, now).0, s);
  }

  /** The last segment of a passive handshake drops the SYN-ACK; its SACK blocks are read after that. */
  lemma HandshakeQueue(c: Conn, s: Seg, env: Env, now: nat) returns (m: seq<nat>)
    requires c.state == SynRcvd && !Has(s.flags, RST) && AcksAll(c, s)
    ensures QueueAfter(c, s, now, OnSegment(c, s, env, now).0.retx.segs, m)
  {
    var c1 := Arrive(c, now);
    var e := Establish(c1, s, now);
    assert e.state == Established && e.send.una == s.ackno == e.send.nxt && e.opt.sackOk == c.opt.sackOk
           && e.retx == Retransmit.Ack(c.retx, s.ackno, now).0 by { hide Retransmit.Ack; }
    assert Paws(e, s) == Paws(c, s) by { hide Before; }
    assert c1.state == c.state && c1.send == c.send;
    hide OnOpen, Has, MaybeChallenge, OnRst, OnSynSent, Establish, Arrive, Paws, Marked, QueueAfter, Retransmit.Ack;
    IdleField(e, s, env, now);
    m := HandshakeEntries(c, s, now, e, OnOpen(e, s, env, now).0.retx.segs);
  }

  lemma HandshakeEntries(c: Conn, s: Seg, now: nat, e: Conn, r: seq<Retransmit.Unacked>) returns (m: seq<nat>)
    requires c.state == SynRcvd && !Has(s.flags, RST) && AcksAll(c, s)
    requires e.retx == Retransmit.Ack(c.retx, s.ackno, now).0 && e.opt.sackOk == c.opt.sackOk
    requires r == if Paws(c, s) then e.retx.segs else Marked(e, s).retx.segs
    ensures QueueAfter(c, s, now, r, m)
  {
    hide Before, Chosen, Retransmit.Keep, Retransmit.Scan, Marked, Has, Paws, AcksAll;
    assert Drops(c, s) && (Marks(c, s) <==> !Paws(c, s));
    NothingRead(c, s);
    hide Marks, Resends, Drops;
    m := KeptIndices(c.retx.segs, c.retx.segs, s.ackno, true);
    ChosenSame(c.retx.segs, (x: Retransmit.Unacked) => !true || Before(s.ackno, x.end), x => Stays(c, s, x), m);
    InRange(c.retx.segs, x => Stays(c, s, x), m);
    Episodes.MarkedEntries(e, s, Marked(e, s).retx.segs);
    assert forall x :: Hole(e, s, x) == Hole(c, s, x);
    hide Hole;
  }

  /** Any segment, in any state. The entries that stay are those the acknowledgement does not cover, in order; each is
      as it was but for the SACK marks; and with a partial ACK in recovery or the third duplicate the first one not
      SACKed is re-stamped and counted as resent. */
  lemma QueueExactly(c: Conn, s: Seg, env: Env, now: nat) returns (m: seq<nat>)
    ensures QueueAfter(c, s, now, OnSegment(c, s, env, now).0.retx.segs, m)
  {
    hide OnSegment, QueueAfter, Has, AcksAll, Marks, Resends, Drops;
    if c.state == SynRcvd && !Has(s.flags, RST) && AcksAll(c, s) {
      m := HandshakeQueue(c, s, env, now);
    } else if (c.state == Established || c.state == CloseWait) && !Has(s.flags, RST) && !Has(s.flags, SYN) {
      m := OpenQueue(c, s, env, now);
    } else {
      NothingRead(c, s);
      RestQueue(c, s, env, now);
      AckSegs(c.retx, s.ackno, now);
      m := DropOnly(c, s, now, OnSegment(c, s, env, now).0.retx);
    }
  }

  lemma AckSegs(q: Retransmit.Retx, una: u32, now: nat)
    ensures Retransmit.Ack(q, una, now).0.segs == Retransmit.Keep(q.segs, una)
  {
  }

  /** RACK's record after it: it hears of the newly marked segments first, then of the acknowledged ones. */
  lemma RackExactly(c: Conn, s: Seg, env: Env, now: nat) returns (ts: nat, end: u32)
    requires c.state != SynRcvd
    ensures var r := OnSegment(c, s, env, now).0.retx;
            var marking := Marks(c, s) && c.opt.sackOk;
            && (if marking then Latest(c.retx, IsNews(s.opts.sack), |c.retx.segs|, ts, end)
                else ts == c.retx.rackTs && end == c.retx.rackEnd)
            && (if Drops(c, s)
                then Latest(c.retx.(rackTs := ts, rackEnd := end), IsDone(s.ackno), |c.retx.segs|, r.rackTs, r.rackEnd)
                else r.rackTs == ts && r.rackEnd == end)
  {
    hide OnSegment, Has, AcksAll, Marks, Resends, Drops, Latest, Marked, FieldQueue, IsNews, IsDone, Retransmit.Ack;
    if (c.state == Established || c.state == CloseWait) && !Has(s.flags, RST) && !Has(s.flags, SYN) {
      OpenRack(c, s, env, now);
      ts, end := FieldRack(c, s, now);
    } else {
      NothingRead(c, s);
      RestQueue(c, s, env, now);
      ts, end := c.retx.rackTs, c.retx.rackEnd;
      RackHearsAck(c.retx, s.ackno, now);
    }
  }

  lemma OpenRack(c: Conn, s: Seg, env: Env, now: nat)
    requires (c.state == Established || c.state == CloseWait) && !Has(s.flags, RST) && !Has(s.flags, SYN)
    ensures OnSegment(c, s, env, now).0.retx == FieldQueue(c, s, now)
  {
    var c1 := Arrive(c, now);
    ArrivedQueue(c, s, now);
    assert Marked(c1, s).retx == Marked(c, s).retx by { hide Retransmit.MarkSacked; }
    SameTests(c, s, now);
    assert FieldQueue(c1, s, now) == FieldQueue(c, s, now) by {
      hide Arrive, Marked, Marks, Resends, Advances, Retransmit.Ack, Retransmit.FastRetransmit;
    }
    hide Arrive, FieldQueue, Reads, Dispatch, OnSynced, OnAckField, Refresh;
    if Reads(c1, s) {
      ReadQueue(c1, s, env, now);
      OpenAck(c1, s, env, now);
    } else {
      UnreadQueue(c1, s, env, now);
    }
  }

  lemma NoNews(q: Retransmit.Retx)
    ensures Latest(q, IsNews([]), |q.segs|, q.rackTs, q.rackEnd)
  {
  }

  lemma MarkedRack(c: Conn, s: Seg)
    ensures var m := Marked(c, s).retx;
            if c.opt.sackOk then Latest(c.retx, IsNews(s.opts.sack), |c.retx.segs|, m.rackTs, m.rackEnd)
            else m.rackTs == c.retx.rackTs && m.rackEnd == c.retx.rackEnd
  {
    RackHearsSack(c.retx, s.opts.sack);
    NoNews(c.retx);
    hide Latest, IsNews, Retransmit.MarkSacked, Retransmit.Covers;
  }

  /** SACK marks are nothing to what an acknowledgement covers. */
  lemma SameLatest(q: Retransmit.Retx, q': Retransmit.Retx, una: u32, r: Retransmit.Retx)
    requires q.rackTs == q'.rackTs && q.rackEnd == q'.rackEnd && |q.segs| == |q'.segs|
    requires forall i :: 0 <= i < |q'.segs| ==> SameTimes(q'.segs[i], q.segs[i])
    requires Latest(q, IsDone(una), |q.segs|, r.rackTs, r.rackEnd)
    ensures Latest(q', IsDone(una), |q'.segs|, r.rackTs, r.rackEnd)
  {
    var n := |q.segs|;
    assert forall i :: 0 <= i < n ==> IsDone(una)(q'.segs[i]) == IsDone(una)(q.segs[i])
                                      && q'.segs[i].sentAt == q.segs[i].sentAt && q'.segs[i].end == q.segs[i].end;
    hide SameTimes, IsDone;
    if i0 :| 0 <= i0 < n && IsDone(una)(q.segs[i0]) && q.segs[i0].sentAt >= q.rackTs {
      var i :| LastSent(q, IsDone(una), n, r.rackTs, i) && r.rackEnd == q.segs[i].end;
      assert LastSent(q', IsDone(una), n, r.rackTs, i);
    }
  }

  /** The record of the acknowledgement field. */
  lemma FieldRack(c: Conn, s: Seg, now: nat) returns (ts: nat, end: u32)
    requires c.state == Established || c.state == CloseWait
    ensures var r := FieldQueue(c, s, now);
            var marking := Marks(c, s) && c.opt.sackOk;
            && (if marking then Latest(c.retx, IsNews(s.opts.sack), |c.retx.segs|, ts, end)
                else ts == c.retx.rackTs && end == c.retx.rackEnd)
            && (if Drops(c, s)
                then Latest(c.retx.(rackTs := ts, rackEnd := end), IsDone(s.ackno), |c.retx.segs|, r.rackTs, r.rackEnd)
                else r.rackTs == ts && r.rackEnd == end)
  {
    var m := Marked(c, s).retx;
    hide Marks, Resends, Drops, Latest, Marked, IsNews, IsDone, Retransmit.Ack, Retransmit.FastRetransmit, Advances;
    StaysWhen(c, s);
    if Marks(c, s) {
      ts, end := m.rackTs, m.rackEnd;
      MarkedRack(c, s);
      RackHearsAck(m, s.ackno, now);
      MarkedTimes(c, s);
      SameLatest(m, c.retx.(rackTs := ts, rackEnd := end), s.ackno, Retransmit.Ack(m, s.ackno, now).0);
      Fast(if Advances(c, s) then Retransmit.Ack(m, s.ackno, now).0 else m, now);
    } else {
      ts, end := c.retx.rackTs, c.retx.rackEnd;
    }
  }
}
