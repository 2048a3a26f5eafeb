/** The multi-connection server (`TcpServer` in src/socket.rs): one table of connections behind one
    transport, which for every 4-tuple behaves as a lone connection would. */
module Server {
  import opened Types
  import opened Segments
  import opened Connection
  import opened Packets
  import opened Calls
  import opened Lifecycle
  import opened SeqNum
  import Retransmit

  /** One parsed datagram, with what the environment supplies while it is handled. */
  datatype Arrival = Arrival(quad: Quad, seg: Seg, iss: u32, env: Env)

  // ---- one 4-tuple on its own ----

  /** All the server knows about one 4-tuple, and what it has sent for it. */
  datatype Slot = Slot(conn: Option<Conn>, announced: bool, sent: seq<Seg>)

  function SoloTick(s: Slot, now: nat): (r: Slot)
    ensures s.conn.None? ==> r == s
  {
    if s.conn.None? then s
    else s.(conn := Some(OnTick(s.conn.value, now).0), sent := s.sent + OnTick(s.conn.value, now).1)
  }

  predicate OpensHere(seg: Seg) {
    Has(seg.flags, SYN) && !Has(seg.flags, ACK)
  }

  /** A segment for this 4-tuple. */
  function SoloSegment(s: Slot, a: Arrival, now: nat): Slot {
    if s.conn.Some? then
      var r := OnSegment(s.conn.value, a.seg, a.env, now);
      s.(conn := Some(r.0), sent := s.sent + Outs(r.1))
    else if OpensHere(a.seg) then
      var r := Accept(a.seg, a.iss, a.env.budget, now);
      if r.Some? then s.(conn := Some(r.value.0), sent := s.sent + [r.value.1]) else s
    else s
  }

  /** The segments addressed to this 4-tuple, in order of arrival; the others do not exist for it. */
  function SoloIngest(s: Slot, q: Quad, arrivals: seq<Arrival>, now: nat): Slot {
    if arrivals == [] then s else
      var last := arrivals[|arrivals| - 1];
      var before := SoloIngest(s, q, arrivals[..|arrivals| - 1], now);
      if last.quad == q then SoloSegment(before, last, now) else before
  }

  function SoloFlush(s: Slot, now: nat): (r: Slot)
    ensures s.conn.None? ==> r == s
  {
    if s.conn.None? then s else
      var r := PollTransmit(s.conn.value, now);
      Slot(Some(r.0), s.announced || r.0.state == Established, s.sent + r.1)
  }

  function SoloReap(s: Slot): Slot {
    if s.conn.Some? && s.conn.value.state == Closed then s.(conn := None, announced := false) else s
  }

  /** The slot when the poll is about to reap: ticked, fed and flushed. */
  function SoloPumped(s: Slot, q: Quad, arrivals: seq<Arrival>, now: nat): Slot {
    SoloFlush(SoloIngest(SoloTick(s, now), q, arrivals, now), now)
  }

  /** One poll, as a lone connection with this 4-tuple sees it. */
  function SoloPoll(s: Slot, q: Quad, arrivals: seq<Arrival>, now: nat): Slot {
    SoloReap(SoloPumped(s, q, arrivals, now))
  }

  /** An application's call on this 4-tuple. */
  function SoloCall(s: Slot, e: Event): Slot {
    if s.conn.None? then s
    else s.(conn := Some(Apply(s.conn.value, e).0), sent := s.sent + Apply(s.conn.value, e).1)
  }

  /** This poll hands the 4-tuple to the application. */
  predicate Announces(s: Slot, q: Quad, arrivals: seq<Arrival>, now: nat) {
    !s.announced && SoloPumped(s, q, arrivals, now).announced
  }

  // ---- whole runs of one 4-tuple ----

  const EMPTY_SLOT := Slot(None, false, [])

  datatype Op = PollOp(arrivals: seq<Arrival>, now: nat) | CallOp(e: Event)

  function SoloStep(s: Slot, q: Quad, op: Op): Slot {
    match op
    case PollOp(arrivals, now) => SoloPoll(s, q, arrivals, now)
    case CallOp(e) => SoloCall(s, e)
  }

  function SoloFrom(s: Slot, q: Quad, ops: seq<Op>): Slot {
    if ops == [] then s else SoloStep(SoloFrom(s, q, ops[..|ops| - 1]), q, ops[|ops| - 1])
  }

  function SoloRun(q: Quad, ops: seq<Op>): Slot {
    SoloFrom(EMPTY_SLOT, q, ops)
  }

  /** How many times the 4-tuple has been put on the backlog. */
  function Announcements(q: Quad, ops: seq<Op>): nat {
    if ops == [] then 0 else
      var s := SoloRun(q, ops[..|ops| - 1]);
      var op := ops[|ops| - 1];
      Announcements(q, ops[..|ops| - 1]) + if op.PollOp? && Announces(s, q, op.arrivals, op.now) then 1 else 0
  }

  /** What has been asked of the server as a whole. */
  datatype Call = PollAll(arrivals: seq<Arrival>, now: nat) | CallOn(quad: Quad, e: Event)

  /** The part of a history that concerns one 4-tuple. */
  function Project(q: Quad, hist: seq<Call>): seq<Op> {
    if hist == [] then [] else
      var rest := Project(q, hist[..|hist| - 1]);
      match hist[|hist| - 1]
      case PollAll(arrivals, now) => rest + [PollOp(arrivals, now)]
      case CallOn(p, e) => if p == q then rest + [CallOp(e)] else rest
  }

  /** The backlog is what has not been accepted yet of all that was announced. */
  predicate Logged(backlog: seq<Quad>, log: seq<Quad>) {
    |backlog| <= |log| && log[|log| - |backlog|..] == backlog
  }

  lemma OneMore(q: Quad, ops: seq<Op>, op: Op)
    ensures SoloRun(q, ops + [op]) == SoloStep(SoloRun(q, ops), q, op)
    ensures Announcements(q, ops + [op]) ==
            Announcements(q, ops) + if op.PollOp? && Announces(SoloRun(q, ops), q, op.arrivals, op.now) then 1 else 0
  {
    hide SoloStep, Announces;
    assert (ops + [op])[..|ops|] == ops;
  }

  lemma EmptyStays(now: nat)
    ensures SoloReap(SoloFlush(SoloTick(EMPTY_SLOT, now), now)) == EMPTY_SLOT
  {
  }

  lemma EmptyUncalled(e: Event)
    ensures SoloCall(EMPTY_SLOT, e) == EMPTY_SLOT
  {
  }

  /** How often q occurs. */
  function Count(log: seq<Quad>, q: Quad): nat {
    if log == [] then 0 else Count(log[..|log| - 1], q) + if log[|log| - 1] == q then 1 else 0
  }

  /** The slot and the count are those of the lone run of q's part of the history. */
  predicate Lone(q: Quad, s: Slot, count: nat, hist: seq<Call>) {
    s == SoloRun(q, Project(q, hist)) && count == Announcements(q, Project(q, hist))
  }

  lemma PolledLone(q: Quad, s: Slot, count: nat, hist: seq<Call>, arrivals: seq<Arrival>, now: nat)
    requires Lone(q, s, count, hist)
    ensures Lone(q, SoloPoll(s, q, arrivals, now), count + (if Announces(s, q, arrivals, now) then 1 else 0),
                 hist + [PollAll(arrivals, now)])
  {
    assert (hist + [PollAll(arrivals, now)])[..|hist|] == hist;
    hide SoloPoll, Announces, SoloRun, Announcements;
    OneMore(q, Project(q, hist), PollOp(arrivals, now));
  }

  lemma CalledLone(q: Quad, s: Slot, count: nat, hist: seq<Call>, p: Quad, e: Event)
    requires Lone(q, s, count, hist)
    ensures Lone(q, if p == q then SoloCall(s, e) else s, count, hist + [CallOn(p, e)])
  {
    assert (hist + [CallOn(p, e)])[..|hist|] == hist;
    hide SoloCall, Announces, SoloRun, Announcements;
    OneMore(q, Project(q, hist), CallOp(e));
  }

  predicate NoRepeats(news: seq<Quad>) {
    forall i, j :: 0 <= i < j < |news| ==> news[i] != news[j]
  }

  lemma NoNews()
    ensures NoRepeats([])
  {
  }

  lemma OneNew(news: seq<Quad>, q: Quad)
    requires NoRepeats(news) && q !in news
    ensures NoRepeats(news + [q])
  {
  }

  lemma {:induction false} CountMore(log: seq<Quad>, news: seq<Quad>, q: Quad)
    requires NoRepeats(news)
    ensures Count(log + news, q) == Count(log, q) + if q in news then 1 else 0
  {
    if news == [] {
      assert log + news == log;
    } else {
      var n := |news| - 1;
      CountMore(log, news[..n], q);
      assert (log + news)[..|log| + n] == log + news[..n];
    }
  }

  // ---- the server ----

  class TcpServer {
    const local: Endpoint
    var conns: map<Quad, Conn>
    var backlog: seq<Quad>
    var announced: set<Quad>
    var sent: map<Quad, seq<Seg>>
    ghost var hist: seq<Call>
    ghost var log: seq<Quad>

    function SlotOf(q: Quad): Slot
      reads this
    {
      Slot(if q in conns then Some(conns[q]) else None, q in announced, if q in sent then sent[q] else [])
    }

    /** Every 4-tuple is where a lone connection given the same calls and only its own segments would be,
        whatever was interleaved; and the backlog is the end of a log that holds each 4-tuple exactly as
        often as its lone run was announced. */
    ghost predicate Valid()
      reads this
    {
      && Logged(backlog, log)
      && forall q: Quad :: if q.local == local then Lone(q, SlotOf(q), Count(log, q), hist) else SlotOf(q) == EMPTY_SLOT
    }

    constructor (local: Endpoint)
      ensures this.local == local && backlog == [] && hist == [] && log == []
      ensures forall q :: SlotOf(q) == EMPTY_SLOT
      ensures Valid()
    {
      this.local, conns, backlog, announced, sent := local, map[], [], {}, map[];
      hist, log := [], [];
    }

    /** Put packets on the wire for one 4-tuple. */
    method Send(q: Quad, packets: seq<Seg>)
      modifies this`sent
      ensures SlotOf(q) == old(SlotOf(q)).(sent := old(SlotOf(q)).sent + packets)
      ensures forall p :: p != q ==> SlotOf(p) == old(SlotOf(p))
    {
      sent := sent[q := (if q in sent then sent[q] else []) + packets];
    }

    method TickOne(q: Quad, now: nat)
      requires q in conns
      modifies this`conns, this`sent
      ensures SlotOf(q) == SoloTick(old(SlotOf(q)), now) && conns.Keys == old(conns.Keys)
      ensures forall p :: p != q ==> SlotOf(p) == old(SlotOf(p))
    {
      hide OnTick;
      var r := OnTick(conns[q], now);
      conns := conns[q := r.0];
      Send(q, r.1);
    }

    /** Timers and retransmissions for every connection, in any order. */
    method TickAll(now: nat)
      modifies this`conns, this`sent
      ensures forall q :: SlotOf(q) == SoloTick(old(SlotOf(q)), now)
    {
      hide SoloTick;
      var todo := conns.Keys;
      while todo != {}
        invariant todo <= conns.Keys
        invariant forall q :: SlotOf(q) == if q in todo then old(SlotOf(q)) else SoloTick(old(SlotOf(q)), now)
        decreases |todo|
      {
        var q :| q in todo;
        TickOne(q, now);
        todo := todo - {q};
      }
    }

    /** Ingest and route one datagram. */
    method Route(a: Arrival, now: nat)
      modifies this`conns, this`sent
      ensures forall q :: SlotOf(q) == if a.quad == q && q.local == local then SoloSegment(old(SlotOf(q)), a, now)
                                       else old(SlotOf(q))
    {
      hide OnSegment, Accept, Has;
      if a.quad.local != local {
        return;
      }
      if a.quad in conns {
        var r := OnSegment(conns[a.quad], a.seg, a.env, now);
        conns := conns[a.quad := r.0];
        Send(a.quad, Outs(r.1));
      } else if Has(a.seg.flags, SYN) && !Has(a.seg.flags, ACK) {
        var r := Accept(a.seg, a.iss, a.env.budget, now);
        if r.Some? {
          conns := conns[a.quad := r.value.0];
          Send(a.quad, [r.value.1]);
        }
      }
    }

    method Ingest(arrivals: seq<Arrival>, now: nat)
      modifies this`conns, this`sent
      ensures forall q: Quad :: q.local == local ==> SlotOf(q) == SoloIngest(old(SlotOf(q)), q, arrivals, now)
      ensures forall q: Quad :: q.local != local ==> SlotOf(q) == old(SlotOf(q))
    {
      hide SoloSegment;
      for i := 0 to |arrivals|
        invariant forall q: Quad :: q.local == local ==> SlotOf(q) == SoloIngest(old(SlotOf(q)), q, arrivals[..i], now)
        invariant forall q: Quad :: q.local != local ==> SlotOf(q) == old(SlotOf(q))
      {
        Route(arrivals[i], now);
        assert arrivals[..i + 1][..i] == arrivals[..i];
      }
      assert arrivals[..|arrivals|] == arrivals;
    }

    /** Send what one connection can, and announce it if it has just been established. */
    method FlushOne(q: Quad, now: nat) returns (ghost isNew: bool)
      requires q in conns
      modifies this`conns, this`sent, this`announced, this`backlog
      ensures isNew <==> SlotOf(q).announced && !old(SlotOf(q)).announced
      ensures SlotOf(q) == SoloFlush(old(SlotOf(q)), now) && conns.Keys == old(conns.Keys)
      ensures forall p :: p != q ==> SlotOf(p) == old(SlotOf(p))
      ensures backlog == if isNew then old(backlog) + [q] else old(backlog)
    {
      hide PollTransmit;
      var r := PollTransmit(conns[q], now);
      conns := conns[q := r.0];
      Send(q, r.1);
      var isNewNow := conns[q].state == Established && q !in announced;
      if isNewNow {
        Announce(q);
      }
      isNew := isNewNow;
    }

    method Announce(q: Quad)
      modifies this`announced, this`backlog
      ensures SlotOf(q) == old(SlotOf(q)).(announced := true) && backlog == old(backlog) + [q]
      ensures forall p :: p != q ==> SlotOf(p) == old(SlotOf(p))
    {
      announced := announced + {q};
      backlog := backlog + [q];
    }

    /** Flush what every connection can send, and announce those just established, in any order. */
    method FlushAll(now: nat) returns (ghost news: seq<Quad>)
      modifies this`conns, this`sent, this`announced, this`backlog
      ensures forall q :: SlotOf(q) == SoloFlush(old(SlotOf(q)), now)
      ensures backlog == old(backlog) + news
      ensures NoRepeats(news)
      ensures forall q :: q in news <==> SlotOf(q).announced && !old(SlotOf(q)).announced
    {
      hide SoloFlush, SoloTick, SoloIngest, SoloReap, PollTransmit, Lone, Logged, Count, Project, NoRepeats;
      news := [];
      assert NoRepeats(news) by {
        NoNews();
      }
      var todo := conns.Keys;
      while todo != {}
        invariant todo <= conns.Keys
        invariant forall q :: SlotOf(q) == if q in todo then old(SlotOf(q)) else SoloFlush(old(SlotOf(q)), now)
        invariant backlog == old(backlog) + news
        invariant NoRepeats(news)
        invariant forall q :: q in news <==> SlotOf(q).announced && !old(SlotOf(q)).announced
        decreases |todo|
      {
        var q :| q in todo;
        assert q !in news;
        ghost var isNew := FlushOne(q, now);
        if isNew {
          OneNew(news, q);
          news := news + [q];
        }
        todo := todo - {q};
      }
    }

    /** Drop the closed connections. */
    method Reap()
      modifies this`conns, this`announced
      ensures forall q :: SlotOf(q) == SoloReap(old(SlotOf(q)))
    {
      var closed := set q | q in conns && conns[q].state == Closed;
      conns := conns - closed;
      announced := announced - closed;
    }

    /** Timers, datagrams, transmissions and announcements, reaping: every 4-tuple at this address comes
        out as a lone connection would. */
    method Pump(arrivals: seq<Arrival>, now: nat) returns (ghost news: seq<Quad>)
      modifies this`conns, this`sent, this`announced, this`backlog
      ensures forall q: Quad :: SlotOf(q) == if q.local == local then SoloPoll(old(SlotOf(q)), q, arrivals, now)
                                             else SoloReap(SoloFlush(SoloTick(old(SlotOf(q)), now), now))
      ensures backlog == old(backlog) + news
      ensures NoRepeats(news)
      ensures forall q: Quad :: q.local == local ==> (q in news <==> Announces(old(SlotOf(q)), q, arrivals, now))
    {
      hide SoloTick, SoloFlush, SoloReap, SoloIngest;
      ghost var ann := announced;
      TickAll(now);
      Ingest(arrivals, now);
      assert announced == ann;
      news := FlushAll(now);
      Reap();
    }

    /** One pump of the whole server. Every 4-tuple at this address comes out exactly as a lone connection
        fed only its own segments would, and the backlog grows by exactly the newly announced. */
    method Poll(arrivals: seq<Arrival>, now: nat) returns (ghost news: seq<Quad>)
      requires Valid()
      modifies this
      ensures Valid() && hist == old(hist) + [PollAll(arrivals, now)] && log == old(log) + news
      ensures forall q: Quad :: q.local == local ==> SlotOf(q) == SoloPoll(old(SlotOf(q)), q, arrivals, now)
      ensures backlog == old(backlog) + news
      ensures NoRepeats(news)
      ensures forall q: Quad :: q.local == local ==> (q in news <==> Announces(old(SlotOf(q)), q, arrivals, now))
    {
      hide SoloPoll, Announces, Lone, Count, SoloTick, SoloFlush, SoloReap;
      ghost var before, earlier := hist, log;
      news := Pump(arrivals, now);
      hist, log := before + [PollAll(arrivals, now)], earlier + news;
      forall q: Quad
        ensures if q.local == local then Lone(q, SlotOf(q), Count(log, q), hist) else SlotOf(q) == EMPTY_SLOT
      {
        if q.local == local {
          PolledLone(q, old(SlotOf(q)), Count(earlier, q), before, arrivals, now);
          CountMore(earlier, news, q);
        } else {
          EmptyStays(now);
        }
      }
    }

    /** A call on one connection has been carried out: write it into the history. */
    ghost method Remember(q: Quad, e: Event, s: Slot)
      requires Logged(backlog, log) && SlotOf(q) == SoloCall(s, e)
      requires forall p: Quad :: if p.local == local then Lone(p, if p == q then s else SlotOf(p), Count(log, p), hist)
                                 else (if p == q then s else SlotOf(p)) == EMPTY_SLOT
      modifies this`hist
      ensures Valid() && hist == old(hist) + [CallOn(q, e)]
    {
      hide SoloCall, Lone, Count;
      ghost var before := hist;
      hist := hist + [CallOn(q, e)];
      forall p: Quad
        ensures if p.local == local then Lone(p, SlotOf(p), Count(log, p), hist) else SlotOf(p) == EMPTY_SLOT
      {
        if p.local == local {
          CalledLone(p, if p == q then s else SlotOf(p), Count(log, p), before, q, e);
        } else {
          EmptyUncalled(e);
        }
      }
    }

    /** The application's calls on one connection; nothing happens if it is gone. */
    method SendTo(q: Quad, data: seq<byte>)
      requires Valid()
      modifies this`conns, this`hist
      ensures Valid() && hist == old(hist) + [CallOn(q, WriteEvent(data))]
      ensures SlotOf(q) == SoloCall(old(SlotOf(q)), WriteEvent(data))
      ensures forall p :: p != q ==> SlotOf(p) == old(SlotOf(p))
    {
      hide Lone, Count;
      if q in conns {
        conns := conns[q := Write(conns[q], data)];
      }
      Remember(q, WriteEvent(data), old(SlotOf(q)));
    }

    method RecvFrom(q: Quad) returns (data: seq<byte>)
      requires Valid()
      modifies this`conns, this`hist
      ensures Valid() && hist == old(hist) + [CallOn(q, TakeEvent)]
      ensures SlotOf(q) == SoloCall(old(SlotOf(q)), TakeEvent)
      ensures data == if old(SlotOf(q)).conn.Some? then old(SlotOf(q)).conn.value.recvBuf else []
      ensures forall p :: p != q ==> SlotOf(p) == old(SlotOf(p))
    {
      hide Lone, Count;
      data := [];
      if q in conns {
        data := Take(conns[q]).1;
        conns := conns[q := Take(conns[q]).0];
      }
      Remember(q, TakeEvent, old(SlotOf(q)));
    }

    method CloseOne(q: Quad, now: nat)
      requires Valid()
      modifies this`conns, this`sent, this`hist
      ensures Valid() && hist == old(hist) + [CallOn(q, CloseEvent(now))]
      ensures SlotOf(q) == SoloCall(old(SlotOf(q)), CloseEvent(now))
      ensures forall p :: p != q ==> SlotOf(p) == old(SlotOf(p))
    {
      hide Close, Lone, Count;
      if q in conns {
        var r := Close(conns[q], now);
        conns := conns[q := r.0];
        Send(q, Outs(r.1));
      }
      Remember(q, CloseEvent(now), old(SlotOf(q)));
    }

    /** The next 4-tuple announced, first in first out. */
    method AcceptOne() returns (q: Option<Quad>)
      requires Valid()
      modifies this`backlog
      ensures Valid()
      ensures q.None? <==> old(backlog) == []
      ensures q.Some? ==> old(backlog) == [q.value] + backlog
      ensures q.None? ==> backlog == []
    {
      hide Lone, Count;
      if backlog == [] {
        return None;
      }
      q := Some(backlog[0]);
      backlog := backlog[1..];
    }
  }
}
