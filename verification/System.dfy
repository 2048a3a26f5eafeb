/** Two endpoints and a network that may drop, duplicate and reorder anything: every segment ever sent
    stays deliverable, any number of times, in any order, or never. */
module System {
  import opened Types
  import opened SeqNum
  import opened Segments
  import opened Connection
  import opened Calls
  import opened Segmentation
  import opened Direction
  import opened Sender
  import opened Receiver
  import opened Arrival
  import Retransmit
  import Reassembly
  import Congestion
  import SackReport

  /** One endpoint and its application's history: all it wrote, all it took. `conn` is None while a
      passive opener still listens. */
  datatype Peer = Peer(conn: Option<Conn>, written: seq<byte>, taken: seq<byte>)

  /** aIss and bIss are the (arbitrary) initial sequence numbers. */
  datatype Sys = Sys(a: Peer, b: Peer, toA: set<Seg>, toB: set<Seg>, aIss: u32, bIss: u32)

  datatype Action = AtA(event: Event) | AtB(event: Event)

  /** The bytes an application may write in all: fewer than 2^31, as src/reassembly.rs assumes. */
  const STREAM_LIMIT: int := TWO_31 - 3

  /** The same segment up to what its sender advertises: the window and every option but SACK. */
  predicate Variant(p: Seg, q: Seg) {
    p == q.(window := p.window, opts := p.opts.(sack := q.opts.sack))
  }

  /** The network may hand over anything that was sent, with any window and any options advertised in it:
      an endpoint here offers one window and one segment size, other implementations vary both. */
  predicate Deliverable(inbox: set<Seg>, p: Seg) {
    exists q :: q in inbox && Variant(p, q)
  }

  /** The endpoint after one event, and what it puts on the wire. Events that cannot happen (writing
      past the limit, receiving what was never sent) change nothing. */
  function Local(p: Peer, iss: u32, inbox: set<Seg>, e: Event): (Peer, seq<Seg>) {
    if e.ReceiveEvent? && !Deliverable(inbox, e.p) then (p, [])
    else if e.WriteEvent? && |p.written| + |e.data| >= STREAM_LIMIT then (p, [])
    else if p.conn.Some? then
      var r := Apply(p.conn.value, e);
      (Peer(Some(r.0), if e.WriteEvent? then p.written + e.data else p.written,
            if e.TakeEvent? then p.taken + Take(p.conn.value).1 else p.taken), r.1)
    else if e.ReceiveEvent? then
      var r := Accept(e.p, iss, e.env.budget, e.now);
      if r.Some? then (p.(conn := Some(r.value.0)), [r.value.1]) else (p, [])
    else (p, [])
  }

  function OnWire(outs: seq<Seg>): set<Seg> {
    set p | p in outs
  }

  function StepA(s: Sys, e: Event): Sys {
    var r := Local(s.a, s.aIss, s.toA, e);
    s.(a := r.0, toB := s.toB + OnWire(r.1))
  }

  /** The same system seen from the other end. */
  function Flip(s: Sys): Sys {
    Sys(s.b, s.a, s.toB, s.toA, s.bIss, s.aIss)
  }

  function Step(s: Sys, act: Action): Sys {
    match act
    case AtA(e) => StepA(s, e)
    case AtB(e) => Flip(StepA(Flip(s), e))
  }

  /** A opens actively towards a listening B. */
  function Start(aIss: u32, bIss: u32, budget: Budget, now: nat): Sys {
    var r := Connect(aIss, budget, now);
    Sys(Peer(Some(r.0), [], []), Peer(None, [], []), {}, {r.1}, aIss, bIss)
  }

  /** The state after a whole run. */
  function Run(s: Sys, acts: seq<Action>): Sys {
    if acts == [] then s else Step(Run(s, acts[..|acts| - 1]), acts[|acts| - 1])
  }

  // ---- the invariant ----

  ghost predicate PeerOk(p: Peer, iss: u32, oIss: u32, ins: Dir, w: seq<byte>, out: Dir) {
    && WellCut(ins, w) && WellCut(out, p.written)
    && |p.written| < STREAM_LIMIT
    && match p.conn
       case None =>
         p.written == [] && p.taken == [] && out.cuts == [0, 1] && !out.fin
         && ins.got == {} && ins.k == 0 && ins.stops == {0} && 0 in out.stops
       case Some(c) =>
         c.send.iss == iss && Receives(c, oIss, ins, w, p.taken) && Sends(c, out, p.written)
  }

  /** Every segment under way is honest about its own direction d and truthful about the other one. */
  ghost predicate NetOk(net: set<Seg>, iss: u32, d: Dir, w: seq<byte>, oIss: u32, e: Dir)
    requires WellCut(d, w)
  {
    forall p :: p in net ==> Honest(p, iss, d, w) && Truthful(p, oIss, e)
  }

  ghost predicate Queued(p: Peer, net: set<Seg>) {
    p.conn.Some? ==> forall x :: x in p.conn.value.retx.segs ==> x.packet in net
  }

  ghost predicate InvWith(s: Sys, ab: Dir, ba: Dir) {
    && PeerOk(s.a, s.aIss, s.bIss, ba, s.b.written, ab)
    && PeerOk(s.b, s.bIss, s.aIss, ab, s.a.written, ba)
    && NetOk(s.toB, s.aIss, ab, s.a.written, s.bIss, ba)
    && NetOk(s.toA, s.bIss, ba, s.b.written, s.aIss, ab)
    && Queued(s.a, s.toB) && Queued(s.b, s.toA)
  }

  ghost predicate Inv(s: Sys) {
    exists ab, ba :: InvWith(s, ab, ba)
  }

  const NEW_DIR := Dir([0, 1], false, {}, 0, {0})

  /** A connection whose only segment so far is its SYN has a sound sending half. */
  lemma FirstSends(c: Conn, d: Dir, syn: Seg, now: nat)
    requires d.cuts == [0, 1] && !d.fin && 0 in d.stops
    requires c.state == SynSent || c.state == SynRcvd
    requires c.send.una == c.send.iss && c.send.nxt == Add(c.send.iss, 1) && c.sendBuf == []
    requires c.retx.segs == [Retransmit.Unacked(c.send.iss, Add(c.send.iss, 1), syn, now, 0, false)]
    requires !Congestion.InRecovery(c.cong)
    requires syn.seqno == c.send.iss && syn.payload == []
    requires Has(syn.flags, SYN) && !Has(syn.flags, FIN) && !Has(syn.flags, RST)
    ensures WellCut(d, []) && Sends(c, d, []) && Honest(syn, c.send.iss, d, [])
  {
    AddOff(c.send.iss, c.send.iss, 1);
    hide Has, Add;
    assert WellCut(d, []);
    assert Carries(syn, c.send.iss, d, [], 0);
    assert Entry(c.retx.segs[0], c.send.iss, d, [], 0);
  }

  lemma StartInv(aIss: u32, bIss: u32, budget: Budget, now: nat)
    ensures Inv(Start(aIss, bIss, budget, now))
  {
    var s := Start(aIss, bIss, budget, now);
    var c := s.a.conn.value;
    var syn := c.retx.segs[0].packet;
    FirstSends(c, NEW_DIR, syn, now);
    assert Receives(c, bIss, NEW_DIR, [], []);
    assert Truthful(syn, bIss, NEW_DIR);
    hide Sends, Receives, Honest, Truthful, Off;
    assert InvWith(s, NEW_DIR, NEW_DIR);
  }

  // ---- one event ----

  /** What an endpoint's event owes the rest of the system. */
  ghost predicate LocalStep(p: Peer, iss: u32, oIss: u32, ins: Dir, w: seq<byte>, out: Dir,
                            r: (Peer, seq<Seg>), ins': Dir, out': Dir) {
    && PeerOk(r.0, iss, oIss, ins', w, out')
    && ReceiverMoved(ins, ins') && SenderMoved(out, out') && p.written <= r.0.written
    && (forall o :: o in r.1 ==> InQueue(p, o) || (Honest(o, iss, out', r.0.written) && Truthful(o, oIss, ins')))
    && (r.0.conn.Some? ==> forall x :: x in r.0.conn.value.retx.segs ==> InQueue(p, x.packet) || x.packet in r.1)
  }

  ghost predicate InQueue(p: Peer, o: Seg) {
    p.conn.Some? && Retransmit.PacketIn(p.conn.value.retx.segs, o)
  }

  /** A segment that states the present is truthful. */
  lemma SpeaksTrue(p: Seg, c: Conn, iss: u32, d: Dir, w: seq<byte>, taken: seq<byte>)
    requires Receives(c, iss, d, w, taken) && c.state != SynSent && Speaks(p, c)
    ensures Truthful(p, iss, d)
  {
    assert AckAt(p.ackno, iss, d, d.k);
    forall b | b in p.opts.sack
      ensures exists i, j :: BlockAt(b, iss, d, i, j)
    {
      var n :| 0 <= n < |Reassembly.SackBlocks(c.reasm)| && Reassembly.SackBlocks(c.reasm)[n] == b;
      var i, j := SackReport.BlockNamesReceivedUnits(c.reasm, d.cuts, w, d.got, d.k, n);
      BlockShift(iss, d, b, i, j, w);
    }
  }

  lemma BlockShift(iss: u32, d: Dir, b: Block, i: int, j: int, w: seq<byte>)
    requires WellCut(d, w) && 1 <= d.k && (forall a :: a in d.stops ==> a <= d.k)
    requires SackReport.Names(d.cuts, d.got, d.k, Add(iss, 1), b, i, j)
    ensures BlockAt(b, iss, d, i, j)
  {
    UnshiftBase(iss, b.left);
    UnshiftBase(iss, b.right);
  }

  lemma UnshiftBase(iss: u32, x: u32)
    requires Off(Add(iss, 1), x) < TWO_32 - 1
    ensures Off(iss, x) == Off(Add(iss, 1), x) + 1
  {
  }

  lemma WriteLocal(c: Conn, data: seq<byte>, out: Dir, v: seq<byte>)
    requires Sends(c, out, v) && |v| + |data| < STREAM_LIMIT
    ensures Sends(Write(c, data), out, v + data) && WellCut(out, v + data)
  {
    assert WellCut(out, v + data);
    Rewritten(c.retx.segs, c.send.iss, out, v, v + data);
    assert c.sendBuf + data == (v + data)[Direction.Sent(out)..];
    hide Tiled, Cuts;
  }

  lemma Rewritten(segs: seq<Retransmit.Unacked>, iss: u32, d: Dir, w: seq<byte>, w': seq<byte>)
    requires WellCut(d, w) && WellCut(d, w') && w <= w' && Tiled(segs, iss, d, w)
    ensures Tiled(segs, iss, d, w')
  {
    TiledLater(segs, iss, d, d, w, w');
  }

  lemma TakeLocal(c: Conn, iss: u32, ins: Dir, w: seq<byte>, taken: seq<byte>, out: Dir, v: seq<byte>)
    requires Receives(c, iss, ins, w, taken) && Sends(c, out, v)
    ensures Receives(Take(c).0, iss, ins, w, taken + Take(c).1) && Sends(Take(c).0, out, v)
  {
    assert taken + c.recvBuf + [] == taken + c.recvBuf;
    hide Clean, WellCut, Tiled;
  }

  lemma QueueItself(p: Peer)
    ensures p.conn.Some? ==> forall x :: x in p.conn.value.retx.segs ==> InQueue(p, x.packet)
  {
    if p.conn.Some? {
      AppendEmitsNone(p.conn.value.retx.segs);
    }
  }

  /** Nothing sent, nothing queued, both halves as sound as before. */
  lemma QuietLocal(p: Peer, iss: u32, oIss: u32, ins: Dir, w: seq<byte>, out: Dir, p': Peer)
    requires PeerOk(p, iss, oIss, ins, w, out) && PeerOk(p', iss, oIss, ins, w, out)
    requires p.written <= p'.written && (p'.conn.Some? ==> p.conn.Some? && p'.conn.value.retx.segs == p.conn.value.retx.segs)
    ensures LocalStep(p, iss, oIss, ins, w, out, (p', []), ins, out)
  {
    QueueItself(p);
    CutFacts(out, p.written);
    CutFacts(ins, w);
    ReceiverRests(ins);
    hide PeerOk;
  }

  /** Transmission, timers and closing. */
  lemma SenderLocal(p: Peer, c': Conn, outs: seq<Seg>, iss: u32, oIss: u32, ins: Dir, w: seq<byte>, out: Dir, out': Dir)
    requires PeerOk(p, iss, oIss, ins, w, out) && p.conn.Some?
    requires SenderStep(p.conn.value, out, outs, c', out', p.written)
    requires Progress(c', ins) || p.conn.value.state == SynSent
    ensures LocalStep(p, iss, oIss, ins, w, out, (p.(conn := Some(c')), outs), ins, out')
  {
    var c := p.conn.value;
    ReceivesKept(c, c', oIss, ins, w, p.taken);
    CutFacts(ins, w);
    ReceiverRests(ins);
    SenderLocalOuts(p, c', outs, iss, oIss, ins, w, out');
    hide Receives, Sends, Honest, Truthful, Later, Emits;
  }

  lemma ReceivesKept(c: Conn, c': Conn, iss: u32, d: Dir, w: seq<byte>, taken: seq<byte>)
    requires Receives(c, iss, d, w, taken) && SameReceiver(c, c') && (c.state == SynSent <==> c'.state == SynSent)
    requires Progress(c', d) || c.state == SynSent
    ensures Receives(c', iss, d, w, taken)
  {
    hide Clean, WellCut;
  }

  lemma SenderLocalOuts(p: Peer, c': Conn, outs: seq<Seg>, iss: u32, oIss: u32, ins: Dir, w: seq<byte>, out': Dir)
    requires p.conn.Some? && p.conn.value.send.iss == iss && WellCut(out', p.written)
    requires Emits(p.conn.value, outs, c', out', p.written) && Receives(c', oIss, ins, w, p.taken)
    ensures forall o :: o in outs ==> InQueue(p, o) || (Honest(o, iss, out', p.written) && Truthful(o, oIss, ins))
  {
    hide Honest, Receives, Truthful, Speaks;
    forall o | o in outs
      ensures InQueue(p, o) || (Honest(o, iss, out', p.written) && Truthful(o, oIss, ins))
    {
      if !Retransmit.PacketIn(p.conn.value.retx.segs, o) {
        SpeaksTrue(o, c', oIss, ins, w, p.taken);
      }
    }
  }

  lemma ReceiveLocal(p: Peer, q: Seg, env: Env, now: nat, iss: u32, oIss: u32, ins: Dir, w: seq<byte>, out: Dir)
    returns (ins': Dir)
    requires PeerOk(p, iss, oIss, ins, w, out) && p.conn.Some?
    requires Honest(q, oIss, ins, w) && Truthful(q, iss, out)
    ensures var r := OnSegment(p.conn.value, q, env, now);
            LocalStep(p, iss, oIss, ins, w, out, (p.(conn := Some(r.0)), Outs(r.1)), ins', out)
  {
    var c := p.conn.value;
    hide OnSegment, Honest, Truthful, Cuts;
    ins' := SegmentStep(c, q, env, now, oIss, ins, w, p.taken, out, p.written);
    CutFacts(out, p.written);
    HandledLocal(p, OnSegment(c, q, env, now), iss, oIss, ins, ins', w, out);
  }

  lemma HandledLocal(p: Peer, r: (Conn, Option<Seg>), iss: u32, oIss: u32, ins: Dir, ins': Dir, w: seq<byte>, out: Dir)
    requires PeerOk(p, iss, oIss, ins, w, out) && p.conn.Some? && SenderMoved(out, out)
    requires Sound(p.conn.value, r, oIss, ins, ins', w, p.taken, out, p.written)
    ensures LocalStep(p, iss, oIss, ins, w, out, (p.(conn := Some(r.0)), Outs(r.1)), ins', out)
  {
    var c := p.conn.value;
    HandledReply(p, r, iss, oIss, ins, ins', w, out);
    ReceivesCut(r.0, oIss, ins', w, p.taken);
    hide Receives, Sends, Truthful, Later, Speaks, Bare, WellCut, Honest;
  }

  /** A segment that states the present is honest. */
  lemma StatesHonest(p: Seg, c: Conn, d: Dir, w: seq<byte>)
    requires Sends(c, d, w) && States(p, c) && WellCut(d, w)
    ensures Honest(p, c.send.iss, d, w)
  {
    hide Tiled, UnaOk, RecoverOk, WellCut, Off, Speaks;
  }

  lemma HandledReply(p: Peer, r: (Conn, Option<Seg>), iss: u32, oIss: u32, ins: Dir, ins': Dir, w: seq<byte>, out: Dir)
    requires p.conn.Some? && p.conn.value.send.iss == iss && WellCut(out, p.written)
    requires Sound(p.conn.value, r, oIss, ins, ins', w, p.taken, out, p.written)
    ensures forall o :: o in Outs(r.1) ==> InQueue(p, o) || (Honest(o, iss, out, p.written) && Truthful(o, oIss, ins'))
  {
    hide Receives, Sends, Truthful, Later, Speaks, Bare, WellCut, Honest;
    if r.1.Some? && !InQueue(p, r.1.value) {
      StatesHonest(r.1.value, r.0, out, p.written);
      SpeaksTrue(r.1.value, r.0, oIss, ins', w, p.taken);
    }
  }

  /** The listener hears the SYN: both directions of B begin. */
  lemma AcceptLocal(p: Peer, q: Seg, env: Env, now: nat, iss: u32, oIss: u32, ins: Dir, w: seq<byte>, out: Dir)
    returns (ins': Dir)
    requires PeerOk(p, iss, oIss, ins, w, out) && p.conn.None?
    requires Honest(q, oIss, ins, w) && Has(q.flags, SYN)
    ensures var r := Accept(q, iss, env.budget, now);
            r.Some? && LocalStep(p, iss, oIss, ins, w, out, (p.(conn := Some(r.value.0)), [r.value.1]), ins', out)
  {
    ins' := ins.(got := {0}, k := 1, stops := {0, 1});
    Listening(p, iss, oIss, ins, w, out);
    assert Accept(q, iss, env.budget, now).Some?;
    hide Accept, Receives, Sends, Honest, Truthful, WellCut, SenderMoved, ReceiverMoved, Has, LocalStep, PeerOk;
    var r := Accept(q, iss, env.budget, now).value;
    AcceptReceives(q, env, now, iss, oIss, ins, ins', w);
    AcceptSends(q, env, now, iss, out);
    Opens(p, r.0, r.1, iss, oIss, ins, ins', w, out);
  }

  lemma Listening(p: Peer, iss: u32, oIss: u32, ins: Dir, w: seq<byte>, out: Dir)
    requires PeerOk(p, iss, oIss, ins, w, out) && p.conn.None?
    ensures ReceiverMoved(ins, ins.(got := {0}, k := 1, stops := {0, 1})) && SenderMoved(out, out)
    ensures WellCut(ins, w) && WellCut(out, []) && out.cuts == [0, 1] && !out.fin && 0 in out.stops
  {
  }

  lemma Opens(p: Peer, c: Conn, x: Seg, iss: u32, oIss: u32, ins: Dir, ins': Dir, w: seq<byte>, out: Dir)
    requires PeerOk(p, iss, oIss, ins, w, out) && p.conn.None?
    requires ReceiverMoved(ins, ins') && SenderMoved(out, out)
    requires Receives(c, oIss, ins', w, []) && Sends(c, out, []) && c.send.iss == iss
    requires Honest(x, iss, out, []) && Truthful(x, oIss, ins')
    requires forall e :: e in c.retx.segs ==> e.packet == x
    ensures LocalStep(p, iss, oIss, ins, w, out, (p.(conn := Some(c)), [x]), ins', out)
  {
    ReceivesCut(c, oIss, ins', w, []);
    hide Receives, Sends, Honest, Truthful, SenderMoved, ReceiverMoved, Cuts;
  }

  lemma ReceivesCut(c: Conn, iss: u32, d: Dir, w: seq<byte>, taken: seq<byte>)
    requires Receives(c, iss, d, w, taken)
    ensures WellCut(d, w)
  {
  }

  lemma AcceptReceives(q: Seg, env: Env, now: nat, iss: u32, oIss: u32, ins: Dir, ins': Dir, w: seq<byte>)
    requires WellCut(ins, w) && Honest(q, oIss, ins, w) && Has(q.flags, SYN)
    requires ins' == ins.(got := {0}, k := 1, stops := {0, 1})
    ensures var r := Accept(q, iss, env.budget, now).value;
            Receives(r.0, oIss, ins', w, []) && Truthful(r.1, oIss, ins')
  {
    var r := Accept(q, iss, env.budget, now).value;
    var i :| Carries(q, oIss, ins, w, i);
    assert q.seqno == oIss;
    AddOff(oIss, oIss, 1);
    assert Clean(r.0.reasm, ins'.cuts, w, ins'.got, 1);
    assert AckAt(r.1.ackno, oIss, ins', 1);
  }

  lemma AcceptSends(q: Seg, env: Env, now: nat, iss: u32, out: Dir)
    requires Has(q.flags, SYN) && WellCut(out, []) && out.cuts == [0, 1] && !out.fin && 0 in out.stops
    ensures var r := Accept(q, iss, env.budget, now).value;
            && Sends(r.0, out, []) && r.0.send.iss == iss && Honest(r.1, iss, out, [])
            && forall x :: x in r.0.retx.segs ==> x.packet == r.1
  {
    var r := Accept(q, iss, env.budget, now).value;
    hide Sends, Honest, WellCut, Off;
    FirstSends(r.0, out, r.1, now);
  }

  // ---- any event ----

  lemma PollLocal(p: Peer, iss: u32, oIss: u32, ins: Dir, w: seq<byte>, out: Dir, now: nat) returns (out': Dir)
    requires PeerOk(p, iss, oIss, ins, w, out) && p.conn.Some?
    ensures var r := PollTransmit(p.conn.value, now);
            LocalStep(p, iss, oIss, ins, w, out, (p.(conn := Some(r.0)), r.1), ins, out')
  {
    var c := p.conn.value;
    assert Receives(c, oIss, ins, w, p.taken) && Sends(c, out, p.written) && |p.written| + 3 < TWO_31;
    hide Receives, Sends, SenderStep, LocalStep, PollTransmit, PeerOk, Progress;
    var r := PollTransmit(c, now);
    out' := PollStep(c, out, p.written, now);
    PollState(c, now);
    ProgressKept(c, r.0, oIss, ins, w, p.taken);
    SenderLocal(p, r.0, r.1, iss, oIss, ins, w, out, out');
  }

  lemma TickLocal(p: Peer, iss: u32, oIss: u32, ins: Dir, w: seq<byte>, out: Dir, now: nat) returns (out': Dir)
    requires PeerOk(p, iss, oIss, ins, w, out) && p.conn.Some?
    ensures var r := OnTick(p.conn.value, now);
            LocalStep(p, iss, oIss, ins, w, out, (p.(conn := Some(r.0)), r.1), ins, out')
  {
    var c := p.conn.value;
    assert Receives(c, oIss, ins, w, p.taken) && Sends(c, out, p.written) && |p.written| + 3 < TWO_31;
    hide Receives, Sends, SenderStep, LocalStep, OnTick, PeerOk, Progress;
    var r := OnTick(c, now);
    out' := TickStep(c, out, p.written, now);
    TickState(c, now);
    ProgressKept(c, r.0, oIss, ins, w, p.taken);
    SenderLocal(p, r.0, r.1, iss, oIss, ins, w, out, out');
  }

  lemma CloseLocal(p: Peer, iss: u32, oIss: u32, ins: Dir, w: seq<byte>, out: Dir, now: nat) returns (out': Dir)
    requires PeerOk(p, iss, oIss, ins, w, out) && p.conn.Some?
    ensures var r := Close(p.conn.value, now);
            LocalStep(p, iss, oIss, ins, w, out, (p.(conn := Some(r.0)), Outs(r.1)), ins, out')
  {
    var c := p.conn.value;
    assert Receives(c, oIss, ins, w, p.taken) && Sends(c, out, p.written) && |p.written| + 3 < TWO_31;
    hide Receives, Sends, SenderStep, LocalStep, Close, PeerOk, Progress;
    var r := Close(c, now);
    out' := CloseStep(c, out, p.written, now);
    CloseState(c, now);
    ProgressKept(c, r.0, oIss, ins, w, p.taken);
    SenderLocal(p, r.0, Outs(r.1), iss, oIss, ins, w, out, out');
  }

  lemma SenderEvent(p: Peer, iss: u32, oIss: u32, ins: Dir, w: seq<byte>, out: Dir, inbox: set<Seg>, e: Event)
    returns (out': Dir)
    requires PeerOk(p, iss, oIss, ins, w, out) && p.conn.Some?
    requires e.PollEvent? || e.TickEvent? || e.CloseEvent?
    ensures LocalStep(p, iss, oIss, ins, w, out, Local(p, iss, inbox, e), ins, out')
  {
    hide LocalStep, PollTransmit, OnTick, Close, PeerOk;
    if e.PollEvent? {
      out' := PollLocal(p, iss, oIss, ins, w, out, e.now);
    } else if e.TickEvent? {
      out' := TickLocal(p, iss, oIss, ins, w, out, e.now);
    } else {
      out' := CloseLocal(p, iss, oIss, ins, w, out, e.now);
    }
  }

  lemma ProgressKept(c: Conn, c': Conn, iss: u32, d: Dir, w: seq<byte>, taken: seq<byte>)
    requires Receives(c, iss, d, w, taken) && c'.peerFin == c.peerFin
    requires c'.state == c.state || c'.state == Closed || (c.state == Established && c'.state == FinWait1)
             || (c.state == CloseWait && c'.state == LastAck)
    ensures Progress(c', d) || c.state == SynSent
  {
  }

  lemma QuietEvent(p: Peer, iss: u32, oIss: u32, ins: Dir, w: seq<byte>, out: Dir, inbox: set<Seg>, e: Event)
    requires PeerOk(p, iss, oIss, ins, w, out) && p.conn.Some?
    requires !e.PollEvent? && !e.TickEvent? && !e.CloseEvent? && !e.ReceiveEvent?
    ensures LocalStep(p, iss, oIss, ins, w, out, Local(p, iss, inbox, e), ins, out)
  {
    hide PollTransmit, OnTick, OnSegment, Accept, Close;
    var c := p.conn.value;
    var p' := Local(p, iss, inbox, e).0;
    if e.WriteEvent? {
      WriteEventOk(p, iss, oIss, ins, w, out, inbox, e.data);
    } else if e.TakeEvent? {
      hide Sends, Receives;
      TakeLocal(c, oIss, ins, w, p.taken, out, p.written);
    } else {
      hide Sends, Receives;
      SettingKept(c, p'.conn.value, oIss, ins, w, p.taken, out, p.written);
    }
    hide Receives, Sends, LocalStep, WellCut, Write, Take;
    QuietLocal(p, iss, oIss, ins, w, out, p');
  }

  lemma WriteEventOk(p: Peer, iss: u32, oIss: u32, ins: Dir, w: seq<byte>, out: Dir, inbox: set<Seg>, data: seq<byte>)
    requires PeerOk(p, iss, oIss, ins, w, out) && p.conn.Some?
    ensures PeerOk(Local(p, iss, inbox, WriteEvent(data)).0, iss, oIss, ins, w, out)
  {
    hide Sends, Receives, WellCut, Write, PollTransmit, OnTick, OnSegment, Accept, Close;
    if |p.written| + |data| < STREAM_LIMIT {
      var c := p.conn.value;
      WriteLocal(c, data, out, p.written);
      assert SameReceiver(c, Write(c, data)) && Write(c, data).state == c.state && Write(c, data).send == c.send by {
        WriteFrame(c, data);
      }
      IdleReceives(c, Write(c, data), oIss, ins, w, p.taken);
    }
  }

  lemma WriteFrame(c: Conn, data: seq<byte>)
    ensures SameReceiver(c, Write(c, data)) && Write(c, data).state == c.state && Write(c, data).send == c.send
  {
  }

  lemma SettingKept(c: Conn, c': Conn, iss: u32, ins: Dir, w: seq<byte>, taken: seq<byte>, out: Dir, v: seq<byte>)
    requires Receives(c, iss, ins, w, taken) && Sends(c, out, v)
    requires SameReceiver(c, c') && c'.state == c.state && c'.send == c.send && c'.sendBuf == c.sendBuf
    requires c'.retx == c.retx && c'.recover == c.recover
    requires Congestion.InRecovery(c'.cong) ==> Congestion.InRecovery(c.cong)
    ensures Receives(c', iss, ins, w, taken) && Sends(c', out, v)
  {
    IdleReceives(c, c', iss, ins, w, taken);
    hide Receives, Sends;
    ShapeSends(c, out, c', v);
  }

  lemma NothingHappens(p: Peer, iss: u32, oIss: u32, ins: Dir, w: seq<byte>, out: Dir)
    requires PeerOk(p, iss, oIss, ins, w, out)
    ensures LocalStep(p, iss, oIss, ins, w, out, (p, []), ins, out)
  {
    hide PeerOk, LocalStep;
    QuietLocal(p, iss, oIss, ins, w, out, p);
  }

  lemma ReceiveEventStep(p: Peer, iss: u32, oIss: u32, ins: Dir, w: seq<byte>, out: Dir, inbox: set<Seg>, e: Event)
    returns (ins': Dir)
    requires PeerOk(p, iss, oIss, ins, w, out) && e.ReceiveEvent? && Deliverable(inbox, e.p)
    requires Honest(e.p, oIss, ins, w) && Truthful(e.p, iss, out)
    ensures LocalStep(p, iss, oIss, ins, w, out, Local(p, iss, inbox, e), ins', out)
  {
    hide LocalStep, PeerOk, OnSegment, Honest, Truthful, Has, Deliverable;
    ins' := ins;
    if p.conn.Some? {
      ins' := ReceiveLocal(p, e.p, e.env, e.now, iss, oIss, ins, w, out);
    } else if Has(e.p.flags, SYN) {
      ins' := AcceptLocal(p, e.p, e.env, e.now, iss, oIss, ins, w, out);
    } else {
      NothingHappens(p, iss, oIss, ins, w, out);
    }
  }

  /** What is advertised is no part of what a segment says about the streams. */
  lemma VariantKeeps(net: set<Seg>, p: Seg, iss: u32, d: Dir, w: seq<byte>, oIss: u32, e: Dir)
    requires WellCut(d, w) && NetOk(net, iss, d, w, oIss, e) && Deliverable(net, p)
    ensures Honest(p, iss, d, w) && Truthful(p, oIss, e)
  {
    hide WellCut, Content;
    CutFacts(d, w);
    var q :| q in net && Variant(p, q);
    assert Honest(q, iss, d, w) && Truthful(q, oIss, e);
    if !Control(q, iss, d) {
      var i :| Carries(q, iss, d, w, i);
      assert Carries(p, iss, d, w, i);
    }
  }

  lemma EventStep(p: Peer, iss: u32, oIss: u32, ins: Dir, w: seq<byte>, out: Dir, inbox: set<Seg>, e: Event)
    returns (ins': Dir, out': Dir)
    requires PeerOk(p, iss, oIss, ins, w, out) && NetOk(inbox, oIss, ins, w, iss, out)
    ensures LocalStep(p, iss, oIss, ins, w, out, Local(p, iss, inbox, e), ins', out')
  {
    ins', out' := ins, out;
    if e.ReceiveEvent? && Deliverable(inbox, e.p) {
      hide LocalStep, Local, Honest, Truthful, Deliverable;
      VariantKeeps(inbox, e.p, oIss, ins, w, iss, out);
      ins' := ReceiveEventStep(p, iss, oIss, ins, w, out, inbox, e);
    } else if p.conn.Some? && !e.ReceiveEvent? {
      hide LocalStep, PeerOk, NetOk, Local, Deliverable;
      if e.PollEvent? || e.TickEvent? || e.CloseEvent? {
        out' := SenderEvent(p, iss, oIss, ins, w, out, inbox, e);
      } else {
        QuietEvent(p, iss, oIss, ins, w, out, inbox, e);
      }
    } else {
      hide LocalStep, PeerOk, Apply, Accept, Deliverable;
      NothingHappens(p, iss, oIss, ins, w, out);
    }
  }

  // ---- every run ----

  /** The other endpoint does not notice. */
  lemma OtherPeer(p: Peer, iss: u32, oIss: u32, ins: Dir, w: seq<byte>, out: Dir, ins': Dir, w': seq<byte>, out': Dir)
    requires PeerOk(p, iss, oIss, ins, w, out) && WellCut(ins', w') && w <= w'
    requires SenderMoved(ins, ins') && ReceiverMoved(out, out')
    ensures PeerOk(p, iss, oIss, ins', w', out')
  {
    if p.conn.Some? {
      ReceivesLater(p.conn.value, oIss, ins, ins', w, w', p.taken);
      SendsLater(p.conn.value, out, out', p.written);
    }
    hide Receives, Sends, Cuts;
  }

  lemma NetLater(net: set<Seg>, iss: u32, d: Dir, d': Dir, w: seq<byte>, w': seq<byte>, oIss: u32, e: Dir, e': Dir)
    requires WellCut(d, w) && WellCut(d', w') && Later(d, d') && w <= w' && Later(e, e')
    requires NetOk(net, iss, d, w, oIss, e)
    ensures NetOk(net, iss, d', w', oIss, e')
  {
    hide WellCut, Honest, Truthful, Later;
    forall p | p in net
      ensures Honest(p, iss, d', w') && Truthful(p, oIss, e')
    {
      HonestLater(p, iss, d, d', w, w');
      TruthfulLater(p, oIss, e, e');
    }
  }

  lemma StepAInv(s: Sys, e: Event, ab: Dir, ba: Dir)
    requires InvWith(s, ab, ba)
    ensures Inv(StepA(s, e))
  {
    var ba', ab' := EventStep(s.a, s.aIss, s.bIss, ba, s.b.written, ab, s.toA, e);
    var s' := StepA(s, e);
    OtherPeer(s.b, s.bIss, s.aIss, ab, s.a.written, ba, ab', s'.a.written, ba');
    NetLater(s.toA, s.bIss, ba, ba', s.b.written, s.b.written, s.aIss, ab, ab');
    NetLater(s.toB, s.aIss, ab, ab', s.a.written, s'.a.written, s.bIss, ba, ba');
    NewSegments(s, e, ab, ba, ab', ba');
    hide PeerOk, NetOk, Local, LocalStep, Later;
    assert InvWith(s', ab', ba');
  }

  lemma NewSegments(s: Sys, e: Event, ab: Dir, ba: Dir, ab': Dir, ba': Dir)
    requires Queued(s.a, s.toB) && WellCut(ab', StepA(s, e).a.written)
    requires LocalStep(s.a, s.aIss, s.bIss, ba, s.b.written, ab, Local(s.a, s.aIss, s.toA, e), ba', ab')
    requires NetOk(s.toB, s.aIss, ab', StepA(s, e).a.written, s.bIss, ba')
    ensures NetOk(StepA(s, e).toB, s.aIss, ab', StepA(s, e).a.written, s.bIss, ba')
    ensures Queued(StepA(s, e).a, StepA(s, e).toB)
  {
    hide WellCut, PeerOk, Honest, Truthful, SenderMoved, ReceiverMoved, Local;
    var r := Local(s.a, s.aIss, s.toA, e);
    forall o | InQueue(s.a, o)
      ensures o in s.toB
    {
      var i :| 0 <= i < |s.a.conn.value.retx.segs| && s.a.conn.value.retx.segs[i].packet == o;
      assert s.a.conn.value.retx.segs[i] in s.a.conn.value.retx.segs;
    }
  }

  lemma FlipInv(s: Sys)
    requires Inv(s)
    ensures Inv(Flip(s))
  {
    hide PeerOk, NetOk, Queued;
    var ab, ba :| InvWith(s, ab, ba);
    assert InvWith(Flip(s), ba, ab);
  }

  lemma StepInv(s: Sys, act: Action)
    requires Inv(s)
    ensures Inv(Step(s, act))
  {
    hide InvWith, StepA;
    match act {
      case AtA(e) =>
        var ab, ba :| InvWith(s, ab, ba);
        StepAInv(s, e, ab, ba);
      case AtB(e) =>
        FlipInv(s);
        var ab, ba :| InvWith(Flip(s), ab, ba);
        StepAInv(Flip(s), e, ab, ba);
        FlipInv(StepA(Flip(s), e));
    }
  }

  lemma {:induction false} RunInv(s: Sys, acts: seq<Action>)
    requires Inv(s)
    ensures Inv(Run(s, acts))
  {
    if acts != [] {
      RunInv(s, acts[..|acts| - 1]);
      StepInv(Run(s, acts[..|acts| - 1]), acts[|acts| - 1]);
    }
  }
}
