/** One TCP connection (`Connection` in src/tcp.rs) as a value, and what each of its entry points does
    to it. `TcpConnection` in TcpConnection.dfy is the object that does it in place. */
module Connection {
  import opened Types
  import opened SeqNum
  import opened Segments
  import Retransmit
  import Reassembly
  import Rtt
  import Congestion

  datatype State = SynSent | SynRcvd | Established | CloseWait | LastAck | FinWait1 | FinWait2 | Closing | TimeWait | Closed

  const OUR_MSS: u16 := 1460
  const OUR_WSCALE: Shift := 0
  const RCV_WND: u16 := 1024
  const CHALLENGE_WINDOW_MS := 1000
  const CHALLENGE_ACK_MAX := 5
  const TIME_WAIT_MS := 240_000
  const FIN_WAIT2_TIMEOUT_MS := 60_000
  const CLOSE_WAIT_TIMEOUT_MS := 120_000
  const KEEPALIVE_IDLE_MS := 60_000
  const KEEPALIVE_INTVL_MS := 5_000
  const KEEPALIVE_PROBES := 3

  type Budget = x: int | 1 <= x <= CHALLENGE_ACK_MAX witness 1

  /** A 16-bit window shifted left by at most 14 bits. */
  type Wnd = x: int | 0 <= x <= 65535 * 16384

  /** What the environment supplies to one call: the cubic curve's value and a random budget. */
  datatype Env = Env(curve: Congestion.Window, budget: Budget)

  datatype Send = Send(iss: u32, una: u32, nxt: u32, wnd: Wnd, maxWnd: Wnd)

  datatype Recv = Recv(irs: u32, nxt: u32, wnd: u16)

  /** What the options and the application settled. */
  datatype Settings = Settings(
    nagle: bool,
    sendMss: u16,
    tsEnabled: bool,
    tsRecent: u32,
    tsVal: u32,
    sndWscale: Shift,
    sackOk: bool,
    keepaliveEnabled: bool)

  /** Timers and budgets. */
  datatype Clock = Clock(
    timeWaitMs: nat,
    persistMs: nat,
    challengeBudget: nat,
    challengeWindowMs: nat,
    lastActiveMs: nat,
    tlpDeadlineMs: nat,
    tlpSent: bool,
    keepaliveProbes: nat,
    nextSendMs: nat)

  datatype Conn = Conn(
    state: State,
    send: Send,
    recv: Recv,
    retx: Retransmit.Retx,
    rtt: Rtt.Rtt,
    reasm: Reassembly.Reasm,
    cong: Congestion.Control,
    sendBuf: seq<byte>,
    recvBuf: seq<byte>,
    peerFin: bool,
    pendingFin: Option<u32>,
    recover: u32,
    opt: Settings,
    clock: Clock)

  // ---- building segments ----

  function TsOptions(c: Conn): Options {
    if c.opt.tsEnabled then NO_OPTIONS.(ts := Some(Stamp(c.opt.tsVal, c.opt.tsRecent))) else NO_OPTIONS
  }

  function Segment(c: Conn, seqno: u32, ackno: u32, flags: byte, payload: seq<byte>): Seg {
    Seg(seqno, ackno, flags, c.recv.wnd, TsOptions(c), payload)
  }

  function BareAck(c: Conn): Seg {
    Segment(c, c.send.nxt, c.recv.nxt, ACK, [])
  }

  function FirstBlocks(bs: seq<Block>): seq<Block> {
    if |bs| <= MAX_SACK_BLOCKS then bs else bs[..MAX_SACK_BLOCKS]
  }

  function AckOptions(c: Conn): Options {
    if c.opt.sackOk then TsOptions(c).(sack := FirstBlocks(Reassembly.SackBlocks(c.reasm))) else TsOptions(c)
  }

  // ---- opening ----

  function Fresh(state: State, iss: u32, irs: u32, rcvNxt: u32, budget: Budget, now: nat): Conn {
    Conn(state, Send(iss, iss, Add(iss, 1), RCV_WND, RCV_WND), Recv(irs, rcvNxt, RCV_WND), Retransmit.EMPTY, Rtt.FRESH,
         Reassembly.Reasm(rcvNxt, map[]), Congestion.CubicArm(Congestion.CUBIC_INIT), [], [], false, None, iss,
         Settings(true, OUR_MSS, false, 0, Low32(now), 0, false, false), Clock(0, 0, budget, now, now, 0, false, 0, 0))
  }

  /** Active open: the connection and its SYN. */
  function Connect(iss: u32, budget: Budget, now: nat): (Conn, Seg) {
    var c := Fresh(SynSent, iss, 0, 0, budget, now);
    var opts := Options(Some(OUR_MSS), Some(Stamp(c.opt.tsVal, 0)), Some(OUR_WSCALE), true, []);
    var syn := Seg(iss, 0, SYN, RCV_WND, opts, []);
    (c.(retx := Retransmit.Record(c.retx, iss, c.send.nxt, syn, now)), syn)
  }

  /** Passive open on a SYN: the connection and its SYN-ACK, or nothing. */
  function Accept(s: Seg, iss: u32, budget: Budget, now: nat): Option<(Conn, Seg)> {
    if !Has(s.flags, SYN) then None else
      var c := Fresh(SynRcvd, iss, s.seqno, Add(s.seqno, 1), budget, now);
      var c := c.(opt := c.opt.(
        sendMss := if s.opts.mss.Some? then Min(s.opts.mss.value, OUR_MSS) else OUR_MSS,
        tsEnabled := s.opts.ts.Some?,
        tsRecent := if s.opts.ts.Some? then s.opts.ts.value.val else 0,
        sndWscale := if s.opts.wscale.Some? then s.opts.wscale.value else 0,
        sackOk := s.opts.sackPermitted));
      var opts := Options(Some(OUR_MSS), if c.opt.tsEnabled then Some(Stamp(c.opt.tsVal, c.opt.tsRecent)) else None,
                          if s.opts.wscale.Some? then Some(OUR_WSCALE) else None, c.opt.sackOk, []);
      var synAck := Seg(iss, c.recv.nxt, SYN + ACK, RCV_WND, opts, []);
      Some((c.(retx := Retransmit.Record(c.retx, iss, c.send.nxt, synAck, now)), synAck))
  }

  // ---- the application's side ----

  /** Every entry point first refreshes the timestamp clock. */
  function Stamped(c: Conn, now: nat): Conn {
    c.(opt := c.opt.(tsVal := Low32(now)))
  }

  function Write(c: Conn, data: seq<byte>): Conn {
    c.(sendBuf := c.sendBuf + data)
  }

  function Take(c: Conn): (Conn, seq<byte>) {
    (c.(recvBuf := []), c.recvBuf)
  }

  function Close(c: Conn, now: nat): (Conn, Option<Seg>) {
    if c.state != Established && c.state != CloseWait then (c, None) else
      var c := Stamped(c, now);
      var fin := Segment(c, c.send.nxt, c.recv.nxt, FIN + ACK, []);
      var end := Add(c.send.nxt, 1);
      (c.(state := if c.state == Established then FinWait1 else LastAck,
          retx := Retransmit.Record(c.retx, c.send.nxt, end, fin, now),
          send := c.send.(nxt := end)), Some(fin))
  }

  // ---- receiving ----

  predicate Synchronized(s: State) {
    s != SynSent && s != SynRcvd && s != Closed
  }

  predicate InWindow(c: Conn, seqno: u32) {
    !Before(seqno, c.recv.nxt) && Before(seqno, Add(c.recv.nxt, c.recv.wnd))
  }

  predicate AckAcceptable(c: Conn, ack: u32) {
    !Before(ack, Sub(c.send.una, c.send.maxWnd)) && !After(ack, c.send.nxt)
  }

  function MaybeChallenge(c: Conn, env: Env, now: nat): (Conn, Option<Seg>) {
    var c := if SatSub(now, c.clock.challengeWindowMs) >= CHALLENGE_WINDOW_MS || now < c.clock.challengeWindowMs
             then c.(clock := c.clock.(challengeWindowMs := now, challengeBudget := env.budget)) else c;
    if c.clock.challengeBudget == 0 then (c, None)
    else (c.(clock := c.clock.(challengeBudget := c.clock.challengeBudget - 1)), Some(BareAck(c)))
  }

  function OnRst(c: Conn, s: Seg, env: Env, now: nat): (Conn, Option<Seg>) {
    if c.state == SynSent then
      (if Has(s.flags, ACK) && s.ackno == c.send.nxt then c.(state := Closed) else c, None)
    else if c.state == TimeWait then (c, None)
    else if s.seqno == c.recv.nxt then (c.(state := Closed), None)
    else if InWindow(c, s.seqno) then MaybeChallenge(c, env, now)
    else (c, None)
  }

  function OnSynSent(c: Conn, s: Seg, now: nat): (Conn, Option<Seg>) {
    if Has(s.flags, SYN) && Has(s.flags, ACK) && s.ackno == c.send.nxt then
      var nxt := Add(s.seqno, 1);
      var c := c.(
        recv := c.recv.(irs := s.seqno, nxt := nxt),
        reasm := Reassembly.Reasm(nxt, map[]),
        send := c.send.(una := s.ackno),
        opt := c.opt.(
          sendMss := if s.opts.mss.Some? then Min(s.opts.mss.value, OUR_MSS) else c.opt.sendMss,
          tsEnabled := c.opt.tsEnabled || s.opts.ts.Some?,
          tsRecent := if s.opts.ts.Some? then s.opts.ts.value.val else c.opt.tsRecent,
          sndWscale := if s.opts.wscale.Some? then s.opts.wscale.value else c.opt.sndWscale,
          sackOk := c.opt.sackOk || s.opts.sackPermitted),
        retx := Retransmit.Ack(c.retx, s.ackno, now).0,
        state := Established);
      (c, Some(BareAck(c)))
    else (c, None)
  }

  /** Feed data to the reassembler; what comes out in order goes to the application. */
  function Deliver(c: Conn, seqno: u32, payload: seq<byte>): Conn {
    if payload == [] then c else
      var r := Reassembly.Recv(c.reasm, seqno, payload, c.recv.nxt);
      c.(reasm := r.0, recv := c.recv.(nxt := Add(c.recv.nxt, Low32(|r.1|))), recvBuf := c.recvBuf + r.1)
  }

  const SHIFTS: seq<nat> := [1, 2, 4, 8, 16, 32, 64, 128, 256, 512, 1024, 2048, 4096, 8192, 16384]

  lemma ScaledFits(window: u16, shift: Shift)
    ensures 0 <= window * SHIFTS[shift] <= 65535 * 16384
  {
    var p := SHIFTS[shift];
    assert 0 <= p <= 16384;
    assert window * p <= 65535 * p <= 65535 * 16384;
  }

  /** The advertised window, left-shifted by the negotiated scale. */
  function Scaled(window: u16, shift: Shift): Wnd {
    ScaledFits(window, shift);
    window * SHIFTS[shift]
  }

  function FlightSize(c: Conn): u32 {
    Sub(c.send.nxt, c.send.una)
  }

  /** The round-trip sample of a new ACK: from the echoed timestamp, or from the queue. */
  function AckSample(c: Conn, s: Seg, now: nat): Option<nat> {
    if c.opt.tsEnabled then (if s.opts.ts.Some? then Some(Sub(c.opt.tsVal, s.opts.ts.value.ecr)) else None)
    else Retransmit.Ack(c.retx, s.ackno, now).1
  }

  /** SND.UNA, the queue and the timer after a new ACK. */
  function Acked(c: Conn, s: Seg, now: nat): Conn {
    var sample := AckSample(c, s, now);
    c.(send := c.send.(una := s.ackno), clock := c.clock.(tlpSent := false, tlpDeadlineMs := 0),
       retx := Retransmit.Ack(c.retx, s.ackno, now).0,
       rtt := if sample.Some? then Rtt.Sample(c.rtt, sample.value) else c.rtt)
  }

  /** Nothing else moves. */
  lemma AckedFrame(c: Conn, s: Seg, now: nat)
    ensures var a := Acked(c, s, now);
            a == c.(send := c.send.(una := s.ackno), clock := a.clock, rtt := a.rtt,
                    retx := Retransmit.Ack(c.retx, s.ackno, now).0)
  {
    hide AckSample, Rtt.Sample, Retransmit.Ack;
  }

  /** Resend the first hole; handling stops with it as the reply if there is one. */
  function RetransmitHole(c: Conn, now: nat): (Conn, Option<Seg>, bool) {
    var f := Retransmit.FastRetransmit(c.retx, now);
    (c.(retx := f.0), f.1, f.1.Some?)
  }

  /** An ACK that advances SND.UNA. The flag says whether handling stops here with the reply. */
  function OnNewAck(c: Conn, s: Seg, env: Env, now: nat): (Conn, Option<Seg>, bool) {
    var acked := Sub(s.ackno, c.send.una);
    if Congestion.InRecovery(c.cong) && Before(s.ackno, c.recover)
    then RetransmitHole(Acked(c, s, now).(cong := Congestion.OnPartialAck(c.cong, acked)), now)
    else (Acked(c, s, now).(cong := Congestion.OnAck(c.cong, acked, AckSample(c, s, now), env.curve, now)), None, false)
  }

  function OnDuplicateAck(c: Conn, now: nat): (Conn, Option<Seg>, bool) {
    var d := Congestion.OnDupAck(c.cong);
    if d.1 then RetransmitHole(c.(cong := d.0, recover := c.send.nxt), now)
    else (c.(cong := d.0), None, false)
  }

  /** The acknowledgement field, in ESTABLISHED and CLOSE_WAIT. */
  function OnAckField(c: Conn, s: Seg, prevWnd: u32, env: Env, now: nat): (Conn, Option<Seg>, bool) {
    if !AckAcceptable(c, s.ackno) then
      var r := MaybeChallenge(c, env, now);
      (r.0, r.1, true)
    else
      var c := if c.opt.sackOk && s.opts.sack != [] then c.(retx := Retransmit.MarkSacked(c.retx, s.opts.sack)) else c;
      if Between(c.send.una, s.ackno, c.send.nxt) then OnNewAck(c, s, env, now)
      else if s.ackno == c.send.una && c.send.una != c.send.nxt && s.payload == [] && c.send.wnd == prevWnd &&
              c.send.wnd != 0
      then OnDuplicateAck(c, now)
      else (c, None, false)
  }

  /** The FIN, now or deferred, and the reply, once the data is in. */
  function TextTail(c: Conn, s: Seg): (Conn, Option<Seg>) {
    var finSeq := Add(s.seqno, Low32(|s.payload|));
    if Has(s.flags, FIN) && c.state == CloseWait && !After(finSeq, c.recv.nxt) then (c, Some(BareAck(c)))
    else
      var c := if Has(s.flags, FIN) && c.state == Established && !Before(finSeq, c.recv.nxt)
               then c.(pendingFin := Some(finSeq)) else c;
      if c.state == Established && c.pendingFin == Some(c.recv.nxt) then
        var c := c.(recv := c.recv.(nxt := Add(c.recv.nxt, 1)), pendingFin := None, peerFin := true, state := CloseWait);
        (c, Some(BareAck(c)))
      else if s.payload != [] then (c, Some(BareAck(c).(opts := AckOptions(c))))
      else (c, None)
  }

  /** Data and FIN, in ESTABLISHED and CLOSE_WAIT. */
  function OnText(c: Conn, s: Seg): (Conn, Option<Seg>) {
    TextTail(Deliver(c, s.seqno, s.payload), s)
  }

  predicate Paws(c: Conn, s: Seg) {
    c.opt.tsEnabled && s.opts.ts.Some? && Before(s.opts.ts.value.val, c.opt.tsRecent)
  }

  /** PAWS bookkeeping and the window update. */
  function Refresh(c: Conn, s: Seg): Conn {
    var wnd := Scaled(s.window, c.opt.sndWscale);
    var recent := if c.opt.tsEnabled && s.opts.ts.Some? && !After(s.seqno, c.recv.nxt)
                  then s.opts.ts.value.val else c.opt.tsRecent;
    c.(opt := c.opt.(tsRecent := recent), send := c.send.(wnd := wnd, maxWnd := Max(c.send.maxWnd, wnd)))
  }

  function OnOpen(c: Conn, s: Seg, env: Env, now: nat): (Conn, Option<Seg>) {
    if Paws(c, s) then (c, Some(BareAck(c))) else
      var prevWnd := c.send.wnd;
      var c := Refresh(c, s);
      var r := if Has(s.flags, ACK) then OnAckField(c, s, prevWnd, env, now) else (c, None, false);
      if r.2 then (r.0, r.1) else OnText(r.0, s)
  }

  function Linger(c: Conn, now: nat): Conn {
    c.(state := TimeWait, clock := c.clock.(timeWaitMs := now))
  }

  function OnLastAck(c: Conn, s: Seg, now: nat): Conn {
    if Has(s.flags, ACK) && s.ackno == c.send.nxt
    then c.(retx := Retransmit.Ack(c.retx, s.ackno, now).0, state := Closed) else c
  }

  /** The end of FIN_WAIT_1 and FIN_WAIT_2 alike: the peer's FIN in order, or data to acknowledge. */
  function FinTail(c: Conn, s: Seg, finAcked: bool, now: nat): (Conn, Option<Seg>) {
    if Has(s.flags, FIN) && Add(s.seqno, Low32(|s.payload|)) == c.recv.nxt then
      var c := c.(recv := c.recv.(nxt := Add(c.recv.nxt, 1)), peerFin := true);
      (if finAcked then Linger(c, now) else c.(state := Closing), Some(BareAck(c)))
    else
      (if finAcked then c.(state := FinWait2) else c, if s.payload != [] then Some(BareAck(c)) else None)
  }

  function OnFinWait1(c: Conn, s: Seg, now: nat): (Conn, Option<Seg>) {
    var finAcked := Has(s.flags, ACK) && s.ackno == c.send.nxt;
    var c := if finAcked then c.(retx := Retransmit.Ack(c.retx, s.ackno, now).0) else c;
    FinTail(Deliver(c, s.seqno, s.payload), s, finAcked, now)
  }

  function OnFinWait2(c: Conn, s: Seg, now: nat): (Conn, Option<Seg>) {
    FinTail(Deliver(c, s.seqno, s.payload), s, true, now)
  }

  function OnClosing(c: Conn, s: Seg, now: nat): Conn {
    if Has(s.flags, ACK) && s.ackno == c.send.nxt
    then Linger(c.(retx := Retransmit.Ack(c.retx, s.ackno, now).0), now) else c
  }

  function Arrive(c: Conn, now: nat): Conn {
    Stamped(c, now).(clock := c.clock.(lastActiveMs := now, keepaliveProbes := 0))
  }

  /** The final ACK of a passive open. */
  function Establish(c: Conn, s: Seg, now: nat): Conn {
    c.(send := c.send.(una := s.ackno), retx := Retransmit.Ack(c.retx, s.ackno, now).0, state := Established)
  }

  /** A segment for a connection past its handshake. */
  function OnSynced(c: Conn, s: Seg, env: Env, now: nat): (Conn, Option<Seg>) {
    match c.state
    case Established => OnOpen(c, s, env, now)
    case CloseWait => OnOpen(c, s, env, now)
    case LastAck => (OnLastAck(c, s, now), None)
    case FinWait1 => OnFinWait1(c, s, now)
    case FinWait2 => OnFinWait2(c, s, now)
    case Closing => (OnClosing(c, s, now), None)
    case _ => (c, None)
  }

  function Dispatch(c: Conn, s: Seg, env: Env, now: nat): (Conn, Option<Seg>) {
    if Has(s.flags, RST) then OnRst(c, s, env, now)
    else if c.state == SynSent then OnSynSent(c, s, now)
    else if Has(s.flags, SYN) && Synchronized(c.state) then MaybeChallenge(c, env, now)
    else if c.state == SynRcvd then
      if Has(s.flags, ACK) && s.ackno == c.send.nxt then OnSynced(Establish(c, s, now), s, env, now) else (c, None)
    else OnSynced(c, s, env, now)
  }

  function OnSegment(c: Conn, s: Seg, env: Env, now: nat): (Conn, Option<Seg>) {
    Dispatch(Arrive(c, now), s, env, now)
  }

  // ---- timers ----

  /** TIME_WAIT expiry and the half-closed reaper. */
  function Reap(c: Conn, now: nat): Conn {
    if (c.state == TimeWait && SatSub(now, c.clock.timeWaitMs) >= TIME_WAIT_MS)
       || (c.state == FinWait2 && SatSub(now, c.clock.lastActiveMs) >= FIN_WAIT2_TIMEOUT_MS)
       || (c.state == CloseWait && SatSub(now, c.clock.lastActiveMs) >= CLOSE_WAIT_TIMEOUT_MS)
    then c.(state := Closed) else c
  }

  function TickRack(c: Conn, now: nat): (Conn, seq<Seg>) {
    var r := Retransmit.RackMarkLost(c.retx, now, Max(Rtt.Rto(c.rtt) / 4, 1));
    (c.(retx := r.0), r.1)
  }

  function TickProbe(c: Conn, now: nat): (Conn, seq<Seg>) {
    if c.clock.tlpDeadlineMs != 0 && now >= c.clock.tlpDeadlineMs && FlightSize(c) > 0 && !Congestion.InRecovery(c.cong) &&
       !c.clock.tlpSent then
      var r := Retransmit.RetransmitLast(c.retx, now);
      (c.(retx := r.0, clock := c.clock.(tlpSent := r.1.Some? || c.clock.tlpSent, tlpDeadlineMs := 0)),
       if r.1.Some? then [r.1.value] else [])
    else (c, [])
  }

  function TickRto(c: Conn, now: nat): (Conn, seq<Seg>) {
    var r := Retransmit.Due(c.retx, now, Rtt.Rto(c.rtt));
    if r.1 == [] then (c.(retx := r.0), [])
    else (c.(retx := r.0, cong := Congestion.OnTimeout(c.cong), rtt := Rtt.BackOff(c.rtt)), r.1)
  }

  /** Send the first n bytes of the send buffer as one segment and queue it. */
  function Transmit(c: Conn, n: nat, flags: byte, now: nat): (Conn, Seg)
    requires n <= |c.sendBuf|
  {
    var p := Segment(c, c.send.nxt, c.recv.nxt, flags, c.sendBuf[..n]);
    var end := Add(c.send.nxt, Low32(n));
    (c.(sendBuf := c.sendBuf[n..], send := c.send.(nxt := end),
        retx := Retransmit.Record(c.retx, Sub(end, Low32(n)), end, p, now)), p)
  }

  predicate WindowShut(c: Conn) {
    (c.state == Established || c.state == CloseWait) && c.send.wnd == 0 && c.sendBuf != [] && FlightSize(c) == 0
  }

  function Persist(c: Conn, at: nat): Conn {
    c.(clock := c.clock.(persistMs := at))
  }

  function TickPersist(c: Conn, now: nat): (Conn, seq<Seg>) {
    if !WindowShut(c) then (Persist(c, 0), [])
    else if c.clock.persistMs == 0 then (Persist(c, now + Rtt.Rto(c.rtt)), [])
    else if now < c.clock.persistMs then (c, [])
    else
      var t := Transmit(c, 1, ACK, now);
      (Persist(t.0, 0), [t.1])
  }

  function TickKeepalive(c: Conn, now: nat): (Conn, seq<Seg>) {
    if c.opt.keepaliveEnabled && c.state == Established && FlightSize(c) == 0 && c.sendBuf == [] &&
       now >= c.clock.lastActiveMs + KEEPALIVE_IDLE_MS + c.clock.keepaliveProbes * KEEPALIVE_INTVL_MS then
      if c.clock.keepaliveProbes >= KEEPALIVE_PROBES then (c.(state := Closed), [])
      else
        (c.(clock := c.clock.(keepaliveProbes := c.clock.keepaliveProbes + 1)),
         [Segment(c, Sub(c.send.nxt, 1), c.recv.nxt, ACK, [])])
    else (c, [])
  }

  function OnTick(c: Conn, now: nat): (Conn, seq<Seg>) {
    var c := Reap(Stamped(c, now), now);
    var a := TickRack(c, now);
    var b := TickProbe(a.0, now);
    var d := TickRto(b.0, now);
    var e := TickPersist(d.0, now);
    var f := TickKeepalive(e.0, now);
    (f.0, a.1 + b.1 + d.1 + e.1 + f.1)
  }

  // ---- sending ----

  function SendLimit(c: Conn): u32 {
    Min(c.send.wnd, Congestion.Cwnd(c.cong))
  }

  function UsableWindow(c: Conn): nat {
    SatSub(SendLimit(c), FlightSize(c))
  }

  /** Retransmit untried holes, oldest first, while the pipe is below the limit. */
  function FillHoles(q: Retransmit.Retx, limit: u32, now: nat): (Retransmit.Retx, seq<Seg>)
    decreases Retransmit.NeverResent(q.segs)
  {
    if Retransmit.Pipe(q) >= limit then (q, []) else
      var at := Retransmit.NextUntried(q.segs, 0);
      if at.None? then (q, []) else
        Retransmit.NeverResentDrops(q.segs, at.value, now);
        var r := Retransmit.NextLostRetransmit(q, now);
        var rest := FillHoles(r.0, limit, now);
        (rest.0, [r.1.value] + rest.1)
  }

  /** Send new data while the pipe is below the limit. */
  function FillPipe(c: Conn, limit: u32, now: nat): (Conn, seq<Seg>)
    decreases |c.sendBuf|
  {
    var pipe := Retransmit.Pipe(c.retx);
    if c.sendBuf == [] || pipe >= limit then (c, []) else
      var n := Min(Min(limit - pipe, c.opt.sendMss), |c.sendBuf|);
      if n == 0 then (c, []) else
        var t := Transmit(c, n, PSH + ACK, now);
        var rest := FillPipe(t.0, limit, now);
        (rest.0, [t.1] + rest.1)
  }

  function Ceil(x: real): int {
    -((-x).Floor)
  }

  /** The window, Nagle and pacing gates for one more segment: how much may go, 0 for none. */
  function NextSend(c: Conn, pacing: real, now: nat): nat {
    var n := Min(Min(UsableWindow(c), c.opt.sendMss), |c.sendBuf|);
    if c.opt.nagle && n < c.opt.sendMss && FlightSize(c) > 0 then 0
    else if pacing > 0.0 && now < c.clock.nextSendMs then 0
    else n
  }

  function Pace(c: Conn, pacing: real, n: nat, now: nat): Conn {
    if pacing > 0.0 then c.(clock := c.clock.(nextSendMs := now + Max(Ceil(n as real * 1000.0 / pacing), 1))) else c
  }

  function FillWindow(c: Conn, pacing: real, now: nat): (Conn, seq<Seg>)
    decreases |c.sendBuf|
  {
    if c.sendBuf == [] then (c, []) else
      var n := NextSend(c, pacing, now);
      if n == 0 then (c, []) else
        var t := Transmit(Pace(c, pacing, n, now), n, PSH + ACK, now);
        var rest := FillWindow(t.0, pacing, now);
        (rest.0, [t.1] + rest.1)
  }

  /** Arm or disarm the Tail Loss Probe. */
  function ArmProbe(c: Conn, now: nat): Conn {
    if FlightSize(c) > 0 && c.sendBuf == [] && !Congestion.InRecovery(c.cong) then
      if c.clock.tlpDeadlineMs == 0 then c.(clock := c.clock.(tlpDeadlineMs := now + Max(Rtt.Rto(c.rtt) / 2, 1))) else c
    else c.(clock := c.clock.(tlpDeadlineMs := 0, tlpSent := false))
  }

  function PollTransmit(c: Conn, now: nat): (Conn, seq<Seg>) {
    if c.state != Established && c.state != CloseWait then (c, []) else
      var c := Stamped(c, now);
      if c.opt.sackOk && Congestion.InRecovery(c.cong) then
        var limit := SendLimit(c);
        var holes := FillHoles(c.retx, limit, now);
        var fill := FillPipe(c.(retx := holes.0), limit, now);
        (fill.0, holes.1 + fill.1)
      else
        var fill := FillWindow(c, Congestion.PacingRate(c.cong), now);
        (ArmProbe(fill.0, now), fill.1)
  }
}
