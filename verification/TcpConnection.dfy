/** One TCP connection as an object (`Connection` in src/tcp.rs), updated in place. Every method
    computes what the function of the same name in `Connection` says about the old state. */
module TcpConnections {
  import opened Types
  import opened SeqNum
  import opened Segments
  import opened Connection
  import Retransmit
  import Reassembly
  import Congestion
  import R = Rtt
  import opened RetxQueues
  import opened Reassemblers
  import opened RttEstimators

  class TcpConnection {
    var state: State
    var send: Send
    var recv: Recv
    const retx: RetxQueue
    const rtt: RttEstimator
    const reasm: Reassembler
    var cong: Congestion.Control
    var sendBuf: seq<byte>
    var recvBuf: seq<byte>
    var peerFin: bool
    var pendingFin: Option<u32>
    var recover: u32
    var opt: Settings
    var clock: Clock

    function View(): Conn
      reads this, retx, rtt, reasm
    {
      Conn(state, send, recv, retx.View(), rtt.View(), reasm.View(), cong, sendBuf, recvBuf, peerFin, pendingFin,
           recover, opt, clock)
    }

    // ---- opening ----

    constructor Fresh(state: State, iss: u32, irs: u32, rcvNxt: u32, budget: Budget, now: nat)
      ensures View() == Connection.Fresh(state, iss, irs, rcvNxt, budget, now)
      ensures fresh(retx) && fresh(rtt) && fresh(reasm)
    {
      this.state := state;
      send := Send(iss, iss, Add(iss, 1), RCV_WND, RCV_WND);
      recv := Recv(irs, rcvNxt, RCV_WND);
      retx := new RetxQueue();
      rtt := new RttEstimator();
      reasm := new Reassembler(rcvNxt);
      cong := Congestion.CubicArm(Congestion.CUBIC_INIT);
      sendBuf, recvBuf, peerFin, pendingFin, recover := [], [], false, None, iss;
      opt := Settings(true, OUR_MSS, false, 0, Low32(now), 0, false, false);
      clock := Clock(0, 0, budget, now, now, 0, false, 0, 0);
    }

    /** Active open. */
    static method Connect(iss: u32, budget: Budget, now: nat) returns (c: TcpConnection, syn: Seg)
      ensures fresh(c) && fresh(c.retx) && fresh(c.rtt) && fresh(c.reasm)
      ensures (c.View(), syn) == Connection.Connect(iss, budget, now)
    {
      c := new TcpConnection.Fresh(SynSent, iss, 0, 0, budget, now);
      var opts := Options(Some(OUR_MSS), Some(Stamp(c.opt.tsVal, 0)), Some(OUR_WSCALE), true, []);
      syn := Seg(iss, 0, SYN, RCV_WND, opts, []);
      c.retx.Record(c.send.iss, c.send.nxt, syn, now);
    }

    /** Passive open: nothing unless the segment is a SYN. */
    static method Accept(s: Seg, iss: u32, budget: Budget, now: nat) returns (c: TcpConnection?, synAck: Option<Seg>)
      ensures c == null <==> Connection.Accept(s, iss, budget, now).None?
      ensures c != null ==> synAck.Some? && fresh(c) && fresh(c.retx) && fresh(c.rtt) && fresh(c.reasm)
      ensures c != null ==> Some((c.View(), synAck.value)) == Connection.Accept(s, iss, budget, now)
    {
      if !Has(s.flags, SYN) {
        return null, None;
      }
      c := new TcpConnection.Fresh(SynRcvd, iss, s.seqno, Add(s.seqno, 1), budget, now);
      c.opt := c.opt.(
        sendMss := if s.opts.mss.Some? then Min(s.opts.mss.value, OUR_MSS) else OUR_MSS,
        tsEnabled := s.opts.ts.Some?,
        tsRecent := if s.opts.ts.Some? then s.opts.ts.value.val else 0,
        sndWscale := if s.opts.wscale.Some? then s.opts.wscale.value else 0,
        sackOk := s.opts.sackPermitted);
      var opts := Options(Some(OUR_MSS), if c.opt.tsEnabled then Some(Stamp(c.opt.tsVal, c.opt.tsRecent)) else None,
                          if s.opts.wscale.Some? then Some(OUR_WSCALE) else None, c.opt.sackOk, []);
      var p := Seg(c.send.iss, c.recv.nxt, SYN + ACK, RCV_WND, opts, []);
      c.retx.Record(c.send.iss, c.send.nxt, p, now);
      synAck := Some(p);
    }

    // ---- building segments ----

    function TsOpts(): Options
      reads this
    {
      if opt.tsEnabled then NO_OPTIONS.(ts := Some(Stamp(opt.tsVal, opt.tsRecent))) else NO_OPTIONS
    }

    function Packet(seqno: u32, ackno: u32, flags: byte, payload: seq<byte>): Seg
      reads this
    {
      Seg(seqno, ackno, flags, recv.wnd, TsOpts(), payload)
    }

    function FlightSize(): u32
      reads this
    {
      Sub(send.nxt, send.una)
    }

    // ---- the application's side ----

    method Write(data: seq<byte>)
      modifies this
      ensures View() == Connection.Write(old(View()), data)
    {
      sendBuf := sendBuf + data;
    }

    method TakeReceived() returns (data: seq<byte>)
      modifies this
      ensures (View(), data) == Connection.Take(old(View()))
    {
      data := recvBuf;
      recvBuf := [];
    }

    method Close(now: nat) returns (fin: Option<Seg>)
      modifies this, retx
      ensures (View(), fin) == Connection.Close(old(View()), now)
    {
      if state != Established && state != CloseWait {
        return None;
      }
      opt := opt.(tsVal := Low32(now));
      var p := Packet(send.nxt, recv.nxt, FIN + ACK, []);
      var start := send.nxt;
      send := send.(nxt := Add(send.nxt, 1));
      retx.Record(start, send.nxt, p, now);
      state := if state == Established then FinWait1 else LastAck;
      return Some(p);
    }

    // ---- arriving segments ----

    method MaybeChallenge(env: Env, now: nat) returns (reply: Option<Seg>)
      modifies this
      ensures (View(), reply) == Connection.MaybeChallenge(old(View()), env, now)
    {
      if SatSub(now, clock.challengeWindowMs) >= CHALLENGE_WINDOW_MS || now < clock.challengeWindowMs {
        clock := clock.(challengeWindowMs := now, challengeBudget := env.budget);
      }
      if clock.challengeBudget == 0 {
        return None;
      }
      clock := clock.(challengeBudget := clock.challengeBudget - 1);
      return Some(Packet(send.nxt, recv.nxt, ACK, []));
    }

    method OnRst(s: Seg, env: Env, now: nat) returns (reply: Option<Seg>)
      modifies this
      ensures (View(), reply) == Connection.OnRst(old(View()), s, env, now)
    {
      reply := None;
      if state == SynSent {
        if Has(s.flags, ACK) && s.ackno == send.nxt {
          state := Closed;
        }
      } else if state != TimeWait {
        if s.seqno == recv.nxt {
          state := Closed;
        } else if InWindow(View(), s.seqno) {
          reply := MaybeChallenge(env, now);
        }
      }
    }

    method OnSynSent(s: Seg, now: nat) returns (reply: Option<Seg>)
      modifies this, retx, reasm
      ensures (View(), reply) == Connection.OnSynSent(old(View()), s, now)
    {
      hide Retransmit.Ack;
      if !(Has(s.flags, SYN) && Has(s.flags, ACK) && s.ackno == send.nxt) {
        return None;
      }
      Negotiate(s);
      recv := recv.(irs := s.seqno, nxt := Add(s.seqno, 1));
      reasm.Rebase(recv.nxt);
      send := send.(una := s.ackno);
      var _ := retx.Ack(send.una, now);
      state := Established;
      return Some(Packet(send.nxt, recv.nxt, ACK, []));
    }

    /** Adopt what the SYN-ACK's options settle. */
    method Negotiate(s: Seg)
      modifies this
      ensures View() == old(View()).(opt := old(opt).(
        sendMss := if s.opts.mss.Some? then Min(s.opts.mss.value, OUR_MSS) else old(opt).sendMss,
        tsEnabled := old(opt).tsEnabled || s.opts.ts.Some?,
        tsRecent := if s.opts.ts.Some? then s.opts.ts.value.val else old(opt).tsRecent,
        sndWscale := if s.opts.wscale.Some? then s.opts.wscale.value else old(opt).sndWscale,
        sackOk := old(opt).sackOk || s.opts.sackPermitted))
    {
      var o := opt;
      if s.opts.mss.Some? {
        o := o.(sendMss := Min(s.opts.mss.value, OUR_MSS));
      }
      if s.opts.ts.Some? {
        o := o.(tsEnabled := true, tsRecent := s.opts.ts.value.val);
      }
      if s.opts.wscale.Some? {
        o := o.(sndWscale := s.opts.wscale.value);
      }
      if s.opts.sackPermitted {
        o := o.(sackOk := true);
      }
      opt := o;
    }

    method Deliver(seqno: u32, payload: seq<byte>)
      modifies this, reasm
      ensures View() == Connection.Deliver(old(View()), seqno, payload)
    {
      hide Reassembly.Recv;
      if payload != [] {
        var delivered := reasm.Recv(seqno, payload, recv.nxt);
        if delivered != [] {
          recv := recv.(nxt := Add(recv.nxt, Low32(|delivered|)));
          recvBuf := recvBuf + delivered;
        } else {
          assert recvBuf + delivered == recvBuf;
        }
      }
    }

    /** SND.UNA, the queue and the timer after a new ACK. */
    method Acked(s: Seg, now: nat) returns (sample: Option<nat>)
      modifies this, retx, rtt
      ensures sample == Connection.AckSample(old(View()), s, now)
      ensures View() == Connection.Acked(old(View()), s, now)
    {
      hide Retransmit.Ack, R.Sample;
      send := send.(una := s.ackno);
      clock := clock.(tlpSent := false, tlpDeadlineMs := 0);
      sample := None;
      if opt.tsEnabled {
        if s.opts.ts.Some? {
          sample := Some(Sub(opt.tsVal, s.opts.ts.value.ecr));
        }
        var _ := retx.Ack(send.una, now);
      } else {
        sample := retx.Ack(send.una, now);
      }
      if sample.Some? {
        rtt.Sample(sample.value);
      }
    }

    /** The acknowledgement field, in ESTABLISHED and CLOSE_WAIT; `stop` if handling ends here. */
    method OnAckField(s: Seg, prevWnd: u32, env: Env, now: nat) returns (reply: Option<Seg>, stop: bool)
      modifies this, retx, rtt
      ensures (View(), reply, stop) == Connection.OnAckField(old(View()), s, prevWnd, env, now)
    {
      hide Retransmit.MarkSacked, Connection.OnNewAck, Connection.OnDuplicateAck, Connection.MaybeChallenge;
      if !AckAcceptable(View(), s.ackno) {
        reply := MaybeChallenge(env, now);
        return reply, true;
      }
      if opt.sackOk && s.opts.sack != [] {
        retx.MarkSacked(s.opts.sack);
      }
      if Between(send.una, s.ackno, send.nxt) {
        reply, stop := OnNewAck(s, env, now);
      } else if s.ackno == send.una && send.una != send.nxt && s.payload == [] && send.wnd == prevWnd && send.wnd != 0 {
        reply, stop := OnDuplicateAck(now);
      } else {
        reply, stop := None, false;
      }
    }

    method OnNewAck(s: Seg, env: Env, now: nat) returns (reply: Option<Seg>, stop: bool)
      modifies this, retx, rtt
      ensures (View(), reply, stop) == Connection.OnNewAck(old(View()), s, env, now)
    {
      hide Connection.Acked, Connection.AckSample, Congestion.OnAck, Congestion.OnPartialAck, Retransmit.FastRetransmit;
      AckedFrame(View(), s, now);
      var acked := Sub(s.ackno, send.una);
      var sample := Acked(s, now);
      if Congestion.InRecovery(cong) && Before(s.ackno, recover) {
        cong := Congestion.OnPartialAck(cong, acked);
        reply := retx.FastRetransmit(now);
        stop := reply.Some?;
      } else {
        cong := Congestion.OnAck(cong, acked, sample, env.curve, now);
        reply, stop := None, false;
      }
    }

    method OnDuplicateAck(now: nat) returns (reply: Option<Seg>, stop: bool)
      modifies this, retx
      ensures (View(), reply, stop) == Connection.OnDuplicateAck(old(View()), now)
    {
      hide Congestion.OnDupAck, Retransmit.FastRetransmit;
      var d := Congestion.OnDupAck(cong);
      cong := d.0;
      reply, stop := None, false;
      if d.1 {
        recover := send.nxt;
        reply := retx.FastRetransmit(now);
        stop := reply.Some?;
      }
    }

    /** Data and FIN, in ESTABLISHED and CLOSE_WAIT. */
    method OnText(s: Seg) returns (reply: Option<Seg>)
      modifies this, reasm
      ensures (View(), reply) == Connection.OnText(old(View()), s)
    {
      hide Connection.Deliver;
      Deliver(s.seqno, s.payload);
      if Has(s.flags, FIN) {
        var finSeq := Add(s.seqno, Low32(|s.payload|));
        if state == CloseWait && !After(finSeq, recv.nxt) {
          return Some(Packet(send.nxt, recv.nxt, ACK, []));
        }
        if state == Established && !Before(finSeq, recv.nxt) {
          pendingFin := Some(finSeq);
        }
      }
      if state == Established && pendingFin == Some(recv.nxt) {
        ConsumeFin();
        pendingFin := None;
        state := CloseWait;
        return Some(Packet(send.nxt, recv.nxt, ACK, []));
      }
      if s.payload != [] {
        reply := AckWithSack();
      } else {
        reply := None;
      }
    }

    /** The FIN takes one sequence number, and the application now sees end of file. */
    method ConsumeFin()
      modifies this
      ensures View() == old(View()).(recv := old(recv).(nxt := Add(old(recv).nxt, 1)), peerFin := true)
    {
      recv := recv.(nxt := Add(recv.nxt, 1));
      peerFin := true;
    }

    /** An ACK that reports the buffered ranges, at most three of them. */
    method AckWithSack() returns (reply: Option<Seg>)
      ensures reply == Some(BareAck(View()).(opts := AckOptions(View())))
    {
      hide Reassembly.SackBlocks;
      var p := Packet(send.nxt, recv.nxt, ACK, []);
      if opt.sackOk {
        var blocks := reasm.SackBlocks();
        p := p.(opts := p.opts.(sack := FirstBlocks(blocks)));
      }
      return Some(p);
    }

    method OnOpen(s: Seg, env: Env, now: nat) returns (reply: Option<Seg>)
      modifies this, retx, rtt, reasm
      ensures (View(), reply) == Connection.OnOpen(old(View()), s, env, now)
    {
      hide Connection.OnAckField, Connection.OnText, Connection.Refresh;
      if opt.tsEnabled && s.opts.ts.Some? && Before(s.opts.ts.value.val, opt.tsRecent) {
        return Some(Packet(send.nxt, recv.nxt, ACK, []));
      }
      var prevWnd := send.wnd;
      Refresh(s);
      if Has(s.flags, ACK) {
        var stop;
        reply, stop := OnAckField(s, prevWnd, env, now);
        if stop {
          return;
        }
      }
      reply := OnText(s);
    }

    /** TS.Recent and the peer's window. */
    method Refresh(s: Seg)
      modifies this
      ensures View() == Connection.Refresh(old(View()), s)
    {
      if opt.tsEnabled && s.opts.ts.Some? {
        if !After(s.seqno, recv.nxt) {
          opt := opt.(tsRecent := s.opts.ts.value.val);
        }
      }
      var wnd := Scaled(s.window, opt.sndWscale);
      send := send.(wnd := wnd, maxWnd := Max(send.maxWnd, wnd));
    }

    method OnLastAck(s: Seg, now: nat)
      modifies this, retx
      ensures View() == Connection.OnLastAck(old(View()), s, now)
    {
      hide Retransmit.Ack;
      if Has(s.flags, ACK) && s.ackno == send.nxt {
        var _ := retx.Ack(s.ackno, now);
        state := Closed;
      }
    }

    method OnFinWait1(s: Seg, now: nat) returns (reply: Option<Seg>)
      modifies this, retx, reasm
      ensures (View(), reply) == Connection.OnFinWait1(old(View()), s, now)
    {
      hide Retransmit.Ack, Connection.Deliver, Connection.FinTail;
      var finAcked := Has(s.flags, ACK) && s.ackno == send.nxt;
      if finAcked {
        var _ := retx.Ack(s.ackno, now);
      }
      Deliver(s.seqno, s.payload);
      reply := FinTail(s, finAcked, now);
    }

    method OnFinWait2(s: Seg, now: nat) returns (reply: Option<Seg>)
      modifies this, reasm
      ensures (View(), reply) == Connection.OnFinWait2(old(View()), s, now)
    {
      hide Connection.Deliver, Connection.FinTail;
      Deliver(s.seqno, s.payload);
      reply := FinTail(s, true, now);
    }

    method FinTail(s: Seg, finAcked: bool, now: nat) returns (reply: Option<Seg>)
      modifies this
      ensures (View(), reply) == Connection.FinTail(old(View()), s, finAcked, now)
    {
      var finSeq := Add(s.seqno, Low32(|s.payload|));
      if Has(s.flags, FIN) && finSeq == recv.nxt {
        ConsumeFin();
        reply := Some(Packet(send.nxt, recv.nxt, ACK, []));
        if finAcked {
          state := TimeWait;
          clock := clock.(timeWaitMs := now);
        } else {
          state := Closing;
        }
        return;
      }
      if finAcked {
        state := FinWait2;
      }
      reply := if s.payload != [] then Some(Packet(send.nxt, recv.nxt, ACK, [])) else None;
    }

    method OnClosing(s: Seg, now: nat)
      modifies this, retx
      ensures View() == Connection.OnClosing(old(View()), s, now)
    {
      hide Retransmit.Ack;
      if Has(s.flags, ACK) && s.ackno == send.nxt {
        var _ := retx.Ack(s.ackno, now);
        state := TimeWait;
        clock := clock.(timeWaitMs := now);
      }
    }

    method OnSynced(s: Seg, env: Env, now: nat) returns (reply: Option<Seg>)
      modifies this, retx, rtt, reasm
      ensures (View(), reply) == Connection.OnSynced(old(View()), s, env, now)
    {
      hide Connection.OnOpen, Connection.OnLastAck, Connection.OnFinWait1, Connection.OnFinWait2, Connection.OnClosing;
      reply := None;
      if state == Established || state == CloseWait {
        reply := OnOpen(s, env, now);
      } else if state == LastAck {
        OnLastAck(s, now);
      } else if state == FinWait1 {
        reply := OnFinWait1(s, now);
      } else if state == FinWait2 {
        reply := OnFinWait2(s, now);
      } else if state == Closing {
        OnClosing(s, now);
      }
    }

    method Establish(s: Seg, now: nat)
      modifies this, retx
      ensures View() == Connection.Establish(old(View()), s, now)
    {
      hide Retransmit.Ack;
      send := send.(una := s.ackno);
      var _ := retx.Ack(send.una, now);
      state := Established;
    }

    method Dispatch(s: Seg, env: Env, now: nat) returns (reply: Option<Seg>)
      modifies this, retx, rtt, reasm
      ensures (View(), reply) == Connection.Dispatch(old(View()), s, env, now)
    {
      hide Connection.OnRst, Connection.OnSynSent, Connection.MaybeChallenge, Connection.Establish, Connection.OnSynced;
      if Has(s.flags, RST) {
        reply := OnRst(s, env, now);
        return;
      }
      if state == SynSent {
        reply := OnSynSent(s, now);
        return;
      }
      if Has(s.flags, SYN) && Synchronized(state) {
        reply := MaybeChallenge(env, now);
        return;
      }
      if state == SynRcvd {
        if !(Has(s.flags, ACK) && s.ackno == send.nxt) {
          return None;
        }
        Establish(s, now);
      }
      reply := OnSynced(s, env, now);
    }

    method OnSegment(s: Seg, env: Env, now: nat) returns (reply: Option<Seg>)
      modifies this, retx, rtt, reasm
      ensures (View(), reply) == Connection.OnSegment(old(View()), s, env, now)
    {
      hide Connection.Dispatch;
      opt := opt.(tsVal := Low32(now));
      clock := clock.(lastActiveMs := now, keepaliveProbes := 0);
      reply := Dispatch(s, env, now);
    }

    // ---- timers ----

    method Reap(now: nat)
      modifies this
      ensures View() == Connection.Reap(old(View()), now)
    {
      if state == TimeWait && SatSub(now, clock.timeWaitMs) >= TIME_WAIT_MS {
        state := Closed;
      }
      var idle := SatSub(now, clock.lastActiveMs);
      if (state == FinWait2 && idle >= FIN_WAIT2_TIMEOUT_MS) || (state == CloseWait && idle >= CLOSE_WAIT_TIMEOUT_MS) {
        state := Closed;
      }
    }

    method TickProbe(now: nat) returns (out: seq<Seg>)
      modifies this, retx
      ensures (View(), out) == Connection.TickProbe(old(View()), now)
    {
      hide Retransmit.RetransmitLast;
      out := [];
      if clock.tlpDeadlineMs != 0 && now >= clock.tlpDeadlineMs && FlightSize() > 0 && !Congestion.InRecovery(cong) &&
         !clock.tlpSent {
        var probe := retx.RetransmitLast(now);
        if probe.Some? {
          out := [probe.value];
          clock := clock.(tlpSent := true);
        }
        clock := clock.(tlpDeadlineMs := 0);
      }
    }

    method TickRto(now: nat) returns (out: seq<Seg>)
      modifies this, retx, rtt
      ensures (View(), out) == Connection.TickRto(old(View()), now)
    {
      hide Retransmit.Due, Congestion.OnTimeout, R.BackOff, R.Rto;
      var rto := rtt.Rto();
      out := retx.Due(now, rto);
      if out != [] {
        cong := Congestion.OnTimeout(cong);
        rtt.BackOff();
      }
    }

    method TickPersist(now: nat) returns (out: seq<Seg>)
      modifies this, retx
      ensures (View(), out) == Connection.TickPersist(old(View()), now)
    {
      hide Connection.Transmit, R.Rto;
      out := [];
      if (state == Established || state == CloseWait) && send.wnd == 0 && sendBuf != [] && FlightSize() == 0 {
        if clock.persistMs == 0 {
          var rto := rtt.Rto();
          clock := clock.(persistMs := now + rto);
        } else if now >= clock.persistMs {
          var probe := Transmit(1, ACK, now);
          out := [probe];
          clock := clock.(persistMs := 0);
        }
      } else {
        clock := clock.(persistMs := 0);
      }
    }

    method TickKeepalive(now: nat) returns (out: seq<Seg>)
      modifies this
      ensures (View(), out) == Connection.TickKeepalive(old(View()), now)
    {
      out := [];
      if opt.keepaliveEnabled && state == Established && FlightSize() == 0 && sendBuf == [] {
        var nextProbeAt := clock.lastActiveMs + KEEPALIVE_IDLE_MS + clock.keepaliveProbes * KEEPALIVE_INTVL_MS;
        if now >= nextProbeAt {
          if clock.keepaliveProbes >= KEEPALIVE_PROBES {
            state := Closed;
          } else {
            clock := clock.(keepaliveProbes := clock.keepaliveProbes + 1);
            out := [Packet(Sub(send.nxt, 1), recv.nxt, ACK, [])];
          }
        }
      }
    }

    method OnTick(now: nat) returns (out: seq<Seg>)
      modifies this, retx, rtt
      ensures (View(), out) == Connection.OnTick(old(View()), now)
    {
      hide Connection.Reap, Connection.TickProbe, Connection.TickRto, Connection.TickPersist, Connection.TickKeepalive;
      hide Retransmit.RackMarkLost, R.Rto;
      opt := opt.(tsVal := Low32(now));
      Reap(now);
      var rto := rtt.Rto();
      out := retx.RackMarkLost(now, Max(rto / 4, 1));
      var probe := TickProbe(now);
      var due := TickRto(now);
      var persist := TickPersist(now);
      var keepalive := TickKeepalive(now);
      out := out + probe + due + persist + keepalive;
    }

    // ---- sending ----

    method Transmit(n: nat, flags: byte, now: nat) returns (p: Seg)
      requires n <= |sendBuf|
      modifies this, retx
      ensures (View(), p) == Connection.Transmit(old(View()), n, flags, now)
    {
      var payload := sendBuf[..n];
      sendBuf := sendBuf[n..];
      p := Packet(send.nxt, recv.nxt, flags, payload);
      send := send.(nxt := Add(send.nxt, Low32(n)));
      retx.Record(Sub(send.nxt, Low32(n)), send.nxt, p, now);
    }

    /** Retransmit untried holes, oldest first, while the pipe is below the limit. */
    method FillHoles(limit: u32, now: nat) returns (out: seq<Seg>)
      modifies retx
      ensures (retx.View(), out) == Connection.FillHoles(old(retx.View()), limit, now)
    {
      hide Retransmit.Pipe;
      out := [];
      ghost var todo := Connection.FillHoles(retx.View(), limit, now).1;
      assert [] + todo == todo;
      var pipe := retx.Pipe();
      while pipe < limit
        invariant pipe == Retransmit.Pipe(retx.View())
        invariant HolesRest(old(retx.View()), retx.View(), limit, now, out)
        decreases Retransmit.NeverResent(retx.segments)
      {
        ghost var q := retx.View();
        ghost var at := Retransmit.NextUntried(q.segs, 0);
        var hole := retx.NextLostRetransmit(now);
        if hole.None? {
          break;
        }
        Retransmit.NeverResentDrops(q.segs, at.value, now);
        HolesOneMore(old(retx.View()), q, retx.View(), limit, now, out, hole.value);
        out := out + [hole.value];
        pipe := retx.Pipe();
      }
      assert out + [] == out;
    }

    /** What remains to be done from q, after `out`, is what was to be done from q0. */
    static ghost predicate HolesRest(q0: Retransmit.Retx, q: Retransmit.Retx, limit: u32, now: nat, out: seq<Seg>) {
      Connection.FillHoles(q0, limit, now) ==
      (Connection.FillHoles(q, limit, now).0, out + Connection.FillHoles(q, limit, now).1)
    }

    static lemma HolesOneMore(q0: Retransmit.Retx, q: Retransmit.Retx, q1: Retransmit.Retx, limit: u32, now: nat,
                              out: seq<Seg>, hole: Seg)
      requires HolesRest(q0, q, limit, now, out) && Retransmit.Pipe(q) < limit
      requires Retransmit.NextLostRetransmit(q, now) == (q1, Some(hole))
      ensures HolesRest(q0, q1, limit, now, out + [hole])
    {
      var rest := Connection.FillHoles(q1, limit, now).1;
      assert Connection.FillHoles(q, limit, now).1 == [hole] + rest;
      assert out + ([hole] + rest) == out + [hole] + rest;
    }

    /** Send new data while the pipe is below the limit. */
    method FillPipe(limit: u32, now: nat) returns (out: seq<Seg>)
      modifies this, retx
      ensures (View(), out) == Connection.FillPipe(old(View()), limit, now)
    {
      hide Retransmit.Pipe, Connection.Transmit;
      out := [];
      ghost var todo := Connection.FillPipe(View(), limit, now).1;
      assert [] + todo == todo;
      while sendBuf != []
        invariant PipeRest(old(View()), View(), limit, now, out)
        decreases |sendBuf|
      {
        var pipe := retx.Pipe();
        if pipe >= limit {
          break;
        }
        var n := Min(Min(limit - pipe, opt.sendMss), |sendBuf|);
        if n == 0 {
          break;
        }
        ghost var c := View();
        var p := Transmit(n, PSH + ACK, now);
        Shrinks(c, n, PSH + ACK, now);
        PipeOneMore(old(View()), c, View(), limit, now, out, p);
        out := out + [p];
      }
      assert out + [] == out;
    }

    static ghost predicate PipeRest(c0: Conn, c: Conn, limit: u32, now: nat, out: seq<Seg>) {
      Connection.FillPipe(c0, limit, now) ==
      (Connection.FillPipe(c, limit, now).0, out + Connection.FillPipe(c, limit, now).1)
    }

    static lemma Shrinks(c: Conn, n: nat, flags: byte, now: nat)
      requires n <= |c.sendBuf|
      ensures |Connection.Transmit(c, n, flags, now).0.sendBuf| == |c.sendBuf| - n
    {
    }

    static lemma PipeOneMore(c0: Conn, c: Conn, c1: Conn, limit: u32, now: nat, out: seq<Seg>, p: Seg)
      requires PipeRest(c0, c, limit, now, out) && c.sendBuf != [] && Retransmit.Pipe(c.retx) < limit
      requires var n := Min(Min(limit - Retransmit.Pipe(c.retx), c.opt.sendMss), |c.sendBuf|);
               n != 0 && Connection.Transmit(c, n, PSH + ACK, now) == (c1, p)
      ensures PipeRest(c0, c1, limit, now, out + [p])
    {
      hide Retransmit.Pipe, Connection.Transmit;
      var rest := Connection.FillPipe(c1, limit, now).1;
      assert Connection.FillPipe(c, limit, now).1 == [p] + rest;
      assert out + ([p] + rest) == out + [p] + rest;
    }

    /** Send new data as the windows, Nagle and pacing allow. */
    method FillWindow(pacing: real, now: nat) returns (out: seq<Seg>)
      modifies this, retx
      ensures (View(), out) == Connection.FillWindow(old(View()), pacing, now)
    {
      hide Connection.Transmit, Connection.Pace, Connection.UsableWindow;
      out := [];
      ghost var todo := Connection.FillWindow(View(), pacing, now).1;
      assert [] + todo == todo;
      while sendBuf != []
        invariant WindowRest(old(View()), View(), pacing, now, out)
        decreases |sendBuf|
      {
        var n := Min(Min(Connection.UsableWindow(View()), opt.sendMss), |sendBuf|);
        if n == 0 {
          break;
        }
        if opt.nagle && n < opt.sendMss && FlightSize() > 0 {
          break;
        }
        if pacing > 0.0 && now < clock.nextSendMs {
          break;
        }
        ghost var c := View();
        Pace(pacing, n, now);
        PaceKeeps(c, pacing, n, now);
        var p := Transmit(n, PSH + ACK, now);
        Shrinks(Connection.Pace(c, pacing, n, now), n, PSH + ACK, now);
        WindowOneMore(old(View()), c, View(), pacing, now, out, p);
        out := out + [p];
      }
      assert out + [] == out;
    }

    method Pace(pacing: real, n: nat, now: nat)
      modifies this
      ensures View() == Connection.Pace(old(View()), pacing, n, now)
    {
      if pacing > 0.0 {
        var gap := Connection.Ceil(n as real * 1000.0 / pacing);
        clock := clock.(nextSendMs := now + Max(gap, 1));
      }
    }

    static lemma PaceKeeps(c: Conn, pacing: real, n: nat, now: nat)
      ensures Connection.Pace(c, pacing, n, now).sendBuf == c.sendBuf
    {
    }

    static ghost predicate WindowRest(c0: Conn, c: Conn, pacing: real, now: nat, out: seq<Seg>) {
      Connection.FillWindow(c0, pacing, now) ==
      (Connection.FillWindow(c, pacing, now).0, out + Connection.FillWindow(c, pacing, now).1)
    }

    static lemma WindowOneMore(c0: Conn, c: Conn, c1: Conn, pacing: real, now: nat, out: seq<Seg>, p: Seg)
      requires WindowRest(c0, c, pacing, now, out) && c.sendBuf != []
      requires var n := NextSend(c, pacing, now);
               n != 0 && Connection.Transmit(Connection.Pace(c, pacing, n, now), n, PSH + ACK, now) == (c1, p)
      ensures WindowRest(c0, c1, pacing, now, out + [p])
    {
      hide Connection.Transmit, NextSend, Connection.Pace;
      var rest := Connection.FillWindow(c1, pacing, now).1;
      assert Connection.FillWindow(c, pacing, now).1 == [p] + rest;
      assert out + ([p] + rest) == out + [p] + rest;
    }

    method ArmProbe(now: nat)
      modifies this
      ensures View() == Connection.ArmProbe(old(View()), now)
    {
      hide R.Rto;
      if FlightSize() > 0 && sendBuf == [] && !Congestion.InRecovery(cong) {
        if clock.tlpDeadlineMs == 0 {
          var rto := rtt.Rto();
          clock := clock.(tlpDeadlineMs := now + Max(rto / 2, 1));
        }
      } else {
        clock := clock.(tlpDeadlineMs := 0, tlpSent := false);
      }
    }

    method PollTransmit(now: nat) returns (out: seq<Seg>)
      modifies this, retx
      ensures (View(), out) == Connection.PollTransmit(old(View()), now)
    {
      hide Connection.FillHoles, Connection.FillPipe, Connection.FillWindow, Connection.ArmProbe;
      if state != Established && state != CloseWait {
        return [];
      }
      opt := opt.(tsVal := Low32(now));
      if opt.sackOk && Congestion.InRecovery(cong) {
        var limit := SendLimit(View());
        var holes := FillHoles(limit, now);
        var fill := FillPipe(limit, now);
        return holes + fill;
      }
      out := FillWindow(Congestion.PacingRate(cong), now);
      ArmProbe(now);
    }
  }
}
