/** The congestion controllers as objects (`Cubic` in src/congestion.rs, `WindowedMax` and `Bbr` in
    src/bbr.rs), updated in place. */
module Controllers {
  import opened Types
  import C = Congestion

  class Cubic {
    var cwnd: C.Window
    var ssthresh: C.Threshold
    var dupAcks: nat
    var inRecovery: bool
    var wMax: u32
    var epochMs: nat

    function View(): C.Cubic
      reads this
    {
      C.Cubic(cwnd, ssthresh, dupAcks, inRecovery, wMax, epochMs)
    }

    constructor ()
      ensures View() == C.CUBIC_INIT
    {
      cwnd, ssthresh, dupAcks, inRecovery, wMax, epochMs := C.MSS, C.INIT_SSTHRESH, 0, false, 0, 0;
    }

    /** `target` is the value of the cubic curve at `now`. */
    method OnAck(acked: u32, target: C.Window, now: nat)
      modifies this
      ensures View() == C.CubicOnAck(old(View()), acked, target, now)
    {
      dupAcks := 0;
      if inRecovery {
        inRecovery := false;
        cwnd := ssthresh;
        epochMs := 0;
        return;
      }
      if acked == 0 {
        return;
      }
      if cwnd < ssthresh {
        cwnd := SatAdd32(cwnd, C.MSS);
        return;
      }
      if epochMs == 0 {
        epochMs := now;
        wMax := Max(wMax, cwnd);
      }
      var growth: u32;
      if target > cwnd {
        var segments := Max(cwnd / C.MSS, 1);
        growth := Max((target - cwnd) / segments, 1);
      } else {
        growth := Max(C.MSS * C.MSS / cwnd, 1);
      }
      cwnd := SatAdd32(cwnd, growth);
    }

    method OnDupAck() returns (retransmit: bool)
      modifies this
      ensures (View(), retransmit) == C.CubicOnDupAck(old(View()))
    {
      dupAcks := dupAcks + 1;
      if dupAcks == C.DUP_ACK_THRESHOLD {
        wMax := cwnd;
        ssthresh := C.BetaCut(cwnd);
        cwnd := ssthresh + C.DUP_ACK_THRESHOLD * C.MSS;
        epochMs := 0;
        inRecovery := true;
        return true;
      }
      if inRecovery {
        cwnd := SatAdd32(cwnd, C.MSS);
      }
      return false;
    }

    method OnTimeout()
      modifies this
      ensures View() == C.CubicOnTimeout(old(View()))
    {
      wMax := cwnd;
      ssthresh := C.BetaCut(cwnd);
      cwnd := C.MSS;
      epochMs := 0;
      dupAcks := 0;
      inRecovery := false;
    }

    method OnPartialAck(acked: u32)
      modifies this
      ensures View() == C.CubicOnPartialAck(old(View()), acked)
    {
      dupAcks := 0;
      cwnd := Max(SatAdd32(SatSub(cwnd, acked), C.MSS), C.MSS);
    }
  }

  class WindowedMax {
    const window: nat
    var dq: seq<C.Sample>

    function View(): C.Filter
      reads this
    {
      C.Filter(window, dq)
    }

    constructor (window: nat)
      ensures View() == C.Filter(window, [])
    {
      this.window, dq := window, [];
    }

    method Update(t: nat, v: real)
      modifies this
      ensures View() == C.Update(old(View()), t, v)
    {
      while dq != [] && dq[|dq| - 1].v <= v
        invariant C.PopBack(dq, v) == C.PopBack(old(dq), v)
        decreases |dq|
      {
        dq := dq[..|dq| - 1];
      }
      dq := dq + [C.Sample(t, v)];
      while dq != [] && SatSub(t, dq[0].t) > window
        invariant C.PopFront(dq, t, window) == C.PopFront(C.PopBack(old(dq), v) + [C.Sample(t, v)], t, window)
        decreases |dq|
      {
        dq := dq[1..];
      }
    }

    method Get() returns (v: real)
      ensures v == C.Get(View())
    {
      return if dq == [] then 0.0 else dq[0].v;
    }
  }

  class Bbr {
    var mode: C.Mode
    var cwnd: u32
    var pacingGain: real
    var cwndGain: real
    const bwFilter: WindowedMax
    var rtpropMs: Option<nat>
    var rtpropStampMs: nat
    var deliveredTimeMs: nat
    var hasDelivery: bool
    var roundCount: nat
    var roundStampMs: nat
    var fullBw: real
    var fullBwCount: nat
    var filledPipe: bool
    var cycleIndex: nat
    var probeRttDoneMs: nat
    var dupAcks: nat

    function View(): C.Bbr
      reads this, bwFilter
    {
      C.Bbr(mode, cwnd, pacingGain, cwndGain, C.Filter(bwFilter.window, bwFilter.dq), rtpropMs, rtpropStampMs,
            deliveredTimeMs, hasDelivery, roundCount, roundStampMs, fullBw, fullBwCount, filledPipe, cycleIndex,
            probeRttDoneMs, dupAcks)
    }

    constructor ()
      ensures View() == C.BBR_INIT && fresh(bwFilter)
    {
      mode, cwnd, pacingGain, cwndGain := C.Startup, C.MIN_PIPE_CWND, C.HighGain(), C.HighGain();
      bwFilter := new WindowedMax(C.BW_WINDOW_ROUNDS);
      rtpropMs, rtpropStampMs := None, 0;
      deliveredTimeMs, hasDelivery, roundCount, roundStampMs := 0, false, 0, 0;
      fullBw, fullBwCount, filledPipe, cycleIndex, probeRttDoneMs, dupAcks := 0.0, 0, false, 0, 0, 0;
    }

    /** Take a round-trip sample: a new minimum, or the first one after the old aged out. */
    method AdoptRtt(rttMs: Option<nat>, expired: bool, now: nat)
      requires expired == C.Expired(View(), now)
      modifies this
      ensures View() == C.AdoptRtt(old(View()), rttMs, now)
    {
      if rttMs.Some? && (rtpropMs.None? || rttMs.value <= rtpropMs.value || expired) {
        rtpropMs := rttMs;
        rtpropStampMs := now;
      }
    }

    method CountRound(now: nat) returns (roundStart: bool)
      modifies this
      ensures View() == C.CountRound(old(View()), now) && roundStart == C.RoundStarts(old(View()), now)
    {
      var rttForRound := if rtpropMs.None? then 1 else Max(rtpropMs.value, 1);
      roundStart := false;
      if SatSub(now, roundStampMs) >= rttForRound {
        roundCount := roundCount + 1;
        roundStampMs := now;
        roundStart := true;
      }
    }

    method TakeRate(acked: u32, now: nat)
      modifies this, bwFilter
      ensures View() == C.TakeRate(old(View()), acked, now)
    {
      hide C.Update;
      if hasDelivery {
        var interval := SatSub(now, deliveredTimeMs);
        if interval > 0 && acked > 0 {
          var rate := acked as real * 1000.0 / interval as real;
          bwFilter.Update(roundCount, rate);
        }
      } else {
        hasDelivery := true;
      }
      deliveredTimeMs := now;
    }

    method OnAck(acked: u32, rttMs: Option<nat>, now: nat)
      modifies this, bwFilter
      ensures View() == C.BbrOnAck(old(View()), acked, rttMs, now)
    {
      hide C.UpdateModel, C.RecomputeCwnd, C.TakeRate, C.CountRound, C.AdoptRtt, C.RoundStarts;
      dupAcks := 0;
      var expired := SatSub(now, rtpropStampMs) > C.RTPROP_WINDOW_MS;
      AdoptRtt(rttMs, expired, now);
      var roundStart := CountRound(now);
      TakeRate(acked, now);
      UpdateModel(roundStart, expired, now);
      RecomputeCwnd();
    }

    method SetGains(pacing: real, window: real)
      modifies this
      ensures View() == old(View()).(pacingGain := pacing, cwndGain := window)
    {
      pacingGain, cwndGain := pacing, window;
    }

    method UpdateModel(roundStart: bool, expired: bool, now: nat)
      modifies this
      ensures View() == C.UpdateModel(old(View()), roundStart, expired, now)
    {
      match mode
      case Startup => UpdateStartup(roundStart, expired, now);
      case Drain =>
        hide C.HighGain, C.DrainGain, C.Gain, C.EnterProbeBw;
        SetGains(C.DrainGain(), C.HighGain());
        if roundStart {
          EnterProbeBw();
        }
      case ProbeBw => UpdateProbeBw(roundStart, expired, now);
      case ProbeRtt => UpdateProbeRtt(roundStart, expired, now);
    }

    method UpdateStartup(roundStart: bool, expired: bool, now: nat)
      requires mode == C.Mode.Startup
      modifies this
      ensures View() == C.UpdateModel(old(View()), roundStart, expired, now)
    {
      hide C.HighGain;
      var btlbw := bwFilter.Get();
      SetGains(C.HighGain(), C.HighGain());
      if roundStart {
        if btlbw >= fullBw * C.FULL_BW_THRESH {
          fullBw, fullBwCount := btlbw, 0;
        } else {
          fullBwCount := fullBwCount + 1;
          if fullBwCount >= C.FULL_BW_COUNT {
            filledPipe := true;
            mode := C.Mode.Drain;
          }
        }
      }
    }

    method UpdateProbeBw(roundStart: bool, expired: bool, now: nat)
      requires mode == C.ProbeBw
      modifies this
      ensures View() == C.UpdateModel(old(View()), roundStart, expired, now)
    {
      hide C.Gain;
      if roundStart {
        cycleIndex := (cycleIndex + 1) % |C.PROBE_BW_GAINS|;
      }
      SetGains(C.Gain(cycleIndex), C.CWND_GAIN);
      if expired {
        SetGains(1.0, 1.0);
        mode := C.ProbeRtt;
        probeRttDoneMs := now + C.PROBE_RTT_DURATION_MS;
      }
    }

    method UpdateProbeRtt(roundStart: bool, expired: bool, now: nat)
      requires mode == C.ProbeRtt
      modifies this
      ensures View() == C.UpdateModel(old(View()), roundStart, expired, now)
    {
      hide C.EnterProbeBw;
      SetGains(1.0, 1.0);
      if now >= probeRttDoneMs {
        rtpropStampMs := now;
        probeRttDoneMs := 0;
        if filledPipe {
          EnterProbeBw();
        } else {
          mode := C.Startup;
        }
      }
    }

    method EnterProbeBw()
      modifies this
      ensures View() == C.EnterProbeBw(old(View()))
    {
      hide C.Gain;
      mode := C.ProbeBw;
      cycleIndex := 2;
      SetGains(C.Gain(cycleIndex), C.CWND_GAIN);
    }

    method RecomputeCwnd()
      modifies this
      ensures View() == C.RecomputeCwnd(old(View()))
    {
      if mode == C.ProbeRtt {
        cwnd := C.MIN_PIPE_CWND;
        return;
      }
      var btlbw := bwFilter.Get();
      var rtprop := if rtpropMs.None? then 0 else rtpropMs.value;
      cwnd := Max(C.TargetCwnd(cwndGain, btlbw, rtprop), C.MIN_PIPE_CWND);
    }

    method OnDupAck() returns (retransmit: bool)
      modifies this
      ensures (View(), retransmit) == C.BbrOnDupAck(old(View()))
    {
      dupAcks := dupAcks + 1;
      return dupAcks == C.DUP_ACK_THRESHOLD;
    }

    method OnTimeout()
      modifies this
      ensures View() == C.BbrOnTimeout(old(View()))
    {
      hide C.HighGain;
      mode := C.Mode.Startup;
      cwnd := C.MIN_PIPE_CWND;
      SetGains(C.HighGain(), C.HighGain());
      ResetPlateau();
      cycleIndex, dupAcks := 0, 0;
    }

    /** Forget what STARTUP learned about the pipe. */
    method ResetPlateau()
      modifies this
      ensures View() == old(View()).(fullBw := 0.0, fullBwCount := 0, filledPipe := false)
    {
      fullBw, fullBwCount, filledPipe := 0.0, 0, false;
    }
  }
}
