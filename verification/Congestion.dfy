/** Congestion control as values: CUBIC/Reno (src/congestion.rs) and BBR (src/bbr.rs). */
module Congestion {
  import opened Types

  const MSS := 1460
  const INIT_SSTHRESH := 65_535
  const DUP_ACK_THRESHOLD := 3

  // ---- CUBIC ----

  type Window = x: u32 | x >= MSS witness MSS
  type Threshold = x: u32 | x >= 2 * MSS witness 2 * MSS

  datatype Cubic = Cubic(cwnd: Window, ssthresh: Threshold, dupAcks: nat, inRecovery: bool, wMax: u32, epoch: nat)

  const CUBIC_INIT := Cubic(MSS, INIT_SSTHRESH, 0, false, 0, 0)

  /** `(cwnd * 7 / 10).max(2 * MSS)` with the product taken in 32 bits, as a release build does. */
  function BetaCut(cwnd: u32): Threshold {
    Max((cwnd * 7) % TWO_32 / 10, 2 * MSS)
  }

  /** `curve` is the value of the cubic curve, which the source bounds below by one MSS. */
  function CubicOnAck(c: Cubic, acked: u32, curve: Window, now: nat): Cubic {
    var c := c.(dupAcks := 0);
    if c.inRecovery then c.(inRecovery := false, cwnd := c.ssthresh, epoch := 0)
    else if acked == 0 then c
    else if c.cwnd < c.ssthresh then c.(cwnd := SatAdd32(c.cwnd, MSS))
    else
      var c := if c.epoch == 0 then c.(epoch := now, wMax := Max(c.wMax, c.cwnd)) else c;
      if curve > c.cwnd
      then c.(cwnd := SatAdd32(c.cwnd, Max((curve - c.cwnd) / Max(c.cwnd / MSS, 1), 1)))
      else c.(cwnd := SatAdd32(c.cwnd, Max(MSS * MSS / c.cwnd, 1)))
  }

  function CubicOnDupAck(c: Cubic): (Cubic, bool) {
    var c := c.(dupAcks := c.dupAcks + 1);
    if c.dupAcks == DUP_ACK_THRESHOLD then
      var cut := BetaCut(c.cwnd);
      (c.(wMax := c.cwnd, ssthresh := cut, cwnd := cut + DUP_ACK_THRESHOLD * MSS, epoch := 0, inRecovery := true), true)
    else if c.inRecovery then (c.(cwnd := SatAdd32(c.cwnd, MSS)), false)
    else (c, false)
  }

  function CubicOnTimeout(c: Cubic): Cubic {
    Cubic(MSS, BetaCut(c.cwnd), 0, false, c.cwnd, 0)
  }

  function CubicOnPartialAck(c: Cubic, acked: u32): Cubic {
    c.(dupAcks := 0, cwnd := Max(SatAdd32(SatSub(c.cwnd, acked), MSS), MSS))
  }

  // ---- the windowed-max filter ----

  datatype Sample = Sample(t: nat, v: real)

  datatype Filter = Filter(window: nat, dq: seq<Sample>)

  /** Drop tail samples no larger than v. */
  function PopBack(dq: seq<Sample>, v: real): seq<Sample> {
    if dq != [] && dq[|dq| - 1].v <= v then PopBack(dq[..|dq| - 1], v) else dq
  }

  /** Drop stale samples off the front. */
  function PopFront(dq: seq<Sample>, t: nat, window: nat): seq<Sample> {
    if dq != [] && SatSub(t, dq[0].t) > window then PopFront(dq[1..], t, window) else dq
  }

  function Update(f: Filter, t: nat, v: real): Filter {
    f.(dq := PopFront(PopBack(f.dq, v) + [Sample(t, v)], t, f.window))
  }

  function Get(f: Filter): real {
    if f.dq == [] then 0.0 else f.dq[0].v
  }

  // ---- BBR ----

  function HighGain(): real {
    2.885390081777927
  }

  function DrainGain(): real {
    1.0 / HighGain()
  }

  const CWND_GAIN: real := 2.0
  const PROBE_BW_GAINS: seq<real> := [1.25, 0.75, 1.0, 1.0, 1.0, 1.0, 1.0, 1.0]
  const BW_WINDOW_ROUNDS := 10
  const RTPROP_WINDOW_MS := 10_000
  const PROBE_RTT_DURATION_MS := 200
  const MIN_PIPE_CWND := 4 * MSS
  const FULL_BW_THRESH: real := 1.25
  const FULL_BW_COUNT := 3

  datatype Mode = Startup | Drain | ProbeBw | ProbeRtt

  datatype Bbr = Bbr(
    mode: Mode,
    cwnd: u32,
    pacingGain: real,
    cwndGain: real,
    filter: Filter,
    rtprop: Option<nat>,
    rtpropStamp: nat,
    deliveredTime: nat,
    hasDelivery: bool,
    roundCount: nat,
    roundStamp: nat,
    fullBw: real,
    fullBwCount: nat,
    filledPipe: bool,
    cycleIndex: nat,
    probeRttDone: nat,
    dupAcks: nat)

  const BBR_INIT :=
    Bbr(Startup, MIN_PIPE_CWND, HighGain(), HighGain(), Filter(BW_WINDOW_ROUNDS, []), None, 0, 0, false, 0, 0,
        0.0, 0, false, 0, 0, 0)

  function Gain(i: nat): real {
    if i < |PROBE_BW_GAINS| then PROBE_BW_GAINS[i] else 1.0
  }

  function EnterProbeBw(b: Bbr): Bbr {
    b.(mode := ProbeBw, cwndGain := CWND_GAIN, cycleIndex := 2, pacingGain := Gain(2))
  }

  function UpdateModel(b: Bbr, roundStart: bool, expired: bool, now: nat): Bbr {
    var btlbw := Get(b.filter);
    match b.mode
    case Startup =>
      var b := b.(pacingGain := HighGain(), cwndGain := HighGain());
      if !roundStart then b
      else if btlbw >= b.fullBw * FULL_BW_THRESH then b.(fullBw := btlbw, fullBwCount := 0)
      else if b.fullBwCount + 1 >= FULL_BW_COUNT
      then b.(fullBwCount := b.fullBwCount + 1, filledPipe := true, mode := Drain)
      else b.(fullBwCount := b.fullBwCount + 1)
    case Drain =>
      var b := b.(pacingGain := DrainGain(), cwndGain := HighGain());
      if roundStart then EnterProbeBw(b) else b
    case ProbeBw =>
      var i := if roundStart then (b.cycleIndex + 1) % |PROBE_BW_GAINS| else b.cycleIndex;
      var b := b.(cwndGain := CWND_GAIN, cycleIndex := i, pacingGain := Gain(i));
      if expired
      then b.(mode := ProbeRtt, pacingGain := 1.0, cwndGain := 1.0, probeRttDone := now + PROBE_RTT_DURATION_MS)
      else b
    case ProbeRtt =>
      var b := b.(pacingGain := 1.0, cwndGain := 1.0);
      if now < b.probeRttDone then b
      else
        var b := b.(rtpropStamp := now, probeRttDone := 0);
        if b.filledPipe then EnterProbeBw(b) else b.(mode := Startup)
  }

  /** `x as u32` for a float: truncation toward zero, saturating at both ends. */
  function Cast32(x: real): u32 {
    if x <= 0.0 then 0 else if x.Floor >= TWO_32 then TWO_32 - 1 else x.Floor
  }

  /** `cwnd_gain` times the bandwidth-delay product, in bytes. */
  function TargetCwnd(gain: real, btlbw: real, rtprop: nat): u32 {
    Cast32(gain * (btlbw * rtprop as real / 1000.0))
  }

  function RecomputeCwnd(b: Bbr): Bbr {
    if b.mode == ProbeRtt then b.(cwnd := MIN_PIPE_CWND)
    else b.(cwnd := Max(TargetCwnd(b.cwndGain, Get(b.filter), if b.rtprop.None? then 0 else b.rtprop.value), MIN_PIPE_CWND))
  }

  function Expired(b: Bbr, now: nat): bool {
    SatSub(now, b.rtpropStamp) > RTPROP_WINDOW_MS
  }

  function AdoptRtt(b: Bbr, rtt: Option<nat>, now: nat): Bbr {
    if rtt.Some? && (b.rtprop.None? || rtt.value <= b.rtprop.value || Expired(b, now))
    then b.(rtprop := rtt, rtpropStamp := now)
    else b
  }

  function RoundLength(b: Bbr): nat {
    if b.rtprop.None? then 1 else Max(b.rtprop.value, 1)
  }

  predicate RoundStarts(b: Bbr, now: nat) {
    SatSub(now, b.roundStamp) >= RoundLength(b)
  }

  function CountRound(b: Bbr, now: nat): Bbr {
    if RoundStarts(b, now) then b.(roundCount := b.roundCount + 1, roundStamp := now) else b
  }

  function TakeRate(b: Bbr, acked: u32, now: nat): Bbr {
    var interval := SatSub(now, b.deliveredTime);
    var filter := if b.hasDelivery && interval > 0 && acked > 0
                  then Update(b.filter, b.roundCount, acked as real * 1000.0 / interval as real)
                  else b.filter;
    b.(filter := filter, hasDelivery := true, deliveredTime := now)
  }

  function BbrOnAck(b: Bbr, acked: u32, rtt: Option<nat>, now: nat): Bbr {
    var expired := Expired(b, now);
    var b := AdoptRtt(b.(dupAcks := 0), rtt, now);
    var roundStart := RoundStarts(b, now);
    var b := TakeRate(CountRound(b, now), acked, now);
    RecomputeCwnd(UpdateModel(b, roundStart, expired, now))
  }

  function BbrOnDupAck(b: Bbr): (Bbr, bool) {
    (b.(dupAcks := b.dupAcks + 1), b.dupAcks + 1 == DUP_ACK_THRESHOLD)
  }

  function BbrOnTimeout(b: Bbr): Bbr {
    b.(mode := Startup, cwnd := MIN_PIPE_CWND, pacingGain := HighGain(), cwndGain := HighGain(), fullBw := 0.0,
       fullBwCount := 0, filledPipe := false, cycleIndex := 0, dupAcks := 0)
  }

  function BbrPacingRate(b: Bbr): real {
    b.pacingGain * Get(b.filter)
  }

  // ---- the dispatching controller ----

  datatype Control = CubicArm(cubic: Cubic) | BbrArm(bbr: Bbr)

  function Cwnd(c: Control): u32 {
    match c case CubicArm(c) => c.cwnd case BbrArm(b) => b.cwnd
  }

  function OnAck(c: Control, acked: u32, rtt: Option<nat>, curve: Window, now: nat): Control {
    match c
    case CubicArm(c) => CubicArm(CubicOnAck(c, acked, curve, now))
    case BbrArm(b) => BbrArm(BbrOnAck(b, acked, rtt, now))
  }

  function OnDupAck(c: Control): (Control, bool) {
    match c
    case CubicArm(c) => var r := CubicOnDupAck(c); (CubicArm(r.0), r.1)
    case BbrArm(b) => var r := BbrOnDupAck(b); (BbrArm(r.0), r.1)
  }

  function OnPartialAck(c: Control, acked: u32): Control {
    if c.CubicArm? then CubicArm(CubicOnPartialAck(c.cubic, acked)) else c
  }

  function OnTimeout(c: Control): Control {
    match c
    case CubicArm(c) => CubicArm(CubicOnTimeout(c))
    case BbrArm(b) => BbrArm(BbrOnTimeout(b))
  }

  predicate InRecovery(c: Control) {
    c.CubicArm? && c.cubic.inRecovery
  }

  function PacingRate(c: Control): real {
    if c.CubicArm? then 0.0 else BbrPacingRate(c.bbr)
  }
}
