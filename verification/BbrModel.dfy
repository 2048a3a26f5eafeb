/** BBR's model of the path over whole runs (src/bbr.rs), in terms of the acknowledgements it has heard: what the
    minimum round trip is, when a round starts, what each delivery rate is taken over, and the window and pacing gain
    that follow. */
module BbrModel {
  import opened Types
  import opened Congestion
  import opened BbrModes
  import opened MaxFilter

  // ---- the minimum round trip, step by step ----

  predicate HasSample(e: Event) {
    e.AckOf? && e.rtt.Some?
  }

  /** The sample of this ACK becomes the estimate: there was none, it is no larger, or the estimate has not been
      refreshed for more than ten seconds. */
  predicate Adopts(b: Bbr, e: Event) {
    HasSample(e) && (b.rtprop.None? || e.rtt.value <= b.rtprop.value || e.now > b.rtpropStamp + 10_000)
  }

  lemma MeasuredClocks(b: Bbr, e: Event)
    requires e.AckOf?
    ensures var m := Measured(b, e);
            var min := if Adopts(b, e) then e.rtt else b.rtprop;
            var length := if min.None? then 1 else Max(min.value, 1);
            && m.rtprop == min && m.rtpropStamp == (if Adopts(b, e) then e.now else b.rtpropStamp)
            && (StartsRound(b, e) <==> SatSub(e.now, b.roundStamp) >= length)
            && m.roundStamp == (if StartsRound(b, e) then e.now else b.roundStamp)
            && m.hasDelivery && m.deliveredTime == e.now && m.dupAcks == 0
  {
    hide Update;
  }

  lemma ModelClocks(m: Bbr, start: bool, expired: bool, now: nat)
    ensures var r := UpdateModel(m, start, expired, now);
            && r == m.(mode := r.mode, pacingGain := r.pacingGain, cwndGain := r.cwndGain, fullBw := r.fullBw,
                       fullBwCount := r.fullBwCount, filledPipe := r.filledPipe, cycleIndex := r.cycleIndex,
                       probeRttDone := r.probeRttDone, rtpropStamp := r.rtpropStamp)
            && r.rtpropStamp == (if m.mode == ProbeRtt && now >= m.probeRttDone then now else m.rtpropStamp)
  {
    hide Get, Gain, HighGain, DrainGain;
  }

  /** Everything an ACK refreshes. */
  lemma AckClocks(b: Bbr, e: Event)
    requires e.AckOf?
    ensures var r, m := Step(b, e), Measured(b, e);
            && r.rtprop == m.rtprop && r.roundStamp == m.roundStamp && r.roundCount == m.roundCount
            && r.hasDelivery == m.hasDelivery && r.deliveredTime == m.deliveredTime && r.dupAcks == m.dupAcks
            && r.rtpropStamp == (if b.mode == ProbeRtt && e.now >= b.probeRttDone then e.now else m.rtpropStamp)
  {
    hide Step, Measured, UpdateModel, RecomputeCwnd, StartsRound, Taken, Update;
    MeasuredFacts(b, e);
    ModelClocks(Measured(b, e), StartsRound(b, e), Expired(b, e.now), e.now);
    RecomputeFrame(UpdateModel(Measured(b, e), StartsRound(b, e), Expired(b, e.now), e.now));
  }

  /** The estimate after any event, and when it counts as refreshed: by an adopted sample, or at the end of PROBE_RTT. */
  lemma MinimumStep(b: Bbr, e: Event)
    ensures var r := Step(b, e);
            && r.rtprop == (if Adopts(b, e) then e.rtt else b.rtprop)
            && r.rtpropStamp == (if Adopts(b, e) || (e.AckOf? && b.mode == ProbeRtt && e.now >= b.probeRttDone) then e.now
                                 else b.rtpropStamp)
  {
    hide BbrOnAck, Measured, StartsRound;
    if e.AckOf? {
      MeasuredClocks(b, e);
      AckClocks(b, e);
    }
  }

  /** A round starts with the first ACK that comes a minimum round trip (at least a millisecond) after the last start,
      and the clock of the delivery rate starts again with every ACK, as does the count of duplicates. */
  lemma RoundStep(b: Bbr, e: Event)
    ensures var r := Step(b, e);
            var min := if Adopts(b, e) then e.rtt else b.rtprop;
            var length := if min.None? then 1 else Max(min.value, 1);
            && (StartsRound(b, e) <==> e.AckOf? && SatSub(e.now, b.roundStamp) >= length)
            && r.roundCount == (if StartsRound(b, e) then b.roundCount + 1 else b.roundCount)
            && r.roundStamp == (if StartsRound(b, e) then e.now else b.roundStamp)
            && r.hasDelivery == (e.AckOf? || b.hasDelivery)
            && r.deliveredTime == (if e.AckOf? then e.now else b.deliveredTime)
            && r.dupAcks == (if e.DupAck? then b.dupAcks + 1 else 0)
  {
    if e.AckOf? {
      MeasuredFacts(b, e);
      MeasuredClocks(b, e);
      AckClocks(b, e);
      hide Step, Measured, StartsRound, UpdateModel, RecomputeCwnd, Taken, Update;
    } else {
      hide BbrOnAck, RoundStarts;
    }
  }

  // ---- over whole runs ----

  /** No ACK has carried a sample. */
  ghost predicate Unsampled(es: seq<Event>) {
    forall i :: 0 <= i < |es| ==> !HasSample(es[i])
  }

  /** Event i is adopted in the run. */
  ghost predicate AdoptedAt(es: seq<Event>, i: int) {
    0 <= i < |es| && Adopts(Run(BBR_INIT, es[..i]), es[i])
  }

  /** The samples after event i are larger, and none of them comes more than ten seconds after the last refresh. */
  ghost predicate NotBeatenAfter(es: seq<Event>, i: int, min: nat) {
    forall j :: 0 <= i < j < |es| && HasSample(es[j]) ==>
      es[j].rtt.value > min && es[j].now <= Run(BBR_INIT, es[..j]).rtpropStamp + 10_000
  }

  /** min is the last sample adopted, and smaller than every one since. */
  ghost predicate IsMinimum(es: seq<Event>, min: nat) {
    exists i :: AdoptedAt(es, i) && es[i].rtt == Some(min) && NotBeatenAfter(es, i, min)
  }

  lemma PrefixOf(es: seq<Event>, i: nat)
    requires i < |es|
    ensures i < |es| - 1 ==> es[..|es| - 1][..i] == es[..i]
  {
  }

  lemma RunLast(es: seq<Event>)
    requires es != []
    ensures Run(BBR_INIT, es) == Step(Run(BBR_INIT, es[..|es| - 1]), es[|es| - 1])
  {
    hide Step;
  }

  lemma KeptMinimum(es: seq<Event>, min: nat)
    requires es != [] && IsMinimum(es[..|es| - 1], min)
    requires var b := Run(BBR_INIT, es[..|es| - 1]); b.rtprop == Some(min) && !Adopts(b, es[|es| - 1])
    ensures IsMinimum(es, min)
  {
    hide Run;
    var n := |es| - 1;
    var i :| AdoptedAt(es[..n], i) && es[..n][i].rtt == Some(min) && NotBeatenAfter(es[..n], i, min);
    PrefixOf(es, i);
    assert AdoptedAt(es, i);
    forall j | 0 <= i < j < |es| && HasSample(es[j])
      ensures es[j].rtt.value > min && es[j].now <= Run(BBR_INIT, es[..j]).rtpropStamp + 10_000
    {
      PrefixOf(es, j);
      if j < n {
        assert HasSample(es[..n][j]);
      }
    }
  }

  /** In every reachable state there is no estimate exactly if no ACK has carried a sample; otherwise the estimate is
      the last sample adopted, no sample since was as small, and none came later than ten seconds after the refresh. */
  lemma {:induction false} MinimumExactly(es: seq<Event>)
    ensures var min := Run(BBR_INIT, es).rtprop;
            && (min.None? <==> Unsampled(es))
            && (min.Some? ==> IsMinimum(es, min.value))
  {
    if es != [] {
      var n := |es| - 1;
      var b := Run(BBR_INIT, es[..n]);
      MinimumExactly(es[..n]);
      RunLast(es);
      MinimumStep(b, es[n]);
      hide Run, Step, IsMinimum, Unsampled;
      SamplesSplit(es);
      if Adopts(b, es[n]) {
        NewMinimum(es);
      } else if b.rtprop.Some? {
        KeptMinimum(es, b.rtprop.value);
      }
    }
  }

  lemma SamplesSplit(es: seq<Event>)
    requires es != []
    ensures Unsampled(es) <==> Unsampled(es[..|es| - 1]) && !HasSample(es[|es| - 1])
  {
    hide HasSample;
    var n := |es| - 1;
    assert forall i :: 0 <= i < n ==> es[..n][i] == es[i];
  }

  lemma NewMinimum(es: seq<Event>)
    requires es != [] && Adopts(Run(BBR_INIT, es[..|es| - 1]), es[|es| - 1])
    ensures IsMinimum(es, es[|es| - 1].rtt.value)
  {
    hide Run;
    assert AdoptedAt(es, |es| - 1);
  }

  /** When the last ACK came. */
  function LastAck(es: seq<Event>): Option<nat> {
    if es == [] then None
    else if es[|es| - 1].AckOf? then Some(es[|es| - 1].now) else LastAck(es[..|es| - 1])
  }

  /** So the interval of a delivery rate is the time since the ACK before, and the first ACK yields none. */
  lemma {:induction false} RateInterval(es: seq<Event>)
    ensures var b := Run(BBR_INIT, es);
            b.hasDelivery == LastAck(es).Some? && (LastAck(es).Some? ==> b.deliveredTime == LastAck(es).value)
  {
    if es != [] {
      RateInterval(es[..|es| - 1]);
      RunLast(es);
      RoundStep(Run(BBR_INIT, es[..|es| - 1]), es[|es| - 1]);
      hide Run, Step, StartsRound;
    }
  }

  // ---- the window and the pacing gain ----

  /** The gain on the bandwidth-delay product. */
  function WindowGain(mode: Mode): real {
    match mode
    case Startup => 2.885390081777927
    case Drain => 2.885390081777927
    case ProbeBw => 2.0
    case ProbeRtt => 1.0
  }

  /** The eight phases of the gain cycle. */
  function PhaseGain(i: nat): real {
    if i == 0 then 1.25 else if i == 1 then 0.75 else 1.0
  }

  /** The cycle and the gains after an ACK: DRAIN empties at the inverse of what STARTUP filled at (from the ACK after
      the one that entered it), the cycle moves on by one phase per round and starts past its probe. */
  lemma GainsExactly(b: Bbr, e: Event)
    requires e.AckOf? && ModesOk(b)
    ensures var r := Step(b, e);
            && r.cwndGain == WindowGain(r.mode)
            && r.pacingGain == (
              match r.mode
              case Startup => 2.885390081777927
              case Drain => if b.mode == Startup then 2.885390081777927 else 1.0 / 2.885390081777927
              case ProbeBw => PhaseGain(r.cycleIndex)
              case ProbeRtt => 1.0)
            && r.cycleIndex == (
              if b.mode == ProbeBw then (if StartsRound(b, e) then (b.cycleIndex + 1) % 8 else b.cycleIndex)
              else if r.mode == ProbeBw then 2 else b.cycleIndex)
            && r.probeRttDone == (
              if b.mode == ProbeBw && r.mode == ProbeRtt then e.now + 200
              else if b.mode == ProbeRtt && r.mode != ProbeRtt then 0 else b.probeRttDone)
  {
    hide Step, Measured, UpdateModel, RecomputeCwnd, StartsRound, Taken, Update;
    MeasuredFacts(b, e);
    MeasuredModes(b, e);
    ModelGains(Measured(b, e), StartsRound(b, e), Expired(b, e.now), e.now);
    RecomputeFrame(UpdateModel(Measured(b, e), StartsRound(b, e), Expired(b, e.now), e.now));
  }

  lemma ModelGains(m: Bbr, start: bool, expired: bool, now: nat)
    requires ModesOk(m)
    ensures var r := UpdateModel(m, start, expired, now);
            && r.cwndGain == WindowGain(r.mode)
            && r.pacingGain == (
              match r.mode
              case Startup => 2.885390081777927
              case Drain => if m.mode == Startup then 2.885390081777927 else 1.0 / 2.885390081777927
              case ProbeBw => PhaseGain(r.cycleIndex)
              case ProbeRtt => 1.0)
            && r.cycleIndex == (
              if m.mode == ProbeBw then (if start then (m.cycleIndex + 1) % 8 else m.cycleIndex)
              else if r.mode == ProbeBw then 2 else m.cycleIndex)
            && r.probeRttDone == (
              if m.mode == ProbeBw && r.mode == ProbeRtt then now + 200
              else if m.mode == ProbeRtt && r.mode != ProbeRtt then 0 else m.probeRttDone)
  {
    hide Get;
  }

  /** The plateau detector: a round that reads at least 25% more than the record sets the record, any other counts as
      flat; only STARTUP looks. */
  lemma PlateauStep(b: Bbr, e: Event)
    requires e.AckOf?
    ensures var r := Step(b, e);
            var grown := Get(r.filter) >= b.fullBw * 1.25;
            && r.fullBw == (if b.mode == Startup && StartsRound(b, e) && grown then Get(r.filter) else b.fullBw)
            && r.fullBwCount == (if b.mode != Startup || !StartsRound(b, e) then b.fullBwCount
                                 else if grown then 0 else b.fullBwCount + 1)
  {
    hide Step, Measured, UpdateModel, RecomputeCwnd, StartsRound, Taken, Update, Get;
    MeasuredFacts(b, e);
    ModelPlateau(Measured(b, e), StartsRound(b, e), Expired(b, e.now), e.now);
    RecomputeFrame(UpdateModel(Measured(b, e), StartsRound(b, e), Expired(b, e.now), e.now));
  }

  lemma ModelPlateau(m: Bbr, start: bool, expired: bool, now: nat)
    ensures var r := UpdateModel(m, start, expired, now);
            var grown := Get(m.filter) >= m.fullBw * 1.25;
            && r.filter == m.filter
            && r.fullBw == (if m.mode == Startup && start && grown then Get(m.filter) else m.fullBw)
            && r.fullBwCount == (if m.mode != Startup || !start then m.fullBwCount else if grown then 0 else m.fullBwCount + 1)
  {
    hide Get, Gain, HighGain, DrainGain;
  }

  /** A timeout starts the search over but keeps the model of the path; a duplicate ACK is counted and changes
      nothing. */
  lemma LossKeepsModel(b: Bbr)
    ensures var r := Step(b, Timeout);
            && r == b.(mode := Startup, cwnd := 5840, pacingGain := r.pacingGain, cwndGain := r.cwndGain, fullBw := 0.0,
                       fullBwCount := 0, filledPipe := false, cycleIndex := 0, dupAcks := 0)
            && r.pacingGain == r.cwndGain == 2.885390081777927
    ensures Step(b, DupAck) == b.(dupAcks := b.dupAcks + 1)
  {
  }

  lemma NonNegative(gain: real, rate: real, min: nat)
    requires gain > 0.0 && rate >= 0.0
    ensures gain * (rate * min as real / 1000.0) >= 0.0
  {
    var x := rate * min as real / 1000.0;
    assert x >= 0.0;
  }

  /** A gain times the bandwidth-delay product: rate in bytes per second, min in milliseconds. */
  function Gained(gain: real, rate: real, min: nat): real {
    gain * (rate * min as real / 1000.0)
  }

  /** The target is that product, rounded down and at most what 32 bits hold. */
  lemma TargetIs(gain: real, rate: real, min: nat)
    requires gain > 0.0 && rate >= 0.0
    ensures TargetCwnd(gain, rate, min) == Min(Gained(gain, rate, min).Floor, TWO_32 - 1)
  {
    NonNegative(gain, rate, min);
  }

  /** min is the estimate of the run es, or 0 while there is none. */
  ghost predicate RoundTrip(es: seq<Event>, min: nat) {
    if Unsampled(es) then min == 0 else IsMinimum(es, min)
  }

  /** rate is the bandwidth estimate of the run es. */
  ghost predicate Bandwidth(es: seq<Event>, rate: real) {
    if Samples(es) == [] then rate == 0.0 else IsWindowMax(rate, Samples(es), Last(Samples(es)), 10)
  }

  /** After every ACK of every run: four segments in PROBE_RTT, otherwise the gain of the mode times the windowed
      maximum of the delivery rates times the minimum round trip, rounded down and at most what 32 bits hold, but at
      least four segments. */
  lemma WindowFromSamples(es: seq<Event>) returns (rate: real, min: nat)
    requires es != [] && es[|es| - 1].AckOf?
    ensures Bandwidth(es, rate) && RoundTrip(es, min)
    ensures var b := Run(BBR_INIT, es);
            b.cwnd == if b.mode == ProbeRtt then 5840
                      else Max(Min(Gained(WindowGain(b.mode), rate, min).Floor, TWO_32 - 1), 5840)
  {
    var n := |es| - 1;
    var before, b := Run(BBR_INIT, es[..n]), Run(BBR_INIT, es);
    hide Run, Step, FilterOk, ModesOk, Bandwidth, RoundTrip, Samples, TargetCwnd, Get, Gained, WindowGain;
    RunLast(es);
    RunOk(es[..n]);
    RunOk(es);
    GainsExactly(before, es[n]);
    GetNonNegative(b, Samples(es));
    WindowIs(before, es[n]);
    rate, min := Get(b.filter), if b.rtprop.None? then 0 else b.rtprop.value;
    EstimatesOf(es);
    GainPositive(b.mode);
    TargetIs(WindowGain(b.mode), rate, min);
  }

  lemma GainPositive(mode: Mode)
    ensures WindowGain(mode) > 0.0
  {
  }

  lemma EstimatesOf(es: seq<Event>)
    ensures var b := Run(BBR_INIT, es);
            Bandwidth(es, Get(b.filter)) && RoundTrip(es, if b.rtprop.None? then 0 else b.rtprop.value)
  {
    hide Run, Unsampled, IsMinimum, Samples, Get, IsWindowMax, Last;
    MinimumExactly(es);
    BandwidthIsWindowMax(es);
  }

  lemma WindowIs(b: Bbr, e: Event)
    requires e.AckOf?
    ensures var r := Step(b, e);
            var min := if r.rtprop.None? then 0 else r.rtprop.value;
            r.cwnd == if r.mode == ProbeRtt then 5840 else Max(TargetCwnd(r.cwndGain, Get(r.filter), min), 5840)
  {
    hide Step, Measured, UpdateModel, StartsRound, Taken, Update, TargetCwnd, Get;
    MeasuredFacts(b, e);
  }
}
