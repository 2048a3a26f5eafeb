/** BBR over whole runs (src/bbr.rs): which mode implies what, what the bandwidth estimate is, and how
    long STARTUP can last. */
module BbrModes {
  import opened Types
  import opened Congestion
  import opened MaxFilter

  datatype Event = AckOf(acked: u32, rtt: Option<nat>, now: nat) | DupAck | Timeout

  function Step(b: Bbr, e: Event): Bbr {
    match e
    case AckOf(acked, rtt, now) => BbrOnAck(b, acked, rtt, now)
    case DupAck => BbrOnDupAck(b).0
    case Timeout => BbrOnTimeout(b)
  }

  function Run(b: Bbr, es: seq<Event>): Bbr {
    if es == [] then b else Step(Run(b, es[..|es| - 1]), es[|es| - 1])
  }

  // ---- one acknowledgement, step by step ----

  /** The model just before the state machine runs. */
  function Measured(b: Bbr, e: Event): Bbr
    requires e.AckOf?
  {
    TakeRate(CountRound(AdoptRtt(b.(dupAcks := 0), e.rtt, e.now), e.now), e.acked, e.now)
  }

  predicate StartsRound(b: Bbr, e: Event) {
    e.AckOf? && RoundStarts(AdoptRtt(b.(dupAcks := 0), e.rtt, e.now), e.now)
  }

  /** The bandwidth the state machine reads. */
  function Reading(b: Bbr, e: Event): real
    requires e.AckOf?
  {
    Get(Measured(b, e).filter)
  }

  /** The delivery-rate sample an event contributes, if any. */
  function Taken(b: Bbr, e: Event): seq<Sample> {
    if e.AckOf? && b.hasDelivery && SatSub(e.now, b.deliveredTime) > 0 && e.acked > 0
    then [Sample(b.roundCount + if StartsRound(b, e) then 1 else 0,
                 e.acked as real * 1000.0 / SatSub(e.now, b.deliveredTime) as real)]
    else []
  }

  lemma MeasuredFacts(b: Bbr, e: Event)
    requires e.AckOf?
    ensures var m := Measured(b, e);
            && m.mode == b.mode && m.filledPipe == b.filledPipe && m.fullBw == b.fullBw && m.fullBwCount == b.fullBwCount
            && m.cycleIndex == b.cycleIndex && m.roundCount == b.roundCount + (if StartsRound(b, e) then 1 else 0)
            && m.filter == if Taken(b, e) == [] then b.filter else Update(b.filter, Taken(b, e)[0].t, Taken(b, e)[0].v)
    ensures Measured(b, e).probeRttDone == b.probeRttDone
    ensures Step(b, e) == RecomputeCwnd(UpdateModel(Measured(b, e), StartsRound(b, e), Expired(b, e.now), e.now))
  {
    hide Update, UpdateModel, RecomputeCwnd, RoundLength;
  }

  lemma RecomputeFrame(b: Bbr)
    ensures var r := RecomputeCwnd(b);
            && r == b.(cwnd := r.cwnd) && r.cwnd >= MIN_PIPE_CWND && (r.mode == ProbeRtt ==> r.cwnd == MIN_PIPE_CWND)
  {
    hide TargetCwnd;
  }

  // ---- the mode machine ----

  /** The pipe counts as filled exactly outside STARTUP; the window never falls below four segments and
      is exactly that in PROBE_RTT; the gain cycle stays inside its table; STARTUP is left at the third
      flat round and counts none before it has seen a bandwidth. */
  ghost predicate ModesOk(b: Bbr) {
    && (b.filledPipe <==> b.mode != Startup)
    && b.cwnd >= MIN_PIPE_CWND && (b.mode == ProbeRtt ==> b.cwnd == MIN_PIPE_CWND)
    && b.cycleIndex < |PROBE_BW_GAINS|
    && b.fullBw >= 0.0 && (b.mode == Startup ==> b.fullBwCount < FULL_BW_COUNT && (b.fullBw == 0.0 ==> b.fullBwCount == 0))
  }

  lemma UpdateModes(b: Bbr, roundStart: bool, expired: bool, now: nat)
    requires ModesOk(b) && Get(b.filter) >= 0.0
    ensures var r := RecomputeCwnd(UpdateModel(b, roundStart, expired, now));
            ModesOk(r) && r.filter == b.filter && r.roundCount == b.roundCount
    ensures b.mode != Startup ==> UpdateModel(b, roundStart, expired, now).mode != Startup
  {
    hide Get, Gain, HighGain, DrainGain;
    RecomputeFrame(UpdateModel(b, roundStart, expired, now));
    hide RecomputeCwnd;
  }

  /** The filter holds what the run has fed it, at non-decreasing rounds and never negative. */
  ghost predicate FilterOk(b: Bbr, hist: seq<Sample>) {
    && b.filter == Fed(BW_WINDOW_ROUNDS, hist) && TimesAscend(hist)
    && (forall s :: s in hist ==> s.v >= 0.0 && s.t <= b.roundCount)
  }

  /** All the samples a run from the initial state contributes, in order. */
  function Samples(es: seq<Event>): seq<Sample> {
    if es == [] then [] else
      var n := |es| - 1;
      Samples(es[..n]) + Taken(Run(BBR_INIT, es[..n]), es[n])
  }

  lemma GetNonNegative(b: Bbr, hist: seq<Sample>)
    requires FilterOk(b, hist)
    ensures Get(b.filter) >= 0.0
  {
    if hist != [] {
      FilterIsBruteForceMax(BW_WINDOW_ROUNDS, hist);
      var i :| 0 <= i < |hist| && Recent(hist[i], Last(hist), BW_WINDOW_ROUNDS) && hist[i].v == Get(b.filter);
      assert hist[i] in hist;
    }
  }

  lemma RateNonNegative(acked: nat, interval: nat)
    requires interval > 0
    ensures acked as real * 1000.0 / interval as real >= 0.0
  {
  }

  lemma TakenFacts(b: Bbr, e: Event)
    requires e.AckOf? && Taken(b, e) != []
    ensures var s := Taken(b, e)[0];
            Taken(b, e) == [s] && s.v >= 0.0 && s.t == b.roundCount + if StartsRound(b, e) then 1 else 0
  {
    hide StartsRound;
    RateNonNegative(e.acked, SatSub(e.now, b.deliveredTime));
  }

  lemma FeedOne(b: Bbr, e: Event, hist: seq<Sample>)
    requires FilterOk(b, hist) && e.AckOf?
    ensures FilterOk(Measured(b, e), hist + Taken(b, e))
  {
    MeasuredFacts(b, e);
    hide Measured, Update, RoundStarts, StartsRound, Step, RecomputeCwnd, UpdateModel, Expired, Fed, TimesAscend;
    var more := Taken(b, e);
    if more == [] {
      assert hist + more == hist;
    } else {
      TakenFacts(b, e);
      hide Taken;
      FedOne(b.filter, hist, more[0], b.roundCount);
      assert hist + more == hist + [more[0]];
    }
  }

  lemma FedOne(f: Filter, hist: seq<Sample>, s: Sample, round: nat)
    requires f == Fed(BW_WINDOW_ROUNDS, hist) && TimesAscend(hist) && (forall h :: h in hist ==> h.v >= 0.0 && h.t <= round)
    requires s.v >= 0.0 && s.t >= round
    ensures Update(f, s.t, s.v) == Fed(BW_WINDOW_ROUNDS, hist + [s]) && TimesAscend(hist + [s])
    ensures forall h :: h in hist + [s] ==> h.v >= 0.0 && h.t <= s.t
  {
    hide Update;
    var all := hist + [s];
    assert all[..|all| - 1] == hist;
    forall i, j | 0 <= i < j < |all|
      ensures all[i].t <= all[j].t
    {
      assert all[i] in hist;
    }
  }

  lemma {:induction false} RunOk(es: seq<Event>)
    ensures ModesOk(Run(BBR_INIT, es)) && FilterOk(Run(BBR_INIT, es), Samples(es))
  {
    if es != [] {
      var n := |es| - 1;
      var b := Run(BBR_INIT, es[..n]);
      RunOk(es[..n]);
      hide ModesOk, FilterOk, BbrOnAck;
      StepOk(b, es[n], Samples(es[..n]));
    }
  }

  lemma StepOk(b: Bbr, e: Event, hist: seq<Sample>)
    requires ModesOk(b) && FilterOk(b, hist)
    ensures ModesOk(Step(b, e)) && FilterOk(Step(b, e), hist + Taken(b, e))
  {
    if e.AckOf? {
      MeasuredFacts(b, e);
      FeedOne(b, e, hist);
      RecomputeFrame(b);
      hide Measured, BbrOnAck, RecomputeCwnd, UpdateModel, StartsRound, Taken, Fed, Update, TimesAscend, Get;
      var m := Measured(b, e);
      GetNonNegative(m, hist + Taken(b, e));
      assert ModesOk(m) by {
        MeasuredModes(b, e);
      }
      UpdateModes(m, StartsRound(b, e), Expired(b, e.now), e.now);
    } else {
      hide Fed, HighGain;
      assert hist + Taken(b, e) == hist;
    }
  }

  lemma MeasuredModes(b: Bbr, e: Event)
    requires ModesOk(b) && e.AckOf?
    ensures ModesOk(Measured(b, e))
  {
    hide Update, RoundLength;
  }

  /** In every reachable state the mode machine is consistent; in particular PROBE_RTT never falls back
      to STARTUP, and the gain table is never indexed out of range. */
  lemma ModeMachine(es: seq<Event>)
    ensures ModesOk(Run(BBR_INIT, es))
    ensures Run(BBR_INIT, es).mode == ProbeRtt ==> Run(BBR_INIT, es).filledPipe
  {
    RunOk(es);
  }

  /** In every reachable state the bottleneck-bandwidth estimate is the largest delivery rate ever
      sampled whose round is at most ten rounds before the last sample's. */
  lemma BandwidthIsWindowMax(es: seq<Event>)
    ensures var b := Run(BBR_INIT, es);
            if Samples(es) == [] then Get(b.filter) == 0.0
            else IsWindowMax(Get(b.filter), Samples(es), Last(Samples(es)), BW_WINDOW_ROUNDS)
  {
    RunOk(es);
    if Samples(es) != [] {
      FilterIsBruteForceMax(BW_WINDOW_ROUNDS, Samples(es));
    }
  }

  /** PROBE_RTT is entered from PROBE_BW only, and there exactly by an ACK that finds the minimum RTT
      unrefreshed for ten seconds. The comment on the mode in src/bbr.rs names DRAIN as well. */
  lemma ProbeRttFromProbeBwOnly(b: Bbr, e: Event)
    requires b.mode != ProbeRtt
    ensures Step(b, e).mode == ProbeRtt <==> b.mode == ProbeBw && e.AckOf? && Expired(b, e.now)
  {
    ModeEdges(b, e);
    hide Step, StartsRound, Reading;
  }

  /** The edges between modes, each with what takes it. `full` is the third flat round in a row. */
  lemma ModeEdges(b: Bbr, e: Event)
    ensures var r := Step(b, e).mode;
            if e.Timeout? then r == Startup
            else if e.DupAck? then r == b.mode
            else
              var start := StartsRound(b, e);
              var full := start && Reading(b, e) < b.fullBw * FULL_BW_THRESH && b.fullBwCount + 1 >= FULL_BW_COUNT;
              match b.mode
              case Startup => r == if full then Drain else Startup
              case Drain => r == if start then ProbeBw else Drain
              case ProbeBw => r == if Expired(b, e.now) then ProbeRtt else ProbeBw
              case ProbeRtt => r == if e.now < b.probeRttDone then ProbeRtt else if b.filledPipe then ProbeBw else Startup
  {
    hide Get, HighGain, DrainGain, Gain, BbrOnAck, RecomputeCwnd, StartsRound, Measured;
    if e.AckOf? {
      MeasuredFacts(b, e);
      RecomputeFrame(UpdateModel(Measured(b, e), StartsRound(b, e), Expired(b, e.now), e.now));
    }
  }

  // ---- STARTUP ends ----

  /** lo after k growth steps of 25%. */
  function Grown(lo: real, k: nat): real {
    if k == 0 then lo else FULL_BW_THRESH * Grown(lo, k - 1)
  }

  lemma {:induction false} GrownMonotone(lo: real, j: nat, k: nat)
    requires j <= k && 0.0 < lo
    ensures lo <= Grown(lo, j) <= Grown(lo, k)
  {
    if j < k {
      GrownMonotone(lo, j, k - 1);
    } else if j > 0 {
      GrownMonotone(lo, j - 1, k - 1);
    }
  }

  /** The event starts a round in which some bandwidth is read. */
  predicate Reads(b: Bbr, e: Event) {
    StartsRound(b, e) && Reading(b, e) > 0.0
  }

  /** How many rounds with a bandwidth to read have started in the run es from b. */
  function Rounds(b: Bbr, es: seq<Event>): nat {
    if es == [] then 0 else
      var n := |es| - 1;
      Rounds(b, es[..n]) + if Reads(Run(b, es[..n]), es[n]) then 1 else 0
  }

  /** Event i is no timeout, and if it starts a round, the bandwidth read then is none or lies in [lo, hi]. */
  predicate WithinAt(b: Bbr, es: seq<Event>, i: nat, lo: real, hi: real)
    requires i < |es|
  {
    var now := Run(b, es[..i]);
    !es[i].Timeout? && (StartsRound(now, es[i]) ==> Reading(now, es[i]) == 0.0 || lo <= Reading(now, es[i]) <= hi)
  }

  ghost predicate Within(b: Bbr, es: seq<Event>, lo: real, hi: real) {
    forall i :: 0 <= i < |es| ==> WithinAt(b, es, i, lo, hi)
  }

  lemma WithinPrefix(b: Bbr, es: seq<Event>, n: nat, lo: real, hi: real)
    requires n <= |es| && Within(b, es, lo, hi)
    ensures Within(b, es[..n], lo, hi)
  {
    forall i | 0 <= i < n
      ensures WithinAt(b, es[..n], i, lo, hi)
    {
      assert WithinAt(b, es, i, lo, hi);
      assert es[..n][..i] == es[..i];
    }
  }

  /** STARTUP after n rounds: nothing seen yet, or g growth rounds and `fullBwCount` flat ones since. */
  ghost predicate Climbing(b: Bbr, n: nat, g: nat, lo: real, hi: real) {
    && b.mode == Startup && b.fullBwCount < FULL_BW_COUNT
    && (if g == 0 then n == 0 && b.fullBw == 0.0 && b.fullBwCount == 0
        else n <= 3 * g - 2 + b.fullBwCount && Grown(lo, g - 1) <= b.fullBw <= hi)
  }

  lemma ClimbOne(m: Bbr, start: bool, x: bool, y: nat, n: nat, g: nat, lo: real, hi: real) returns (g': nat)
    requires Climbing(m, n, g, lo, hi) && 0.0 < lo
    requires start ==> Get(m.filter) == 0.0 || lo <= Get(m.filter) <= hi
    ensures var r := UpdateModel(m, start, x, y);
            r.mode == Startup ==> Climbing(r, n + if start && Get(m.filter) > 0.0 then 1 else 0, g', lo, hi)
  {
    hide Get, HighGain;
    g' := g;
    if start && Get(m.filter) > 0.0 && Get(m.filter) >= m.fullBw * FULL_BW_THRESH {
      g' := g + 1;
    }
    if g > 0 {
      GrownMonotone(lo, 0, g - 1);
    }
  }

  /** A plateau detector that has seen nothing: where every connection starts, and where a timeout leads. */
  predicate Unseen(b: Bbr) {
    b.mode == Startup && b.fullBw == 0.0 && b.fullBwCount == 0 && !b.filledPipe
  }

  /** The state a connection starts in, or one a timeout has just left. */
  ghost predicate Begins(b: Bbr) {
    b == BBR_INIT || exists before :: b == Step(before, Timeout)
  }

  lemma BeginsUnseen(b: Bbr)
    requires Begins(b)
    ensures Unseen(b)
  {
  }

  /** Some number of growth steps leads from any lo past any hi. */
  lemma GrowthExceeds(lo: real, hi: real) returns (k: nat)
    requires 0.0 < lo
    ensures Grown(lo, k) > hi
  {
    if hi <= 0.0 {
      k := 0;
    } else {
      k := (4.0 * hi / lo).Floor + 1;
      GrownLinear(lo, k);
      Archimedes(lo, hi, k);
    }
  }

  lemma Archimedes(lo: real, hi: real, k: nat)
    requires 0.0 < lo && k as real > 4.0 * hi / lo
    ensures lo * (1.0 + k as real / 4.0) > hi
  {
    var x := 4.0 * hi / lo;
    assert x * lo == 4.0 * hi;
    assert k as real * lo > x * lo;
  }

  lemma {:induction false} GrownLinear(lo: real, k: nat)
    requires 0.0 < lo
    ensures Grown(lo, k) >= lo * (1.0 + k as real / 4.0)
  {
    if k > 0 {
      GrownLinear(lo, k - 1);
      GrownMonotone(lo, 0, k - 1);
      LinearStep(lo, (k - 1) as real, Grown(lo, k - 1));
    }
  }

  lemma LinearStep(lo: real, j: real, g: real)
    requires 0.0 < lo <= g && g >= lo * (1.0 + j / 4.0)
    ensures FULL_BW_THRESH * g >= lo * (1.0 + (j + 1.0) / 4.0)
  {
    assert lo * (1.0 + (j + 1.0) / 4.0) == lo * (1.0 + j / 4.0) + lo / 4.0;
  }

  lemma {:induction false} Climb(b: Bbr, es: seq<Event>, lo: real, hi: real) returns (g: nat)
    requires Unseen(b)
    requires 0.0 < lo && Within(b, es, lo, hi)
    ensures var r := Run(b, es);
            if r.mode == Startup then Climbing(r, Rounds(b, es), g, lo, hi) && !r.filledPipe else r.filledPipe
  {
    g := 0;
    if es != [] {
      var n := |es| - 1;
      WithinPrefix(b, es, n, lo, hi);
      g := Climb(b, es[..n], lo, hi);
      assert WithinAt(b, es, n, lo, hi);
      hide Within, WithinAt, Run, Step;
      var prev := Run(b, es[..n]);
      if es[n].AckOf? {
        g := ClimbAck(prev, es[n], Rounds(b, es[..n]), g, lo, hi);
      }
    }
  }

  lemma ClimbAck(b: Bbr, e: Event, n: nat, g: nat, lo: real, hi: real) returns (g': nat)
    requires e.AckOf? && 0.0 < lo && (StartsRound(b, e) ==> Reading(b, e) == 0.0 || lo <= Reading(b, e) <= hi)
    requires if b.mode == Startup then Climbing(b, n, g, lo, hi) && !b.filledPipe else b.filledPipe
    ensures var r := Step(b, e);
            if r.mode == Startup then Climbing(r, n + (if Reads(b, e) then 1 else 0), g', lo, hi) && !r.filledPipe
            else r.filledPipe
  {
    MeasuredFacts(b, e);
    hide Measured, BbrOnAck, UpdateModel, RecomputeCwnd, StartsRound, Grown, Update, Taken;
    var start := StartsRound(b, e);
    var m := Measured(b, e);
    var expired := Expired(b, e.now);
    RecomputeFrame(UpdateModel(m, start, expired, e.now));
    FilledFollows(m, start, expired, e.now);
    g' := g;
    if b.mode == Startup {
      g' := ClimbOne(m, start, expired, e.now, n, g, lo, hi);
    }
  }

  lemma FilledFollows(m: Bbr, start: bool, x: bool, y: nat)
    requires m.filledPipe <==> m.mode != Startup
    ensures var r := UpdateModel(m, start, x, y);
            (r.filledPipe <==> r.mode != Startup) && (m.mode != Startup ==> r.mode != Startup)
  {
    hide Get, HighGain, DrainGain, Gain;
  }

  /** STARTUP ends: from the initial state or a timeout on, with every bandwidth read in [lo, hi], it is
      over after 3k + 1 rounds that read one, whenever k growth steps of 25% lead from lo past hi. */
  lemma StartupEnds(b: Bbr, es: seq<Event>, lo: real, hi: real, k: nat)
    requires Begins(b)
    requires 0.0 < lo && Within(b, es, lo, hi) && Grown(lo, k) > hi
    requires Rounds(b, es) >= 3 * k + 1
    ensures Run(b, es).mode != Startup && Run(b, es).filledPipe
  {
    BeginsUnseen(b);
    var g := Climb(b, es, lo, hi);
    hide Run, Rounds, Within, Climbing, Unseen, Begins;
    if Run(b, es).mode == Startup {
      ClimbBound(Run(b, es), Rounds(b, es), g, lo, hi, k);
    }
  }

  lemma ClimbBound(b: Bbr, n: nat, g: nat, lo: real, hi: real, k: nat)
    requires Climbing(b, n, g, lo, hi) && 0.0 < lo && Grown(lo, k) > hi
    ensures n <= 3 * k
  {
    hide Grown;
    if g > k {
      GrownMonotone(lo, k, g - 1);
    }
  }

  /** Whatever the bounds, there is such a k: the number of rounds depends on lo and hi alone. */
  lemma StartupBounded(lo: real, hi: real) returns (rounds: nat)
    requires 0.0 < lo
    ensures forall b, es {:trigger Within(b, es, lo, hi)} ::
              Begins(b) && Within(b, es, lo, hi) && Rounds(b, es) >= rounds ==> Run(b, es).mode != Startup
  {
    var k := GrowthExceeds(lo, hi);
    rounds := 3 * k + 1;
    hide Run, Rounds, Within, Grown, Begins;
    forall b, es | Begins(b) && Within(b, es, lo, hi) && Rounds(b, es) >= rounds
      ensures Run(b, es).mode != Startup
    {
      StartupEnds(b, es, lo, hi, k);
    }
  }
}
