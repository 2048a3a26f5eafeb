/** How far the integer timer of src/rtt.rs is from the formulas of RFC 6298, over every history of measurements: SRTT
    never strays by 7 ms or more, RTTVAR never by 10, and so the timeout by less than 47 ms of theirs before it is
    doubled. */
module Rfc6298 {
  import opened Types
  import opened TimerHistory
  import Rtt

  // ---- the formulas (section 2 of RFC 6298), in exact arithmetic ----

  function Abs(x: real): real {
    if x >= 0.0 then x else -x
  }

  datatype Exact = Exact(srtt: real, rttvar: real)

  /** SRTT and RTTVAR after the measurements of a history: alpha = 1/8, beta = 1/4, RTTVAR first. */
  function Exactly(hist: seq<TimerEvent>): (r: Option<Exact>)
    ensures r.None? <==> First(hist).None?
  {
    if hist == [] then None else
      var before := Exactly(hist[..|hist| - 1]);
      match hist[|hist| - 1]
      case TimedOut => before
      case Measured(r) =>
        if before.None? then Some(Exact(r as real, r as real / 2.0)) else Some(Smoothed(before.value, r as real))
  }

  function Smoothed(e: Exact, r: real): Exact {
    Exact(7.0 / 8.0 * e.srtt + 1.0 / 8.0 * r, 3.0 / 4.0 * e.rttvar + 1.0 / 4.0 * Abs(e.srtt - r))
  }

  /** RTO = SRTT + max(G, 4 RTTVAR), within the bounds the source sets. */
  function Timeout(e: Exact): real {
    Bounded(e.srtt + if 4.0 * e.rttvar >= 1.0 then 4.0 * e.rttvar else 1.0)
  }

  function Bounded(x: real): real {
    if x < 200.0 then 200.0 else if x > 60000.0 then 60000.0 else x
  }

  // ---- one measurement ----

  /** Truncating an eighth (or a quarter) of x away and an eighth of r in. */
  lemma Truncation(x: nat, r: nat, part: nat)
    requires part == 4 || part == 8
    ensures var y := x - x / part + r / part;
            part * y <= (part - 1) * x + r + (part - 1) && part * y >= (part - 1) * x + r - (part - 1)
  {
  }

  lemma Distances(a: real, b: real, r: real)
    ensures Abs(Abs(a - r) - Abs(b - r)) <= Abs(a - b)
  {
  }

  lemma DiffIs(a: nat, b: nat)
    ensures Rtt.AbsDiff(a, b) as real == Abs(a as real - b as real)
  {
  }

  lemma SrttClose(s: nat, r: nat, e: real)
    requires Abs(s as real - e) < 7.0
    ensures Abs((s - s / 8 + r / 8) as real - (7.0 / 8.0 * e + 1.0 / 8.0 * r as real)) < 7.0
  {
    Truncation(s, r, 8);
    var y := s - s / 8 + r / 8;
    assert 8.0 * y as real <= 7.0 * s as real + r as real + 7.0;
    assert 8.0 * y as real >= 7.0 * s as real + r as real - 7.0;
  }

  lemma RttvarClose(v: nat, d: nat, e: real, x: real)
    requires Abs(v as real - e) < 10.0 && Abs(d as real - x) < 7.0
    ensures Abs((v - v / 4 + d / 4) as real - (3.0 / 4.0 * e + 1.0 / 4.0 * x)) < 10.0
  {
    Truncation(v, d, 4);
    var y := v - v / 4 + d / 4;
    assert 4.0 * y as real <= 3.0 * v as real + d as real + 3.0;
    assert 4.0 * y as real >= 3.0 * v as real + d as real - 3.0;
  }

  /** Both estimates are close to the formulas'. */
  predicate Close(t: Rtt.Rtt, e: Exact) {
    t.srtt.Some? && Abs(t.srtt.value as real - e.srtt) < 7.0 && Abs(t.rttvar as real - e.rttvar) < 10.0
  }

  lemma MeasuredClose(t: Rtt.Rtt, e: Exact, r: nat)
    requires Close(t, e)
    ensures Close(Rtt.Sample(t, r), Smoothed(e, r as real))
  {
    var s := t.srtt.value;
    SrttClose(s, r, e.srtt);
    DiffIs(s, r);
    Distances(s as real, e.srtt, r as real);
    RttvarClose(t.rttvar, Rtt.AbsDiff(s, r), e.rttvar, Abs(e.srtt - r as real));
  }

  lemma FirstClose(r: nat)
    ensures Close(Rtt.Rtt(Some(r), r / 2, 0), Exact(r as real, r as real / 2.0))
  {
    assert 2 * (r / 2) <= r <= 2 * (r / 2) + 1;
  }

  // ---- every history ----

  /** Despite truncation at every step, SRTT stays within 7 ms and RTTVAR within 10 ms of RFC 6298, for ever. */
  lemma {:induction false} EstimatesFollow(hist: seq<TimerEvent>)
    ensures After(hist).srtt.Some? <==> First(hist).Some?
    ensures First(hist).Some? ==> Close(After(hist), Exactly(hist).value)
  {
    if hist != [] {
      var n := |hist| - 1;
      EstimatesFollow(hist[..n]);
      hide Close, Smoothed;
      if hist[n].Measured? {
        if First(hist[..n]).Some? {
          MeasuredClose(After(hist[..n]), Exactly(hist[..n]).value, hist[n].r);
        } else {
          FirstClose(hist[n].r);
        }
      } else {
        SameClose(After(hist[..n]), Exactly(hist));
      }
    }
  }

  lemma SameClose(t: Rtt.Rtt, e: Option<Exact>)
    requires e.Some? ==> Close(t, e.value)
    ensures e.Some? ==> Close(Rtt.BackOff(t), e.value)
  {
  }

  lemma BaseClose(t: Rtt.Rtt, e: Exact)
    requires Close(t, e)
    ensures Abs(Rtt.Base(t) as real - Timeout(e)) < 47.0
  {
  }

  /** The retransmission timeout of a history: with no measurement 200 ms, otherwise within 47 ms of the formula of
      RFC 6298, kept between 200 ms and 60 s; doubled for each of the last six timeouts in a row, and at most 60 s. */
  lemma TimeoutFollows(hist: seq<TimerEvent>) returns (base: nat)
    ensures Rtt.Rto(After(hist)) == Min(base * Pow2(Min(Timeouts(hist), 6)), 60_000)
    ensures 200 <= base <= 60_000
    ensures if First(hist).None? then base == 200 else Abs(base as real - Timeout(Exactly(hist).value)) < 47.0
  {
    base := Rtt.Base(After(hist));
    BackedOff(hist);
    EstimatesFollow(hist);
    if First(hist).Some? {
      BaseClose(After(hist), Exactly(hist).value);
    }
    hide Close, Rtt.Rto, Timeout, After, Timeouts, Pow2;
  }
}
