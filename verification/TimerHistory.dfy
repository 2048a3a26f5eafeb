/** The retransmission timer over every history of measurements and timeouts (src/rtt.rs, RFC 6298). */
module TimerHistory {
  import opened Types
  import opened Rtt

  datatype TimerEvent = Measured(r: nat) | TimedOut

  function After(hist: seq<TimerEvent>): Rtt {
    if hist == [] then FRESH else
      match hist[|hist| - 1]
      case Measured(r) => Sample(After(hist[..|hist| - 1]), r)
      case TimedOut => BackOff(After(hist[..|hist| - 1]))
  }

  /** The first measurement ever taken. */
  function First(hist: seq<TimerEvent>): Option<nat> {
    if hist == [] then None else
      var before := First(hist[..|hist| - 1]);
      if before.Some? then before
      else if hist[|hist| - 1].Measured? then Some(hist[|hist| - 1].r) else None
  }

  /** Timeouts since the last measurement. */
  function Timeouts(hist: seq<TimerEvent>): nat {
    if hist == [] || hist[|hist| - 1].Measured? then 0 else 1 + Timeouts(hist[..|hist| - 1])
  }

  ghost predicate Between(hist: seq<TimerEvent>, lo: nat, hi: nat) {
    forall e :: e in hist && e.Measured? ==> lo <= e.r <= hi
  }

  /** Replacing 1/8 of x by 1/8 of r, both truncated, leaves no interval that holds both. */
  lemma Smooth(x: nat, r: nat, lo: nat, hi: nat, part: nat)
    requires lo <= x <= hi && lo <= r <= hi && (part == 4 || part == 8)
    ensures lo <= x - x / part + r / part <= hi
  {
  }

  /** Despite the truncating shifts, SRTT stays between the least and the greatest measurement, and
      RTTVAR never exceeds half the first one or their spread. */
  lemma {:induction false} EstimatesBounded(hist: seq<TimerEvent>, lo: nat, hi: nat)
    requires Between(hist, lo, hi)
    ensures After(hist).srtt.Some? <==> First(hist).Some?
    ensures First(hist).Some? ==>
              && lo <= First(hist).value <= hi && lo <= After(hist).srtt.value <= hi
              && After(hist).rttvar <= Max(First(hist).value / 2, hi - lo)
  {
    if hist != [] {
      var n := |hist| - 1;
      var e := After(hist[..n]);
      EstimatesBounded(hist[..n], lo, hi);
      assert hist[n] in hist;
      if hist[n].Measured? && e.srtt.Some? {
        var spread := Max(First(hist[..n]).value / 2, hi - lo);
        Smooth(e.srtt.value, hist[n].r, lo, hi, 8);
        Smooth(e.rttvar, AbsDiff(e.srtt.value, hist[n].r), 0, spread, 4);
      }
    }
  }

  /** 2 to the power n. */
  function Pow2(n: nat): nat {
    if n == 0 then 1 else 2 * Pow2(n - 1)
  }

  lemma {:induction false} DoubledIs(base: nat, n: nat)
    ensures Doubled(base, n) == base * Pow2(n) && Doubled(base, n) >= base
  {
    if n > 0 {
      DoubledIs(base, n - 1);
    }
  }

  /** The timeout always lies in [200 ms, 60 s]. */
  lemma RtoBounded(e: Rtt)
    ensures MIN_RTO <= Rto(e) <= MAX_RTO
  {
    DoubledIs(Base(e), e.shift);
  }

  lemma {:induction false} ShiftCounts(hist: seq<TimerEvent>)
    ensures After(hist).shift == Min(Timeouts(hist), MAX_SHIFT)
  {
    if hist != [] {
      ShiftCounts(hist[..|hist| - 1]);
    }
  }

  /** After n timeouts in a row the RTO is the base doubled min(n, 6) times, capped at 60 s; the base
      itself is what the measurements alone give. */
  lemma BackedOff(hist: seq<TimerEvent>)
    ensures Rto(After(hist)) == Min(Base(After(hist)) * Pow2(Min(Timeouts(hist), MAX_SHIFT)), MAX_RTO)
    ensures Base(After(hist)) == Base(After(Measurements(hist)))
  {
    ShiftCounts(hist);
    DoubledIs(Base(After(hist)), After(hist).shift);
    TimeoutsKeepBase(hist);
  }

  /** The history without its timeouts. */
  function Measurements(hist: seq<TimerEvent>): seq<TimerEvent> {
    if hist == [] then [] else
      Measurements(hist[..|hist| - 1]) + if hist[|hist| - 1].Measured? then [hist[|hist| - 1]] else []
  }

  lemma {:induction false} TimeoutsKeepBase(hist: seq<TimerEvent>)
    ensures After(Measurements(hist)).srtt == After(hist).srtt
    ensures After(Measurements(hist)).rttvar == After(hist).rttvar
  {
    if hist != [] {
      var front := hist[..|hist| - 1];
      TimeoutsKeepBase(front);
      if hist[|hist| - 1].Measured? {
        var m := Measurements(hist);
        assert m[..|m| - 1] == Measurements(front) && m[|m| - 1] == hist[|hist| - 1];
      } else {
        assert Measurements(front) + [] == Measurements(front);
      }
    }
  }
}
