/** The timer as an object (`RttEstimator` in src/rtt.rs), updated in place. */
module RttEstimators {
  import opened Types
  import Rtt

  class RttEstimator {
    var srttMs: Option<nat>
    var rttvarMs: nat
    var backoffShift: nat

    function View(): Rtt.Rtt
      reads this
    {
      Rtt.Rtt(srttMs, rttvarMs, backoffShift)
    }

    constructor ()
      ensures View() == Rtt.FRESH
    {
      srttMs, rttvarMs, backoffShift := None, 0, 0;
    }

    method Sample(rttMs: nat)
      modifies this
      ensures View() == Rtt.Sample(old(View()), rttMs)
    {
      backoffShift := 0;
      match srttMs
      case None =>
        srttMs := Some(rttMs);
        rttvarMs := rttMs / 2;
      case Some(srtt) =>
        var delta := if srtt >= rttMs then srtt - rttMs else rttMs - srtt;
        rttvarMs := rttvarMs - rttvarMs / 4 + delta / 4;
        srttMs := Some(srtt - srtt / 8 + rttMs / 8);
    }

    method Rto() returns (rto: nat)
      ensures rto == Rtt.Rto(View())
    {
      var base := Rtt.MIN_RTO;
      if srttMs.Some? {
        base := Rtt.Clamp(srttMs.value + Max(Rtt.K * rttvarMs, Rtt.G_MS), Rtt.MIN_RTO, Rtt.MAX_RTO);
      }
      rto := Min(Rtt.Doubled(base, backoffShift), Rtt.MAX_RTO);
    }

    method BackOff()
      modifies this
      ensures View() == Rtt.BackOff(old(View()))
    {
      backoffShift := Min(backoffShift + 1, Rtt.MAX_SHIFT);
    }
  }
}
