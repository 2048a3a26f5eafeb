/** The adaptive retransmission timer (src/rtt.rs) as a value. */
module Rtt {
  import opened Types

  const K := 4
  const G_MS := 1
  const MIN_RTO := 200
  const MAX_RTO := 60_000
  const MAX_SHIFT := 6

  datatype Rtt = Rtt(srtt: Option<nat>, rttvar: nat, shift: nat)

  const FRESH := Rtt(None, 0, 0)

  function AbsDiff(a: nat, b: nat): nat {
    if a >= b then a - b else b - a
  }

  function Sample(e: Rtt, r: nat): Rtt {
    match e.srtt
    case None => Rtt(Some(r), r / 2, 0)
    case Some(srtt) =>
      Rtt(Some(srtt - srtt / 8 + r / 8), e.rttvar - e.rttvar / 4 + AbsDiff(srtt, r) / 4, 0)
  }

  function Clamp(x: nat, lo: nat, hi: nat): nat
    requires lo <= hi
  {
    if x < lo then lo else if x > hi then hi else x
  }

  /** `base << n` */
  function Doubled(base: nat, n: nat): nat {
    if n == 0 then base else 2 * Doubled(base, n - 1)
  }

  function Base(e: Rtt): nat {
    match e.srtt
    case None => MIN_RTO
    case Some(srtt) => Clamp(srtt + Max(K * e.rttvar, G_MS), MIN_RTO, MAX_RTO)
  }

  function Rto(e: Rtt): nat {
    Min(Doubled(Base(e), e.shift), MAX_RTO)
  }

  function BackOff(e: Rtt): Rtt {
    e.(shift := Min(e.shift + 1, MAX_SHIFT))
  }
}
