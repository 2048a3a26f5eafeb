/** How the CUBIC window moves (src/congestion.rs): towards the curve and never past it, downwards only on
    a loss signal or when the loss is repaired. */
module CubicGrowth {
  import opened Types
  import opened Congestion

  /** Outside recovery an ACK never shrinks the window; below the curve it moves at least one byte towards
      it without overshooting, above it by at most one segment; and slow start adds exactly one segment. */
  lemma AckGrows(c: Cubic, acked: u32, curve: Window, now: nat)
    requires !c.inRecovery
    ensures var r := CubicOnAck(c, acked, curve, now);
            && r.cwnd >= c.cwnd && !r.inRecovery && r.ssthresh == c.ssthresh
            && (acked == 0 ==> r.cwnd == c.cwnd)
            && (acked > 0 && c.cwnd < c.ssthresh ==> r.cwnd == Min(c.cwnd + MSS, TWO_32 - 1))
            && (acked > 0 && c.cwnd >= c.ssthresh ==>
                  if curve > c.cwnd then c.cwnd < r.cwnd <= curve else r.cwnd <= c.cwnd + MSS)
  {
    if acked > 0 && c.cwnd >= c.ssthresh {
      if curve > c.cwnd {
        StepWithin(curve - c.cwnd, Max(c.cwnd / MSS, 1));
      } else {
        RenoStep(c.cwnd);
      }
    }
  }

  lemma Quotient(n: nat, d: nat)
    requires d >= 1
    ensures n / d * d <= n && n / d <= n
  {
    var q := n / d;
    assert n == q * d + n % d;
    TimesAtLeast(q, 1, d);
  }

  lemma TimesAtLeast(q: nat, a: nat, b: nat)
    requires a <= b
    ensures q * a <= q * b
  {
  }

  lemma StepWithin(gap: nat, parts: nat)
    requires gap >= 1 && parts >= 1
    ensures 1 <= Max(gap / parts, 1) <= gap
  {
    Quotient(gap, parts);
  }

  lemma RenoStep(cwnd: Window)
    ensures 1 <= Max(MSS * MSS / cwnd, 1) <= MSS
  {
    Quotient(MSS * MSS, cwnd);
    TimesAtLeast(MSS * MSS / cwnd, MSS, cwnd);
  }

  datatype Event = Acked(acked: u32, curve: Window, now: nat) | Duplicate | Partial(acked: u32) | Timeout

  function Step(c: Cubic, e: Event): Cubic {
    match e
    case Acked(acked, curve, now) => CubicOnAck(c, acked, curve, now)
    case Duplicate => CubicOnDupAck(c).0
    case Partial(acked) => CubicOnPartialAck(c, acked)
    case Timeout => CubicOnTimeout(c)
  }

  /** The window falls only on the third duplicate ACK, on an ACK that ends or continues recovery, or on a
      timeout; and the threshold changes only with a loss signal, to the cut of the window of that moment. */
  lemma FallsOnlyOnLoss(c: Cubic, e: Event)
    ensures Step(c, e).cwnd < c.cwnd ==>
              e.Timeout? || e.Partial? || (e.Acked? && c.inRecovery) || (e.Duplicate? && c.dupAcks + 1 == DUP_ACK_THRESHOLD)
    ensures Step(c, e).ssthresh != c.ssthresh ==>
              && Step(c, e).ssthresh == BetaCut(c.cwnd)
              && (e.Timeout? || (e.Duplicate? && c.dupAcks + 1 == DUP_ACK_THRESHOLD))
    ensures Step(c, e).inRecovery && !c.inRecovery ==> e.Duplicate? && Step(c, e).cwnd == Step(c, e).ssthresh + 3 * MSS
    ensures !Step(c, e).inRecovery && c.inRecovery ==>
              (e.Acked? && Step(c, e).cwnd == c.ssthresh) || (e.Timeout? && Step(c, e).cwnd == MSS)
  {
    hide BetaCut;
    if e.Acked? && !c.inRecovery {
      AckGrows(c, e.acked, e.curve, e.now);
      hide CubicOnAck;
    }
  }

  // ---- the numbers ----

  /** 70% of the window, two segments at least, while seven times the window fits 32 bits. */
  lemma CutIs(cwnd: u32)
    requires cwnd <= 613_566_756
    ensures BetaCut(cwnd) == Max(cwnd * 7 / 10, 2920)
  {
    assert cwnd * 7 < TWO_32;
  }

  /** The window with n bytes more, as far as 32 bits go. */
  function Raised(cwnd: u32, n: nat): u32 {
    Min(cwnd + n, TWO_32 - 1)
  }

  /** k' is k after n new bytes have been acknowledged in congestion avoidance: a step towards the curve of the distance
      over the window in segments (rounded down, at least one byte), or above the curve one segment per window. */
  predicate Avoids(k: Cubic, curve: u32, now: nat, k': Cubic) {
    var gap, parts, step := curve - k.cwnd, k.cwnd / 1460, k'.cwnd - k.cwnd;
    && k' == k.(dupAcks := 0, cwnd := k'.cwnd, epoch := if k.epoch == 0 then now else k.epoch,
                wMax := if k.epoch == 0 then Max(k.wMax, k.cwnd) else k.wMax)
    && if gap > 0 then step >= 1 && (step * parts <= gap < (step + 1) * parts || (step == 1 && gap < parts))
       else k'.cwnd == Raised(k.cwnd, Max(1460 * 1460 / k.cwnd, 1))
  }

  lemma QuotientIs(n: nat, d: nat)
    requires d >= 1
    ensures n / d * d <= n < (n / d + 1) * d
  {
  }

  lemma AvoidsExactly(k: Cubic, acked: u32, curve: Window, now: nat)
    requires !k.inRecovery && acked > 0 && k.cwnd >= k.ssthresh
    ensures Avoids(k, curve, now, CubicOnAck(k, acked, curve, now))
  {
    var parts := k.cwnd / 1460;
    assert parts >= 1;
    if curve > k.cwnd {
      QuotientIs(curve - k.cwnd, parts);
      StepWithin(curve - k.cwnd, parts);
    }
  }
}
