/** CUBIC and NewReno on a whole connection, in numbers: what every segment and every tick makes of the window and the
    threshold, where the recovery point is set, and how long an episode lasts (RFC 5681, RFC 6582). */
module Episodes {
  import opened Types
  import opened SeqNum
  import opened Segments
  import opened Connection
  import opened Calls
  import opened Lifecycle
  import opened AckField
  import opened System
  import opened EndToEnd
  import opened NewReno
  import opened Timeouts
  import opened Signals
  import CubicGrowth
  import opened Wrap
  import Retransmit
  import Congestion
  import Rtt

  // ---- the recovery point ----

  /** The recovery point moves to SND.NXT with the third duplicate acknowledgement in a row, and never otherwise. */
  lemma RecoverExactly(c: Conn, e: Event)
    ensures Apply(c, e).0.recover == if e.ReceiveEvent? && RepeatsThird(c, e.p) then c.send.nxt else c.recover
  {
    hide OnSegment, OnTick, PollTransmit, RepeatsThird, Segment, IsSample, Advances, Repeats;
    match e {
      case ReceiveEvent(s, env, now) => var _ := SegmentTold(c, s, env, now);
      case TickEvent(now) => TickFrame(c, now);
      case PollEvent(now) => PollFrame(c, now);
      case _ =>
    }
  }

  /** The cut of a window: 70%, two segments at least, as long as seven times it fits 32 bits. */
  predicate IsCut(cwnd: u32, cut: u32) {
    cut >= 2920 && (cwnd <= 613_566_756 ==> cut == Max(cwnd * 7 / 10, 2920))
  }

  /** Entry i is the first hole, this segment's SACK blocks included. */
  predicate FirstHole(c: Conn, s: Seg, i: int) {
    0 <= i < |c.retx.segs| && Hole(c, s, c.retx.segs[i]) && forall j :: 0 <= j < i ==> !Hole(c, s, c.retx.segs[j])
  }

  /** The first hole is the reply, re-stamped and counted; everything else in the queue is as SACK left it. */
  predicate HoleAnswered(c: Conn, s: Seg, now: nat, r: (Conn, Option<Seg>)) {
    && |r.0.retx.segs| == |c.retx.segs|
    && (exists i :: 0 <= i < |c.retx.segs| && FirstHole(c, s, i) && r.1 == Some(c.retx.segs[i].packet))
    && forall i :: 0 <= i < |c.retx.segs| ==>
         r.0.retx.segs[i] == Resent(c.retx.segs[i].(sacked := !Hole(c, s, c.retx.segs[i])), now,
                                    if FirstHole(c, s, i) then 1 else 0)
  }

  lemma MarkedEntries(c: Conn, s: Seg, m: seq<Retransmit.Unacked>)
    requires m == Marked(c, s).retx.segs
    ensures |m| == |c.retx.segs|
    ensures forall i :: 0 <= i < |m| ==> m[i] == c.retx.segs[i].(sacked := !Hole(c, s, c.retx.segs[i]))
  {
    hide Retransmit.Covers;
    if s.opts.sack == [] {
      assert forall x :: !Retransmit.Covered(s.opts.sack, x);
    }
  }

  lemma FirstHoleResent(c: Conn, s: Seg, m: Conn, now: nat)
    requires m.retx.segs == Marked(c, s).retx.segs
    ensures var r := RetransmitHole(m, now);
            if SomeHole(c, s) then HoleAnswered(c, s, now, (r.0, r.1)) && r.2 else r.1.None? && !r.2
  {
    MarkedEntries(c, s, m.retx.segs);
    hide Hole, Marked;
    var at := Retransmit.FirstUnsacked(m.retx.segs, 0);
    if at.Some? {
      assert Hole(c, s, c.retx.segs[at.value]);
      assert FirstHole(c, s, at.value);
      assert forall i :: FirstHole(c, s, i) ==> i == at.value;
    } else {
      assert forall i :: 0 <= i < |c.retx.segs| ==> m.retx.segs[i].sacked;
    }
  }

  lemma HoleSameOpt(c: Conn, d: Conn, s: Seg)
    requires d.retx == c.retx && d.opt.sackOk == c.opt.sackOk
    ensures SomeHole(d, s) == SomeHole(c, s)
    ensures forall now: nat, r :: HoleAnswered(d, s, now, r) == HoleAnswered(c, s, now, r)
  {
    assert forall x :: Hole(d, s, x) == Hole(c, s, x);
    hide Hole;
    assert forall i :: FirstHole(d, s, i) == FirstHole(c, s, i);
    hide FirstHole, Resent;
  }

  lemma RefreshedSack(c: Conn, s: Seg, now: nat)
    ensures var r := Refresh(Arrive(c, now), s); r.retx == c.retx && r.opt.sackOk == c.opt.sackOk
  {
    hide Scaled, After;
  }

  /** How the handler gets to the hole. */
  lemma DuplicateHandled(c: Conn, s: Seg, env: Env, now: nat)
    requires RepeatsThird(c, s)
    ensures var m := Marked(Refresh(c, s), s);
            var f := RetransmitHole(m.(cong := Congestion.OnDupAck(c.cong).0, recover := c.send.nxt), now);
            var o := Dispatch(c, s, env, now);
            o.0.send == Refresh(c, s).send && (f.2 ==> o == (f.0, f.1))
  {
    var c2 := Refresh(c, s);
    DuplicateIsOld(c, s);
    RefreshKeeps(c, s);
    MarkedKeeps(c2, s);
    OpenAck(c, s, env, now);
    AckFieldUnfold(c2, s, c.send.wnd, env, now);
    ThirdAsks(Marked(c2, s), now);
    hide Refresh, Marked, OnDuplicateAck, Reads, AckAcceptable, Dispatch, OnSynced, OnAckField, OnNewAck,
      MaybeChallenge,
      Congestion.OnDupAck, AckField.ThirdDuplicate, Between, RetransmitHole;
    HoleKeepsSend(Marked(c2, s).(cong := Congestion.OnDupAck(c.cong).0, recover := c.send.nxt), now);
  }

  lemma ThirdAsks(c: Conn, now: nat)
    requires AckField.ThirdDuplicate(c.cong)
    ensures OnDuplicateAck(c, now) == RetransmitHole(c.(cong := Congestion.OnDupAck(c.cong).0, recover := c.send.nxt), now)
  {
    hide RetransmitHole, Congestion.BetaCut;
  }

  lemma HoleKeepsSend(c: Conn, now: nat)
    ensures RetransmitHole(c, now).0.send == c.send
  {
    hide Retransmit.FastRetransmit;
  }

  lemma CutExactly(cwnd: u32)
    ensures IsCut(cwnd, Congestion.BetaCut(cwnd))
  {
    if cwnd <= 613_566_756 {
      CubicGrowth.CutIs(cwnd);
    }
  }

  /** What the third duplicate does to the controller. */
  predicate Cut(k: Congestion.Control, k': Congestion.Control) {
    && (k.BbrArm? ==> k' == Congestion.BbrArm(k.bbr.(dupAcks := 3)))
    && (k.CubicArm? ==>
          && k'.CubicArm? && IsCut(k.cubic.cwnd, k'.cubic.ssthresh) && k'.cubic.cwnd == k'.cubic.ssthresh + 4380
          && k'.cubic.dupAcks == 3 && k'.cubic.inRecovery && k'.cubic.wMax == k.cubic.cwnd && k'.cubic.epoch == 0)
  }

  lemma ThirdCuts(k: Congestion.Control)
    requires AckField.ThirdDuplicate(k)
    ensures Cut(k, Congestion.OnDupAck(k).0)
  {
    if k.CubicArm? {
      CutExactly(k.cubic.cwnd);
    }
    hide Congestion.BetaCut, IsCut;
  }

  /** The third duplicate acknowledgement in a row: the recovery point is SND.NXT, SND.UNA stays, the first hole is
      resent at once, and CUBIC enters recovery with the cut window as threshold and three segments on top. */
  lemma ThirdDuplicateExactly(c: Conn, s: Seg, env: Env, now: nat)
    requires RepeatsThird(c, s)
    ensures var r := OnSegment(c, s, env, now);
            && r.0.recover == c.send.nxt == r.0.send.nxt && r.0.send.una == c.send.una == s.ackno
            && Cut(c.cong, r.0.cong) && (SomeHole(c, s) ==> HoleAnswered(c, s, now, r))
  {
    var c1 := Arrive(c, now);
    var c2 := Refresh(c1, s);
    var m := Marked(c2, s).(cong := Congestion.OnDupAck(c.cong).0, recover := c.send.nxt);
    SameTests(c, s, now);
    assert c1.cong == c.cong && c1.send == c.send;
    hide Arrive, Refresh, Marked, HoleAnswered, SomeHole, Reads, AckAcceptable, Cut, Congestion.OnDupAck, Dispatch,
      RetransmitHole, Advances, Repeats, IsSample, AckField.ThirdDuplicate;
    RefreshedSack(c, s, now);
    RefreshKeeps(c1, s);
    HoleSameOpt(c, c2, s);
    ThirdCuts(c.cong);
    DuplicateIsOld(c, s);
    var t := SegmentTold(c, s, env, now);
    DuplicateHandled(c1, s, env, now);
    FirstHoleResent(c2, s, m, now);
  }

  // ---- the whole controller, by segment and by tick ----

  /** A recovery episode is under way after a call exactly if the call starts one (the third duplicate, under CUBIC) or
      does not end the one there was. */
  lemma EpisodeExactly(c: Conn, e: Event)
    ensures Congestion.InRecovery(Apply(c, e).0.cong) <==>
            match e
            case ReceiveEvent(s, _, now) =>
              || (RepeatsThird(c, s) && c.cong.CubicArm?)
              || (Congestion.InRecovery(c.cong) && !(Advances(c, s) && !Before(s.ackno, c.recover)))
            case TickEvent(now) => Congestion.InRecovery(c.cong) && !RtoFires(c, now)
            case BbrEvent => false
            case _ => Congestion.InRecovery(c.cong)
  {
    hide OnSegment, OnTick, PollTransmit, Advances, RtoFires, Before, Segment, RepeatsThird, IsSample, Repeats;
    match e {
      case ReceiveEvent(s, env, now) => SegmentEpisode(c, s, env, now);
      case TickEvent(now) =>
        var _, _, _, _ := TickExactly(c, now);
        TimeoutEndsRecovery(c.cong);
      case PollEvent(now) => PollFrame(c, now);
      case _ =>
    }
  }

  lemma SegmentEpisode(c: Conn, s: Seg, env: Env, now: nat)
    ensures Congestion.InRecovery(OnSegment(c, s, env, now).0.cong) <==>
            || (RepeatsThird(c, s) && c.cong.CubicArm?)
            || (Congestion.InRecovery(c.cong) && !(Advances(c, s) && !Before(s.ackno, c.recover)))
  {
    var t := SegmentTold(c, s, env, now);
    if Repeats(c, s) {
      DuplicateIsOld(c, s);
    }
    hide OnSegment, Advances, Before, Repeats, IsSample, Congestion.BetaCut, Rtt.Sample;
    OnAckEndsEpisode(c.cong, Sub(s.ackno, c.send.una), t, env.curve, now);
    hide Congestion.OnAck;
  }

  lemma OnAckEndsEpisode(k: Congestion.Control, acked: u32, t: Option<nat>, curve: Congestion.Window, now: nat)
    ensures !Congestion.InRecovery(Congestion.OnAck(k, acked, t, curve, now))
  {
  }

  /** The CUBIC controller after any segment, in numbers. k' is k after it. */
  predicate CubicHeard(c: Conn, s: Seg, curve: Congestion.Window, now: nat, k: Congestion.Cubic, k': Congestion.Cubic) {
    var acked := Sub(s.ackno, c.send.una);
    if Advances(c, s) then
      if k.inRecovery && Before(s.ackno, c.recover) then
        k' == k.(dupAcks := 0, cwnd := CubicGrowth.Raised(SatSub(k.cwnd, acked), 1460))
      else if k.inRecovery then k' == k.(dupAcks := 0, inRecovery := false, cwnd := k.ssthresh, epoch := 0)
      else if k.cwnd < k.ssthresh then k' == k.(dupAcks := 0, cwnd := CubicGrowth.Raised(k.cwnd, 1460))
      else CubicGrowth.Avoids(k, curve, now, k')
    else if RepeatsThird(c, s) then Cut(Congestion.CubicArm(k), Congestion.CubicArm(k'))
    else if Repeats(c, s) then
      k' == k.(dupAcks := k.dupAcks + 1, cwnd := if k.inRecovery then CubicGrowth.Raised(k.cwnd, 1460) else k.cwnd)
    else k' == k
  }

  lemma NewMeansBytes(una: u32, x: u32, nxt: u32)
    ensures Between(una, x, nxt) ==> Sub(x, una) > 0
  {
  }

  lemma AckHeard(k: Congestion.Cubic, acked: u32, curve: Congestion.Window, now: nat)
    requires acked > 0
    ensures var k' := Congestion.CubicOnAck(k, acked, curve, now);
            if k.inRecovery then k' == k.(dupAcks := 0, inRecovery := false, cwnd := k.ssthresh, epoch := 0)
            else if k.cwnd < k.ssthresh then k' == k.(dupAcks := 0, cwnd := CubicGrowth.Raised(k.cwnd, 1460))
            else CubicGrowth.Avoids(k, curve, now, k')
  {
    if !k.inRecovery && k.cwnd >= k.ssthresh {
      CubicGrowth.AvoidsExactly(k, acked, curve, now);
      hide Congestion.CubicOnAck, CubicGrowth.Avoids;
    }
  }

  lemma DuplicateHeard(k: Congestion.Cubic)
    requires k.dupAcks != 2
    ensures Congestion.CubicOnDupAck(k).0 ==
            k.(dupAcks := k.dupAcks + 1, cwnd := if k.inRecovery then CubicGrowth.Raised(k.cwnd, 1460) else k.cwnd)
  {
  }

  /** Any segment, in any state, under CUBIC: a partial ACK deflates the window by the bytes it acknowledges and adds a
      segment; a full one ends the episode at the threshold; outside one an ACK adds a segment below the threshold and
      steps towards the curve above it; the third duplicate cuts, later ones add a segment in recovery; and nothing else
      touches the controller. */
  lemma CubicSegment(c: Conn, s: Seg, env: Env, now: nat)
    requires c.cong.CubicArm?
    ensures var r := OnSegment(c, s, env, now).0;
            r.cong.CubicArm? && CubicHeard(c, s, env.curve, now, c.cong.cubic, r.cong.cubic)
  {
    var t := SegmentTold(c, s, env, now);
    var k := c.cong.cubic;
    hide OnSegment, IsSample, Before, Reads, AckAcceptable, Refresh, Duplicates, CubicGrowth.Avoids, Cut,
      Congestion.CubicOnAck,
      Congestion.CubicOnDupAck, Rtt.Sample;
    if Advances(c, s) {
      NewMeansBytes(c.send.una, s.ackno, c.send.nxt);
      AckHeard(k, Sub(s.ackno, c.send.una), env.curve, now);
    } else if RepeatsThird(c, s) {
      ThirdCuts(c.cong);
    } else if Repeats(c, s) {
      DuplicateHeard(k);
    }
    hide Sub, Between;
  }

  /** Any tick, in any state, in or out of an episode, under CUBIC: if some entry times out that neither RACK nor the
      tail probe resends, one segment of window is left, the threshold is the cut window, the old window is remembered
      and there is no episode; if none does, the controller is untouched. */
  lemma CubicTick(c: Conn, now: nat)
    requires c.cong.CubicArm?
    ensures var k, k' := c.cong.cubic, OnTick(c, now).0.cong;
            k'.CubicArm? &&
            if RtoFires(c, now) then
              && k'.cubic.cwnd == 1460 && IsCut(k.cwnd, k'.cubic.ssthresh) && k'.cubic.wMax == k.cwnd
              && k'.cubic.epoch == 0 && k'.cubic.dupAcks == 0 && !k'.cubic.inRecovery
            else k'.cubic == k
  {
    var _, _, _, _ := TickExactly(c, now);
    CutExactly(c.cong.cubic.cwnd);
    hide OnTick, RtoFires, IsCut, Congestion.BetaCut;
  }

  // ---- over runs ----

  /** An episode under way at A with its recovery point at n or later. */
  ghost predicate Under(s: Sys, n: u32) {
    && s.a.conn.Some? && Congestion.InRecovery(s.a.conn.value.cong)
    && Off(s.aIss, s.a.conn.value.recover) >= Off(s.aIss, n)
  }

  ghost predicate InEpisode(s: Sys) {
    s.a.conn.Some? && Congestion.InRecovery(s.a.conn.value.cong)
  }

  /** The recovery point never moves back while an episode lasts. */
  lemma PointAdvances(s: Sys, e: Event, n: u32)
    requires Reached(s) && Under(s, n) && InEpisode(StepA(s, e))
    ensures Under(StepA(s, e), n)
  {
    var c := s.a.conn.value;
    hide Reached, Apply, RepeatsThird, Between, Off, Deliverable;
    RecoverExactly(c, e);
    RecoveryPoint(s);
    AllNumbersLive(s, BareAck(c));
    BetweenOff(s.aIss, c.send.una, c.recover, c.send.nxt);
    hide Take;
  }

  lemma StepKeepsUnder(s: Sys, act: Action, n: u32)
    requires Reached(s) && Under(s, n) && InEpisode(Step(s, act))
    ensures Reached(Step(s, act)) && Under(Step(s, act), n)
  {
    hide Reached, StepA;
    match act {
      case AtA(e) =>
        PointAdvances(s, e, n);
        ReachedStepA(s, e);
      case AtB(e) =>
        ReachedStepB(s, e);
        OtherEnd(s, e);
    }
  }

  lemma OtherEnd(s: Sys, e: Event)
    ensures var t := Flip(StepA(Flip(s), e)); t.a == s.a && t.aIss == s.aIss
  {
    hide Local;
  }

  /** The episode lasts through the whole run. */
  ghost predicate Lasts(s: Sys, acts: seq<Action>) {
    forall i :: 0 <= i <= |acts| ==> InEpisode(Run(s, acts[..i]))
  }

  lemma {:induction false} RunKeepsUnder(s: Sys, acts: seq<Action>, n: u32)
    requires Reached(s) && Under(s, n) && Lasts(s, acts)
    ensures Reached(Run(s, acts)) && Under(Run(s, acts), n)
  {
    if acts != [] {
      var m := |acts| - 1;
      assert acts[..|acts|] == acts;
      assert forall i :: 0 <= i <= m ==> acts[..m][..i] == acts[..i];
      assert InEpisode(Run(s, acts[..|acts|]));
      hide Reached, Under, InEpisode, Step;
      RunKeepsUnder(s, acts[..m], n);
      StepKeepsUnder(Run(s, acts[..m]), acts[m], n);
    }
  }

  /** What ends it acknowledges the recovery point. */
  lemma EndsAtPoint(s: Sys, p: Seg, env: Env, now: nat, n: u32)
    requires Reached(s) && Under(s, n) && Deliverable(s.toA, p)
    requires !Congestion.InRecovery(OnSegment(s.a.conn.value, p, env, now).0.cong)
    ensures Advances(s.a.conn.value, p) && Off(s.aIss, p.ackno) >= Off(s.aIss, n)
  {
    var c := s.a.conn.value;
    hide Reached, OnSegment, Refresh, AckAcceptable, Paws, Off, RepeatsThird, Between, Deliverable, Has;
    SegmentEpisode(c, p, env, now);
    AllNumbersLive(s, p);
    BeforeOff(s.aIss, p.ackno, c.recover);
  }

  /** An episode entered with SND.NXT = n is, along every run in which it lasts, ended by no acknowledgement below n. */
  lemma EpisodeLasts(s: Sys, p: Seg, env: Env, now: nat, acts: seq<Action>, q: Seg, env': Env, now': nat)
    requires Reached(s) && s.a.conn.Some? && s.a.conn.value.cong.CubicArm? && Deliverable(s.toA, p)
    requires RepeatsThird(s.a.conn.value, p)
    requires var t := StepA(s, ReceiveEvent(p, env, now));
             && Lasts(t, acts) && Deliverable(Run(t, acts).toA, q)
             && !Congestion.InRecovery(OnSegment(Run(t, acts).a.conn.value, q, env', now').0.cong)
    ensures Off(s.aIss, q.ackno) >= Off(s.aIss, s.a.conn.value.send.nxt)
  {
    var c := s.a.conn.value;
    var t := StepA(s, ReceiveEvent(p, env, now));
    hide Reached, OnSegment, RepeatsThird, Deliverable, Lasts, Run, Off, Advances, Step;
    ReachedReceive(s, c, p, env, now);
    ThirdDuplicateExactly(c, p, env, now);
    hide SomeHole, HoleAnswered, IsCut;
    assert Under(t, c.send.nxt);
    hide StepA, Under;
    RunKeepsUnder(t, acts, c.send.nxt);
    SameOrigin(t, acts);
    assert t.aIss == s.aIss by { Origin(s, ReceiveEvent(p, env, now)); }
    EndsAtPoint(Run(t, acts), q, env', now', c.send.nxt);
  }

  lemma Origin(s: Sys, e: Event)
    ensures StepA(s, e).aIss == s.aIss && StepA(s, e).bIss == s.bIss
  {
    hide Local;
  }

  lemma {:induction false} SameOrigin(s: Sys, acts: seq<Action>)
    ensures Run(s, acts).aIss == s.aIss
  {
    if acts != [] {
      SameOrigin(s, acts[..|acts| - 1]);
      hide Local;
    }
  }
}
