/** Every run of a connection takes its timer and its BBR model through a run of their own, so that what is proved of
    those components over all histories holds of every connection. */
module Histories {
  import opened Types
  import opened SeqNum
  import opened Segments
  import opened Connection
  import opened Calls
  import opened Lifecycle
  import opened NewReno
  import opened Timeouts
  import opened Signals
  import BbrModes
  import TimerHistory
  import Congestion
  import Rtt

  // ---- one call ----

  /** What a call tells the timer: the sample of a new acknowledgement, or a timeout. */
  ghost predicate TimerHears(c: Conn, e: Event, news: seq<TimerHistory.TimerEvent>) {
    match e
    case ReceiveEvent(s, _, now) =>
      exists t: Option<nat> :: IsSample(c, s, now, t) &&
        news == if Advances(c, s) && t.Some? then [TimerHistory.Measured(t.value)] else []
    case TickEvent(now) => news == if RtoFires(c, now) then [TimerHistory.TimedOut] else []
    case _ => news == []
  }

  function Feed(t: Rtt.Rtt, news: seq<TimerHistory.TimerEvent>): Rtt.Rtt
    requires |news| <= 1
  {
    if news == [] then t else
      match news[0]
      case Measured(r) => Rtt.Sample(t, r)
      case TimedOut => Rtt.BackOff(t)
  }

  lemma TimerStep(c: Conn, e: Event) returns (news: seq<TimerHistory.TimerEvent>)
    ensures |news| <= 1 && TimerHears(c, e, news) && Apply(c, e).0.rtt == Feed(c.rtt, news)
  {
    hide OnSegment, OnTick, PollTransmit, Advances, RtoFires, Segment, IsSample, Repeats, RepeatsThird, Rtt.Sample,
      Rtt.BackOff;
    news := [];
    match e {
      case ReceiveEvent(s, env, now) =>
        var t := SegmentTold(c, s, env, now);
        if Advances(c, s) && t.Some? {
          news := [TimerHistory.Measured(t.value)];
        }
      case TickEvent(now) =>
        var _, _, _, _ := TickExactly(c, now);
        if RtoFires(c, now) {
          news := [TimerHistory.TimedOut];
        }
      case PollEvent(now) => PollFrame(c, now);
      case _ =>
    }
  }

  lemma Fed(hist: seq<TimerHistory.TimerEvent>, news: seq<TimerHistory.TimerEvent>)
    requires |news| <= 1
    ensures TimerHistory.After(hist + news) == Feed(TimerHistory.After(hist), news)
  {
    if news == [] {
      assert hist + news == hist;
    } else {
      assert (hist + news)[..|hist|] == hist;
    }
  }

  // ---- whole runs ----

  /** A component's view of a call: what it hears. */
  type Hears<!T> = (Conn, Event, seq<T>) -> bool

  /** The calls told a component exactly `hist`, in order: call i added the entries from mark i to mark i + 1. */
  ghost predicate Told<T>(hears: Hears<T>, c: Conn, es: seq<Event>, hist: seq<T>, marks: seq<nat>) {
    && |marks| == |es| + 1 && marks[0] == 0 && marks[|es|] == |hist|
    && (forall i :: 0 <= i < |es| ==> marks[i] <= marks[i + 1])
    && (forall i :: 0 <= i <= |es| ==> marks[i] <= |hist|)
    && forall i :: 0 <= i < |es| ==> hears(Driven(c, es[..i]), es[i], hist[marks[i]..marks[i + 1]])
  }

  lemma ToldMore<T>(hears: Hears<T>, c: Conn, es: seq<Event>, hist: seq<T>, marks: seq<nat>, news: seq<T>)
    requires es != [] && Told(hears, c, es[..|es| - 1], hist, marks)
    requires hears(Driven(c, es[..|es| - 1]), es[|es| - 1], news)
    ensures Told(hears, c, es, hist + news, marks + [|hist| + |news|])
  {
    hide Driven;
    var n := |es| - 1;
    var all, ms := hist + news, marks + [|hist| + |news|];
    forall i | 0 <= i < |es|
      ensures hears(Driven(c, es[..i]), es[i], all[ms[i]..ms[i + 1]])
    {
      if i < n {
        assert es[..n][..i] == es[..i];
        assert all[ms[i]..ms[i + 1]] == hist[marks[i]..marks[i + 1]];
      } else {
        assert all[ms[i]..ms[i + 1]] == news;
      }
    }
  }

  ghost function ToTimer(): Hears<TimerHistory.TimerEvent> {
    (c, e, news) => TimerHears(c, e, news)
  }

  /** In every run of a connection that starts with a new timer, the timer is the one of the history it has been told:
      the round-trip samples of its new acknowledgements and its timeouts. */
  lemma {:induction false} TimerOfRun(c: Conn, es: seq<Event>) returns (hist: seq<TimerHistory.TimerEvent>, marks: seq<nat>)
    requires c.rtt == Rtt.FRESH
    ensures Driven(c, es).rtt == TimerHistory.After(hist) && Told(ToTimer(), c, es, hist, marks)
  {
    hist, marks := [], [0];
    if es != [] {
      var n := |es| - 1;
      hist, marks := TimerOfRun(c, es[..n]);
      var news := TimerStep(Driven(c, es[..n]), es[n]);
      DrivenStep(c, es);
      assert ToTimer()(Driven(c, es[..n]), es[n], news);
      hide Driven, Apply, Told, TimerHears, Feed, TimerHistory.After, ToTimer;
      Fed(hist, news);
      ToldMore(ToTimer(), c, es, hist, marks, news);
      hist, marks := hist + news, marks + [|hist| + |news|];
    }
  }

  // ---- BBR ----

  /** What a call tells BBR: a new acknowledgement with its bytes and its sample, a duplicate, or a timeout. */
  ghost predicate BbrHears(c: Conn, e: Event, news: seq<BbrModes.Event>) {
    match e
    case ReceiveEvent(s, _, now) =>
      exists t: Option<nat> :: IsSample(c, s, now, t) &&
        news == if Advances(c, s) then [BbrModes.AckOf(Sub(s.ackno, c.send.una), t, now)]
                else if Repeats(c, s) then [BbrModes.DupAck] else []
    case TickEvent(now) => news == if RtoFires(c, now) then [BbrModes.Timeout] else []
    case _ => news == []
  }

  lemma BbrStep(c: Conn, e: Event) returns (news: seq<BbrModes.Event>)
    requires c.cong.BbrArm? && !e.BbrEvent?
    ensures |news| <= 1 && BbrHears(c, e, news)
    ensures Apply(c, e).0.cong == if news == [] then c.cong else Congestion.BbrArm(BbrModes.Step(c.cong.bbr, news[0]))
  {
    hide OnSegment, OnTick, PollTransmit, Advances, RtoFires, Segment, IsSample, Repeats, RepeatsThird,
      Congestion.BbrOnAck,
      Congestion.BbrOnTimeout, Sub;
    news := [];
    match e {
      case ReceiveEvent(s, env, now) =>
        var t := SegmentTold(c, s, env, now);
        if Advances(c, s) {
          news := [BbrModes.AckOf(Sub(s.ackno, c.send.una), t, now)];
        } else if Repeats(c, s) {
          news := [BbrModes.DupAck];
        }
      case TickEvent(now) =>
        var _, _, _, _ := TickExactly(c, now);
        if RtoFires(c, now) {
          news := [BbrModes.Timeout];
        }
      case PollEvent(now) => PollFrame(c, now);
      case _ =>
    }
  }

  lemma BbrFed(b: Congestion.Bbr, hist: seq<BbrModes.Event>, news: seq<BbrModes.Event>)
    requires |news| <= 1
    ensures BbrModes.Run(b, hist + news) ==
            if news == [] then BbrModes.Run(b, hist) else BbrModes.Step(BbrModes.Run(b, hist), news[0])
  {
    hide BbrModes.Step;
    if news == [] {
      assert hist + news == hist;
    } else {
      assert (hist + news)[..|hist|] == hist;
    }
  }

  ghost function ToBbr(): Hears<BbrModes.Event> {
    (c, e, news) => BbrHears(c, e, news)
  }

  /** In every run of a connection that has just switched to BBR and does not switch again, the controller is BBR
      after the events it has been told. */
  lemma {:induction false} BbrOfRun(c: Conn, es: seq<Event>) returns (hist: seq<BbrModes.Event>, marks: seq<nat>)
    requires c.cong == Congestion.BbrArm(Congestion.BBR_INIT) && forall e :: e in es ==> !e.BbrEvent?
    ensures Driven(c, es).cong == Congestion.BbrArm(BbrModes.Run(Congestion.BBR_INIT, hist))
    ensures Told(ToBbr(), c, es, hist, marks)
  {
    hist, marks := [], [0];
    if es != [] {
      var n := |es| - 1;
      hist, marks := BbrOfRun(c, es[..n]);
      assert es[n] in es;
      var news := BbrStep(Driven(c, es[..n]), es[n]);
      DrivenStep(c, es);
      assert ToBbr()(Driven(c, es[..n]), es[n], news);
      hide Driven, Apply, Told, BbrHears, BbrModes.Run, BbrModes.Step, ToBbr;
      BbrFed(Congestion.BBR_INIT, hist, news);
      ToldMore(ToBbr(), c, es, hist, marks, news);
      hist, marks := hist + news, marks + [|hist| + |news|];
    }
  }
}
