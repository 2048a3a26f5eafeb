/** The windowed-max filter (src/bbr.rs) agrees with a brute-force maximum over everything it was
    ever fed. */
module MaxFilter {
  import opened Types
  import opened Congestion

  /** The filter after a whole history of samples. */
  function Fed(window: nat, hist: seq<Sample>): Filter {
    if hist == [] then Filter(window, [])
    else Update(Fed(window, hist[..|hist| - 1]), hist[|hist| - 1].t, hist[|hist| - 1].v)
  }

  ghost predicate TimesAscend(s: seq<Sample>) {
    forall i, j :: 0 <= i < j < |s| ==> s[i].t <= s[j].t
  }

  ghost predicate ValuesFall(s: seq<Sample>) {
    forall i, j :: 0 <= i < j < |s| ==> s[i].v > s[j].v
  }

  /** At most `window` older than time t. */
  predicate Recent(s: Sample, t: nat, window: nat) {
    SatSub(t, s.t) <= window
  }

  /** v is the largest value among the samples that are recent at time t. */
  ghost predicate IsWindowMax(v: real, hist: seq<Sample>, t: nat, window: nat) {
    && (exists i :: 0 <= i < |hist| && Recent(hist[i], t, window) && hist[i].v == v)
    && (forall i :: 0 <= i < |hist| && Recent(hist[i], t, window) ==> hist[i].v <= v)
  }

  /** Sample s is outlived and not exceeded by some entry of the deque. */
  ghost predicate Dominated(s: Sample, dq: seq<Sample>) {
    exists j :: 0 <= j < |dq| && Outdoes(dq[j], s)
  }

  predicate Outdoes(d: Sample, s: Sample) {
    d.v >= s.v && d.t >= s.t
  }

  /** The deque falls in value, ascends in time, holds only samples that were fed, and dominates every
      recent one. */
  ghost predicate Sound(dq: seq<Sample>, hist: seq<Sample>, t: nat, window: nat) {
    && ValuesFall(dq) && TimesAscend(dq)
    && (forall j :: 0 <= j < |dq| ==> dq[j] in hist)
    && (forall s :: s in hist && Recent(s, t, window) ==> Dominated(s, dq))
  }

  lemma {:induction false} PopBackKeeps(dq: seq<Sample>, v: real)
    ensures PopBack(dq, v) <= dq
    ensures forall j :: 0 <= j < |PopBack(dq, v)| && ValuesFall(dq) ==> dq[j].v > v
    ensures forall j :: |PopBack(dq, v)| <= j < |dq| ==> dq[j].v <= v
  {
    if dq != [] && dq[|dq| - 1].v <= v {
      PopBackKeeps(dq[..|dq| - 1], v);
    }
  }

  lemma {:induction false} PopFrontKeeps(dq: seq<Sample>, t: nat, window: nat) returns (n: nat)
    requires TimesAscend(dq)
    ensures n <= |dq| && PopFront(dq, t, window) == dq[n..]
    ensures forall j :: 0 <= j < n ==> !Recent(dq[j], t, window)
    ensures forall j :: n <= j < |dq| ==> Recent(dq[j], t, window)
  {
    if dq != [] && SatSub(t, dq[0].t) > window {
      var m := PopFrontKeeps(dq[1..], t, window);
      n := m + 1;
      assert dq[1..][m..] == dq[n..];
      forall j | n <= j < |dq|
        ensures Recent(dq[j], t, window)
      {
        assert dq[j] == dq[1..][j - 1];
      }
      forall j | 0 <= j < n
        ensures !Recent(dq[j], t, window)
      {
        assert j > 0 ==> dq[j] == dq[1..][j - 1];
      }
    } else {
      n := 0;
    }
  }

  /** The deque with the new sample pushed, before stale ones leave. */
  function Pushed(dq: seq<Sample>, s: Sample): seq<Sample> {
    PopBack(dq, s.v) + [s]
  }

  lemma PushSound(dq: seq<Sample>, hist: seq<Sample>, t: nat, s: Sample, window: nat)
    requires Sound(dq, hist, t, window) && s.t >= t && (forall h :: h in hist ==> h.t <= s.t)
    ensures Sound(Pushed(dq, s), hist + [s], s.t, window)
  {
    var mid := Pushed(dq, s);
    var n := |mid| - 1;
    PopBackKeeps(dq, s.v);
    assert forall j :: 0 <= j < n ==> mid[j] == dq[j];
    assert mid[n] == s;
    forall h | h in hist + [s] && Recent(h, s.t, window)
      ensures Dominated(h, mid)
    {
      if h in hist {
        var j :| 0 <= j < |dq| && Outdoes(dq[j], h);
        assert dq[j] in hist;
        assert Outdoes(if j < n then mid[j] else mid[n], h);
      } else {
        assert Outdoes(mid[n], h);
      }
    }
  }

  lemma TrimSound(mid: seq<Sample>, hist: seq<Sample>, t: nat, window: nat)
    requires Sound(mid, hist, t, window)
    ensures Sound(PopFront(mid, t, window), hist, t, window)
    ensures forall s :: s in PopFront(mid, t, window) ==> Recent(s, t, window)
  {
    var n := PopFrontKeeps(mid, t, window);
    var dq := mid[n..];
    forall h | h in hist && Recent(h, t, window)
      ensures Dominated(h, dq)
    {
      var j :| 0 <= j < |mid| && Outdoes(mid[j], h);
      assert Recent(mid[j], t, window);
      assert Outdoes(dq[j - n], h);
    }
  }

  function Last(hist: seq<Sample>): nat {
    if hist == [] then 0 else hist[|hist| - 1].t
  }

  lemma {:induction false} FedSound(window: nat, hist: seq<Sample>)
    requires TimesAscend(hist)
    ensures Fed(window, hist).window == window
    ensures Sound(Fed(window, hist).dq, hist, Last(hist), window)
    ensures forall s :: s in Fed(window, hist).dq ==> Recent(s, Last(hist), window)
  {
    if hist != [] {
      var n := |hist| - 1;
      var dq := Fed(window, hist[..n]).dq;
      FedSound(window, hist[..n]);
      PushSound(dq, hist[..n], Last(hist[..n]), hist[n], window);
      assert hist[..n] + [hist[n]] == hist;
      TrimSound(Pushed(dq, hist[n]), hist, hist[n].t, window);
    }
  }

  /** For any samples fed at non-decreasing times, `get` is the maximum of all of them whose age at the
      last update is at most the window, and the deque falls strictly in value. */
  lemma FilterIsBruteForceMax(window: nat, hist: seq<Sample>)
    requires TimesAscend(hist) && hist != []
    ensures IsWindowMax(Get(Fed(window, hist)), hist, Last(hist), window)
    ensures ValuesFall(Fed(window, hist).dq)
  {
    FedSound(window, hist);
    var dq := Fed(window, hist).dq;
    var last := hist[|hist| - 1];
    assert Recent(last, Last(hist), window) && last in hist && Dominated(last, dq);
    assert dq[0] in hist && dq[0] in dq;
    forall i | 0 <= i < |hist| && Recent(hist[i], Last(hist), window)
      ensures hist[i].v <= dq[0].v
    {
      assert hist[i] in hist;
      var j :| 0 <= j < |dq| && Outdoes(dq[j], hist[i]);
    }
  }
}
