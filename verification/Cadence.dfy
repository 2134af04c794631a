/** Request timing per session, over a bounded window of timestamps. */
module Cadence {
  import opened Basics
  import opened JobTypes

  type History = seq<Time>

  /** The most recent `window` elements. */
  function Newest(h: History, window: nat): History {
    if |h| <= window then h else h[|h| - window..]
  }

  /** Append to a deque of at most `window` elements. */
  function Recorded(h: History, window: nat, t: Time): History {
    Newest(h + [t], window)
  }

  function Intervals(h: History): (r: seq<real>)
    requires |h| >= 1
    ensures |r| == |h| - 1
  {
    seq(|h| - 1, i requires 0 <= i < |h| - 1 => h[i + 1] - h[i])
  }

  function Sum(s: seq<real>): real {
    if s == [] then 0.0 else Sum(s[..|s| - 1]) + s[|s| - 1]
  }

  function AverageInterval(h: History): Option<real> {
    if |h| < 2 then None else Some(Sum(Intervals(h)) / |Intervals(h)| as real)
  }

  function Predicted(h: History): Option<Time> {
    if |h| < 2 then None else Some(h[|h| - 1] + AverageInterval(h).value)
  }

  function Rate(h: History): Option<real> {
    var interval := AverageInterval(h);
    if interval.None? || interval.value <= 0.0 then None else Some(1.0 / interval.value)
  }

  /** None stands for an infinite score. */
  function Score(h: History, now: Time): (score: Option<real>)
    ensures score.Some? ==> score.value > 0.0
  {
    if Rate(h).None? then None
    else
      var wait := Predicted(h).value - now;
      var timeUntil := if wait > 0.01 then wait else 0.01;
      assert 1.0 / timeUntil > 0.0;
      ProductIsPositive(Rate(h).value, 1.0 / timeUntil);
      Some(Rate(h).value * (1.0 / timeUntil))
  }

  lemma ProductIsPositive(a: real, b: real)
    requires a > 0.0 && b > 0.0
    ensures a * b > 0.0
  {
  }

  predicate Below(a: Option<real>, b: Option<real>) {
    a.Some? && (b.None? || a.value < b.value)
  }

  /** Seconds until the predicted next request, one hundredth at least. */
  function Wait(h: History, now: Time): (wait: real)
    requires |h| >= 2
    ensures wait >= 0.01
  {
    var wait := Predicted(h).value - now;
    if wait > 0.01 then wait else 0.01
  }

  /** The score is the request rate per second of waiting. */
  lemma ScoreIsRateOverWait(h: History, now: Time)
    ensures Score(h, now).Some? <==> Rate(h).Some?
    ensures Score(h, now).Some? ==> |h| >= 2 && Score(h, now).value * Wait(h, now) == Rate(h).value
  {
    if Rate(h).Some? {
      var wait := Wait(h, now);
      assert (Rate(h).value * (1.0 / wait)) * wait == Rate(h).value * ((1.0 / wait) * wait);
    }
  }

  /**
   * In terms of the timestamps: with n requests from `first` to `last`, the next is due one average gap after
   * `last`, and the score times the wait for it, a hundredth of a second at least, times `last - first` is n - 1.
   */
  lemma ScoreFromTimestamps(h: History, now: Time)
    ensures Score(h, now).Some? <==> |h| >= 2 && h[|h| - 1] > h[0]
    ensures |h| >= 2 ==>
      var gaps, first, last := (|h| - 1) as real, h[0], h[|h| - 1];
      && Predicted(h) == Some(last + (last - first) / gaps)
      && (Score(h, now).Some? ==>
           var wait := last + (last - first) / gaps - now;
           Score(h, now).value * (if wait > 0.01 then wait else 0.01) * (last - first) == gaps)
  {
    if |h| >= 2 {
      AverageIsSpanOverGaps(h);
      ScoreIsRateOverWait(h, now);
    }
  }

  lemma Scaled(a: real, b: real, x: real, y: real)
    requires a > 0.0 && 0.0 < x && x <= y && a * x >= b * y && b > 0.0
    ensures a >= b
  {
    if a < b {
      ProductIsPositive(b - a, y);
      if x < y {
        ProductIsPositive(a, y - x);
      }
    }
  }

  /** Of two sessions, the one that asks at least as often and is due no later is not evicted first. */
  lemma SoonerAndFasterStays(a: History, b: History, now: Time)
    requires Rate(a).Some? && Rate(b).Some?
    requires Rate(a).value >= Rate(b).value && Predicted(a).value <= Predicted(b).value
    ensures !Below(Score(a, now), Score(b, now))
  {
    ScoreIsRateOverWait(a, now);
    ScoreIsRateOverWait(b, now);
    Scaled(Score(a, now).value, Score(b, now).value, Wait(a, now), Wait(b, now));
  }

  /** Sessions that are due already are ranked by their rate alone. */
  lemma OverdueByRate(a: History, b: History, now: Time)
    requires Rate(a).Some? && Rate(b).Some?
    requires Predicted(a).value <= now && Predicted(b).value <= now
    ensures Below(Score(a, now), Score(b, now)) <==> Rate(a).value < Rate(b).value
  {
    ScoreIsRateOverWait(a, now);
    ScoreIsRateOverWait(b, now);
  }

  lemma {:induction false} IntervalsTelescope(h: History)
    requires |h| >= 1
    ensures Sum(Intervals(h)) == h[|h| - 1] - h[0]
  {
    if |h| > 1 {
      IntervalsTelescope(h[..|h| - 1]);
      assert Intervals(h)[..|h| - 2] == Intervals(h[..|h| - 1]);
    }
  }

  /** Only the two ends of the window matter. */
  lemma AverageIsSpanOverGaps(h: History)
    requires |h| >= 2
    ensures AverageInterval(h) == Some((h[|h| - 1] - h[0]) / (|h| - 1) as real)
    ensures Rate(h).Some? <==> h[|h| - 1] > h[0]
    ensures Rate(h).Some? ==> Rate(h).value * (h[|h| - 1] - h[0]) == (|h| - 1) as real
  {
    IntervalsTelescope(h);
    QuotientSign(h[|h| - 1] - h[0], (|h| - 1) as real);
  }

  lemma QuotientSign(a: real, b: real)
    requires b > 0.0
    ensures a / b > 0.0 <==> a > 0.0
    ensures a > 0.0 ==> (1.0 / (a / b)) * a == b
  {
    var q := a / b;
    assert q * b == a;
    if a > 0.0 && q <= 0.0 {
      ProductIsPositive(1.0 - q, b);
    }
    if q > 0.0 {
      ProductIsPositive(q, b);
      assert (1.0 / q) * (q * b) == ((1.0 / q) * q) * b;
    }
  }

  /** Recording one timestamp after another keeps exactly the newest ones. */
  function RecordAll(times: seq<Time>, window: nat): History {
    if times == [] then [] else Recorded(RecordAll(times[..|times| - 1], window), window, times[|times| - 1])
  }

  lemma {:induction false} WindowIsNewest(times: seq<Time>, window: nat)
    ensures RecordAll(times, window) == Newest(times, window)
  {
    if times != [] {
      WindowIsNewest(times[..|times| - 1], window);
      assert times[..|times| - 1] + [times[|times| - 1]] == times;
    }
  }

  /** The average over a whole run, from the raw timestamps. */
  lemma AverageOverRun(times: seq<Time>, window: nat, k: nat)
    requires k == |RecordAll(times, window)| >= 2
    ensures k == if |times| < window then |times| else window
    ensures AverageInterval(RecordAll(times, window))
      == Some((times[|times| - 1] - times[|times| - k]) / (k - 1) as real)
  {
    WindowIsNewest(times, window);
    AverageIsSpanOverGaps(RecordAll(times, window));
  }

  class StepCadenceTracker {
    const windowSize: nat
    var history: map<SessionId, History>

    constructor (windowSize: nat)
      ensures this.windowSize == windowSize && history == map[]
    {
      this.windowSize, history := windowSize, map[];
    }

    method Record(session: SessionId, now: Time)
      modifies this`history
      ensures history == old(history)[session := Recorded(Get(old(history), session, []), windowSize, now)]
    {
      if session !in history {
        history := history[session := []];
      }
      history := history[session := Recorded(history[session], windowSize, now)];
    }

    method AverageInterRequestInterval(session: SessionId) returns (r: Option<real>)
      ensures r == AverageInterval(Get(history, session, []))
    {
      var h := Get(history, session, []);
      if |h| < 2 {
        return None;
      }
      var intervals := [];
      var i := 0;
      while i < |h| - 1
        invariant 0 <= i <= |h| - 1
        invariant |intervals| == i && forall j :: 0 <= j < i ==> intervals[j] == h[j + 1] - h[j]
      {
        intervals := intervals + [h[i + 1] - h[i]];
        i := i + 1;
      }
      var total := 0.0;
      i := 0;
      while i < |intervals|
        invariant 0 <= i <= |intervals|
        invariant total == Sum(intervals[..i])
      {
        assert intervals[..i + 1][..i] == intervals[..i];
        total := total + intervals[i];
        i := i + 1;
      }
      assert intervals[..i] == intervals == Intervals(h);
      return Some(total / |intervals| as real);
    }
  }
}
