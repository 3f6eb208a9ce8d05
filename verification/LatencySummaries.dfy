// The running summary of latencies that both credentials and time buckets keep: a moving average between the least
// and the greatest, where anything that is not positive is skipped.

module LatencySummaries {

  import opened Doubles
  import opened Smoothing

  datatype LatencySummary = LatencySummary(average: real, least: real, greatest: real)

  // Nothing seen: an average of zero, and a least latency nothing can exceed.
  function NoLatencies(): LatencySummary {
    LatencySummary(0.0, MaxDouble(), 0.0)
  }

  function WithLatency(s: LatencySummary, latency: real, alpha: real): LatencySummary {
    if latency <= 0.0 then s
    else
      LatencySummary(if s.average == 0.0 then latency else Blend(alpha, latency, s.average),
                     if latency < s.least then latency else s.least,
                     if latency > s.greatest then latency else s.greatest)
  }

  predicate AnyPositive(xs: seq<real>) {
    exists i :: 0 <= i < |xs| && xs[i] > 0.0
  }

  function Positives(xs: seq<real>): seq<real> {
    if xs == [] then []
    else Positives(xs[..|xs| - 1]) + if xs[|xs| - 1] > 0.0 then [xs[|xs| - 1]] else []
  }

  // The average is zero exactly when no positive latency was seen; otherwise it lies between the least and the
  // greatest positive latency, which the minimum and maximum are.
  ghost predicate RangeAgrees(s: LatencySummary, xs: seq<real>) {
    (s.average != 0.0 <==> AnyPositive(xs)) &&
    (if AnyPositive(xs) then
       0.0 < s.least <= s.average <= s.greatest && s.least in xs && s.greatest in xs
     else s == NoLatencies()) &&
    (forall i | 0 <= i < |xs| && xs[i] > 0.0 :: s.least <= xs[i] <= s.greatest)
  }

  // And the average smooths the positive latencies by alpha.
  ghost predicate SummaryAgrees(s: LatencySummary, xs: seq<real>, alpha: real) {
    RangeAgrees(s, xs) && s.average == Smoothed(Positives(xs), alpha)
  }

  lemma {:induction false} PositivesIff(xs: seq<real>)
    ensures Positives(xs) == [] <==> !AnyPositive(xs)
    decreases |xs|
  {
    if xs != [] {
      var front := xs[..|xs| - 1];
      PositivesIff(front);
      assert forall i | 0 <= i < |front| :: front[i] == xs[i];
      if AnyPositive(xs) && xs[|xs| - 1] <= 0.0 {
        var i :| 0 <= i < |xs| && xs[i] > 0.0;
        assert front[i] > 0.0;
      }
    }
  }

  lemma RangeOneMore(s: LatencySummary, xs: seq<real>, x: Latency, alpha: real)
    requires 0.0 <= alpha <= 1.0 && RangeAgrees(s, xs)
    ensures RangeAgrees(WithLatency(s, x, alpha), xs + [x])
  {
    var longer := xs + [x];
    assert longer[|xs|] == x;
    assert forall i | 0 <= i < |xs| :: longer[i] == xs[i];
    BlendIsBetween(alpha, x, s.average);
  }

  lemma AverageOneMore(s: LatencySummary, xs: seq<real>, x: real, alpha: real)
    requires (s.average != 0.0 <==> AnyPositive(xs)) && s.average == Smoothed(Positives(xs), alpha)
    ensures WithLatency(s, x, alpha).average == Smoothed(Positives(xs + [x]), alpha)
  {
    assert (xs + [x])[..|xs|] == xs;
    if x > 0.0 {
      PositivesIff(xs);
      SmoothedOneMore(Positives(xs), x, alpha);
    } else {
      assert Positives(xs + [x]) == Positives(xs);
    }
  }

  lemma SummaryOneMore(s: LatencySummary, xs: seq<real>, x: Latency, alpha: real)
    requires 0.0 <= alpha <= 1.0 && SummaryAgrees(s, xs, alpha)
    ensures SummaryAgrees(WithLatency(s, x, alpha), xs + [x], alpha)
  {
    RangeOneMore(s, xs, x, alpha);
    AverageOneMore(s, xs, x, alpha);
  }
}
