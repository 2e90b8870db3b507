/** The indicator engine: simple moving averages of closing prices (script.js `computeSMA`). */
module Indicators {
  import opened Options
  import opened Bars

  /** A moving-average period; a period below one is caller misuse. */
  type Period = p: int | p >= 1 witness 1

  /** Definition of the average at index `i`: absent while fewer than `period`
      bars exist, otherwise the mean of the closes of bars i-period+1 ..= i. */
  function SmaAt(bars: seq<Bar>, period: Period, i: nat): (r: Option<real>)
    requires i < |bars|
    ensures r.Some? <==> period <= i + 1
  {
    if i + 1 < period then None
    else Some(SumCloses(bars[i + 1 - period..i + 1]) as real / period as real)
  }

  /** Mean of the last `period` closes of a series that has at least that many bars. */
  function TrailingMean(bars: seq<Bar>, period: Period): real
    requires period <= |bars|
  {
    SumCloses(bars[|bars| - period..]) as real / period as real
  }

  /** First index of the running window after `i` bars have been read. */
  function WindowStart(i: nat, period: Period): nat
  {
    if i >= period then i - period else 0
  }

  /** `computeSMA`: one pass with a running sum that adds the newest close and
      subtracts the close that leaves the window; the result agrees with the
      window definition at every index. */
  method ComputeSma(bars: seq<Bar>, period: Period) returns (sma: seq<Option<real>>)
    ensures |sma| == |bars|
    ensures forall i :: 0 <= i < |bars| ==> sma[i] == SmaAt(bars, period, i)
  {
    sma := [];
    var sum := 0;
    for i := 0 to |bars|
      invariant |sma| == i
      invariant forall k :: 0 <= k < i ==> sma[k] == SmaAt(bars, period, k)
      invariant sum == SumCloses(bars[WindowStart(i, period)..i])
    {
      var v := bars[i].close;
      sum := sum + v;
      SumClosesSnoc(bars, WindowStart(i, period), i);
      if i >= period {
        SumClosesCons(bars[i - period..i + 1]);
        assert bars[i - period..i + 1][1..] == bars[i + 1 - period..i + 1];
        sum := sum - bars[i - period].close;
      }
      assert sum == SumCloses(bars[WindowStart(i + 1, period)..i + 1]);
      var avg: Option<real> := if i >= period - 1 then Some(sum as real / period as real) else None;
      assert avg == SmaAt(bars, period, i);
      sma := sma + [avg];
    }
  }

  /** The average at the last index of a long enough series is its trailing mean,
      and the one just before it is the trailing mean of the series without its last bar. */
  lemma SmaAtEnd(bars: seq<Bar>, period: Period)
    ensures period < |bars| ==>
      && SmaAt(bars, period, |bars| - 1) == Some(TrailingMean(bars, period))
      && SmaAt(bars, period, |bars| - 2) == Some(TrailingMean(bars[..|bars| - 1], period))
  {
    var n := |bars|;
    if period < n {
      assert bars[n - period..n] == bars[n - period..];
      assert bars[n - 1 - period..n - 1] == bars[..n - 1][n - 1 - period..];
    }
  }

  /** A defined average lies between the lowest and the highest close of its window. */
  lemma SmaWithinWindow(bars: seq<Bar>, period: Period, i: nat, lo: int, hi: int)
    requires i < |bars| && period <= i + 1
    requires forall k :: i + 1 - period <= k <= i ==> lo <= bars[k].close <= hi
    ensures SmaAt(bars, period, i).Some?
    ensures lo as real <= SmaAt(bars, period, i).value <= hi as real
  {
    var w := bars[i + 1 - period..i + 1];
    SumClosesBounds(w, lo, hi);
    var p := period as real;
    var s := SumCloses(w) as real;
    assert p * lo as real <= s <= p * hi as real;
    assert lo as real <= s / p by {
      assert s / p * p == s;
    }
    assert s / p <= hi as real by {
      assert s / p * p == s;
    }
  }
}
