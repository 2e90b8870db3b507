/** Daily price bars, the input shared by the indicator, the signal evaluator and the backtest. */
module Bars {
  import opened Options

  /** One trading day of one instrument. Closing prices are whole numbers (the
      synthetic data rounds them); open, high, low and volume are never read by
      the engine and are not modelled. */
  datatype Bar = Bar(date: string, close: nat)

  /** `latest`: the last bar of a series, absent for an empty series. */
  function Latest(history: seq<Bar>): (r: Option<Bar>)
    ensures r.None? <==> history == []
    ensures r.Some? ==> r.value in history && r.value == history[|history| - 1]
  {
    if |history| == 0 then None else Some(history[|history| - 1])
  }

  /** Sum of the closing prices of `bars`, peeled from the end. */
  function SumCloses(bars: seq<Bar>): nat
  {
    if |bars| == 0 then 0 else SumCloses(bars[..|bars| - 1]) + bars[|bars| - 1].close
  }

  /** The sum also peels from the front: the view used when a close leaves the window. */
  lemma {:induction false} SumClosesCons(bars: seq<Bar>)
    requires |bars| > 0
    ensures SumCloses(bars) == bars[0].close + SumCloses(bars[1..])
  {
    if |bars| > 1 {
      var init := bars[..|bars| - 1];
      SumClosesCons(init);
      assert init[1..] == bars[1..][..|bars[1..]| - 1];
    }
  }

  /** Extending a slice by one bar on the right adds that bar's close. */
  lemma SumClosesSnoc(bars: seq<Bar>, lo: nat, hi: nat)
    requires lo <= hi < |bars|
    ensures SumCloses(bars[lo..hi + 1]) == SumCloses(bars[lo..hi]) + bars[hi].close
  {
    assert bars[lo..hi + 1][..hi - lo] == bars[lo..hi];
  }

  /** Closes that all lie in [lo, hi] sum to a value between |bars|*lo and |bars|*hi. */
  lemma {:induction false} SumClosesBounds(bars: seq<Bar>, lo: int, hi: int)
    requires forall k :: 0 <= k < |bars| ==> lo <= bars[k].close <= hi
    ensures |bars| * lo <= SumCloses(bars) <= |bars| * hi
  {
    if |bars| > 0 {
      var n := |bars|;
      SumClosesBounds(bars[..n - 1], lo, hi);
      assert n * lo == (n - 1) * lo + lo && n * hi == (n - 1) * hi + hi;
    }
  }
}
