/** Worked runs of the evaluator and the backtest on small series: a price-level
    round trip, a buy the capital cannot pay for, a position closed by the end
    of the data, and a single golden cross. */
module Scenarios {
  import opened Options
  import opened Bars
  import opened Signals
  import opened Backtest
  import opened BacktestProperties

  /** Closes 100, 90, 120 on three days. */
  const LevelSeries: seq<Bar> := [Bar("d1", 100), Bar("d2", 90), Bar("d3", 120)]

  /** Buy at or below 95, sell at or above 115. */
  const Levels95To115: Strategy := PriceLevel(95.0, 115.0)

  /** Closes 10 on six days, then 20. */
  const CrossSeries: seq<Bar> :=
    [Bar("d1", 10), Bar("d2", 10), Bar("d3", 10), Bar("d4", 10), Bar("d5", 10), Bar("d6", 10), Bar("d7", 20)]

  /** Three-bar against five-bar average. */
  const Cross3Over5: Strategy := MaCross(3, 5)

  /** Day by day on the price-level series: neutral at 100, buy at 90, sell at 120. */
  lemma LevelSignals()
    ensures DaySignal(LevelSeries, SignalRule(Levels95To115), 0) == Neutral
    ensures DaySignal(LevelSeries, SignalRule(Levels95To115), 1) == Buy
    ensures DaySignal(LevelSeries, SignalRule(Levels95To115), 2) == Sell
  {
    assert LevelSeries[..1] == [Bar("d1", 100)];
    assert LevelSeries[..2] == [Bar("d1", 100), Bar("d2", 90)];
    assert LevelSeries[..3] == LevelSeries;
  }

  /** The run on the price-level series for any rule that gives its three signals:
      floor(capital / 90) units bought on the second day are sold on the third
      for a profit of 30 per unit. */
  lemma LevelRunOf(rule: seq<Bar> -> Signal, capital: int)
    requires capital >= 90
    requires DaySignal(LevelSeries, rule, 0) == Neutral
    requires DaySignal(LevelSeries, rule, 1) == Buy
    requires DaySignal(LevelSeries, rule, 2) == Sell
    ensures var q := capital / 90;
      Simulate(LevelSeries, rule, capital) ==
        Outcome([Trade("d2", 90, q, Some("d3"), Some(120), Some(30 * q))],
                Summary(q * 90, 30 * q, 1, 0, 1))
  {
    var q := capital / 90;
    assert BookAfter(LevelSeries, rule, capital, 1) == Flat;
    var bought := Book(Some(Position(90, "d2", q)), [Trade("d2", 90, q, None, None, None)], Summary(q * 90, 0, 0, 0, 0));
    assert BookAfter(LevelSeries, rule, capital, 2) == bought;
    assert Pnl(90, 120, q) == 30 * q > 0;
    assert BookAfter(LevelSeries, rule, capital, 3) ==
      Book(None, [Trade("d2", 90, q, Some("d3"), Some(120), Some(30 * q))], Summary(q * 90, 30 * q, 1, 0, 1));
  }

  /** With capital for at least one unit, the run buys floor(capital / 90) units on
      the second day and sells them on the third for a profit of 30 per unit: one
      win, no loss. */
  lemma LevelRoundTrip(capital: int)
    requires capital >= 90
    ensures var q := capital / 90;
      Simulate(LevelSeries, SignalRule(Levels95To115), capital) ==
        Outcome([Trade("d2", 90, q, Some("d3"), Some(120), Some(30 * q))],
                Summary(q * 90, 30 * q, 1, 0, 1))
  {
    LevelSignals();
    LevelRunOf(SignalRule(Levels95To115), capital);
  }

  /** With capital for less than one unit the buy day is skipped: no trade at all. */
  lemma LevelTooPoor(capital: int)
    requires capital < 90
    ensures Simulate(LevelSeries, SignalRule(Levels95To115), capital) == Outcome([], EmptySummary)
  {
    var rule := SignalRule(Levels95To115);
    LevelSignals();
    assert Quantity(capital, 90) <= 0;
    assert BookAfter(LevelSeries, rule, capital, 1) == Flat;
    assert BookAfter(LevelSeries, rule, capital, 2) == Flat;
    assert BookAfter(LevelSeries, rule, capital, 3) == Flat;
  }

  /** When the data ends on the buy day, the position is closed at that same bar:
      a profit of zero, counted as a loss. */
  lemma LevelForcedClose(capital: int)
    requires capital >= 90
    ensures var q := capital / 90;
      Simulate(LevelSeries[..2], SignalRule(Levels95To115), capital) ==
        Outcome([Trade("d2", 90, q, Some("d2"), Some(90), Some(0))], Summary(q * 90, 0, 0, 1, 1))
  {
    var rule := SignalRule(Levels95To115);
    var h := LevelSeries[..2];
    LevelSignals();
    assert h[..1] == LevelSeries[..1] && h[..2] == LevelSeries[..2];
    assert DaySignal(h, rule, 0) == Neutral && DaySignal(h, rule, 1) == Buy;
    BuyOnlyOnLastDay(h, rule, capital);
  }

  /** The averages of the crossover series: both are 10 up to day six; on day
      seven the three-bar average is 40/3 and the five-bar average 12. */
  lemma CrossMeans()
    ensures Indicators.TrailingMean(CrossSeries[..5], 3) == 10.0
    ensures Indicators.TrailingMean(CrossSeries[..5], 5) == 10.0
    ensures Indicators.TrailingMean(CrossSeries[..6], 3) == 10.0
    ensures Indicators.TrailingMean(CrossSeries[..6], 5) == 10.0
    ensures Indicators.TrailingMean(CrossSeries, 3) == 40.0 / 3.0
    ensures Indicators.TrailingMean(CrossSeries, 5) == 12.0
  {
    var w5 := CrossSeries[..5];
    var w6 := CrossSeries[..6];
    SumClosesBounds(w5[2..], 10, 10);
    SumClosesBounds(w5, 10, 10);
    SumClosesBounds(w6[3..], 10, 10);
    SumClosesBounds(w6[1..], 10, 10);
    SumClosesBounds(CrossSeries[4..6], 10, 10);
    SumClosesBounds(CrossSeries[2..6], 10, 10);
    SumClosesSnoc(CrossSeries, 4, 6);
    SumClosesSnoc(CrossSeries, 2, 6);
    assert CrossSeries[4..7] == CrossSeries[4..] && CrossSeries[2..7] == CrossSeries[2..];
    assert w5[0..] == w5;
  }

  /** The crossover strategy on growing prefixes of the series: not enough data
      through day five, neutral on day six (equal averages), and a golden cross
      on day seven. */
  lemma CrossSignals()
    ensures forall n :: 1 <= n <= 5 ==> Evaluate(CrossSeries[..n], Cross3Over5).signal == InsufficientData
    ensures Evaluate(CrossSeries[..6], Cross3Over5).signal == Neutral
    ensures Evaluate(CrossSeries, Cross3Over5).signal == Buy
  {
    CrossMeans();
    assert CrossSeries[..6][..5] == CrossSeries[..5];
    assert CrossSeries[..6] == CrossSeries[..|CrossSeries| - 1];
  }

  /** The same as day signals of the backtest: no buy before the last day, a buy on it. */
  lemma CrossDaySignals()
    ensures forall d :: 0 <= d < 6 ==> DaySignal(CrossSeries, SignalRule(Cross3Over5), d) != Buy
    ensures DaySignal(CrossSeries, SignalRule(Cross3Over5), 6) == Buy
  {
    CrossSignals();
    assert CrossSeries[..7] == CrossSeries;
  }

  /** The backtest of the crossover series buys floor(capital / 20) units on the
      golden cross of the last day and, the data ending there, closes them at the
      same bar: one trade with a profit of zero, counted as a loss. */
  lemma CrossRun(capital: int)
    requires capital >= 20
    ensures var q := capital / 20;
      Simulate(CrossSeries, SignalRule(Cross3Over5), capital) ==
        Outcome([Trade("d7", 20, q, Some("d7"), Some(20), Some(0))], Summary(q * 20, 0, 0, 1, 1))
  {
    CrossDaySignals();
    CrossRunOf(SignalRule(Cross3Over5), capital);
  }

  /** The run on the crossover series for any rule with no buy before the last
      day and a buy on it. */
  lemma CrossRunOf(rule: seq<Bar> -> Signal, capital: int)
    requires capital >= 20
    requires forall d :: 0 <= d < 6 ==> DaySignal(CrossSeries, rule, d) != Buy
    requires DaySignal(CrossSeries, rule, 6) == Buy
    ensures var q := capital / 20;
      Simulate(CrossSeries, rule, capital) ==
        Outcome([Trade("d7", 20, q, Some("d7"), Some(20), Some(0))], Summary(q * 20, 0, 0, 1, 1))
  {
    BuyOnlyOnLastDay(CrossSeries, rule, capital);
  }
}
