/** The signal evaluator (script.js `generateSignalFor`): classifies the last point of a bar prefix. */
module Signals {
  import opened Options
  import opened Bars
  import opened Indicators

  /** The two strategies; thresholds and periods arrive already typed. */
  datatype Strategy =
    | PriceLevel(buyLevel: real, sellLevel: real)
    | MaCross(maShort: Period, maLong: Period)

  /** The classification. The source emits Persian text labels; `Label` below
      maps each classification to its label. */
  datatype Signal = NoData | Neutral | Buy | Sell | InsufficientData | InvalidConfig

  /** The strategy-specific fields that accompany a classification. */
  datatype Context =
    | NoContext
    | Levels(buyLevel: real, sellLevel: real)
    | Averages(maShort: Option<real>, maLong: Option<real>)

  /** The record returned for one evaluation point. */
  datatype Evaluation = Evaluation(signal: Signal, lastPrice: Option<nat>, context: Context)

  /** Crossover test on the averages at the previous and at the current point:
      a golden cross is a buy, a death cross a sell. Both cannot hold at once,
      so the order of the two tests does not matter. */
  function Crossover(prevShort: real, prevLong: real, curShort: real, curLong: real): (r: Signal)
    ensures r == Buy <==> prevShort <= prevLong && curShort > curLong
    ensures r == Sell <==> prevShort >= prevLong && curShort < curLong
    ensures r == Neutral <==> !(r == Buy || r == Sell)
  {
    if prevShort <= prevLong && curShort > curLong then Buy
    else if prevShort >= prevLong && curShort < curLong then Sell
    else Neutral
  }

  /** The price-level branch for a non-empty prefix whose last bar is `last`:
      the buy test comes first, and the last close is reported. */
  function PriceLevelSignal(last: Bar, buyLevel: real, sellLevel: real): (r: Evaluation)
    ensures r.lastPrice == Some(last.close) && r.context == Levels(buyLevel, sellLevel)
    ensures r.signal == Buy <==> last.close as real <= buyLevel
    ensures r.signal == Sell <==> buyLevel < last.close as real && sellLevel <= last.close as real
    ensures r.signal == Neutral <==> buyLevel < last.close as real < sellLevel
  {
    var signal :=
      if last.close as real <= buyLevel then Buy
      else if last.close as real >= sellLevel then Sell
      else Neutral;
    Evaluation(signal, Some(last.close), Levels(buyLevel, sellLevel))
  }

  /** The moving-average branch for a non-empty prefix. */
  function CrossSignal(history: seq<Bar>, short: Period, long: Period): (r: Evaluation)
    requires history != []
    // short >= long: invalid whatever the data.
    ensures short >= long ==> r == Evaluation(InvalidConfig, None, NoContext)
    // Both averages exist at the last two points exactly when there are more
    // bars than the long period.
    ensures short < long ==> (r.signal == InsufficientData <==> |history| <= long)
    // Fewer than two bars: nothing attached.
    ensures short < long && |history| < 2 ==> r == Evaluation(InsufficientData, None, NoContext)
    // Two bars or more: the last close and the current averages, absent or not.
    ensures short < long && 2 <= |history| ==>
      && r.lastPrice == Some(history[|history| - 1].close)
      && r.context == Averages(SmaAt(history, short, |history| - 1), SmaAt(history, long, |history| - 1))
    // With enough data: decided by the trailing means with and without the last bar.
    ensures short < long < |history| ==>
      var n := |history|;
      var curShort := TrailingMean(history, short);
      var curLong := TrailingMean(history, long);
      && r.signal == Crossover(TrailingMean(history[..n - 1], short),
                               TrailingMean(history[..n - 1], long), curShort, curLong)
      && r.lastPrice == Some(history[n - 1].close)
      && r.context == Averages(Some(curShort), Some(curLong))
  {
    if short >= long then Evaluation(InvalidConfig, None, NoContext)
    else
      var n := |history|;
      if n < 2 then Evaluation(InsufficientData, None, NoContext)
      else
        var prevShort, prevLong := SmaAt(history, short, n - 2), SmaAt(history, long, n - 2);
        var curShort, curLong := SmaAt(history, short, n - 1), SmaAt(history, long, n - 1);
        var signal :=
          if prevShort.Some? && prevLong.Some? && curShort.Some? && curLong.Some?
          then Crossover(prevShort.value, prevLong.value, curShort.value, curLong.value)
          else InsufficientData;
        SmaAtEnd(history, short);
        SmaAtEnd(history, long);
        Evaluation(signal, Some(history[n - 1].close), Averages(curShort, curLong))
  }

  /** `generateSignalFor` on the prefix `history`: no data for an empty prefix,
      otherwise the branch of the strategy. */
  function Evaluate(history: seq<Bar>, strategy: Strategy): (r: Evaluation)
    ensures history == [] <==> r.signal == NoData
    ensures history == [] ==> r == Evaluation(NoData, None, NoContext)
    ensures r.signal == InvalidConfig <==>
      history != [] && strategy.MaCross? && strategy.maShort >= strategy.maLong
  {
    match Latest(history)
    case None => Evaluation(NoData, None, NoContext)
    case Some(last) =>
      match strategy
      case PriceLevel(buyL, sellL) => PriceLevelSignal(last, buyL, sellL)
      case MaCross(s, l) => CrossSignal(history, s, l)
  }

  /** The keyword whose presence in a label makes the backtest treat it as a buy. */
  const BuyWord: string := "خرید"

  /** The keyword whose presence in a label makes the backtest treat it as a sell. */
  const SellWord: string := "فروش"

  /** The source's text labels. */
  const NoDataLabel: string := "no-data"  // no data, script.js:151
  const NeutralLabel: string := "خنثی"  // neutral, script.js:156
  const BuyLevelLabel: string := "خرید پیشنهادی"  // suggested buy (price level), script.js:157
  const SellLevelLabel: string := "فروش پیشنهادی"  // suggested sell (price level), script.js:158
  const InvalidConfigLabel: string := "پارامتر اشتباه (MA کوتاه باید کوچک\U{200C}تر باشد)"  // wrong parameter: the short average must be shorter, script.js:163
  const ShortHistoryLabel: string := "داده ناکافی"  // insufficient data (fewer than two bars), script.js:170
  const BuyCrossLabel: string := "سیگنال خرید (Golden Cross)"  // buy signal (golden cross), script.js:175
  const SellCrossLabel: string := "سیگنال فروش (Death Cross)"  // sell signal (death cross), script.js:176
  const MissingAverageLabel: string := "داده ناکافی برای MA"  // insufficient data for the averages, script.js:178

  /** The text label the source emits for an evaluation. Buy and sell have one
      label per strategy; "insufficient data" has a short label when there are
      fewer than two bars and a longer one when an average is missing. */
  function Label(e: Evaluation): string
  {
    match e.signal
    case NoData => NoDataLabel
    case Neutral => NeutralLabel
    case Buy => if e.context.Levels? then BuyLevelLabel else BuyCrossLabel
    case Sell => if e.context.Levels? then SellLevelLabel else SellCrossLabel
    case InsufficientData => if e.lastPrice.None? then ShortHistoryLabel else MissingAverageLabel
    case InvalidConfig => InvalidConfigLabel
  }

  /** `t` occurs as a contiguous part of `s` (JavaScript `s.includes(t)`). */
  predicate IsInfix(t: string, s: string)
    ensures t == [] ==> IsInfix(t, s)
    ensures IsInfix(t, s) ==> |t| <= |s|
  {
    assert t == [] ==> OccursAt(t, s, 0);
    exists i: nat | i <= |s| :: OccursAt(t, s, i)
  }

  /** `t` occurs in `s` starting at index `i`. */
  predicate OccursAt(t: string, s: string, i: nat)
  {
    i + |t| <= |s| && s[i..i + |t|] == t
  }

  /** A text that lacks one of the keyword's characters does not contain the keyword. */
  lemma MissingChar(t: string, s: string, c: char)
    requires c in t && c !in s
    ensures !IsInfix(t, s)
  {
    var j :| 0 <= j < |t| && t[j] == c;
    forall i: nat | i + |t| <= |s|
      ensures !OccursAt(t, s, i)
    {
      assert s[i..i + |t|][j] == s[i + j];
    }
  }

  // Which keywords each label contains, one label at a time.

  lemma NoDataLabelKeywords()
    ensures !IsInfix(BuyWord, NoDataLabel) && !IsInfix(SellWord, NoDataLabel)
  {
    MissingChar(BuyWord, NoDataLabel, BuyWord[0]);
    MissingChar(SellWord, NoDataLabel, SellWord[0]);
  }

  lemma NeutralLabelKeywords()
    ensures !IsInfix(BuyWord, NeutralLabel) && !IsInfix(SellWord, NeutralLabel)
  {
    MissingChar(BuyWord, NeutralLabel, BuyWord[3]);
    MissingChar(SellWord, NeutralLabel, SellWord[0]);
  }

  lemma BuyLevelLabelKeywords()
    ensures IsInfix(BuyWord, BuyLevelLabel) && !IsInfix(SellWord, BuyLevelLabel)
  {
    assert OccursAt(BuyWord, BuyLevelLabel, 0);
    MissingChar(SellWord, BuyLevelLabel, SellWord[0]);
  }

  lemma BuyCrossLabelKeywords()
    ensures IsInfix(BuyWord, BuyCrossLabel) && !IsInfix(SellWord, BuyCrossLabel)
  {
    assert OccursAt(BuyWord, BuyCrossLabel, 7);
    MissingChar(SellWord, BuyCrossLabel, SellWord[0]);
  }

  lemma SellLevelLabelKeywords()
    ensures !IsInfix(BuyWord, SellLevelLabel) && IsInfix(SellWord, SellLevelLabel)
  {
    MissingChar(BuyWord, SellLevelLabel, BuyWord[0]);
    assert OccursAt(SellWord, SellLevelLabel, 0);
  }

  lemma SellCrossLabelKeywords()
    ensures !IsInfix(BuyWord, SellCrossLabel) && IsInfix(SellWord, SellCrossLabel)
  {
    MissingChar(BuyWord, SellCrossLabel, BuyWord[0]);
    assert OccursAt(SellWord, SellCrossLabel, 7);
  }

  lemma ShortHistoryLabelKeywords()
    ensures !IsInfix(BuyWord, ShortHistoryLabel) && !IsInfix(SellWord, ShortHistoryLabel)
  {
    MissingChar(BuyWord, ShortHistoryLabel, BuyWord[0]);
    MissingChar(SellWord, ShortHistoryLabel, SellWord[3]);
  }

  lemma MissingAverageLabelKeywords()
    ensures !IsInfix(BuyWord, MissingAverageLabel) && !IsInfix(SellWord, MissingAverageLabel)
  {
    MissingChar(BuyWord, MissingAverageLabel, BuyWord[0]);
    MissingChar(SellWord, MissingAverageLabel, SellWord[3]);
  }

  lemma InvalidConfigLabelKeywords()
    ensures !IsInfix(BuyWord, InvalidConfigLabel) && !IsInfix(SellWord, InvalidConfigLabel)
  {
    MissingChar(BuyWord, InvalidConfigLabel, BuyWord[0]);
    MissingChar(SellWord, InvalidConfigLabel, SellWord[0]);
  }

  /** Matching labels by keyword, as the backtest does, recovers the
      classification exactly: only buy labels contain the buy keyword and only
      sell labels contain the sell keyword. */
  lemma LabelKeywords(e: Evaluation)
    ensures IsInfix(BuyWord, Label(e)) <==> e.signal == Buy
    ensures IsInfix(SellWord, Label(e)) <==> e.signal == Sell
  {
    match e.signal
    case NoData => NoDataLabelKeywords();
    case Neutral => NeutralLabelKeywords();
    case Buy => BuyLevelLabelKeywords(); BuyCrossLabelKeywords();
    case Sell => SellLevelLabelKeywords(); SellCrossLabelKeywords();
    case InsufficientData => ShortHistoryLabelKeywords(); MissingAverageLabelKeywords();
    case InvalidConfig => InvalidConfigLabelKeywords();
  }
}
