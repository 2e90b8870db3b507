/** What a backtest run promises beyond its bookkeeping: trades open only on
    buy days, close only on sell days or at the last bar, and a strategy that
    never signals a buy trades nothing. */
module BacktestProperties {
  import opened Options
  import opened Bars
  import opened Signals
  import opened Backtest

  /** The days of one trade: the day it was opened and, once a sell signal has
      closed it, the day of that signal (absent while it is open, and for a
      trade that the end of the data closes). */
  datatype Span = Span(entry: nat, exit: Option<nat>)

  /** No sell signal on any day strictly between `lo` and `hi`. */
  ghost predicate NoSellBetween(history: seq<Bar>, rule: seq<Bar> -> Signal, lo: nat, hi: nat)
    requires hi <= |history|
  {
    forall j :: lo < j < hi ==> DaySignal(history, rule, j) != Sell
  }

  /** Trade `t` was opened on day `d`, before day `n`: a buy signal that day, and
      the trade's entry is that day's date and close. */
  ghost predicate OpenedOn(history: seq<Bar>, rule: seq<Bar> -> Signal, t: Trade, d: nat, n: nat)
    requires n <= |history|
  {
    d < n && DaySignal(history, rule, d) == Buy
    && t.entryDate == history[d].date && t.entryPrice == history[d].close
  }

  /** Trade `t`, opened on day `d`, was closed on day `e`, before day `n`, by the
      first sell signal after `d`, at that day's date and close. */
  ghost predicate ClosedOn(history: seq<Bar>, rule: seq<Bar> -> Signal, t: Trade, d: nat, e: nat, n: nat)
    requires n <= |history|
  {
    d < e < n && DaySignal(history, rule, e) == Sell && NoSellBetween(history, rule, d, e)
    && t.exitDate == Some(history[e].date) && t.exitPrice == Some(history[e].close)
  }

  /** The spans describe the book after `n` days, one per trade: each trade was
      opened on its entry day; one with an exit day was closed on it; one
      without is the last trade and the open position, with no sell signal
      since its entry; and each trade was closed before the next was opened. */
  ghost predicate Logged(history: seq<Bar>, rule: seq<Bar> -> Signal, b: Book, spans: seq<Span>, n: nat)
    requires n <= |history|
  {
    && |spans| == |b.trades|
    && (forall k :: 0 <= k < |spans| ==> OpenedOn(history, rule, b.trades[k], spans[k].entry, n))
    && (forall k :: 0 <= k < |spans| && spans[k].exit.Some? ==>
          ClosedOn(history, rule, b.trades[k], spans[k].entry, spans[k].exit.value, n))
    && (forall k :: 0 <= k < |spans| - 1 ==> spans[k].exit.Some? && spans[k].exit.value < spans[k + 1].entry)
    && (b.position.Some? <==> spans != [] && spans[|spans| - 1].exit.None?)
    && (b.position.Some? ==> NoSellBetween(history, rule, spans[|spans| - 1].entry, n))
  }

  /** On day `j` a position was open at the start of the day: `j` lies after the
      entry day of some trade and no later than its exit day, if any. */
  ghost predicate HeldOn(spans: seq<Span>, j: nat)
  {
    exists k :: 0 <= k < |spans| && spans[k].entry < j && (spans[k].exit.None? || j <= spans[k].exit.value)
  }

  /** Every day before `n` with a buy signal that the capital can pay for either
      opened a trade or fell while a position was already open. */
  ghost predicate NoMissedBuy(history: seq<Bar>, rule: seq<Bar> -> Signal, capital: int, spans: seq<Span>, n: nat)
    requires n <= |history| && PositivePrices(history)
  {
    forall j :: 0 <= j < n && DaySignal(history, rule, j) == Buy && Quantity(capital, history[j].close) > 0 ==>
      (exists k :: 0 <= k < |spans| && spans[k].entry == j) || HeldOn(spans, j)
  }

  /** The spans of the trades after the first `days` days, recorded alongside
      the book: a span opens with each trade and gets its exit day when a sell
      signal closes the trade. */
  ghost function Spans(history: seq<Bar>, rule: seq<Bar> -> Signal, capital: int, days: nat): (r: seq<Span>)
    requires days <= |history| && PositivePrices(history)
    ensures |r| == |BookAfter(history, rule, capital, days).trades|
  {
    if days == 0 then []
    else
      var i := days - 1;
      var b := BookAfter(history, rule, capital, i);
      var spans := Spans(history, rule, capital, i);
      var signal := DaySignal(history, rule, i);
      if b.position.None? && signal == Buy && Quantity(capital, history[i].close) > 0 then
        spans + [Span(i, None)]
      else if b.position.Some? && signal == Sell then
        spans[|spans| - 1 := Span(spans[|spans| - 1].entry, Some(i))]
      else
        spans
  }

  /** Day `i` opens a trade: the new span starts on day `i`. */
  lemma LoggedAfterBuy(history: seq<Bar>, rule: seq<Bar> -> Signal, capital: int, b: Book, spans: seq<Span>, i: nat)
    requires i < |history| && history[i].close > 0 && Shaped(b)
    requires Logged(history, rule, b, spans, i)
    requires b.position.None? && DaySignal(history, rule, i) == Buy && Quantity(capital, history[i].close) > 0
    ensures Logged(history, rule, Step(b, history[i], Buy, capital), spans + [Span(i, None)], i + 1)
  {
    var r := Step(b, history[i], Buy, capital);
    var s := spans + [Span(i, None)];
    forall k | 0 <= k < |spans|
      ensures r.trades[k] == b.trades[k] && s[k] == spans[k]
    {
    }
  }

  /** Opening a trade on day `i` misses no buy. */
  lemma NoMissedBuyAfterBuy(history: seq<Bar>, rule: seq<Bar> -> Signal, capital: int, spans: seq<Span>, i: nat)
    requires i < |history| && PositivePrices(history)
    requires NoMissedBuy(history, rule, capital, spans, i)
    ensures NoMissedBuy(history, rule, capital, spans + [Span(i, None)], i + 1)
  {
    var s := spans + [Span(i, None)];
    forall j | 0 <= j < i + 1 && DaySignal(history, rule, j) == Buy && Quantity(capital, history[j].close) > 0
      ensures (exists k :: 0 <= k < |s| && s[k].entry == j) || HeldOn(s, j)
    {
      if j == i {
        assert s[|spans|].entry == j;
      } else if k :| 0 <= k < |spans| && spans[k].entry == j {
        assert s[k].entry == j;
      } else {
        var k :| 0 <= k < |spans| && spans[k].entry < j && (spans[k].exit.None? || j <= spans[k].exit.value);
        assert s[k] == spans[k];
      }
    }
  }

  /** Day `i` closes the open trade: its span ends on day `i`. */
  lemma LoggedAfterSell(history: seq<Bar>, rule: seq<Bar> -> Signal, capital: int, b: Book, spans: seq<Span>, i: nat)
    requires i < |history| && history[i].close > 0 && Shaped(b)
    requires Logged(history, rule, b, spans, i)
    requires b.position.Some? && DaySignal(history, rule, i) == Sell
    ensures spans != []
    ensures Logged(history, rule, Step(b, history[i], Sell, capital),
                   spans[|spans| - 1 := Span(spans[|spans| - 1].entry, Some(i))], i + 1)
  {
    var r := Step(b, history[i], Sell, capital);
    var last := |spans| - 1;
    var s := spans[last := Span(spans[last].entry, Some(i))];
    forall k | 0 <= k < last
      ensures r.trades[k] == b.trades[k]
    {
      assert r.trades[k] == r.trades[..last][k];
    }
  }

  /** Closing the open trade on day `i` misses no buy: the earlier days that fell
      in its span still do, its exit day now being `i`. */
  lemma NoMissedBuyAfterSell(history: seq<Bar>, rule: seq<Bar> -> Signal, capital: int, spans: seq<Span>, i: nat)
    requires i < |history| && PositivePrices(history)
    requires spans != [] && spans[|spans| - 1].exit.None?
    requires NoMissedBuy(history, rule, capital, spans, i)
    requires DaySignal(history, rule, i) == Sell
    ensures NoMissedBuy(history, rule, capital, spans[|spans| - 1 := Span(spans[|spans| - 1].entry, Some(i))], i + 1)
  {
    var last := |spans| - 1;
    var s := spans[last := Span(spans[last].entry, Some(i))];
    forall j | 0 <= j < i + 1 && DaySignal(history, rule, j) == Buy && Quantity(capital, history[j].close) > 0
      ensures (exists k :: 0 <= k < |s| && s[k].entry == j) || HeldOn(s, j)
    {
      if k :| 0 <= k < |spans| && spans[k].entry == j {
        assert s[k].entry == j;
      } else {
        var k :| 0 <= k < |spans| && spans[k].entry < j && (spans[k].exit.None? || j <= spans[k].exit.value);
        assert s[k].entry < j && (s[k].exit.None? || j <= s[k].exit.value);
      }
    }
  }

  /** Any other day changes neither the book nor the spans. */
  lemma LoggedAfterIdle(history: seq<Bar>, rule: seq<Bar> -> Signal, capital: int, b: Book, spans: seq<Span>, i: nat)
    requires i < |history| && history[i].close > 0 && Shaped(b)
    requires Logged(history, rule, b, spans, i)
    requires !(b.position.None? && DaySignal(history, rule, i) == Buy && Quantity(capital, history[i].close) > 0)
    requires !(b.position.Some? && DaySignal(history, rule, i) == Sell)
    ensures Step(b, history[i], DaySignal(history, rule, i), capital) == b
    ensures Logged(history, rule, b, spans, i + 1)
  {
  }

  /** A day that opens nothing misses no buy: a buy signal on it either cannot be
      paid for or falls in the open position's span. */
  lemma NoMissedBuyAfterIdle(history: seq<Bar>, rule: seq<Bar> -> Signal, capital: int, b: Book, spans: seq<Span>, i: nat)
    requires i < |history| && PositivePrices(history)
    requires Logged(history, rule, b, spans, i)
    requires NoMissedBuy(history, rule, capital, spans, i)
    requires !(b.position.None? && DaySignal(history, rule, i) == Buy && Quantity(capital, history[i].close) > 0)
    ensures NoMissedBuy(history, rule, capital, spans, i + 1)
  {
    if DaySignal(history, rule, i) == Buy && Quantity(capital, history[i].close) > 0 {
      assert HeldOn(spans, i) by {
        var k := |spans| - 1;
        assert OpenedOn(history, rule, b.trades[k], spans[k].entry, i);
        assert spans[k].entry < i && spans[k].exit.None?;
      }
    }
  }

  /** The spans describe the book after every number of days. */
  lemma {:induction false} BookAfterLogged(history: seq<Bar>, rule: seq<Bar> -> Signal, capital: int, days: nat)
    requires days <= |history| && PositivePrices(history)
    ensures Logged(history, rule, BookAfter(history, rule, capital, days), Spans(history, rule, capital, days), days)
    ensures NoMissedBuy(history, rule, capital, Spans(history, rule, capital, days), days)
  {
    if days > 0 {
      var i := days - 1;
      BookAfterLogged(history, rule, capital, i);
      var b := BookAfter(history, rule, capital, i);
      var spans := Spans(history, rule, capital, i);
      var signal := DaySignal(history, rule, i);
      assert BookAfter(history, rule, capital, days) == Step(b, history[i], signal, capital);
      if b.position.None? && signal == Buy && Quantity(capital, history[i].close) > 0 {
        assert Spans(history, rule, capital, days) == spans + [Span(i, None)];
        LoggedAfterBuy(history, rule, capital, b, spans, i);
        NoMissedBuyAfterBuy(history, rule, capital, spans, i);
      } else if b.position.Some? && signal == Sell {
        assert Spans(history, rule, capital, days) == spans[|spans| - 1 := Span(spans[|spans| - 1].entry, Some(i))];
        LoggedAfterSell(history, rule, capital, b, spans, i);
        NoMissedBuyAfterSell(history, rule, capital, spans, i);
      } else {
        assert Spans(history, rule, capital, days) == spans;
        LoggedAfterIdle(history, rule, capital, b, spans, i);
        NoMissedBuyAfterIdle(history, rule, capital, b, spans, i);
      }
    }
  }

  /** The spans describe the trades of a finished run over `history`: each trade
      was opened on its entry day; one with an exit day was closed on it, by the
      first sell signal after its entry; one without is the last trade, no sell
      signal followed its entry, and it was closed at the last bar's date and
      close; and each trade was closed before the next was opened. */
  ghost predicate RunLogged(history: seq<Bar>, rule: seq<Bar> -> Signal, trades: seq<Trade>, spans: seq<Span>)
  {
    var n := |history|;
    && |spans| == |trades|
    && (forall k :: 0 <= k < |spans| ==> OpenedOn(history, rule, trades[k], spans[k].entry, n))
    && (forall k :: 0 <= k < |spans| && spans[k].exit.Some? ==>
          ClosedOn(history, rule, trades[k], spans[k].entry, spans[k].exit.value, n))
    && (forall k :: 0 <= k < |spans| && spans[k].exit.None? ==>
          && k == |spans| - 1 && 0 < n
          && NoSellBetween(history, rule, spans[k].entry, n)
          && trades[k].exitDate == Some(history[n - 1].date)
          && trades[k].exitPrice == Some(history[n - 1].close))
    && (forall k :: 0 <= k < |spans| - 1 ==> spans[k].exit.Some? && spans[k].exit.value < spans[k + 1].entry)
  }

  /** A run that ends flat keeps its trades as they are: every span has its exit day. */
  lemma FlatEndLogged(history: seq<Bar>, rule: seq<Bar> -> Signal, b: Book, spans: seq<Span>)
    requires Logged(history, rule, b, spans, |history|) && b.position.None?
    ensures RunLogged(history, rule, b.trades, spans)
  {
  }

  /** A run that ends in a position closes the last trade at the last bar, which
      is where its span, the only one without an exit day, ends. */
  lemma ForcedEndLogged(history: seq<Bar>, rule: seq<Bar> -> Signal, b: Book, spans: seq<Span>)
    requires Logged(history, rule, b, spans, |history|) && b.position.Some?
    ensures RunLogged(history, rule, Close(b.trades, b.summary, history[|history| - 1]).trades, spans)
  {
    var n := |history|;
    var r := Close(b.trades, b.summary, history[n - 1]);
    var last := |spans| - 1;
    forall k | 0 <= k < last
      ensures r.trades[k] == b.trades[k]
    {
      assert r.trades[k] == r.trades[..last][k];
    }
  }

  /** Every trade of a run is opened on a buy day at that day's date and close.
      It is closed by the first sell signal after its entry, at that day's date
      and close; or, when no sell signal follows its entry, it is the last trade
      and is closed at the last bar's date and close. Each trade is closed
      before the next one is opened. And every buy day that the capital can pay
      for opens a trade unless a position is already open on it. */
  lemma TradesFollowSignals(history: seq<Bar>, rule: seq<Bar> -> Signal, capital: int)
    requires PositivePrices(history)
    ensures RunLogged(history, rule, Simulate(history, rule, capital).trades, Spans(history, rule, capital, |history|))
    ensures NoMissedBuy(history, rule, capital, Spans(history, rule, capital, |history|), |history|)
  {
    var n := |history|;
    var b := BookAfter(history, rule, capital, n);
    BookAfterLogged(history, rule, capital, n);
    if b.position.Some? {
      ForcedEndLogged(history, rule, b, Spans(history, rule, capital, n));
    } else {
      FlatEndLogged(history, rule, b, Spans(history, rule, capital, n));
    }
  }

  /** An open position still open after the last day is closed at the last
      bar's date and close, and the earlier trades are left as they were. */
  lemma ForcedCloseAtLastBar(history: seq<Bar>, rule: seq<Bar> -> Signal, capital: int)
    requires PositivePrices(history)
    requires BookAfter(history, rule, capital, |history|).position.Some?
    ensures var b := BookAfter(history, rule, capital, |history|);
      var r := Simulate(history, rule, capital);
      && |r.trades| == |b.trades|
      && r.trades[..|r.trades| - 1] == b.trades[..|b.trades| - 1]
      && r.trades[|r.trades| - 1].entryDate == b.position.value.entryDate
      && r.trades[|r.trades| - 1].exitDate == Some(history[|history| - 1].date)
      && r.trades[|r.trades| - 1].exitPrice == Some(history[|history| - 1].close)
  {
    BookAfterConsistent(history, rule, capital, |history|);
  }

  /** A rule that signals no buy on any prefix never opens a trade. */
  lemma {:induction false} NoBuyStaysFlat(history: seq<Bar>, rule: seq<Bar> -> Signal, capital: int, days: nat)
    requires days <= |history| && PositivePrices(history)
    requires forall d :: 0 <= d < days ==> DaySignal(history, rule, d) != Buy
    ensures BookAfter(history, rule, capital, days) == Flat
  {
    if days > 0 {
      var i := days - 1;
      NoBuyStaysFlat(history, rule, capital, i);
      assert DaySignal(history, rule, i) != Buy;
      assert Step(Flat, history[i], DaySignal(history, rule, i), capital) == Flat;
    }
  }

  /** A crossover strategy whose short period is not below its long one is an
      invalid configuration on every prefix, so the run has no trades and an
      all-zero summary. */
  lemma InvalidConfigTradesNothing(history: seq<Bar>, short: Indicators.Period, long: Indicators.Period, capital: int)
    requires PositivePrices(history) && short >= long
    ensures Simulate(history, SignalRule(MaCross(short, long)), capital) == Outcome([], EmptySummary)
  {
    var rule := SignalRule(MaCross(short, long));
    forall d | 0 <= d < |history|
      ensures DaySignal(history, rule, d) != Buy
    {
      assert history[..d + 1] != [];
    }
    NoBuyStaysFlat(history, rule, capital, |history|);
  }

  /** A rule whose only buy falls on the last day opens one trade there, which
      the end of the data closes at the same bar: a profit of zero, counted as a
      loss (when the capital buys at least one unit). */
  lemma BuyOnlyOnLastDay(history: seq<Bar>, rule: seq<Bar> -> Signal, capital: int)
    requires history != [] && PositivePrices(history)
    requires forall d :: 0 <= d < |history| - 1 ==> DaySignal(history, rule, d) != Buy
    requires DaySignal(history, rule, |history| - 1) == Buy
    requires Quantity(capital, history[|history| - 1].close) > 0
    ensures var last := history[|history| - 1];
      var q := Quantity(capital, last.close);
      Simulate(history, rule, capital) ==
        Outcome([Trade(last.date, last.close, q, Some(last.date), Some(last.close), Some(0))],
                Summary(q * last.close, 0, 0, 1, 1))
  {
    var n := |history|;
    var last := history[n - 1];
    var q := Quantity(capital, last.close);
    NoBuyStaysFlat(history, rule, capital, n - 1);
    var b := Step(Flat, last, Buy, capital);
    assert b == Book(Some(Position(last.close, last.date, q)), [Trade(last.date, last.close, q, None, None, None)],
                     Summary(q * last.close, 0, 0, 0, 0));
    assert BookAfter(history, rule, capital, n) == b;
    assert Pnl(last.close, last.close, q) == 0;
  }
}
