/** The backtest simulator (script.js `backtest`): replays the signal evaluator over
    every prefix of a series with at most one open position, recording trades and
    a summary. */
module Backtest {
  import opened Options
  import opened Bars
  import opened Signals

  /** A round trip. Exit date, exit price and profit/loss stay absent while it is open. */
  datatype Trade = Trade(
    entryDate: string, entryPrice: nat, qty: int,
    exitDate: Option<string>, exitPrice: Option<nat>, pnl: Option<int>)

  /** The open position: what was bought, when, and how many units. */
  datatype Position = Position(entryPrice: nat, entryDate: string, qty: int)

  /** The aggregate figures of a run. */
  datatype Summary = Summary(invested: int, realizedPL: int, wins: nat, losses: nat, totalTrades: nat)

  /** What `backtest` returns. */
  datatype Outcome = Outcome(trades: seq<Trade>, summary: Summary)

  /** The simulator's state between two days: the position (None when flat),
      the trades so far and the running summary. */
  datatype Book = Book(position: Option<Position>, trades: seq<Trade>, summary: Summary)

  const EmptySummary: Summary := Summary(0, 0, 0, 0, 0)

  /** The state before the first day. */
  const Flat: Book := Book(None, [], EmptySummary)

  /** Every close is positive. The source divides by a close only on a buy signal
      while flat, where a zero close gives an infinite quantity; on other days a
      zero close is ordinary arithmetic. This model excludes zero closes on every day. */
  predicate PositivePrices(history: seq<Bar>)
  {
    forall i :: 0 <= i < |history| ==> history[i].close > 0
  }

  /** Number of units bought on a buy signal: floor(capital / price). */
  function Quantity(capital: int, price: nat): (r: int)
    requires price > 0
    ensures r * price <= capital < (r + 1) * price
    ensures capital >= 0 ==> r >= 0
  {
    capital / price
  }

  /** Profit or loss of selling `qty` units bought at `entry` for `exit`. */
  function Pnl(entry: nat, exit: nat, qty: int): (r: int)
    ensures exit == entry ==> r == 0
    ensures qty > 0 && exit > entry ==> r > 0
    ensures qty > 0 && exit < entry ==> r < 0
  {
    (exit - entry) * qty
  }

  predicate IsOpen(t: Trade)
  {
    t.exitDate.None? && t.exitPrice.None? && t.pnl.None?
  }

  /** A closed trade whose profit/loss is that of its entry and exit prices. */
  predicate IsSettled(t: Trade)
  {
    t.exitDate.Some? && t.exitPrice.Some? && t.pnl == Some(Pnl(t.entryPrice, t.exitPrice.value, t.qty))
  }

  /** A trade that spent the whole capital on a positive number of units. */
  predicate IsSized(t: Trade, capital: int)
  {
    t.entryPrice > 0 && t.qty > 0 && t.qty == Quantity(capital, t.entryPrice)
  }

  /** Sum of the entry notional qty * entryPrice over `trades`. */
  function Invested(trades: seq<Trade>): int
  {
    if trades == [] then 0
    else
      var t := trades[|trades| - 1];
      Invested(trades[..|trades| - 1]) + t.qty * t.entryPrice
  }

  /** Sum of the recorded profit/loss over `trades` (open trades add nothing). */
  function Realized(trades: seq<Trade>): int
  {
    if trades == [] then 0
    else Realized(trades[..|trades| - 1]) + trades[|trades| - 1].pnl.GetOr(0)
  }

  /** Number of trades with a positive recorded profit. */
  function Wins(trades: seq<Trade>): nat
  {
    if trades == [] then 0
    else
      var t := trades[|trades| - 1];
      Wins(trades[..|trades| - 1]) + if t.pnl.Some? && t.pnl.value > 0 then 1 else 0
  }

  /** Number of trades with a recorded profit of zero or less: zero counts as a loss. */
  function Losses(trades: seq<Trade>): nat
  {
    if trades == [] then 0
    else
      var t := trades[|trades| - 1];
      Losses(trades[..|trades| - 1]) + if t.pnl.Some? && t.pnl.value <= 0 then 1 else 0
  }

  /** The invariant of the simulator: at most one trade is open, it is the last
      one and it is the position; every other trade is settled; every trade is
      sized from the capital; and the summary agrees with the trade list. */
  ghost predicate Consistent(b: Book, capital: int)
  {
    var n := |b.trades|;
    && (forall k :: 0 <= k < n ==> IsSized(b.trades[k], capital))
    && (match b.position
        case None =>
          && (forall k :: 0 <= k < n ==> IsSettled(b.trades[k]))
          && b.summary.totalTrades == n
        case Some(p) =>
          && n > 0
          && IsOpen(b.trades[n - 1])
          && b.trades[n - 1].entryPrice == p.entryPrice
          && b.trades[n - 1].entryDate == p.entryDate
          && b.trades[n - 1].qty == p.qty
          && (forall k :: 0 <= k < n - 1 ==> IsSettled(b.trades[k]))
          && b.summary.totalTrades == n - 1)
    && b.summary.invested == Invested(b.trades)
    && b.summary.realizedPL == Realized(b.trades)
    && b.summary.wins == Wins(b.trades)
    && b.summary.losses == Losses(b.trades)
    && b.summary.wins + b.summary.losses == b.summary.totalTrades
  }

  /** Close the open (last) trade at `bar`: record the exit, book the
      profit/loss, count a win when it is positive and a loss otherwise. */
  function Close(trades: seq<Trade>, summary: Summary, bar: Bar): (r: Outcome)
    requires trades != []
    ensures |r.trades| == |trades| && r.trades[..|trades| - 1] == trades[..|trades| - 1]
    ensures var t, u := trades[|trades| - 1], r.trades[|trades| - 1];
      && u.entryDate == t.entryDate && u.entryPrice == t.entryPrice && u.qty == t.qty
      && u.exitDate == Some(bar.date) && u.exitPrice == Some(bar.close)
  {
    var n := |trades|;
    var last := trades[n - 1];
    var pnl := Pnl(last.entryPrice, bar.close, last.qty);
    var closed := last.(exitDate := Some(bar.date), exitPrice := Some(bar.close), pnl := Some(pnl));
    var updated := trades[n - 1 := closed];
    assert updated[..n - 1] == trades[..n - 1];
    Outcome(updated, summary.(
      realizedPL := summary.realizedPL + pnl,
      totalTrades := summary.totalTrades + 1,
      wins := if pnl > 0 then summary.wins + 1 else summary.wins,
      losses := if pnl > 0 then summary.losses else summary.losses + 1))
  }

  /** Closing the open trade keeps the invariant and leaves the book flat. */
  lemma CloseConsistent(b: Book, bar: Bar, capital: int)
    requires Consistent(b, capital) && b.position.Some?
    ensures var c := Close(b.trades, b.summary, bar); Consistent(Book(None, c.trades, c.summary), capital)
  {
    var n := |b.trades|;
    var c := Close(b.trades, b.summary, bar);
    assert c.trades[..n - 1] == b.trades[..n - 1];
    forall k | 0 <= k < n
      ensures IsSettled(c.trades[k]) && IsSized(c.trades[k], capital)
    {
      if k < n - 1 {
        assert c.trades[k] == c.trades[..n - 1][k];
      }
    }
  }

  /** A book whose position, if any, has a trade to close. */
  predicate Shaped(b: Book)
  {
    b.position.Some? ==> b.trades != []
  }

  /** One day of the state machine. Flat and a buy signal: open a position of
      floor(capital / close) units, unless that is not positive. In a position
      and a sell signal: close it at this bar. Anything else changes nothing. */
  function Step(b: Book, bar: Bar, signal: Signal, capital: int): (r: Book)
    requires Shaped(b) && bar.close > 0
    ensures Shaped(r)
    ensures b.position.None? && signal == Buy && Quantity(capital, bar.close) > 0 ==>
      && r.position == Some(Position(bar.close, bar.date, Quantity(capital, bar.close)))
      && r.trades == b.trades + [Trade(bar.date, bar.close, Quantity(capital, bar.close), None, None, None)]
    ensures b.position.Some? && signal == Sell ==>
      r == Book(None, Close(b.trades, b.summary, bar).trades, Close(b.trades, b.summary, bar).summary)
    ensures !(b.position.None? && signal == Buy) && !(b.position.Some? && signal == Sell) ==> r == b
    ensures b.position.None? && signal == Buy && Quantity(capital, bar.close) <= 0 ==> r == b
  {
    if b.position.None? && signal == Buy then
      var qty := Quantity(capital, bar.close);
      if qty <= 0 then b
      else
        var trades := b.trades + [Trade(bar.date, bar.close, qty, None, None, None)];
        var summary := b.summary.(invested := b.summary.invested + qty * bar.close);
        Book(Some(Position(bar.close, bar.date, qty)), trades, summary)
    else if b.position.Some? && signal == Sell then
      var c := Close(b.trades, b.summary, bar);
      Book(None, c.trades, c.summary)
    else
      b
  }

  /** Every step keeps the invariant: at most one open trade, and it is the last. */
  lemma StepConsistent(b: Book, bar: Bar, signal: Signal, capital: int)
    requires Consistent(b, capital) && bar.close > 0
    ensures Consistent(Step(b, bar, signal, capital), capital)
  {
    if b.position.None? && signal == Buy && Quantity(capital, bar.close) > 0 {
      var r := Step(b, bar, signal, capital);
      assert r.trades[..|r.trades| - 1] == b.trades;
    } else if b.position.Some? && signal == Sell {
      CloseConsistent(b, bar, capital);
    }
  }

  /** The signal rule the backtest replays: the evaluator's classification of a prefix. */
  function SignalRule(strategy: Strategy): seq<Bar> -> Signal
  {
    prefix => Evaluate(prefix, strategy).signal
  }

  /** The signal of day `d`: the rule applied to the bars up to and including that day. */
  function DaySignal(history: seq<Bar>, rule: seq<Bar> -> Signal, d: nat): Signal
    requires d < |history|
  {
    rule(history[..d + 1])
  }

  /** A day's signal sees no later bar: it is the same on any longer series that
      starts with the same bars, and on the last day it is the rule applied to
      the whole series. */
  lemma NoLookAhead(history: seq<Bar>, rule: seq<Bar> -> Signal, d: nat, n: nat)
    requires d < n <= |history|
    ensures DaySignal(history[..n], rule, d) == DaySignal(history, rule, d)
    ensures d + 1 == |history| ==> DaySignal(history, rule, d) == rule(history)
  {
    assert history[..n][..d + 1] == history[..d + 1];
    assert d + 1 == |history| ==> history[..d + 1] == history;
  }

  /** The state after the first `days` days, each day classified by `rule` on its
      own prefix. */
  function BookAfter(history: seq<Bar>, rule: seq<Bar> -> Signal, capital: int, days: nat): (r: Book)
    requires days <= |history| && PositivePrices(history)
    ensures Shaped(r)
    ensures days == 0 ==> r == Flat
  {
    if days == 0 then Flat
    else
      var i := days - 1;
      Step(BookAfter(history, rule, capital, i), history[i], DaySignal(history, rule, i), capital)
  }

  /** Every prefix of the run satisfies the invariant. */
  lemma {:induction false} BookAfterConsistent(history: seq<Bar>, rule: seq<Bar> -> Signal, capital: int, days: nat)
    requires days <= |history| && PositivePrices(history)
    ensures Consistent(BookAfter(history, rule, capital, days), capital)
  {
    if days > 0 {
      var i := days - 1;
      BookAfterConsistent(history, rule, capital, i);
      StepConsistent(BookAfter(history, rule, capital, i), history[i], DaySignal(history, rule, i), capital);
    }
  }

  /** The run: replay every day, then force-close a position that is still open
      at the last bar's date and close. Every trade ends settled and sized, and
      the summary agrees with the trade list. */
  function Simulate(history: seq<Bar>, rule: seq<Bar> -> Signal, capital: int): (r: Outcome)
    requires PositivePrices(history)
    ensures forall k :: 0 <= k < |r.trades| ==> IsSettled(r.trades[k]) && IsSized(r.trades[k], capital)
    ensures r.summary.totalTrades == |r.trades|
    ensures r.summary.wins + r.summary.losses == r.summary.totalTrades
    ensures r.summary.wins == Wins(r.trades) && r.summary.losses == Losses(r.trades)
    ensures r.summary.invested == Invested(r.trades) && r.summary.realizedPL == Realized(r.trades)
    ensures history == [] ==> r == Outcome([], EmptySummary)
  {
    var b := BookAfter(history, rule, capital, |history|);
    BookAfterConsistent(history, rule, capital, |history|);
    var f := if b.position.Some? then Close(b.trades, b.summary, history[|history| - 1])
             else Outcome(b.trades, b.summary);
    assert Consistent(Book(None, f.trades, f.summary), capital) by {
      if b.position.Some? {
        CloseConsistent(b, history[|history| - 1], capital);
      }
    }
    f
  }

  /** The entry block of `backtest`, run on a buy signal while flat: buy
      floor(capital / close) units at this bar, or nothing when that is not
      positive (the source skips the rest of the day). */
  method EnterTrade(trades: seq<Trade>, summary: Summary, row: Bar, capital: int)
    returns (position: Option<Position>, newTrades: seq<Trade>, newSummary: Summary)
    requires row.close > 0
    ensures Book(position, newTrades, newSummary) == Step(Book(None, trades, summary), row, Buy, capital)
  {
    var entryPrice := row.close;
    var qty := capital / entryPrice;
    if qty <= 0 {
      return None, trades, summary;
    }
    position := Some(Position(entryPrice, row.date, qty));
    newTrades := trades + [Trade(row.date, entryPrice, qty, None, None, None)];
    newSummary := summary.(invested := summary.invested + qty * entryPrice);
  }

  /** The closing block of `backtest`, used on a sell signal and for the forced
      close after the last day: the last trade gets its exit and profit/loss in
      place, and the summary books it. */
  method CloseLastTrade(trades: seq<Trade>, summary: Summary, row: Bar)
    returns (newTrades: seq<Trade>, newSummary: Summary)
    requires trades != []
    ensures Outcome(newTrades, newSummary) == Close(trades, summary, row)
  {
    var exitPrice := row.close;
    var lastTrade := trades[|trades| - 1];
    var pnl := Pnl(lastTrade.entryPrice, exitPrice, lastTrade.qty);
    newTrades := trades[|trades| - 1 := lastTrade.(exitDate := Some(row.date), exitPrice := Some(exitPrice), pnl := Some(pnl))];
    newSummary := summary.(realizedPL := summary.realizedPL + pnl, totalTrades := summary.totalTrades + 1);
    if pnl > 0 {
      newSummary := newSummary.(wins := newSummary.wins + 1);
    } else {
      newSummary := newSummary.(losses := newSummary.losses + 1);
    }
  }

  /** The loop of `backtest` for a given signal rule: re-classify each prefix,
      open a trade on a buy while flat, close it on a sell while in a position,
      and force-close a position still open after the last day. */
  method RunWith(history: seq<Bar>, rule: seq<Bar> -> Signal, capital: int) returns (trades: seq<Trade>, summary: Summary)
    requires PositivePrices(history)
    ensures Outcome(trades, summary) == Simulate(history, rule, capital)
  {
    trades := [];
    summary := EmptySummary;
    var position: Option<Position> := None;
    for i := 0 to |history|
      invariant Book(position, trades, summary) == BookAfter(history, rule, capital, i)
    {
      var row := history[i];
      var sig := rule(history[..i + 1]);
      ghost var before := Book(position, trades, summary);
      assert BookAfter(history, rule, capital, i + 1) == Step(before, row, sig, capital);
      if position.None? && sig == Buy {
        position, trades, summary := EnterTrade(trades, summary, row, capital);
      } else if position.Some? && sig == Sell {
        trades, summary := CloseLastTrade(trades, summary, row);
        position := None;
      }
    }
    if position.Some? {
      trades, summary := CloseLastTrade(trades, summary, history[|history| - 1]);
    }
  }

  /** `backtest(history, strategy, capital)`: the loop with the evaluator of `strategy`. */
  method Run(history: seq<Bar>, strategy: Strategy, capital: int) returns (trades: seq<Trade>, summary: Summary)
    requires PositivePrices(history)
    ensures Outcome(trades, summary) == Simulate(history, SignalRule(strategy), capital)
  {
    trades, summary := RunWith(history, SignalRule(strategy), capital);
  }
}
