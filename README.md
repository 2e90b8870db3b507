# sahambin-pro signal engine and backtest, modelled in Dafny

sahambin-pro is a browser tool for stock symbols, with amounts shown in Toman.
For each symbol it loads a daily price series, classifies the latest day with
one of two strategies, and replays that classification over the history as a
single-position backtest. The strategies are:

- price levels: buy at or below one threshold, sell at or above another;
- a moving-average crossover: a golden cross is a buy, a death cross a sell.

The results can be exported as CSV.

This project models the engine of `script.js`, in five parts:

- **Bars** (`bars.dfy`): a bar series and `latest`.
- **Indicators** (`indicators.dfy`): `computeSMA`. It is a running-sum loop
  (`Indicators.ComputeSma`), proved against the window definition
  `Indicators.SmaAt`.
- **Signals** (`signals.dfy`): `generateSignalFor`.
  - It returns a closed `Signal` classification together with the last price
    and the strategy's fields.
  - `Label` gives the source's Persian text labels.
  - `LabelKeywords` proves that the backtest's substring tests recover the
    classification exactly. The buy keyword is "خرید" and the sell keyword
    "فروش".
- **Backtest** (`backtest.dfy`, `backtest_properties.dfy`): `backtest`.
  - The loop of the source is the method `Backtest.RunWith`. It reassigns the
    position, appends trades and updates the last trade and the summary.
  - `RunWith` is proved equal to the specification `Backtest.Simulate`. That
    specification folds the day transition `Backtest.Step` over the days, then
    force-closes an open position.
  - The invariant `Backtest.Consistent` is proved to hold after every day. It
    says:
    - at most one trade is open, and it is the last one;
    - every other trade is settled;
    - every trade is sized from the capital;
    - the summary equals the sums and counts over the trades.
  - `BacktestProperties` proves, day by day, that:
    - each trade opens on a buy day;
    - each trade closes on the first sell day after its entry, or at the last
      bar when no sell follows;
    - each trade closes before the next one opens;
    - no affordable buy signal is skipped while flat.
- **Csv** (`csv.dfy`): `toCSV`.
  - Every cell is quoted with inner quotes doubled, following rules 5 to 7 of
    section 2 of RFC 4180.
  - Cells are joined by commas and rows by a line feed, where the RFC uses CR LF.
  - A reader for this format is defined, and `Csv.CsvRoundTrip` proves that it
    recovers every cell's text.

`scenarios.dfy` works through concrete runs:

- a price-level round trip;
- a capital too small to buy one unit;
- a position closed by the end of the data;
- a single golden cross.

Modelling choices:

- Closing prices are natural numbers, as the synthetic data rounds them
  (script.js:121). Thresholds and averages are reals. Capital is an integer, so
  `Math.floor(capital / price)` is Dafny's `capital / price`.
- The backtest loop takes the daily classification as a function value `rule`.
  `Backtest.Run` instantiates it with the evaluator, `SignalRule(strategy)`.
  The loop is the same for any rule. Its properties are therefore proved for
  every rule, and those about the evaluator are stated separately.

## Model

| member | source | states |
|---|---|---|
| Bars.Latest | script.js:146 | absent exactly for an empty series; otherwise the last bar |
| Bars.SumClosesBounds | script.js:134-144 | closes all within [lo, hi] sum to between n*lo and n*hi |
| Indicators.SmaAt | script.js:141 | the average at index i is defined exactly when i >= period - 1 |
| Indicators.ComputeSma | script.js:134-144 | the running-sum loop returns one entry per bar, each equal to the window mean of bars i-period+1..i or absent before the window fills; the loop keeps the sum equal to the closes of the current window |
| Indicators.SmaAtEnd | script.js:164-172 | with more bars than the period, the averages at the last two indices are the trailing means of the series with and without its last bar |
| Indicators.SmaWithinWindow | script.js:141 | a defined average lies between the lowest and highest close of its window |
| Signals.Crossover | script.js:173-176 | buy exactly on a golden cross (prevShort <= prevLong and curShort > curLong), sell exactly on a death cross, neutral otherwise; buy and sell exclude each other |
| Signals.PriceLevelSignal | script.js:153-159 | buy iff close <= buy level; sell iff it is above the buy level and at or above the sell level (buy wins when both hold); neutral iff strictly between; last price and levels attached |
| Signals.CrossSignal | script.js:160-180 | short >= long gives invalid-config with no price whatever the data; otherwise insufficient data iff the series has no more bars than the long period, with nothing attached for fewer than two bars and otherwise the last close and the current (possibly absent) averages; with enough bars the crossover of the trailing means at the last two points, with the last close and both current averages attached |
| Signals.Evaluate | script.js:149-183 | no-data exactly for an empty prefix (and nothing attached); invalid-config exactly for a non-empty prefix under a crossover strategy with short >= long |
| Signals.Label | script.js:151-178 | the text label of each outcome, reproducing the source's labels exactly; its contract is `LabelKeywords` together with the nine per-label lemmas |
| Signals.IsInfix | script.js:205 | `includes`: the empty text occurs in every text, and a text that occurs is no longer than the text it occurs in; the label lemmas decide it for each label |
| Signals.MissingChar | script.js:205 | a text lacking one of the keyword's characters does not contain the keyword |
| Signals.NoDataLabelKeywords | script.js:151 | the no-data label contains neither keyword |
| Signals.NeutralLabelKeywords | script.js:156 | the neutral label contains neither keyword |
| Signals.BuyLevelLabelKeywords | script.js:157 | the price-level buy label contains the buy keyword and not the sell keyword |
| Signals.SellLevelLabelKeywords | script.js:158 | the price-level sell label contains the sell keyword and not the buy keyword |
| Signals.InvalidConfigLabelKeywords | script.js:163 | the invalid-config label contains neither keyword |
| Signals.ShortHistoryLabelKeywords | script.js:170 | the short-history label contains neither keyword |
| Signals.BuyCrossLabelKeywords | script.js:175 | the golden-cross label contains the buy keyword and not the sell keyword |
| Signals.SellCrossLabelKeywords | script.js:176 | the death-cross label contains the sell keyword and not the buy keyword |
| Signals.MissingAverageLabelKeywords | script.js:178 | the missing-average label contains neither keyword |
| Signals.LabelKeywords | script.js:205-213 | a label contains the buy keyword iff it classifies a buy, and the sell keyword iff it classifies a sell, so the backtest's substring tests act exactly on buy and sell |
| Backtest.Close | script.js:215-223 | closing the last trade keeps the other trades and the last one's entry, and records this bar's date and close as the exit |
| Backtest.Quantity | script.js:208 | `Math.floor(capital / close)`: the largest whole number of units whose cost does not exceed the capital, never negative for a non-negative capital |
| Backtest.Pnl | script.js:219 | profit of a trade: zero when the exit equals the entry; for a positive quantity, positive exactly when the price rose and negative when it fell (a win or a loss at script.js:222) |
| Backtest.CloseConsistent | script.js:215-223 | closing the open trade settles it (pnl = (exit - entry) * qty), counts it once as a win when pnl > 0 and otherwise as a loss, and keeps the invariant with the book flat |
| Backtest.Step | script.js:205-224 | a buy while flat with floor(capital / close) > 0 appends one open trade and opens that position; a buy that buys nothing, a buy in a position, a sell while flat and any other signal change nothing; a sell in a position closes the last trade and goes flat |
| Backtest.StepConsistent | script.js:198-224 | every day keeps the invariant: at most one open trade and it is the last one and the position, the others settled, each sized from the capital, totals equal to the sums over the trades, wins + losses = totalTrades |
| Backtest.BookAfter | script.js:199-225 | no days leave the book flat with no trades and a zero summary |
| Backtest.BookAfterConsistent | script.js:193-225 | the invariant holds after every number of days |
| Backtest.NoLookAhead | script.js:202-203 | the signal of day d is computed on the bars up to day d only: it is the same on any longer series with the same first bars, and on the last day it is the rule applied to the whole series |
| Backtest.Simulate | script.js:191-240 | after the run every trade is settled and sized, totalTrades = number of trades, wins + losses = totalTrades, wins and losses count positive and non-positive pnl, invested and realized P/L are the sums over the trades; an empty series gives no trades and a zero summary |
| Backtest.EnterTrade | script.js:205-212 | the entry block computes the day's transition on a buy while flat |
| Backtest.CloseLastTrade | script.js:215-223 | the closing block, updating the last trade in place, computes the close of the specification |
| Backtest.RunWith | script.js:191-240 | the loop with its forced close returns exactly the run of the specification for the same rule |
| Backtest.Run | script.js:191-240 | `backtest` with a strategy returns the run of the specification with the evaluator as rule |
| BacktestProperties.LoggedAfterBuy | script.js:205-212 | a buy day that opens a trade starts a new span on that day, after the previous trade's exit |
| BacktestProperties.LoggedAfterSell | script.js:213-223 | a sell day in a position closes the last trade on that day, the first sell since its entry |
| BacktestProperties.LoggedAfterIdle | script.js:205-224 | any other day changes nothing, and while a position is open it is not a sell day |
| BacktestProperties.NoMissedBuyAfterBuy | script.js:205-212 | a day that opens a trade misses no affordable buy |
| BacktestProperties.NoMissedBuyAfterSell | script.js:213-223 | closing a trade keeps every earlier affordable buy accounted for |
| BacktestProperties.NoMissedBuyAfterIdle | script.js:205-209 | a day that opens nothing has no affordable buy signal, or falls while a position is open |
| BacktestProperties.BookAfterLogged | script.js:199-225 | after any number of days, the day spans describe the book: each trade was opened on a buy day at its date and close, a closed one on the first sell day after its entry at its date and close, the open one (the last) has seen no sell day since its entry, each trade closes before the next opens; and every affordable buy day either opened a trade or fell while a position was open |
| BacktestProperties.FlatEndLogged | script.js:228 | a run that ends flat keeps its trades, each with its exit day |
| BacktestProperties.ForcedEndLogged | script.js:228-237 | a run that ends in a position closes the last trade at the last bar's date and close, after no sell since its entry |
| BacktestProperties.TradesFollowSignals | script.js:190-237 | for a whole run, with day indices: every trade opens on a buy day at its date and close; it closes on the first sell day after its entry at that day's date and close or, when no sell follows, it is the last trade and closes at the last bar's date and close; each trade closes before the next opens; no affordable buy day is skipped while flat |
| BacktestProperties.ForcedCloseAtLastBar | script.js:228-237 | a position still open after the loop is closed at the last bar's date and close, the earlier trades unchanged |
| BacktestProperties.NoBuyStaysFlat | script.js:205-213 | a rule with no buy on any day leaves the book flat with no trades |
| BacktestProperties.InvalidConfigTradesNothing | script.js:163 | a crossover strategy with short >= long yields no trades and an all-zero summary on any series |
| BacktestProperties.BuyOnlyOnLastDay | script.js:228-237 | a single buy on the last day gives one trade force-closed at the same bar, with pnl 0 counted as a loss |
| Scenarios.LevelSignals | script.js:153-159 | closes 100, 90, 120 with levels 95/115 classify neutral, buy, sell |
| Scenarios.LevelRunOf | script.js:199-225 | on that series, those three signals give one trade bought on day 2 and sold on day 3 |
| Scenarios.LevelRoundTrip | script.js:191-240 | with capital >= 90 the run buys floor(capital/90) at 90 and sells at 120: pnl 30 per unit, one win, no loss |
| Scenarios.LevelTooPoor | script.js:208-209 | with capital < 90 the buy day is skipped and there are no trades |
| Scenarios.LevelForcedClose | script.js:228-237 | ending on the buy day force-closes at 90 with pnl 0, a loss |
| Scenarios.CrossMeans | script.js:134-144 | the 3- and 5-bar averages of closes 10 x 6, 20 are 10 through day six and 40/3 and 12 on day seven |
| Scenarios.CrossSignals | script.js:160-180 | MA(3, 5) on that series: insufficient data through day five, neutral on day six, golden cross on day seven |
| Scenarios.CrossDaySignals | script.js:203 | the backtest's daily signals on that series: no buy before day seven, a buy on it |
| Scenarios.CrossRunOf | script.js:199-237 | on that series, no buy before day seven and a buy on it give one trade force-closed on day seven |
| Scenarios.CrossRun | script.js:191-240 | the backtest buys on day seven and force-closes there: one trade, pnl 0, one loss |
| Csv.EscapeQuotes | script.js:298 | escaping never shortens a text and leaves a text without quotes as it is |
| Csv.Quote | script.js:298 | a written cell starts and ends with a quote |
| Csv.JoinEnds | script.js:298-299 | `join`: joining no parts gives the empty text; a join starts with its first part and ends with its last |
| Csv.RowLine | script.js:298 | a row written as one line: empty for a row with no cells, otherwise starting and ending with a quote |
| Csv.ToCsv | script.js:297-300 | `toCSV`: no rows give the empty text; an export whose first (last) row has a cell starts (ends) with a quote; `CsvRoundTrip` is its full contract |
| Csv.ReadQuotedEscaped | script.js:298 | an escaped text followed by a closing quote reads back as the text, with what follows intact |
| Csv.ReadFieldQuote | script.js:298 | a written cell (an absent one written as empty) reads back as its text |
| Csv.ReadRowLine | script.js:298 | a written row reads back as its cells' texts |
| Csv.ReadLinesRows | script.js:298-299 | written rows separated by line feeds read back row by row |
| Csv.CsvRoundTrip | script.js:297-300 | reading an export gives back every cell's text, row by row, when no row is empty |

## Left out

- Not modelled, because they are browser and I/O code:
  - the DOM and UI wiring (`setStatus`, `appendRow`, `showSymbolDetails`, the event handlers);
  - `renderChart`, a wrapper over Chart.js;
  - the CSV download (Blob and object URL);
  - the `sleep` pacing between symbols;
  - the global `CONFIG` mutation;
  - `fmtDate`.
- Not modelled, because they are network calls or random by design:
  - `fetchHistorical`, an HTTP call. The history is an input sequence,
    already in ascending date order.
  - `generateMockHistory`, a random walk.
- Thresholds and periods arrive already typed. The `Number(...)` coercion of
  form strings is not modelled, and periods are at least 1 (`Period`).
- Prices and capital are exact numbers, not IEEE doubles. Display formatting
  (`toLocaleString`, `toFixed`) is not modelled.
- Closing prices are whole numbers. The data-provider path keeps fractional
  closes (script.js:100), and those are not modelled.
- The default arguments are not modelled: every run is given its capital
  (`capitalPerSymbol = 10000000`, script.js:191), and averages always read the
  close (`accessor = d => d.close`, script.js:134).
- Open, high, low and volume are not modelled, because the engine never reads
  them.
- Backtest.Simulate, Backtest.RunWith and Backtest.Run require every close to
  be positive, on every day. The source divides by a close only on a buy signal
  while flat, where a zero close gives an infinite quantity (script.js:205-208).
  On any other day a zero close is ordinary arithmetic: a sell or the forced
  close at 0 books pnl = -entry * qty as a loss (script.js:215-222, 232-236).
  The model excludes such series altogether.
- Backtest.Step requires the day's close to be positive, for the same reason.
- Backtest.BookAfter requires every close to be positive, for the same reason.
- Capital is an integer; a fractional capital is not modelled.
- Signals.Evaluate has no case for an unknown strategy type (script.js:182),
  because `Strategy` is closed with its two kinds.
- Signals.Label: the backtest acts on the closed classification rather than on
  the label text. `LabelKeywords` is what justifies this.
- Backtest.RunWith: trades are values in a sequence, and the last one is
  replaced by its updated copy. Sharing of a trade object with other code
  (aliasing) is not modelled.
- The symbol argument of `generateSignalFor` is not modelled, because the
  function never reads it.
- Csv.ToCsv: cells are texts, or absent for null and undefined. The
  `toString` of numbers and other values is not modelled.
- Csv.CsvRoundTrip: is stated only for rows with at least one cell. No rows and
  a single empty row both write the empty text, and this reader does not accept
  an empty line as a row. Every row the program exports has six cells
  (script.js:327-346), so the round trip covers every export it makes.
- An empty series runs no day, so it gives no trades and a zero summary (the
  last ensures of `Simulate`). A crossover
  strategy with short >= long gives invalid-config only for a non-empty prefix,
  as the code checks the empty series first (script.js:151, 163).
