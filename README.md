# Bollinger Bands strategy of StrategyLibrary, modelled in Dafny

This project models the Bollinger Bands trading strategy in `library.c`, together with the stop-loss strategy that runs beside it. It covers:

- **Indicator arithmetic.** The simple moving average (`calcSMA`), the population standard deviation (`calcStdDev`) and the two bands `sma ± k·stdev`.
- **Rolling price window.** Append the newest price, then delete index 0.
- **Live strategy.** Setup (`bollingerBands`), the timer-driven window update (`updateBollingerBands`), the band tick, the stop-loss tick, and the two event handlers that dispatch them.
- **Backtest.** `backtestBollingerBands` replays bars from their open prices and books every trade in a ledger.
- **Bar-interval parsing.** A string such as `"15m"` becomes minutes; the backtest and the live setup each parse it their own way.

Prices are exact `real`s. `pow(x, 2)` is `Square(x)`. The host's `sqrt` is a parameter `root` characterised by `Indicators.IsSqrt`, and the strategy object keeps it in the constant `sqrt`.

Modules, one file each:

| file | module | what it holds |
|---|---|---|
| `indicators.dfy` | `Indicators` | sums, mean, variance, bands; `CalcSMA` and `CalcStdDev` as loop methods proved equal to the recursive definitions; the algebra of the variance |
| `rolling_window.dfy` | `RollingWindow` | the append-then-delete window step and what repeated steps leave |
| `step_interval.dfy` | `StepInterval` | the host's `substring`/`toInteger` for digit strings, and the two bar-interval parsers |
| `signals.dfy` | `Signals` | the position state machine as pure functions: band tick, stop-loss tick, price event |
| `backtesting.dfy` | `Backtesting` | the backtest as a specification: one bar (`BarStep`), the replay up to bar `j` (`Replay`), and the ledger invariants |
| `strategy.dfy` | `Strategy` | class `BollingerStrategy`: the globals as fields, the procedures and event handlers as methods, each proved against the functions above |

The backtest's bands are a parameter `bands: seq<real> -> Bands`. The method `Backtest` uses `WindowBands(deviation, sqrt)` for it. The ledger lemmas therefore hold whatever the bands are.

## Model

| member | source | states |
|---|---|---|
| Indicators.CalcSMA | library.c:29-42 | the result is the sum of the prices divided by their count (`result·n == Sum`); needs a non-empty array, as the unguarded division does |
| Indicators.CalcStdDev | library.c:52-70 | the result is `sqrt(Σ(p − sma)² / n)`, the population form; for a real square root it is ≥ 0 and squares to that variance |
| Indicators.ComputeBands | library.c:241-258 | the band values of a window: `sma·n == Sum`, `stdev == sqrt(variance about sma)`, `upper − lower == 2·k·stdev`, bands symmetric about the SMA, and `lower ≤ sma ≤ upper` when `k ≥ 0` |
| Indicators.UpperBand | library.c:241-244 | the upper band lies as far above the SMA as the lower band lies below it, and not below the SMA for `k, stdev ≥ 0` |
| Indicators.LowerBand | library.c:255-258 | the lower band is not above the SMA for `k, stdev ≥ 0` |
| Indicators.BandGeometry | library.c:241-258 | `sma + k·stdev` and `sma − k·stdev` are `2·k·stdev` apart and symmetric about `sma`; for `k, stdev ≥ 0` they enclose it |
| Indicators.VarianceNonNegative | library.c:59-67 | the value passed to `sqrt` is never negative |
| Indicators.SquaredDeviationsNonNegative | library.c:59-64 | the sum of squared differences is never negative |
| Indicators.MeanWithinRange | library.c:29-42 | if every price lies in `[lo, hi]`, so does the SMA |
| Indicators.SumWithinRange | library.c:35-38 | the accumulated sum lies between `n·lo` and `n·hi` |
| Indicators.SquaredDeviationsExpand | library.c:59-64 | `Σ(p − m)² == Σp² − 2m·Σp + n·m²` for every `m` |
| Indicators.VarianceAboutPoint | library.c:52-70 | variance about any `m` is the variance about the SMA plus `(m − sma)²`, so the SMA the source passes in gives the smallest deviation |
| Indicators.PopulationVariance | library.c:52-70 | the variance about the SMA is the mean of the squares minus the square of the mean (division by `n`, not `n − 1`) |
| Indicators.ConstantHasNoDeviation | library.c:59-64 | prices that all equal `m` have no squared deviation from `m` |
| Indicators.ConstantWindowCollapses | library.c:29-70 | a flat window of price `c` gives SMA `c`, stdev 0 and both bands at `c` |
| Indicators.ThreePriceExample | library.c:52-70 | the window `[1, 2, 3]` with `k = 2` has SMA 2, variance 2/3 and bands `2 ± 2·stdev` |
| RollingWindow.Advance | library.c:342-343 | appending a price and deleting index 0 keeps the length and gives `old[1..] + [price]`, so the new price is last |
| RollingWindow.AdvanceAll | library.c:342-343 | any number of window steps keeps the window length |
| RollingWindow.AdvanceAllKeepsLatest | library.c:342-343 | after any run of steps the window is the last `|w|` prices of the old window followed by the new ones |
| RollingWindow.WindowForgetsOldPrices | library.c:342-343 | after at least `|w|` steps the window holds only the newest `|w|` prices |
| RollingWindow.DoubleAdvance | library.c:674-696 | two steps with the same price leave it in the last two slots: `w[2..] + [x, x]` |
| StepInterval.Substring | library.c:603-604 | the host `substring`: within range it is exactly the slice `s[start..start + count]` |
| StepInterval.ToInteger | library.c:603 | the host `toInteger` has a value exactly for a non-empty string of digits |
| StepInterval.ScaleToMinutes | library.c:606-621 | a unit scales a non-negative count up, by at most the month factor 43920; a positive count is left unchanged exactly when the unit is not `h`, `d`, `w` or `M` |
| StepInterval.BacktestStepMinutes | library.c:603-621 | the backtest has a step exactly when a digit count precedes a one-character unit, and the step is that count (leading zeros included) scaled by the unit |
| StepInterval.LiveStepMinutes | library.c:274-292 | the live setup has a step exactly when the string starts with a digit, and the step lies between 0 and 9·43920 minutes |
| StepInterval.DecimalRoundTrip | library.c:603 | reading back the decimal numeral of `n` gives `n` |
| StepInterval.UnitFactors | library.c:606-621 | each unit multiplies the count by a fixed factor: h 60, d 1440, w 10080, M 43920 (= 30.5·24·60); any other unit, `m` included, leaves it unchanged |
| StepInterval.BacktestReadsWholeCount | library.c:603-621 | the backtest reads `"<n><u>"` as `n` scaled by the unit `u`, for a count of any length over unbounded integers |
| StepInterval.LiveReadsFirstDigit | library.c:274-292 | the live setup reads only the first character as the count and the second as the unit |
| StepInterval.ParsersAgreeOnOneDigit | library.c:274-275 | for a two-character string with a one-digit count, both parsers give the same step |
| StepInterval.LeadingZeroCount | library.c:603-621 | `"05h"` gives a backtest step of 300 minutes: a leading zero is part of the count |
| StepInterval.FifteenMinutes | library.c:274-275 | `"15m"`: the backtest reads 15 minutes, the live setup reads count 1 with unit `"5"`, so 1 minute |
| StepInterval.NoCountNoStep | library.c:603-604 | a string whose part before the last character is empty or not all digits has no step in the backtest parser, and the empty string has none in the live parser |
| Signals.BandDecision | library.c:357-384 | sell iff long or flat and price above the upper band; buy iff short or flat, below the lower band, and no sell; a sell goes short and a buy goes long with entry price = price; otherwise nothing changes |
| Signals.StopLossDecision | library.c:132-160 | flat is left alone; long goes flat iff price < entry·(1 − pip), short goes flat iff price > entry·(1 + pip); the entry price never changes and long/short are never entered |
| Signals.PriceEvent | library.c:409-425 | with neither strategy running nothing changes; a strategy that is not running sends no order; without the band strategy the entry price is unchanged; an event that sends no order changes nothing; a stop order always leaves the position flat |
| Signals.StopsAroundEntry | library.c:139-152 | for `pip ≥ 0` and a non-negative entry, the long stop lies below the entry and the short stop above it |
| Signals.NoStopOnEntry | library.c:139-152 | a position the band tick has just opened at `price` is not stopped out by the stop-loss tick at that same price (`pip ≥ 0`, `price ≥ 0`) |
| Signals.EntrySurvivesPriceEvent | library.c:409-425 | with both strategies running, a band entry on a price event is still open afterwards, with entry price = price and no stop order |
| Signals.BandTickComesFirst | library.c:409-425 | the band tick runs before the stop-loss tick, for every entry, bands, pip ≥ 0 and price ≥ 0: a long priced below its stop and above the upper band is sold into a short with no stop order, and a short priced above its stop and below the lower band is bought into a long with no stop order |
| Signals.StopAloneCloses | library.c:132-148 | with the band strategy off, a price below a long's stop closes it: flat, same entry price, one sell order from the stop tick |
| Signals.BandTickComesFirstExample | library.c:409-425 | entry 100, pip 0.01, price 98.9, upper band 98: both strategies on gives a short at 98.9; the stop-loss alone gives flat |
| Signals.LongStopExample | library.c:137-147 | a long entered at 100 with pip 0.01 is closed at 98.9 and kept at 99.5 |
| Backtesting.BookSell | library.c:653-656 | a sell adds `price·amount` to `sellTotal`, one to `sellCount`, takes the same from `balanceBTC`, and leaves the buy side alone |
| Backtesting.BookBuy | library.c:667-670 | a buy adds `price·amount` to `buyTotal`, one to `buyCount`, the same to `balanceBTC`, and leaves the sell side alone |
| Backtesting.LtcMovesByAmount | library.c:653-668 | the LTC balance moves by `amount / price`: up on a sell, down on a buy |
| Backtesting.SellPhase | library.c:646-659 | the sell branch leaves the window alone; it adds one sell exactly on a sell signal, then goes short, and otherwise changes nothing; the buy side is untouched |
| Backtesting.BuyPhase | library.c:660-676 | from long nothing changes; from short or flat the price enters the window (length kept) and the position becomes long exactly below the lower band, with one buy added exactly on a buy signal; the sell side is untouched |
| Backtesting.EndOfBar | library.c:695-696 | the end of a bar keeps position and ledger and steps the window: `old[1..] + [price]` |
| Backtesting.WindowBandsAt | library.c:641-644 | the backtest's bands for a non-empty window are that window's SMA, stdev and bands |
| Backtesting.BarStep | library.c:639-696 | one bar keeps the window length, and the bar's open price ends up last in the window |
| Backtesting.Replay | library.c:626-697 | from the window of the first `period` opens, the window always holds `period` prices, and after bar `j − 1` its last price is that bar's open |
| Backtesting.ReplayOneMore | library.c:639-697 | replaying one more bar is one more `BarStep` at that bar's open price |
| Backtesting.BarStepKeeps | library.c:646-676 | a bar keeps `balanceBTC − buyTotal + sellTotal` and the count discipline, adds at most one sell and one buy, and for positive prices and amounts never lowers a total |
| Backtesting.BtcBalanceTracksTotals | library.c:589-697 | throughout the backtest, `balanceBTC − 0.01 == buyTotal − sellTotal` |
| Backtesting.CountsStayBalanced | library.c:646-672 | sell and buy counts never differ by more than one, and a flat backtest has not traded |
| Backtesting.CountsGrowOver | library.c:656-670 | from any bar to a later one, the counts never go down and grow by at most two per bar |
| Backtesting.TotalsGrowOver | library.c:655-669 | for positive prices and a non-negative amount, `buyTotal` and `sellTotal` never go down |
| Backtesting.BarStepWindow | library.c:674-696 | a bar's window holds only prices of the window it started with, and the bar's own price |
| Backtesting.WindowFromSeenBars | library.c:626-696 | the window only ever holds open prices of bars already seen |
| Backtesting.DoubleAdvanceOnBar | library.c:660-696 | when the position after the sell branch is short or flat, the bar's price enters the window twice |
| Backtesting.QuietLongBar | library.c:646-696 | from a long that the upper band does not cross, a bar trades nothing and advances the window once |
| Strategy.BollingerStrategy.constructor | library.c:72-80 | the globals start as in the source: Centrabit, LTC/BTC, flat, nothing running, amount 0.01, entry price 0, pip 0.1 (line 117), period 20, deviation 2.0, zero bands, empty window (lines 219-229) |
| Strategy.BollingerStrategy.StopLoss | library.c:119-130 | the pip is stored and the stop-loss strategy is running |
| Strategy.BollingerStrategy.StopLossTick | library.c:132-160 | the new position and the order sent are those of `StopLossDecision` on the old position |
| Strategy.BollingerStrategy.Setup | library.c:272-333 | the fetched closes are appended to the window; the bands are those of the new window; settings, trade amount and last price are stored; the band strategy runs; the timer interval is the live step in minutes × 60 × 1000 |
| Strategy.BollingerStrategy.UpdateBands | library.c:335-355 | the window becomes `Advance(old window, lastPrice)` and the bands are recomputed from exactly that window; position and orders are untouched |
| Strategy.BollingerStrategy.BandsTick | library.c:357-404 | the last price becomes `price`; position, entry price and order are those of `BandDecision` on the old state |
| Strategy.BollingerStrategy.OnLastPriceChanged | library.c:409-425 | the outcome is `PriceEvent` for the running strategies; an entry made on this event is never stopped out on it |
| Strategy.BollingerStrategy.OnTimedOut | library.c:427-433 | when the band strategy runs, the window advances and the bands are recomputed from it; when it does not, the window and all four band values are unchanged |
| Strategy.BollingerStrategy.BarBands | library.c:641-644 | the upper and lower bands computed in a backtest bar are those of `ComputeBands` on the window |
| Strategy.BollingerStrategy.SeedWindow | library.c:626-629 | the seeded window is the first `period` open prices, in order |
| Strategy.BollingerStrategy.BacktestBar | library.c:646-696 | one bar's position, window and ledger are the sell branch, then the buy block, then the end-of-bar window step: `Backtesting.SellPhase`, `Backtesting.BuyPhase`, `Backtesting.EndOfBar` |
| Strategy.BollingerStrategy.Backtest | library.c:586-697 | the final position and ledger are `Replay` up to `lookbackPeriod`; the step is the backtest parser's |

## Left out

- Order submission and charting (`sellMarket`, `buyMarket`, `drawPoint`, `drawLine`, the chart setters, `print`) are host side effects. The order a tick sends is returned as a value instead.
- Market data and the clock are host calls. `getTimeBars` becomes the input sequences `closes` and `opens`. `getCurrentTime`, `bollingerTimestampOfLastbar` and `addTimer` are not modelled; `Setup` returns the timer interval.
- Integer width is not modelled. The host's `integer` is fixed-width, but the model's integers are unbounded, so overflow in `toInteger` of a long numeral, in the unit scaling (`* 305 * 24 * 6` and the others, library.c:606-621 and 277-292), in the timer interval `timeStepInMinutes * 60 * 1000` (library.c:332) and in the `getTimeBars` argument is not captured.
- `getTimeBars` asks for `timeStepInMinutes * 60 * 1000 * 1000`. That request argument is not modelled.
- Floating-point rounding, and the NaN that an empty window would give, are not modelled. Prices are exact reals, and the members that divide by the window length require a non-empty window.
- `Strategy.BollingerStrategy.UpdateBands`: requires a non-empty window. On an empty window the source's division gives NaN.
- `sqrt` is a foreign call. It is the parameter `root` (and the constant `sqrt`), with `IsSqrt` as its only known property.
- The `runningAlgos` string and its `strinsert`/`strfind` manipulation are the two flags `bandsRunning` and `stopLossRunning`. The string itself is not built. If the host's `strinsert(runningAlgos, strlength(runningAlgos)-1, ...)` (library.c:128, 329) inserts before the last character, starting the second strategy turns `"BollingerBands"` into `"BollingerBand-StopLosss"` (or `"StopLoss"` into `"StopLos-BollingerBandss"`), so the first strategy's name is no longer found and the "both running" case of the model may never occur in the source.
- `StepInterval.ToInteger`: has a value only for a non-empty string of digits. What the host's `toInteger` returns for other strings is unknown, so the model gives no step there.
- `StepInterval.Substring`: the host's `substring` clamps out-of-range requests to the part of the string that exists. This is assumed; only in-range calls matter for the stated properties.
- The final profit printout and the balance valuations (library.c:698-712) are only printed. They are not modelled.
- The duplicate definitions at library.c:451-561 (`bollingerBandsBackTest` and a second `bollingerBandsTick`) and the top-level script calls are not modelled separately.
- The files under `test/` are fetch, print and timing harnesses over host calls. They are not part of this model.
- The backtest submits `buyOrSellAmount` (0.01) but books `tradeAmount`. Only the booking is modelled.
- The backtest's ledger divides by each bar's open price, so `Backtest` and `Replay` require non-zero open prices for the bars they replay (from bar `period` up to the last bar replayed, `lookbackPeriod` for `Backtest`).
- The six ledger locals of the backtest (`balanceLTC`, `balanceBTC`, `buyTotal`, `buyCount`, `sellTotal`, `sellCount`) are kept together in one `Ledger` value.
- The backtest's balance directions are modelled as written: a sell lowers `balanceBTC` and raises `balanceLTC`, and a buy does the opposite.
- On a price event library.c runs the band tick before the stop-loss tick, so a band crossing takes priority over a stop. The model follows the code; `Signals.BandTickComesFirst` shows the consequence.
- The backtest never runs the stop-loss tick. The model follows the code.
- When the bars run out, library.c does not force-close an open position; it only prints. The model follows the code.
- `Strategy.BollingerStrategy.Backtest`: the values the loop leaves in `sma`, `stdev`, `upperBand` and `lowerBand` are not returned, since nothing after the loop reads them.
