/**
 The Bollinger Bands strategy of library.c as one object: its globals are the
 fields, its procedures and event handlers the methods. The `runningAlgos`
 string is represented by the two flags `bandsRunning` and `stopLossRunning`;
 the market orders a tick submits are returned to the caller.
 */
module Strategy {
  import opened Indicators
  import opened RollingWindow
  import opened StepInterval
  import opened Signals
  import opened Backtesting

  class BollingerStrategy {
    /** The host's square root. */
    const sqrt: real -> real

    var exchangeSetting: string
    var symbolSetting: string
    var position: Position
    var bandsRunning: bool
    var stopLossRunning: bool
    var tradingAmountAtOnce: real
    var lastOwnOrderPrice: real
    var stopLossPip: real

    var settingPeriod: int
    var settingDeviation: real
    var sma: real
    var stdDev: real
    var upperBand: real
    var lowerBand: real
    /** bollingerInputPriceArray */
    var window: seq<real>
    var lastPrice: real

    /** Once the band strategy runs, the four band values are those of the current window. */
    ghost predicate Valid()
      reads this
    {
      && IsSqrt(sqrt)
      && (bandsRunning ==>
            |window| > 0 &&
            Bands(sma, stdDev, upperBand, lowerBand) == ComputeBands(window, settingDeviation, sqrt))
    }

    /** The globals' initial values. */
    constructor (root: real -> real)
      requires IsSqrt(root)
      ensures Valid()
      ensures sqrt == root
      ensures exchangeSetting == "Centrabit" && symbolSetting == "LTC/BTC"
      ensures position == Flat && !bandsRunning && !stopLossRunning
      ensures tradingAmountAtOnce == 0.01 && lastOwnOrderPrice == 0.0 && stopLossPip == 0.1
      ensures settingPeriod == 20 && settingDeviation == 2.0
      ensures sma == 0.0 && stdDev == 0.0 && upperBand == 0.0 && lowerBand == 0.0
      ensures window == [] && lastPrice == 0.0
    {
      sqrt := root;
      exchangeSetting := "Centrabit";
      symbolSetting := "LTC/BTC";
      position := Flat;
      bandsRunning := false;
      stopLossRunning := false;
      tradingAmountAtOnce := 0.01;
      lastOwnOrderPrice := 0.0;
      stopLossPip := 0.1;
      settingPeriod := 20;
      settingDeviation := 2.0;
      sma := 0.0;
      stdDev := 0.0;
      upperBand := 0.0;
      lowerBand := 0.0;
      window := [];
      lastPrice := 0.0;
    }

    /** stopLoss: set the pip and start the stop-loss strategy. */
    method StopLoss(pip: real)
      requires Valid()
      modifies this`stopLossPip, this`stopLossRunning
      ensures Valid()
      ensures stopLossPip == pip && stopLossRunning
    {
      stopLossPip := pip;
      stopLossRunning := true;
    }

    /** stopLossTick: close a long or short whose price has moved past its stop. */
    method StopLossTick(price: real) returns (order: Order)
      modifies this`position
      ensures Decision(position, lastOwnOrderPrice, order)
              == StopLossDecision(old(position), lastOwnOrderPrice, price, stopLossPip)
    {
      order := NoOrder;
      if position == Flat {
        return;
      }
      if position == Long {
        var limitPrice := LongStop(lastOwnOrderPrice, stopLossPip);
        if price < limitPrice {
          order := SellMarket;
          position := Flat;
        }
      }
      if position == Short {
        var limitPrice := ShortStop(lastOwnOrderPrice, stopLossPip);
        if price > limitPrice {
          order := BuyMarket;
          position := Flat;
        }
      }
    }

    /**
     bollingerBands: seed the window with the fetched bars' close prices,
     compute the bands, store the settings and start the band strategy. The
     result is the timer interval in milliseconds.
     */
    method Setup(exchange: string, symbol: string, period: int, deviation: real,
                 typeStepSymbol: string, tradeAmount: real, closes: seq<real>)
      returns (timerInterval: Option<int>)
      requires Valid()
      requires |closes| > 0
      modifies this`window, this`sma, this`stdDev, this`upperBand, this`lowerBand,
               this`exchangeSetting, this`symbolSetting, this`settingPeriod, this`settingDeviation,
               this`tradingAmountAtOnce, this`lastPrice, this`bandsRunning
      ensures Valid()
      ensures window == old(window) + closes
      ensures Bands(sma, stdDev, upperBand, lowerBand) == ComputeBands(window, deviation, sqrt)
      ensures exchangeSetting == exchange && symbolSetting == symbol
      ensures settingPeriod == period && settingDeviation == deviation
      ensures tradingAmountAtOnce == tradeAmount && lastPrice == closes[|closes| - 1]
      ensures bandsRunning
      ensures timerInterval == (var step := LiveStepMinutes(typeStepSymbol);
                                if step.None? then None else Some(step.value * 60 * 1000))
    {
      var timeStepInMinutes := LiveStepMinutes(typeStepSymbol);
      for i := 0 to |closes|
        invariant window == old(window) + closes[..i]
      {
        window := window + [closes[i]];
      }
      assert closes[..|closes|] == closes;

      sma := CalcSMA(window);
      stdDev := CalcStdDev(sma, window, sqrt);
      upperBand := UpperBand(sma, stdDev, deviation);
      lowerBand := LowerBand(sma, stdDev, deviation);

      exchangeSetting := exchange;
      symbolSetting := symbol;
      settingPeriod := period;
      settingDeviation := deviation;
      tradingAmountAtOnce := tradeAmount;
      lastPrice := closes[|closes| - 1];
      bandsRunning := true;

      timerInterval := if timeStepInMinutes.None? then None else Some(timeStepInMinutes.value * 60 * 1000);
    }

    /** updateBollingerBands: push the last price into the window, drop the oldest, recompute. */
    method UpdateBands()
      requires Valid() && |window| > 0
      modifies this`window, this`sma, this`stdDev, this`upperBand, this`lowerBand
      ensures Valid()
      ensures window == Advance(old(window), lastPrice)
      ensures Bands(sma, stdDev, upperBand, lowerBand) == ComputeBands(window, settingDeviation, sqrt)
    {
      window := window + [lastPrice];
      window := window[1..];
      sma := CalcSMA(window);
      stdDev := CalcStdDev(sma, window, sqrt);
      upperBand := UpperBand(sma, stdDev, settingDeviation);
      lowerBand := LowerBand(sma, stdDev, settingDeviation);
    }

    /** bollingerBandsTick: record the price, then sell above the upper band or buy below the lower. */
    method BandsTick(price: real) returns (order: Order)
      modifies this`lastPrice, this`lastOwnOrderPrice, this`position
      ensures lastPrice == price
      ensures Decision(position, lastOwnOrderPrice, order)
              == BandDecision(old(position), old(lastOwnOrderPrice), price, upperBand, lowerBand)
    {
      lastPrice := price;
      order := NoOrder;
      if position == Long || position == Flat {
        if price > upperBand {
          order := SellMarket;
          lastOwnOrderPrice := price;
          position := Short;
          return;
        }
      }
      if position == Short || position == Flat {
        if price < lowerBand {
          order := BuyMarket;
          lastOwnOrderPrice := price;
          position := Long;
          return;
        }
      }
    }

    /** onLastPriceChanged: the band tick, then the stop-loss tick, for whichever strategies run. */
    method OnLastPriceChanged(amount: real) returns (bandOrder: Order, stopOrder: Order)
      modifies this`lastPrice, this`lastOwnOrderPrice, this`position
      ensures EventOutcome(position, lastOwnOrderPrice, bandOrder, stopOrder)
              == PriceEvent(bandsRunning, stopLossRunning, old(position), old(lastOwnOrderPrice),
                            amount, upperBand, lowerBand, stopLossPip)
      ensures lastPrice == if bandsRunning then amount else old(lastPrice)
      ensures bandOrder != NoOrder && stopLossPip >= 0.0 && amount >= 0.0 ==> stopOrder == NoOrder
    {
      bandOrder, stopOrder := NoOrder, NoOrder;
      if !bandsRunning && !stopLossRunning {
        return;
      }
      if bandsRunning {
        bandOrder := BandsTick(amount);
      }
      if stopLossRunning {
        stopOrder := StopLossTick(amount);
      }
      if bandOrder != NoOrder && stopLossPip >= 0.0 && amount >= 0.0 {
        EntrySurvivesPriceEvent(old(position), old(lastOwnOrderPrice), amount,
                                upperBand, lowerBand, stopLossPip);
      }
    }

    /** onTimedOut: advance the window when the band strategy runs. */
    method OnTimedOut()
      requires Valid()
      modifies this`window, this`sma, this`stdDev, this`upperBand, this`lowerBand
      ensures Valid()
      ensures window == if bandsRunning then Advance(old(window), lastPrice) else old(window)
      ensures bandsRunning ==>
                Bands(sma, stdDev, upperBand, lowerBand) == ComputeBands(window, settingDeviation, sqrt)
      ensures !bandsRunning ==>
                sma == old(sma) && stdDev == old(stdDev) &&
                upperBand == old(upperBand) && lowerBand == old(lowerBand)
    {
      if bandsRunning {
        UpdateBands();
      }
    }

    /** The bands of one backtest bar, computed as the backtest does: SMA, standard deviation, bands. */
    method BarBands(prices: seq<real>, deviation: real) returns (upperBand: real, lowerBand: real)
      requires |prices| > 0
      ensures upperBand == ComputeBands(prices, deviation, sqrt).upper
      ensures lowerBand == ComputeBands(prices, deviation, sqrt).lower
    {
      var sma := CalcSMA(prices);
      var stdev := CalcStdDev(sma, prices, sqrt);
      upperBand := UpperBand(sma, stdev, deviation);
      lowerBand := LowerBand(sma, stdev, deviation);
    }

    /** The backtest's window seed: the open prices of the first `period` bars, in order. */
    static method SeedWindow(opens: seq<real>, period: int) returns (inputPriceArray: seq<real>)
      requires 0 <= period <= |opens|
      ensures inputPriceArray == opens[..period]
    {
      inputPriceArray := [];
      for i := 0 to period
        invariant inputPriceArray == opens[..i]
      {
        inputPriceArray := inputPriceArray + [opens[i]];
      }
    }

    /**
     The body of one backtest bar: the sell branch, then the buy block (which
     also pushes the price into the window), then the push that ends every bar.
     */
    method BacktestBar(price: real, upperBand: real, lowerBand: real, tradeAmount: real,
                       window: seq<real>, ledger: Ledger)
      returns (window': seq<real>, ledger': Ledger)
      requires price != 0.0
      modifies this`position
      ensures ReplayState(position, window', ledger')
              == EndOfBar(BuyPhase(SellPhase(ReplayState(old(position), window, ledger),
                                             price, upperBand, tradeAmount),
                                   price, lowerBand, tradeAmount), price)
    {
      ghost var st0 := ReplayState(position, window, ledger);
      window', ledger' := window, ledger;
      if position == Long || position == Flat {
        if price > upperBand {
          ledger' := BookSell(ledger', price, tradeAmount);
          position := Short;
        }
      }
      ghost var st1 := ReplayState(position, window', ledger');
      assert st1 == SellPhase(st0, price, upperBand, tradeAmount);

      if position == Short || position == Flat {
        if price < lowerBand {
          ledger' := BookBuy(ledger', price, tradeAmount);
          position := Long;
        }
        window' := window' + [price];
        window' := window'[1..];
      }
      ghost var st2 := ReplayState(position, window', ledger');
      assert st2 == BuyPhase(st1, price, lowerBand, tradeAmount);

      window' := window' + [price];
      window' := window'[1..];
    }

    /**
     backtestBollingerBands over the bars' open prices `opens`: seed the window
     with the first `period` opens, then replay bars period..lookbackPeriod-1,
     moving the global position. The result is the ledger and the parsed step.
     */
    method Backtest(opens: seq<real>, period: int, deviation: real, typeStepSymbol: string,
                    lookbackPeriod: int, tradeAmount: real)
      returns (ledger: Ledger, timeStepInMinutes: Option<int>)
      requires 1 <= period <= lookbackPeriod <= |opens|
      requires NonZeroBars(opens, period, lookbackPeriod)
      modifies this`position
      ensures timeStepInMinutes == BacktestStepMinutes(typeStepSymbol)
      ensures var r := Replay(opens, period, WindowBands(deviation, sqrt), tradeAmount, old(position),
                              lookbackPeriod);
              position == r.position && ledger == r.ledger
    {
      // The six ledger locals (balanceLTC, balanceBTC, buyTotal, buyCount,
      // sellTotal, sellCount) are kept together in `ledger`.
      ledger := InitialLedger;
      timeStepInMinutes := BacktestStepMinutes(typeStepSymbol);

      var inputPriceArray := SeedWindow(opens, period);

      for j := period to lookbackPeriod
        invariant ReplayState(position, inputPriceArray, ledger)
                  == Replay(opens, period, WindowBands(deviation, sqrt), tradeAmount, old(position), j)
      {
        var price := opens[j];
        var upperBand, lowerBand := BarBands(inputPriceArray, deviation);
        WindowBandsAt(inputPriceArray, deviation, sqrt);
        inputPriceArray, ledger := BacktestBar(price, upperBand, lowerBand, tradeAmount, inputPriceArray, ledger);
        ReplayOneMore(opens, period, WindowBands(deviation, sqrt), tradeAmount, old(position), j + 1);
      }
    }
  }
}
