/**
 The backtest of library.c (backtestBollingerBands) as a specification: bar by
 bar over the bars' open prices, from a window seeded with the first `period`
 opens. Each bar computes the bands of the window, runs the sell branch and
 then the buy branch (there is no return between them), books each trade in a
 ledger, and advances the window: once more inside the buy branch's block when
 the position after the sell branch is short or flat, and once at the end of
 the bar.

 How a window's bands are computed is a parameter `bands`: the backtest itself
 uses `WindowBands(deviation, sqrt)`, and the bookkeeping lemmas below hold
 whatever the bands are.
 */
module Backtesting {
  import opened Indicators
  import opened RollingWindow
  import opened Signals

  /** The backtest's simulated balances, trade totals and trade counts. */
  datatype Ledger = Ledger(balanceLTC: real, balanceBTC: real,
                           buyTotal: real, buyCount: nat,
                           sellTotal: real, sellCount: nat)

  /** 1000 LTC, 0.01 BTC, nothing traded. */
  const InitialLedger := Ledger(1000.0, 0.01, 0.0, 0, 0.0, 0)

  /** What a trade of `amount` at `price` is worth, in BTC. */
  function Notional(price: real, amount: real): real {
    price * amount
  }

  /** A sell: BTC goes down by the notional, LTC up by amount / price, and the sell totals grow. */
  function BookSell(l: Ledger, price: real, amount: real): (r: Ledger)
    requires price != 0.0
    ensures r.sellCount == l.sellCount + 1 && r.sellTotal == l.sellTotal + Notional(price, amount)
    ensures r.buyCount == l.buyCount && r.buyTotal == l.buyTotal
    ensures r.balanceBTC + r.sellTotal == l.balanceBTC + l.sellTotal
  {
    Ledger(l.balanceLTC + amount / price, l.balanceBTC - Notional(price, amount),
           l.buyTotal, l.buyCount, l.sellTotal + Notional(price, amount), l.sellCount + 1)
  }

  /** A buy: BTC goes up by the notional, LTC down by amount / price, and the buy totals grow. */
  function BookBuy(l: Ledger, price: real, amount: real): (r: Ledger)
    requires price != 0.0
    ensures r.buyCount == l.buyCount + 1 && r.buyTotal == l.buyTotal + Notional(price, amount)
    ensures r.sellCount == l.sellCount && r.sellTotal == l.sellTotal
    ensures r.balanceBTC - r.buyTotal == l.balanceBTC - l.buyTotal
  {
    Ledger(l.balanceLTC - amount / price, l.balanceBTC + Notional(price, amount),
           l.buyTotal + Notional(price, amount), l.buyCount + 1, l.sellTotal, l.sellCount)
  }

  /** A trade moves LTC by exactly `amount` worth at `price`: in on a sell, out on a buy. */
  lemma LtcMovesByAmount(l: Ledger, price: real, amount: real)
    requires price != 0.0
    ensures (BookSell(l, price, amount).balanceLTC - l.balanceLTC) * price == amount
    ensures (l.balanceLTC - BookBuy(l, price, amount).balanceLTC) * price == amount
  {}

  /** The backtest's state between bars: the global position, the price window and the ledger. */
  datatype ReplayState = ReplayState(position: Position, window: seq<real>, ledger: Ledger)

  /**
   The sell branch of a bar: from long or flat above the upper band, sell and
   go short; otherwise nothing changes. The window is never touched here.
   */
  function SellPhase(st: ReplayState, price: real, upper: real, amount: real): (r: ReplayState)
    requires price != 0.0
    ensures r.window == st.window
    ensures r.position == Short <==> st.position == Short || SellSignal(st.position, price, upper)
    ensures !SellSignal(st.position, price, upper) ==> r == st
    ensures r.ledger.sellCount == st.ledger.sellCount + (if SellSignal(st.position, price, upper) then 1 else 0)
    ensures r.ledger.buyCount == st.ledger.buyCount && r.ledger.buyTotal == st.ledger.buyTotal
  {
    if SellSignal(st.position, price, upper)
    then st.(position := Short, ledger := BookSell(st.ledger, price, amount))
    else st
  }

  /**
   The buy block of a bar, entered from short or flat: below the lower band,
   buy and go long; either way the price is pushed into the window.
   */
  function BuyPhase(st: ReplayState, price: real, lower: real, amount: real): (r: ReplayState)
    requires price != 0.0
    ensures st.position == Long ==> r == st
    ensures |r.window| == |st.window|
    ensures st.position != Long && |st.window| > 0 ==> r.window[|r.window| - 1] == price
    ensures r.position == Long <==> st.position == Long || price < lower
    ensures r.ledger.buyCount == st.ledger.buyCount + (if BuySignal(st.position, price, lower) then 1 else 0)
    ensures r.ledger.sellCount == st.ledger.sellCount && r.ledger.sellTotal == st.ledger.sellTotal
  {
    if st.position == Short || st.position == Flat then
      var traded :=
        if price < lower then st.(position := Long, ledger := BookBuy(st.ledger, price, amount))
        else st;
      traded.(window := Advance(traded.window, price))
    else assert st.position == Long; st
  }

  /** The end of every bar: the price is pushed into the window once more. */
  function EndOfBar(st: ReplayState, price: real): (r: ReplayState)
    ensures r.position == st.position && r.ledger == st.ledger
    ensures |r.window| == |st.window|
    ensures |st.window| > 0 ==> r.window == st.window[1..] + [price]
  {
    st.(window := Advance(st.window, price))
  }

  /** The bands the backtest computes for a window: ComputeBands, and zeros for an empty window. */
  function WindowBands(k: real, root: real -> real): seq<real> -> Bands {
    w => if |w| == 0 then Bands(0.0, 0.0, 0.0, 0.0) else ComputeBands(w, k, root)
  }

  lemma WindowBandsAt(w: seq<real>, k: real, root: real -> real)
    requires |w| > 0
    ensures WindowBands(k, root)(w) == ComputeBands(w, k, root)
  {}

  /** One bar of the backtest at open price `price`, with the bands of the window it starts with. */
  function BarStep(st: ReplayState, price: real, bands: seq<real> -> Bands, amount: real): (r: ReplayState)
    requires price != 0.0
    ensures |r.window| == |st.window|
    ensures |st.window| > 0 ==> r.window[|r.window| - 1] == price
  {
    var b := bands(st.window);
    EndOfBar(BuyPhase(SellPhase(st, price, b.upper, amount), price, b.lower, amount), price)
  }

  /** The bars from..to-1 have non-zero open prices (the ledger divides by them). */
  predicate NonZeroBars(opens: seq<real>, from: int, to: int) {
    forall i :: 0 <= i < |opens| && from <= i < to ==> opens[i] != 0.0
  }

  /**
   The state after the bars period..j-1 have been replayed, from the window of
   the first `period` opens, the initial ledger and the position `start`.
   */
  function Replay(opens: seq<real>, period: int, bands: seq<real> -> Bands, amount: real,
                  start: Position, j: int): (r: ReplayState)
    requires 1 <= period <= j <= |opens|
    requires NonZeroBars(opens, period, j)
    ensures |r.window| == period
    ensures j > period ==> r.window[period - 1] == opens[j - 1]
    decreases j
  {
    if j == period then ReplayState(start, opens[..period], InitialLedger)
    else BarStep(Replay(opens, period, bands, amount, start, j - 1), opens[j - 1], bands, amount)
  }

  /** Replay one bar further: the state after bar j-1 stepped by bar j-1's open price. */
  lemma ReplayOneMore(opens: seq<real>, period: int, bands: seq<real> -> Bands, amount: real,
                      start: Position, j: int)
    requires 1 <= period < j <= |opens|
    requires NonZeroBars(opens, period, j)
    ensures Replay(opens, period, bands, amount, start, j)
            == BarStep(Replay(opens, period, bands, amount, start, j - 1), opens[j - 1], bands, amount)
  {}

  /** The balance identity a bar keeps: BTC held minus bought plus sold. */
  function BtcFlow(l: Ledger): real {
    l.balanceBTC - l.buyTotal + l.sellTotal
  }

  /** How the trade counts may differ for each position. */
  predicate CountsFit(st: ReplayState) {
    var d := st.ledger.sellCount - st.ledger.buyCount;
    && (st.position == Flat ==> st.ledger.sellCount == 0 && st.ledger.buyCount == 0)
    && (st.position == Short ==> 0 <= d <= 1)
    && (st.position == Long ==> -1 <= d <= 0)
  }

  /** A bar keeps the BTC flow and the count discipline, and only adds to counts and totals. */
  lemma BarStepKeeps(st: ReplayState, price: real, bands: seq<real> -> Bands, amount: real)
    requires price != 0.0
    ensures var r := BarStep(st, price, bands, amount);
            && BtcFlow(r.ledger) == BtcFlow(st.ledger)
            && (CountsFit(st) ==> CountsFit(r))
            && st.ledger.sellCount <= r.ledger.sellCount <= st.ledger.sellCount + 1
            && st.ledger.buyCount <= r.ledger.buyCount <= st.ledger.buyCount + 1
            && (price > 0.0 && amount >= 0.0 ==>
                  st.ledger.sellTotal <= r.ledger.sellTotal && st.ledger.buyTotal <= r.ledger.buyTotal)
  {
    if price > 0.0 && amount >= 0.0 {
      assert Notional(price, amount) >= 0.0;
    }
  }

  /** Throughout the backtest, balanceBTC - 0.01 == buyTotal - sellTotal. */
  lemma {:induction false} BtcBalanceTracksTotals(opens: seq<real>, period: int, bands: seq<real> -> Bands,
                                                  amount: real, start: Position, j: int)
    requires 1 <= period <= j <= |opens|
    requires NonZeroBars(opens, period, j)
    ensures var l := Replay(opens, period, bands, amount, start, j).ledger;
            l.balanceBTC - 0.01 == l.buyTotal - l.sellTotal
    decreases j
  {
    if j > period {
      var st := Replay(opens, period, bands, amount, start, j - 1);
      ReplayOneMore(opens, period, bands, amount, start, j);
      BtcBalanceTracksTotals(opens, period, bands, amount, start, j - 1);
      BarStepKeeps(st, opens[j - 1], bands, amount);
    }
  }

  /**
   Sells and buys alternate closely enough that their counts never differ by
   more than one, whatever position the backtest starts from; and a backtest
   that is flat has not traded at all.
   */
  lemma {:induction false} CountsStayBalanced(opens: seq<real>, period: int, bands: seq<real> -> Bands,
                                              amount: real, start: Position, j: int)
    requires 1 <= period <= j <= |opens|
    requires NonZeroBars(opens, period, j)
    ensures var r := Replay(opens, period, bands, amount, start, j);
            && -1 <= r.ledger.sellCount - r.ledger.buyCount <= 1
            && (r.position == Flat ==> r.ledger.sellCount == 0 && r.ledger.buyCount == 0)
    ensures CountsFit(Replay(opens, period, bands, amount, start, j))
    decreases j
  {
    if j > period {
      var st := Replay(opens, period, bands, amount, start, j - 1);
      ReplayOneMore(opens, period, bands, amount, start, j);
      CountsStayBalanced(opens, period, bands, amount, start, j - 1);
      BarStepKeeps(st, opens[j - 1], bands, amount);
    }
  }

  /** From ledger `a` to ledger `b` in `bars` bars: counts only grow, by at most two a bar. */
  predicate CountsGrow(a: Ledger, b: Ledger, bars: int) {
    && a.sellCount <= b.sellCount && a.buyCount <= b.buyCount
    && b.sellCount + b.buyCount <= a.sellCount + a.buyCount + 2 * bars
  }

  predicate TotalsGrow(a: Ledger, b: Ledger) {
    a.sellTotal <= b.sellTotal && a.buyTotal <= b.buyTotal
  }

  /** Trade counts never go down, and grow by at most two a bar. */
  lemma {:induction false} CountsGrowOver(opens: seq<real>, period: int, bands: seq<real> -> Bands,
                                          amount: real, start: Position, i: int, j: int)
    requires 1 <= period <= i <= j <= |opens|
    requires NonZeroBars(opens, period, j)
    ensures CountsGrow(Replay(opens, period, bands, amount, start, i).ledger,
                       Replay(opens, period, bands, amount, start, j).ledger, j - i)
    decreases j
  {
    if j > i {
      var a := Replay(opens, period, bands, amount, start, i).ledger;
      var st := Replay(opens, period, bands, amount, start, j - 1);
      var c := Replay(opens, period, bands, amount, start, j).ledger;
      assert CountsGrow(a, st.ledger, j - 1 - i) by {
        CountsGrowOver(opens, period, bands, amount, start, i, j - 1);
      }
      assert st.ledger.sellCount <= c.sellCount <= st.ledger.sellCount + 1
          && st.ledger.buyCount <= c.buyCount <= st.ledger.buyCount + 1 by {
        ReplayOneMore(opens, period, bands, amount, start, j);
        BarStepKeeps(st, opens[j - 1], bands, amount);
      }
    }
  }

  /** The bars from..to-1 have positive open prices. */
  predicate PositiveBars(opens: seq<real>, from: int, to: int) {
    forall i :: 0 <= i < |opens| && from <= i < to ==> opens[i] > 0.0
  }

  /** For positive prices and a non-negative amount, the buy and sell totals never go down. */
  lemma {:induction false} TotalsGrowOver(opens: seq<real>, period: int, bands: seq<real> -> Bands,
                                          amount: real, start: Position, i: int, j: int)
    requires 1 <= period <= i <= j <= |opens|
    requires PositiveBars(opens, period, j) && amount >= 0.0
    ensures NonZeroBars(opens, period, j)
    ensures TotalsGrow(Replay(opens, period, bands, amount, start, i).ledger,
                       Replay(opens, period, bands, amount, start, j).ledger)
    decreases j
  {
    assert NonZeroBars(opens, period, j) by {
      forall n | 0 <= n < |opens| && period <= n < j
        ensures opens[n] != 0.0
      {
        assert opens[n] > 0.0;
      }
    }
    if j > i {
      var a := Replay(opens, period, bands, amount, start, i).ledger;
      var st := Replay(opens, period, bands, amount, start, j - 1);
      var c := Replay(opens, period, bands, amount, start, j).ledger;
      assert TotalsGrow(a, st.ledger) by {
        TotalsGrowOver(opens, period, bands, amount, start, i, j - 1);
      }
      assert TotalsGrow(st.ledger, c) by {
        ReplayOneMore(opens, period, bands, amount, start, j);
        assert opens[j - 1] > 0.0;
        BarStepKeeps(st, opens[j - 1], bands, amount);
      }
    }
  }

  /** A bar's window holds only prices of the window it started with and the bar's own price. */
  lemma BarStepWindow(st: ReplayState, price: real, bands: seq<real> -> Bands, amount: real)
    requires price != 0.0
    ensures forall x :: x in BarStep(st, price, bands, amount).window ==> x in st.window || x == price
  {}

  /** The window only ever holds open prices of bars already seen. */
  lemma {:induction false} WindowFromSeenBars(opens: seq<real>, period: int, bands: seq<real> -> Bands,
                                              amount: real, start: Position, j: int)
    requires 1 <= period <= j <= |opens|
    requires NonZeroBars(opens, period, j)
    ensures forall x :: x in Replay(opens, period, bands, amount, start, j).window ==> x in opens[..j]
    decreases j
  {
    if j > period {
      var st := Replay(opens, period, bands, amount, start, j - 1);
      var w := Replay(opens, period, bands, amount, start, j).window;
      assert w == BarStep(st, opens[j - 1], bands, amount).window by {
        ReplayOneMore(opens, period, bands, amount, start, j);
      }
      WindowFromSeenBars(opens, period, bands, amount, start, j - 1);
      BarStepWindow(st, opens[j - 1], bands, amount);
      assert opens[..j] == opens[..j - 1] + [opens[j - 1]];
    }
  }

  /**
   When the position after the sell branch is short or flat, the bar's price
   enters the window twice.
   */
  lemma DoubleAdvanceOnBar(st: ReplayState, price: real, bands: seq<real> -> Bands, amount: real)
    requires |st.window| >= 2 && price != 0.0
    requires st.position == Short || st.position == Flat || SellSignal(st.position, price, bands(st.window).upper)
    ensures BarStep(st, price, bands, amount).window == st.window[2..] + [price, price]
  {
    DoubleAdvance(st.window, price);
  }

  /** From a long that no band crosses, a bar only advances the window once and trades nothing. */
  lemma QuietLongBar(st: ReplayState, price: real, bands: seq<real> -> Bands, amount: real)
    requires |st.window| > 0 && price != 0.0
    requires st.position == Long && price <= bands(st.window).upper
    ensures BarStep(st, price, bands, amount) == ReplayState(Long, st.window[1..] + [price], st.ledger)
  {}
}
