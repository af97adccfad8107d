/**
 The position state machine of library.c: the band tick (bollingerBandsTick),
 the stop-loss tick (stopLossTick) and the order in which a price event runs
 them (onLastPriceChanged). The string-valued `position` ("flat", "long",
 "short") is a datatype; the market order a tick submits is returned as a value.
 */
module Signals {

  datatype Position = Flat | Long | Short

  /** The market order a tick submits, if any. */
  datatype Order = NoOrder | SellMarket | BuyMarket

  /** What a tick leaves behind: the new position, the entry price and the order sent. */
  datatype Decision = Decision(position: Position, lastOwnOrderPrice: real, order: Order)

  /** The sell branch: only from long or flat, and only above the upper band. */
  predicate SellSignal(position: Position, price: real, upper: real) {
    (position == Long || position == Flat) && price > upper
  }

  /** The buy branch: only from short or flat, and only below the lower band. */
  predicate BuySignal(position: Position, price: real, lower: real) {
    (position == Short || position == Flat) && price < lower
  }

  /**
   One band tick. A sell returns before the buy branch is looked at, so at most
   one order is sent; the entry price is the tick's price.
   */
  function BandDecision(position: Position, lastOwnOrderPrice: real, price: real,
                        upper: real, lower: real): (d: Decision)
    ensures d.order == SellMarket <==> position != Short && price > upper
    ensures d.order == BuyMarket <==>
              position != Long && price < lower && !(position != Short && price > upper)
    ensures d.order == SellMarket ==> d.position == Short
    ensures d.order == BuyMarket ==> d.position == Long
    ensures d.order == NoOrder <==> d.position == position
    ensures d.order == NoOrder ==> d.lastOwnOrderPrice == lastOwnOrderPrice
    ensures d.order != NoOrder ==> d.lastOwnOrderPrice == price
  {
    if SellSignal(position, price, upper) then Decision(Short, price, SellMarket)
    else if BuySignal(position, price, lower) then Decision(Long, price, BuyMarket)
    else Decision(position, lastOwnOrderPrice, NoOrder)
  }

  /** Stop price of a long position: `pip` below the entry price. */
  function LongStop(lastOwnOrderPrice: real, pip: real): real {
    lastOwnOrderPrice * (1.0 - pip)
  }

  /** Stop price of a short position: `pip` above the entry price. */
  function ShortStop(lastOwnOrderPrice: real, pip: real): real {
    lastOwnOrderPrice * (1.0 + pip)
  }

  /**
   One stop-loss tick: a long below its stop is sold, a short above its stop is
   bought back, and either way the position becomes flat. The long check runs
   first and leaves the position flat, so the short check cannot fire after it.
   */
  function StopLossDecision(position: Position, lastOwnOrderPrice: real, price: real, pip: real): (d: Decision)
    ensures d.lastOwnOrderPrice == lastOwnOrderPrice
    ensures d.position == position || d.position == Flat
    ensures d.order == SellMarket <==> position == Long && price < LongStop(lastOwnOrderPrice, pip)
    ensures d.order == BuyMarket <==> position == Short && price > ShortStop(lastOwnOrderPrice, pip)
    ensures d.order == NoOrder <==> d.position == position
  {
    if position == Flat then Decision(position, lastOwnOrderPrice, NoOrder)
    else
      var afterLong :=
        if position == Long && price < LongStop(lastOwnOrderPrice, pip)
        then Decision(Flat, lastOwnOrderPrice, SellMarket)
        else Decision(position, lastOwnOrderPrice, NoOrder);
      if afterLong.position == Short && price > ShortStop(lastOwnOrderPrice, pip)
      then Decision(Flat, lastOwnOrderPrice, BuyMarket)
      else afterLong
  }

  /** Where a price event leaves the position, and the order each tick sent. */
  datatype EventOutcome = EventOutcome(position: Position, lastOwnOrderPrice: real,
                                       bandOrder: Order, stopOrder: Order)

  /**
   A price event runs the band tick and then the stop-loss tick on what the band
   tick left. `bands` and `stopLoss` say which of the two are running.
   */
  function PriceEvent(bands: bool, stopLoss: bool, position: Position, lastOwnOrderPrice: real,
                      price: real, upper: real, lower: real, pip: real): (r: EventOutcome)
    ensures !bands && !stopLoss ==> r == EventOutcome(position, lastOwnOrderPrice, NoOrder, NoOrder)
    ensures !stopLoss ==> r.stopOrder == NoOrder
    ensures !bands ==> r.bandOrder == NoOrder && r.lastOwnOrderPrice == lastOwnOrderPrice
    ensures r.bandOrder == NoOrder && r.stopOrder == NoOrder ==>
              r.position == position && r.lastOwnOrderPrice == lastOwnOrderPrice
    ensures r.stopOrder != NoOrder ==> r.position == Flat
  {
    var afterBands :=
      if bands then BandDecision(position, lastOwnOrderPrice, price, upper, lower)
      else Decision(position, lastOwnOrderPrice, NoOrder);
    var afterStop :=
      if stopLoss then StopLossDecision(afterBands.position, afterBands.lastOwnOrderPrice, price, pip)
      else Decision(afterBands.position, afterBands.lastOwnOrderPrice, NoOrder);
    EventOutcome(afterStop.position, afterStop.lastOwnOrderPrice, afterBands.order, afterStop.order)
  }

  /**
   A position that the band tick has just opened at `price` is never stopped
   out on the same event, for a non-negative pip and price.
   */
  lemma NoStopOnEntry(position: Position, lastOwnOrderPrice: real, price: real,
                      upper: real, lower: real, pip: real)
    requires pip >= 0.0 && price >= 0.0
    requires BandDecision(position, lastOwnOrderPrice, price, upper, lower).order != NoOrder
    ensures var d := BandDecision(position, lastOwnOrderPrice, price, upper, lower);
            StopLossDecision(d.position, d.lastOwnOrderPrice, price, pip)
              == Decision(d.position, d.lastOwnOrderPrice, NoOrder)
  {
    StopsAroundEntry(price, pip);
  }

  /** The stops lie on either side of a non-negative entry price. */
  lemma StopsAroundEntry(entry: real, pip: real)
    requires pip >= 0.0 && entry >= 0.0
    ensures LongStop(entry, pip) <= entry <= ShortStop(entry, pip)
  {
    assert entry * pip >= 0.0;
  }

  /** On a full price event with both strategies running, an entry made by the band tick survives it. */
  lemma EntrySurvivesPriceEvent(position: Position, lastOwnOrderPrice: real, price: real,
                                upper: real, lower: real, pip: real)
    requires pip >= 0.0 && price >= 0.0
    requires BandDecision(position, lastOwnOrderPrice, price, upper, lower).order != NoOrder
    ensures var d := BandDecision(position, lastOwnOrderPrice, price, upper, lower);
            PriceEvent(true, true, position, lastOwnOrderPrice, price, upper, lower, pip)
              == EventOutcome(d.position, price, d.order, NoOrder)
  {
    NoStopOnEntry(position, lastOwnOrderPrice, price, upper, lower, pip);
  }

  /**
   The band tick runs first, so a band crossing wins over a stop: a long whose
   price is below its stop but above the upper band is sold into a short, and a
   short whose price is above its stop but below the lower band is bought into
   a long; neither is stopped out on that event.
   */
  lemma BandTickComesFirst(entry: real, price: real, upper: real, lower: real, pip: real)
    requires pip >= 0.0 && price >= 0.0
    ensures upper < price < LongStop(entry, pip) ==>
              PriceEvent(true, true, Long, entry, price, upper, lower, pip)
                == EventOutcome(Short, price, SellMarket, NoOrder)
    ensures ShortStop(entry, pip) < price < lower ==>
              PriceEvent(true, true, Short, entry, price, upper, lower, pip)
                == EventOutcome(Long, price, BuyMarket, NoOrder)
  {
    StopsAroundEntry(price, pip);
  }

  /** With the band strategy off, the stop-loss tick alone closes a long below its stop. */
  lemma StopAloneCloses(entry: real, price: real, upper: real, lower: real, pip: real)
    requires price < LongStop(entry, pip)
    ensures PriceEvent(false, true, Long, entry, price, upper, lower, pip)
            == EventOutcome(Flat, entry, NoOrder, SellMarket)
  {}

  /** The case above with numbers: entry 100, pip 1%, price 98.9, upper band 98. */
  lemma BandTickComesFirstExample()
    ensures PriceEvent(true, true, Long, 100.0, 98.9, 98.0, 90.0, 0.01)
            == EventOutcome(Short, 98.9, SellMarket, NoOrder)
    ensures PriceEvent(false, true, Long, 100.0, 98.9, 98.0, 90.0, 0.01)
            == EventOutcome(Flat, 100.0, NoOrder, SellMarket)
  {
    BandTickComesFirst(100.0, 98.9, 98.0, 90.0, 0.01);
    StopAloneCloses(100.0, 98.9, 98.0, 90.0, 0.01);
  }

  /** A long bought at 100 with a 1% pip is closed by a price of 98.9 but not by 99.5. */
  lemma LongStopExample()
    ensures StopLossDecision(Long, 100.0, 98.9, 0.01) == Decision(Flat, 100.0, SellMarket)
    ensures StopLossDecision(Long, 100.0, 99.5, 0.01) == Decision(Long, 100.0, NoOrder)
  {}
}
