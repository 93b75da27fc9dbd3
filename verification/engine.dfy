/*
 * The position engine as the program runs it: the package-level variables
 * become the fields of one Engine object, updated in place by HandlePrice,
 * OpenPosition and ClosePosition. HandlePrice is proved equal to the pure
 * transition PositionModel.Step on the old fields; OpenPosition and
 * ClosePosition state the fields they set, and ClosePosition may modify
 * only positionOpen.
 */
module PositionEngine {
  import opened PositionModel

  class Engine {
    /** The configuration; a const field, so no method can change it. */
    const config: TradeConfig
    var positionOpen: bool
    var isLongPosition: bool
    var entryPrice: real

    /** The three position variables as one value. */
    function State(): Position
      reads this
    {
      Position(positionOpen, isLongPosition, entryPrice)
    }

    /** The state at startup: the given configuration and Go's zero values. */
    constructor (cfg: TradeConfig)
      ensures config == cfg
      ensures State() == Initial
    {
      config := cfg;
      positionOpen := false;
      isLongPosition := false;
      entryPrice := 0.0;
    }

    /**
     * One price tick: the exit test while a position is open (and nothing
     * else), the band test while flat. Returns the line logged, if any.
     */
    method HandlePrice(price: real) returns (event: Option<Event>)
      modifies this
      ensures State() == Step(config, old(State()), price).next
      ensures event == Step(config, old(State()), price).event
      ensures old(positionOpen) ==>
        entryPrice == old(entryPrice) && isLongPosition == old(isLongPosition)
      ensures old(Consistent(config, State())) ==> Consistent(config, State())
    {
      event := None;
      if positionOpen {
        var change := Change(price, entryPrice);
        if isLongPosition {
          if AtLeast(change, config.takeProfit) {
            var e := ClosePosition(TakeProfit, price);
            event := Some(e);
          } else if AtMost(change, -config.stopLoss) {
            var e := ClosePosition(StopLoss, price);
            event := Some(e);
          }
        } else {
          if AtMost(change, -config.takeProfit) {
            var e := ClosePosition(TakeProfit, price);
            event := Some(e);
          } else if AtLeast(change, config.stopLoss) {
            var e := ClosePosition(StopLoss, price);
            event := Some(e);
          }
        }
        return;
      }

      var margin := Margin;
      if Abs(price - config.minPrice) < margin {
        var e := OpenPosition(price, true);
        event := Some(e);
      } else if Abs(price - config.maxPrice) < margin {
        var e := OpenPosition(price, false);
        event := Some(e);
      }
    }

    /** Records a new position on the given side at `price`. */
    method OpenPosition(price: real, long: bool) returns (event: Event)
      modifies this
      ensures positionOpen && isLongPosition == long && entryPrice == price
      ensures event == Opened(if long then Long else Short, price)
    {
      entryPrice := price;
      positionOpen := true;
      isLongPosition := long;
      event := Opened(if long then Long else Short, price);
    }

    /** Clears the open flag only; the side and the entry price are left as they were. */
    method ClosePosition(reason: Reason, price: real) returns (event: Event)
      modifies this`positionOpen
      ensures !positionOpen
      ensures event == Closed(reason, price)
    {
      event := Closed(reason, price);
      positionOpen := false;
    }
  }
}
