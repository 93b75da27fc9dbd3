/*
 * Properties of one tick (Step) and of a run of ticks (Run): the transitions
 * of the Flat and Positioned states, the tie-breaks, the exit thresholds
 * expressed as prices, the zero-entry edge case, and what stays true over
 * any number of ticks.
 */
module PositionProofs {
  import opened PositionModel

  // ---------------------------------------------------------------------
  // Flat: the entry bands

  /** A flat engine opens a long at the tick's price when the tick touches the MinPrice band. */
  lemma FlatNearMinOpensLong(cfg: TradeConfig, s: Position, price: real)
    requires !s.open
    requires Abs(price - cfg.minPrice) < Margin
    ensures Step(cfg, s, price) == Outcome(Position(true, true, price), Some(Opened(Long, price)))
  {
  }

  /** A flat engine opens a short when the tick touches the MaxPrice band but not the MinPrice band. */
  lemma FlatNearMaxOpensShort(cfg: TradeConfig, s: Position, price: real)
    requires !s.open
    requires Abs(price - cfg.minPrice) >= Margin && Abs(price - cfg.maxPrice) < Margin
    ensures Step(cfg, s, price) == Outcome(Position(true, false, price), Some(Opened(Short, price)))
  {
  }

  /** When a tick touches both bands (possible only if they are closer than 2 * Margin), the long wins. */
  lemma LongBandWinsTies(cfg: TradeConfig, s: Position, price: real)
    requires !s.open
    requires Abs(price - cfg.minPrice) < Margin && Abs(price - cfg.maxPrice) < Margin
    ensures cfg.maxPrice - cfg.minPrice < 2.0 * Margin && cfg.minPrice - cfg.maxPrice < 2.0 * Margin
    ensures Step(cfg, s, price).next.open && Step(cfg, s, price).next.isLong
    ensures Step(cfg, s, price).event == Some(Opened(Long, price))
  {
  }

  /** A flat engine ignores a tick that is Margin or more away from both bands. */
  lemma FlatOutsideBandsNoChange(cfg: TradeConfig, s: Position, price: real)
    requires !s.open
    requires Abs(price - cfg.minPrice) >= Margin && Abs(price - cfg.maxPrice) >= Margin
    ensures Step(cfg, s, price) == Outcome(s, None)
  {
  }

  // ---------------------------------------------------------------------
  // Positioned: the exit thresholds on the percentage change

  /** A long closes on take-profit when change >= TakeProfit, else on stop-loss when change <= -StopLoss, else stays. */
  lemma LongExit(cfg: TradeConfig, s: Position, price: real)
    requires s.open && s.isLong && s.entry != 0.0
    ensures var change := (price - s.entry) / s.entry * 100.0;
      Step(cfg, s, price) ==
        if change >= cfg.takeProfit then Outcome(s.(open := false), Some(Closed(TakeProfit, price)))
        else if change <= -cfg.stopLoss then Outcome(s.(open := false), Some(Closed(StopLoss, price)))
        else Outcome(s, None)
  {
  }

  /** A short closes on take-profit when change <= -TakeProfit, else on stop-loss when change >= StopLoss, else stays. */
  lemma ShortExit(cfg: TradeConfig, s: Position, price: real)
    requires s.open && !s.isLong && s.entry != 0.0
    ensures var change := (price - s.entry) / s.entry * 100.0;
      Step(cfg, s, price) ==
        if change <= -cfg.takeProfit then Outcome(s.(open := false), Some(Closed(TakeProfit, price)))
        else if change >= cfg.stopLoss then Outcome(s.(open := false), Some(Closed(StopLoss, price)))
        else Outcome(s, None)
  {
  }

  /**
   * With an entry price of 0 the change is +Inf, -Inf or NaN: a positive tick
   * closes a long on take-profit and a short on stop-loss, a negative tick the
   * other way round, and a zero tick (NaN) never closes.
   */
  lemma ZeroEntryExit(cfg: TradeConfig, s: Position, price: real)
    requires s.open && s.entry == 0.0
    ensures price > 0.0 ==>
      Step(cfg, s, price).event == Some(Closed(if s.isLong then TakeProfit else StopLoss, price))
    ensures price < 0.0 ==>
      Step(cfg, s, price).event == Some(Closed(if s.isLong then StopLoss else TakeProfit, price))
    ensures price == 0.0 ==> Step(cfg, s, price) == Outcome(s, None)
  {
  }

  // ---------------------------------------------------------------------
  // Positioned: the exit thresholds as prices (entry > 0)

  /** For entry > 0: change >= t exactly when price >= entry * (1 + t / 100). */
  lemma ChangeAtLeast(price: real, entry: real, t: real)
    requires entry > 0.0
    ensures AtLeast(Change(price, entry), t) <==> price >= entry * (1.0 + t / 100.0)
  {
  }

  /** For entry > 0: change <= t exactly when price <= entry * (1 + t / 100). */
  lemma ChangeAtMost(price: real, entry: real, t: real)
    requires entry > 0.0
    ensures AtMost(Change(price, entry), t) <==> price <= entry * (1.0 + t / 100.0)
  {
  }

  /**
   * A long entered at E > 0 closes on take-profit at any tick at or above
   * E * (1 + TakeProfit/100), otherwise on stop-loss at or below
   * E * (1 - StopLoss/100), and stays open strictly between the two.
   */
  lemma LongExitPrices(cfg: TradeConfig, s: Position, price: real)
    requires s.open && s.isLong && s.entry > 0.0
    ensures var up := s.entry * (1.0 + cfg.takeProfit / 100.0);
      var down := s.entry * (1.0 - cfg.stopLoss / 100.0);
      && (Step(cfg, s, price).event == Some(Closed(TakeProfit, price)) <==> price >= up)
      && (Step(cfg, s, price).event == Some(Closed(StopLoss, price)) <==> price < up && price <= down)
      && (Step(cfg, s, price) == Outcome(s, None) <==> down < price < up)
  {
  }

  /**
   * A short entered at E > 0 closes on take-profit at any tick at or below
   * E * (1 - TakeProfit/100), otherwise on stop-loss at or above
   * E * (1 + StopLoss/100), and stays open strictly between the two.
   */
  lemma ShortExitPrices(cfg: TradeConfig, s: Position, price: real)
    requires s.open && !s.isLong && s.entry > 0.0
    ensures var down := s.entry * (1.0 - cfg.takeProfit / 100.0);
      var up := s.entry * (1.0 + cfg.stopLoss / 100.0);
      && (Step(cfg, s, price).event == Some(Closed(TakeProfit, price)) <==> price <= down)
      && (Step(cfg, s, price).event == Some(Closed(StopLoss, price)) <==> price > down && price >= up)
      && (Step(cfg, s, price) == Outcome(s, None) <==> down < price < up)
  {
  }

  // ---------------------------------------------------------------------
  // Stale fields and re-entry

  /**
   * A flat engine's stale side and entry price are never read: two positions
   * with the same View make the same tick log the same line and end with
   * the same View.
   */
  lemma StepDependsOnViewOnly(cfg: TradeConfig, s: Position, t: Position, price: real)
    requires View(s) == View(t)
    ensures Step(cfg, s, price).event == Step(cfg, t, price).event
    ensures View(Step(cfg, s, price).next) == View(Step(cfg, t, price).next)
  {
  }

  /** Over any run of ticks only the View matters: the stale fields of a flat engine never change what is logged. */
  lemma {:induction false} RunDependsOnViewOnly(cfg: TradeConfig, s: Position, t: Position, prices: seq<real>)
    requires View(s) == View(t)
    ensures Run(cfg, s, prices).events == Run(cfg, t, prices).events
    ensures View(Run(cfg, s, prices).final) == View(Run(cfg, t, prices).final)
    decreases |prices|
  {
    if prices != [] {
      StepDependsOnViewOnly(cfg, s, t, prices[0]);
      RunDependsOnViewOnly(cfg, Step(cfg, s, prices[0]).next, Step(cfg, t, prices[0]).next, prices[1..]);
    }
  }

  /** In particular: after a close, the following ticks are evaluated exactly as from startup. */
  lemma AfterCloseLikeStartup(cfg: TradeConfig, s: Position, prices: seq<real>)
    requires !s.open
    ensures Run(cfg, s, prices).events == Run(cfg, Initial, prices).events
    ensures View(Run(cfg, s, prices).final) == View(Run(cfg, Initial, prices).final)
  {
    RunDependsOnViewOnly(cfg, s, Initial, prices);
  }

  // ---------------------------------------------------------------------
  // Invariants over runs

  /** A tick keeps the band-consistency of the open position. */
  lemma StepKeepsConsistent(cfg: TradeConfig, s: Position, price: real)
    requires Consistent(cfg, s)
    ensures Consistent(cfg, Step(cfg, s, price).next)
  {
  }

  /** Every position ever opened during a run was opened by the band test. */
  lemma {:induction false} RunKeepsConsistent(cfg: TradeConfig, s: Position, prices: seq<real>)
    requires Consistent(cfg, s)
    ensures Consistent(cfg, Run(cfg, s, prices).final)
    decreases |prices|
  {
    if prices != [] {
      StepKeepsConsistent(cfg, s, prices[0]);
      RunKeepsConsistent(cfg, Step(cfg, s, prices[0]).next, prices[1..]);
    }
  }

  /**
   * When both bands are at least Margin above zero, every position opened
   * by the band test has a positive entry price, so the percentage change
   * is a finite number.
   */
  lemma ConsistentEntryPositive(cfg: TradeConfig, s: Position)
    requires Consistent(cfg, s) && s.open
    requires cfg.minPrice >= Margin && cfg.maxPrice >= Margin
    ensures s.entry > 0.0
    ensures forall price :: Change(price, s.entry).Finite?
  {
  }

  /**
   * One position at a time: the lines a run logs alternate between Opened
   * and Closed, and the run ends open exactly when it started open and
   * logged an even number of lines, or started flat and logged an odd number.
   */
  lemma {:induction false} RunAlternates(cfg: TradeConfig, s: Position, prices: seq<real>)
    ensures Alternating(Run(cfg, s, prices).events, s.open)
    ensures Run(cfg, s, prices).final.open == (s.open != (|Run(cfg, s, prices).events| % 2 == 1))
    decreases |prices|
  {
    if prices != [] {
      var o := Step(cfg, s, prices[0]);
      var rest := Run(cfg, o.next, prices[1..]);
      RunAlternates(cfg, o.next, prices[1..]);
      if o.event.Some? {
        var all := [o.event.value] + rest.events;
        assert Run(cfg, s, prices).events == all && all[1..] == rest.events;
        assert o.next.open == !s.open && all[0].Opened? == !s.open;
      } else {
        assert o.next == s && Run(cfg, s, prices).events == rest.events;
      }
    }
  }

  // ---------------------------------------------------------------------
  // A worked scenario

  /**
   * Bands 100 and 110, take-profit 2%, stop-loss 1%: 100.05 opens a long,
   * 102.06 (+2.01%) takes profit, 109.95 opens a short, 111.05 (+1.0%) stops out.
   */
  lemma ExampleScenario()
    ensures var cfg := TradeConfig("btcusdt", 100.0, 110.0, 2.0, 1.0);
      var t := Run(cfg, Initial, [100.05, 102.06, 109.95, 111.05]);
      t.events == [Opened(Long, 100.05), Closed(TakeProfit, 102.06),
                   Opened(Short, 109.95), Closed(StopLoss, 111.05)]
      && !t.final.open
  {
  }
}
