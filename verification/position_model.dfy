/*
 * The position engine of the range bot as pure functions: the trade
 * configuration, the three package-level position variables, the entry-band
 * test, the percentage change from entry and one price tick as a transition
 * of the two-state machine Flat <-> Positioned(side).
 *
 * Prices and percentages are exact reals. The one place where float64
 * semantics changes the control flow without any rounding is the division by
 * a zero entry price, so the percentage change is a `Pct`, which also holds
 * the infinities and the NaN that such a division yields.
 */
module PositionModel {

  datatype Option<+T> = None | Some(value: T)

  /** The user's settings, read once at startup; percentages as typed (1.5 means 1.5%). */
  datatype TradeConfig = TradeConfig(
    symbol: string,
    minPrice: real,
    maxPrice: real,
    takeProfit: real,
    stopLoss: real)

  datatype Side = Long | Short

  /** The two reasons closePosition is called with: "Take Profit" and "Stop Loss". */
  datatype Reason = TakeProfit | StopLoss

  /** The log lines of openPosition and closePosition, as abstract events. */
  datatype Event = Opened(side: Side, price: real) | Closed(reason: Reason, price: real)

  /**
   * The package-level variables positionOpen, isLongPosition and entryPrice.
   * When `open` is false, `isLong` and `entry` keep whatever the last
   * position left in them.
   */
  datatype Position = Position(open: bool, isLong: bool, entry: real)

  /** Go's zero values: no position, not long, entry price 0. */
  const Initial: Position := Position(false, false, 0.0)

  /** The absolute tolerance around each entry band. */
  const Margin: real := 0.1

  /** The open position as a caller can see it: nothing while flat, else its side and entry. */
  function View(s: Position): Option<(Side, real)>
  {
    if s.open then Some((if s.isLong then Long else Short, s.entry)) else None
  }

  function Abs(x: real): (r: real)
    ensures 0.0 <= r && (r == x || r == -x)
  {
    if x < 0.0 then -x else x
  }

  /** Whether a tick touches an entry band: it lies strictly inside the open interval of width 2 * Margin. */
  function Near(price: real, band: real): (r: bool)
    ensures r <==> band - Margin < price < band + Margin
  {
    Abs(price - band) < Margin
  }

  /** The side a flat engine opens at this price; the MinPrice (long) band is tested first. */
  function EntrySignal(cfg: TradeConfig, price: real): (r: Option<Side>)
    ensures r == Some(Long) <==> cfg.minPrice - Margin < price < cfg.minPrice + Margin
    ensures r == Some(Short) <==>
      !(cfg.minPrice - Margin < price < cfg.minPrice + Margin) &&
      cfg.maxPrice - Margin < price < cfg.maxPrice + Margin
  {
    if Near(price, cfg.minPrice) then Some(Long)
    else if Near(price, cfg.maxPrice) then Some(Short)
    else None
  }

  /** A float64 percentage: a finite value, or what a division by zero produces. */
  datatype Pct = Finite(value: real) | PlusInf | MinusInf | NaN

  /** `p >= bound` for a finite bound, with float64 semantics (NaN compares false). */
  function AtLeast(p: Pct, bound: real): (r: bool)
    ensures p.Finite? ==> (r <==> p.value >= bound)
    ensures p == PlusInf ==> r
    ensures p == MinusInf || p == NaN ==> !r
  {
    match p
    case Finite(v) => v >= bound
    case PlusInf => true
    case MinusInf => false
    case NaN => false
  }

  /** `p <= bound` for a finite bound, with float64 semantics (NaN compares false). */
  function AtMost(p: Pct, bound: real): (r: bool)
    ensures p.Finite? ==> (r <==> p.value <= bound)
    ensures p == MinusInf ==> r
    ensures p == PlusInf || p == NaN ==> !r
  {
    match p
    case Finite(v) => v <= bound
    case PlusInf => false
    case MinusInf => true
    case NaN => false
  }

  /**
   * The percentage change of `price` from `entry`. With a non-zero entry it is
   * the real c with c * entry == (price - entry) * 100; with a zero entry it is
   * +Inf, -Inf or NaN by the sign of the numerator, as float64 division by
   * +0 gives (a -0 entry is not representable in the reals).
   */
  function Change(price: real, entry: real): (r: Pct)
    ensures entry != 0.0 ==> r.Finite? && r.value * entry == (price - entry) * 100.0
    ensures entry == 0.0 ==>
      (r == PlusInf <==> price > 0.0) &&
      (r == MinusInf <==> price < 0.0) &&
      (r == NaN <==> price == 0.0)
  {
    if entry != 0.0 then Finite((price - entry) / entry * 100.0)
    else if price > 0.0 then PlusInf
    else if price < 0.0 then MinusInf
    else NaN
  }

  /**
   * Whether an open position on side `isLong`, entered at `entry`, closes at
   * `price`, and why. Take-profit is tested before stop-loss; for a short the
   * favourable direction is a fall, so the signs of both thresholds flip.
   */
  function ExitSignal(cfg: TradeConfig, isLong: bool, entry: real, price: real): (r: Option<Reason>)
    ensures entry != 0.0 ==>
      var c := (price - entry) / entry * 100.0;
      r == if isLong then
             if c >= cfg.takeProfit then Some(TakeProfit)
             else if c <= -cfg.stopLoss then Some(StopLoss)
             else None
           else
             if c <= -cfg.takeProfit then Some(TakeProfit)
             else if c >= cfg.stopLoss then Some(StopLoss)
             else None
    ensures entry == 0.0 ==>
      r == if price > 0.0 then Some(if isLong then TakeProfit else StopLoss)
           else if price < 0.0 then Some(if isLong then StopLoss else TakeProfit)
           else None
  {
    var change := Change(price, entry);
    if isLong then
      if AtLeast(change, cfg.takeProfit) then Some(TakeProfit)
      else if AtMost(change, -cfg.stopLoss) then Some(StopLoss)
      else None
    else
      if AtMost(change, -cfg.takeProfit) then Some(TakeProfit)
      else if AtLeast(change, cfg.stopLoss) then Some(StopLoss)
      else None
  }

  /** What one tick does: the new position variables and the line it logs, if any. */
  datatype Outcome = Outcome(next: Position, event: Option<Event>)

  /**
   * One tick. While a position is open only the exit test runs and a close
   * clears nothing but the open flag; while flat only the band test runs.
   */
  function Step(cfg: TradeConfig, s: Position, price: real): (o: Outcome)
    ensures o.event == None <==> o.next == s
    ensures o.event.Some? <==> o.next.open != s.open
    ensures s.open ==> o.next.isLong == s.isLong && o.next.entry == s.entry
    ensures s.open ==> o.event == None || o.event.value.Closed?
    ensures !s.open ==> o.event == None || o.event.value.Opened?
    ensures o.event.Some? ==> o.event.value.price == price
  {
    if s.open then
      match ExitSignal(cfg, s.isLong, s.entry, price)
      case Some(reason) => Outcome(s.(open := false), Some(Closed(reason, price)))
      case None => Outcome(s, None)
    else
      match EntrySignal(cfg, price)
      case Some(side) => Outcome(Position(true, side == Long, price), Some(Opened(side, price)))
      case None => Outcome(s, None)
  }

  function EventsOf(e: Option<Event>): seq<Event>
  {
    match e
    case Some(x) => [x]
    case None => []
  }

  /** The final position and the logged lines after a finite run of ticks. */
  datatype Trace = Trace(final: Position, events: seq<Event>)

  /** Feeds the ticks to Step one after another, in arrival order. */
  function Run(cfg: TradeConfig, s: Position, prices: seq<real>): (t: Trace)
    ensures |t.events| <= |prices|
    ensures t.events == [] ==> t.final == s
    decreases |prices|
  {
    if prices == [] then Trace(s, [])
    else
      var o := Step(cfg, s, prices[0]);
      var rest := Run(cfg, o.next, prices[1..]);
      Trace(rest.final, EventsOf(o.event) + rest.events)
  }

  /**
   * The position was opened by the band test: a long entry touched the
   * MinPrice band, a short entry did not touch it but touched the MaxPrice band.
   */
  predicate Consistent(cfg: TradeConfig, s: Position)
  {
    s.open ==>
      if s.isLong then Near(s.entry, cfg.minPrice)
      else !Near(s.entry, cfg.minPrice) && Near(s.entry, cfg.maxPrice)
  }

  /** The logged lines alternate Opened, Closed, Opened, ..., starting with a Closed when `open`. */
  predicate Alternating(events: seq<Event>, open: bool)
    decreases |events|
  {
    events == [] || (events[0].Opened? == !open && Alternating(events[1..], !open))
  }
}
