# Range bot position engine, modelled in Dafny

The range bot watches one symbol's trade prices and runs a two-state
machine on every tick. While **flat** it opens a long when the price is
within 0.10 of `MinPrice`; failing that, it opens a short when the price is
within 0.10 of `MaxPrice`. While **positioned** it computes the percentage
change from the entry price and closes on take-profit or stop-loss. For a
short the signs are flipped. This project models that engine
(`handlePrice`, `openPosition`, `closePosition`, the package-level position
variables and `TradeConfig` in `main.go`) and proves its transition rules.

- `position_model.dfy` (module `PositionModel`): the data model (`TradeConfig`,
  `Position` for the three position variables, `Event` for the two log
  lines) and the pure transition `Step` for one tick, plus `Run` for a finite
  sequence of ticks.
- `engine.dfy` (module `PositionEngine`): class `Engine`. Its fields are the
  program's package-level variables, and `config` is a `const`. Its methods
  `HandlePrice`, `OpenPosition` and `ClosePosition` update the fields in place.
  `HandlePrice` is proved equal to `Step` on the old fields; `OpenPosition`
  and `ClosePosition` state the fields they set, and `ClosePosition` may
  modify only `positionOpen`. The constructor starts in `Initial`.
- `position_proofs.dfy` (module `PositionProofs`): lemmas about `Step` and `Run`.

Prices and percentages are Dafny `real`s. The code divides by the entry
price without checking it. So the model does not forbid a zero entry
price. Instead, the percentage change is a `Pct`: a finite real, or the
+Inf, -Inf or NaN that float64 division by zero produces. The comparisons
`AtLeast` and `AtMost` follow float64 rules, so NaN compares false. As a
result, `HandlePrice` has no precondition, and `ZeroEntryExit` states what
the program does in that case. `ConsistentEntryPositive` shows that a zero
entry cannot arise when both bands are at least 0.10 above zero.

Two facts about the program shape the model:
- After a close, `isLongPosition` and `entryPrice` keep their stale values
  (main.go:141-144). `ClosePosition` may modify only `positionOpen`, and
  `RunDependsOnViewOnly` proves the stale values are never read.
- `handlePrice` receives whatever the parse produced, including 0 from an
  ignored parse error (main.go:98). So the model accepts every real price.

## Model

| member | source | states |
|---|---|---|
| PositionModel.Abs | main.go:123 | the result is non-negative and equals `x` or `-x` (`math.Abs`) |
| PositionModel.Near | main.go:122-123 | a price touches a band exactly when it lies strictly between band - 0.1 and band + 0.1 |
| PositionModel.EntrySignal | main.go:122-127 | a flat tick signals a long exactly when it is inside the MinPrice interval; it signals a short exactly when it is outside that interval and inside the MaxPrice interval |
| PositionModel.Change | main.go:104 | for a non-zero entry, the change `c` satisfies `c * entry == (price - entry) * 100`; for a zero entry, the change is +Inf, -Inf or NaN as the price is positive, negative or zero |
| PositionModel.AtLeast | main.go:107 | float64 `p >= bound` for a finite bound: the real comparison on a finite value, true for +Inf, false for -Inf and NaN |
| PositionModel.AtMost | main.go:109 | float64 `p <= bound` for a finite bound: the real comparison on a finite value, true for -Inf, false for +Inf and NaN |
| PositionModel.ExitSignal | main.go:104-118 | for a non-zero entry, the result is the take-profit, then stop-loss, then stay chain on `c = (price - entry) / entry * 100`, with the signs flipped for a short; for a zero entry, a positive tick takes profit on a long and stops out a short, a negative tick does the reverse, and a zero tick keeps the position |
| PositionModel.Step | main.go:102-144 | a tick logs nothing exactly when it leaves the state unchanged, and logs a line exactly when it flips the open flag; an open position's side and entry are never overwritten; an open position only ever closes, and a flat one only ever opens; the logged price is the tick's price |
| PositionModel.Run | main.go:102-128 | a run logs at most one line per tick, and a run that logs nothing ends in its starting state |
| PositionEngine.Engine.constructor | main.go:25-30 | the engine starts with the given config and the zero values: flat, not long, entry 0 |
| PositionEngine.Engine.HandlePrice | main.go:102-128 | the new fields and the returned log line are those of `Step` on the old fields; while open, side and entry are unchanged; band consistency is preserved; `config` is a const and cannot change |
| PositionEngine.Engine.OpenPosition | main.go:130-139 | sets open, the side and the entry price to the tick's price, and logs `Opened(side, price)` |
| PositionEngine.Engine.ClosePosition | main.go:141-144 | only `positionOpen` may change and it becomes false; logs `Closed(reason, price)` |
| PositionProofs.FlatNearMinOpensLong | main.go:122-124 | when flat and `|price - MinPrice| < 0.1`, a long is opened with entry = price |
| PositionProofs.FlatNearMaxOpensShort | main.go:125-126 | when flat, outside the MinPrice band and inside the MaxPrice band, a short is opened with entry = price |
| PositionProofs.LongBandWinsTies | main.go:123-126 | a tick inside both bands opens a long, not a short; this is possible only when the bands are less than 0.2 apart |
| PositionProofs.FlatOutsideBandsNoChange | main.go:122-127 | when flat and 0.1 or more away from both bands, nothing changes and nothing is logged |
| PositionProofs.LongExit | main.go:104-111 | a long closes with TakeProfit if change >= TakeProfit; otherwise with StopLoss if change <= -StopLoss; otherwise it stays open unchanged |
| PositionProofs.ShortExit | main.go:112-118 | a short closes with TakeProfit if change <= -TakeProfit; otherwise with StopLoss if change >= StopLoss; otherwise it stays open unchanged |
| PositionProofs.ZeroEntryExit | main.go:104-118 | with entry 0, a positive tick closes a long on take-profit and a short on stop-loss; a negative tick does the reverse; a zero tick (NaN) never closes |
| PositionProofs.ChangeAtLeast | main.go:104 | for entry > 0, change >= t exactly when price >= entry * (1 + t/100) |
| PositionProofs.ChangeAtMost | main.go:104 | for entry > 0, change <= t exactly when price <= entry * (1 + t/100) |
| PositionProofs.LongExitPrices | main.go:104-111 | for a long at entry E > 0: take-profit exactly at or above E(1+TP/100); otherwise stop-loss at or below E(1-SL/100); otherwise open exactly strictly between the two |
| PositionProofs.ShortExitPrices | main.go:112-118 | for a short at entry E > 0: take-profit exactly at or below E(1-TP/100); otherwise stop-loss at or above E(1+SL/100); otherwise open exactly strictly between the two |
| PositionProofs.StepDependsOnViewOnly | main.go:103-144 | the stale side and entry of a flat engine do not affect what a tick logs or the resulting open position |
| PositionProofs.RunDependsOnViewOnly | main.go:103-144 | the same holds for any sequence of ticks |
| PositionProofs.AfterCloseLikeStartup | main.go:141-144 | after a close, every later sequence of ticks logs the same lines as from the initial state |
| PositionProofs.StepKeepsConsistent | main.go:122-133 | a tick preserves "every open long was entered inside the MinPrice band; every open short was entered outside it and inside the MaxPrice band" |
| PositionProofs.RunKeepsConsistent | main.go:122-133 | the same holds over any sequence of ticks |
| PositionProofs.ConsistentEntryPositive | main.go:104 | when both bands are at least 0.1 above zero, an open position's entry is positive, so the change is finite for every tick |
| PositionProofs.RunAlternates | main.go:103-144 | one position at a time: the logged lines alternate Opened/Closed (starting with Closed when already open), and the run ends open according to the parity of the number of lines |
| PositionProofs.ExampleScenario | main.go:102-144 | bands 100/110, TP 2%, SL 1%: ticks 100.05, 102.06, 109.95, 111.05 open a long, take profit, open a short, stop out |

## Left out

- `promptConfig` and `scanFloat` (stdin reading, number parsing, fatal exit): the configuration is a parameter of the `Engine` constructor.
- `startWebSocket` (websocket dial, blocking reads, the 3-second sleep, the infinite loop): transport and timing only. `Run` stands for a finite prefix of the ticks it delivers.
- `handleTradeMessage` (JSON decoding, the unchecked type assertion on field `p`, the ignored parse error that turns a bad string into price 0, or ±Inf for an out-of-range number): the model takes the decoded price as the input of `HandlePrice`.
- Float64 rounding in the subtraction, division and multiplication, and the fact that the literal 0.1 is not exactly one tenth in binary. Prices are exact reals; only the division by a zero entry keeps float64 behaviour. NaN or infinite prices and configuration values are not modelled.
- Signed zero: a tick of -0 can open a position with entry -0.0, and dividing by it gives the opposite infinity, so a long would close on stop-loss rather than take-profit. The reals have a single zero, so the model treats every zero entry as +0.
- Log output: the `%.2f` formatting, the "LONG"/"SHORT" labels and the reason strings are abstracted to the `Event` values `Opened(side, price)` and `Closed(reason, price)`, which `HandlePrice` returns.
- Concurrency: none; the program evaluates ticks strictly one after another.
