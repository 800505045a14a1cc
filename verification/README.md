# FVG trading bot — Dafny model

This project models the two halves of the Fair-Value-Gap (FVG) trading bot:

- **The zone engine of `fvg_bot.py`.** A Fair Value Gap is a price range left
  untraded between the first and third bar of a three-bar pattern.
  - The engine scans the hourly bar history for gaps of at least 2.5 points.
  - On startup it keeps the zones no later close has filled.
  - On every new bar it detects, cleans and marks fills.
  - On every live price, while the strategy is enabled, it emits one retest
    signal per listed zone that is neither traded nor filled and whose nearer
    boundary is within 2.5 points. Firing sets the zone's `trade_taken` flag,
    so each list entry fires at most once. Each signal carries an entry, a
    stop and a target rounded to quarter-point ticks.
- **The signal consumer in `ninjascripts/fvgbot.cs`.** This is a NinjaTrader
  strategy that reads signal lines.
  - It splits each line on commas, identifies it by `field0_field1`,
    deduplicates it and gates it on a flat position.
  - It opens a long or short market entry from the direction field.
  - It places a stop-loss/profit-target bracket around the actual fill.
  - It reports the profit or loss of the exit.

Modules:

| module | file | contents |
|---|---|---|
| `Wrappers` | wrappers.dfy | `Option` |
| `Seqs` | seqs.dfy | order-preserving `Filter`, `Count`, `Map` and their laws |
| `Quarter` | quarter.dfy | Python's `round` (ties to even) and `round_to_quarter` |
| `Zones` | zones.dfy | bars, zones, three-bar detection, batch scan, historical fill test, startup filter |
| `Registry` | registry.dfy | eviction, per-bar fill marking, incremental detection, the new-bar step |
| `Retest` | retest.dfy | proximity trigger, entry/stop/target derivation, the one-shot `trade_taken` flag |
| `Engine` | engine.dfy | one iteration of the polling loop and a worked scenario |
| `Text` | text.dfy | C# `Split(',')`, `Trim()`, `ToUpper()` and the inverse `Join` |
| `Strategy` | strategy.dfy | the consumer's state machine: signal lines, brackets, P/L, position resets, setters |
| `Bridge` | bridge.dfy | the signal row the Python side writes, read by the C# side |

All state is immutable. Each event handler is a pure function from the old
state and the event's inputs to the new state plus an emitted intent. An order
entry, for example, is the value `EnterLong(quantity)`.

Prices are exact `real`s. Python's `round` is round-half-to-even, so
`round_to_quarter` is modelled as ties-to-even on `price * 4`.

Timestamps are abstract integers. File reads, the file-change test, the live
price and the wall clock enter as parameters.

## Model

| member | source | states |
|---|---|---|
| Quarter.RoundHalfEven | fvg_bot.py:39-41 | Python `round`: the result is within one half of the input, and an exact tie goes to the even integer |
| Quarter.RoundHalfEvenUnique | fvg_bot.py:39-41 | any integer within one half of `x` that takes ties to the even side is `RoundHalfEven(x)` |
| Quarter.RoundHalfEvenShift | fvg_bot.py:39-41 | adding an even integer to the input adds it to the rounded result |
| Quarter.RoundToQuarter | fvg_bot.py:39-41 | the result is a multiple of 0.25 within 0.125 of the price; at an exact .125 tie it is a multiple of 0.5 |
| Quarter.RoundToQuarterUnique | fvg_bot.py:39-41 | any quarter tick within 0.125 of the price that is a multiple of 0.5 at an exact .125 tie is `RoundToQuarter(price)`: those three properties determine the rounding |
| Quarter.RoundToQuarterMonotone | fvg_bot.py:39-41 | rounding to quarters preserves `<=` |
| Quarter.RoundToQuarterShift | fvg_bot.py:39-41 | shifting the price by k half-points shifts the rounded price by the same amount |
| Quarter.RoundToQuarterIdempotent | fvg_bot.py:39-41 | a rounded price rounds to itself |
| Quarter.RoundToQuarterKeepsSpread | fvg_bot.py:39-41 | two prices at least 2.5 apart stay at least 2.5 apart after rounding |
| Quarter.RoundToQuarterExamples | fvg_bot.py:39-41 | 100.1 → 100.0, 100.13 → 100.25, 0.125 → 0.0 and 0.375 → 0.5 (ties to even), -0.125 → 0.0 |
| Zones.Detect | fvg_bot.py:130-165 | bullish zone iff third low minus first high ≥ 2.5; bearish zone iff the bullish comparison fails and first low minus third high ≥ 2.5; the zone spans the gap, has `gapSize = top - bottom ≥ 2.5`, index i, the third bar's time, and is unfilled and untraded |
| Zones.DetectUsesOuterBarsOnly | fvg_bot.py:130-133 | the middle bar does not affect detection |
| Zones.GapDirectionsExclusive | fvg_bot.py:138-155 | for bars with low ≤ high, a gap up and a gap down cannot both be present |
| Zones.ScanUpTo | fvg_bot.py:126-167 | every scanned zone is the detection at its own index in [2, n); at most one zone per index; indices strictly increase |
| Zones.ScanComplete | fvg_bot.py:130-167 | every zone detected at an index below n is in the scan |
| Zones.ScanPrefixStable | fvg_bot.py:130-167 | appending bars does not change the scan of the earlier prefix |
| Zones.ScanAppendBar | fvg_bot.py:130-167 | one more bar extends the batch scan by exactly the zone detected at the new index, if any |
| Zones.FindFvgsInData | fvg_bot.py:126-167 | with the default start index 2: every listed zone is the detection at its own index in [2, n), every detection at such an index is listed, and indices strictly increase |
| Zones.FilledFrom | fvg_bot.py:171-179 | true iff some bar from j on closes at or below the bottom (bullish) or at or above the top (bearish) |
| Zones.IsFvgFilled | fvg_bot.py:169-179 | true iff some bar strictly after `start` closes through the zone's far boundary |
| Zones.LoadHistorical | fvg_bot.py:352-368 | fewer than three bars leave the list unchanged; otherwise exactly the scanned zones not filled after their own index are appended, in increasing index order |
| Zones.FilterKeepsIndexOrder | fvg_bot.py:365-368 | filtering an index-ordered list keeps it index-ordered |
| Registry.CleanOldFvgs | fvg_bot.py:376-389 | every result zone is an unfilled listed zone with `current - index < 100`, and every such listed zone is in the result; order and multiplicity are kept, as `CleanAppend` states |
| Registry.CleanKeepsMember | fvg_bot.py:384-386 | a listed zone that is unfilled and younger than 100 bars survives cleaning |
| Registry.CleanAppend | fvg_bot.py:376-389 | cleaning distributes over concatenation |
| Registry.CleanIdempotent | fvg_bot.py:376-389 | cleaning twice at the same index is cleaning once |
| Registry.CleanAgeBoundary | fvg_bot.py:384-386 | an unfilled zone 99 bars old is kept; at 100 bars it is evicted |
| Registry.CheckFillStatus | fvg_bot.py:337-350 | the list length and every field but `filled` are unchanged; `filled` becomes true iff it was true or the current close crosses the far boundary; it never turns false |
| Registry.CheckFillStatusIdempotent | fvg_bot.py:337-350 | marking twice by the same bar is marking once |
| Registry.NewZoneNotFilledByItsBar | fvg_bot.py:138-165 | with low ≤ close ≤ high, the bar that creates a zone never fills it |
| Registry.FindNewFvgs | fvg_bot.py:210-254 | below index 2 nothing changes (not even cleaning); otherwise the result holds only old or newly detected zones that survive cleaning, keeps every surviving old zone, ends with the new zone and grows by at most one |
| Registry.NewFvgsMatchBatchScan | fvg_bot.py:210-254 | on a new bar, the incremental step adds exactly the zones the batch scan gains from that bar, then cleans |
| Registry.FirstStepAppendsLastZone | fvg_bot.py:210-254 | with a zone at the last index, the step is the cleaned list plus that zone |
| Registry.ProcessHistoricalBars | fvg_bot.py:181-204 | under three bars, or with an already-seen latest time, nothing changes; otherwise the bar time is recorded, the list grows by at most one, every zone is younger than 100 bars, a zone is filled iff the latest close crosses it, every old zone that survives cleaning stays listed (marked by the latest close), the zone detected at the latest bar, if any, is appended last (marked), and every listed zone, with its fill mark cleared, is an old zone or the zone detected at the latest bar, so nothing else is listed |
| Registry.StepZonesFromSurvivors | fvg_bot.py:197-202 | after detection, cleaning and marking, every zone is `MarkFilled` of a zone that was listed or newly detected and passed the keep-test |
| Registry.StepZonesInOrder | fvg_bot.py:181-204 | the step's zones are, in order, the zones `find_new_fvgs` leaves, each marked by the latest close; with `NewFvgsMatchBatchScan` this fixes the list exactly |
| Registry.NewFvgsKeepWellFormed | fvg_bot.py:210-254 | detection and cleaning keep a well-formed list well formed |
| Registry.FillMarkingKeepsWellFormed | fvg_bot.py:337-350 | fill marking keeps a well-formed list well formed |
| Registry.Startup | fvg_bot.py:28-29 | construction with an empty list and no bar time, then `load_historical_fvgs` (line 484): no bar time is recorded, the zones are exactly the scanned zones no later close fills, in increasing index order |
| Registry.StartupWellFormed | fvg_bot.py:352-368 | every zone loaded at startup is well formed |
| Registry.StepPreservesWellFormed | fvg_bot.py:181-204 | the new-bar step keeps every zone well formed |
| Registry.FilledZoneSurvivesItsBar | fvg_bot.py:199-202 | a zone filled by the current bar is still listed (marked filled) after the step, because cleaning runs before marking |
| Registry.FilledZoneEvictedNextBar | fvg_bot.py:254 | a filled zone is removed by the next step's clean |
| Registry.LastZoneLoaded | fvg_bot.py:352-368 | startup loads the zone of the last bar, and it survives cleaning at that index |
| Registry.StepRedetectsLastZone | fvg_bot.py:181-204 | when the last bar's zone is already listed and no bar time is recorded, the step lists it twice |
| Registry.StartupThenFirstStepDuplicatesLastZone | fvg_bot.py:181-204 | startup does not record a bar time, so the first step after it re-detects the last bar's zone and lists it twice |
| Retest.EvaluateLongEntry | fvg_bot.py:277-305 | LONG on the zone's kind and gap; entry, stop and target are each a correct quarter rounding (`RoundsTo`: the nearest tick, exact eighths to a multiple of 0.5) of bottom, bottom − gap and top; on a well-formed zone stop + 2.5 ≤ entry and entry + 2.5 ≤ target |
| Retest.LongEntryDetermined | fvg_bot.py:277-305 | a LONG signal with the zone's kind and gap whose three levels are correct quarter roundings of bottom, bottom − gap and top is exactly `EvaluateLongEntry`'s signal |
| Retest.EvaluateShortEntry | fvg_bot.py:307-335 | SHORT on the zone's kind and gap; entry, stop and target are each a correct quarter rounding of top, top + gap and bottom; on a well-formed zone target + 2.5 ≤ entry and entry + 2.5 ≤ stop |
| Retest.ShortEntryDetermined | fvg_bot.py:307-335 | a SHORT signal with the zone's kind and gap whose three levels are correct quarter roundings of top, top + gap and bottom is exactly `EvaluateShortEntry`'s signal |
| Retest.EntryFor | fvg_bot.py:272-275 | bearish zones go long and bullish zones go short, with the zone's kind and gap; a bullish zone's entry, stop and target are correct quarter roundings of top, top + gap and bottom, a bearish zone's of bottom, bottom − gap and top |
| Retest.EntryForDispatch | fvg_bot.py:272-275 | from that contract alone, a bullish zone's signal is `EvaluateShortEntry`'s and a bearish zone's is `EvaluateLongEntry`'s |
| Retest.EntryForOrdered | fvg_bot.py:277-335 | the levels of every signal from a well-formed zone are ordered for its direction |
| Retest.RetestPass | fvg_bot.py:261-275 | each zone's `trade_taken` becomes true iff it fired, nothing else changes, and the signals are those of the firing zones in list order |
| Retest.CheckFvgRetestSignals | fvg_bot.py:258-259 | when disabled, no zone changes and no signal is emitted |
| Retest.RetestSignalsOrdered | fvg_bot.py:256-335 | a list of well-formed zones emits only signals with ordered levels |
| Retest.FiredZoneNeverFiresAgain | fvg_bot.py:262-263 | a zone that fired is skipped by every later pass, at any price |
| Retest.RetestPassConsumesEligible | fvg_bot.py:261-275 | eligible zones after a pass plus signals emitted equals eligible zones before |
| Retest.RetestRunAtMostOnePerZone | fvg_bot.py:256-335 | over any sequence of prices, the signals emitted never exceed the number of zones that were eligible at the start |
| Retest.ProximityNotMembership | fvg_bot.py:265-271 | the middle of a 10-point zone does not fire; a price 2.5 below the bottom does, and one 2.6 below does not |
| Engine.LoopIteration | fvg_bot.py:493-503 | the new-bar step runs iff the file changed, and the bar time it records is kept. No live price means no signals and no further change. When disabled, the zone list is the step's result. With a price and the strategy enabled, the signals are those of the firing zones in list order, and each zone's `trade_taken` becomes true iff it fired |
| Engine.FilledThisBarDoesNotFire | fvg_bot.py:495-503 | a zone filled by this bar is left untouched by the same iteration's retest pass |
| Engine.FirstStepOnLastZoneAlone | fvg_bot.py:181-204 | a step over a list holding only the last bar's zone yields that zone twice |
| Engine.DuplicateZoneFiresTwice | fvg_bot.py:261-275 | two copies of a firing zone emit its signal twice |
| Engine.ScenarioStartup | fvg_bot.py:352-368 | bars (10/9), (11/10.5), (16/15) load the bullish zone 10–15 |
| Engine.ScenarioSignal | fvg_bot.py:307-335 | that zone's signal is SHORT at 15, stop 20, target 10 |
| Engine.ScenarioFirstStep | fvg_bot.py:181-204 | the first step after startup lists that zone twice |
| Engine.ScenarioFirstIteration | fvg_bot.py:482-503 | the first iteration after startup at price 12 emits the short signal twice |
| Text.Split | ninjascripts/fvgbot.cs:196 | at least one field; no field holds the separator; joining the fields with the separator gives back the line |
| Text.SplitJoin | ninjascripts/fvgbot.cs:196 | splitting the join of separator-free fields gives back the fields |
| Text.Trim | ninjascripts/fvgbot.cs:217 | the result has no white space at either end |
| Text.TrimSlice | ninjascripts/fvgbot.cs:217 | the trimmed string is a contiguous slice of the input, with only white space cut on either side |
| Text.TrimUntouched | ninjascripts/fvgbot.cs:217 | a string with no white space at either end is its own trim |
| Text.ToUpper | ninjascripts/fvgbot.cs:225-231 | same length; each character upper-cased |
| Text.ToUpperNoLower | ninjascripts/fvgbot.cs:225-231 | a string with no lower-case letter is its own upper case |
| Strategy.Initial | ninjascripts/fvgbot.cs:37-66 | no id processed, empty current id and direction, entry price 0, not in position, first exit not taken; 12 contracts, 5-point target, 10-point stop, a valid configuration |
| Strategy.SignalId | ninjascripts/fvgbot.cs:205 | the id is field 0, `_`, field 1 |
| Strategy.ProcessSignalLine | ninjascripts/fvgbot.cs:191-241 | under three fields, a seen id, or a non-flat position, nothing changes. Otherwise: the id is recorded, the trimmed direction and id become current, the first-exit flag is cleared, and a LONG (resp. SHORT) entry of `contractQuantity` is emitted iff the upper-cased direction is LONG (resp. SHORT). `inPosition` is set iff an entry was emitted, and no other order is ever emitted. The configuration is unchanged |
| Strategy.SameLineEntersOnce | ninjascripts/fvgbot.cs:205-235 | a line that opened an entry opens none when read again |
| Strategy.RefusedWhileInPositionAcceptedLater | ninjascripts/fvgbot.cs:212-213 | a line refused while not flat leaves no trace and is accepted once flat |
| Strategy.UnknownDirectionConsumesId | ninjascripts/fvgbot.cs:225-235 | a direction that is neither LONG nor SHORT opens nothing, yet the id is used up |
| Strategy.SignalIdCanCollide | ninjascripts/fvgbot.cs:205 | the ids of `a_b,c` and `a,b_c` coincide |
| Strategy.ProcessSignalLineExample | ninjascripts/fvgbot.cs:191-241 | `t1, long ,5000.25` opens a 12-contract long from the initial state |
| Strategy.ShortLineExample | ninjascripts/fvgbot.cs:198-202 | `t1,LONG` has too few fields and changes nothing |
| Strategy.BracketFor | ninjascripts/fvgbot.cs:291-318 | long: target = fill + PT points, stop = fill − SL points; short: mirrored; flat: no bracket; the quantity is `contractQuantity` |
| Strategy.BracketAroundFill | ninjascripts/fvgbot.cs:291-318 | with both point settings ≥ 1, long has stop < fill < target and short has target < fill < stop |
| Strategy.PnL | ninjascripts/fvgbot.cs:327-342 | for LONG, positive iff the exit is above the entry on a positive quantity (or below on a negative one); for any other direction, the reverse; zero on zero quantity or an unchanged price |
| Strategy.PnLLinear | ninjascripts/fvgbot.cs:327-342 | moving the exit from y to x changes the result by (x − y)·quantity for LONG and (y − x)·quantity otherwise; with the zero at exit = entry this fixes every value |
| Strategy.PnLMirror | ninjascripts/fvgbot.cs:327-342 | LONG and SHORT results are negatives of each other |
| Strategy.OnExecutionUpdate | ninjascripts/fvgbot.cs:280-347 | an unfilled report does nothing. A filled entry records the fill price and, when not flat, places the bracket around it. A filled PT or SL exit reports the P/L and changes no state. Any other order does nothing. The processed ids never change |
| Strategy.ExitPnLIndependentOfName | ninjascripts/fvgbot.cs:323-342 | PT and SL exits at the same price report the same P/L |
| Strategy.ManagePosition | ninjascripts/fvgbot.cs:257-264 | flat while in position clears `inPosition` and the current id; otherwise nothing changes |
| Strategy.OnPositionUpdate | ninjascripts/fvgbot.cs:355-361 | a flat position clears `inPosition` and nothing else |
| Strategy.EntryThenFlatResets | ninjascripts/fvgbot.cs:191-264 | after an entry, the next flat `ManagePosition` clears the position mark and the id, and the id stays processed |
| Strategy.SetContractQuantity | ninjascripts/fvgbot.cs:393-397 | at least 1; the value itself when ≥ 1 and exactly 1 below that; no other field changes |
| Strategy.SetProfitTargetPoints | ninjascripts/fvgbot.cs:402-406 | at least 1.0; the value itself when ≥ 1.0 and exactly 1.0 below that; no other field changes |
| Strategy.SetStopLossPoints | ninjascripts/fvgbot.cs:411-415 | at least 1.0; the value itself when ≥ 1.0 and exactly 1.0 below that; no other field changes |
| Strategy.SettersEstablishValidConfig | ninjascripts/fvgbot.cs:64-66 | the defaults (12 contracts, 5 and 10 points) are valid, and so is any configuration reached through the three setters |
| Strategy.HandlersPreserveConfig | ninjascripts/fvgbot.cs:191-361 | no handler breaks a valid configuration, and the processed-id set only grows |
| Bridge.SignalRow | fvg_bot.py:50-64 | eight fields (the header's count), with the timestamp first, `FVG_RETEST` second and the direction third |
| Bridge.CsvLine | fvg_bot.py:53-64 | a row of fields without comma, quote or line break is written verbatim and splits back into the same fields |
| Bridge.SignalTypeLineOpensNoPosition | ninjascripts/fvgbot.cs:205-235 | a line with `FVG_RETEST` in field 1 never opens an entry, and when accepted it uses up its id |
| Bridge.PythonRowOpensNoPosition | fvg_bot.py:48-64 | no row the Python side writes ever opens a position on the C# side; the id `stamp_FVG_RETEST` is consumed |
| Bridge.ConsumerRowSplits | ninjascripts/fvgbot.cs:195-196 | a three-column row with a plain timestamp and entry price splits back into its fields |
| Bridge.DirectionLineRead | ninjascripts/fvgbot.cs:217-231 | a line with `LONG` or `SHORT` in field 1 is read as that direction, and as no other |
| Bridge.ConsumerRowOpensPosition | ninjascripts/fvgbot.cs:195-235 | the three-column layout the consumer documents opens an entry in the signal's direction, from a flat position with a new id |

## Left out

- I/O in `fvg_bot.py`. `initialize_signals_file` and the file append of
  `generate_signal` are not modelled. Neither are `read_historical_data`
  (pandas parsing and sorting by time) and `read_current_price`. Bars and the
  live price are inputs.
- `check_historical_updated` (the mtime test): its answer is the `updated`
  input of `Engine.LoopIteration`.
- `display_status`, `clear_screen`, logging, the `time.sleep` pacing, and the
  `KeyboardInterrupt` and exception handling of `run`.
- Wall-clock time and number formatting. `datetime.now().strftime(...)` is
  the `stamp` parameter of `Bridge.SignalRow`; `f"{x:.2f}"` is its `fmt`
  parameter. The model does not say what text they produce.
- `csv.writer` quoting: `Bridge.CsvLine` covers only rows whose fields contain
  no comma, quote or line break. Those are written verbatim.
- IEEE floating point. Prices are exact reals, so binary rounding error is not
  modelled. Only Python's ties-to-even rule is kept.
- The C# file handling. `CheckForNewSignals`, `ClearSignalsFile`, the
  file-time gating and the trades log are not modelled. Neither is the
  `DateTime.TryParse`/`double.TryParse` of the timestamp and entry price. The
  parsed `signalDateTime` is assigned and never read. `signalEntryPrice` is
  only printed by the entry messages. The model keeps neither.
- NinjaTrader platform effects. `EnterLong`, `ExitLongStopMarket` and the
  like become the emitted values `EntryOrder`, `Bracket` and `ExecutionEvent`.
  The market position is an input. `entryTime`, `OnStateChange`,
  `OnOrderUpdate` (which only prints) and `Print` are not modelled.
- `Text.Trim` and `Text.ToUpper` treat ASCII only. C# also trims Unicode white
  space and upper-cases non-ASCII letters under culture rules.
- `Strategy.SetContractQuantity` uses unbounded integers. C# `int` is 32-bit,
  and the NinjaTrader `Range` attribute's UI bounds (1–100, 1.0–50.0) are not
  enforced by the setters, so they are not modelled either.
- `Zones.IsFvgFilled` takes a `nat` start index. The code only ever passes a
  zone's own index, which is at least 2.
- `ninjascripts/HistoricalData.cs` and `ninjascripts/livefeed.cs` are not part
  of this model. They only write CSV files from platform callbacks.
- Overlap de-duplication, intrabar (live-tick) fill marking, minimum-profit
  rejection, a cooldown and multi-leg exits: `fvg_bot.py` and `fvgbot.cs`
  contain none of these, so the model has none of them either. In particular, retest is proximity to either boundary,
  not membership in the zone; the entry is the zone boundary, not the live
  price; and there is a single target.
