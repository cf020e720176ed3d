# Slot machine engine — Dafny model

This project models the game engine of a browser slot machine: five reels of
three rows, nine symbols drawn with weights, nine paylines, and six bet levels.
It covers two parts of that engine:

- the static configuration (`src/config.js`): the symbol catalog with weights
  and payout tables, the total weight, the bet levels and the payline table;
- the engine logic of the `SlotMachine` class (`src/SlotMachine.js`) with
  every rendering call stripped: the weighted symbol draw, grid generation,
  payline evaluation, bet selection and the spin round.

The project has three modules:

- `Config` (`config.dfy`): the configuration as constants, with lemmas
  that prove the facts the engine relies on. Weights are positive and add up
  to 100. Ids equal their positions. Payout keys are 2..5 and payouts rise
  with the run length. Paylines have one in-range row per reel. Bet levels
  ascend.
- `Engine` (`engine.dfy`): reference definitions as pure functions.
  - `Draw` is the weighted draw for a value `r` that stands for
    `Math.random() * TOTAL_WEIGHT`.
  - `Grid` is the grid built from a stream of such values.
  - `MatchCount` is the leftmost run on a payline.
  - `EvaluateLine` and `WinningLines` are the recorded winning lines, and
    `TotalWin` is their sum.

  Lemmas state what these definitions mean. A draw returns the least symbol
  whose cumulative weight reaches `r`. The run is the leftmost one. A line
  is recorded exactly when its payout is positive. Records come in strictly
  increasing payline order, and a round never pays a negative amount.
- `Game` (`game.dfy`): the class `SlotMachine` with the fields the source
  updates (`balance`, `bet`, `currentBetIndex`, `isSpinning`, `lastWin`,
  `currentSymbols`, `winningLines`).
  - Its methods run the source's loops step by step and are proved against
    the `Engine` functions.
  - The asynchronous `spin` is split at its single suspension point (the
    wait for the reel animation). `StartSpin` covers the guards, the bet
    deduction and the draw. `Settle` covers evaluation, the credit and the
    end of the spin. `Spin` runs both in sequence.
  - Four scenario methods drive a fresh machine through concrete rounds.

Money is modelled as exact `real` values. The bet is a natural number, and a
line pays `payout * (bet / 10)`.

## Model

| member | source | states |
|---|---|---|
| Config.WeightPrefix | src/config.js:43 | The sum of the weights of the first `n` symbols, accumulated left to right as the `reduce` does; no weight among them exceeds it. |
| Config.SumWeights | src/config.js:43 | The sum of all weights of a catalog, which `TOTAL_WEIGHT` is for the symbol catalog; no single weight exceeds it. |
| Config.CumulativeWeights | src/config.js:27-39 | The running sums of the catalog weights, symbol by symbol, are 0, 2, 5, 11, 19, 29, 44, 62, 80, 100. |
| Config.TotalWeightIs100 | src/config.js:43 | `TOTAL_WEIGHT`, the sum of all symbol weights, is 100. |
| Config.CatalogWellFormed | src/config.js:25-40 | Every symbol sits at the index equal to its id and has a positive weight. Every payout key is a match count in 2..5 with a positive value, and a longer run pays strictly more. |
| Config.PayingCounts | src/config.js:27-39 | Any match count a symbol lists as paying lies in 2..REEL_COUNT and pays a positive multiplier. |
| Config.TwoOfAKindPayers | src/config.js:27-39 | A symbol pays on a run of two if and only if its id is 0, 1 or 3 (seven, diamond, cherry). |
| Config.PaylineTableWellFormed | src/config.js:46-56 | There are nine paylines; each has one row per reel (5) and every row is in 0..2. |
| Config.BetConfigWellFormed | src/config.js:14-16 | The bet levels are non-empty and strictly ascending, the default index is valid, and the initial balance covers the default bet. |
| Engine.DrawFrom | src/SlotMachine.js:279-286 | The walk started at index `i` ends at an index in `i..SYMBOLS.length-1`. |
| Engine.Draw | src/SlotMachine.js:276-287 | The draw always yields a valid symbol id. |
| Engine.DrawFromFirstCovering | src/SlotMachine.js:279-286 | Every cumulative weight the walk passes is below `r`. When `r` is below the total weight, the index where it stops has a cumulative weight of at least `r`. |
| Engine.DrawIsFirstCovering | src/SlotMachine.js:276-287 | For `0 <= r < TOTAL_WEIGHT` the draw is the least index whose cumulative weight is at least `r`, so the fallback to the last symbol is never taken. |
| Engine.DrawPreimage | src/SlotMachine.js:276-287 | The draw returns symbol `i` exactly when `r` lies in `(prefix(i), prefix(i) + weight(i)]`, closed at 0 for the first symbol. Each symbol owns a stretch of `[0, TOTAL_WEIGHT)` as long as its weight. |
| Engine.PrefixStrictlyIncreasing | src/config.js:27-39 | With positive weights, cumulative weights strictly increase. |
| Engine.Grid | src/SlotMachine.js:263-273 | The grid drawn from a stream has REEL_COUNT reels of ROW_COUNT valid symbol ids. |
| Engine.ReelDraws | src/SlotMachine.js:266-270 | A reel has ROW_COUNT entries, each a valid symbol id. |
| Engine.DrawPosition | src/SlotMachine.js:265-268 | The cell in reel `reel`, row `row` consumes a draw inside the stream of REEL_COUNT × ROW_COUNT draws. |
| Engine.LineSymbols | src/SlotMachine.js:314 | A payline reads one valid symbol id per reel. |
| Engine.RunFrom | src/SlotMachine.js:320-326 | Counting from index `i` ends between `i` and the line length. |
| Engine.MatchCount | src/SlotMachine.js:317-326 | The match count is between 1 and the line length. |
| Engine.RunFromIsRun | src/SlotMachine.js:320-326 | The count reached from a run of equal symbols covers only symbols equal to the first, and stops at a differing symbol or at the end. |
| Engine.MatchCountIsLeftmostRun | src/SlotMachine.js:316-326 | `n` is the match count if and only if the first `n` symbols equal the first symbol and the symbol after them, if any, differs. A run that resumes after a break is not counted. |
| Engine.PayoutFor | src/SlotMachine.js:331 | The payout multiplier for a match count: a count the symbol's table does not list pays 0, and a positive payout is the listed one. |
| Engine.LinePayout | src/SlotMachine.js:330-331 | The multiplier payline `k` earns, from its first symbol's table at its leftmost-run length; only a run of two or more pays. |
| Engine.LineWin | src/SlotMachine.js:334 | The line win `payout * (bet / 10)` is never negative, and it is positive if and only if both the payout and the bet are. |
| Engine.EvaluateLine | src/SlotMachine.js:313-337 | The record of payline `k` is present if and only if its payout is positive, and then it carries index `k` and a valid symbol id. |
| Engine.EvaluateLineRecordsPayingRun | src/SlotMachine.js:328-337 | A payline is recorded if and only if its payout (missing means 0) is positive. The record carries the payline's index, a match count in 2..5, a valid symbol id and the win `payout * (bet / 10)`, which is positive whenever the bet is. |
| Engine.LineRecords | src/SlotMachine.js:312-338 | There is exactly one evaluation per payline; by definition, position `k` holds the evaluation of payline `k`. |
| Engine.TotalWinAppend | src/SlotMachine.js:335 | Adding a recorded line to the list adds its win to the total, so the running sum equals the total of the recorded lines. |
| Engine.Collect | src/SlotMachine.js:333-337 | The present records among the first `n` evaluations, in order (the pushes of the loop); at most one line per payline scanned. |
| Engine.WinningLines | src/SlotMachine.js:308-340 | The winning lines of a round at a given bet, collected over all paylines; at most one per payline. |
| Engine.TotalWin | src/SlotMachine.js:309-335 | The sum of the wins of a list of lines (the running `totalWin`); it is never negative when no line win is. |
| Engine.CollectSound | src/SlotMachine.js:333-337 | Every collected line is the record at its own payline index, below the number of paylines scanned. |
| Engine.CollectOrdered | src/SlotMachine.js:312-338 | Collected lines have strictly increasing payline indices. |
| Engine.CollectComplete | src/SlotMachine.js:312-338 | Every payline scanned that has a record appears among the collected lines. |
| Engine.LineRecordsIndexed | src/SlotMachine.js:336 | The record of payline `k` carries `lineIndex == k`. |
| Engine.WinningLinesSound | src/SlotMachine.js:312-340 | Every recorded winning line is the evaluation of a paying payline. |
| Engine.WinningLinesOrdered | src/SlotMachine.js:312-340 | Recorded lines are in strictly increasing payline order, so no payline is recorded twice. |
| Engine.WinningLinesComplete | src/SlotMachine.js:312-340 | A payline is recorded if and only if its payout is positive. |
| Engine.RoundWinNonNegative | src/SlotMachine.js:308-342 | The total win of a round is never negative. |
| Engine.NoPayingLineNoWin | src/SlotMachine.js:308-342 | A round records no line if and only if no payline pays, and then its total win is 0. |
| Engine.ShortRunPaysOnlyForPremium | src/SlotMachine.js:328-331 | A run shorter than three pays only when it is a run of two sevens, diamonds or cherries. |
| Engine.FiveSevensOnMiddleRow | src/SlotMachine.js:312-337 | Five sevens on the middle row at bet 10 record line 0 with five matches and a win of 500. |
| Engine.SampleDraws | src/SlotMachine.js:276-287 | The draw values 8, 25, 40, 50, 70 and 90 select the bell, star, orange, lemon, grapes and watermelon. |
| Engine.SampleGrid | src/SlotMachine.js:263-273 | The sample stream of fifteen draws, consumed reel by reel, yields the sample grid. |
| Engine.CollectOnlyFirst | src/SlotMachine.js:312-338 | When only the first payline has a record, the collected lines are exactly that record. |
| Engine.ReelFromDraws | src/SlotMachine.js:266-270 | A reel shows, row by row, the symbols picked by its own three consecutive draws. |
| Engine.SampleMiddleRowPays | src/SlotMachine.js:312-337 | At bet 10 the middle row of the sample grid reads three watermelons, and payline 0 is recorded with a match count of 3, a win of 2 and the payline's row pattern. |
| Engine.SampleOtherLinesPayNothing | src/SlotMachine.js:312-337 | At bet 10 every payline of the sample grid other than line 0 breaks its run after the first reel and records nothing. |
| Engine.SampleRoundPaysMiddleRow | src/SlotMachine.js:308-342 | At bet 10 the sample grid records only line 0, a run of three watermelons worth 2, and the round total is 2. |
| Game.SlotMachine.constructor | src/SlotMachine.js:8-19 | A new machine holds the initial balance 1000, the default bet index 2 with bet 10, a last win of 0, no grid and no spin in progress. |
| Game.SlotMachine.ChangeBet | src/SlotMachine.js:203-209 | While spinning, nothing changes. Otherwise the index moves by `direction`, clamped to the bet levels, and the bet follows the index. Balance and every other field are untouched. |
| Game.SlotMachine.SetMaxBet | src/SlotMachine.js:211-222 | While spinning, nothing changes. Otherwise the index becomes the highest level the balance covers; if no level is affordable, index and bet stay. |
| Game.SlotMachine.StartSpin | src/SlotMachine.js:225-241 | A spin requested while spinning is refused and changes nothing. A balance below the bet refuses it and changes nothing. Otherwise the spin starts, the bet is deducted once, and the grid drawn from the stream is returned. |
| Game.SlotMachine.Settle | src/SlotMachine.js:246-260 | The recorded lines are the winning lines of the grid at the current bet. The balance grows by their total. `lastWin` takes the total only when it is positive. The grid is shown and the spin ends. |
| Game.SlotMachine.Spin | src/SlotMachine.js:224-261 | Refused requests change nothing. An accepted round ends with balance `old - bet + win`, the grid's winning lines recorded, `lastWin` updated only on a positive win, the grid shown and no spin in progress. |
| Game.SlotMachine.GenerateResults | src/SlotMachine.js:263-273 | The nested loops build exactly the reference grid of the draw stream, which has REEL_COUNT reels of ROW_COUNT valid ids. |
| Game.SlotMachine.GetWeightedRandomSymbol | src/SlotMachine.js:276-287 | The running-remainder loop with its last-symbol fallback returns the reference draw, a valid id. |
| Game.SlotMachine.CheckWins | src/SlotMachine.js:308-342 | The stored winning lines are exactly the round's winning lines at the current bet, and the returned total is their sum. |
| Game.SlotMachine.EvaluatePayline | src/SlotMachine.js:313-337 | One pass of the payline loop produces the reference evaluation of that payline. |
| Game.SlotMachine.CountMatches | src/SlotMachine.js:317-326 | The counting loop with its early break returns the leftmost-run match count. |
| Game.SampleSpin | src/SlotMachine.js:224-261 | A fresh machine spinning the sample stream ends with balance 992 (1000 - 10 + 2), a last win of 2 and the single middle-row record. |
| Game.RefusedSpins | src/SlotMachine.js:225-230 | With balance 5 below the bet of 10 the spin is refused, the balance stays 5 and no spin is in progress. A second request during a spin is refused and the balance stays at 990. |
| Game.MaxBetWithFortyCredits | src/SlotMachine.js:211-222 | With 40 credits the highest affordable bet is 25. |
| Game.BetClamps | src/SlotMachine.js:203-209 | Moving the bet far down stops at the lowest level (1), and moving it far up stops at the highest (100). |

## Left out

- Rendering, the reel animation (`animateReels`, `src/Reel.js`), the win celebration and messages, particles, the UI panels and the keyboard wiring (`src/UI.js`, `src/ParticleSystem.js`, `src/main.js`) are not part of this model. They are screen output, timers and DOM events.
- `Math.random`: each call is replaced by a draw value `r`, which stands for `Math.random() * TOTAL_WEIGHT` and is passed in (a stream of REEL_COUNT × ROW_COUNT values for a grid). That the draws converge to `weight / TOTAL_WEIGHT` is a statistical claim, not a property of one run.
- The asynchronous wait between the two halves of `spin` is not modelled as concurrency. The model shows its effect: `isSpinning` stays true between `StartSpin` and `Settle`, so bet changes and second spins are refused then.
- Floating point: amounts are exact reals. In the source, bets of 5, 10, 25, 50 and 100 scale the integer payouts by 0.5, 1, 2.5, 5 and 10, which are exact binary doubles, so their line wins and totals are exact. A bet of 1 scales by 0.1, which is not, so its wins can carry rounding error (for example `3 * (1 / 10)`). Once such wins have entered the balance, the source's guards `this.balance < this.bet` (`src/SlotMachine.js:227`) and `CONFIG.BET_LEVELS[i] <= this.balance` (`src/SlotMachine.js:215`) can decide differently from the model when the balance mathematically equals a bet level. The `toFixed(2)` display is not modelled.
- The cosmetic configuration (`SYMBOL_SIZE`, `REEL_WIDTH`, `SPIN_DURATION`, `SPIN_DELAY`), the symbols' `name`, `color` and `emoji` fields, and `TARGET_RTP` (an informational value nothing enforces) are not modelled.
- Game.SlotMachine.constructor: the source leaves `winningLines` undefined until the first evaluation; the model starts it as the empty list.
- `lastWin` is not reset when a spin starts: `src/SlotMachine.js:234` clears only the displayed win, so a round without a win keeps the previous `lastWin`. The model follows the code.
- `currentSymbols` is only the last settled grid; the grid a spin in progress will show is the `Started` result of `StartSpin`.
