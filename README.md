# Slot game core, modelled in Dafny

A five-reel, three-row slot machine. The player holds a balance and a bet.
Starting a spin deducts the bet and makes every reel draw the position it will
stop on. While a reel scrolls, it cycles its symbols for show. When it stops,
it assigns its final strip around the drawn result. Once the last reel has
stopped, the game collects the visible symbols into a grid. Sixteen fixed
paylines are then evaluated on that grid, with Wild substitution and
re-anchoring. The balance is credited with the total when it is positive, and
the symbols on winning lines play their win animation.

The project has four modules, one per source file:

- `Symbols` (`symbols.dfy`) covers `Gameplay/Symbol.cs`. It holds the ten
  symbol kinds and the `Symbol` class with its kind, base value and animation
  flag and timer.
- `Paylines` (`paylines.dfy`) covers `Gameplay/PaylineManager.cs`. It holds
  the payline table and the pay table. The evaluator's loop (`ScanLine`,
  `EvaluateLine`, `CalculateWin`) walks an `array2<Symbol?>` and animates the
  winning symbols in place. It is proved against two functions on the kinds
  the grid shows:
  - `Scan`, the reel-by-reel step function;
  - `LineOutcome`, a closed form: the anchor is the first non-Wild kind, and
    the run extends to the first later kind that is neither the anchor nor
    Wild.
- `Reels` (`reels.dfy`) covers `Gameplay/ReelController.cs`. It holds the
  reel class: initialisation, the result draw, cosmetic cycling, the final
  strip with C#'s truncating `%`, and the visible-symbol lookup. It also holds
  the all-stopped barrier, plus a value-level model of a whole spin. That
  model proves that the completion callback fires exactly once, whatever
  order the reels stop in.
- `Game` (`game.dfy`) covers `Manager/GameManager.cs`. It holds the game
  class: the guarded spin start and debit, the clamped bet change, the grid
  assembly, and the credit on completion. It also holds the end of the reel's
  spin coroutine, which notifies the game when every reel has stopped.

`Random.Range` is modelled as an arbitrary in-range choice (`:|`) where
templates are picked for show, and as a parameter (`draw`, `draws`) where it
picks the stop position, so that contracts can name the result. What the
reels show at evaluation time is a ghost parameter, tied to the objects by
the predicate `ReelsShow`.

## Model

| member | source | states |
|---|---|---|
| Symbols.Ordinal | Assets/SlotGameTest/Script/Gameplay/Symbol.cs:6-18 | a kind's position in the enumeration indexes that kind in the declared list |
| Symbols.TenDistinctKinds | Assets/SlotGameTest/Script/Gameplay/Symbol.cs:6-18 | there are exactly ten kinds, pairwise distinct, every value is one of them, Wild and scatter included |
| Symbols.Symbol.constructor | Assets/SlotGameTest/Script/Gameplay/Symbol.cs:22-30 | a new symbol has the given kind and value and is not animating, timer 0 |
| Symbols.Symbol.Instantiate | Assets/SlotGameTest/Script/Gameplay/ReelController.cs:96-99 | a copy of a template has the template's kind and value and is not animating |
| Symbols.Symbol.SetSymbol | Assets/SlotGameTest/Script/Gameplay/Symbol.cs:66-71 | kind and base value become the template's; only those two fields may change |
| Symbols.Symbol.PlayWinAnimation | Assets/SlotGameTest/Script/Gameplay/Symbol.cs:73-80 | afterwards the symbol animates; a running animation keeps its timer (no stacking), otherwise the timer restarts at 0 |
| Symbols.Symbol.StopWinAnimation | Assets/SlotGameTest/Script/Gameplay/Symbol.cs:82-88 | the animation flag is cleared |
| Paylines.BuiltInPaylinesFit | Assets/SlotGameTest/Script/Gameplay/PaylineManager.cs:17-44 | there are 16 paylines, each with exactly 5 rows, each row in {0,1,2}, so every one fits a 5x3 grid |
| Paylines.CalculatePayout | Assets/SlotGameTest/Script/Gameplay/PaylineManager.cs:99-161 | a count outside 3..5 pays 0; a non-negative bet never pays a negative amount |
| Paylines.PayoutFollowsTable | Assets/SlotGameTest/Script/Gameplay/PaylineManager.cs:104-157 | for 3, 4 or 5 matches the payout is the bet times the pay-table multiplier of the kind (One 5/15/50, Two and Three 3/10/25, Four and Five 2/8/20, J, K, Q 1/4/10, scatter 5/20/100, Wild 10/50/200) |
| Paylines.FirstNonWild | Assets/SlotGameTest/Script/Gameplay/PaylineManager.cs:54-74 | the index of the first non-Wild kind: every kind before it is Wild, the kind there is not |
| Paylines.FirstMismatch | Assets/SlotGameTest/Script/Gameplay/PaylineManager.cs:61-79 | the index of the first kind from a position on that is neither the anchor nor Wild: all kinds before it match or are Wild |
| Paylines.LinePayout | Assets/SlotGameTest/Script/Gameplay/PaylineManager.cs:82-86 | only a winning line pays; with a non-negative bet a line never pays a negative amount |
| Paylines.LineOutcomeFirstReel | Assets/SlotGameTest/Script/Gameplay/PaylineManager.cs:54-56 | the first reel anchors the line on its kind with a run of 1, qualified |
| Paylines.Advance | Assets/SlotGameTest/Script/Gameplay/PaylineManager.cs:64-79 | one reel's step: a disqualified line stays as it is; a line still qualified afterwards was extended by its anchor or a Wild, by exactly one; the anchor only ever changes away from Wild, to the new kind with a run of 1 |
| Paylines.Scan | Assets/SlotGameTest/Script/Gameplay/PaylineManager.cs:54-80 | the scan the evaluator runs, reel by reel: the run is between 1 and the number of reels, and only a line anchored on a non-Wild kind is ever disqualified |
| Paylines.LineOutcome | Assets/SlotGameTest/Script/Gameplay/PaylineManager.cs:54-80 | the closed form: the run is between 1 and the number of reels; the anchor is Wild iff every kind on the line is Wild; on a qualified line every kind is the anchor or Wild |
| Paylines.Pays | Assets/SlotGameTest/Script/Gameplay/PaylineManager.cs:83 | a line wins only when its scan is qualified with a run of at least 3, so only a line of at least 3 reels can win |
| Paylines.LineOutcomeStep | Assets/SlotGameTest/Script/Gameplay/PaylineManager.cs:61-79 | the closed-form outcome of a line one reel longer is one scan step (match or Wild extends the run, a Wild anchor re-anchors with run 1, any other mismatch disqualifies) from that of the shorter line |
| Paylines.ScanMatchesOutcome | Assets/SlotGameTest/Script/Gameplay/PaylineManager.cs:54-80 | the reel-by-reel scan equals the closed-form outcome for every line |
| Paylines.ScanPrefixStep | Assets/SlotGameTest/Script/Gameplay/PaylineManager.cs:59-61 | scanning one more reel of a prefix is one scan step |
| Paylines.ScanStaysDisqualified | Assets/SlotGameTest/Script/Gameplay/PaylineManager.cs:75-79 | once a prefix is disqualified the scan of the whole line is that of the prefix, so leaving the loop early is sound |
| Paylines.DisqualifiedPrefix | Assets/SlotGameTest/Script/Gameplay/PaylineManager.cs:75-79 | a disqualified prefix fixes the closed-form outcome of the whole line: later reels are never inspected |
| Paylines.AnchorSettles | Assets/SlotGameTest/Script/Gameplay/PaylineManager.cs:70-74 | once anchored on a non-Wild kind the line keeps that anchor, so re-anchoring happens at most once |
| Paylines.LeadingWildsDiscarded | Assets/SlotGameTest/Script/Gameplay/PaylineManager.cs:70-74 | w >= 1 leading Wilds, then a kind and only that kind or Wilds: anchored on the kind, qualified, run = length - w (the leading Wilds are not counted) |
| Paylines.WildWildTwoTwoTwo | Assets/SlotGameTest/Script/Gameplay/PaylineManager.cs:54-86 | [Wild, Wild, Two, Two, Two] anchors on Two with a run of 3 and pays 3 times the bet |
| Paylines.ThreeLeadingWildsPayNothing | Assets/SlotGameTest/Script/Gameplay/PaylineManager.cs:54-86 | [Wild, Wild, Wild, Two, Two] has a run of only 2 and pays nothing |
| Paylines.LineCells | Assets/SlotGameTest/Script/Gameplay/PaylineManager.cs:89-92 | the cells of a line are exactly (reel, pattern[reel]) for the reels of the grid |
| Paylines.LinesWin | Assets/SlotGameTest/Script/Gameplay/PaylineManager.cs:49-86 | the total of the first n lines' payouts; with a non-negative bet it is never negative |
| Paylines.TotalWin | Assets/SlotGameTest/Script/Gameplay/PaylineManager.cs:49-95 | the total over all paylines; with a non-negative bet it is never negative |
| Paylines.WinningCells | Assets/SlotGameTest/Script/Gameplay/PaylineManager.cs:83-92 | the cells of the winning lines all lie inside the grid |
| Paylines.NoWinningLineNoWin | Assets/SlotGameTest/Script/Gameplay/PaylineManager.cs:83-93 | when no line wins, the total is 0 and no cell is highlighted |
| Paylines.ShowsAt | Assets/SlotGameTest/Script/Gameplay/PaylineManager.cs:54-61 | a grid showing some kinds holds a symbol of the recorded kind at every cell |
| Paylines.ShowsFrom | Assets/SlotGameTest/Script/Gameplay/PaylineManager.cs:54-61 | conversely, a full grid whose every cell has the recorded kind shows those kinds |
| Paylines.GridFitsKinds | Assets/SlotGameTest/Script/Gameplay/PaylineManager.cs:54-61 | paylines that fit the grid's dimensions index the kinds it shows within bounds |
| Paylines.ScanLine | Assets/SlotGameTest/Script/Gameplay/PaylineManager.cs:54-80 | the anchor, run and qualification the loop ends with are the scan of the line's kinds |
| Paylines.LineSymbolsAtCells | Assets/SlotGameTest/Script/Gameplay/PaylineManager.cs:89-92 | the symbols the animation loop visits are exactly those at the line's cells |
| Paylines.WinningSymbolsAtCells | Assets/SlotGameTest/Script/Gameplay/PaylineManager.cs:83-93 | the symbols that get animated are exactly those at the cells of the winning lines |
| Paylines.LinesWinStep | Assets/SlotGameTest/Script/Gameplay/PaylineManager.cs:85-86 | adding a line's payout to the total of the lines before it gives the total including it |
| Paylines.WinningSymbolsStep | Assets/SlotGameTest/Script/Gameplay/PaylineManager.cs:88-92 | the winning symbols up to a line add that line's symbols exactly when it wins |
| Paylines.PaylineManager.constructor | Assets/SlotGameTest/Script/Gameplay/PaylineManager.cs:17-44 | the evaluator starts with the 16 built-in paylines |
| Paylines.PaylineManager.AnimateLine | Assets/SlotGameTest/Script/Gameplay/PaylineManager.cs:88-92 | a symbol animates afterwards iff it animated before or lies on the line; only symbols that newly start have their timer reset |
| Paylines.PaylineManager.EvaluateLine | Assets/SlotGameTest/Script/Gameplay/PaylineManager.cs:54-93 | returns the line's payout; its symbols start animating only if the line wins; the kinds shown are unchanged |
| Paylines.PaylineManager.CalculateWin | Assets/SlotGameTest/Script/Gameplay/PaylineManager.cs:47-96 | returns the sum over all paylines of their payouts; a symbol animates afterwards iff it did before or lies on a winning line; timers reset only for newly started symbols |
| Reels.CsRem | Assets/SlotGameTest/Script/Gameplay/ReelController.cs:287-298 | C#'s `%`: in [0, n) for a non-negative dividend, in (-n, 0] for a negative one |
| Reels.FinalIndex | Assets/SlotGameTest/Script/Gameplay/ReelController.cs:276-298 | the pool index of child i: whenever the middle index is at most r + n, it lies in [0, n) |
| Reels.FinalIndexWraps | Assets/SlotGameTest/Script/Gameplay/ReelController.cs:276-298 | child i holds pool index r + (i - m) wrapped modulo the pool size: the result at the middle, its neighbours above and below |
| Reels.FinalIndexConsecutive | Assets/SlotGameTest/Script/Gameplay/ReelController.cs:281-300 | adjacent children hold consecutive pool indices modulo the pool size, across the middle too |
| Reels.ReelController.constructor | Assets/SlotGameTest/Script/Gameplay/ReelController.cs:63-65 | a started reel is valid, keeps its configuration, is not spinning, and its children are fresh, non-animating copies of pool templates |
| Reels.ReelController.InitializeReel | Assets/SlotGameTest/Script/Gameplay/ReelController.cs:79-105 | the reel gets exactly visibleSymbols + 4 fresh, distinct, non-animating children, each a copy of some pool template |
| Reels.ReelController.StartSpin | Assets/SlotGameTest/Script/Gameplay/ReelController.cs:107-116 | a spinning reel keeps its result index; otherwise the result index becomes the draw, an index into the pool |
| Reels.ReelController.BeginSpinning | Assets/SlotGameTest/Script/Gameplay/ReelController.cs:129 | after the start delay the reel is flagged as spinning |
| Reels.ReelController.CycleSymbols | Assets/SlotGameTest/Script/Gameplay/ReelController.cs:242-255 | the first child moves to the end and the others shift forward by one; only the moved child's kind and value may change, and it becomes a copy of a pool template |
| Reels.ReelController.SetFinalSymbols | Assets/SlotGameTest/Script/Gameplay/ReelController.cs:267-301 | child i takes the kind and value of the template at its final index: the result at the middle, wrapped neighbours above and below; animation state is untouched |
| Reels.ReelController.StopSpin | Assets/SlotGameTest/Script/Gameplay/ReelController.cs:186-192 | the final strip is assigned and the spinning flag cleared; the reel stays valid |
| Reels.ReelController.GetVisibleSymbol | Assets/SlotGameTest/Script/Gameplay/ReelController.cs:304-322 | null iff the position is outside the visible rows or beyond the children; otherwise the child at that position |
| Reels.AllStopped | Assets/SlotGameTest/Script/Gameplay/ReelController.cs:194-203 | true iff no reel of the list is flagged as spinning |
| Reels.Completions | Assets/SlotGameTest/Script/Gameplay/ReelController.cs:192-208 | the number of times the callback fires as the reels stop in a given order is at most the number of stops |
| Reels.FiresExactlyOnce | Assets/SlotGameTest/Script/Gameplay/ReelController.cs:192-208 | if exactly the reels still to stop are flagged and each stops once, in any order, the completion callback fires exactly once |
| Reels.AllReelsOnce | Assets/SlotGameTest/Script/Gameplay/ReelController.cs:192-208 | with every reel flagged before the first stops, stopping each once fires the callback exactly once |
| Game.Clamp | Assets/SlotGameTest/Script/Manager/GameManager.cs:87 | the result lies in [min, max] when min <= max, is the value when inside, min below, max above |
| Game.ClampIdempotent | Assets/SlotGameTest/Script/Manager/GameManager.cs:87 | clamping a clamped bet changes nothing |
| Game.ClampMonotone | Assets/SlotGameTest/Script/Manager/GameManager.cs:87 | a larger requested bet never clamps to a smaller one |
| Game.Credit | Assets/SlotGameTest/Script/Manager/GameManager.cs:62-67 | the credit is never negative, is 0 iff the win is not positive, and is the win otherwise |
| Game.ShownKinds | Assets/SlotGameTest/Script/Manager/GameManager.cs:70-83 | the kinds the reels' visible children show, as the grid will read them |
| Game.ReelsShowUnique | Assets/SlotGameTest/Script/Manager/GameManager.cs:70-83 | what the reels show is determined by the reels |
| Game.GridOfReels | Assets/SlotGameTest/Script/Manager/GameManager.cs:70-83 | the grid assembled from a valid game's reels shows the reels' kinds, fits the paylines and holds only the reels' symbols |
| Game.GameKept | Assets/SlotGameTest/Script/Manager/GameManager.cs:57-60 | changing only animation state keeps the game valid and the reels showing the same kinds |
| Game.GameManager.constructor | Assets/SlotGameTest/Script/Manager/GameManager.cs:10-22 | defaults: bets 10 to 1000, balance 1000, bet 50, not spinning; the game is valid and lists no reel twice |
| Game.GameManager.StartSpin | Assets/SlotGameTest/Script/Manager/GameManager.cs:37-49 | while spinning or with balance below the bet nothing changes and no reel draws; otherwise the balance drops by exactly the bet, the game spins and every idle reel k takes draws[k] as its result; validity (balance >= 0) is kept |
| Game.GameManager.ChangeBet | Assets/SlotGameTest/Script/Manager/GameManager.cs:85-89 | the bet becomes clamp(bet + amount, minBet, maxBet); nothing else may change and the bet stays within limits |
| Game.GameManager.GetSymbolGrid | Assets/SlotGameTest/Script/Manager/GameManager.cs:70-83 | a fresh reels x rows grid whose cell [r, p] is reel r's visible symbol p (null where that reel shows fewer rows) |
| Game.GameManager.GridWin | Assets/SlotGameTest/Script/Manager/GameManager.cs:59-60 | the win is the paylines' total on the shown kinds with the whole current bet as bet per line |
| Game.GameManager.EvaluateWins | Assets/SlotGameTest/Script/Manager/GameManager.cs:57-68 | the balance grows by the total win when positive and is unchanged otherwise |
| Game.GameManager.OnSpinComplete | Assets/SlotGameTest/Script/Manager/GameManager.cs:51-55 | the spinning flag is cleared and the win is credited as in EvaluateWins |
| Game.GameManager.ReelStopped | Assets/SlotGameTest/Script/Gameplay/ReelController.cs:194-208 | the spin completes (flag cleared, win credited) iff no reel is still spinning; otherwise flag and balance are unchanged |

The enumeration declares the court kinds in the order J, K, Q
(Symbol.cs:13-15), and the model keeps that order.

## Left out

- Frame timing is not modelled: the speed-up, cruise and bounce phases of the spin coroutine, the easing function, the start delay, the scroll padding and `AlignSymbolsToFinalPosition`. These are floating-point and cosmetic. The coroutine is split into the steps that change state: `BeginSpinning`, `CycleSymbols`, `StopSpin` and `ReelStopped`.
- The per-frame `Symbol.Update` is not modelled. It advances the animation timer and stops the animation after three seconds, using floats and frame time. `StopWinAnimation` itself is modelled.
- Unity engine calls are not modelled: audio, layout rebuilds, sprite copies, `Destroy` of old children and the debug logs. `Instantiate` is a constructor that copies a template.
- The singleton lifecycle (`Awake`, `Instance`) is not modelled. Of the reel's `Start`, only the search for the reel's own index, which sets its start delay (ReelController.cs:67-76), is left out; its call to `InitializeReel` is the reel constructor. Neither are the user-interface updates the game sends after a balance or bet change. UIManager.cs and BetManager.cs are not part of this model.
- `Random.Range` becomes an arbitrary in-range choice or a parameter. Nothing is claimed about the distribution.
- ReelController.StartSpin: the random draw is the parameter `draw`, and the game's `StartSpin` takes one draw per reel.
- StartSpin (game): requires that no reel is listed twice (`DistinctReels`, established by the constructor). With a reel listed twice, the source starts it twice: the reel's flag is set only after its start delay, so the second call draws again and launches a second coroutine. The model does not describe that case.
- StartSpin (game): the reel coroutine that each reel's start launches is not part of the call. Its effects are the separate reel steps listed above.
- ReelStopped: covers only the barrier and the completion call. The reel's own final assignment and flag clearing are `ReelController.StopSpin`. That every reel is flagged before the first one stops is the precondition of `FiresExactlyOnce`, not a consequence of timing.
- GridWin: does not restate the win animations at game level. They are stated by `PaylineManager.CalculateWin`.
- EvaluateWins: likewise states only the balance and what the reels show, not the animations.
- OnSpinComplete: may change the reels' symbols' animation flags and timers, as the source does through `EvaluateWins`. Its contract does not say which symbols start animating; `PaylineManager.CalculateWin` states that.
- ReelStopped: likewise leaves the animation state unstated when the spin completes.
- CalculatePayout: does not model the `default` branch of the switch. `SymbolType` holds only the ten declared values, so a cast of any other integer to the enumeration cannot arise.
- CalculatePayout: does not model 32-bit overflow of bet times multiplier, because integers are unbounded. The same holds for the balance in `StartSpin` and `EvaluateWins`.
- CalculateWin: requires every grid cell to hold a symbol and every payline to fit the grid. Where the source would throw a null-reference or index error, the model has a precondition. The game's validity invariant provides both.
- ReelController.constructor: requires a non-empty pool. With an empty pool the source's `Random.Range(0, 0)` returns 0 and the indexing at ReelController.cs:96-97 throws.
- SetFinalSymbols: requires, through the reel's validity, `visibleSymbols / 2 <= |possibleSymbols|`. Otherwise the index at ReelController.cs:287-288 can be negative and the source throws, for instance with 7 visible rows, a pool of 2 and result 0.
- GetSymbolGrid: requires at least one reel, because the source reads `reels[0]` (GameManager.cs:72). It also requires no reel to show more rows than the first; otherwise the grid write at GameManager.cs:78 is out of range and the source throws.
- ChangeBet: does not model 32-bit overflow of `currentBet + amount` (GameManager.cs:87). In the source a sum beyond 2^31 - 1 wraps to a negative number and clamps to the minimum bet; in the model, where integers are unbounded, it clamps to the maximum bet.
- CycleSymbols: the source's null check on the moved child's symbol component is not modelled, because every child is a symbol in the model.
