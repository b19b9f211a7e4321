# Number-sum puzzle: a verified model of the game logic

This project models the game logic of a browser number puzzle, `game.js`, in Dafny. The puzzle is an 8×8 board of numbered, coloured cells. The player marks cells as ignored (or circled, which counts like an unmarked cell). The level is solved when the cells that are not ignored add up to the targets:

- every row has a target;
- every column has a target;
- every colour has a target.

The model covers:

- the level table and the lookup by id that `initGame` performs;
- the colour palette (`getColorMap`);
- the cell-state grid: clicks, reset and initialisation;
- the sum engine (`calculateCurrentSums`);
- the solution checker (`checkSolution`);
- the life counter of the check button;
- the hint button.

The game's global state (`currentLevel`, `colorMap`, `cellStates`, `lives`, `hintsRemaining`) is the class `Session.Game`. `cellStates` is an `array2<int>` that the handlers update in place. The loops of `getColorMap`, `calculateCurrentSums`, `checkSolution` and the hint handler are `for` loops, each proved against a specification function:

- `IsColorMapOf` for the palette;
- `CurrentSums` for the totals;
- `Errors` and `Satisfied` for the checker;
- `HintFor` for the hint.

Each specification function is related by lemmas to definitions written independently of the loop:

- `RowTotal`, `ColumnTotal` and `ColorTotal` are per-line sums over the cells that are not ignored;
- soundness, completeness and order of the error list;
- equality of the grand totals.

Modules, one per part of the program:

| file | module | part of `game.js` |
|---|---|---|
| wrappers.dfy | `Wrappers` | `Option` |
| levels.dfy | `Levels` | level records, `gameLevels`, `gameLevels.find` |
| palette.dfy | `Palette` | `getColorMap`, `colorMap[colorId]` |
| cells.dfy | `Cells` | cell states, `(s + 1) % 3`, the cleared grid |
| sums.dfy | `SumEngine` | `calculateCurrentSums` |
| checker.dfy | `Checker` | `checkSolution` |
| hints.dfy | `HintAdvisor` | the scanning loops of the hint handler |
| session.dfy | `Session` | global state, `initGame`, the click, check, reset and hint handlers |
| level10.dfy | `Level10Play` | level 10 of the table, checked against a solving marking |

### Where the model follows the code as written

- `initGame` does not reset `lives` or `hintsRemaining`. Only the game-over path sets `lives = 3` (game.js:269). `hintsRemaining` is assigned only at game.js:5, 306 and 326, so it never goes back up, not even on a game-over restart. `Session.Game.InitGame` and `Session.Game.CheckButton` state exactly that.
- Colour names are not checked for duplicates. `colorSums` is keyed by colour name (game.js:199), so two palette entries with the same name share one total. Each entry of `colorsSums` is compared with that shared total (game.js:237-243). The model keeps `colorSums` as a `map<string, int>` to reproduce this.
- A colour id outside the palette is not reported. `colorMap[colorId]` is then `undefined`, and the cell's value goes to the key `"undefined"` (`Palette.ResolvesOutsidePalette`). Well-formed levels (`Levels.WellFormed`) have no such id.
- The hint advisor never hints a colour. The hint handler scans only the rows and the columns (game.js:298-336), so a colour mismatch gets no hint.

## Model

| member | source | states |
|---|---|---|
| Levels.FindLevel | game.js:60-65 | Nothing is found exactly when no level of the table has the id. Otherwise the result is the first level whose id is the requested one. |
| Levels.GameLevelsWellFormed | game.js:8-44 | The level table is well formed: 8×8 boards, eight row and eight column targets, every colour id in 1..8. Looking up id 10 finds level 10. |
| Palette.GetColorMap | game.js:47-53 | The palette has exactly the keys 1..K, where K is the number of `colorsSums` entries. Key i+1 maps to the colour name of entry i. |
| Palette.ColorMapUnique | game.js:47-53 | Two palettes built from the same `colorsSums` are equal. Rebuilding the palette of the same level changes nothing. |
| Palette.PaletteSize | game.js:47-53 | A palette has one entry per `colorsSums` entry. |
| Palette.ResolvesInRange | game.js:195 | Every colour id in 1..K resolves to the name of `colorsSums` entry id−1. |
| Palette.ResolvesOutsidePalette | game.js:195-199 | A colour id outside 1..K resolves to the key `"undefined"` with any palette of the level, so its cells are added to the total of `"undefined"`. |
| Cells.NextState | game.js:133 | A click keeps a state in 0..2 and advances it default → ignored → circled → default. |
| Cells.ThreeClicksRestore | game.js:133 | Three clicks on a cell bring back its original state. |
| Cells.NewGrid | game.js:71-73 | The new grid is a fresh 8×8 array with every cell in the default state. |
| SumEngine.CalculateCurrentSums | game.js:184-205 | The nested loops return exactly `CurrentSums` of the level, the palette and the current cell states. |
| SumEngine.CurrentSumsMeaning | game.js:189-202 | Each row total is the sum of that row's cells that are not ignored, and likewise each column total. Each colour total is the sum of the non-ignored cells whose id resolves to that colour. A colour has an entry exactly when at least one such cell exists. |
| SumEngine.SumsAgree | game.js:197-199 | Every counted cell adds its value to exactly one row, one column and one colour. So the row totals, the column totals and the colour totals add up to the same grand total. |
| SumEngine.NoneIgnoredFullTotals | game.js:192 | With no cell ignored, every row total and every column total is the sum of the whole row or column of the board. |
| SumEngine.AllIgnoredZero | game.js:192 | With every cell ignored, every row and column total is 0 and `colorSums` is empty. |
| SumEngine.OnlyIgnoredMatters | game.js:191-192 | Two markings that ignore the same cells give the same totals: circled counts exactly like default. |
| SumEngine.ColorTotalById | game.js:194-199 | When the palette's names are distinct, a colour's total is the sum of the non-ignored cells carrying that colour's id. |
| Checker.CheckSolution | game.js:208-246 | The three loops push exactly the error list `Errors` for the computed totals. `isCorrect` holds iff every row, every column and every listed colour meets its target, an absent colour reading as 0. `isCorrect` also holds iff no error was pushed. |
| Checker.LineErrorsSound | game.js:215-234 | Every row (column) error names a mismatched line, with that line's target and computed total. |
| Checker.LineErrorsComplete | game.js:215-234 | Every mismatched row (column) has its error in the list. |
| Checker.LineErrorsSorted | game.js:215-234 | Row (column) errors come in strictly increasing index order, so no line is reported twice. |
| Checker.LineErrorsEmpty | game.js:215-234 | No row (column) error is pushed iff every row (column) meets its target. |
| Checker.LineErrorsFirst | game.js:215-234 | The first row (column) error is the one of the least mismatched index. |
| Checker.ColorErrorsExact | game.js:237-243 | Each colour error is a `colorsSums` entry whose target differs from the colour's total, an absent colour reading as 0. Every such entry has its error. No colour error iff every entry matches. |
| Checker.ColorMismatchIndicesExact | game.js:237-243 | The indices of the mismatched `colorsSums` entries, listed in increasing order, are exactly the entries whose target differs from the colour's total. |
| Checker.ColorErrorsPerEntry | game.js:237-243 | There is one colour error per mismatched entry, in the order of the entries. Error k is built from the k-th mismatched entry: its name, its target and the colour's total. An entry listed twice is reported twice. |
| Checker.DuplicateEntryReportedTwice | game.js:237-243 | With two entries `("a", 1)` and no total for `"a"`, the check reports two colour errors, each expecting 1 and finding 0. |
| Checker.NoErrorsIffSatisfied | game.js:211-245 | The error list is empty iff every row, column and listed colour meets its target. |
| Checker.ErrorsLayout | game.js:214-243 | The error list is the row errors, then the column errors, then the colour errors, at those positions. |
| Checker.ErrorsOrdered | game.js:214-243 | Row errors precede column errors, which precede colour errors. Within rows and within columns the indices strictly increase. |
| HintAdvisor.FirstMismatch | game.js:295-338 | The hint is `HintFor` the totals. A row hint names the least mismatched row. A column hint comes only when every row matches, and names the least mismatched column. A colour is never hinted. "Looks good" iff every row and every column matches. |
| HintAdvisor.HintIsFirstError | game.js:295-338 | A hint is the first error the checker would report. With no hint, every error the checker reports is a colour error. |
| Session.Game.constructor | game.js:2-5 | Start state: no level loaded, the palette of the table's first level (game.js:56), a cleared grid, 3 lives and 1 hint. |
| Session.Game.InitGame | game.js:59-73 | The current level becomes the lookup result. If nothing is found, the palette and the grid are untouched. Otherwise the palette is that level's and the grid is fresh and cleared. Lives and hints are never touched. |
| Session.Game.HandleCellClick | game.js:132-133 | Only cell (row, col) changes, and it advances by one click. |
| Session.Game.CheckButton | game.js:249-274 | Without a loaded level, nothing changes. A correct board changes nothing. A wrong one costs exactly one life and reports the checker's errors. Losing the last life restarts the level: 3 lives, a fresh cleared grid, the same level and palette. Hints are never touched. |
| Session.Game.Restart | game.js:268-270 | The game-over callback: 3 lives, and the current level initialised again with the same palette and a fresh cleared grid. |
| Session.Game.ResetButton | game.js:277-285 | The confirmed reset: a fresh cleared grid, with the level, palette, lives and hints unchanged. |
| Session.Game.HintButton | game.js:288-339 | With no hints left, nothing changes. Otherwise the hint is `HintFor` the current totals. Only a row or column hint uses one up, and `hintsRemaining` never increases. |
| Level10Play.SolutionSolves | game.js:8-44 | On level 10 with its palette, one concrete marking meets every row, column and colour target, and the checker reports no error. |
| Level10Play.UntouchedFails | game.js:8-44 | On level 10's untouched board, the check fails and the first error is the first row (index 0), expecting 7 and finding 32. |

## Left out

- Rendering and the DOM are not modelled: `renderBoard`, `renderSums`, `updateCellState`, `updateHearts`, `showMessage`, `clearMessage`, the hint-button label and disabled styling. They are presentation only. This includes the colour badges' `colorSumMap` and `seenColors` in `renderBoard`.
- Messages are structured values, not text. Errors are `Checker.Mismatch` records: line kind, 0-based index, expected, actual. Hints are `HintAdvisor.Hint`. The `Row ${i + 1}` texts and console output are left out.
- The reset handler's `confirm()` dialog is modelled as its confirmed branch only. The declined branch changes nothing.
- Session.Game.CheckButton: the game-over restart is modelled as taking effect at once, instead of after the 2-second `setTimeout`. A check clicked during those two seconds would decrement `lives` again in the code, to 0 or below. The model's invariant keeps `lives` in 1..3 and does not capture that window.
- Session.Game.constructor: the model's start state already holds an 8×8 cleared grid, where the code starts with an empty array until `initGame` runs.
- Without a loaded level, the check and hint handlers throw a `TypeError` in the code when they read the level. The model reports this as the outcomes `NoLevel` and `NoLevelLoaded`, with no state changed.
- Event-listener registration and the top-level `initGame(10)` call are wiring and are not modelled.
- SumEngine.CalculateCurrentSums: its own contract is the equation with `CurrentSums`. The per-line reading of the totals is stated by `SumEngine.CurrentSumsMeaning`, which callers combine with it.
- Colour names are modelled as plain map keys (`map<string, int>`). In the code, `colorSums` is a plain object `{}`. For a name that is an `Object.prototype` property (`"toString"`, `"constructor"`, `"__proto__"`), `(colorSums[color] || 0) + value` at game.js:199 concatenates strings, and game.js:238-239 then always reports a mismatch. The model does not capture this. No level of the table uses such a name.
- Numbers are unbounded integers. The board values are small, so JavaScript's floating-point number type makes no difference here.
