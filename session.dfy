/**
 * The game's mutable state and the handlers that change it: level
 * initialisation, cell clicks, and the check, reset and hint buttons.
 */
module Session {
  import opened Wrappers
  import opened Levels
  import opened Palette
  import opened Cells
  import opened SumEngine
  import opened Checker
  import opened HintAdvisor

  const InitialLives := 3
  const InitialHints := 1

  /** What the check button reports. */
  datatype CheckOutcome =
    | Solved                                           // "Congratulations! You solved it!"
    | TryAgain(livesLeft: int, errors: seq<Mismatch>)  // "Not quite right. n lives remaining."
    | GameOver(errors: seq<Mismatch>)                  // "Game Over! Resetting...", then the restart
    | NoLevel                                          // no level loaded: the handler throws before changing anything

  /** What the hint button reports. */
  datatype HintOutcome =
    | NoHintsRemaining   // "No hints remaining!"
    | Given(hint: Hint)
    | NoLevelLoaded      // no level loaded: the handler throws before changing anything

  class Game {
    /** `gameLevels`, the level table. */
    const levels: seq<Level>
    var currentLevel: Option<Level>
    var colorMap: map<int, string>
    var cellStates: array2<int>
    var lives: int
    var hintsRemaining: int

    /** The whole invariant of the game state. */
    ghost predicate Valid()
      reads this, cellStates
    {
      Consistent() && 0 < lives <= InitialLives
    }

    /** Everything the invariant says apart from the lives bound. */
    ghost predicate Consistent()
      reads this, cellStates
    {
      && (forall i :: 0 <= i < |levels| ==> WellFormed(levels[i]))
      && cellStates.Length0 == Size && cellStates.Length1 == Size
      && (forall r, c :: 0 <= r < Size && 0 <= c < Size ==> 0 <= cellStates[r, c] < 3)
      && 0 <= hintsRemaining <= InitialHints
      && (currentLevel.Some? ==>
            && FindLevel(levels, currentLevel.value.id) == currentLevel
            && WellFormed(currentLevel.value)
            && IsColorMapOf(colorMap, currentLevel.value.colorsSums))
    }

    /** The state before the first `initGame`: no level, the palette of the first level of the table. */
    constructor (levels: seq<Level>)
      requires |levels| > 0
      requires forall i :: 0 <= i < |levels| ==> WellFormed(levels[i])
      ensures Valid()
      ensures this.levels == levels && currentLevel == None
      ensures IsColorMapOf(colorMap, levels[0].colorsSums)
      ensures fresh(cellStates) && AllDefault(cellStates)
      ensures lives == InitialLives && hintsRemaining == InitialHints
    {
      var palette := GetColorMap(levels[0].colorsSums);
      var grid := NewGrid();
      this.levels := levels;
      currentLevel := None;
      colorMap := palette;
      cellStates := grid;
      lives := InitialLives;
      hintsRemaining := InitialHints;
    }

    /**
     * `initGame(levelId)`: looks the level up; when none matches, only the
     * current level is cleared; otherwise the palette is rebuilt and the board
     * cleared. Lives and hints are not touched.
     */
    method InitGame(levelId: int)
      requires Valid()
      modifies this
      ensures Valid()
      ensures currentLevel == FindLevel(levels, levelId)
      ensures lives == old(lives) && hintsRemaining == old(hintsRemaining)
      ensures currentLevel.None? ==> colorMap == old(colorMap) && cellStates == old(cellStates)
      ensures currentLevel.Some? ==>
        && IsColorMapOf(colorMap, currentLevel.value.colorsSums)
        && fresh(cellStates) && AllDefault(cellStates)
    {
      currentLevel := FindLevel(levels, levelId);
      if currentLevel.None? {
        return;
      }
      colorMap := GetColorMap(currentLevel.value.colorsSums);
      cellStates := NewGrid();
    }

    /** `handleCellClick(row, col)`: advances one cell; nothing else changes. */
    method HandleCellClick(row: int, col: int)
      requires Valid()
      requires 0 <= row < Size && 0 <= col < Size
      modifies cellStates
      ensures Valid()
      ensures cellStates[row, col] == NextState(old(cellStates[row, col]))
      ensures forall r, c :: 0 <= r < Size && 0 <= c < Size && (r, c) != (row, col) ==>
        cellStates[r, c] == old(cellStates[r, c])
    {
      cellStates[row, col] := (cellStates[row, col] + 1) % 3;
    }

    /**
     * The check button: a correct board changes nothing; a wrong one costs a
     * life, and losing the last one restarts the level with three lives and a
     * cleared board (the hints are not restored).
     */
    method CheckButton() returns (outcome: CheckOutcome)
      requires Valid()
      modifies this
      ensures Valid()
      ensures currentLevel == old(currentLevel) && colorMap == old(colorMap)
      ensures hintsRemaining == old(hintsRemaining)
      ensures outcome == NoLevel <==> old(currentLevel).None?
      ensures outcome == NoLevel || outcome == Solved || outcome.TryAgain? ==>
        lives == old(lives) - (if outcome.TryAgain? then 1 else 0) && cellStates == old(cellStates)
      ensures outcome.TryAgain? ==> old(lives) > 1 && outcome.livesLeft == lives
      ensures outcome.GameOver? ==>
        old(lives) == 1 && lives == InitialLives && fresh(cellStates) && AllDefault(cellStates)
      ensures old(currentLevel).Some? ==>
        var sums := CurrentSums(old(currentLevel).value, old(colorMap), old(Marks(cellStates)));
        && (outcome == Solved <==> Satisfied(old(currentLevel).value, sums))
        && (outcome.TryAgain? || outcome.GameOver? ==> outcome.errors == Errors(old(currentLevel).value, sums))
    {
      if currentLevel.None? {
        return NoLevel;
      }
      var level := currentLevel.value;
      var isCorrect, errors := CheckSolution(level, colorMap, cellStates);
      if isCorrect {
        outcome := Solved;
      } else {
        lives := lives - 1;
        if lives > 0 {
          outcome := TryAgain(lives, errors);
        } else {
          outcome := GameOver(errors);
          Restart();
        }
      }
    }

    /**
     * The delayed restart after the last life is lost: three lives again and the
     * current level initialised anew, which keeps its palette and clears the board.
     */
    method Restart()
      requires Consistent() && currentLevel.Some?
      modifies this
      ensures Valid()
      ensures currentLevel == old(currentLevel) && colorMap == old(colorMap)
      ensures hintsRemaining == old(hintsRemaining)
      ensures lives == InitialLives && fresh(cellStates) && AllDefault(cellStates)
    {
      var level := currentLevel.value;
      ghost var palette := colorMap;
      lives := InitialLives;
      InitGame(level.id);
      ColorMapUnique(colorMap, palette, level.colorsSums);
    }

    /** The reset button, once confirmed: a cleared board; lives and hints stay as they are. */
    method ResetButton()
      requires Valid()
      modifies this
      ensures Valid()
      ensures fresh(cellStates) && AllDefault(cellStates)
      ensures currentLevel == old(currentLevel) && colorMap == old(colorMap)
      ensures lives == old(lives) && hintsRemaining == old(hintsRemaining)
    {
      cellStates := NewGrid();
    }

    /**
     * The hint button: with no hints left it refuses; otherwise it names the
     * first mismatched row, else the first mismatched column, and only such a
     * hint uses one up.
     */
    method HintButton() returns (outcome: HintOutcome)
      requires Valid()
      modifies this`hintsRemaining
      ensures Valid()
      ensures hintsRemaining <= old(hintsRemaining)
      ensures old(hintsRemaining) <= 0 ==> outcome == NoHintsRemaining && hintsRemaining == old(hintsRemaining)
      ensures old(hintsRemaining) > 0 && currentLevel.None? ==> outcome == NoLevelLoaded && hintsRemaining == old(hintsRemaining)
      ensures old(hintsRemaining) > 0 && currentLevel.Some? ==>
        && outcome == Given(HintFor(currentLevel.value, CurrentSums(currentLevel.value, colorMap, Marks(cellStates))))
        && hintsRemaining == old(hintsRemaining) - (if outcome.hint.CheckLine? then 1 else 0)
    {
      if hintsRemaining <= 0 {
        return NoHintsRemaining;
      }
      if currentLevel.None? {
        return NoLevelLoaded;
      }
      var level := currentLevel.value;
      var sums := CalculateCurrentSums(level, colorMap, cellStates);
      var hint := FirstMismatch(level, sums);
      if hint.CheckLine? {
        hintsRemaining := hintsRemaining - 1;
      }
      outcome := Given(hint);
    }
  }
}
