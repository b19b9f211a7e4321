/**
 * The level table of the puzzle: static puzzle definitions and the lookup by
 * identifier that `initGame` performs on them.
 */
module Levels {
  import opened Wrappers

  /** Width and height of every board. */
  const Size := 8

  /** A puzzle definition, with the field names of the level table. */
  datatype Level = Level(
    id: int,
    boardNumbers: seq<seq<int>>,
    boardColors: seq<seq<int>>,
    columnsSum: seq<int>,
    rowsSum: seq<int>,
    colorsSums: seq<(string, int)>)

  predicate IsGrid(g: seq<seq<int>>)
  {
    |g| == Size && forall r :: 0 <= r < Size ==> |g[r]| == Size
  }

  /** The shapes every part of the game indexes into: 8x8 grids and eight targets per axis. */
  predicate Shaped(level: Level)
  {
    && IsGrid(level.boardNumbers)
    && IsGrid(level.boardColors)
    && |level.columnsSum| == Size
    && |level.rowsSum| == Size
  }

  /** Shaped, and every colour id on the board names an entry of `colorsSums`. */
  predicate WellFormed(level: Level)
  {
    && Shaped(level)
    && forall r, c :: 0 <= r < Size && 0 <= c < Size ==> 1 <= level.boardColors[r][c] <= |level.colorsSums|
  }

  /** Position `i` holds the first level of the table whose id is `id`. */
  predicate IsFirstWithId(levels: seq<Level>, i: int, id: int)
  {
    0 <= i < |levels| && levels[i].id == id && forall j :: 0 <= j < i ==> levels[j].id != id
  }

  /**
   * `gameLevels.find(level => level.id === levelId)`: the first level whose id
   * matches, or nothing when no level does.
   */
  function FindLevel(levels: seq<Level>, id: int): (found: Option<Level>)
    ensures found.None? <==> forall i :: 0 <= i < |levels| ==> levels[i].id != id
    ensures found.Some? ==> exists i :: IsFirstWithId(levels, i, id) && levels[i] == found.value
  {
    if |levels| == 0 then None
    else if levels[0].id == id then
      assert IsFirstWithId(levels, 0, id);
      Some(levels[0])
    else
      var rest := FindLevel(levels[1..], id);
      if rest.None? then
        assert forall i :: 1 <= i < |levels| ==> levels[i] == levels[1..][i - 1];
        None
      else
        var k :| IsFirstWithId(levels[1..], k, id) && levels[1..][k] == rest.value;
        assert IsFirstWithId(levels, k + 1, id) by {
          forall j | 0 <= j < k + 1 ensures levels[j].id != id {
            if j > 0 { assert levels[j] == levels[1..][j - 1]; }
          }
        }
        rest
  }

  /** Level 10, the only entry of the game's level table. */
  const Level10 := Level(
    10,
    [ [3, 7, 5, 4, 1, 6, 3, 3],
      [2, 3, 6, 9, 6, 3, 1, 3],
      [1, 5, 2, 5, 5, 6, 2, 7],
      [2, 1, 8, 1, 4, 5, 4, 6],
      [9, 2, 8, 5, 5, 4, 3, 3],
      [8, 4, 1, 6, 4, 7, 6, 3],
      [7, 7, 4, 4, 3, 2, 5, 2],
      [6, 7, 3, 4, 9, 4, 4, 3] ],
    [ [8, 8, 8, 8, 2, 2, 2, 2],
      [8, 8, 5, 8, 1, 2, 2, 2],
      [5, 5, 5, 8, 1, 1, 1, 2],
      [5, 5, 5, 1, 1, 1, 1, 7],
      [5, 3, 3, 3, 3, 7, 7, 7],
      [4, 3, 3, 3, 6, 7, 7, 7],
      [4, 4, 4, 3, 6, 7, 6, 6],
      [4, 4, 4, 4, 6, 6, 6, 6] ],
    [24, 2, 11, 14, 16, 23, 17, 3],
    [7, 15, 13, 16, 14, 18, 14, 13],
    [ ("violet", 27),
      ("#a3abe4", 4),
      ("#baffc9", 7),
      ("orange", 24),
      ("yellow", 8),
      ("#eecec1", 9),
      ("#c0ddff", 19),
      ("#ffb1b1", 12) ])

  /** The game's level table. */
  const GameLevels := [Level10]

  lemma GameLevelsWellFormed()
    ensures forall i :: 0 <= i < |GameLevels| ==> WellFormed(GameLevels[i])
    ensures FindLevel(GameLevels, 10) == Some(Level10)
  {
  }
}
