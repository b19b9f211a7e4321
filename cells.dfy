/**
 * The per-cell marking state `cellStates`: 0 = default, 1 = ignored,
 * 2 = circled; a click advances a cell by `(s + 1) % 3`.
 */
module Cells {
  import opened Levels

  const Default := 0
  const Ignored := 1
  const Circled := 2

  /** The state a click leaves a cell in. */
  function NextState(s: int): (t: int)
    requires 0 <= s < 3
    ensures 0 <= t < 3
    ensures s == Default ==> t == Ignored
    ensures s == Ignored ==> t == Circled
    ensures s == Circled ==> t == Default
  {
    (s + 1) % 3
  }

  /** Three clicks bring every cell back to where it was. */
  lemma ThreeClicksRestore(s: int)
    requires 0 <= s < 3
    ensures NextState(NextState(NextState(s))) == s
  {
  }

  /** The grid as a value: row `r`, column `c` holds `cells[r, c]`. */
  ghost function Marks(cells: array2<int>): (marks: seq<seq<int>>)
    requires cells.Length0 == Size && cells.Length1 == Size
    reads cells
    ensures IsGrid(marks)
    ensures forall r, c :: 0 <= r < Size && 0 <= c < Size ==> marks[r][c] == cells[r, c]
  {
    seq(Size, r requires 0 <= r < Size reads cells =>
      seq(Size, c requires 0 <= c < Size reads cells => cells[r, c]))
  }

  /** Every cell of the grid is in the default state. */
  ghost predicate AllDefault(cells: array2<int>)
    reads cells
  {
    forall r, c :: 0 <= r < cells.Length0 && 0 <= c < cells.Length1 ==> cells[r, c] == Default
  }

  /** `Array(8).fill(null).map(() => Array(8).fill(0))`: a fresh grid of default cells. */
  method NewGrid() returns (cells: array2<int>)
    ensures fresh(cells)
    ensures cells.Length0 == Size && cells.Length1 == Size
    ensures AllDefault(cells)
  {
    cells := new int[Size, Size]((r, c) => Default);
  }
}
