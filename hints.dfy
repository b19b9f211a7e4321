/**
 * The hint advisor of the hint button: the first row whose total misses its
 * target, or failing that the first such column. Colours are never hinted.
 */
module HintAdvisor {
  import opened Levels
  import opened SumEngine
  import opened Checker

  datatype Hint =
    | CheckLine(mismatch: Mismatch)  // "Check row/column i: current sum is ..., should be ..."
    | LooksGood                      // "Everything looks good so far!"

  /** The hint for a set of totals, read off the checker's row and column errors. */
  function HintFor(level: Level, sums: Sums): Hint
    requires Shaped(level) && Shaped8(sums)
  {
    var rows := LineErrors(Row, level.rowsSum, sums.rowSums, Size);
    var cols := LineErrors(Column, level.columnsSum, sums.colSums, Size);
    if rows != [] then CheckLine(rows[0])
    else if cols != [] then CheckLine(cols[0])
    else LooksGood
  }

  /** The two scanning loops of the hint handler, over the rows and then over the columns. */
  method FirstMismatch(level: Level, sums: Sums) returns (hint: Hint)
    requires Shaped(level) && Shaped8(sums)
    ensures hint == HintFor(level, sums)
    ensures hint.CheckLine? ==> hint.mismatch.LineMismatch? && 0 <= hint.mismatch.index < Size
    ensures hint.CheckLine? && hint.mismatch.line == Row ==>
      var i := hint.mismatch.index;
      && hint.mismatch == LineMismatch(Row, i, level.rowsSum[i], sums.rowSums[i])
      && sums.rowSums[i] != level.rowsSum[i]
      && forall r :: 0 <= r < i ==> sums.rowSums[r] == level.rowsSum[r]
    ensures hint.CheckLine? && hint.mismatch.line == Column ==>
      var j := hint.mismatch.index;
      && hint.mismatch == LineMismatch(Column, j, level.columnsSum[j], sums.colSums[j])
      && sums.colSums[j] != level.columnsSum[j]
      && (forall r :: 0 <= r < Size ==> sums.rowSums[r] == level.rowsSum[r])
      && forall c :: 0 <= c < j ==> sums.colSums[c] == level.columnsSum[c]
    ensures hint.LooksGood? <==>
      && (forall r :: 0 <= r < Size ==> sums.rowSums[r] == level.rowsSum[r])
      && (forall c :: 0 <= c < Size ==> sums.colSums[c] == level.columnsSum[c])
  {
    for row := 0 to Size
      invariant forall r :: 0 <= r < row ==> sums.rowSums[r] == level.rowsSum[r]
    {
      if sums.rowSums[row] != level.rowsSum[row] {
        hint := CheckLine(LineMismatch(Row, row, level.rowsSum[row], sums.rowSums[row]));
        LineErrorsFirst(Row, level.rowsSum, sums.rowSums, Size, row);
        return;
      }
    }
    LineErrorsEmpty(Row, level.rowsSum, sums.rowSums, Size);
    for col := 0 to Size
      invariant forall c :: 0 <= c < col ==> sums.colSums[c] == level.columnsSum[c]
    {
      if sums.colSums[col] != level.columnsSum[col] {
        hint := CheckLine(LineMismatch(Column, col, level.columnsSum[col], sums.colSums[col]));
        LineErrorsFirst(Column, level.columnsSum, sums.colSums, Size, col);
        return;
      }
    }
    LineErrorsEmpty(Column, level.columnsSum, sums.colSums, Size);
    hint := LooksGood;
  }

  /**
   * A hint names the first error the checker would report; when there is no
   * hint, every error the checker would report is a colour error.
   */
  lemma HintIsFirstError(level: Level, sums: Sums)
    requires Shaped(level) && Shaped8(sums)
    ensures HintFor(level, sums).CheckLine? ==>
      Errors(level, sums) != [] && Errors(level, sums)[0] == HintFor(level, sums).mismatch
    ensures HintFor(level, sums).LooksGood? ==>
      forall k :: 0 <= k < |Errors(level, sums)| ==> Errors(level, sums)[k].ColorMismatch?
  {
    var rows := LineErrors(Row, level.rowsSum, sums.rowSums, Size);
    var cols := LineErrors(Column, level.columnsSum, sums.colSums, Size);
    var colors := ColorErrors(level.colorsSums, sums.colorSums, |level.colorsSums|);
    assert Errors(level, sums) == rows + cols + colors;
    if HintFor(level, sums).LooksGood? {
      ColorErrorsExact(level.colorsSums, sums.colorSums, |level.colorsSums|);
      forall k | 0 <= k < |colors| ensures colors[k].ColorMismatch? {
        assert colors[k] in colors;
      }
    }
  }
}
