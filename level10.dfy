/**
 * Level 10 of the level table played through: the check on the untouched
 * board fails, and one marking of ignored cells solves it.
 */
module Level10Play {
  import opened Levels
  import opened Palette
  import opened Cells
  import opened SumEngine
  import opened Checker

  /** A marking that solves level 10 (1 = ignored, 0 = default). */
  const Solution: seq<seq<int>> := [
    [0, 1, 1, 1, 0, 1, 0, 1],
    [1, 1, 1, 0, 0, 1, 1, 1],
    [1, 1, 1, 1, 0, 0, 0, 1],
    [1, 1, 0, 1, 0, 1, 0, 1],
    [1, 0, 1, 0, 1, 0, 0, 1],
    [0, 1, 1, 1, 1, 0, 1, 0],
    [0, 1, 1, 1, 1, 0, 0, 1],
    [0, 1, 0, 1, 1, 0, 1, 1]]

  /** The untouched board, as `initGame` leaves it. */
  const Untouched: seq<seq<int>> := [
    [0, 0, 0, 0, 0, 0, 0, 0],
    [0, 0, 0, 0, 0, 0, 0, 0],
    [0, 0, 0, 0, 0, 0, 0, 0],
    [0, 0, 0, 0, 0, 0, 0, 0],
    [0, 0, 0, 0, 0, 0, 0, 0],
    [0, 0, 0, 0, 0, 0, 0, 0],
    [0, 0, 0, 0, 0, 0, 0, 0],
    [0, 0, 0, 0, 0, 0, 0, 0]]

  /** The level and the marking are both 8 by 8. */
  lemma SolutionShaped()
    ensures Inputs(Level10, Solution)
  {
  }

  /** Level 10's colour names are pairwise distinct. */
  lemma DistinctColors()
    ensures DistinctNames(Level10.colorsSums)
  {
  }

  /** Every row total under `Solution` is its target. */
  lemma RowsMet()
    requires Inputs(Level10, Solution)
    ensures forall r :: 0 <= r < Size ==> RowTotal(Level10, Solution, r, Size) == Level10.rowsSum[r]
  {
  }

  /** Every column total under `Solution` is its target. */
  lemma ColumnsMet()
    requires Inputs(Level10, Solution)
    ensures forall c :: 0 <= c < Size ==> ColumnTotal(Level10, Solution, c, Size) == Level10.columnsSum[c]
  {
  }

  // The colour totals of `Solution`, one colour id at a time; the first four
  // rows of each colour are a lemma of their own, which keeps each proof small.

  lemma ColorIdUpper1()
    requires Inputs(Level10, Solution)
    ensures IdTotal(Level10, Solution, 1, 4) == 27
  {
  }

  lemma ColorIdMet1(id: int)
    requires Inputs(Level10, Solution) && id == 1
    ensures IdTotal(Level10, Solution, id, Size) == Level10.colorsSums[id - 1].1
  {
    ColorIdUpper1();
  }

  lemma ColorIdUpper2()
    requires Inputs(Level10, Solution)
    ensures IdTotal(Level10, Solution, 2, 4) == 4
  {
  }

  lemma ColorIdMet2(id: int)
    requires Inputs(Level10, Solution) && id == 2
    ensures IdTotal(Level10, Solution, id, Size) == Level10.colorsSums[id - 1].1
  {
    ColorIdUpper2();
  }

  lemma ColorIdUpper3()
    requires Inputs(Level10, Solution)
    ensures IdTotal(Level10, Solution, 3, 4) == 0
  {
  }

  lemma ColorIdMet3(id: int)
    requires Inputs(Level10, Solution) && id == 3
    ensures IdTotal(Level10, Solution, id, Size) == Level10.colorsSums[id - 1].1
  {
    ColorIdUpper3();
  }

  lemma ColorIdUpper4()
    requires Inputs(Level10, Solution)
    ensures IdTotal(Level10, Solution, 4, 4) == 0
  {
  }

  lemma ColorIdMet4(id: int)
    requires Inputs(Level10, Solution) && id == 4
    ensures IdTotal(Level10, Solution, id, Size) == Level10.colorsSums[id - 1].1
  {
    ColorIdUpper4();
  }

  lemma ColorIdUpper5()
    requires Inputs(Level10, Solution)
    ensures IdTotal(Level10, Solution, 5, 4) == 8
  {
  }

  lemma ColorIdMet5(id: int)
    requires Inputs(Level10, Solution) && id == 5
    ensures IdTotal(Level10, Solution, id, Size) == Level10.colorsSums[id - 1].1
  {
    ColorIdUpper5();
  }

  lemma ColorIdUpper6()
    requires Inputs(Level10, Solution)
    ensures IdTotal(Level10, Solution, 6, 4) == 0
  {
  }

  lemma ColorIdMet6(id: int)
    requires Inputs(Level10, Solution) && id == 6
    ensures IdTotal(Level10, Solution, id, Size) == Level10.colorsSums[id - 1].1
  {
    ColorIdUpper6();
  }

  lemma ColorIdUpper7()
    requires Inputs(Level10, Solution)
    ensures IdTotal(Level10, Solution, 7, 4) == 0
  {
  }

  lemma ColorIdMet7(id: int)
    requires Inputs(Level10, Solution) && id == 7
    ensures IdTotal(Level10, Solution, id, Size) == Level10.colorsSums[id - 1].1
  {
    ColorIdUpper7();
  }

  lemma ColorIdUpper8()
    requires Inputs(Level10, Solution)
    ensures IdTotal(Level10, Solution, 8, 4) == 12
  {
  }

  lemma ColorIdMet8(id: int)
    requires Inputs(Level10, Solution) && id == 8
    ensures IdTotal(Level10, Solution, id, Size) == Level10.colorsSums[id - 1].1
  {
    ColorIdUpper8();
  }

  /** Every colour id's total under `Solution` is its target. */
  lemma ColorIdMet(id: int)
    requires 1 <= id <= |Level10.colorsSums|
    requires Inputs(Level10, Solution)
    ensures IdTotal(Level10, Solution, id, Size) == Level10.colorsSums[id - 1].1
  {
    if id == 1 { ColorIdMet1(id); }
    else if id == 2 { ColorIdMet2(id); }
    else if id == 3 { ColorIdMet3(id); }
    else if id == 4 { ColorIdMet4(id); }
    else if id == 5 { ColorIdMet5(id); }
    else if id == 6 { ColorIdMet6(id); }
    else if id == 7 { ColorIdMet7(id); }
    else { ColorIdMet8(id); }
  }

  /** Every colour total under `Solution`, read by name through the palette, is its target. */
  lemma ColorMet(colorMap: map<int, string>, id: int)
    requires IsColorMapOf(colorMap, Level10.colorsSums)
    requires 1 <= id <= |Level10.colorsSums|
    requires Inputs(Level10, Solution)
    ensures ColorTotal(Level10, colorMap, Solution, Level10.colorsSums[id - 1].0, Size) == Level10.colorsSums[id - 1].1
  {
    ColorIdMet(id);
    DistinctColors();
    GameLevelsWellFormed();
    assert WellFormed(GameLevels[0]);
    ColorTotalById(Level10, colorMap, Solution, id, Size);
  }

  lemma ColorsMet(colorMap: map<int, string>)
    requires IsColorMapOf(colorMap, Level10.colorsSums)
    requires Inputs(Level10, Solution)
    ensures forall i :: 0 <= i < |Level10.colorsSums| ==>
      ColorTotal(Level10, colorMap, Solution, Level10.colorsSums[i].0, Size) == Level10.colorsSums[i].1
  {
    forall i | 0 <= i < |Level10.colorsSums|
      ensures ColorTotal(Level10, colorMap, Solution, Level10.colorsSums[i].0, Size) == Level10.colorsSums[i].1
    {
      ColorMet(colorMap, i + 1);
    }
  }

  /** With level 10's palette, the marking `Solution` meets every target: the check reports no error. */
  lemma SolutionSolves(colorMap: map<int, string>)
    requires IsColorMapOf(colorMap, Level10.colorsSums)
    ensures Inputs(Level10, Solution)
    ensures Satisfied(Level10, CurrentSums(Level10, colorMap, Solution))
    ensures Errors(Level10, CurrentSums(Level10, colorMap, Solution)) == []
  {
    SolutionShaped();
    CurrentSumsMeaning(Level10, colorMap, Solution);
    RowsMet();
    ColumnsMet();
    ColorsMet(colorMap);
    NoErrorsIffSatisfied(Level10, CurrentSums(Level10, colorMap, Solution));
  }

  /** On the untouched board the first row adds up to 32 instead of 7, so the check fails and reports that row first. */
  lemma UntouchedFails(colorMap: map<int, string>)
    ensures Inputs(Level10, Untouched)
    ensures !Satisfied(Level10, CurrentSums(Level10, colorMap, Untouched))
    ensures Errors(Level10, CurrentSums(Level10, colorMap, Untouched)) != []
    ensures Errors(Level10, CurrentSums(Level10, colorMap, Untouched))[0] == LineMismatch(Row, 0, 7, 32)
  {
    var sums := CurrentSums(Level10, colorMap, Untouched);
    CurrentSumsMeaning(Level10, colorMap, Untouched);
    assert RowTotal(Level10, Untouched, 0, Size) == 32;
    NoErrorsIffSatisfied(Level10, sums);
    LineErrorsFirst(Row, Level10.rowsSum, sums.rowSums, Size, 0);
  }
}
