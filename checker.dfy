/**
 * The solution checker (`checkSolution`): compares the computed totals with
 * the level's targets, rows first, then columns, then colours, and collects
 * one error per mismatch without stopping early.
 */
module Checker {
  import opened Levels
  import opened Cells
  import opened SumEngine

  datatype Line = Row | Column

  /** One entry of `errors`: where the totals disagree, what was expected and what was found. */
  datatype Mismatch =
    | LineMismatch(line: Line, index: int, expected: int, actual: int)
    | ColorMismatch(color: string, expected: int, actual: int)

  /** The errors the loop over the first `n` rows (or columns) pushes. */
  function LineErrors(line: Line, targets: seq<int>, actuals: seq<int>, n: nat): seq<Mismatch>
    requires n <= |targets| && n <= |actuals|
  {
    if n == 0 then []
    else
      LineErrors(line, targets, actuals, n - 1) +
      (if actuals[n - 1] != targets[n - 1] then [LineMismatch(line, n - 1, targets[n - 1], actuals[n - 1])] else [])
  }

  /** The errors the `forEach` over the first `n` entries of `colorsSums` pushes. */
  function ColorErrors(colorsSums: seq<(string, int)>, colorSums: map<string, int>, n: nat): seq<Mismatch>
    requires n <= |colorsSums|
  {
    if n == 0 then []
    else
      var (color, expectedSum) := colorsSums[n - 1];
      var actualSum := Get(colorSums, color);
      ColorErrors(colorsSums, colorSums, n - 1) +
      (if actualSum != expectedSum then [ColorMismatch(color, expectedSum, actualSum)] else [])
  }

  /** The full `errors` list for a level and its computed totals. */
  function Errors(level: Level, sums: Sums): seq<Mismatch>
    requires Shaped(level) && Shaped8(sums)
  {
    LineErrors(Row, level.rowsSum, sums.rowSums, Size) +
    LineErrors(Column, level.columnsSum, sums.colSums, Size) +
    ColorErrors(level.colorsSums, sums.colorSums, |level.colorsSums|)
  }

  /** Every row, every column and every listed colour meets its target; an absent colour reads as 0. */
  predicate Satisfied(level: Level, sums: Sums)
    requires Shaped(level) && Shaped8(sums)
  {
    && (forall r :: 0 <= r < Size ==> sums.rowSums[r] == level.rowsSum[r])
    && (forall c :: 0 <= c < Size ==> sums.colSums[c] == level.columnsSum[c])
    && (forall i :: 0 <= i < |level.colorsSums| ==> Get(sums.colorSums, level.colorsSums[i].0) == level.colorsSums[i].1)
  }

  /** `e` is an error the line loop may push: a mismatched line among the first `n`. */
  predicate IsLineError(line: Line, targets: seq<int>, actuals: seq<int>, n: nat, e: Mismatch)
    requires n <= |targets| && n <= |actuals|
  {
    e.LineMismatch? && e.line == line && 0 <= e.index < n &&
    e.expected == targets[e.index] && e.actual == actuals[e.index] && e.actual != e.expected
  }

  /** Every line error names a mismatched line, with its target and its total. */
  lemma {:induction false} LineErrorsSound(line: Line, targets: seq<int>, actuals: seq<int>, n: nat)
    requires n <= |targets| && n <= |actuals|
    ensures forall e :: e in LineErrors(line, targets, actuals, n) ==> IsLineError(line, targets, actuals, n, e)
  {
    if n > 0 {
      LineErrorsSound(line, targets, actuals, n - 1);
      forall e | e in LineErrors(line, targets, actuals, n - 1)
        ensures IsLineError(line, targets, actuals, n, e)
      {
        assert IsLineError(line, targets, actuals, n - 1, e);
      }
    }
  }

  /** Every mismatched line among the first `n` has its error. */
  lemma {:induction false} LineErrorsComplete(line: Line, targets: seq<int>, actuals: seq<int>, n: nat)
    requires n <= |targets| && n <= |actuals|
    ensures forall i :: 0 <= i < n && actuals[i] != targets[i] ==>
      LineMismatch(line, i, targets[i], actuals[i]) in LineErrors(line, targets, actuals, n)
  {
    if n > 0 {
      LineErrorsComplete(line, targets, actuals, n - 1);
      var prev := LineErrors(line, targets, actuals, n - 1);
      assert forall e :: e in prev ==> e in LineErrors(line, targets, actuals, n);
    }
  }

  /** Line errors come in strictly increasing index order, so no line is reported twice. */
  lemma {:induction false} LineErrorsSorted(line: Line, targets: seq<int>, actuals: seq<int>, n: nat)
    requires n <= |targets| && n <= |actuals|
    ensures forall a, b :: 0 <= a < b < |LineErrors(line, targets, actuals, n)| ==>
      && LineErrors(line, targets, actuals, n)[a].LineMismatch?
      && LineErrors(line, targets, actuals, n)[b].LineMismatch?
      && LineErrors(line, targets, actuals, n)[a].index < LineErrors(line, targets, actuals, n)[b].index
  {
    LineErrorsSound(line, targets, actuals, n);
    assert forall k :: 0 <= k < |LineErrors(line, targets, actuals, n)| ==>
      LineErrors(line, targets, actuals, n)[k] in LineErrors(line, targets, actuals, n);
    if n > 0 {
      LineErrorsSorted(line, targets, actuals, n - 1);
      LineErrorsSound(line, targets, actuals, n - 1);
      var prev := LineErrors(line, targets, actuals, n - 1);
      forall a | 0 <= a < |prev| ensures prev[a].LineMismatch? && prev[a].index < n - 1 {
        assert prev[a] in prev;
      }
    }
  }

  /** No line error is pushed exactly when every one of the first `n` lines meets its target. */
  lemma {:induction false} LineErrorsEmpty(line: Line, targets: seq<int>, actuals: seq<int>, n: nat)
    requires n <= |targets| && n <= |actuals|
    ensures LineErrors(line, targets, actuals, n) == [] <==> forall i :: 0 <= i < n ==> actuals[i] == targets[i]
  {
    LineErrorsComplete(line, targets, actuals, n);
    LineErrorsSound(line, targets, actuals, n);
    if LineErrors(line, targets, actuals, n) != [] {
      assert LineErrors(line, targets, actuals, n)[0] in LineErrors(line, targets, actuals, n);
    }
  }

  /** The first line error, when there is one, is at the least mismatched index. */
  lemma {:induction false} LineErrorsFirst(line: Line, targets: seq<int>, actuals: seq<int>, n: nat, k: nat)
    requires n <= |targets| && n <= |actuals| && k < n
    requires actuals[k] != targets[k] && forall i :: 0 <= i < k ==> actuals[i] == targets[i]
    ensures LineErrors(line, targets, actuals, n) != []
    ensures LineErrors(line, targets, actuals, n)[0] == LineMismatch(line, k, targets[k], actuals[k])
  {
    if n - 1 > k {
      LineErrorsFirst(line, targets, actuals, n - 1, k);
    } else {
      LineErrorsEmpty(line, targets, actuals, n - 1);
    }
  }

  /**
   * The colour errors are exactly the mismatched entries of `colorsSums`, an
   * absent colour reading as 0.
   */
  lemma {:induction false} ColorErrorsExact(colorsSums: seq<(string, int)>, colorSums: map<string, int>, n: nat)
    requires n <= |colorsSums|
    ensures forall k :: 0 <= k < |ColorErrors(colorsSums, colorSums, n)| ==>
      var e := ColorErrors(colorsSums, colorSums, n)[k];
      e.ColorMismatch? && e.actual == Get(colorSums, e.color) && e.actual != e.expected &&
      exists i :: 0 <= i < n && colorsSums[i] == (e.color, e.expected)
    ensures forall i :: 0 <= i < n && Get(colorSums, colorsSums[i].0) != colorsSums[i].1 ==>
      ColorMismatch(colorsSums[i].0, colorsSums[i].1, Get(colorSums, colorsSums[i].0)) in ColorErrors(colorsSums, colorSums, n)
    ensures ColorErrors(colorsSums, colorSums, n) == [] <==>
      forall i :: 0 <= i < n ==> Get(colorSums, colorsSums[i].0) == colorsSums[i].1
  {
    if n > 0 {
      ColorErrorsExact(colorsSums, colorSums, n - 1);
      var (color, expectedSum) := colorsSums[n - 1];
      if Get(colorSums, color) != expectedSum {
        assert ColorMismatch(color, expectedSum, Get(colorSums, color)) in ColorErrors(colorsSums, colorSums, n);
      }
    }
  }

  /** The indices of the first `n` entries of `colorsSums` whose target the colour's total misses. */
  function ColorMismatchIndices(colorsSums: seq<(string, int)>, colorSums: map<string, int>, n: nat): seq<int>
    requires n <= |colorsSums|
  {
    if n == 0 then []
    else
      ColorMismatchIndices(colorsSums, colorSums, n - 1) +
      (if Get(colorSums, colorsSums[n - 1].0) != colorsSums[n - 1].1 then [n - 1] else [])
  }

  /**
   * The mismatch indices are exactly the mismatched entries among the first `n`,
   * in strictly increasing order.
   */
  lemma {:induction false} ColorMismatchIndicesExact(colorsSums: seq<(string, int)>, colorSums: map<string, int>, n: nat)
    requires n <= |colorsSums|
    ensures forall i :: i in ColorMismatchIndices(colorsSums, colorSums, n) <==>
      0 <= i < n && Get(colorSums, colorsSums[i].0) != colorsSums[i].1
    ensures forall a, b :: 0 <= a < b < |ColorMismatchIndices(colorsSums, colorSums, n)| ==>
      ColorMismatchIndices(colorsSums, colorSums, n)[a] < ColorMismatchIndices(colorsSums, colorSums, n)[b]
  {
    if n > 0 {
      ColorMismatchIndicesExact(colorsSums, colorSums, n - 1);
      var prev := ColorMismatchIndices(colorsSums, colorSums, n - 1);
      forall a | 0 <= a < |prev| ensures prev[a] < n - 1 {
        assert prev[a] in prev;
      }
    }
  }

  /**
   * One colour error per mismatched entry of `colorsSums`, in the order of the
   * entries: error `k` is built from the `k`-th mismatched entry, so an entry
   * listed twice is reported twice.
   */
  lemma {:induction false} ColorErrorsPerEntry(colorsSums: seq<(string, int)>, colorSums: map<string, int>, n: nat)
    requires n <= |colorsSums|
    ensures var idx := ColorMismatchIndices(colorsSums, colorSums, n);
      && |ColorErrors(colorsSums, colorSums, n)| == |idx|
      && forall k :: 0 <= k < |idx| ==>
        && 0 <= idx[k] < n
        && ColorErrors(colorsSums, colorSums, n)[k] ==
          ColorMismatch(colorsSums[idx[k]].0, colorsSums[idx[k]].1, Get(colorSums, colorsSums[idx[k]].0))
  {
    if n > 0 {
      ColorErrorsPerEntry(colorsSums, colorSums, n - 1);
    }
  }

  /** A colour listed twice with no cell counted is reported twice, once per entry. */
  lemma DuplicateEntryReportedTwice()
    ensures ColorErrors([("a", 1), ("a", 1)], map[], 2) == [ColorMismatch("a", 1, 0), ColorMismatch("a", 1, 0)]
  {
  }

  /** `isCorrect` is the same as "no error was collected". */
  lemma NoErrorsIffSatisfied(level: Level, sums: Sums)
    requires Shaped(level) && Shaped8(sums)
    ensures Errors(level, sums) == [] <==> Satisfied(level, sums)
  {
    LineErrorsEmpty(Row, level.rowsSum, sums.rowSums, Size);
    LineErrorsEmpty(Column, level.columnsSum, sums.colSums, Size);
    ColorErrorsExact(level.colorsSums, sums.colorSums, |level.colorsSums|);
  }

  /** 0 for row errors, 1 for column errors, 2 for colour errors. */
  function Rank(e: Mismatch): nat
  {
    match e
    case LineMismatch(Row, _, _, _) => 0
    case LineMismatch(Column, _, _, _) => 1
    case ColorMismatch(_, _, _) => 2
  }

  /** Where each part of the error list sits in it, and the rank of each error. */
  lemma ErrorsLayout(level: Level, sums: Sums)
    requires Shaped(level) && Shaped8(sums)
    ensures var rows := LineErrors(Row, level.rowsSum, sums.rowSums, Size);
      var cols := LineErrors(Column, level.columnsSum, sums.colSums, Size);
      var all := Errors(level, sums);
      && |rows| + |cols| <= |all|
      && (forall k :: 0 <= k < |rows| ==> all[k] == rows[k] && Rank(all[k]) == 0)
      && (forall k :: |rows| <= k < |rows| + |cols| ==> all[k] == cols[k - |rows|] && Rank(all[k]) == 1)
      && (forall k :: |rows| + |cols| <= k < |all| ==> Rank(all[k]) == 2)
  {
    var rows := LineErrors(Row, level.rowsSum, sums.rowSums, Size);
    var cols := LineErrors(Column, level.columnsSum, sums.colSums, Size);
    var colors := ColorErrors(level.colorsSums, sums.colorSums, |level.colorsSums|);
    LineErrorsSound(Row, level.rowsSum, sums.rowSums, Size);
    LineErrorsSound(Column, level.columnsSum, sums.colSums, Size);
    ColorErrorsExact(level.colorsSums, sums.colorSums, |level.colorsSums|);
    var all := Errors(level, sums);
    assert all == rows + cols + colors;
    forall k | 0 <= k < |rows| ensures all[k] == rows[k] && Rank(all[k]) == 0 {
      assert rows[k] in rows;
    }
    forall k | |rows| <= k < |rows| + |cols| ensures all[k] == cols[k - |rows|] && Rank(all[k]) == 1 {
      assert cols[k - |rows|] in cols;
    }
    forall k | |rows| + |cols| <= k < |all| ensures Rank(all[k]) == 2 {
      assert all[k] == colors[k - |rows| - |cols|];
      assert colors[k - |rows| - |cols|] in colors;
    }
  }

  /** Errors come rows first, then columns, then colours, each line kind by increasing index. */
  lemma ErrorsOrdered(level: Level, sums: Sums)
    requires Shaped(level) && Shaped8(sums)
    ensures forall a, b :: 0 <= a < b < |Errors(level, sums)| ==> Rank(Errors(level, sums)[a]) <= Rank(Errors(level, sums)[b])
    ensures forall a, b :: 0 <= a < b < |Errors(level, sums)| && Rank(Errors(level, sums)[a]) == Rank(Errors(level, sums)[b]) < 2 ==>
      Errors(level, sums)[a].index < Errors(level, sums)[b].index
  {
    ErrorsLayout(level, sums);
    LineErrorsSorted(Row, level.rowsSum, sums.rowSums, Size);
    LineErrorsSorted(Column, level.columnsSum, sums.colSums, Size);
  }

  /**
   * `checkSolution`: computes the totals, then checks every row, every column
   * and every colour of `colorsSums` in that order, pushing one error per
   * mismatch.
   */
  method CheckSolution(level: Level, colorMap: map<int, string>, cellStates: array2<int>)
    returns (isCorrect: bool, errors: seq<Mismatch>)
    requires Shaped(level) && cellStates.Length0 == Size && cellStates.Length1 == Size
    ensures errors == Errors(level, CurrentSums(level, colorMap, Marks(cellStates)))
    ensures isCorrect <==> Satisfied(level, CurrentSums(level, colorMap, Marks(cellStates)))
    ensures isCorrect <==> errors == []
  {
    var sums := CalculateCurrentSums(level, colorMap, cellStates);
    var rowSums, colSums, colorSums := sums.rowSums, sums.colSums, sums.colorSums;
    isCorrect := true;
    errors := [];

    for i := 0 to Size
      invariant errors == LineErrors(Row, level.rowsSum, rowSums, i)
      invariant isCorrect <==> errors == []
    {
      if rowSums[i] != level.rowsSum[i] {
        isCorrect := false;
        errors := errors + [LineMismatch(Row, i, level.rowsSum[i], rowSums[i])];
      }
    }
    ghost var rowErrors := errors;

    for i := 0 to Size
      invariant errors == rowErrors + LineErrors(Column, level.columnsSum, colSums, i)
      invariant isCorrect <==> errors == []
    {
      if colSums[i] != level.columnsSum[i] {
        isCorrect := false;
        errors := errors + [LineMismatch(Column, i, level.columnsSum[i], colSums[i])];
      }
    }
    ghost var lineErrors := errors;

    for i := 0 to |level.colorsSums|
      invariant errors == lineErrors + ColorErrors(level.colorsSums, colorSums, i)
      invariant isCorrect <==> errors == []
    {
      var (color, expectedSum) := level.colorsSums[i];
      var actualSum := Get(colorSums, color);
      if actualSum != expectedSum {
        isCorrect := false;
        errors := errors + [ColorMismatch(color, expectedSum, actualSum)];
      }
    }
    NoErrorsIffSatisfied(level, sums);
  }
}
