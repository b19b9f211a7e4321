/**
 * The sum engine (`calculateCurrentSums`): row, column and colour totals over
 * the cells that are not ignored.
 */
module SumEngine {
  import opened Levels
  import opened Palette
  import opened Cells

  /** The three results of `calculateCurrentSums`. */
  datatype Sums = Sums(rowSums: seq<int>, colSums: seq<int>, colorSums: map<string, int>)

  /** `colorSums[color] || 0`: a colour's total, read as 0 while it has none. */
  function Get(colorSums: map<string, int>, color: string): int
  {
    if color in colorSums then colorSums[color] else 0
  }

  predicate Inputs(level: Level, marks: seq<seq<int>>)
  {
    Shaped(level) && IsGrid(marks)
  }

  predicate Shaped8(s: Sums)
  {
    |s.rowSums| == Size && |s.colSums| == Size
  }

  /** `(r, c)` is a point the nested loops pass through, `(8, 0)` being the end. */
  predicate Position(r: nat, c: nat)
  {
    r <= Size && c <= Size && (r == Size ==> c == 0)
  }

  /** Cell `(i, j)` comes before `(r, c)` in row-major order. */
  predicate Before(i: int, j: int, r: int, c: int)
  {
    i < r || (i == r && j < c)
  }

  /** The body of the inner loop for cell `(r, c)`. */
  function Step(level: Level, colorMap: map<int, string>, marks: seq<seq<int>>, s: Sums, r: nat, c: nat): (t: Sums)
    requires Inputs(level, marks) && r < Size && c < Size && Shaped8(s)
    ensures Shaped8(t)
  {
    if marks[r][c] == Ignored then s
    else
      var value := level.boardNumbers[r][c];
      var color := ColorName(colorMap, level.boardColors[r][c]);
      Sums(s.rowSums[r := s.rowSums[r] + value],
           s.colSums[c := s.colSums[c] + value],
           s.colorSums[color := Get(s.colorSums, color) + value])
  }

  function Zeros(): (z: seq<int>)
    ensures |z| == Size && forall i :: 0 <= i < Size ==> z[i] == 0
  {
    seq(Size, _ => 0)
  }

  /** The accumulators once every cell before `(r, c)` has been visited. */
  function Fold(level: Level, colorMap: map<int, string>, marks: seq<seq<int>>, r: nat, c: nat): (s: Sums)
    requires Inputs(level, marks) && Position(r, c)
    ensures Shaped8(s)
    decreases r, c
  {
    if c > 0 then Step(level, colorMap, marks, Fold(level, colorMap, marks, r, c - 1), r, c - 1)
    else if r > 0 then Fold(level, colorMap, marks, r - 1, Size)
    else Sums(Zeros(), Zeros(), map[])
  }

  /** What `calculateCurrentSums` returns for a board and its cell states. */
  function CurrentSums(level: Level, colorMap: map<int, string>, marks: seq<seq<int>>): (s: Sums)
    requires Inputs(level, marks)
    ensures Shaped8(s)
  {
    Fold(level, colorMap, marks, Size, 0)
  }

  // Reference totals, each defined on its own.

  /** What cell `(r, c)` adds to the totals it belongs to. */
  function Contribution(level: Level, marks: seq<seq<int>>, r: nat, c: nat): int
    requires Inputs(level, marks) && r < Size && c < Size
  {
    if marks[r][c] == Ignored then 0 else level.boardNumbers[r][c]
  }

  /** The active cells of row `r` among its first `n` columns. */
  function RowTotal(level: Level, marks: seq<seq<int>>, r: nat, n: nat): int
    requires Inputs(level, marks) && r < Size && n <= Size
  {
    if n == 0 then 0 else RowTotal(level, marks, r, n - 1) + Contribution(level, marks, r, n - 1)
  }

  /** The active cells of column `c` among its first `n` rows. */
  function ColumnTotal(level: Level, marks: seq<seq<int>>, c: nat, n: nat): int
    requires Inputs(level, marks) && c < Size && n <= Size
  {
    if n == 0 then 0 else ColumnTotal(level, marks, c, n - 1) + Contribution(level, marks, n - 1, c)
  }

  /** What cell `(r, c)` adds to the total of `color`. */
  function ColorContribution(level: Level, colorMap: map<int, string>, marks: seq<seq<int>>, color: string, r: nat, c: nat): int
    requires Inputs(level, marks) && r < Size && c < Size
  {
    if marks[r][c] != Ignored && ColorName(colorMap, level.boardColors[r][c]) == color
    then level.boardNumbers[r][c] else 0
  }

  /** The active cells of `color` among the first `n` columns of row `r`. */
  function ColorRowTotal(level: Level, colorMap: map<int, string>, marks: seq<seq<int>>, color: string, r: nat, n: nat): int
    requires Inputs(level, marks) && r < Size && n <= Size
  {
    if n == 0 then 0
    else ColorRowTotal(level, colorMap, marks, color, r, n - 1) + ColorContribution(level, colorMap, marks, color, r, n - 1)
  }

  /** The active cells of `color` among the first `m` rows. */
  function ColorTotal(level: Level, colorMap: map<int, string>, marks: seq<seq<int>>, color: string, m: nat): int
    requires Inputs(level, marks) && m <= Size
  {
    if m == 0 then 0
    else ColorTotal(level, colorMap, marks, color, m - 1) + ColorRowTotal(level, colorMap, marks, color, m - 1, Size)
  }

  /** Some active cell before `(r, c)` resolves to `color`. */
  ghost predicate Colored(level: Level, colorMap: map<int, string>, marks: seq<seq<int>>, color: string, r: nat, c: nat)
    requires Inputs(level, marks)
  {
    exists i, j :: 0 <= i < Size && 0 <= j < Size && Before(i, j, r, c) &&
      marks[i][j] != Ignored && ColorName(colorMap, level.boardColors[i][j]) == color
  }

  function SeqSum(s: seq<int>): int
  {
    if s == [] then 0 else SeqSum(s[..|s| - 1]) + s[|s| - 1]
  }

  /** The sum of every active cell before `(r, c)`. */
  function ActiveTotal(level: Level, marks: seq<seq<int>>, r: nat, c: nat): int
    requires Inputs(level, marks) && Position(r, c)
    decreases r, c
  {
    if c > 0 then ActiveTotal(level, marks, r, c - 1) + Contribution(level, marks, r, c - 1)
    else if r > 0 then ActiveTotal(level, marks, r - 1, Size)
    else 0
  }

  // The fold against the reference totals.

  /** Mid-scan, each row total holds the active cells of that row visited so far. */
  lemma {:induction false} FoldRows(level: Level, colorMap: map<int, string>, marks: seq<seq<int>>, r: nat, c: nat)
    requires Inputs(level, marks) && Position(r, c)
    ensures forall i :: 0 <= i < Size ==>
      Fold(level, colorMap, marks, r, c).rowSums[i] ==
        if i < r then RowTotal(level, marks, i, Size) else if i == r then RowTotal(level, marks, i, c) else 0
    decreases r, c
  {
    if c > 0 {
      FoldRows(level, colorMap, marks, r, c - 1);
      assert Fold(level, colorMap, marks, r, c) == Step(level, colorMap, marks, Fold(level, colorMap, marks, r, c - 1), r, c - 1);
    } else if r > 0 {
      FoldRows(level, colorMap, marks, r - 1, Size);
    }
  }

  /** Mid-scan, each column total holds the active cells of that column visited so far. */
  lemma {:induction false} FoldColumns(level: Level, colorMap: map<int, string>, marks: seq<seq<int>>, r: nat, c: nat)
    requires Inputs(level, marks) && Position(r, c)
    ensures forall j :: 0 <= j < Size ==>
      Fold(level, colorMap, marks, r, c).colSums[j] ==
        ColumnTotal(level, marks, j, if j < c then r + 1 else r)
    decreases r, c
  {
    if c > 0 {
      FoldColumns(level, colorMap, marks, r, c - 1);
      assert Fold(level, colorMap, marks, r, c) == Step(level, colorMap, marks, Fold(level, colorMap, marks, r, c - 1), r, c - 1);
    } else if r > 0 {
      FoldColumns(level, colorMap, marks, r - 1, Size);
    }
  }

  /** Mid-scan, each colour total holds the active cells of that colour visited so far. */
  lemma {:induction false} FoldColorValues(level: Level, colorMap: map<int, string>, marks: seq<seq<int>>, r: nat, c: nat)
    requires Inputs(level, marks) && Position(r, c)
    ensures forall color ::
      Get(Fold(level, colorMap, marks, r, c).colorSums, color) ==
        ColorTotal(level, colorMap, marks, color, r) + (if r < Size then ColorRowTotal(level, colorMap, marks, color, r, c) else 0)
    decreases r, c
  {
    if c > 0 {
      FoldColorValues(level, colorMap, marks, r, c - 1);
    } else if r > 0 {
      FoldColorValues(level, colorMap, marks, r - 1, Size);
    }
  }

  /** Mid-scan, a colour has an entry exactly when some active cell of that colour has been visited. */
  lemma {:induction false} FoldColorKeys(level: Level, colorMap: map<int, string>, marks: seq<seq<int>>, r: nat, c: nat)
    requires Inputs(level, marks) && Position(r, c)
    ensures forall color :: color in Fold(level, colorMap, marks, r, c).colorSums <==> Colored(level, colorMap, marks, color, r, c)
    decreases r, c
  {
    var s := Fold(level, colorMap, marks, r, c);
    if c > 0 {
      FoldColorKeys(level, colorMap, marks, r, c - 1);
      forall color ensures color in s.colorSums <==> Colored(level, colorMap, marks, color, r, c) {
        if Colored(level, colorMap, marks, color, r, c) {
          var i, j :| 0 <= i < Size && 0 <= j < Size && Before(i, j, r, c) &&
            marks[i][j] != Ignored && ColorName(colorMap, level.boardColors[i][j]) == color;
          if Before(i, j, r, c - 1) {
            assert Colored(level, colorMap, marks, color, r, c - 1);
          }
        }
        if color in s.colorSums && !(marks[r][c - 1] != Ignored && ColorName(colorMap, level.boardColors[r][c - 1]) == color) {
          assert Colored(level, colorMap, marks, color, r, c - 1);
          var i, j :| 0 <= i < Size && 0 <= j < Size && Before(i, j, r, c - 1) &&
            marks[i][j] != Ignored && ColorName(colorMap, level.boardColors[i][j]) == color;
          assert Before(i, j, r, c);
        }
      }
    } else if r > 0 {
      FoldColorKeys(level, colorMap, marks, r - 1, Size);
      forall color ensures Colored(level, colorMap, marks, color, r, 0) <==> Colored(level, colorMap, marks, color, r - 1, Size) {
        if Colored(level, colorMap, marks, color, r, 0) {
          var i, j :| 0 <= i < Size && 0 <= j < Size && Before(i, j, r, 0) &&
            marks[i][j] != Ignored && ColorName(colorMap, level.boardColors[i][j]) == color;
          assert Before(i, j, r - 1, Size);
        }
        if Colored(level, colorMap, marks, color, r - 1, Size) {
          var i, j :| 0 <= i < Size && 0 <= j < Size && Before(i, j, r - 1, Size) &&
            marks[i][j] != Ignored && ColorName(colorMap, level.boardColors[i][j]) == color;
          assert Before(i, j, r, 0);
        }
      }
    }
  }

  /** `calculateCurrentSums` in full, read against the reference totals. */
  lemma CurrentSumsMeaning(level: Level, colorMap: map<int, string>, marks: seq<seq<int>>)
    requires Inputs(level, marks)
    ensures forall r :: 0 <= r < Size ==> CurrentSums(level, colorMap, marks).rowSums[r] == RowTotal(level, marks, r, Size)
    ensures forall c :: 0 <= c < Size ==> CurrentSums(level, colorMap, marks).colSums[c] == ColumnTotal(level, marks, c, Size)
    ensures forall color :: color in CurrentSums(level, colorMap, marks).colorSums <==> Colored(level, colorMap, marks, color, Size, 0)
    ensures forall color :: Get(CurrentSums(level, colorMap, marks).colorSums, color) == ColorTotal(level, colorMap, marks, color, Size)
  {
    FoldRows(level, colorMap, marks, Size, 0);
    FoldColumns(level, colorMap, marks, Size, 0);
    FoldColorValues(level, colorMap, marks, Size, 0);
    FoldColorKeys(level, colorMap, marks, Size, 0);
  }

  // Sum of the values of a map.

  ghost function Pick(m: map<string, int>): (k: string)
    requires m != map[]
    ensures k in m
  {
    var k :| k in m; k
  }

  ghost function MapSum(m: map<string, int>): int
    decreases |m|
  {
    if m == map[] then 0
    else
      var k := Pick(m);
      assert |m - {k}| < |m| by { assert m.Keys == (m - {k}).Keys + {k}; }
      m[k] + MapSum(m - {k})
  }

  lemma {:induction false} MapSumRemove(m: map<string, int>, x: string)
    requires x in m
    ensures MapSum(m) == m[x] + MapSum(m - {x})
    decreases |m|
  {
    var k := Pick(m);
    if k != x {
      assert m.Keys == (m - {k}).Keys + {k};
      assert m.Keys == (m - {x}).Keys + {x};
      MapSumRemove(m - {k}, x);
      MapSumRemove(m - {x}, k);
      assert m - {k} - {x} == m - {x} - {k};
    }
  }

  lemma MapSumAdd(m: map<string, int>, key: string, value: int)
    ensures MapSum(m[key := Get(m, key) + value]) == MapSum(m) + value
  {
    var m' := m[key := Get(m, key) + value];
    MapSumRemove(m', key);
    assert m' - {key} == m - {key};
    if key in m {
      MapSumRemove(m, key);
    } else {
      assert m - {key} == m;
    }
  }

  lemma {:induction false} SeqSumAdd(s: seq<int>, i: nat, value: int)
    requires i < |s|
    ensures SeqSum(s[i := s[i] + value]) == SeqSum(s) + value
    decreases |s|
  {
    var t := s[i := s[i] + value];
    assert t[..|t| - 1] == if i == |s| - 1 then s[..|s| - 1] else s[..|s| - 1][i := s[i] + value];
    if i < |s| - 1 {
      SeqSumAdd(s[..|s| - 1], i, value);
    }
  }

  lemma {:induction false} SeqSumZeros(n: nat)
    ensures SeqSum(seq(n, _ => 0)) == 0
  {
    if n > 0 {
      assert seq(n, _ => 0)[..n - 1] == seq(n - 1, _ => 0);
      SeqSumZeros(n - 1);
    }
  }

  /** The row totals add up to the sum of every active cell visited so far. */
  lemma {:induction false} FoldRowsTotal(level: Level, colorMap: map<int, string>, marks: seq<seq<int>>, r: nat, c: nat)
    requires Inputs(level, marks) && Position(r, c)
    ensures SeqSum(Fold(level, colorMap, marks, r, c).rowSums) == ActiveTotal(level, marks, r, c)
    decreases r, c
  {
    if c > 0 {
      FoldRowsTotal(level, colorMap, marks, r, c - 1);
      var s := Fold(level, colorMap, marks, r, c - 1);
      assert Fold(level, colorMap, marks, r, c) == Step(level, colorMap, marks, s, r, c - 1);
      if marks[r][c - 1] != Ignored {
        SeqSumAdd(s.rowSums, r, level.boardNumbers[r][c - 1]);
      }
    } else if r > 0 {
      FoldRowsTotal(level, colorMap, marks, r - 1, Size);
    } else {
      SeqSumZeros(Size);
    }
  }

  /** The column totals add up to the sum of every active cell visited so far. */
  lemma {:induction false} FoldColumnsTotal(level: Level, colorMap: map<int, string>, marks: seq<seq<int>>, r: nat, c: nat)
    requires Inputs(level, marks) && Position(r, c)
    ensures SeqSum(Fold(level, colorMap, marks, r, c).colSums) == ActiveTotal(level, marks, r, c)
    decreases r, c
  {
    if c > 0 {
      FoldColumnsTotal(level, colorMap, marks, r, c - 1);
      var s := Fold(level, colorMap, marks, r, c - 1);
      assert Fold(level, colorMap, marks, r, c) == Step(level, colorMap, marks, s, r, c - 1);
      if marks[r][c - 1] != Ignored {
        SeqSumAdd(s.colSums, c - 1, level.boardNumbers[r][c - 1]);
      }
    } else if r > 0 {
      FoldColumnsTotal(level, colorMap, marks, r - 1, Size);
    } else {
      SeqSumZeros(Size);
    }
  }

  /** One cell of the scan adds its contribution to the sum of the colour totals. */
  lemma FoldColorsStep(level: Level, colorMap: map<int, string>, marks: seq<seq<int>>, r: nat, c: nat)
    requires Inputs(level, marks) && r < Size && c < Size
    ensures MapSum(Fold(level, colorMap, marks, r, c + 1).colorSums) ==
      MapSum(Fold(level, colorMap, marks, r, c).colorSums) + Contribution(level, marks, r, c)
  {
    var s := Fold(level, colorMap, marks, r, c);
    assert Fold(level, colorMap, marks, r, c + 1) == Step(level, colorMap, marks, s, r, c);
    if marks[r][c] != Ignored {
      var color := ColorName(colorMap, level.boardColors[r][c]);
      MapSumAdd(s.colorSums, color, level.boardNumbers[r][c]);
    }
  }

  /** The colour totals add up to the sum of every active cell visited so far. */
  lemma {:induction false} FoldColorsTotal(level: Level, colorMap: map<int, string>, marks: seq<seq<int>>, r: nat, c: nat)
    requires Inputs(level, marks) && Position(r, c)
    ensures MapSum(Fold(level, colorMap, marks, r, c).colorSums) == ActiveTotal(level, marks, r, c)
    decreases r, c
  {
    if c > 0 {
      FoldColorsTotal(level, colorMap, marks, r, c - 1);
      FoldColorsStep(level, colorMap, marks, r, c - 1);
    } else if r > 0 {
      FoldColorsTotal(level, colorMap, marks, r - 1, Size);
    }
  }

  /**
   * Each active cell goes into one row total, one column total and one colour
   * total, so the three kinds of totals add up to the same grand total.
   */
  lemma SumsAgree(level: Level, colorMap: map<int, string>, marks: seq<seq<int>>)
    requires Inputs(level, marks)
    ensures SeqSum(CurrentSums(level, colorMap, marks).rowSums) == SeqSum(CurrentSums(level, colorMap, marks).colSums)
    ensures SeqSum(CurrentSums(level, colorMap, marks).rowSums) == MapSum(CurrentSums(level, colorMap, marks).colorSums)
  {
    FoldRowsTotal(level, colorMap, marks, Size, 0);
    FoldColumnsTotal(level, colorMap, marks, Size, 0);
    FoldColorsTotal(level, colorMap, marks, Size, 0);
  }

  // Boards with nothing ignored and with everything ignored.

  predicate NoneIgnored(marks: seq<seq<int>>)
    requires IsGrid(marks)
  {
    forall r, c :: 0 <= r < Size && 0 <= c < Size ==> marks[r][c] != Ignored
  }

  predicate AllIgnored(marks: seq<seq<int>>)
    requires IsGrid(marks)
  {
    forall r, c :: 0 <= r < Size && 0 <= c < Size ==> marks[r][c] == Ignored
  }

  /** Column `c` of a grid of numbers. */
  function Column(g: seq<seq<int>>, c: nat): (col: seq<int>)
    requires IsGrid(g) && c < Size
    ensures |col| == Size && forall r :: 0 <= r < Size ==> col[r] == g[r][c]
  {
    seq(Size, r requires 0 <= r < Size => g[r][c])
  }

  lemma {:induction false} RowTotalNoneIgnored(level: Level, marks: seq<seq<int>>, r: nat, n: nat)
    requires Inputs(level, marks) && NoneIgnored(marks) && r < Size && n <= Size
    ensures RowTotal(level, marks, r, n) == SeqSum(level.boardNumbers[r][..n])
  {
    if n > 0 {
      RowTotalNoneIgnored(level, marks, r, n - 1);
      assert level.boardNumbers[r][..n][..n - 1] == level.boardNumbers[r][..n - 1];
    }
  }

  lemma {:induction false} ColumnTotalNoneIgnored(level: Level, marks: seq<seq<int>>, c: nat, n: nat)
    requires Inputs(level, marks) && NoneIgnored(marks) && c < Size && n <= Size
    ensures ColumnTotal(level, marks, c, n) == SeqSum(Column(level.boardNumbers, c)[..n])
  {
    if n > 0 {
      ColumnTotalNoneIgnored(level, marks, c, n - 1);
      assert Column(level.boardNumbers, c)[..n][..n - 1] == Column(level.boardNumbers, c)[..n - 1];
    }
  }

  /** With no cell ignored, every row and column total is the whole row or column of the board. */
  lemma NoneIgnoredFullTotals(level: Level, colorMap: map<int, string>, marks: seq<seq<int>>)
    requires Inputs(level, marks) && NoneIgnored(marks)
    ensures forall r :: 0 <= r < Size ==> CurrentSums(level, colorMap, marks).rowSums[r] == SeqSum(level.boardNumbers[r])
    ensures forall c :: 0 <= c < Size ==> CurrentSums(level, colorMap, marks).colSums[c] == SeqSum(Column(level.boardNumbers, c))
  {
    CurrentSumsMeaning(level, colorMap, marks);
    forall r | 0 <= r < Size ensures CurrentSums(level, colorMap, marks).rowSums[r] == SeqSum(level.boardNumbers[r]) {
      RowTotalNoneIgnored(level, marks, r, Size);
      assert level.boardNumbers[r][..Size] == level.boardNumbers[r];
    }
    forall c | 0 <= c < Size ensures CurrentSums(level, colorMap, marks).colSums[c] == SeqSum(Column(level.boardNumbers, c)) {
      ColumnTotalNoneIgnored(level, marks, c, Size);
      assert Column(level.boardNumbers, c)[..Size] == Column(level.boardNumbers, c);
    }
  }

  lemma {:induction false} RowTotalAllIgnored(level: Level, marks: seq<seq<int>>, r: nat, n: nat)
    requires Inputs(level, marks) && AllIgnored(marks) && r < Size && n <= Size
    ensures RowTotal(level, marks, r, n) == 0
  {
    if n > 0 { RowTotalAllIgnored(level, marks, r, n - 1); }
  }

  lemma {:induction false} ColumnTotalAllIgnored(level: Level, marks: seq<seq<int>>, c: nat, n: nat)
    requires Inputs(level, marks) && AllIgnored(marks) && c < Size && n <= Size
    ensures ColumnTotal(level, marks, c, n) == 0
  {
    if n > 0 { ColumnTotalAllIgnored(level, marks, c, n - 1); }
  }

  /** With every cell ignored, all totals are 0 and no colour has a total at all. */
  lemma AllIgnoredZero(level: Level, colorMap: map<int, string>, marks: seq<seq<int>>)
    requires Inputs(level, marks) && AllIgnored(marks)
    ensures forall r :: 0 <= r < Size ==> CurrentSums(level, colorMap, marks).rowSums[r] == 0
    ensures forall c :: 0 <= c < Size ==> CurrentSums(level, colorMap, marks).colSums[c] == 0
    ensures CurrentSums(level, colorMap, marks).colorSums == map[]
  {
    CurrentSumsMeaning(level, colorMap, marks);
    forall r | 0 <= r < Size ensures RowTotal(level, marks, r, Size) == 0 {
      RowTotalAllIgnored(level, marks, r, Size);
    }
    forall c | 0 <= c < Size ensures ColumnTotal(level, marks, c, Size) == 0 {
      ColumnTotalAllIgnored(level, marks, c, Size);
    }
    assert forall color :: !Colored(level, colorMap, marks, color, Size, 0);
    assert CurrentSums(level, colorMap, marks).colorSums.Keys == {};
  }

  /** Circled and default cells count alike: only which cells are ignored matters. */
  lemma {:induction false} OnlyIgnoredMatters(level: Level, colorMap: map<int, string>, m1: seq<seq<int>>, m2: seq<seq<int>>, r: nat, c: nat)
    requires Inputs(level, m1) && Inputs(level, m2) && Position(r, c)
    requires forall i, j :: 0 <= i < Size && 0 <= j < Size ==> (m1[i][j] == Ignored <==> m2[i][j] == Ignored)
    ensures Fold(level, colorMap, m1, r, c) == Fold(level, colorMap, m2, r, c)
    decreases r, c
  {
    if c > 0 {
      OnlyIgnoredMatters(level, colorMap, m1, m2, r, c - 1);
      var s := Fold(level, colorMap, m1, r, c - 1);
      assert m1[r][c - 1] == Ignored <==> m2[r][c - 1] == Ignored;
      assert Step(level, colorMap, m1, s, r, c - 1) == Step(level, colorMap, m2, s, r, c - 1);
    } else if r > 0 {
      OnlyIgnoredMatters(level, colorMap, m1, m2, r - 1, Size);
    }
  }

  /** One more cell of the inner loop: an ignored cell changes nothing, any other adds its value to three totals. */
  lemma FoldNext(level: Level, colorMap: map<int, string>, marks: seq<seq<int>>, r: nat, c: nat)
    requires Inputs(level, marks) && r < Size && c < Size
    ensures var s := Fold(level, colorMap, marks, r, c);
      marks[r][c] == Ignored ==> Fold(level, colorMap, marks, r, c + 1) == s
    ensures var s := Fold(level, colorMap, marks, r, c);
      var value := level.boardNumbers[r][c];
      var color := ColorName(colorMap, level.boardColors[r][c]);
      marks[r][c] != Ignored ==>
        Fold(level, colorMap, marks, r, c + 1) ==
          Sums(s.rowSums[r := s.rowSums[r] + value], s.colSums[c := s.colSums[c] + value],
               s.colorSums[color := Get(s.colorSums, color) + value])
  {
    assert Fold(level, colorMap, marks, r, c + 1) == Step(level, colorMap, marks, Fold(level, colorMap, marks, r, c), r, c);
  }

  /** Finishing a row is starting the next one. */
  lemma FoldNextRow(level: Level, colorMap: map<int, string>, marks: seq<seq<int>>, r: nat)
    requires Inputs(level, marks) && r < Size
    ensures Fold(level, colorMap, marks, r + 1, 0) == Fold(level, colorMap, marks, r, Size)
  {
  }

  /**
   * `calculateCurrentSums`: two nested loops over the board that add the value of
   * every cell not ignored to its row total, its column total and the total of
   * its colour. What the result means is `CurrentSumsMeaning`.
   */
  method CalculateCurrentSums(level: Level, colorMap: map<int, string>, cellStates: array2<int>) returns (sums: Sums)
    requires Shaped(level) && cellStates.Length0 == Size && cellStates.Length1 == Size
    ensures sums == CurrentSums(level, colorMap, Marks(cellStates))
  {
    ghost var marks := Marks(cellStates);
    var rowSums := seq(Size, _ => 0);
    var colSums := seq(Size, _ => 0);
    var colorSums: map<string, int> := map[];
    for row := 0 to Size
      invariant |rowSums| == Size && |colSums| == Size
      invariant rowSums == Fold(level, colorMap, marks, row, 0).rowSums
      invariant colSums == Fold(level, colorMap, marks, row, 0).colSums
      invariant colorSums == Fold(level, colorMap, marks, row, 0).colorSums
    {
      for col := 0 to Size
        invariant |rowSums| == Size && |colSums| == Size
        invariant rowSums == Fold(level, colorMap, marks, row, col).rowSums
        invariant colSums == Fold(level, colorMap, marks, row, col).colSums
        invariant colorSums == Fold(level, colorMap, marks, row, col).colorSums
      {
        assert cellStates[row, col] == marks[row][col];
        FoldNext(level, colorMap, marks, row, col);
        if cellStates[row, col] != Ignored {
          var value := level.boardNumbers[row][col];
          var colorId := level.boardColors[row][col];
          var color := ColorName(colorMap, colorId);
          rowSums := rowSums[row := rowSums[row] + value];
          colSums := colSums[col := colSums[col] + value];
          colorSums := colorSums[color := Get(colorSums, color) + value];
        }
      }
      FoldNextRow(level, colorMap, marks, row);
    }
    sums := Sums(rowSums, colSums, colorSums);
  }

  // Colour totals by colour id, for palettes whose names are distinct.

  ghost predicate DistinctNames(colorsSums: seq<(string, int)>)
  {
    forall i, j :: 0 <= i < j < |colorsSums| ==> colorsSums[i].0 != colorsSums[j].0
  }

  /** The active cells of colour id `id` among the first `n` columns of row `r`. */
  function IdRowTotal(level: Level, marks: seq<seq<int>>, id: int, r: nat, n: nat): int
    requires Inputs(level, marks) && r < Size && n <= Size
  {
    if n == 0 then 0
    else
      IdRowTotal(level, marks, id, r, n - 1) +
      (if marks[r][n - 1] != Ignored && level.boardColors[r][n - 1] == id then level.boardNumbers[r][n - 1] else 0)
  }

  /** The active cells of colour id `id` among the first `m` rows. */
  function IdTotal(level: Level, marks: seq<seq<int>>, id: int, m: nat): int
    requires Inputs(level, marks) && m <= Size
  {
    if m == 0 then 0 else IdTotal(level, marks, id, m - 1) + IdRowTotal(level, marks, id, m - 1, Size)
  }

  lemma {:induction false} ColorRowTotalById(level: Level, colorMap: map<int, string>, marks: seq<seq<int>>, id: int, r: nat, n: nat)
    requires WellFormed(level) && IsGrid(marks) && r < Size && n <= Size
    requires IsColorMapOf(colorMap, level.colorsSums) && DistinctNames(level.colorsSums)
    requires 1 <= id <= |level.colorsSums|
    ensures ColorRowTotal(level, colorMap, marks, level.colorsSums[id - 1].0, r, n) == IdRowTotal(level, marks, id, r, n)
  {
    if n > 0 {
      ColorRowTotalById(level, colorMap, marks, id, r, n - 1);
      var boardId := level.boardColors[r][n - 1];
      ResolvesInRange(colorMap, level.colorsSums, boardId);
      assert ColorName(colorMap, boardId) == level.colorsSums[id - 1].0 <==> boardId == id;
    }
  }

  /** With distinct colour names, the total of a colour is the total of the cells of its id. */
  lemma {:induction false} ColorTotalById(level: Level, colorMap: map<int, string>, marks: seq<seq<int>>, id: int, m: nat)
    requires WellFormed(level) && IsGrid(marks) && m <= Size
    requires IsColorMapOf(colorMap, level.colorsSums) && DistinctNames(level.colorsSums)
    requires 1 <= id <= |level.colorsSums|
    ensures ColorTotal(level, colorMap, marks, level.colorsSums[id - 1].0, m) == IdTotal(level, marks, id, m)
  {
    if m > 0 {
      ColorTotalById(level, colorMap, marks, id, m - 1);
      ColorRowTotalById(level, colorMap, marks, id, m - 1, Size);
    }
  }
}
