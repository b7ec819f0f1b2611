/**
 * The win rule of src/plate.rs (lines 207-315) as functions on the board's
 * contents, in two forms:
 *  - `Wins` follows the source: iterator adaptors (`skip`, `step_by`,
 *    `take`, `zip`, `tuple_windows`) over the 16 pillars combined with the
 *    six height patterns of `WIN_COMBINATIONS`;
 *  - `HasWinningLine` is the geometry written out directly: 16 verticals,
 *    4 rows and 4 columns of the grid and its 2 diagonals, each with 6
 *    height patterns, 76 lines in all, one of which holds a single
 *    non-empty mark in all four cells.
 * The contract of `Wins` states that the two agree.
 */
module WinLines {
  import opened Player
  import opened Pillars

  /** The contents of the 16 pillars, by index. */
  type Board = seq<Column>

  /** A (pillar index, height) pair. */
  type Cell = (nat, nat)

  predicate WellFormed(b: Board) {
    |b| == 16 && forall k :: 0 <= k < 16 ==> |b[k].slots| == 4
  }

  /** The board of `Plate::default()`: 16 default pillars. */
  function EmptyBoard(): (b: Board)
    ensures WellFormed(b)
  {
    seq(16, _ => EmptyColumn)
  }

  predicate InBoard(cells: seq<Cell>) {
    forall j :: 0 <= j < |cells| ==> cells[j].0 < 16 && cells[j].1 < 4
  }

  /**
   * `all_elements_identical`: every adjacent pair (`tuple_windows`) is
   * equal and not `Empty`. Fewer than two marks give no pair, so `true`.
   */
  function AllElementsIdentical(s: seq<PlayerID>): (r: bool)
    ensures r <==> forall i :: 0 <= i < |s| - 1 ==> s[i] == s[i + 1] && s[i] != Empty
  {
    if |s| < 2 then true
    else
      var rest := AllElementsIdentical(s[1..]);
      assert forall i :: 1 <= i < |s| ==> s[1..][i - 1] == s[i];
      s[0] == s[1] && s[0] != Empty && rest
  }

  /** Two or more marks are all identical exactly when they are one non-empty mark repeated. */
  lemma {:induction false} IdenticalIffOneMark(s: seq<PlayerID>)
    requires |s| >= 2
    ensures AllElementsIdentical(s) <==> s[0] != Empty && forall i :: 0 <= i < |s| ==> s[i] == s[0]
  {
    if |s| > 2 {
      IdenticalIffOneMark(s[1..]);
      assert forall i :: 1 <= i < |s| ==> s[1..][i - 1] == s[i];
    }
  }

  /**
   * `iter().skip(start).step_by(step)` over the 16 pillars: the indices it
   * visits, from `start` on, until the next one would leave the board.
   */
  function Strided(start: nat, step: nat): (r: seq<nat>)
    requires step > 0
    ensures forall j :: 0 <= j < |r| ==> r[j] == start + j * step && r[j] < 16
    ensures |r| == 0 <==> start >= 16
    ensures |r| > 0 ==> r[|r| - 1] + step >= 16
    decreases 16 - start
  {
    if start >= 16 then [] else [start] + Strided(start + step, step)
  }

  /** `take(n)`. */
  function Take(s: seq<nat>, n: nat): (r: seq<nat>)
    ensures |r| == if |s| < n then |s| else n
    ensures r == s[..|r|]
  {
    if |s| <= n then s else s[..n]
  }

  /** `zip`: pairs up the two sequences and stops with the shorter one. */
  function Zip(a: seq<nat>, b: seq<nat>): (r: seq<Cell>)
    ensures |r| == if |a| < |b| then |a| else |b|
    ensures forall j :: 0 <= j < |r| ==> r[j] == (a[j], b[j])
  {
    if a == [] || b == [] then [] else [(a[0], b[0])] + Zip(a[1..], b[1..])
  }

  /** `WIN_COMBINATIONS`: rising, falling, then flat at heights 0 to 3. */
  const WinCombinations: seq<seq<nat>> :=
    [[0, 1, 2, 3], [3, 2, 1, 0], [0, 0, 0, 0], [1, 1, 1, 1], [2, 2, 2, 2], [3, 3, 3, 3]]

  /** The selectors passed to `check_4_origin`. */
  datatype LineFamily = XLines | YLines

  /** `get_line_x_of_pillar`: `skip(4 * x).take(4)`, the four pillars of digit x. */
  function LineX(x: nat): (r: seq<nat>)
    ensures x < 4 ==> r == RowPillars(x)
  {
    var s := Strided(4 * x, 1);
    if x < 4 then
      assert |s| >= 4 && s[..4] == RowPillars(x);
      Take(s, 4)
    else Take(s, 4)
  }

  /** `get_line_y_of_pillar`: `skip(y).step_by(4)`, the four pillars of letter y. */
  function LineY(y: nat): (r: seq<nat>)
    ensures y < 4 ==> r == ColumnPillars(y)
  {
    Strided(y, 4)
  }

  /** Line i of a family, as `check_4_origin` obtains it from its selector. */
  function LineOf(f: LineFamily, i: nat): (r: seq<nat>)
    ensures i < 4 && f == XLines ==> r == RowPillars(i)
    ensures i < 4 && f == YLines ==> r == ColumnPillars(i)
  {
    match f
    case XLines => LineX(i)
    case YLines => LineY(i)
  }

  /** The selectors passed to `check_diag`. */
  datatype Diagonal = FirstDiagonal | SecondDiagonal

  /**
   * `get_first_diagonal` is `skip(0).step_by(5)`: 0, 5, 10, 15.
   * `get_second_diagonal` is `skip(3).step_by(3)`: 3, 6, 9, 12, 15; the
   * `zip` with a four-entry pattern drops the 15.
   */
  function DiagonalOf(d: Diagonal): (r: seq<nat>)
    ensures d == FirstDiagonal ==> r == MainDiagonal
    ensures d == SecondDiagonal ==> r == AntiDiagonal + [15]
  {
    match d
    case FirstDiagonal => Strided(0, 5)
    case SecondDiagonal => Strided(3, 3)
  }

  /** The marks at the given cells: the `map(|(p, h)| p.get_player(h))`. */
  function MarksAlong(b: Board, cells: seq<Cell>): (m: seq<PlayerID>)
    requires WellFormed(b) && InBoard(cells)
    ensures |m| == |cells|
    ensures forall j :: 0 <= j < |m| ==> m[j] == b[cells[j].0].slots[cells[j].1]
  {
    if cells == [] then [] else [b[cells[0].0].slots[cells[0].1]] + MarksAlong(b, cells[1..])
  }

  /** One line of `check_4_origin` or `check_diag`: the pillars zipped with a pattern. */
  ghost predicate LineWins(b: Board, pillars: seq<nat>, pattern: seq<nat>)
    requires WellFormed(b)
  {
    var cells := Zip(pillars, pattern);
    InBoard(cells) && AllElementsIdentical(MarksAlong(b, cells))
  }

  /** The first test of `check_win`: some pillar's four slots are one player's. */
  ghost predicate VerticalWins(b: Board)
    requires WellFormed(b)
    ensures VerticalWins(b) <==> exists k :: 0 <= k < 16 && Uniform(b, Vertical(k))
  {
    PillarLinesAgree(b);
    exists k :: 0 <= k < 16 && AllElementsIdentical(b[k].slots)
  }

  /**
   * `check_4_origin`: lines 0..3 of a family, each with the six patterns.
   * It holds exactly when some row (or column) of the grid, climbed,
   * descended or flat, is one player's.
   */
  ghost predicate OriginWins(b: Board, f: LineFamily)
    requires WellFormed(b)
    ensures f == XLines ==>
            (OriginWins(b, f) <==> exists x, c :: 0 <= x < 4 && 0 <= c < 6 && Uniform(b, Across(RowPillars(x), c)))
    ensures f == YLines ==>
            (OriginWins(b, f) <==> exists y, c :: 0 <= y < 4 && 0 <= c < 6 && Uniform(b, Across(ColumnPillars(y), c)))
  {
    RowLinesAgree(b);
    ColumnLinesAgree(b);
    exists i, c :: 0 <= i < 4 && 0 <= c < 6 && LineWins(b, LineOf(f, i), WinCombinations[c])
  }

  /**
   * `check_diag`: one diagonal with the six patterns. The second
   * diagonal's fifth pillar is cut by the `zip`, so the test is about the
   * four pillars of the grid's anti-diagonal.
   */
  ghost predicate DiagonalWins(b: Board, d: Diagonal)
    requires WellFormed(b)
    ensures d == FirstDiagonal ==>
            (DiagonalWins(b, d) <==> exists c :: 0 <= c < 6 && Uniform(b, Across(MainDiagonal, c)))
    ensures d == SecondDiagonal ==>
            (DiagonalWins(b, d) <==> exists c :: 0 <= c < 6 && Uniform(b, Across(AntiDiagonal, c)))
  {
    DiagonalLinesAgree(b, d);
    exists c :: 0 <= c < 6 && LineWins(b, DiagonalOf(d), WinCombinations[c])
  }

  /**
   * `check_win`, as the source composes it. It holds exactly when one of
   * the 76 lines is held by one player.
   */
  ghost predicate Wins(b: Board)
    requires WellFormed(b)
    ensures Wins(b) <==> HasWinningLine(b)
  {
    VerticalWins(b) || OriginWins(b, XLines) || OriginWins(b, YLines) ||
    DiagonalWins(b, FirstDiagonal) || DiagonalWins(b, SecondDiagonal)
  }

  // ---------------------------------------------------------------------
  // The same lines, written out as geometry.

  /** The height at step j of pattern c: rising, falling, or flat at c - 2. */
  function PatternHeight(c: nat, j: nat): (h: nat)
    requires j < 4
  {
    if c == 0 then j else if c == 1 then 3 - j else c - 2
  }

  /** The four slots of pillar k, bottom first. */
  function Vertical(k: nat): (cells: seq<Cell>) {
    [(k, 0), (k, 1), (k, 2), (k, 3)]
  }

  /** Four pillars visited with pattern c. */
  function Across(p: seq<nat>, c: nat): (cells: seq<Cell>)
    requires |p| == 4
    ensures |cells| == 4 && forall j :: 0 <= j < 4 ==> cells[j] == (p[j], PatternHeight(c, j))
  {
    [(p[0], PatternHeight(c, 0)), (p[1], PatternHeight(c, 1)),
     (p[2], PatternHeight(c, 2)), (p[3], PatternHeight(c, 3))]
  }

  /** The pillars with digit x: indices 4x .. 4x + 3. */
  function RowPillars(x: nat): (p: seq<nat>) {
    [4 * x, 4 * x + 1, 4 * x + 2, 4 * x + 3]
  }

  /** The pillars with letter y: indices y, y + 4, y + 8, y + 12. */
  function ColumnPillars(y: nat): (p: seq<nat>) {
    [y, y + 4, y + 8, y + 12]
  }

  const MainDiagonal: seq<nat> := [0, 5, 10, 15]
  const AntiDiagonal: seq<nat> := [3, 6, 9, 12]

  /** Every cell holds mark m. */
  ghost predicate Owned(b: Board, cells: seq<Cell>, m: PlayerID)
    requires WellFormed(b) && InBoard(cells)
  {
    forall j :: 0 <= j < |cells| ==> b[cells[j].0].slots[cells[j].1] == m
  }

  /** The cells all hold one and the same non-empty mark. */
  ghost predicate Uniform(b: Board, cells: seq<Cell>)
    requires WellFormed(b)
  {
    InBoard(cells) && exists m :: m != Empty && Owned(b, cells, m)
  }

  /** Some of the 76 lines is held by one player. */
  ghost predicate HasWinningLine(b: Board)
    requires WellFormed(b)
  {
    (exists k :: 0 <= k < 16 && Uniform(b, Vertical(k))) ||
    (exists x, c :: 0 <= x < 4 && 0 <= c < 6 && Uniform(b, Across(RowPillars(x), c))) ||
    (exists y, c :: 0 <= y < 4 && 0 <= c < 6 && Uniform(b, Across(ColumnPillars(y), c))) ||
    (exists c :: 0 <= c < 6 && Uniform(b, Across(MainDiagonal, c))) ||
    (exists c :: 0 <= c < 6 && Uniform(b, Across(AntiDiagonal, c)))
  }

  // ---------------------------------------------------------------------
  // The two forms agree.

  /** Entry j of pattern c is `PatternHeight(c, j)`. */
  lemma WinCombinationsAre(c: nat)
    requires c < 6
    ensures |WinCombinations[c]| == 4
    ensures forall j :: 0 <= j < 4 ==> WinCombinations[c][j] == PatternHeight(c, j) < 4
  {
  }

  /** Zipping four pillars with a pattern gives `Across`. */
  lemma ZipPattern(p: seq<nat>, c: nat)
    requires |p| >= 4 && c < 6
    ensures Zip(p, WinCombinations[c]) == Across(p[..4], c)
  {
    WinCombinationsAre(c);
  }

  /** On four cells of the board, `all_elements_identical` is exactly "held by one player". */
  lemma IdenticalIffUniform(b: Board, cells: seq<Cell>)
    requires WellFormed(b) && InBoard(cells) && |cells| == 4
    ensures AllElementsIdentical(MarksAlong(b, cells)) <==> Uniform(b, cells)
  {
    var s := MarksAlong(b, cells);
    IdenticalIffOneMark(s);
    if Uniform(b, cells) {
      var m :| m != Empty && Owned(b, cells, m);
      assert s[0] == m;
    } else if AllElementsIdentical(s) {
      assert Owned(b, cells, s[0]);
    }
  }

  /** Each source line, zipped, is the matching geometric line. */
  lemma LineWinsIffUniform(b: Board, pillars: seq<nat>, c: nat, line: seq<nat>)
    requires WellFormed(b) && c < 6 && |pillars| >= 4 && pillars[..4] == line
    requires forall j :: 0 <= j < 4 ==> line[j] < 16
    ensures LineWins(b, pillars, WinCombinations[c]) <==> Uniform(b, Across(line, c))
  {
    ZipPattern(pillars, c);
    WinCombinationsAre(c);
    IdenticalIffUniform(b, Across(line, c));
  }

  /** Each pillar's `all_elements_identical` is its vertical line being one player's. */
  lemma PillarLinesAgree(b: Board)
    requires WellFormed(b)
    ensures forall k :: 0 <= k < 16 ==> (AllElementsIdentical(b[k].slots) <==> Uniform(b, Vertical(k)))
  {
    forall k | 0 <= k < 16
      ensures AllElementsIdentical(b[k].slots) <==> Uniform(b, Vertical(k))
    {
      assert MarksAlong(b, Vertical(k)) == b[k].slots;
      IdenticalIffUniform(b, Vertical(k));
    }
  }

  /** Line i of a family, zipped with pattern c, wins exactly when that row or column is one player's. */
  lemma GridLineAgrees(b: Board, f: LineFamily, i: nat, c: nat)
    requires WellFormed(b) && i < 4 && c < 6
    ensures f == XLines ==> (LineWins(b, LineOf(f, i), WinCombinations[c]) <==> Uniform(b, Across(RowPillars(i), c)))
    ensures f == YLines ==> (LineWins(b, LineOf(f, i), WinCombinations[c]) <==> Uniform(b, Across(ColumnPillars(i), c)))
  {
    var line := if f == XLines then RowPillars(i) else ColumnPillars(i);
    assert LineOf(f, i)[..4] == line;
    LineWinsIffUniform(b, LineOf(f, i), c, line);
  }

  /** Some x-line wins with some pattern exactly when some row of the grid is one player's. */
  lemma RowLinesAgree(b: Board)
    requires WellFormed(b)
    ensures (exists x, c :: 0 <= x < 4 && 0 <= c < 6 && LineWins(b, LineOf(XLines, x), WinCombinations[c])) <==>
            exists x, c :: 0 <= x < 4 && 0 <= c < 6 && Uniform(b, Across(RowPillars(x), c))
  {
    if exists x, c :: 0 <= x < 4 && 0 <= c < 6 && LineWins(b, LineOf(XLines, x), WinCombinations[c]) {
      var x, c :| 0 <= x < 4 && 0 <= c < 6 && LineWins(b, LineOf(XLines, x), WinCombinations[c]);
      GridLineAgrees(b, XLines, x, c);
    }
    if exists x, c :: 0 <= x < 4 && 0 <= c < 6 && Uniform(b, Across(RowPillars(x), c)) {
      var x, c :| 0 <= x < 4 && 0 <= c < 6 && Uniform(b, Across(RowPillars(x), c));
      GridLineAgrees(b, XLines, x, c);
    }
  }

  /** Some y-line wins with some pattern exactly when some column of the grid is one player's. */
  lemma ColumnLinesAgree(b: Board)
    requires WellFormed(b)
    ensures (exists y, c :: 0 <= y < 4 && 0 <= c < 6 && LineWins(b, LineOf(YLines, y), WinCombinations[c])) <==>
            exists y, c :: 0 <= y < 4 && 0 <= c < 6 && Uniform(b, Across(ColumnPillars(y), c))
  {
    if exists y, c :: 0 <= y < 4 && 0 <= c < 6 && LineWins(b, LineOf(YLines, y), WinCombinations[c]) {
      var y, c :| 0 <= y < 4 && 0 <= c < 6 && LineWins(b, LineOf(YLines, y), WinCombinations[c]);
      GridLineAgrees(b, YLines, y, c);
    }
    if exists y, c :: 0 <= y < 4 && 0 <= c < 6 && Uniform(b, Across(ColumnPillars(y), c)) {
      var y, c :| 0 <= y < 4 && 0 <= c < 6 && Uniform(b, Across(ColumnPillars(y), c));
      GridLineAgrees(b, YLines, y, c);
    }
  }

  /** Each diagonal, zipped with pattern c, wins exactly when its four grid cells are one player's. */
  lemma DiagonalLinesAgree(b: Board, d: Diagonal)
    requires WellFormed(b)
    ensures d == FirstDiagonal ==>
            forall c :: 0 <= c < 6 ==> (LineWins(b, DiagonalOf(d), WinCombinations[c]) <==> Uniform(b, Across(MainDiagonal, c)))
    ensures d == SecondDiagonal ==>
            forall c :: 0 <= c < 6 ==> (LineWins(b, DiagonalOf(d), WinCombinations[c]) <==> Uniform(b, Across(AntiDiagonal, c)))
  {
    forall c | 0 <= c < 6
      ensures d == FirstDiagonal ==> (LineWins(b, DiagonalOf(d), WinCombinations[c]) <==> Uniform(b, Across(MainDiagonal, c)))
      ensures d == SecondDiagonal ==> (LineWins(b, DiagonalOf(d), WinCombinations[c]) <==> Uniform(b, Across(AntiDiagonal, c)))
    {
      if d == FirstDiagonal {
        LineWinsIffUniform(b, DiagonalOf(d), c, MainDiagonal);
      } else {
        assert (AntiDiagonal + [15])[..4] == AntiDiagonal;
        LineWinsIffUniform(b, DiagonalOf(d), c, AntiDiagonal);
      }
    }
  }
}
