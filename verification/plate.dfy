/**
 * The plate: 16 pillars, the display mode, placement and the win check
 * (src/plate.rs). Every `impl Coord` argument of the source is given here
 * as the index its `to_num` returns: the plate reads a coordinate only
 * through `to_num`, and through `as_letter_coord`, which the trait
 * derives from `to_num`.
 */
module Plates {
  import opened Options
  import opened Player
  import opened Coord
  import opened Errors
  import opened Pillars
  import opened WinLines

  datatype TypeOfDisplay = Arthur | Victor {

    /** `TypeOfDisplay::switch`: the other of the two views. */
    function Switch(): (other: TypeOfDisplay)
      ensures other != this
    {
      match this
      case Arthur => Victor
      case Victor => Arthur
    }
  }

  /** Switching the view twice restores it. */
  lemma SwitchTwice(v: TypeOfDisplay)
    ensures v.Switch().Switch() == v
  {
  }

  datatype PreviewAction = Add | Remove

  /**
   * What a successful `add_player` does to the plate's contents: pillar k
   * receives the mark as `Pillar::add_player` places it, and no other
   * pillar changes. A full pillar is left as it is.
   */
  function Place(b: Board, k: nat, p: PlayerID): (r: Board)
    requires WellFormed(b) && k < 16 && Validated(b[k])
    ensures |r| == 16 && r[k] == Dropped(b[k], p).1
    ensures forall i :: 0 <= i < 16 && i != k ==> r[i] == b[i]
    ensures Full(b[k]) ==> r == b
  {
    b[k := Dropped(b[k], p).1]
  }

  /** `check_win` is false on the default plate: no line holds a mark. */
  lemma EmptyBoardNoWin()
    ensures !Wins(EmptyBoard())
  {
    var b := EmptyBoard();
    assert MarkedCells(b) == {};
    FewMarksNoWin(b);
  }

  /** Four marks of one player on the bottom of pillars A0..D0 (indices 0-3) make a win. */
  lemma BottomRowWins(p: PlayerID)
    requires p != Empty
    ensures WellFormed(Place(Place(Place(Place(EmptyBoard(), 0, p), 1, p), 2, p), 3, p))
    ensures Wins(Place(Place(Place(Place(EmptyBoard(), 0, p), 1, p), 2, p), 3, p))
  {
    var b := Place(Place(Place(Place(EmptyBoard(), 0, p), 1, p), 2, p), 3, p);
    var cells := Across(RowPillars(0), 2);
    assert forall j :: 0 <= j < 4 ==> b[j].slots[0] == p;
    assert Owned(b, cells, p);
    assert 0 <= 0 < 4 && 0 <= 2 < 6 && Uniform(b, Across(RowPillars(0), 2));
  }

  /** The cells of the board that hold a mark. */
  ghost function MarkedCells(b: Board): (s: set<Cell>)
    requires WellFormed(b)
    ensures forall c :: c in s <==> c.0 < 16 && c.1 < 4 && b[c.0].slots[c.1] != Empty
  {
    set k: nat, h: nat | k < 16 && h < 4 && b[k].slots[h] != Empty :: (k, h)
  }

  /** The cells are pairwise different. */
  predicate Distinct(cells: seq<Cell>) {
    forall i, j :: 0 <= i < j < |cells| ==> cells[i] != cells[j]
  }

  /** Four different cells that all hold a mark make at least four marks on the board. */
  lemma MarkedLineCount(b: Board, cells: seq<Cell>)
    requires WellFormed(b) && InBoard(cells) && |cells| == 4 && Distinct(cells)
    ensures (forall j :: 0 <= j < 4 ==> b[cells[j].0].slots[cells[j].1] != Empty) ==> |MarkedCells(b)| >= 4
  {
    if forall j :: 0 <= j < 4 ==> b[cells[j].0].slots[cells[j].1] != Empty {
      var line := {cells[0], cells[1], cells[2], cells[3]};
      assert |line| == 4;
      assert line <= MarkedCells(b);
      SubsetSize(line, MarkedCells(b));
    }
  }

  /** A subset is no larger than the set holding it. */
  lemma SubsetSize<T>(a: set<T>, b: set<T>)
    requires a <= b
    ensures |a| <= |b|
  {
    assert b == a + (b - a);
  }

  /** `check_win` is false on every board holding fewer than four marks. */
  lemma FewMarksNoWin(b: Board)
    requires WellFormed(b) && |MarkedCells(b)| < 4
    ensures !Wins(b)
  {
    FewMarksNoVertical(b);
    FewMarksNoGridLine(b);
    FewMarksNoDiagonal(b);
  }

  lemma FewMarksNoVertical(b: Board)
    requires WellFormed(b) && |MarkedCells(b)| < 4
    ensures forall k :: 0 <= k < 16 ==> !Uniform(b, Vertical(k))
  {
    forall k | 0 <= k < 16
      ensures !Uniform(b, Vertical(k))
    {
      MarkedLineCount(b, Vertical(k));
    }
  }

  lemma FewMarksNoGridLine(b: Board)
    requires WellFormed(b) && |MarkedCells(b)| < 4
    ensures forall x, c :: 0 <= x < 4 && 0 <= c < 6 ==> !Uniform(b, Across(RowPillars(x), c))
    ensures forall y, c :: 0 <= y < 4 && 0 <= c < 6 ==> !Uniform(b, Across(ColumnPillars(y), c))
  {
    forall x, c | 0 <= x < 4 && 0 <= c < 6
      ensures !Uniform(b, Across(RowPillars(x), c))
    {
      GridLineCount(b, RowPillars(x), c);
    }
    forall y, c | 0 <= y < 4 && 0 <= c < 6
      ensures !Uniform(b, Across(ColumnPillars(y), c))
    {
      GridLineCount(b, ColumnPillars(y), c);
    }
  }

  /** Four different pillars, each marked at the height pattern c gives, make four marks. */
  lemma GridLineCount(b: Board, p: seq<nat>, c: nat)
    requires WellFormed(b) && |p| == 4 && c < 6
    requires forall j :: 0 <= j < 4 ==> p[j] < 16
    requires forall i, j :: 0 <= i < j < 4 ==> p[i] != p[j]
    ensures Uniform(b, Across(p, c)) ==> |MarkedCells(b)| >= 4
  {
    var cells := Across(p, c);
    assert Distinct(cells);
    MarkedLineCount(b, cells);
  }

  lemma FewMarksNoDiagonal(b: Board)
    requires WellFormed(b) && |MarkedCells(b)| < 4
    ensures forall c :: 0 <= c < 6 ==> !Uniform(b, Across(MainDiagonal, c)) && !Uniform(b, Across(AntiDiagonal, c))
  {
    forall c | 0 <= c < 6
      ensures !Uniform(b, Across(MainDiagonal, c)) && !Uniform(b, Across(AntiDiagonal, c))
    {
      MarkedLineCount(b, Across(MainDiagonal, c));
      MarkedLineCount(b, Across(AntiDiagonal, c));
    }
  }

  /** The coordinate the plate attaches to an overflow at index k. */
  function OverflowAt(k: nat): (e: P4Error)
    requires k < 16
    ensures e.OverFilledPillar? && e.at.Some? && e.at.value.number < 4 && e.at.value.ToNum() == k
  {
    OverFilledPillar(Some(NumberCoord(k).AsLetterCoord()))
  }

  class Plate {
    var data: array<Pillar>
    var typeOfDisplay: TypeOfDisplay
    /** The contents of the 16 pillars. */
    ghost var Columns: Board
    ghost var Repr: set<object>

    ghost predicate Valid()
      reads this, Repr
      ensures Valid() ==> WellFormed(Columns)
    {
      this in Repr && data in Repr && data.Length == 16 && |Columns| == 16 &&
      (forall k :: 0 <= k < 16 ==> data[k] in Repr && data[k].data in Repr) &&
      (forall k :: 0 <= k < 16 ==> data[k].Valid() && data[k].View() == Columns[k]) &&
      (forall k, l :: 0 <= k < l < 16 ==> data[k] != data[l] && data[k].data != data[l].data)
    }

    /** `Plate::default()`: 16 default pillars, shown in the `Victor` view. */
    constructor ()
      ensures Valid() && fresh(Repr)
      ensures typeOfDisplay == Victor && Columns == EmptyBoard()
    {
      var first := new Pillar();
      var pillars := new Pillar[16](_ => first);
      ghost var objs: set<object> := {};
      for k := 0 to 16
        invariant fresh(objs) && pillars !in objs
        invariant forall i :: 0 <= i < k ==> pillars[i] in objs && pillars[i].data in objs
        invariant forall i :: 0 <= i < k ==> pillars[i].Valid() && pillars[i].View() == EmptyColumn
        invariant forall i, j :: 0 <= i < j < k ==> pillars[i] != pillars[j] && pillars[i].data != pillars[j].data
      {
        var p := new Pillar();
        pillars[k] := p;
        objs := objs + {p, p.data};
      }
      data := pillars;
      typeOfDisplay := Victor;
      new;
      Columns := EmptyBoard();
      Repr := {this, data} + objs;
    }

    /** `switch_view`: only the display mode changes. */
    method SwitchView()
      requires Valid()
      modifies this`typeOfDisplay
      ensures Valid()
      ensures typeOfDisplay == old(typeOfDisplay).Switch()
    {
      typeOfDisplay := typeOfDisplay.Switch();
    }

    /** `get_pion`: the mark at height h of pillar k. */
    function GetPion(k: nat, h: nat): (p: PlayerID)
      requires Valid() && k < 16 && h < 4
      reads this, Repr
      ensures p == Columns[k].slots[h]
    {
      data[k].GetPlayer(h)
    }

    /** `playable`: the pillar is not full. */
    predicate Playable(k: nat)
      requires Valid() && k < 16
      reads this, Repr
      ensures Playable(k) <==> !Full(Columns[k])
    {
      !data[k].IsFull()
    }

    /**
     * The checks `preview` makes before drawing: a full pillar is reported
     * as an overflow at its coordinate; otherwise the highlight is drawn,
     * which is not modelled.
     */
    function Preview(k: nat, action: PreviewAction): (st: Status)
      requires Valid() && k < 16
      reads this, Repr
      ensures st == Ok <==> Playable(k)
      ensures st != Ok ==> st == Err(OverflowAt(k))
    {
      if data[k].GetHeight() >= 4 then Err(OverflowAt(k)) else Ok
    }

    /** `get_plane`: the marks at height n across the 16 pillars, in index order. */
    method GetPlane(n: nat) returns (plane: Plane)
      requires Valid() && n < 4
      ensures |plane.data| == 16
      ensures forall i :: 0 <= i < 16 ==> plane.data[i] == Columns[i].slots[n]
    {
      var res := new PlayerID[16](_ => Empty);
      for i := 0 to 16
        invariant forall j :: 0 <= j < i ==> res[j] == Columns[j].slots[n]
      {
        res[i] := data[i].GetPlayer(n);
      }
      plane := Plane(res[..]);
    }

    /**
     * `add_player`, the one way the game changes the plate. A full
     * pillar is refused with its coordinate attached and nothing changes;
     * otherwise pillar k takes the mark and the other 15 are untouched.
     * (The source also re-labels an overflow reported by the pillar
     * itself; `Pillar.AddPlayer`'s contract shows that cannot happen
     * after the fullness check.)
     * `pl != Empty` is the `debug_assert!` of `Pillar::add_player`. On a
     * full pillar the source returns before reaching it, so an `Empty` mark
     * there would be refused without a panic; the model requires a player
     * in every case, which the game meets: its one caller (src/lib.rs:53)
     * passes the player whose turn it is, never `Empty`.
     */
    method AddPlayer(k: nat, pl: PlayerID) returns (st: Status)
      requires Valid() && k < 16 && pl != Empty
      modifies this`Columns, data[k], data[k].data
      ensures Valid() && Repr == old(Repr)
      ensures Columns == Place(old(Columns), k, pl)
      ensures st == if Full(old(Columns)[k]) then Err(OverflowAt(k)) else Ok
    {
      var pillar := data[k];
      if pillar.IsFull() {
        return Err(OverflowAt(k));
      }
      st := pillar.AddPlayer(pl);
      Columns := Columns[k := pillar.View()];
    }

    /** The marks at the given cells, read from the pillars. */
    function LineMarks(cells: seq<Cell>): (m: seq<PlayerID>)
      requires Valid() && InBoard(cells)
      reads this, Repr
      ensures m == MarksAlong(Columns, cells)
    {
      if cells == [] then [] else [GetPion(cells[0].0, cells[0].1)] + LineMarks(cells[1..])
    }

    /** One line of `check_4_origin` or `check_diag`: the selector zipped with pattern c. */
    predicate LineHolds(pillars: seq<nat>, c: nat)
      requires Valid() && c < 6
      requires forall j :: 0 <= j < |pillars| ==> pillars[j] < 16
      reads this, Repr
      ensures LineHolds(pillars, c) == LineWins(Columns, pillars, WinCombinations[c])
    {
      SelectorCellsInBoard(pillars, c);
      AllElementsIdentical(LineMarks(Zip(pillars, WinCombinations[c])))
    }

    /** `check_4_origin`: lines 0..3 of the family, each with the six patterns. */
    method Check4Origin(f: LineFamily) returns (res: bool)
      requires Valid()
      ensures res == OriginWins(Columns, f)
    {
      res := false;
      for i := 0 to 4
        invariant res <==> OriginWinsBelow(Columns, f, i)
      {
        SelectorInRange(f, i);
        ghost var before := res;
        for c := 0 to 6
          invariant res <==> before || PatternWinsBelow(Columns, LineOf(f, i), c)
        {
          var line := LineHolds(LineOf(f, i), c);
          PatternWinsStep(Columns, LineOf(f, i), c);
          res := res || line;
        }
        OriginWinsStep(Columns, f, i);
      }
    }

    /** `check_diag`: one diagonal with the six patterns. */
    method CheckDiag(d: Diagonal) returns (res: bool)
      requires Valid()
      ensures res == DiagonalWins(Columns, d)
    {
      res := false;
      for c := 0 to 6
        invariant res <==> PatternWinsBelow(Columns, DiagonalOf(d), c)
      {
        var line := LineHolds(DiagonalOf(d), c);
        PatternWinsStep(Columns, DiagonalOf(d), c);
        res := res || line;
      }
    }

    /**
     * `check_win`: a pillar of four equal marks, then the rows, the
     * columns and the two diagonals. It answers exactly whether one of the
     * 76 lines is held by a single player.
     */
    method CheckWin() returns (won: bool)
      requires Valid()
      ensures won == Wins(Columns)
      ensures won <==> HasWinningLine(Columns)
    {
      for k := 0 to 16
        invariant forall j :: 0 <= j < k ==> !AllElementsIdentical(Columns[j].slots)
      {
        if AllElementsIdentical(data[k].data[..]) {
          return true;
        }
      }
      won := Check4Origin(XLines);
      if !won {
        won := Check4Origin(YLines);
      }
      if !won {
        won := CheckDiag(FirstDiagonal);
      }
      if !won {
        won := CheckDiag(SecondDiagonal);
      }
    }
  }

  /** The line selectors only name pillars 0..15. */
  lemma SelectorInRange(f: LineFamily, i: nat)
    ensures forall j :: 0 <= j < |LineOf(f, i)| ==> LineOf(f, i)[j] < 16
  {
    var s := Strided(if f == XLines then 4 * i else i, if f == XLines then 1 else 4);
    assert f == XLines ==> LineOf(f, i) == s[..|LineOf(f, i)|];
  }

  /** Every cell a selector zips with a pattern lies on the board. */
  lemma SelectorCellsInBoard(pillars: seq<nat>, c: nat)
    requires c < 6 && forall j :: 0 <= j < |pillars| ==> pillars[j] < 16
    ensures InBoard(Zip(pillars, WinCombinations[c]))
  {
    var pattern := WinCombinations[c];
    WinCombinationsAre(c);
    var cells := Zip(pillars, pattern);
    forall j | 0 <= j < |cells|
      ensures cells[j].0 < 16 && cells[j].1 < 4
    {
      assert cells[j] == (pillars[j], pattern[j]);
    }
  }

  /** Some of the first n patterns wins along the pillars. */
  ghost predicate PatternWinsBelow(b: Board, pillars: seq<nat>, n: nat)
    requires WellFormed(b) && n <= 6
  {
    exists c :: 0 <= c < n && LineWins(b, pillars, WinCombinations[c])
  }

  /** Some line below i of the family wins with some pattern. */
  ghost predicate OriginWinsBelow(b: Board, f: LineFamily, i: nat)
    requires WellFormed(b)
  {
    exists i', c :: 0 <= i' < i && 0 <= c < 6 && LineWins(b, LineOf(f, i'), WinCombinations[c])
  }

  lemma PatternWinsStep(b: Board, pillars: seq<nat>, n: nat)
    requires WellFormed(b) && n < 6
    ensures PatternWinsBelow(b, pillars, n + 1) <==>
            PatternWinsBelow(b, pillars, n) || LineWins(b, pillars, WinCombinations[n])
  {
    if LineWins(b, pillars, WinCombinations[n]) {
      assert 0 <= n < n + 1 && LineWins(b, pillars, WinCombinations[n]);
    }
  }

  lemma OriginWinsStep(b: Board, f: LineFamily, i: nat)
    requires WellFormed(b)
    ensures OriginWinsBelow(b, f, i + 1) <==>
            OriginWinsBelow(b, f, i) || PatternWinsBelow(b, LineOf(f, i), 6)
  {
    OriginWinsGrows(b, f, i);
    OriginWinsNew(b, f, i);
  }

  lemma OriginWinsGrows(b: Board, f: LineFamily, i: nat)
    requires WellFormed(b)
    ensures OriginWinsBelow(b, f, i) || PatternWinsBelow(b, LineOf(f, i), 6) ==> OriginWinsBelow(b, f, i + 1)
  {
    if PatternWinsBelow(b, LineOf(f, i), 6) {
      var c :| 0 <= c < 6 && LineWins(b, LineOf(f, i), WinCombinations[c]);
      assert 0 <= i < i + 1 && LineWins(b, LineOf(f, i), WinCombinations[c]);
    }
  }

  lemma OriginWinsNew(b: Board, f: LineFamily, i: nat)
    requires WellFormed(b)
    ensures OriginWinsBelow(b, f, i + 1) && !OriginWinsBelow(b, f, i) ==> PatternWinsBelow(b, LineOf(f, i), 6)
  {
    if OriginWinsBelow(b, f, i + 1) && !OriginWinsBelow(b, f, i) {
      var i', c :| 0 <= i' < i + 1 && 0 <= c < 6 && LineWins(b, LineOf(f, i'), WinCombinations[c]);
      assert i' == i;
    }
  }
}
