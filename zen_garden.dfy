/** The zen-garden mini-game: an 8 by 8 sand grid whose cells are raked
    (set to 1) by pressing or dragging over them. */
module ZenGarden {

  const Size: nat := 8

  predicate IsCell(row: int, col: int) {
    0 <= row < Size && 0 <= col < Size
  }

  /** An 8 by 8 grid of zeros and ones. */
  predicate WellFormed(g: seq<seq<int>>) {
    |g| == Size &&
    forall r :: 0 <= r < Size ==>
      |g[r]| == Size && forall c :: 0 <= c < Size ==> g[r][c] == 0 || g[r][c] == 1
  }

  function EmptyGrid(): (g: seq<seq<int>>)
    ensures WellFormed(g)
    ensures forall r, c :: IsCell(r, c) ==> g[r][c] == 0
  {
    seq(Size, _ => seq(Size, _ => 0))
  }

  /** The grid with cell (row, col) raked and every other cell as it was. */
  function Mark(g: seq<seq<int>>, row: int, col: int): (m: seq<seq<int>>)
    requires WellFormed(g) && IsCell(row, col)
    ensures WellFormed(m)
    ensures m[row][col] == 1
    ensures forall r, c :: IsCell(r, c) && (r != row || c != col) ==> m[r][c] == g[r][c]
  {
    g[row := g[row][col := 1]]
  }

  /** The order of strokes does not matter. */
  lemma MarkCommutes(g: seq<seq<int>>, r1: int, c1: int, r2: int, c2: int)
    requires WellFormed(g) && IsCell(r1, c1) && IsCell(r2, c2)
    ensures Mark(Mark(g, r1, c1), r2, c2) == Mark(Mark(g, r2, c2), r1, c1)
  {
    var a := Mark(Mark(g, r1, c1), r2, c2);
    var b := Mark(Mark(g, r2, c2), r1, c1);
    forall r | 0 <= r < Size
      ensures a[r] == b[r]
    {
      assert |a[r]| == |b[r]|;
      forall c | 0 <= c < Size
        ensures a[r][c] == b[r][c]
      {
      }
    }
  }

  /** Raking a cell twice is raking it once. */
  lemma MarkIdempotent(g: seq<seq<int>>, row: int, col: int)
    requires WellFormed(g) && IsCell(row, col)
    ensures Mark(Mark(g, row, col), row, col) == Mark(g, row, col)
  {
    var a := Mark(Mark(g, row, col), row, col);
    var b := Mark(g, row, col);
    forall r | 0 <= r < Size
      ensures a[r] == b[r]
    {
      assert |a[r]| == |b[r]|;
    }
  }

  class ZenGardenGame {
    var pattern: seq<seq<int>>
    var isDrawing: bool

    ghost predicate Valid()
      reads this
    {
      WellFormed(pattern)
    }

    constructor ()
      ensures Valid() && pattern == EmptyGrid() && !isDrawing
    {
      pattern := EmptyGrid();
      isDrawing := false;
    }

    method HandleMouseDown(row: int, col: int)
      requires Valid() && IsCell(row, col)
      modifies this
      ensures Valid() && isDrawing
      ensures pattern == Mark(old(pattern), row, col)
    {
      isDrawing := true;
      pattern := pattern[row := pattern[row][col := 1]];
    }

    /** Dragging over a cell rakes it only while the button is held. */
    method HandleMouseEnter(row: int, col: int)
      requires Valid() && IsCell(row, col)
      modifies this
      ensures Valid() && isDrawing == old(isDrawing)
      ensures pattern == if old(isDrawing) then Mark(old(pattern), row, col) else old(pattern)
    {
      if isDrawing {
        pattern := pattern[row := pattern[row][col := 1]];
      }
    }

    /** Releasing the button, or leaving the garden, stops drawing. */
    method HandleMouseUp()
      requires Valid()
      modifies this
      ensures Valid() && !isDrawing && pattern == old(pattern)
    {
      isDrawing := false;
    }

    method ResetGarden()
      requires Valid()
      modifies this
      ensures Valid() && pattern == EmptyGrid() && isDrawing == old(isDrawing)
    {
      pattern := EmptyGrid();
    }
  }
}
