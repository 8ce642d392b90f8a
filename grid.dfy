/** The 5 x 4 grid of compound tiles: the arrow-key rule that moves the
    selection and `get_tile_rect`, the tile each index is drawn in. */
module Grid {
  import opened Numeric

  const WindowWidth: int := 1600
  const WindowHeight: int := 900
  const GridCols: int := 5
  const GridRows: int := 4
  const TileCount: int := 20
  const Padding: int := 14

  /** The four arrow keys. */
  datatype Arrow = LeftKey | RightKey | UpKey | DownKey

  function Row(index: int): int { CDiv(index, GridCols) }
  function Col(index: int): int { CMod(index, GridCols) }

  /** One arrow key while the grid is shown: LEFT and RIGHT stop at the row's
      ends, UP and DOWN stop at the grid's top and bottom. */
  function Navigate(index: int, key: Arrow): (r: int)
  {
    match key
    case LeftKey => if Col(index) == 0 then index else index - 1
    case RightKey => if Col(index) == GridCols - 1 then index else index + 1
    case UpKey => if index - GridCols >= 0 then index - GridCols else index
    case DownKey => if index + GridCols < TileCount then index + GridCols else index
  }

  /** A valid selection stays valid, and it moves by at most one tile. */
  lemma NavigateInRange(index: int, key: Arrow)
    requires 0 <= index < TileCount
    ensures 0 <= Navigate(index, key) < TileCount
    ensures var r := Navigate(index, key);
      r == index || r == index - 1 || r == index + 1 || r == index - GridCols || r == index + GridCols
  {
  }

  /** LEFT and RIGHT never leave the row; UP and DOWN never leave the column. */
  lemma NavigateKeepsLine(index: int, key: Arrow)
    requires 0 <= index < TileCount
    ensures key == LeftKey || key == RightKey ==> Row(Navigate(index, key)) == Row(index)
    ensures key == UpKey || key == DownKey ==> Col(Navigate(index, key)) == Col(index)
  {
  }

  /** Exactly when a move is possible, the key moves the selection. */
  lemma NavigateMoves(index: int)
    requires 0 <= index < TileCount
    ensures Navigate(index, LeftKey) != index <==> index % GridCols != 0
    ensures Navigate(index, RightKey) != index <==> index % GridCols != GridCols - 1
    ensures Navigate(index, UpKey) != index <==> index >= GridCols
    ensures Navigate(index, DownKey) != index <==> index < TileCount - GridCols
  {
  }

  /** A move that happens can be undone by the opposite key. */
  lemma NavigateUndo(index: int, key: Arrow)
    requires 0 <= index < TileCount
    ensures key == LeftKey && Navigate(index, key) != index ==> Navigate(Navigate(index, key), RightKey) == index
    ensures key == RightKey && Navigate(index, key) != index ==> Navigate(Navigate(index, key), LeftKey) == index
    ensures key == UpKey && Navigate(index, key) != index ==> Navigate(Navigate(index, key), DownKey) == index
    ensures key == DownKey && Navigate(index, key) != index ==> Navigate(Navigate(index, key), UpKey) == index
  {
  }

  /** `RectI`. */
  datatype Rect = Rect(x: int, y: int, w: int, h: int)

  /** The width and height every tile gets: the window minus six (five)
      paddings, shared among five columns (four rows), truncated. */
  const TileW: int := CDiv(WindowWidth - Padding * (GridCols + 1), GridCols)
  const TileH: int := CDiv(WindowHeight - Padding * (GridRows + 1), GridRows)

  /** `get_tile_rect(index)`. */
  function TileRect(index: int): (r: Rect)
    ensures r.w == 303 && r.h == 207
  {
    Rect(Padding + Col(index) * (TileW + Padding), Padding + Row(index) * (TileH + Padding), TileW, TileH)
  }

  predicate InsideWindow(r: Rect) {
    0 <= r.x && r.x + r.w <= WindowWidth && 0 <= r.y && r.y + r.h <= WindowHeight
  }

  predicate Disjoint(a: Rect, b: Rect) {
    a.x + a.w <= b.x || b.x + b.w <= a.x || a.y + a.h <= b.y || b.y + b.h <= a.y
  }

  /** Every tile of the grid lies inside the window at least one padding
      away from its right and bottom edges. */
  lemma TileInsideWindow(index: int)
    requires 0 <= index < TileCount
    ensures InsideWindow(TileRect(index))
    ensures TileRect(index).x + TileRect(index).w + Padding <= WindowWidth
    ensures TileRect(index).y + TileRect(index).h + Padding <= WindowHeight
  {
  }

  /** Different tiles do not overlap; neighbours are a padding apart. */
  lemma TilesDisjoint(i: int, j: int)
    requires 0 <= i < TileCount && 0 <= j < TileCount && i != j
    ensures Disjoint(TileRect(i), TileRect(j))
  {
    assert Row(i) != Row(j) || Col(i) != Col(j);
  }
}
