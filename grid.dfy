/** The application grid of pyafc.py and pyside6afc.py: an error label, an
    empty label, or one tile per application, sorted by lowered name and
    laid out row by row over as many 110-pixel columns as fit. */
module Grid {
  import opened Device
  import opened Ordering
  import opened AppRows

  /** The width one tile is assumed to take. */
  const ItemWidth: int := 110

  const NoAppsLabel: string := "No applications found."
  const ErrorLabelPrefix: string := "Error listing apps:\n"

  /** The width the layout uses: the grid's own width, or the tab's width
      less 30 when the grid reports 10 pixels or less (not laid out yet). */
  function LayoutWidth(gridWidth: int, tabWidth: int): (w: int)
    ensures gridWidth > 10 ==> w == gridWidth
    ensures gridWidth <= 10 ==> w == tabWidth - 30
  {
    if gridWidth <= 10 then tabWidth - 30 else gridWidth
  }

  /** `max(1, int(max(110, width) / 110))`: the most whole tiles that fit
      in the width, and at least one. */
  function Columns(width: int): (cols: int)
    ensures cols >= 1
    ensures width <= ItemWidth ==> cols == 1
    ensures width > ItemWidth ==> cols * ItemWidth <= width < (cols + 1) * ItemWidth
  {
    var w := if width < ItemWidth then ItemWidth else width;
    w / ItemWidth
  }

  datatype Cell = Cell(row: nat, col: nat)

  /** `(i // cols, i % cols)` */
  function CellOf(i: nat, cols: int): (c: Cell)
    requires cols >= 1
    ensures c.col < cols
    ensures c.row * cols + c.col == i
  {
    Cell(i / cols, i % cols)
  }

  /** Different tiles never share a cell. */
  lemma CellsDistinct(i: nat, j: nat, cols: int)
    requires cols >= 1 && i != j
    ensures CellOf(i, cols) != CellOf(j, cols)
  {
  }

  /** The cells fill rows from the left: a tile's right neighbour is the
      next tile, and the tile after the last column opens the next row. */
  lemma CellsInReadingOrder(i: nat, cols: int)
    requires cols >= 1
    ensures CellOf(i, cols).col + 1 < cols ==>
      CellOf(i + 1, cols) == Cell(CellOf(i, cols).row, CellOf(i, cols).col + 1)
    ensures CellOf(i, cols).col + 1 == cols ==> CellOf(i + 1, cols) == Cell(CellOf(i, cols).row + 1, 0)
  {
    var c := CellOf(i, cols);
    var d := CellOf(i + 1, cols);
    if c.col + 1 < cols {
      assert i + 1 == c.row * cols + (c.col + 1);
      assert d.row * cols + d.col == c.row * cols + (c.col + 1);
      DivModUnique(i + 1, cols, c.row, c.col + 1);
    } else {
      assert i + 1 == (c.row + 1) * cols + 0;
      DivModUnique(i + 1, cols, c.row + 1, 0);
    }
  }

  lemma {:induction false} MulAtLeast(d: nat, c: nat)
    requires d >= 1
    ensures d * c >= c
    decreases d
  {
    if d > 1 {
      MulAtLeast(d - 1, c);
      assert d * c == (d - 1) * c + c;
    }
  }

  /** Quotient and remainder are the only such pair. */
  lemma DivModUnique(n: nat, cols: int, q: nat, r: nat)
    requires cols >= 1 && r < cols && n == q * cols + r
    ensures n / cols == q && n % cols == r
  {
    var q' := n / cols;
    var r' := n % cols;
    assert q' * cols + r' == q * cols + r;
    if q' < q {
      assert q * cols == q' * cols + (q - q') * cols;
      MulAtLeast(q - q', cols);
    } else if q' > q {
      assert q' * cols == q * cols + (q' - q) * cols;
      MulAtLeast(q' - q, cols);
    }
  }

  datatype Tile = Tile(app: AppRecord, at: Cell)

  datatype View = ErrorText(text: string) | EmptyText(text: string) | Tiles(cols: int, tiles: seq<Tile>)

  /** The tiles of the sorted records, each in its own cell. */
  function Place(sorted: seq<AppRecord>, cols: int): (t: seq<Tile>)
    requires cols >= 1
    ensures |t| == |sorted|
    ensures forall i :: 0 <= i < |t| ==> t[i] == Tile(sorted[i], CellOf(i, cols))
  {
    seq(|sorted|, i requires 0 <= i < |sorted| => Tile(sorted[i], CellOf(i, cols)))
  }

  /** The grid after an update: the error comes first, then the empty
      label, then the tiles. */
  function GridView(apps: seq<AppRecord>, error: Option<string>, width: int): (v: View)
    ensures error.Some? <==> v.ErrorText?
    ensures v.ErrorText? ==> v.text == ErrorLabelPrefix + error.value
    ensures error.None? && apps == [] <==> v.EmptyText?
    ensures v.EmptyText? ==> v.text == NoAppsLabel
    ensures v.Tiles? ==>
      (v.cols == Columns(width) && |v.tiles| == |apps|
       && (forall i :: 0 <= i < |v.tiles| ==> v.tiles[i].at == CellOf(i, v.cols))
       && (forall i, j :: 0 <= i < j < |v.tiles| ==> LexLe(RecordKey(v.tiles[i].app), RecordKey(v.tiles[j].app))))
  {
    if error.Some? then ErrorText(ErrorLabelPrefix + error.value)
    else if apps == [] then EmptyText(NoAppsLabel)
    else Tiles(Columns(width), Place(SortBy(apps, RecordKey), Columns(width)))
  }

  /** The tiles show exactly the listed applications, once each. */
  lemma GridShowsEveryApp(apps: seq<AppRecord>, width: int)
    requires apps != []
    ensures var v := GridView(apps, None, width);
      v.Tiles? && multiset(seq(|v.tiles|, i requires 0 <= i < |v.tiles| => v.tiles[i].app)) == multiset(apps)
  {
    var sorted := SortBy(apps, RecordKey);
    var v := GridView(apps, None, width);
    assert seq(|v.tiles|, i requires 0 <= i < |v.tiles| => v.tiles[i].app) == sorted;
  }

  /** The application of the tile at a given cell, if any: since cells are
      distinct, at most one tile answers a right-click there. */
  lemma TileAtCellUnique(apps: seq<AppRecord>, width: int, i: nat, j: nat)
    requires var v := GridView(apps, None, width); v.Tiles? && i < j < |v.tiles|
    ensures GridView(apps, None, width).tiles[i].at != GridView(apps, None, width).tiles[j].at
  {
    CellsDistinct(i, j, Columns(width));
  }
}
