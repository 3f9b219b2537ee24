/**
 * MapTileProvider.getTile: validate the request, work out which tiles of the
 * zoom level's grid the view can show, load each one from the asset store
 * and draw it onto a composite the size of the view.
 *
 * The asset store is a total function from a tile's path to its decoded
 * image, or None when opening or decoding fails; the composite bitmap is the
 * list of draw commands issued on its canvas, in order; whether the bitmap
 * can be allocated is a parameter.
 */
module TileProvider {
  import opened Wrappers
  import opened MapMath

  // Tiles are 256 pixels on a side (`tileSize`); the literal is written out
  // below so that products with it stay linear for the verifier.
  /**
   * Deepest zoom level the model covers: up to here 2^zoom and
   * tileX * tileSize both fit in Kotlin's 32-bit Int.
   */
  const MaxModelZoom: nat := 23
  /** The only tile the zoom-0 case loads. */
  const RootTilePath: string := "world_map/0/0/0.png"

  /** One tile position of the grid: column x, row y. */
  datatype Cell = Cell(x: int, y: int)

  /** One `canvas.drawBitmap` call: the tile at column x, row y drawn with its top-left corner at (left, top). */
  datatype Draw = Draw(x: int, y: int, left: real, top: real)

  /** The inclusive tile rectangle `tileXStart..tileXEnd` by `tileYStart..tileYEnd`. */
  datatype TileRange = TileRange(xStart: int, xEnd: int, yStart: int, yEnd: int)

  // ---------------------------------------------------------------------
  // Asset paths

  function DigitChar(d: nat): (c: char)
    requires d < 10
    ensures '0' <= c <= '9' && c as int - '0' as int == d
  {
    "0123456789"[d]
  }

  /** Decimal digits of n, most significant first, without leading zeros. */
  function NatToString(n: nat): (s: string)
    ensures |s| >= 1
    ensures forall i :: 0 <= i < |s| ==> '0' <= s[i] <= '9'
    ensures |s| > 1 ==> s[0] != '0'
  {
    if n < 10 then [DigitChar(n)] else NatToString(n / 10) + [DigitChar(n % 10)]
  }

  /** Kotlin's rendering of an Int inside a string template. */
  function IntToString(i: int): (s: string)
    ensures |s| >= 1
    ensures s[0] == '-' <==> i < 0
    ensures i >= 0 ==> s == NatToString(i)
  {
    if i < 0 then "-" + NatToString(-i) else NatToString(i)
  }

  /** The asset path of a tile: "world_map/{zoom}/{x}/{y}.png". */
  function TilePath(zoom: int, x: int, y: int): string {
    "world_map/" + IntToString(zoom) + "/" + IntToString(x) + "/" + IntToString(y) + ".png"
  }

  /** The literal root path is the general path of tile (0, 0, 0). */
  lemma RootTilePathIsTilePath()
    ensures TilePath(0, 0, 0) == RootTilePath
  {
  }

  /** The number a string of decimal digits denotes, most significant first. */
  function DecimalValue(s: string): int
    decreases |s|
  {
    if s == [] then 0 else DecimalValue(s[..|s| - 1]) * 10 + (s[|s| - 1] as int - '0' as int)
  }

  /** Reading the digits back gives the number: NatToString loses nothing. */
  lemma {:induction false} NatToStringRoundTrip(n: nat)
    ensures DecimalValue(NatToString(n)) == n
  {
    if n >= 10 {
      NatToStringRoundTrip(n / 10);
      var s := NatToString(n);
      assert s[..|s| - 1] == NatToString(n / 10);
    }
  }

  /** A slash where the other string still has a digit: the two strings differ. */
  lemma SlashBeforeDigit(a: string, b: string, c: string, d: string)
    requires forall i :: 0 <= i < |c| ==> '0' <= c[i] <= '9'
    requires |a| < |c|
    ensures a + "/" + b != c + "/" + d
  {
    assert (a + "/" + b)[|a|] == '/';
    assert (c + "/" + d)[|a|] == c[|a|];
  }

  /** A run of digits followed by '/' is determined by the string: the first '/' ends it. */
  lemma SplitAtSlash(a: string, b: string, c: string, d: string)
    requires forall i :: 0 <= i < |a| ==> '0' <= a[i] <= '9'
    requires forall i :: 0 <= i < |c| ==> '0' <= c[i] <= '9'
    requires a + "/" + b == c + "/" + d
    ensures a == c && b == d
  {
    if |a| < |c| {
      SlashBeforeDigit(a, b, c, d);
      assert false;
    } else if |c| < |a| {
      SlashBeforeDigit(c, d, a, b);
      assert false;
    }
    var s := a + "/" + b;
    assert a == s[..|a|] && c == s[..|c|];
    assert b == s[|a| + 1..] && d == s[|c| + 1..];
  }

  /** Regrouping a tile path around its column component. */
  lemma RegroupPath(p: string, x: string, sep: string, y: string, ext: string)
    ensures p + x + sep + y + ext == p + (x + sep + (y + ext))
  {
  }

  lemma StripPrefix(p: string, r: string, r': string)
    requires p + r == p + r'
    ensures r == r'
  {
    assert r == (p + r)[|p|..] && r' == (p + r')[|p|..];
  }

  lemma StripSuffix(r: string, r': string, q: string)
    requires r + q == r' + q
    ensures r == r'
  {
    assert r == (r + q)[..|r|] && r' == (r' + q)[..|r'|];
  }

  /**
   * Tiles of one zoom level have distinct paths: the path of a cell with
   * non-negative coordinates gives back its column and row.
   */
  lemma TilePathInjective(zoom: int, x: nat, y: nat, x': nat, y': nat)
    requires TilePath(zoom, x, y) == TilePath(zoom, x', y')
    ensures x == x' && y == y'
  {
    var p := "world_map/" + IntToString(zoom) + "/";
    var X, Y, X', Y' := NatToString(x), NatToString(y), NatToString(x'), NatToString(y');
    RegroupPath(p, X, "/", Y, ".png");
    RegroupPath(p, X', "/", Y', ".png");
    StripPrefix(p, X + "/" + (Y + ".png"), X' + "/" + (Y' + ".png"));
    SplitAtSlash(X, Y + ".png", X', Y' + ".png");
    StripSuffix(Y, Y', ".png");
    NatToStringRoundTrip(x);
    NatToStringRoundTrip(x');
    NatToStringRoundTrip(y);
    NatToStringRoundTrip(y');
  }

  // ---------------------------------------------------------------------
  // Input validation and the tile range

  /** The guard at the top of `getTile`. */
  predicate ValidInput(zoomLevel: int, viewWidth: int, viewHeight: int, scaleFactor: real) {
    zoomLevel >= 0 && viewWidth > 0 && viewHeight > 0 && scaleFactor > 0.0
  }

  /** `tileXStart` / `tileYStart`: one tile before the first one the translation shows, clamped to the grid. */
  function StartIndex(t: real, tilesPerSide: int): (i: int)
    requires tilesPerSide >= 1
    ensures 0 <= i <= tilesPerSide - 1
  {
    CoerceIn(Trunc(-t / 256.0) - 1, 0, tilesPerSide - 1)
  }

  /** `tileXEnd` / `tileYEnd`: one tile after the one at the far edge of the view, clamped to the grid. */
  function EndIndex(t: real, size: int, tilesPerSide: int): (i: int)
    requires tilesPerSide >= 1
    ensures 0 <= i <= tilesPerSide - 1
  {
    CoerceIn(Trunc((-t + size as real) / 256.0) + 1, 0, tilesPerSide - 1)
  }

  /**
   * The tile rectangle `getTile` walks for a view of size w x h translated
   * by (tx, ty): every bound lies in the grid of 2^zoom tiles per side, and
   * for a non-empty view the rectangle holds at least one tile.
   */
  function VisibleRange(zoom: nat, tx: real, ty: real, w: int, h: int): (r: TileRange)
    ensures 0 <= r.xStart <= Pow2(zoom) - 1 && 0 <= r.xEnd <= Pow2(zoom) - 1
    ensures 0 <= r.yStart <= Pow2(zoom) - 1 && 0 <= r.yEnd <= Pow2(zoom) - 1
    ensures w >= 0 ==> r.xStart <= r.xEnd
    ensures h >= 0 ==> r.yStart <= r.yEnd
  {
    var tilesPerSide := Pow2(zoom);
    TruncMonotone(-tx / 256.0, (-tx + (if w >= 0 then w else 0) as real) / 256.0);
    TruncMonotone(-ty / 256.0, (-ty + (if h >= 0 then h else 0) as real) / 256.0);
    TileRange(StartIndex(tx, tilesPerSide), EndIndex(tx, w, tilesPerSide),
              StartIndex(ty, tilesPerSide), EndIndex(ty, h, tilesPerSide))
  }

  /**
   * The padded range covers the view: a grid column c whose pixels
   * [c*256 + t, (c+1)*256 + t) overlap the view's [0, size) lies between
   * the start and end bounds (and so does a row).
   */
  lemma VisibleTilesCovered(t: real, size: int, tilesPerSide: int, c: int)
    requires tilesPerSide >= 1 && 0 <= c < tilesPerSide
    requires (c * 256) as real + t < size as real
    requires ((c + 1) * 256) as real + t > 0.0
    ensures StartIndex(t, tilesPerSide) <= c <= EndIndex(t, size, tilesPerSide)
  {
    var a := -t / 256.0;
    var b := (-t + size as real) / 256.0;
    assert c as real < b;
    assert a < (c + 1) as real;
    if a >= 0.0 {
      assert Trunc(a) <= c;
    }
    assert b > 0.0;
    assert c <= Trunc(b);
  }

  /** The range of a 300 x 300 view at zoom 2 translated by (-100, -50) is columns 0..2 by rows 0..2. */
  lemma NineTileExample()
    ensures VisibleRange(2, -100.0, -50.0, 300, 300) == TileRange(0, 2, 0, 2)
  {
  }

  /**
   * Truncation, not floor: with the map shifted 100 pixels right of a view
   * 50 pixels wide, (-100 + 50) / 256 truncates to 0, so the end column is 1;
   * rounding down would give -1 + 1 = 0.
   */
  lemma EndIndexTruncates()
    ensures EndIndex(100.0, 50, 4) == 1
    ensures ((-100.0 + 50.0) / 256.0).Floor + 1 == 0
  {
  }

  // ---------------------------------------------------------------------
  // The cells the loop visits, the paths it opens and the draws it issues

  /** Column x, rows yFrom .. yTo - 1, top to bottom: one pass of the inner loop. */
  function ColumnCells(x: int, yFrom: int, yTo: int): (cs: seq<Cell>)
    ensures |cs| == if yTo > yFrom then yTo - yFrom else 0
    decreases yTo - yFrom
  {
    if yTo <= yFrom then [] else ColumnCells(x, yFrom, yTo - 1) + [Cell(x, yTo - 1)]
  }

  /** Columns xFrom .. xTo - 1, left to right, each by ColumnCells: the whole nested loop. */
  function GridCells(xFrom: int, xTo: int, yFrom: int, yTo: int): seq<Cell>
    decreases xTo - xFrom
  {
    if xTo <= xFrom then [] else GridCells(xFrom, xTo - 1, yFrom, yTo) + ColumnCells(xTo - 1, yFrom, yTo)
  }

  /** The asset path of each cell of a zoom level. */
  function PathAt(zoom: int): Cell -> string {
    (c: Cell) => TilePath(zoom, c.x, c.y)
  }

  /** Whether the asset store yields an image for each cell's path. */
  function Loaded<T>(load: string -> Option<T>, path: Cell -> string): Cell -> bool {
    (c: Cell) => load(path(c)).Some?
  }

  /** The path of every cell, in order. */
  function PathsOf(path: Cell -> string, cells: seq<Cell>): (ps: seq<string>)
    ensures |ps| == |cells|
    decreases |cells|
  {
    if cells == [] then [] else PathsOf(path, cells[..|cells| - 1]) + [path(cells[|cells| - 1])]
  }

  /** Where a tile lands on the composite: column and row times the tile size, plus the translation. */
  function TileDraw(c: Cell, tx: real, ty: real): Draw {
    Draw(c.x, c.y, (c.x * 256) as real + tx, (c.y * 256) as real + ty)
  }

  /** The draw for one cell: none when its image fails to load. */
  function DrawOf(tx: real, ty: real, loads: Cell -> bool, c: Cell): seq<Draw> {
    if loads(c) then [TileDraw(c, tx, ty)] else []
  }

  /** The draws for the cells in order: one per cell that loads, none for one that fails. */
  function DrawsOf(tx: real, ty: real, loads: Cell -> bool, cells: seq<Cell>): seq<Draw>
    decreases |cells|
  {
    if cells == [] then [] else DrawsOf(tx, ty, loads, cells[..|cells| - 1]) + DrawOf(tx, ty, loads, cells[|cells| - 1])
  }

  // ---------------------------------------------------------------------
  // What the loop visits

  lemma {:induction false} ColumnCellsAt(x: int, yFrom: int, yTo: int, j: int)
    requires 0 <= j < yTo - yFrom
    ensures ColumnCells(x, yFrom, yTo)[j] == Cell(x, yFrom + j)
    decreases yTo - yFrom
  {
    if j < yTo - 1 - yFrom {
      ColumnCellsAt(x, yFrom, yTo - 1, j);
    }
  }

  /** The cells of the grid are exactly the cells of the rectangle. */
  lemma {:induction false} GridCellsMembership(xFrom: int, xTo: int, yFrom: int, yTo: int, c: Cell)
    ensures c in GridCells(xFrom, xTo, yFrom, yTo) <==> xFrom <= c.x < xTo && yFrom <= c.y < yTo
    decreases xTo - xFrom
  {
    if xTo > xFrom {
      GridCellsMembership(xFrom, xTo - 1, yFrom, yTo, c);
      var col := ColumnCells(xTo - 1, yFrom, yTo);
      if c.x == xTo - 1 && yFrom <= c.y < yTo {
        ColumnCellsAt(xTo - 1, yFrom, yTo, c.y - yFrom);
        assert col[c.y - yFrom] == c;
      }
      if c in col {
        var j :| 0 <= j < |col| && col[j] == c;
        ColumnCellsAt(xTo - 1, yFrom, yTo, j);
      }
    }
  }

  /** Column-outer, row-inner order: a before b when its column is smaller, or its column equal and its row smaller. */
  predicate ColumnMajorBefore(a: Cell, b: Cell) {
    a.x < b.x || (a.x == b.x && a.y < b.y)
  }

  /**
   * The loop visits the cells in strictly increasing column-major order:
   * with GridCellsMembership, every cell of the rectangle exactly once,
   * column by column, each column top to bottom.
   */
  lemma {:induction false} GridCellsOrdered(xFrom: int, xTo: int, yFrom: int, yTo: int, i: int, j: int)
    requires 0 <= i < j < |GridCells(xFrom, xTo, yFrom, yTo)|
    ensures ColumnMajorBefore(GridCells(xFrom, xTo, yFrom, yTo)[i], GridCells(xFrom, xTo, yFrom, yTo)[j])
    decreases xTo - xFrom
  {
    var prefix := GridCells(xFrom, xTo - 1, yFrom, yTo);
    var col := ColumnCells(xTo - 1, yFrom, yTo);
    var g := GridCells(xFrom, xTo, yFrom, yTo);
    assert g == prefix + col;
    if j < |prefix| {
      GridCellsOrdered(xFrom, xTo - 1, yFrom, yTo, i, j);
    } else if i < |prefix| {
      assert g[i] in prefix;
      GridCellsMembership(xFrom, xTo - 1, yFrom, yTo, g[i]);
      ColumnCellsAt(xTo - 1, yFrom, yTo, j - |prefix|);
    } else {
      ColumnCellsAt(xTo - 1, yFrom, yTo, i - |prefix|);
      ColumnCellsAt(xTo - 1, yFrom, yTo, j - |prefix|);
    }
  }

  // ---------------------------------------------------------------------
  // What the loop opens and draws

  lemma PathsOfSnoc(path: Cell -> string, cells: seq<Cell>, c: Cell)
    ensures PathsOf(path, cells + [c]) == PathsOf(path, cells) + [path(c)]
  {
    assert (cells + [c])[..|cells|] == cells;
  }

  lemma DrawsOfSnoc(tx: real, ty: real, loads: Cell -> bool, cells: seq<Cell>, c: Cell)
    ensures DrawsOf(tx, ty, loads, cells + [c]) == DrawsOf(tx, ty, loads, cells) + DrawOf(tx, ty, loads, c)
  {
    assert (cells + [c])[..|cells|] == cells;
  }

  /** The i-th path opened is the path of the i-th cell visited. */
  lemma {:induction false} PathsOfAt(path: Cell -> string, cells: seq<Cell>, i: int)
    requires 0 <= i < |cells|
    ensures PathsOf(path, cells)[i] == path(cells[i])
    decreases |cells|
  {
    if i < |cells| - 1 {
      PathsOfAt(path, cells[..|cells| - 1], i);
    }
  }

  /** Opening the paths of two runs of cells one after the other. */
  lemma {:induction false} PathsOfAppend(path: Cell -> string, a: seq<Cell>, b: seq<Cell>)
    ensures PathsOf(path, a + b) == PathsOf(path, a) + PathsOf(path, b)
    decreases |b|
  {
    if b != [] {
      var init := b[..|b| - 1];
      var last := b[|b| - 1];
      var pa, pi, pl := PathsOf(path, a), PathsOf(path, init), [path(last)];
      assert PathsOf(path, a + b) == PathsOf(path, a + init) + pl by {
        assert a + b == (a + init) + [last];
        PathsOfSnoc(path, a + init, last);
      }
      assert PathsOf(path, b) == pi + pl by {
        assert b == init + [last];
        PathsOfSnoc(path, init, last);
      }
      PathsOfAppend(path, a, init);
      assert (pa + pi) + pl == pa + (pi + pl);
    } else {
      assert a + b == a;
    }
  }

  /** Drawing two runs of cells one after the other. */
  lemma {:induction false} DrawsOfAppend(tx: real, ty: real, loads: Cell -> bool, a: seq<Cell>, b: seq<Cell>)
    ensures DrawsOf(tx, ty, loads, a + b) == DrawsOf(tx, ty, loads, a) + DrawsOf(tx, ty, loads, b)
    decreases |b|
  {
    if b != [] {
      var init := b[..|b| - 1];
      var last := b[|b| - 1];
      var da, di, dl := DrawsOf(tx, ty, loads, a), DrawsOf(tx, ty, loads, init), DrawOf(tx, ty, loads, last);
      assert DrawsOf(tx, ty, loads, a + b) == DrawsOf(tx, ty, loads, a + init) + dl by {
        assert a + b == (a + init) + [last];
        DrawsOfSnoc(tx, ty, loads, a + init, last);
      }
      assert DrawsOf(tx, ty, loads, b) == di + dl by {
        assert b == init + [last];
        DrawsOfSnoc(tx, ty, loads, init, last);
      }
      DrawsOfAppend(tx, ty, loads, a, init);
      assert (da + di) + dl == da + (di + dl);
    } else {
      assert a + b == a;
    }
  }

  /** No draw at all exactly when no cell loads: the flag `anyTileLoaded` is "the draw list is non-empty". */
  lemma {:induction false} DrawsOfEmptyIff(tx: real, ty: real, loads: Cell -> bool, cells: seq<Cell>)
    ensures DrawsOf(tx, ty, loads, cells) == [] <==> forall c :: c in cells ==> !loads(c)
    decreases |cells|
  {
    if cells != [] {
      var init := cells[..|cells| - 1];
      DrawsOfEmptyIff(tx, ty, loads, init);
      assert cells == init + [cells[|cells| - 1]];
    }
  }

  /** Every draw is of a cell that loaded, at that cell's position. */
  lemma {:induction false} DrawsOfSound(tx: real, ty: real, loads: Cell -> bool, cells: seq<Cell>, d: Draw)
    requires d in DrawsOf(tx, ty, loads, cells)
    ensures Cell(d.x, d.y) in cells && loads(Cell(d.x, d.y))
    ensures d == TileDraw(Cell(d.x, d.y), tx, ty)
    decreases |cells|
  {
    var init := cells[..|cells| - 1];
    var last := cells[|cells| - 1];
    assert last in cells;
    if d in DrawsOf(tx, ty, loads, init) {
      DrawsOfSound(tx, ty, loads, init, d);
    } else {
      assert Cell(d.x, d.y) == last;
    }
  }

  /** Every cell that loads is drawn, at its position. */
  lemma {:induction false} DrawsOfComplete(tx: real, ty: real, loads: Cell -> bool, cells: seq<Cell>, c: Cell)
    requires c in cells && loads(c)
    ensures TileDraw(c, tx, ty) in DrawsOf(tx, ty, loads, cells)
    decreases |cells|
  {
    var init := cells[..|cells| - 1];
    var last := cells[|cells| - 1];
    assert cells == init + [last];
    if c != last {
      DrawsOfComplete(tx, ty, loads, init, c);
    }
  }

  /**
   * The draws `getTile` makes on the composite of a valid request whose
   * bitmap was allocated: at zoom 0 the root tile alone, at (0, 0) whatever
   * the translation; deeper, the nested loop over the visible range.
   */
  function Composite(zoom: nat, tx: real, ty: real, w: int, h: int, loads: Cell -> bool): seq<Draw> {
    if zoom == 0 then
      (if loads(Cell(0, 0)) then [Draw(0, 0, 0.0, 0.0)] else [])
    else
      var r := VisibleRange(zoom, tx, ty, w, h);
      DrawsOf(tx, ty, loads, GridCells(r.xStart, r.xEnd + 1, r.yStart, r.yEnd + 1))
  }

  /** At zoom 0 the composite is the root asset when it loads, and empty otherwise. */
  lemma RootComposite<T>(tx: real, ty: real, w: int, h: int, load: string -> Option<T>)
    ensures Composite(0, tx, ty, w, h, Loaded(load, PathAt(0)))
         == if load(RootTilePath).Some? then [Draw(0, 0, 0.0, 0.0)] else []
  {
    RootTilePathIsTilePath();
  }

  /**
   * The composite shows the view: every tile of the grid whose 256-pixel
   * square, shifted by (tx, ty), meets the w x h view and whose image loads
   * is drawn: at zoom > 0 at its position, at zoom 0 (one tile) at (0, 0).
   */
  lemma CompositeShowsVisibleTiles(zoom: nat, tx: real, ty: real, w: int, h: int, loads: Cell -> bool, c: Cell)
    requires 0 <= c.x < Pow2(zoom) && 0 <= c.y < Pow2(zoom)
    requires (c.x * 256) as real + tx < w as real && ((c.x + 1) * 256) as real + tx > 0.0
    requires (c.y * 256) as real + ty < h as real && ((c.y + 1) * 256) as real + ty > 0.0
    requires loads(c)
    ensures zoom > 0 ==> TileDraw(c, tx, ty) in Composite(zoom, tx, ty, w, h, loads)
    ensures zoom == 0 ==> c == Cell(0, 0) && Composite(zoom, tx, ty, w, h, loads) == [Draw(0, 0, 0.0, 0.0)]
  {
    if zoom > 0 {
      var r := VisibleRange(zoom, tx, ty, w, h);
      var cells := GridCells(r.xStart, r.xEnd + 1, r.yStart, r.yEnd + 1);
      VisibleTilesCovered(tx, w, Pow2(zoom), c.x);
      VisibleTilesCovered(ty, h, Pow2(zoom), c.y);
      GridCellsMembership(r.xStart, r.xEnd + 1, r.yStart, r.yEnd + 1, c);
      DrawsOfComplete(tx, ty, loads, cells, c);
    }
  }

  /**
   * Every draw on the composite is of a loaded tile of the zoom level's
   * grid: at zoom > 0 at its translated position, at zoom 0 at (0, 0).
   */
  lemma CompositeDrawsOnlyGridTiles(zoom: nat, tx: real, ty: real, w: int, h: int, loads: Cell -> bool, d: Draw)
    requires d in Composite(zoom, tx, ty, w, h, loads)
    ensures 0 <= d.x < Pow2(zoom) && 0 <= d.y < Pow2(zoom) && loads(Cell(d.x, d.y))
    ensures zoom > 0 ==> d == TileDraw(Cell(d.x, d.y), tx, ty)
    ensures zoom == 0 ==> d == Draw(0, 0, 0.0, 0.0)
  {
    if zoom > 0 {
      var r := VisibleRange(zoom, tx, ty, w, h);
      var cells := GridCells(r.xStart, r.xEnd + 1, r.yStart, r.yEnd + 1);
      DrawsOfSound(tx, ty, loads, cells, d);
      GridCellsMembership(r.xStart, r.xEnd + 1, r.yStart, r.yEnd + 1, Cell(d.x, d.y));
    }
  }

  /** No asset is opened twice: the paths of a grid of non-negative cells are pairwise distinct. */
  lemma GridPathsDistinct(zoom: int, xFrom: nat, xTo: int, yFrom: nat, yTo: int, i: int, j: int)
    requires 0 <= i < j < |GridCells(xFrom, xTo, yFrom, yTo)|
    ensures PathsOf(PathAt(zoom), GridCells(xFrom, xTo, yFrom, yTo))[i]
         != PathsOf(PathAt(zoom), GridCells(xFrom, xTo, yFrom, yTo))[j]
  {
    var cells := GridCells(xFrom, xTo, yFrom, yTo);
    var a, b := cells[i], cells[j];
    GridCellsOrdered(xFrom, xTo, yFrom, yTo, i, j);
    GridCellsMembership(xFrom, xTo, yFrom, yTo, a);
    GridCellsMembership(xFrom, xTo, yFrom, yTo, b);
    PathsOfAt(PathAt(zoom), cells, i);
    PathsOfAt(PathAt(zoom), cells, j);
    if TilePath(zoom, a.x, a.y) == TilePath(zoom, b.x, b.y) {
      TilePathInjective(zoom, a.x, a.y, b.x, b.y);
    }
  }

  /** One more row of a column. */
  lemma ColumnCellsSnoc(x: int, yFrom: int, y: int)
    requires yFrom <= y
    ensures ColumnCells(x, yFrom, y + 1) == ColumnCells(x, yFrom, y) + [Cell(x, y)]
  {
  }

  /** The paths and draws of one more column of the grid follow those of the columns before it. */
  lemma GridColumnStep(path: Cell -> string, tx: real, ty: real, loads: Cell -> bool, xFrom: int, x: int, yFrom: int, yTo: int)
    requires xFrom <= x
    ensures PathsOf(path, GridCells(xFrom, x + 1, yFrom, yTo))
      == PathsOf(path, GridCells(xFrom, x, yFrom, yTo)) + PathsOf(path, ColumnCells(x, yFrom, yTo))
    ensures DrawsOf(tx, ty, loads, GridCells(xFrom, x + 1, yFrom, yTo))
      == DrawsOf(tx, ty, loads, GridCells(xFrom, x, yFrom, yTo)) + DrawsOf(tx, ty, loads, ColumnCells(x, yFrom, yTo))
  {
    GridCellsSnoc(xFrom, x, yFrom, yTo);
    PathsOfAppend(path, GridCells(xFrom, x, yFrom, yTo), ColumnCells(x, yFrom, yTo));
    DrawsOfAppend(tx, ty, loads, GridCells(xFrom, x, yFrom, yTo), ColumnCells(x, yFrom, yTo));
  }

  /** One more column of the grid. */
  lemma GridCellsSnoc(xFrom: int, x: int, yFrom: int, yTo: int)
    requires xFrom <= x
    ensures GridCells(xFrom, x + 1, yFrom, yTo) == GridCells(xFrom, x, yFrom, yTo) + ColumnCells(x, yFrom, yTo)
  {
  }

  // ---------------------------------------------------------------------
  // getTile

  /**
   * The body of the inner loop: open the asset of tile (tileX, tileY) and,
   * when it decodes, draw it at its place on the canvas. `path` is the
   * zoom level's PathAt, fixed by GetTile.
   */
  method DrawTile<T>(path: Cell -> string, translateX: real, translateY: real, load: string -> Option<T>,
                     tileX: int, tileY: int, canvas: seq<Draw>)
    returns (canvas': seq<Draw>, tilePath: string, loaded: bool)
    ensures tilePath == path(Cell(tileX, tileY))
    ensures loaded == Loaded(load, path)(Cell(tileX, tileY))
    ensures canvas' == canvas + DrawOf(translateX, translateY, Loaded(load, path), Cell(tileX, tileY))
    ensures |canvas'| == |canvas| + if loaded then 1 else 0
  {
    tilePath := path(Cell(tileX, tileY));
    match load(tilePath) {
      case Some(_) =>
        var left := (tileX * 256) as real + translateX;
        var top := (tileY * 256) as real + translateY;
        assert TileDraw(Cell(tileX, tileY), translateX, translateY) == Draw(tileX, tileY, left, top);
        canvas' := canvas + [Draw(tileX, tileY, left, top)];
        loaded := true;
      case None =>
        canvas' := canvas;
        loaded := false;
    }
  }

  /**
   * The inner loop of `getTile`: rows tileYStart .. tileYEnd of column
   * tileX, top to bottom. Returns the column's draws and the paths it
   * opened, and whether any of its tiles loaded.
   */
  method DrawColumn<T>(path: Cell -> string, translateX: real, translateY: real, load: string -> Option<T>,
                       tileX: int, tileYStart: int, tileYEnd: int)
    returns (draws: seq<Draw>, paths: seq<string>, loaded: bool)
    ensures paths == PathsOf(path, ColumnCells(tileX, tileYStart, tileYEnd + 1))
    ensures draws == DrawsOf(translateX, translateY, Loaded(load, path), ColumnCells(tileX, tileYStart, tileYEnd + 1))
    ensures loaded == (draws != [])
  {
    ghost var loads := Loaded(load, path);
    draws, paths, loaded := [], [], false;
    var tileY := tileYStart;
    while tileY <= tileYEnd
      invariant tileYStart <= tileY && (tileY <= tileYEnd + 1 || tileY == tileYStart)
      invariant paths == PathsOf(path, ColumnCells(tileX, tileYStart, tileY))
      invariant draws == DrawsOf(translateX, translateY, loads, ColumnCells(tileX, tileYStart, tileY))
      invariant loaded == (draws != [])
      decreases tileYEnd - tileY
    {
      ghost var visited := ColumnCells(tileX, tileYStart, tileY);
      ColumnCellsSnoc(tileX, tileYStart, tileY);
      PathsOfSnoc(path, visited, Cell(tileX, tileY));
      DrawsOfSnoc(translateX, translateY, loads, visited, Cell(tileX, tileY));
      var tilePath, tileLoaded;
      draws, tilePath, tileLoaded := DrawTile(path, translateX, translateY, load, tileX, tileY, draws);
      paths := paths + [tilePath];
      loaded := loaded || tileLoaded;
      tileY := tileY + 1;
    }
    if tileY != tileYEnd + 1 {
      assert ColumnCells(tileX, tileYStart, tileYEnd + 1) == [];
    }
  }

  /**
   * The nested loop of `getTile`: opens every tile of the range, column by
   * column and each column top to bottom, and draws each one that loads.
   * `anyTileLoaded` reports whether anything was drawn.
   */
  method DrawTiles<T>(path: Cell -> string, translateX: real, translateY: real, load: string -> Option<T>, range: TileRange)
    returns (canvas: seq<Draw>, attempts: seq<string>, anyTileLoaded: bool)
    ensures attempts == PathsOf(path, GridCells(range.xStart, range.xEnd + 1, range.yStart, range.yEnd + 1))
    ensures canvas == DrawsOf(translateX, translateY, Loaded(load, path), GridCells(range.xStart, range.xEnd + 1, range.yStart, range.yEnd + 1))
    ensures anyTileLoaded <==> canvas != []
  {
    ghost var loads := Loaded(load, path);
    var tileXStart, tileXEnd := range.xStart, range.xEnd;
    var tileYStart, tileYEnd := range.yStart, range.yEnd;
    canvas, attempts, anyTileLoaded := [], [], false;
    var tileX := tileXStart;
    while tileX <= tileXEnd
      invariant tileXStart <= tileX && (tileX <= tileXEnd + 1 || tileX == tileXStart)
      invariant attempts == PathsOf(path, GridCells(tileXStart, tileX, tileYStart, tileYEnd + 1))
      invariant canvas == DrawsOf(translateX, translateY, loads, GridCells(tileXStart, tileX, tileYStart, tileYEnd + 1))
      invariant anyTileLoaded == (canvas != [])
      decreases tileXEnd - tileX
    {
      GridColumnStep(path, translateX, translateY, loads, tileXStart, tileX, tileYStart, tileYEnd + 1);
      var draws, paths, loaded := DrawColumn(path, translateX, translateY, load, tileX, tileYStart, tileYEnd);
      canvas := canvas + draws;
      attempts := attempts + paths;
      anyTileLoaded := anyTileLoaded || loaded;
      tileX := tileX + 1;
    }
    if tileX != tileXEnd + 1 {
      assert GridCells(tileXStart, tileXEnd + 1, tileYStart, tileYEnd + 1) == [];
    }
  }

  /**
   * The zoom-0 branch of `getTile`: open the root asset and, when it
   * decodes, draw it at (0, 0); otherwise give up on the composite.
   */
  method DrawRoot<T>(load: string -> Option<T>) returns (result: Option<seq<Draw>>, attempts: seq<string>)
    ensures attempts == [RootTilePath]
    ensures result == if load(RootTilePath).Some? then Some([Draw(0, 0, 0.0, 0.0)]) else None
  {
    attempts := [RootTilePath];
    match load(RootTilePath) {
      case Some(_) =>
        result := Some([Draw(0, 0, 0.0, 0.0)]);
      case None =>
        result := None;
    }
  }

  /**
   * `getTile`. Returns the composite as its draw list, or None for a null
   * bitmap, together with the paths opened, in order. The provider's scale
   * factor is only validated.
   */
  method GetTile<T>(zoomLevel: int, translateX: real, translateY: real, viewWidth: int, viewHeight: int,
                    scaleFactor: real, canAllocate: bool, load: string -> Option<T>)
    returns (result: Option<seq<Draw>>, attempts: seq<string>)
    requires zoomLevel <= MaxModelZoom
    ensures !ValidInput(zoomLevel, viewWidth, viewHeight, scaleFactor) ==> result == None && attempts == []
    ensures ValidInput(zoomLevel, viewWidth, viewHeight, scaleFactor) && !canAllocate ==>
      result == None && attempts == []
    ensures ValidInput(zoomLevel, viewWidth, viewHeight, scaleFactor) && canAllocate && zoomLevel == 0 ==>
      attempts == [RootTilePath]
      && result == if load(RootTilePath).Some? then Some([Draw(0, 0, 0.0, 0.0)]) else None
    ensures ValidInput(zoomLevel, viewWidth, viewHeight, scaleFactor) && canAllocate && zoomLevel > 0 ==>
      var r := VisibleRange(zoomLevel, translateX, translateY, viewWidth, viewHeight);
      var cells := GridCells(r.xStart, r.xEnd + 1, r.yStart, r.yEnd + 1);
      var draws := DrawsOf(translateX, translateY, Loaded(load, PathAt(zoomLevel)), cells);
      attempts == PathsOf(PathAt(zoomLevel), cells)
      && result == (if draws == [] then None else Some(draws))
    ensures ValidInput(zoomLevel, viewWidth, viewHeight, scaleFactor) && canAllocate ==>
      var composite := Composite(zoomLevel, translateX, translateY, viewWidth, viewHeight, Loaded(load, PathAt(zoomLevel)));
      result == if composite == [] then None else Some(composite)
  {
    if zoomLevel < 0 || viewWidth <= 0 || viewHeight <= 0 || scaleFactor <= 0.0 {
      return None, [];
    }
    if !canAllocate {
      return None, [];
    }
    var range := VisibleRange(zoomLevel, translateX, translateY, viewWidth, viewHeight);

    if zoomLevel == 0 {
      RootComposite(translateX, translateY, viewWidth, viewHeight, load);
      result, attempts := DrawRoot(load);
      return;
    }

    var canvas, anyTileLoaded;
    canvas, attempts, anyTileLoaded := DrawTiles(PathAt(zoomLevel), translateX, translateY, load, range);
    if anyTileLoaded {
      result := Some(canvas);
    } else {
      result := None;
    }
  }
}
