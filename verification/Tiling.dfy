/**
 app/imaging.py, tile_geometries: the tile layout that the master dispatches and the reaper
 recomputes.
 */
module Tiling {
  import opened Collections

  /** Tiles narrower or lower than this are skipped. */
  const MIN_SIDE := 16

  datatype Geometry = Geometry(id: int, x: int, y: int, width: int, height: int)

  /** The number of tiles along a side: a trailing remainder counts only from MIN_SIDE pixels on. */
  function Count(side: nat, tileSize: int): nat
  {
    if tileSize < MIN_SIDE then 0
    else side / tileSize + if side % tileSize >= MIN_SIDE then 1 else 0
  }

  /** The part of a side that is tiled: all of it, except a trailing remainder under MIN_SIDE. */
  function Covered(side: nat, tileSize: int): nat
  {
    if tileSize < MIN_SIDE then 0
    else if side % tileSize < MIN_SIDE then side - side % tileSize
    else side
  }

  /** How far the tile that starts at `from` extends along a side. */
  function Extent(side: nat, tileSize: int, from: int): int {
    Min(from + tileSize, side) - from
  }

  /** The tile in row r and column c; raster order numbers it. */
  function TileAt(width: nat, height: nat, tileSize: int, r: nat, c: nat): Geometry {
    Geometry(r * Count(width, tileSize) + c, c * tileSize, r * tileSize,
             Extent(width, tileSize, c * tileSize), Extent(height, tileSize, r * tileSize))
  }

  /** The first n tiles of row r. */
  function Row(width: nat, height: nat, tileSize: int, r: nat, n: nat): (tiles: seq<Geometry>)
    ensures |tiles| == n
    ensures forall c :: 0 <= c < n ==> tiles[c] == TileAt(width, height, tileSize, r, c)
  {
    if n == 0 then []
    else Row(width, height, tileSize, r, n - 1) + [TileAt(width, height, tileSize, r, n - 1)]
  }

  /** The first n rows. */
  function Rows(width: nat, height: nat, tileSize: int, n: nat): (tiles: seq<Geometry>)
    ensures |tiles| == n * Count(width, tileSize)
  {
    if n == 0 then []
    else Rows(width, height, tileSize, n - 1) + Row(width, height, tileSize, n - 1, Count(width, tileSize))
  }

  function Layout(width: nat, height: nat, tileSize: int): (tiles: seq<Geometry>)
    ensures |tiles| == Count(height, tileSize) * Count(width, tileSize)
  {
    Rows(width, height, tileSize, Count(height, tileSize))
  }

  // ---------------------------------------------------------------- one side

  lemma MulMonotone(a: int, b: int, k: nat)
    requires a <= b
    ensures a * k <= b * k
  {
    assert (b - a) * k >= 0;
    assert b * k == a * k + (b - a) * k;
  }

  lemma MulGap(a: int, b: int, k: nat)
    ensures a < b ==> a * k + k <= b * k
  {
    if a < b {
      MulMonotone(a + 1, b, k);
      assert (a + 1) * k == a * k + k;
    }
  }

  lemma Factors(a: nat, b: nat)
    requires a * b > 0
    ensures a > 0 && b > 0
  {
  }

  /** Tile c of a side is kept exactly when it is among the first Count tiles. */
  lemma KeptTile(side: nat, tileSize: int, c: nat)
    requires tileSize > 0
    ensures c < Count(side, tileSize) <==>
              c * tileSize < side && Extent(side, tileSize, c * tileSize) >= MIN_SIDE
  {
    if tileSize >= MIN_SIDE {
      var q, m := side / tileSize, side % tileSize;
      assert side == q * tileSize + m;
      MulGap(c, q, tileSize);
      MulGap(q, c, tileSize);
    }
  }

  /** The kept tiles of a side are disjoint intervals that together make up [0, Covered). */
  lemma SidePartition(side: nat, tileSize: int, c: nat, p: nat)
    requires tileSize > 0
    ensures c < Count(side, tileSize) ==>
              (c * tileSize <= p < c * tileSize + Extent(side, tileSize, c * tileSize)
               <==> p < Covered(side, tileSize) && p / tileSize == c)
    ensures p < Covered(side, tileSize) ==> p / tileSize < Count(side, tileSize)
  {
    if tileSize >= MIN_SIDE {
      var q, m := side / tileSize, side % tileSize;
      assert side == q * tileSize + m;
      var k := p / tileSize;
      assert p == k * tileSize + p % tileSize;
      MulGap(k, q, tileSize);
      MulGap(q, k, tileSize);
      MulGap(c, k, tileSize);
      MulGap(k, c, tileSize);
      KeptTile(side, tileSize, c);
    }
  }

  // ---------------------------------------------------------------- the loops

  /**
   tile_geometries.  None is the ValueError of a zero step; a negative step makes both ranges
   empty.
   */
  method TileGeometries(width: nat, height: nat, tileSize: int) returns (geometries: Option<seq<Geometry>>)
    ensures geometries == if tileSize == 0 then None else Some(Layout(width, height, tileSize))
  {
    if tileSize == 0 {
      return None;
    }
    var tiles: seq<Geometry> := [];
    if tileSize > 0 {
      var y := 0;
      ghost var r: nat := 0;
      while y < height
        invariant y == r * tileSize
        invariant r > 0 ==> (r - 1) * tileSize < height
        invariant tiles == Rows(width, height, tileSize, Min(r, Count(height, tileSize)))
        decreases height - y
      {
        tiles := AppendRow(width, height, tileSize, y, tiles, r);
        KeptTile(height, tileSize, r);
        assert (r + 1) * tileSize == r * tileSize + tileSize;
        y := y + tileSize;
        r := r + 1;
      }
      KeptTile(height, tileSize, r);
    }
    geometries := Some(tiles);
  }

  /** The tiles after the first c columns of row r, when `before` are those of the earlier rows. */
  function RowSoFar(width: nat, height: nat, tileSize: int, r: nat, c: nat, before: seq<Geometry>): seq<Geometry> {
    if r < Count(height, tileSize) then before + Row(width, height, tileSize, r, Min(c, Count(width, tileSize))) else before
  }

  /** What the loops do at row r and column c. */
  lemma CellStep(width: nat, height: nat, tileSize: int, r: nat, c: nat, before: seq<Geometry>, x: int, y: int)
    requires tileSize > 0 && x == c * tileSize && y == r * tileSize && x < width && y < height
    requires r < Count(height, tileSize) ==> |before| == r * Count(width, tileSize)
    ensures var tiles := RowSoFar(width, height, tileSize, r, c, before);
            var xEnd, yEnd := Min(x + tileSize, width), Min(y + tileSize, height);
            RowSoFar(width, height, tileSize, r, c + 1, before) ==
              if xEnd - x < MIN_SIDE || yEnd - y < MIN_SIDE then tiles
              else tiles + [Geometry(|tiles|, x, y, xEnd - x, yEnd - y)]
    ensures x + tileSize == (c + 1) * tileSize
  {
    KeptTile(width, tileSize, c);
    KeptTile(height, tileSize, r);
  }

  /** At the end of the row. */
  lemma RowEnd(width: nat, height: nat, tileSize: int, r: nat, c: nat)
    requires tileSize > 0 && width <= c * tileSize && r * tileSize < height
    ensures var before := Rows(width, height, tileSize, Min(r, Count(height, tileSize)));
            RowSoFar(width, height, tileSize, r, c, before) == Rows(width, height, tileSize, Min(r + 1, Count(height, tileSize)))
  {
    KeptTile(width, tileSize, c);
  }

  /** The inner loop over x. */
  method AppendRow(width: nat, height: nat, tileSize: int, y: nat, before: seq<Geometry>, ghost r: nat)
    returns (tiles: seq<Geometry>)
    requires tileSize > 0 && y == r * tileSize && y < height
    requires before == Rows(width, height, tileSize, Min(r, Count(height, tileSize)))
    ensures tiles == Rows(width, height, tileSize, Min(r + 1, Count(height, tileSize)))
  {
    ghost var c: nat;
    tiles, c := AppendCells(width, height, tileSize, y, before, r);
    RowEnd(width, height, tileSize, r, c);
  }

  method AppendCells(width: nat, height: nat, tileSize: int, y: nat, before: seq<Geometry>, ghost r: nat)
    returns (tiles: seq<Geometry>, ghost c: nat)
    requires tileSize > 0 && y == r * tileSize && y < height
    requires r < Count(height, tileSize) ==> |before| == r * Count(width, tileSize)
    ensures width <= c * tileSize && tiles == RowSoFar(width, height, tileSize, r, c, before)
  {
    tiles, c := before, 0;
    var x := 0;
    while x < width
      invariant x == c * tileSize
      invariant tiles == RowSoFar(width, height, tileSize, r, c, before)
      decreases width - x
    {
      CellStep(width, height, tileSize, r, c, before, x, y);
      var xEnd, yEnd := Min(x + tileSize, width), Min(y + tileSize, height);
      if !(xEnd - x < MIN_SIDE || yEnd - y < MIN_SIDE) {
        tiles := tiles + [Geometry(|tiles|, x, y, xEnd - x, yEnd - y)];
      }
      x := x + tileSize;
      c := c + 1;
    }
  }

  // ---------------------------------------------------------------- the layout as a whole

  lemma {:induction false} RowsAt(width: nat, height: nat, tileSize: int, n: nat, r: nat, c: nat)
    requires r < n && c < Count(width, tileSize)
    ensures r * Count(width, tileSize) + c < n * Count(width, tileSize)
    ensures Rows(width, height, tileSize, n)[r * Count(width, tileSize) + c] == TileAt(width, height, tileSize, r, c)
  {
    var cols := Count(width, tileSize);
    MulMonotone(r + 1, n, cols);
    assert (r + 1) * cols == r * cols + cols;
    if r < n - 1 {
      RowsAt(width, height, tileSize, n - 1, r, c);
    } else {
      assert Rows(width, height, tileSize, n)[r * cols + c] == Row(width, height, tileSize, r, cols)[c];
    }
  }

  /** Which row and column a position in the layout is. */
  lemma LayoutAt(width: nat, height: nat, tileSize: int, k: nat) returns (r: nat, c: nat)
    requires k < |Layout(width, height, tileSize)|
    ensures r < Count(height, tileSize) && c < Count(width, tileSize)
    ensures k == r * Count(width, tileSize) + c
    ensures Layout(width, height, tileSize)[k] == TileAt(width, height, tileSize, r, c)
  {
    var rows, cols := Count(height, tileSize), Count(width, tileSize);
    Factors(rows, cols);
    r, c := k / cols, k % cols;
    assert k == r * cols + c;
    if r >= rows {
      MulMonotone(rows, r, cols);
    }
    RowsAt(width, height, tileSize, rows, r, c);
  }

  predicate Contains(g: Geometry, px: int, py: int) {
    g.x <= px < g.x + g.width && g.y <= py < g.y + g.height
  }

  /**
   Main result.  The tiles partition [0, W') x [0, H'), where W' and H' drop a trailing remainder
   only when it is under 16 pixels: a pixel is in tile k exactly when it lies in that rectangle
   and k is the one position computed from its coordinates.
   */
  lemma ExactPartition(width: nat, height: nat, tileSize: int, k: nat, px: nat, py: nat)
    requires tileSize != 0 && k < |Layout(width, height, tileSize)|
    ensures Contains(Layout(width, height, tileSize)[k], px, py) <==>
              && px < Covered(width, tileSize) && py < Covered(height, tileSize)
              && k == (py / tileSize) * Count(width, tileSize) + px / tileSize
  {
    var r, c := LayoutAt(width, height, tileSize, k);
    if tileSize > 0 {
      TilePixels(width, height, tileSize, r, c, px, py);
      SidePartition(width, tileSize, 0, px);
      PositionUnique(r, c, py / tileSize, px / tileSize, Count(width, tileSize));
    }
  }

  /** The pixels of the tile in row r and column c. */
  lemma TilePixels(width: nat, height: nat, tileSize: int, r: nat, c: nat, px: nat, py: nat)
    requires tileSize > 0 && r < Count(height, tileSize) && c < Count(width, tileSize)
    ensures Contains(TileAt(width, height, tileSize, r, c), px, py) <==>
              px < Covered(width, tileSize) && py < Covered(height, tileSize) && py / tileSize == r && px / tileSize == c
  {
    SidePartition(width, tileSize, c, px);
    SidePartition(height, tileSize, r, py);
  }

  lemma PositionUnique(r: int, c: int, r': int, c': int, n: int)
    requires 0 <= c < n
    ensures 0 <= c' < n ==> (r * n + c == r' * n + c' <==> r == r' && c == c')
  {
    if 0 <= c' < n && r * n + c == r' * n + c' {
      QuotientUnique(r, c, r', c', n);
    }
  }

  lemma QuotientUnique(r: int, c: int, r': int, c': int, n: int)
    requires 0 <= c < n && 0 <= c' < n && r * n + c == r' * n + c'
    ensures r == r' && c == c'
  {
    MulGap(r, r', n);
    MulGap(r', r, n);
  }

  /** Every pixel of the covered rectangle is in some tile, so with ExactPartition in exactly one. */
  lemma EveryPixelTiled(width: nat, height: nat, tileSize: int, px: nat, py: nat) returns (k: nat)
    requires tileSize != 0
    requires px < Covered(width, tileSize) && py < Covered(height, tileSize)
    ensures k < |Layout(width, height, tileSize)|
    ensures Contains(Layout(width, height, tileSize)[k], px, py)
  {
    SidePartition(width, tileSize, 0, px);
    SidePartition(height, tileSize, 0, py);
    var r, c := py / tileSize, px / tileSize;
    RowsAt(width, height, tileSize, Count(height, tileSize), r, c);
    MulMonotone(0, r, Count(width, tileSize));
    k := r * Count(width, tileSize) + c;
    ExactPartition(width, height, tileSize, k, px, py);
  }

  /** What MAX_TILES is compared with in split_image_into_tiles. */
  function CeilCount(side: nat, tileSize: int): int
    requires tileSize > 0
  {
    (side + tileSize - 1) / tileSize
  }

  lemma CountAtMostCeil(side: nat, tileSize: int)
    requires tileSize > 0
    ensures Count(side, tileSize) <= CeilCount(side, tileSize)
  {
    var n := Count(side, tileSize);
    if n > 0 {
      KeptTile(side, tileSize, n - 1);
      assert n * tileSize == (n - 1) * tileSize + tileSize;
      var total := side + tileSize - 1;
      var q := total / tileSize;
      assert total == q * tileSize + total % tileSize;
      MulGap(q, n, tileSize);
    }
  }

  /** Ids are positions, sides lie in [16, tileSize], tiles lie in the image, and MAX_TILES bounds their number. */
  lemma LayoutShape(width: nat, height: nat, tileSize: int, k: nat)
    requires tileSize > 0 && k < |Layout(width, height, tileSize)|
    ensures var g := Layout(width, height, tileSize)[k];
            && g.id == k
            && MIN_SIDE <= g.width <= tileSize && MIN_SIDE <= g.height <= tileSize
            && 0 <= g.x && g.x + g.width <= width && 0 <= g.y && g.y + g.height <= height
    ensures |Layout(width, height, tileSize)| <= CeilCount(width, tileSize) * CeilCount(height, tileSize)
  {
    var r, c := LayoutAt(width, height, tileSize, k);
    KeptTile(width, tileSize, c);
    KeptTile(height, tileSize, r);
    MulMonotone(0, c, tileSize);
    MulMonotone(0, r, tileSize);
    CountAtMostCeil(width, tileSize);
    CountAtMostCeil(height, tileSize);
    MulMonotone(Count(height, tileSize), CeilCount(height, tileSize), Count(width, tileSize));
    MulMonotone(Count(width, tileSize), CeilCount(width, tileSize), CeilCount(height, tileSize));
  }
}
