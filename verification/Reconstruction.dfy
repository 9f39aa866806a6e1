/**
 app/imaging.py, split_image_into_tiles and reconstruct_image_from_tiles, and why processing
 tile by tile is processing the whole image.
 */
module Reconstruction {
  import opened Collections
  import opened Tiling

  datatype Pixel = Pixel(b: bv8, g: bv8, r: bv8)

  const BLACK := Pixel(0, 0, 0)

  datatype Raster = Raster(width: nat, rows: seq<seq<Pixel>>)

  predicate Rectangular(im: Raster) {
    forall i :: 0 <= i < |im.rows| ==> |im.rows[i]| == im.width
  }

  type Image = im: Raster | Rectangular(im) witness Raster(0, [])

  function Height(im: Image): nat {
    |im.rows|
  }

  predicate IsEmpty(im: Image) {
    im.width == 0 || |im.rows| == 0
  }

  /** decode_image: refuses short payloads, payloads the codec refuses, and empty images. */
  function DecodeImage(imdecode: Bytes -> Option<Image>, data: Bytes): Option<Image>
  {
    if |data| < 100 then None
    else
      var image := imdecode(data);
      if image.Some? && IsEmpty(image.value) then None else image
  }

  // ---------------------------------------------------------------- split

  /** image[y:y + height, x:x + width]. */
  function Crop(im: Image, g: Geometry): (tile: Image)
    requires 0 <= g.x && 0 <= g.width && g.x + g.width <= im.width
    requires 0 <= g.y && 0 <= g.height && g.y + g.height <= Height(im)
    ensures tile.width == g.width && Height(tile) == g.height
    ensures forall i, j :: 0 <= i < g.height && 0 <= j < g.width ==>
              tile.rows[i][j] == im.rows[g.y + i][g.x + j]
  {
    Raster(g.width, seq(g.height, i requires 0 <= i < g.height => im.rows[g.y + i][g.x..g.x + g.width]))
  }

  /** Python's // on a negative divisor as well. */
  function FloorDiv(a: int, b: int): int
    requires b != 0
  {
    if b > 0 then a / b else (-a) / (-b)
  }

  datatype Split = Tiles(tiles: seq<(Geometry, Image)>) | TooManyTiles | ZeroDivision

  /** TILE_SIZE and MAX_TILES come from the environment, so they can be any integers. */
  method SplitImage(image: Image, tileSize: int, maxTiles: int) returns (split: Split)
    ensures split.ZeroDivision? <==> tileSize == 0
    ensures tileSize != 0 ==>
              (split.TooManyTiles? <==>
               FloorDiv(image.width + tileSize - 1, tileSize) * FloorDiv(Height(image) + tileSize - 1, tileSize)
               > maxTiles)
    ensures split.Tiles? ==>
              var layout := Layout(image.width, Height(image), tileSize);
              && |split.tiles| == |layout|
              && forall k :: 0 <= k < |layout| ==> Fits(layout[k], image) && split.tiles[k] == (layout[k], Crop(image, layout[k]))
    ensures split.Tiles? && tileSize > 0 ==> |split.tiles| <= maxTiles
    ensures split.Tiles? && tileSize < 0 ==> split.tiles == []
  {
    if tileSize == 0 {
      return ZeroDivision;
    }
    var tilesX := FloorDiv(image.width + tileSize - 1, tileSize);
    var tilesY := FloorDiv(Height(image) + tileSize - 1, tileSize);
    if tilesX * tilesY > maxTiles {
      return TooManyTiles;
    }
    var geometries := TileGeometries(image.width, Height(image), tileSize);
    var layout := geometries.value;
    LayoutFits(image, tileSize);
    if tileSize > 0 {
      LayoutBound(image, tileSize);
    }
    var tiles: seq<(Geometry, Image)> := [];
    for k := 0 to |layout|
      invariant |tiles| == k
      invariant forall i :: 0 <= i < k ==> tiles[i] == (layout[i], Crop(image, layout[i]))
    {
      tiles := tiles + [(layout[k], Crop(image, layout[k]))];
    }
    split := Tiles(tiles);
  }

  predicate Fits(g: Geometry, image: Image) {
    && 0 < g.width && 0 <= g.x && g.x + g.width <= image.width
    && 0 < g.height && 0 <= g.y && g.y + g.height <= Height(image)
  }

  lemma LayoutFits(image: Image, tileSize: int)
    ensures var layout := Layout(image.width, Height(image), tileSize);
            forall k :: 0 <= k < |layout| ==> Fits(layout[k], image)
  {
    var layout := Layout(image.width, Height(image), tileSize);
    if tileSize > 0 {
      forall k | 0 <= k < |layout| ensures Fits(layout[k], image) {
        LayoutShape(image.width, Height(image), tileSize, k);
      }
    }
  }

  lemma LayoutBound(image: Image, tileSize: int)
    requires tileSize > 0
    ensures |Layout(image.width, Height(image), tileSize)| <=
              FloorDiv(image.width + tileSize - 1, tileSize) * FloorDiv(Height(image) + tileSize - 1, tileSize)
  {
    if |Layout(image.width, Height(image), tileSize)| > 0 {
      LayoutShape(image.width, Height(image), tileSize, 0);
    } else {
      CountsAreNatural(CeilCount(image.width, tileSize), CeilCount(Height(image), tileSize));
    }
  }

  lemma CountsAreNatural(a: int, b: int)
    requires a >= 0 && b >= 0
    ensures a * b >= 0
  {
  }

  // ---------------------------------------------------------------- reconstruct

  datatype ProcessedTile = ProcessedTile(id: int, bytes: Bytes, x: int, y: int, width: int, height: int)

  /** Where a slice bound lies on a side: NumPy counts a negative one from the end and clips both. */
  function Bound(side: nat, a: int): (r: nat)
    ensures r <= side
    ensures 0 <= a <= side ==> r == a
  {
    if a >= 0 then Min(a, side) else if a + side < 0 then 0 else a + side
  }

  /** A pixel of the slice reconstructed[y:y + height, x:x + width]. */
  predicate InSlice(t: ProcessedTile, width: nat, height: nat, px: nat, py: nat) {
    && Bound(width, t.x) <= px < Bound(width, t.x + t.width)
    && Bound(height, t.y) <= py < Bound(height, t.y + t.height)
  }

  function SliceLength(from: int, length: int, side: nat): nat {
    var start, end := Bound(side, from), Bound(side, from + length);
    if start < end then end - start else 0
  }

  /** NumPy assigns an image to a slice when each side agrees or is one pixel to be repeated. */
  predicate Broadcasts(im: Image, rows: nat, columns: nat) {
    (Height(im) == rows || Height(im) == 1) && (im.width == columns || im.width == 1)
  }

  /** What a tile writes, or None for the tiles that the except branch skips. */
  function Pasted(imdecode: Bytes -> Option<Image>, t: ProcessedTile, width: nat, height: nat): Option<Image>
  {
    var image := DecodeImage(imdecode, t.bytes);
    if image.Some? && Broadcasts(image.value, SliceLength(t.y, t.height, height), SliceLength(t.x, t.width, width))
    then image else None
  }

  function PastedPixel(im: Image, t: ProcessedTile, width: nat, height: nat, px: nat, py: nat): Pixel
    requires !IsEmpty(im) && px < width && py < height && InSlice(t, width, height, px, py)
    requires Broadcasts(im, SliceLength(t.y, t.height, height), SliceLength(t.x, t.width, width))
  {
    im.rows[if Height(im) == 1 then 0 else py - Bound(height, t.y)][if im.width == 1 then 0 else px - Bound(width, t.x)]
  }

  /** The canvas pixel after a list of tiles: the last tile that covers it decides. */
  function PixelAfter(imdecode: Bytes -> Option<Image>, tiles: seq<ProcessedTile>,
                      width: nat, height: nat, px: nat, py: nat): Pixel
    requires px < width && py < height
  {
    if tiles == [] then BLACK
    else
      var t := tiles[|tiles| - 1];
      var image := Pasted(imdecode, t, width, height);
      if image.Some? && InSlice(t, width, height, px, py) then PastedPixel(image.value, t, width, height, px, py)
      else PixelAfter(imdecode, tiles[..|tiles| - 1], width, height, px, py)
  }

  /** Tile i is pasted: it decodes to an image of the slice's size, or one to be repeated. */
  ghost predicate IsPasted(imdecode: Bytes -> Option<Image>, t: ProcessedTile, width: nat, height: nat, im: Image) {
    && |t.bytes| >= 100 && imdecode(t.bytes) == Some(im) && im.width > 0 && |im.rows| > 0
    && (|im.rows| == SliceLength(t.y, t.height, height) || |im.rows| == 1)
    && (im.width == SliceLength(t.x, t.width, width) || im.width == 1)
  }

  /** Some tile from position i on is pasted over the pixel. */
  ghost predicate PastedFrom(imdecode: Bytes -> Option<Image>, tiles: seq<ProcessedTile>, i: nat,
                             width: nat, height: nat, px: nat, py: nat)
  {
    exists k: nat, im: Image :: i <= k < |tiles| && IsPasted(imdecode, tiles[k], width, height, im) && InSlice(tiles[k], width, height, px, py)
  }

  /** Tile i is the last one pasted over the pixel. */
  ghost predicate LastPasted(imdecode: Bytes -> Option<Image>, tiles: seq<ProcessedTile>, i: nat, im: Image,
                             width: nat, height: nat, px: nat, py: nat)
  {
    && i < |tiles| && IsPasted(imdecode, tiles[i], width, height, im) && InSlice(tiles[i], width, height, px, py)
    && !PastedFrom(imdecode, tiles, i + 1, width, height, px, py)
  }

  lemma PastedExactly(imdecode: Bytes -> Option<Image>, t: ProcessedTile, width: nat, height: nat)
    ensures Pasted(imdecode, t, width, height).Some? <==> exists im :: IsPasted(imdecode, t, width, height, im)
    ensures Pasted(imdecode, t, width, height).Some? ==> IsPasted(imdecode, t, width, height, Pasted(imdecode, t, width, height).value)
  {
    var image := Pasted(imdecode, t, width, height);
    if image.Some? {
      assert IsPasted(imdecode, t, width, height, image.value);
    }
  }

  /**
   Main result.  A canvas pixel is that of the last tile that is pasted over it, black when there is
   none; tiles that do not decode or do not fit leave what earlier ones wrote.
   */
  lemma {:induction false} LastTileWins(imdecode: Bytes -> Option<Image>, tiles: seq<ProcessedTile>,
                                        width: nat, height: nat, px: nat, py: nat)
    requires px < width && py < height
    ensures !PastedFrom(imdecode, tiles, 0, width, height, px, py) ==> PixelAfter(imdecode, tiles, width, height, px, py) == Pixel(0, 0, 0)
    ensures forall i: nat, im: Image :: LastPasted(imdecode, tiles, i, im, width, height, px, py) ==>
              PixelAfter(imdecode, tiles, width, height, px, py) == PastedPixel(im, tiles[i], width, height, px, py)
  {
    if tiles != [] {
      var n := |tiles| - 1;
      PastedExactly(imdecode, tiles[n], width, height);
      LastTileWins(imdecode, tiles[..n], width, height, px, py);
      if Pasted(imdecode, tiles[n], width, height).None? || !InSlice(tiles[n], width, height, px, py) {
        NotOver(imdecode, tiles, width, height, px, py);
        assert PastedFrom(imdecode, tiles, 0, width, height, px, py)
               <==> PastedFrom(imdecode, tiles[..n], 0, width, height, px, py);
      } else {
        OverAtLast(imdecode, tiles, Pasted(imdecode, tiles[n], width, height).value, width, height, px, py);
      }
    }
  }

  lemma OverAtLast(imdecode: Bytes -> Option<Image>, tiles: seq<ProcessedTile>, im: Image, width: nat, height: nat, px: nat, py: nat)
    requires tiles != [] && IsPasted(imdecode, tiles[|tiles| - 1], width, height, im)
    requires InSlice(tiles[|tiles| - 1], width, height, px, py)
    ensures PastedFrom(imdecode, tiles, 0, width, height, px, py)
    ensures forall i: nat, im': Image :: LastPasted(imdecode, tiles, i, im', width, height, px, py) ==> i == |tiles| - 1 && im' == im
  {
    forall i: nat | i < |tiles|
      ensures PastedFrom(imdecode, tiles, i, width, height, px, py)
    {
      assert i <= |tiles| - 1 && IsPasted(imdecode, tiles[|tiles| - 1], width, height, im);
    }
  }

  /** A last tile that is not pasted over the pixel can be left out. */
  lemma NotOver(imdecode: Bytes -> Option<Image>, tiles: seq<ProcessedTile>, width: nat, height: nat, px: nat, py: nat)
    requires tiles != []
    requires !PastedFrom(imdecode, tiles, |tiles| - 1, width, height, px, py)
    ensures forall i :: 0 <= i < |tiles| ==>
              (PastedFrom(imdecode, tiles, i, width, height, px, py)
               <==> PastedFrom(imdecode, tiles[..|tiles| - 1], i, width, height, px, py))
    ensures forall i: nat, im: Image :: LastPasted(imdecode, tiles, i, im, width, height, px, py) ==>
              i < |tiles| - 1 && LastPasted(imdecode, tiles[..|tiles| - 1], i, im, width, height, px, py)
  {
    var n := |tiles| - 1;
    forall i | 0 <= i <= n
      ensures PastedFrom(imdecode, tiles, i, width, height, px, py) <==> PastedFrom(imdecode, tiles[..n], i, width, height, px, py)
    {
      if PastedFrom(imdecode, tiles, i, width, height, px, py) {
        var k, im :| i <= k < |tiles| && IsPasted(imdecode, tiles[k], width, height, im) && InSlice(tiles[k], width, height, px, py);
        assert k < n && tiles[..n][k] == tiles[k];
      }
      if PastedFrom(imdecode, tiles[..n], i, width, height, px, py) {
        var k, im :| i <= k < n && IsPasted(imdecode, tiles[..n][k], width, height, im) && InSlice(tiles[..n][k], width, height, px, py);
        assert tiles[..n][k] == tiles[k];
      }
    }
    forall i: nat, im: Image | LastPasted(imdecode, tiles, i, im, width, height, px, py)
      ensures i < n && LastPasted(imdecode, tiles[..n], i, im, width, height, px, py)
    {
      if i < n {
        assert tiles[..n][i] == tiles[i];
        assert !PastedFrom(imdecode, tiles[..n], i + 1, width, height, px, py);
      }
    }
  }

  method Reconstruct(imdecode: Bytes -> Option<Image>, tiles: seq<ProcessedTile>, width: nat, height: nat)
    returns (canvas: array2<Pixel>)
    ensures fresh(canvas) && canvas.Length0 == height && canvas.Length1 == width
    ensures forall py, px :: 0 <= py < height && 0 <= px < width ==>
              canvas[py, px] == PixelAfter(imdecode, tiles, width, height, px, py)
  {
    canvas := new Pixel[height, width]((_, _) => BLACK);
    for k := 0 to |tiles|
      invariant forall py, px :: 0 <= py < height && 0 <= px < width ==>
                  canvas[py, px] == PixelAfter(imdecode, tiles[..k], width, height, px, py)
    {
      assert tiles[..k + 1][..k] == tiles[..k];
      var t := tiles[k];
      var image := Pasted(imdecode, t, width, height);
      if image.Some? {
        forall py, px | 0 <= py < height && 0 <= px < width && InSlice(t, width, height, px, py) {
          canvas[py, px] := PastedPixel(image.value, t, width, height, px, py);
        }
      }
    }
    assert tiles[..|tiles|] == tiles;
  }

  // ---------------------------------------------------------------- tile by tile = whole

  /** A per-pixel operation on an image. */
  function MapImage(f: Pixel -> Pixel, im: Image): (r: Image)
    ensures r.width == im.width && Height(r) == Height(im)
    ensures forall i, j :: 0 <= i < Height(im) && 0 <= j < im.width ==> r.rows[i][j] == f(im.rows[i][j])
  {
    Raster(im.width, seq(Height(im), i requires 0 <= i < Height(im) =>
                     seq(im.width, j requires 0 <= j < im.width => f(im.rows[i][j]))))
  }

  ghost predicate Lossless(imencode: Image -> Bytes, imdecode: Bytes -> Option<Image>) {
    forall im: Image :: !IsEmpty(im) ==> DecodeImage(imdecode, imencode(im)) == Some(im)
  }

  /** The worker: fetch the task blob, decode, operate, encode. */
  function Worked(f: Pixel -> Pixel, imencode: Image -> Bytes, imdecode: Bytes -> Option<Image>, task: Bytes): Option<Bytes>
  {
    var image := DecodeImage(imdecode, task);
    if image.None? then None else Some(imencode(MapImage(f, image.value)))
  }

  /** The tile that comes back for geometry g of the original image. */
  ghost predicate ComesFrom(t: ProcessedTile, g: Geometry, image: Image, f: Pixel -> Pixel,
                            imencode: Image -> Bytes, imdecode: Bytes -> Option<Image>)
    requires Fits(g, image)
  {
    && t.id == g.id && t.x == g.x && t.y == g.y && t.width == g.width && t.height == g.height
    && Worked(f, imencode, imdecode, imencode(Crop(image, g))) == Some(t.bytes)
  }

  /** Every tile in the list is a processed tile of the layout; repetitions and any order are fine. */
  ghost predicate AllFromLayout(tiles: seq<ProcessedTile>, image: Image, tileSize: int, f: Pixel -> Pixel,
                                imencode: Image -> Bytes, imdecode: Bytes -> Option<Image>)
  {
    var layout := Layout(image.width, Height(image), tileSize);
    forall i :: 0 <= i < |tiles| ==>
      && 0 <= tiles[i].id < |layout| && Fits(layout[tiles[i].id], image)
      && ComesFrom(tiles[i], layout[tiles[i].id], image, f, imencode, imdecode)
  }

  predicate Present(tiles: seq<ProcessedTile>, id: int) {
    exists i :: 0 <= i < |tiles| && tiles[i].id == id
  }

  /** No tile of the layout is missing from the list. */
  ghost predicate AllPresent(tiles: seq<ProcessedTile>, image: Image, tileSize: int)
  {
    forall k :: 0 <= k < |Layout(image.width, Height(image), tileSize)| ==> Present(tiles, k)
  }

  predicate SomeCovers(tiles: seq<ProcessedTile>, width: nat, height: nat, px: nat, py: nat) {
    exists i :: 0 <= i < |tiles| && InSlice(tiles[i], width, height, px, py)
  }

  /** One processed tile writes exactly the operation's result, on exactly its own pixels. */
  lemma OneTile(t: ProcessedTile, g: Geometry, image: Image, f: Pixel -> Pixel,
                imencode: Image -> Bytes, imdecode: Bytes -> Option<Image>, px: nat, py: nat)
    requires Lossless(imencode, imdecode) && Fits(g, image) && ComesFrom(t, g, image, f, imencode, imdecode)
    requires px < image.width && py < Height(image)
    ensures InSlice(t, image.width, Height(image), px, py) <==> Contains(g, px, py)
    ensures var pasted := Pasted(imdecode, t, image.width, Height(image));
            && pasted.Some?
            && (InSlice(t, image.width, Height(image), px, py) ==>
                  PastedPixel(pasted.value, t, image.width, Height(image), px, py) == f(image.rows[py][px]))
  {
    var crop := Crop(image, g);
    assert DecodeImage(imdecode, imencode(crop)) == Some(crop);
    assert DecodeImage(imdecode, imencode(MapImage(f, crop))) == Some(MapImage(f, crop));
  }

  lemma CoversOneMore(tiles: seq<ProcessedTile>, width: nat, height: nat, px: nat, py: nat)
    requires tiles != []
    ensures SomeCovers(tiles, width, height, px, py) <==>
              || InSlice(tiles[|tiles| - 1], width, height, px, py)
              || SomeCovers(tiles[..|tiles| - 1], width, height, px, py)
  {
    var before := tiles[..|tiles| - 1];
    assert forall i :: 0 <= i < |before| ==> before[i] == tiles[i];
  }

  /** A pixel that some tile of the list covers ends up as f of the original pixel. */
  lemma {:induction false} CoveredPixel(tiles: seq<ProcessedTile>, image: Image, tileSize: int, f: Pixel -> Pixel,
                                        imencode: Image -> Bytes, imdecode: Bytes -> Option<Image>, px: nat, py: nat)
    requires Lossless(imencode, imdecode)
    requires AllFromLayout(tiles, image, tileSize, f, imencode, imdecode)
    requires px < image.width && py < Height(image)
    ensures PixelAfter(imdecode, tiles, image.width, Height(image), px, py) ==
              if SomeCovers(tiles, image.width, Height(image), px, py) then f(image.rows[py][px]) else BLACK
  {
    if tiles != [] {
      var before, t := tiles[..|tiles| - 1], tiles[|tiles| - 1];
      var g := Layout(image.width, Height(image), tileSize)[t.id];
      OneTile(t, g, image, f, imencode, imdecode, px, py);
      CoversOneMore(tiles, image.width, Height(image), px, py);
      if !InSlice(t, image.width, Height(image), px, py) {
        CoveredPixel(before, image, tileSize, f, imencode, imdecode, px, py);
      }
    }
  }

  /** The pixels the list covers are those of the covered rectangle. */
  lemma CoversRectangle(tiles: seq<ProcessedTile>, image: Image, tileSize: int, f: Pixel -> Pixel,
                        imencode: Image -> Bytes, imdecode: Bytes -> Option<Image>, px: nat, py: nat)
    requires tileSize != 0
    requires AllFromLayout(tiles, image, tileSize, f, imencode, imdecode)
    requires AllPresent(tiles, image, tileSize)
    requires px < image.width && py < Height(image)
    ensures SomeCovers(tiles, image.width, Height(image), px, py) <==>
              px < Covered(image.width, tileSize) && py < Covered(Height(image), tileSize)
  {
    var width, height := image.width, Height(image);
    if px < Covered(width, tileSize) && py < Covered(height, tileSize) {
      var k := EveryPixelTiled(width, height, tileSize, px, py);
      assert Present(tiles, k);
      var i :| 0 <= i < |tiles| && tiles[i].id == k;
      assert InSlice(tiles[i], width, height, px, py);
    } else if SomeCovers(tiles, image.width, Height(image), px, py) {
      var i :| 0 <= i < |tiles| && InSlice(tiles[i], width, height, px, py);
      ExactPartition(width, height, tileSize, tiles[i].id, px, py);
      assert false;
    }
  }

  /**
   Main result.  For a per-pixel operation and a lossless codec: splitting, processing each tile
   anywhere, and reconstructing from the results in any order and with any repetitions is
   processing the whole image, on the covered rectangle, with black outside it.
   */
  lemma TileByTileIsWhole(tiles: seq<ProcessedTile>, image: Image, tileSize: int, f: Pixel -> Pixel,
                          imencode: Image -> Bytes, imdecode: Bytes -> Option<Image>, px: nat, py: nat)
    requires tileSize != 0 && Lossless(imencode, imdecode)
    requires AllFromLayout(tiles, image, tileSize, f, imencode, imdecode)
    requires AllPresent(tiles, image, tileSize)
    requires px < image.width && py < Height(image)
    ensures PixelAfter(imdecode, tiles, image.width, Height(image), px, py) ==
              if px < Covered(image.width, tileSize) && py < Covered(Height(image), tileSize)
              then MapImage(f, image).rows[py][px] else BLACK
  {
    CoveredPixel(tiles, image, tileSize, f, imencode, imdecode, px, py);
    CoversRectangle(tiles, image, tileSize, f, imencode, imdecode, px, py);
  }
}
