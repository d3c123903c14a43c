/** One tile: its genomic range (src/ZarrMultivecDataFetcher.js lines
    115-121) and the record returned for it (lines 158-175). The chunk
    planning, the zarr reads and the dense assembly are done by helpers
    this model does not contain; they are one function parameter `read`. */
module Tiles {
  import opened Wrappers
  import opened Tileset

  /** Absolute genome coordinates `[start, end)`. */
  datatype Span = Span(start: int, end: int)

  /** Lines 120-121: tile `x` covers `tileSize` bins of `resolution` base
      pairs each, starting after `x` such tiles. */
  function TileSpan(tileSize: int, resolution: int, x: int): (r: Span)
    ensures r.end - r.start == tileSize * resolution
  {
    var start := x * tileSize * resolution;
    Span(start, start + tileSize * resolution)
  }

  /** Tiles `x` and `x + 1` at the same zoom level meet without gap or
      overlap. */
  lemma TilesAdjacent(tileSize: int, resolution: int, x: int)
    ensures TileSpan(tileSize, resolution, x).end == TileSpan(tileSize, resolution, x + 1).start
  {
  }

  /** With positive bins, the tiles of one zoom level partition the
      coordinate line: position `p` lies in exactly one tile, the one whose
      index is `p` divided by the tile's width, rounded down. */
  lemma TileContaining(tileSize: int, resolution: int, x: int, p: int)
    requires tileSize > 0 && resolution > 0
    ensures var r := TileSpan(tileSize, resolution, x);
            r.start <= p < r.end <==> x == p / (tileSize * resolution)
  {
    var w := tileSize * resolution;
    var r := TileSpan(tileSize, resolution, x);
    assert r.start == x * w;
    var q := p / w;
    assert q * w <= p < q * w + w;
    if r.start <= p < r.end {
      QuotientUnique(p, w, x, q);
    }
  }

  /** Two multiples of `w` below `p` within `w` of it are the same. */
  lemma QuotientUnique(p: int, w: int, x: int, q: int)
    requires w > 0
    requires x * w <= p < x * w + w
    requires q * w <= p < q * w + w
    ensures x == q
  {
    MulMonotone(x + 1, q, w);
    MulMonotone(q + 1, x, w);
  }

  lemma MulMonotone(a: int, b: int, w: int)
    requires w > 0
    ensures a <= b <==> a * w <= b * w
  {
    assert b * w - a * w == (b - a) * w;
  }

  /** `+tsInfo.resolutions[z]`: an index outside the list reads `undefined`,
      which converts to `NaN` (written `None`). */
  function ResolutionAt(resolutions: seq<int>, z: int): (r: Option<int>)
    ensures r.Some? <==> 0 <= z < |resolutions|
    ensures r.Some? ==> r.value == resolutions[z]
  {
    if 0 <= z < |resolutions| then Some(resolutions[z]) else None
  }

  /** Everything the chunk planning and reading helpers are given for one
      tile: the chromosome sizes, the bin size (also the resolution in the
      storage path), the tile size, the tile's absolute range (absent when
      the resolution is `NaN`, since `NaN` propagates through the
      arithmetic) and the shape the dense array is assembled to. */
  datatype TileQuery = TileQuery(
    chromSizes: seq<ChromSize>,
    binSize: Option<int>,
    tileSize: int,
    span: Option<Span>,
    denseShape: Shape)

  /** Lines 115-158: the query for tile `(z, x)`. */
  function QueryFor(info: TilesetInfo, z: int, x: int): (q: TileQuery)
    ensures q.chromSizes == info.chromSizes && q.tileSize == info.tileSize
    ensures q.binSize == ResolutionAt(info.resolutions, z)
    ensures q.span.Some? <==> 0 <= z < |info.resolutions|
    ensures q.span.Some? ==>
      q.span.value.end - q.span.value.start == info.tileSize * info.resolutions[z]
    ensures q.span.Some? ==> q.span.value == TileSpan(info.tileSize, info.resolutions[z], x)
    ensures q.denseShape.dim0 == info.shape.dim1 && q.denseShape.dim1 == info.shape.dim0
  {
    var resolution := ResolutionAt(info.resolutions, z);
    var span := if resolution.Some? then Some(TileSpan(info.tileSize, resolution.value, x)) else None;
    TileQuery(info.chromSizes, resolution, info.tileSize, span, Swap(info.shape))
  }

  /** The dense array is assembled to the shape the attributes store, since
      the derived info swapped it once and line 158 swaps it back. */
  lemma DenseShapeIsStoredShape(attrs: Attrs, z: int, x: int)
    requires DeriveTilesetInfo(attrs).Success?
    ensures QueryFor(DeriveTilesetInfo(attrs).value, z, x).denseShape == attrs.shape
  {
    SwapInvolution(attrs.shape);
  }

  /** The record resolved for one tile (lines 159-175), without the
      floating-point statistics. */
  datatype TileRecord<D> = TileRecord(
    dense: D,
    dtype: string,
    size: int,
    shape: Shape,
    tileId: string,
    tilePos: seq<int>,
    tilePositionId: string,
    zoomLevel: int)

  /** Lines 105-177: `None` when `read` fails, that is when anything from
      the chunk planning through the statistics of lines 161-166 throws or
      rejects, which rejects the tile's promise. */
  function Tile<D>(info: TilesetInfo, z: int, x: int, tileId: string, read: TileQuery -> Option<D>)
    : (r: Option<TileRecord<D>>)
    ensures r.Some? <==> read(QueryFor(info, z, x)).Some?
    ensures r.Some? ==>
      && r.value.dense == read(QueryFor(info, z, x)).value
      && r.value.zoomLevel == z
      && r.value.tilePos == [x]
      && r.value.tileId == tileId
      && r.value.tilePositionId == tileId
      && r.value.shape == info.shape
  {
    match read(QueryFor(info, z, x))
    case None => None
    case Some(dense) =>
      Some(TileRecord(
        dense := dense,
        dtype := "float32",
        size := 1,
        shape := info.shape,
        tileId := tileId,
        tilePos := [x],
        tilePositionId := tileId,
        zoomLevel := z))
  }
}
