# Zarr multivec data fetcher: a Dafny model of its pure logic

`ZarrMultivecDataFetcher` is a HiGlass data fetcher that serves multivec
tiles (several signal channels along a genome) out of a Zarr store. Most of
it is plumbing: it reads `.zattrs` over HTTP, opens Zarr arrays and waits on
promises. This project models the deterministic logic left once that
plumbing is removed, and proves what that logic guarantees.

- `JsParseInt` (`js_parse_int.dfy`) models ECMAScript `parseInt(s, 10)` as a
  prefix parser. It skips leading white space, takes at most one sign, then
  reads the longest run of decimal digits. `NaN` is written `None`.
- `TileIds` (`tile_ids.dfy`) models how a `"z.x"` tile identifier is read.
  The text is split on `'.'` (modelled as `String.prototype.split` with a
  one-character separator), and the first two fields go through `parseInt`.
  A missing field is the value `undefined`, which `parseInt` reads as the
  text `"undefined"`.
- `Tileset` (`tileset.dfy`) models how the tileset info is derived from the
  already-decoded attributes. It builds `chromSizes`, swaps the shape, and
  sets `tile_size`, `max_width`, `min_pos` and `max_pos`.
- `Tiles` (`tiles.dfy`) models one tile. It covers the genomic range
  `[x·tileSize·resolution, tileStart + tileSize·resolution)`, what is handed
  to the chunk helpers, and the fields the returned record echoes.
- `Fetcher` (`fetcher.dfy`) models the batch entry point
  `fetchTilesDebounced`. It filters identifiers in order, requests one tile
  per kept identifier, and shares fate through `Promise.all`: one rejected
  tile means nothing is delivered. The result mapping is keyed and tagged by
  identifier.
- `Wrappers` (`wrappers.dfy`) holds `Option` and `Result`.

The chunk planning, reading and assembly helpers (`abs2genomic`,
`genomicRangeToChromosomeChunks`, `multivecChunksToTileDenseArray` and the
Zarr reads) and the tile statistics after them (`DenseDataExtrema1D`,
`Math.min.apply`, `Math.max.apply`, `minNonZero`, `maxNonZero`) are outside
this model. Together, lines 129-166, they appear as a single function
parameter `read` from the tile's query to `Option<D>`. Its `None` stands for
a throw or rejection anywhere in that chain. That includes a `RangeError`
from `Math.min.apply` on a dense array longer than the engine's argument
limit. In the same way, the batch is given the outcome of
`tilesetInfo()` as a parameter `info`. A failed read of `.zattrs` or text
that is not JSON is the error `UnreadableAttributes`, which only arrives
through that parameter.

Some behaviour of the code is easy to miss, and the model keeps it:

- Tile coordinates are not required to be non-negative. `parseInt` accepts
  `"-1"` and `"3abc"`, and so does the model.
- A zoom level outside `resolutions` is not rejected. `+resolutions[z]` is
  then `NaN`, so the tile's range is `NaN`. The model uses `None` for this
  and passes it on to `read`.
- `max_width` is taken from the last chromosome's offset plus size, not from
  the sum of the sizes. The two agree when the offsets are contiguous
  (`MaxWidthIsGenomeLength`).
- An empty `multiscales` list makes the derivation throw. This is reported
  as a failure.

## Model

| member | source | states |
|---|---|---|
| JsParseInt.ParseIntAccepts | src/ZarrMultivecDataFetcher.js:82-83 | Any white space, then at most one sign, then a non-empty digit run, then anything that does not start with a digit, parses to the signed decimal value of the digits. Trailing text is ignored and negative values are accepted. |
| JsParseInt.ParseInt | src/ZarrMultivecDataFetcher.js:82-83 | `parseInt(_, 10)`: after the leading white space and at most one sign, the result is `NaN` iff no digit follows, and otherwise it is the signed decimal value of the longest digit run. `ParseIntAccepts` and `ParseIntRejects` restate this for every input by the shape of the text. |
| JsParseInt.ParseIntRejects | src/ZarrMultivecDataFetcher.js:82-85 | When no digit follows the white space and the optional sign, the result is `NaN`. This covers text that is empty, a lone sign, a second sign, or white space after the sign. |
| JsParseInt.ParseIntRoundTrip | src/ZarrMultivecDataFetcher.js:82-83 | The decimal rendering of any integer parses back to that integer, even with non-digit text after it. |
| JsParseInt.ParseIntOfDecimal | src/ZarrMultivecDataFetcher.js:82-83 | The decimal rendering of any integer, on its own, parses back to it. |
| JsParseInt.ParseIntUnpadded | src/ZarrMultivecDataFetcher.js:82-83 | A sign followed by digits (with no leading white space) parses to the signed value of the digits. |
| JsParseInt.UndefinedIsNaN | src/ZarrMultivecDataFetcher.js:83 | `parseInt(undefined, 10)`, the value used when the second field is missing, is `NaN`. |
| JsParseInt.TrailingTextIgnored | src/ZarrMultivecDataFetcher.js:82 | `parseInt("3abc", 10)` is 3. |
| JsParseInt.NegativeAccepted | src/ZarrMultivecDataFetcher.js:82 | `parseInt("-1", 10)` is -1. |
| JsParseInt.NoDigitsRejected | src/ZarrMultivecDataFetcher.js:82 | `parseInt("abc", 10)` is `NaN`. |
| JsParseInt.DoubleSignRejected | src/ZarrMultivecDataFetcher.js:82 | `parseInt("-+5", 10)` is `NaN`, because only one sign is taken. |
| TileIds.Split | src/ZarrMultivecDataFetcher.js:81 | `split('.')` returns at least one field, and no field contains a separator. There is exactly one field iff the text has no separator. Joining the fields with the separator gives back the text. |
| TileIds.SplitJoin | src/ZarrMultivecDataFetcher.js:81 | Splitting fields that were joined with a separator they do not contain gives back exactly those fields. |
| TileIds.SplitFirstTwo | src/ZarrMultivecDataFetcher.js:81 | In `a.b` followed by a tail that is empty or starts with `.`, the first two fields are `a` and `b`. |
| TileIds.BothNumbers | src/ZarrMultivecDataFetcher.js:85-88 | A coordinate exists iff neither `z` nor `x` is `NaN`, and then it holds their values. |
| TileIds.ParseTileId | src/ZarrMultivecDataFetcher.js:81-85 | A kept identifier contains a `.`. |
| TileIds.ParseTileIdFields | src/ZarrMultivecDataFetcher.js:81-88 | An identifier `a.b` followed by an empty or `.`-led tail is kept iff `parseInt(a)` and `parseInt(b)` are both numbers, and its coordinates are their values. Fields past the second are ignored. |
| TileIds.NoDotDropped | src/ZarrMultivecDataFetcher.js:81-87 | An identifier without a `.` (such as `"abc"` or `"5"`) is always dropped. |
| TileIds.Field | src/ZarrMultivecDataFetcher.js:82-83 | `parts[i]` is the field itself when it exists, and otherwise `undefined`, which `parseInt` turns into `NaN`. |
| TileIds.TwoFieldsKept | src/ZarrMultivecDataFetcher.js:81-85 | `a.b` with both fields parsing is kept with their values. |
| TileIds.TileIdRoundTrip | src/ZarrMultivecDataFetcher.js:81-85 | The identifier written as `z.x` from any coordinates parses back to those coordinates. For example, `"0.0"` is zoom level 0, tile 0. |
| Tileset.SwapInvolution | src/ZarrMultivecDataFetcher.js:48 | Swapping the shape twice gives back the stored shape. A swap changes nothing iff both dimensions are equal. |
| Tileset.Swap | src/ZarrMultivecDataFetcher.js:48 | `[shape[1], shape[0]]`: the two dimensions trade places. `SwapInvolution` shows that line 158 undoes it. |
| Tileset.ChromSizes | src/ZarrMultivecDataFetcher.js:41 | There is one `(name, chromsize)` pair per `multiscales` entry, in the same order. |
| Tileset.DeriveTilesetInfo | src/ZarrMultivecDataFetcher.js:41-53 | The derivation fails iff there are no chromosomes. Otherwise `shape` is the stored shape swapped, `tile_size` is stored `shape[1]`, `chromSizes` matches the entries pointwise, `max_width` is the last entry's offset plus size, `max_pos == [max_width]`, `min_pos == [0]`, and the other attributes are carried over. |
| Tileset.OffsetIsPrefixLength | src/ZarrMultivecDataFetcher.js:43-44 | With contiguous offsets, each chromosome's offset is the total size of the chromosomes before it. |
| Tileset.MaxWidthIsGenomeLength | src/ZarrMultivecDataFetcher.js:43-44 | With contiguous offsets, the derived `max_width` equals the sum of all chromosome sizes. |
| Tiles.TileSpan | src/ZarrMultivecDataFetcher.js:120-121 | A tile spans exactly `tileSize·resolution` base pairs. |
| Tiles.TilesAdjacent | src/ZarrMultivecDataFetcher.js:120-121 | Tile `x` ends where tile `x+1` starts. |
| Tiles.TileContaining | src/ZarrMultivecDataFetcher.js:120-121 | With positive tile size and resolution, position `p` lies in tile `x` iff `x` is `p` divided by the tile width, rounded down. So each position lies in exactly one tile. |
| Tiles.ResolutionAt | src/ZarrMultivecDataFetcher.js:115 | `+resolutions[z]` is a number iff `z` indexes the list, and then it is that entry. |
| Tiles.QueryFor | src/ZarrMultivecDataFetcher.js:115-158 | The chunk helpers receive the info's `chromSizes` and `tile_size` and the resolution as bin size. The range exists iff `z` is in range, and then it is tile `x`'s range `TileSpan(tileSize, resolutions[z], x)`, starting at `x·tileSize·resolutions[z]` with width `tileSize·resolutions[z]`. The dense shape is the info's shape swapped. |
| Tiles.DenseShapeIsStoredShape | src/ZarrMultivecDataFetcher.js:158 | The dense array is assembled to exactly the shape stored in the attributes. |
| Tiles.Tile | src/ZarrMultivecDataFetcher.js:157-175 | A tile resolves iff its read resolves. The read covers lines 129-166, so a throw in the statistics also rejects the tile. Its record then holds the read data and echoes `zoomLevel == z`, `tilePos == [x]`, `tileId`, `tilePositionId` and the info's shape. |
| Fetcher.KeptIds | src/ZarrMultivecDataFetcher.js:80-90 | The kept identifiers are a subsequence of the input, in input order, and every one of them parses. |
| Fetcher.KeptIdsCount | src/ZarrMultivecDataFetcher.js:80-90 | Each identifier that parses is kept as many times as it occurs in the input. Every other identifier is kept zero times. |
| Fetcher.ValidTileIdsMembership | src/ZarrMultivecDataFetcher.js:80-90 | An identifier is requested iff it occurs in the input and parses. |
| Fetcher.KeptIdsPair | src/ZarrMultivecDataFetcher.js:80-90 | In a two-identifier batch, each identifier is kept on its own merit, in order. |
| Fetcher.BatchOfValidAndInvalid | src/ZarrMultivecDataFetcher.js:80-90 | A batch such as `["0.0", "abc"]` (a well-formed identifier, then one without a `.`) requests only the first. |
| Fetcher.TileOutcome | src/ZarrMultivecDataFetcher.js:105-115 | `this.tile(z, x, tileId)` resolves iff the tileset info was derived and the read resolves. It is then tagged with its identifier and coordinates. |
| Fetcher.FilterTileIds | src/ZarrMultivecDataFetcher.js:80-92 | The loop returns the kept identifiers, each paired with the coordinates it parsed to. |
| Fetcher.AwaitAll | src/ZarrMultivecDataFetcher.js:94 | `Promise.all` resolves iff every tile resolves, and then its values are the tiles' records in request order. |
| Fetcher.CollectTiles | src/ZarrMultivecDataFetcher.js:94-99 | The mapping's keys are exactly the kept identifiers. Each value is the record of the key's last position in the request list, tagged with the key, so a later duplicate overwrites an earlier one. |
| Fetcher.StoreStep | src/ZarrMultivecDataFetcher.js:95-99 | One store of the loop keeps, for every key, the record of its last position seen so far. |
| Fetcher.FetchBatch | src/ZarrMultivecDataFetcher.js:74-101 | The whole batch, for any identifier parser, with the guarantees of the steps above combined. |
| Fetcher.FetchTilesDebounced | src/ZarrMultivecDataFetcher.js:74-103 | Something is delivered iff every kept tile resolves. The delivered keys are exactly the kept identifiers, and each value is the tile for the coordinates its key parses to, tagged with that key. |

## Left out

- Reading `.zattrs` over HTTP, UTF-8 decoding and `JSON.parse` (src/ZarrMultivecDataFetcher.js:23, 31-37) are network I/O and a foreign parser. The decoded attributes are an input datatype.
- The Zarr `openArray`/`get`/`slice` reads and the helpers `abs2genomic`, `genomicRangeToChromosomeChunks` and `multivecChunksToTileDenseArray` (lines 3, 129-158) come from a storage library and a utilities file that are not part of this model. They are the parameter `read`.
- `max_zoom` (line 54) and the tile statistics `min_value`, `max_value`, `minNonZero`, `maxNonZero` and `denseDataExtrema` (lines 13, 161-166) are floating-point computations and host-library helpers. Their values are not modelled; a failure of any of them is part of `read`'s `None`.
- The callback and `catch` reporting of `tilesetInfo` (lines 57-71), including the text `Error parsing zarr multivec: …`, is asynchronous plumbing. A failed derivation is a `Failure` value.
- `uuidv4`, the `new.target` guard, the `tilesetInfoLoading` flag and `console.warn` (lines 7-11, 18, 28, 39, 64, 86) are randomness, class mechanics, mutable state and logging.
- The constant record fields `dtype: 'float32'`, `size: 1`, `server: null` and `tilesetUid: null` (lines 162, 167-168, 173) are not stated in a contract. The first two are set in `Tile`; the null fields are not modelled.
- The source re-derives the tileset info for every tile. The model gives the whole batch one outcome `info`, because the source reads the same document every time.
- `fetchTilesDebounced` returns the object `tiles` before it is filled (line 102). Only what `receivedTiles` is called with is modelled.
- JavaScript numbers are doubles, but the model uses unbounded integers. `parseInt` of more than 15-16 digits and products past 2^53 lose precision in the source and not in the model. `parseInt("-0")` is `-0` in the source and 0 here.
- Strings are sequences of UTF-16 code units in the source. White space outside the Basic Multilingual Plane does not arise, because every WhiteSpace code point is in it.
- The stored shape is a pair. The source reads only `shape[0]` and `shape[1]`, and a shorter list would give `undefined`, which is not modelled.
- TileIds.ParseTileId: its own contract says only that a kept identifier contains a `.`. Its exact behaviour is stated by `ParseTileIdFields` and `NoDotDropped`, which between them cover every identifier.
