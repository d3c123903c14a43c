/** Tileset info derived from the dataset's already-decoded `.zattrs`
    attributes (src/ZarrMultivecDataFetcher.js lines 41-53). Reading and
    decoding the attributes document is not part of this model. */
module Tileset {
  import opened Wrappers

  /** One `multiscales` entry: a chromosome name with its `metadata`. */
  datatype ChromEntry = ChromEntry(name: string, chromoffset: int, chromsize: int)

  /** A two-dimensional array shape `[dim0, dim1]`. */
  datatype Shape = Shape(dim0: int, dim1: int)

  /** The decoded attributes the derivation reads. The stored shape is
      `[channels, tile width]`; the derived info swaps it to
      `[tile width, channels]`. */
  datatype Attrs = Attrs(multiscales: seq<ChromEntry>, shape: Shape, resolutions: seq<int>)

  /** A `[name, size]` pair of `chromSizes`. */
  datatype ChromSize = ChromSize(name: string, size: int)

  /** The derived tileset info; `multiscales` and `resolutions` are carried
      over unchanged from the attributes, `shape` is overridden. */
  datatype TilesetInfo = TilesetInfo(
    multiscales: seq<ChromEntry>,
    resolutions: seq<int>,
    shape: Shape,
    chromSizes: seq<ChromSize>,
    tileSize: int,
    maxWidth: int,
    minPos: seq<int>,
    maxPos: seq<int>)

  /** Why no tileset info could be derived. `UnreadableAttributes`: the
      store could not deliver `.zattrs` or its text is not JSON (lines
      31-37); the model does not read the store, so this failure only
      arrives as a given outcome. `NoChromosomes`: there is no final
      chromosome to read `metadata` from (line 44). Either way the error
      is caught at line 63 and no caller inspects which one it was. */
  datatype MetadataError = UnreadableAttributes | NoChromosomes

  /** Lines 48 and 158: `[shape[1], shape[0]]`. */
  function Swap(s: Shape): (r: Shape)
    ensures r.dim0 == s.dim1 && r.dim1 == s.dim0
  {
    Shape(s.dim1, s.dim0)
  }

  /** Swapping the dimensions twice gives back the same shape. */
  lemma SwapInvolution(s: Shape)
    ensures Swap(Swap(s)) == s
    ensures Swap(s) == s <==> s.dim0 == s.dim1
  {
  }

  /** Line 41: one `(name, chromsize)` pair per entry, in entry order. */
  function ChromSizes(ms: seq<ChromEntry>): (cs: seq<ChromSize>)
    ensures |cs| == |ms|
    ensures forall i :: 0 <= i < |ms| ==> cs[i] == ChromSize(ms[i].name, ms[i].chromsize)
  {
    if |ms| == 0 then []
    else ChromSizes(ms[..|ms| - 1]) + [ChromSize(ms[|ms| - 1].name, ms[|ms| - 1].chromsize)]
  }

  /** Lines 41-53. An empty `multiscales` list has no final entry; reading
      its `metadata` throws, and the caller reports the failure. */
  function DeriveTilesetInfo(attrs: Attrs): (r: Result<TilesetInfo, MetadataError>)
    ensures r.Failure? <==> |attrs.multiscales| == 0
    ensures r.Success? ==>
      var info := r.value;
      var last := attrs.multiscales[|attrs.multiscales| - 1];
      && info.shape.dim0 == attrs.shape.dim1
      && info.shape.dim1 == attrs.shape.dim0
      && info.tileSize == attrs.shape.dim1
      && |info.chromSizes| == |attrs.multiscales|
      && (forall i :: 0 <= i < |attrs.multiscales| ==>
            info.chromSizes[i].name == attrs.multiscales[i].name
            && info.chromSizes[i].size == attrs.multiscales[i].chromsize)
      && info.maxWidth == last.chromoffset + last.chromsize
      && info.maxPos == [info.maxWidth]
      && info.minPos == [0]
      && info.multiscales == attrs.multiscales
      && info.resolutions == attrs.resolutions
  {
    var ms := attrs.multiscales;
    if |ms| == 0 then Failure(NoChromosomes)
    else
      var finalChrom := ms[|ms| - 1];
      var maxPos := finalChrom.chromoffset + finalChrom.chromsize;
      Success(TilesetInfo(
        multiscales := ms,
        resolutions := attrs.resolutions,
        shape := Swap(attrs.shape),
        chromSizes := ChromSizes(ms),
        tileSize := attrs.shape.dim1,
        maxWidth := maxPos,
        minPos := [0],
        maxPos := [maxPos]))
  }

  /** Sum of the chromosome sizes: the length of the concatenated genome. */
  function GenomeLength(cs: seq<ChromSize>): int {
    if |cs| == 0 then 0 else GenomeLength(cs[..|cs| - 1]) + cs[|cs| - 1].size
  }

  /** Each chromosome starts where the previous one ends, the first at 0. */
  predicate Contiguous(ms: seq<ChromEntry>) {
    && (|ms| > 0 ==> ms[0].chromoffset == 0)
    && forall i :: 0 < i < |ms| ==> ms[i].chromoffset == ms[i - 1].chromoffset + ms[i - 1].chromsize
  }

  /** In a contiguous layout each offset is the total size of the
      chromosomes before it. */
  lemma {:induction false} OffsetIsPrefixLength(ms: seq<ChromEntry>, k: nat)
    requires Contiguous(ms) && k < |ms|
    ensures ms[k].chromoffset == GenomeLength(ChromSizes(ms[..k]))
    decreases k
  {
    if k > 0 {
      OffsetIsPrefixLength(ms, k - 1);
      assert ms[..k][..k - 1] == ms[..k - 1];
      assert ChromSizes(ms[..k])[..k - 1] == ChromSizes(ms[..k - 1]);
    }
  }

  /** The code takes `max_width` from the last entry's offset and size; when
      the offsets are laid out contiguously this is the genome length, the
      sum of all chromosome sizes. */
  lemma MaxWidthIsGenomeLength(attrs: Attrs)
    requires |attrs.multiscales| > 0 && Contiguous(attrs.multiscales)
    ensures DeriveTilesetInfo(attrs).value.maxWidth == GenomeLength(DeriveTilesetInfo(attrs).value.chromSizes)
  {
    var ms := attrs.multiscales;
    var n := |ms|;
    OffsetIsPrefixLength(ms, n - 1);
    var cs := ChromSizes(ms);
    assert cs[..n - 1] == ChromSizes(ms[..n - 1]);
  }
}
