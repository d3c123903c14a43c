/** The batch entry point `fetchTilesDebounced`
    (src/ZarrMultivecDataFetcher.js lines 74-103): identifiers are parsed
    and filtered in order, one tile is requested per kept identifier, and the
    results are stored in a mapping under their own identifiers once every
    request has resolved. The batch logic is stated for any identifier
    parser `parse`; `FetchTilesDebounced` uses `ParseTileId`. */
module Fetcher {
  import opened Wrappers
  import opened TileIds
  import opened Tileset
  import opened Tiles

  /** `a` keeps some of the elements of `b`, in the same order. */
  predicate IsSubsequence<T(==)>(a: seq<T>, b: seq<T>)
    decreases |b|
  {
    if |a| == 0 then true
    else if |b| == 0 then false
    else
      || (a[|a| - 1] == b[|b| - 1] && IsSubsequence(a[..|a| - 1], b[..|b| - 1]))
      || IsSubsequence(a, b[..|b| - 1])
  }

  /** The identifiers `parse` accepts, in input order. */
  function KeptIds(ids: seq<string>, parse: string -> Option<TileCoord>): (v: seq<string>)
    ensures IsSubsequence(v, ids)
    ensures forall i :: 0 <= i < |v| ==> parse(v[i]).Some?
  {
    if |ids| == 0 then []
    else
      var init := KeptIds(ids[..|ids| - 1], parse);
      var last := ids[|ids| - 1];
      if parse(last).Some? then init + [last] else init
  }

  /** Lines 80-88: the identifiers whose zoom level and position both
      parse. */
  function ValidTileIds(ids: seq<string>): seq<string> {
    KeptIds(ids, ParseTileId)
  }

  /** Appending one identifier keeps it exactly when it parses. */
  lemma KeptIdsSnoc(ids: seq<string>, id: string, parse: string -> Option<TileCoord>)
    ensures KeptIds(ids + [id], parse) == KeptIds(ids, parse) + (if parse(id).Some? then [id] else [])
  {
    assert (ids + [id])[..|ids|] == ids;
  }

  lemma KeptIdsStep(ids: seq<string>, i: nat, parse: string -> Option<TileCoord>)
    requires i < |ids|
    ensures KeptIds(ids[..i + 1], parse) == KeptIds(ids[..i], parse) + (if parse(ids[i]).Some? then [ids[i]] else [])
  {
    assert ids[..i + 1] == ids[..i] + [ids[i]];
    KeptIdsSnoc(ids[..i], ids[i], parse);
  }

  /** Every accepted identifier is kept as often as the input holds it, and
      every other identifier not at all. Together with the subsequence
      property this says the kept list is exactly the input filtered. */
  lemma {:induction false} KeptIdsCount(ids: seq<string>, id: string, parse: string -> Option<TileCoord>)
    ensures multiset(KeptIds(ids, parse))[id] == if parse(id).Some? then multiset(ids)[id] else 0
    decreases |ids|
  {
    if |ids| > 0 {
      var init := ids[..|ids| - 1];
      var last := ids[|ids| - 1];
      assert ids == init + [last];
      KeptIdsSnoc(init, last, parse);
      KeptIdsCount(init, id, parse);
    }
  }

  /** An identifier is requested exactly when it occurs in the input and
      both of its fields parse. */
  lemma ValidTileIdsMembership(ids: seq<string>, id: string)
    ensures id in ValidTileIds(ids) <==> id in ids && ParseTileId(id).Some?
  {
    KeptIdsCount(ids, id, ParseTileId);
  }

  /** A two-identifier batch keeps each one on its own merit. */
  lemma KeptIdsPair(a: string, b: string, parse: string -> Option<TileCoord>)
    ensures KeptIds([a, b], parse) ==
      (if parse(a).Some? then [a] else []) + (if parse(b).Some? then [b] else [])
  {
    KeptIdsSnoc([], a, parse);
    KeptIdsSnoc([a], b, parse);
    assert [] + [a] == [a];
    assert [a] + [b] == [a, b];
  }

  /** A batch such as ["0.0", "abc"]: a well-formed identifier followed by
      one without a '.' requests only the first. */
  lemma BatchOfValidAndInvalid(z: int, x: int, bad: string)
    requires '.' !in bad
    ensures ValidTileIds([TileIdText(z, x), bad]) == [TileIdText(z, x)]
  {
    TileIdRoundTrip(z, x);
    NoDotDropped(bad);
    KeptIdsPair(TileIdText(z, x), bad, ParseTileId);
  }

  /** The outcome of `this.tile(z, x, tileId)`: it rejects when the tileset
      info could not be derived, since reading `resolutions` of an
      undefined info throws. */
  function TileOutcome<D>(info: Result<TilesetInfo, MetadataError>, c: TileCoord, tileId: string,
                          read: TileQuery -> Option<D>): (r: Option<TileRecord<D>>)
    ensures r.Some? <==> info.Success? && read(QueryFor(info.value, c.z, c.x)).Some?
    ensures r.Some? ==> r.value.tilePositionId == tileId && r.value.tileId == tileId
    ensures r.Some? ==> r.value.zoomLevel == c.z && r.value.tilePos == [c.x]
  {
    match info
    case Failure(_) => None
    case Success(i) => Tile(i, c.z, c.x, tileId, read)
  }

  /** Lines 80-92: the kept identifiers in input order, with the
      coordinates each one parsed to. */
  method FilterTileIds(ids: seq<string>, parse: string -> Option<TileCoord>)
    returns (validIds: seq<string>, coords: seq<TileCoord>)
    ensures validIds == KeptIds(ids, parse)
    ensures |coords| == |validIds|
    ensures forall i :: 0 <= i < |validIds| ==> parse(validIds[i]) == Some(coords[i])
  {
    validIds := [];
    coords := [];
    for i := 0 to |ids|
      invariant validIds == KeptIds(ids[..i], parse)
      invariant |coords| == |validIds|
      invariant forall j :: 0 <= j < |validIds| ==> parse(validIds[j]) == Some(coords[j])
    {
      KeptIdsStep(ids, i, parse);
      var tileId := ids[i];
      var c := parse(tileId);
      if c.Some? {
        validIds := validIds + [tileId];
        coords := coords + [c.value];
      }
    }
    assert ids[..|ids|] == ids;
  }

  /** `Promise.all(tilePromises)`: the resolved records in request order, or
      `None` as soon as one request rejects. */
  method AwaitAll<D>(validIds: seq<string>, coords: seq<TileCoord>,
                     info: Result<TilesetInfo, MetadataError>, read: TileQuery -> Option<D>)
    returns (values: Option<seq<TileRecord<D>>>)
    requires |coords| == |validIds|
    ensures values.Some? <==>
      forall i :: 0 <= i < |validIds| ==> TileOutcome(info, coords[i], validIds[i], read).Some?
    ensures values.Some? ==>
      && |values.value| == |validIds|
      && forall i :: 0 <= i < |validIds| ==>
           TileOutcome(info, coords[i], validIds[i], read) == Some(values.value[i])
  {
    var done: seq<TileRecord<D>> := [];
    for i := 0 to |validIds|
      invariant |done| == i
      invariant forall j :: 0 <= j < i ==> TileOutcome(info, coords[j], validIds[j], read) == Some(done[j])
    {
      var outcome := TileOutcome(info, coords[i], validIds[i], read);
      if outcome.None? {
        return None;
      }
      done := done + [outcome.value];
    }
    return Some(done);
  }

  /** `tiles[k]` is the tagged record of the last position of `k` among
      the first `n` identifiers. */
  ghost predicate StoredLast<D>(tiles: map<string, TileRecord<D>>, validIds: seq<string>,
                                values: seq<TileRecord<D>>, n: int, k: string)
    requires k in tiles && 0 <= n <= |validIds| == |values|
  {
    && tiles[k].tilePositionId == k
    && exists i :: 0 <= i < n && validIds[i] == k && tiles[k] == values[i].(tilePositionId := k)
         && (forall l :: i < l < n ==> validIds[l] != k)
  }

  /** One step of the loop at lines 95-99: storing position `n` keeps
      every key's record the last one seen so far. */
  lemma StoreStep<D>(tiles: map<string, TileRecord<D>>, validIds: seq<string>,
                     values: seq<TileRecord<D>>, n: int)
    requires 0 <= n < |validIds| == |values|
    requires forall k :: k in tiles ==> StoredLast(tiles, validIds, values, n, k)
    ensures var next := tiles[validIds[n] := values[n].(tilePositionId := validIds[n])];
      forall k :: k in next ==> StoredLast(next, validIds, values, n + 1, k)
  {
    var next := tiles[validIds[n] := values[n].(tilePositionId := validIds[n])];
    forall k | k in next
      ensures StoredLast(next, validIds, values, n + 1, k)
    {
      if k == validIds[n] {
        assert next[k] == values[n].(tilePositionId := k);
      } else {
        var i :| 0 <= i < n && validIds[i] == k && tiles[k] == values[i].(tilePositionId := k)
                 && (forall l :: i < l < n ==> validIds[l] != k);
        assert forall l :: i < l < n + 1 ==> validIds[l] != k;
      }
    }
  }

  /** Lines 94-99: each record is stored under its identifier and tagged
      with it; a later duplicate identifier overwrites an earlier one, so
      the record kept is that of the identifier's last position. */
  method CollectTiles<D>(validIds: seq<string>, values: seq<TileRecord<D>>)
    returns (tiles: map<string, TileRecord<D>>)
    requires |values| == |validIds|
    ensures tiles.Keys == set id | id in validIds
    ensures forall k :: k in tiles ==>
      && tiles[k].tilePositionId == k
      && exists i :: 0 <= i < |validIds| && validIds[i] == k && tiles[k] == values[i].(tilePositionId := k)
           && (forall l :: i < l < |validIds| ==> validIds[l] != k)
  {
    tiles := map[];
    for i := 0 to |validIds|
      invariant tiles.Keys == set j | 0 <= j < i :: validIds[j]
      invariant forall k :: k in tiles ==> StoredLast(tiles, validIds, values, i, k)
    {
      StoreStep(tiles, validIds, values, i);
      var validTileId := validIds[i];
      tiles := tiles[validTileId := values[i].(tilePositionId := validTileId)];
    }
    assert tiles.Keys == set id | id in validIds by {
      forall id | id in validIds
        ensures id in tiles.Keys
      {
        var j :| 0 <= j < |validIds| && validIds[j] == id;
      }
    }
    assert forall k :: k in tiles ==> StoredLast(tiles, validIds, values, |validIds|, k);
  }

  /** The batch for any identifier parser. */
  method FetchBatch<D>(ids: seq<string>, parse: string -> Option<TileCoord>,
                       info: Result<TilesetInfo, MetadataError>, read: TileQuery -> Option<D>)
    returns (validIds: seq<string>, coords: seq<TileCoord>, delivered: Option<map<string, TileRecord<D>>>)
    ensures validIds == KeptIds(ids, parse)
    ensures |coords| == |validIds|
    ensures forall i :: 0 <= i < |validIds| ==> parse(validIds[i]) == Some(coords[i])
    ensures delivered.Some? <==>
      forall i :: 0 <= i < |validIds| ==> TileOutcome(info, coords[i], validIds[i], read).Some?
    ensures delivered.Some? ==> delivered.value.Keys == set id | id in validIds
    ensures delivered.Some? ==>
      forall k :: k in delivered.value ==>
        && parse(k).Some?
        && Some(delivered.value[k]) == TileOutcome(info, parse(k).value, k, read)
        && delivered.value[k].tilePositionId == k
  {
    validIds, coords := FilterTileIds(ids, parse);
    var values := AwaitAll(validIds, coords, info, read);
    if values.None? {
      return validIds, coords, None;
    }
    var tiles := CollectTiles(validIds, values.value);
    forall k | k in tiles
      ensures parse(k).Some? && Some(tiles[k]) == TileOutcome(info, parse(k).value, k, read)
    {
      var i :| 0 <= i < |validIds| && validIds[i] == k && tiles[k] == values.value[i].(tilePositionId := k);
      assert parse(k) == Some(coords[i]);
    }
    delivered := Some(tiles);
  }

  /** `fetchTilesDebounced`. `info` is the tileset info every tile of the
      batch resolves, `read` stands for the chunk planning, reading and
      assembly helpers. `delivered` is what reaches `receivedTiles`: `None`
      when some tile rejects, since `Promise.all` then never resolves. An
      empty batch delivers an empty mapping without touching the info. */
  method FetchTilesDebounced<D>(ids: seq<string>, info: Result<TilesetInfo, MetadataError>,
                                read: TileQuery -> Option<D>)
    returns (validIds: seq<string>, coords: seq<TileCoord>, delivered: Option<map<string, TileRecord<D>>>)
    ensures validIds == ValidTileIds(ids)
    ensures |coords| == |validIds|
    ensures forall i :: 0 <= i < |validIds| ==> ParseTileId(validIds[i]) == Some(coords[i])
    ensures delivered.Some? <==>
      forall i :: 0 <= i < |validIds| ==> TileOutcome(info, coords[i], validIds[i], read).Some?
    ensures delivered.Some? ==> delivered.value.Keys == set id | id in validIds
    ensures delivered.Some? ==>
      forall k :: k in delivered.value ==>
        && ParseTileId(k).Some?
        && Some(delivered.value[k]) == TileOutcome(info, ParseTileId(k).value, k, read)
        && delivered.value[k].tilePositionId == k
  {
    validIds, coords, delivered := FetchBatch(ids, ParseTileId, info, read);
  }
}
