/** The rectangle of query heads and query rows behind a tile (n1, s1) of a batch. */
module Tiles {
  import opened Arith
  import opened SplitParams

  /** First and one past the last query head of head block n1, and the same for the query rows
      of query block s1. */
  function HeadStart(ctx: Context, p: BatchParams, n1: int): int
    requires ctx.Valid() && p.qNBlockNumPerGroup >= 1
  {
    n1 / p.qNBlockNumPerGroup * ctx.GroupSize() + n1 % p.qNBlockNumPerGroup * p.curQNBlockTile
  }

  function HeadEnd(ctx: Context, p: BatchParams, n1: int): int
    requires ctx.Valid() && p.qNBlockNumPerGroup >= 1
  {
    Min(HeadStart(ctx, p, n1) + p.curQNBlockTile, (n1 / p.qNBlockNumPerGroup + 1) * ctx.GroupSize())
  }

  function QStart(p: BatchParams, s1: int): int { s1 * p.curQSBlockTile }

  function QEnd(p: BatchParams, s1: int): int { Min(QStart(p, s1) + p.curQSBlockTile, p.qSeqlen) }

  /** Number of (query head, query row) pairs of tile (b, n1, s1). */
  ghost function TileSize(ctx: Context, b: int, n1: int, s1: int): int
    requires ctx.Valid() && 0 <= b < ctx.batchSize
  {
    var p := GetBatchParams(ctx, b);
    (HeadEnd(ctx, p, n1) - HeadStart(ctx, p, n1)) * (QEnd(p, s1) - QStart(p, s1))
  }

  /** The rectangle of tile (n1, s1) holds query head h and query row q. */
  predicate InTile(ctx: Context, p: BatchParams, n1: int, s1: int, h: int, q: int)
    requires ctx.Valid() && p.qNBlockNumPerGroup >= 1
  {
    && HeadStart(ctx, p, n1) <= h < HeadEnd(ctx, p, n1)
    && QStart(p, s1) <= q < QEnd(p, s1)
  }

  /** The head block that holds head h. */
  function HeadBlock(ctx: Context, p: BatchParams, h: int): int
    requires ctx.Valid() && p.curQNBlockTile >= 1
  {
    GroupIsPositive(ctx);
    h / ctx.GroupSize() * p.qNBlockNumPerGroup + h % ctx.GroupSize() / p.curQNBlockTile
  }

  /** Group and place in the group determine a head block, and the other way round. */
  lemma HeadBlockParts(n1: int, npg: int, k: int, i: int)
    requires npg >= 1 && 0 <= i < npg
    ensures n1 == k * npg + i <==> (n1 / npg == k && n1 % npg == i)
  {
    if n1 == k * npg + i {
      assert (k + 1) * npg == k * npg + npg;
      DivideBetween(n1, npg, k);
    }
  }

  /** The i-th tile of a group of `group` heads holds offset r exactly if r / tile == i. */
  lemma OffsetInTile(r: int, group: int, tile: int, npg: int, i: int)
    requires tile >= 1 && 0 <= r < group && npg == CeilDiv(group, tile) && 0 <= i
    ensures (i * tile <= r < Min(i * tile + tile, group)) <==> i == r / tile
    ensures 0 <= r / tile < npg
  {
    CeilDivBounds(group, tile);
    QuotientBelow(r, tile, npg);
    assert (i + 1) * tile == i * tile + tile;
    if i * tile <= r < i * tile + tile {
      DivideBetween(r, tile, i);
    }
  }

  /** A head lies in head block n1 exactly if its group and its place in the group say so. */
  lemma HeadInBlock(ctx: Context, b: int, n1: int, h: int)
    requires ctx.Valid() && 0 <= b < ctx.batchSize && 0 <= n1 && 0 <= h
    ensures var p := GetBatchParams(ctx, b);
            (HeadStart(ctx, p, n1) <= h < HeadEnd(ctx, p, n1)) <==> n1 == HeadBlock(ctx, p, h)
  {
    TileNumbers(ctx, b);
    GroupIsPositive(ctx);
    hide GetBatchParams, CeilDiv, Context.Valid, Context.GroupSize;
    var p := GetBatchParams(ctx, b);
    HeadInParts(n1, h, ctx.GroupSize(), p.qNBlockNumPerGroup, p.curQNBlockTile);
  }

  lemma TileNumbers(ctx: Context, b: int)
    requires ctx.Valid() && 0 <= b < ctx.batchSize
    ensures var p := GetBatchParams(ctx, b);
            p.qNBlockNumPerGroup == CeilDiv(ctx.GroupSize(), p.curQNBlockTile)
  {
    hide GetQNBlockTile, CeilDiv;
  }

  lemma HeadInParts(n1: int, h: int, group: int, npg: int, tile: int)
    requires 0 <= n1 && 0 <= h && group >= 1 && tile >= 1 && npg >= 1 && npg == CeilDiv(group, tile)
    ensures var start := n1 / npg * group + n1 % npg * tile;
            (start <= h < Min(start + tile, (n1 / npg + 1) * group)) <==> n1 == h / group * npg + h % group / tile
  {
    var k, i := n1 / npg, n1 % npg;
    var kh, r := h / group, h % group;
    hide CeilDiv;
    OffsetInTile(r, group, tile, npg, i);
    HeadBlockParts(n1, npg, kh, r / tile);
    GroupOfHead(h, group, k, i * tile, tile);
  }

  lemma GroupOfHead(h: int, group: int, k: int, o: int, tile: int)
    requires group >= 1 && 0 <= o && tile >= 0
    ensures (k * group + o <= h < Min(k * group + o + tile, (k + 1) * group))
       <==> (h / group == k && o <= h % group < Min(o + tile, group))
  {
    assert (k + 1) * group == k * group + group;
    if k * group <= h < (k + 1) * group {
      DivideBetween(h, group, k);
    }
  }

  /** Every query head and query row of a batch lies in exactly one tile. */
  lemma TilesPartition(ctx: Context, b: int, h: int, q: int)
    requires ctx.Valid() && 0 <= b < ctx.batchSize
    requires 0 <= h < ctx.GroupSize() * ctx.numHeadsK && 0 <= q < GetBatchParams(ctx, b).qSeqlen
    ensures var p := GetBatchParams(ctx, b);
            && 0 <= HeadBlock(ctx, p, h) < p.curQNBlockNum
            && 0 <= q / Q_TILE_CEIL < p.curQSBlockNum
    ensures var p := GetBatchParams(ctx, b);
            forall n1, s1 :: 0 <= n1 < p.curQNBlockNum && 0 <= s1 < p.curQSBlockNum ==>
                               (InTile(ctx, p, n1, s1, h, q) <==> n1 == HeadBlock(ctx, p, h) && s1 == q / Q_TILE_CEIL)
  {
    var p := GetBatchParams(ctx, b);
    GroupIsPositive(ctx);
    HeadBlockInRange(ctx, b, h);
    forall n1, s1 | 0 <= n1 < p.curQNBlockNum && 0 <= s1 < p.curQSBlockNum
      ensures InTile(ctx, p, n1, s1, h, q) <==> n1 == HeadBlock(ctx, p, h) && s1 == q / Q_TILE_CEIL
    {
      HeadInBlock(ctx, b, n1, h);
      hide GetBatchParams, HeadStart, HeadEnd, HeadBlock;
    }
  }

  lemma HeadBlockInRange(ctx: Context, b: int, h: int)
    requires ctx.Valid() && 0 <= b < ctx.batchSize && 0 <= h < ctx.GroupSize() * ctx.numHeadsK
    ensures var p := GetBatchParams(ctx, b); 0 <= HeadBlock(ctx, p, h) < p.curQNBlockNum
  {
    var p := GetBatchParams(ctx, b);
    GroupIsPositive(ctx);
    var group, npg, tile := ctx.GroupSize(), p.qNBlockNumPerGroup, p.curQNBlockTile;
    var kh, r := h / group, h % group;
    assert npg == CeilDiv(group, tile);
    assert p.curQNBlockNum == npg * ctx.numHeadsK;
    hide GetBatchParams, CeilDiv;
    OffsetInTile(r, group, tile, npg, 0);
    assert group * ctx.numHeadsK == ctx.numHeadsK * group;
    QuotientBelow(h, group, ctx.numHeadsK);
    RowMajorBelow(kh, r / tile, ctx.numHeadsK, npg);
    assert npg * ctx.numHeadsK == ctx.numHeadsK * npg;
  }

  lemma RowMajorBelow(i: int, j: int, rows: int, width: int)
    requires 0 <= i < rows && 0 <= j < width
    ensures 0 <= i * width + j < rows * width
  {
    MulMono(0, i, width);
    MulMono(i + 1, rows, width);
    assert (i + 1) * width == i * width + width;
  }

  /** A tile is a non-empty rectangle of at most 128 (head, row) pairs inside one group of
      heads that share their keys; with more than one query block it has a single head. */
  lemma TileShape(ctx: Context, b: int, n1: int, s1: int)
    requires ctx.Valid() && 0 <= b < ctx.batchSize
    requires 0 <= n1 < GetBatchParams(ctx, b).curQNBlockNum && 0 <= s1 < GetBatchParams(ctx, b).curQSBlockNum
    ensures var p := GetBatchParams(ctx, b);
            var k := n1 / p.qNBlockNumPerGroup;
            && 0 <= k < ctx.numHeadsK
            && k * ctx.GroupSize() <= HeadStart(ctx, p, n1) < HeadEnd(ctx, p, n1) <= (k + 1) * ctx.GroupSize()
            && HeadEnd(ctx, p, n1) - HeadStart(ctx, p, n1) <= p.curQNBlockTile
            && 0 <= QStart(p, s1) < QEnd(p, s1) <= p.qSeqlen
            && (p.curQSBlockNum > 1 ==> HeadEnd(ctx, p, n1) - HeadStart(ctx, p, n1) == 1)
    ensures 1 <= TileSize(ctx, b, n1, s1) <= 128
  {
    var p := GetBatchParams(ctx, b);
    HeadRange(ctx, b, n1);
    assert 0 <= QStart(p, s1) < QEnd(p, s1) <= p.qSeqlen && QEnd(p, s1) - QStart(p, s1) <= Q_TILE_CEIL;
    assert p.curQSBlockNum > 1 ==> p.curQNBlockTile == 1;
    assert p.curQSBlockNum == 1 ==> p.qSeqlen <= Q_TILE_CEIL && p.qSeqlen * p.curQNBlockTile <= Q_TILE_CEIL;
    var heads, rows := HeadEnd(ctx, p, n1) - HeadStart(ctx, p, n1), QEnd(p, s1) - QStart(p, s1);
    assert TileSize(ctx, b, n1, s1) == heads * rows;
    hide *;
    MulMono(1, heads, rows);
    if p.curQSBlockNum == 1 {
      MulMono(heads, p.curQNBlockTile, rows);
      MulMono(rows, p.qSeqlen, p.curQNBlockTile);
    }
  }

  lemma HeadRange(ctx: Context, b: int, n1: int)
    requires ctx.Valid() && 0 <= b < ctx.batchSize && 0 <= n1 < GetBatchParams(ctx, b).curQNBlockNum
    ensures var p := GetBatchParams(ctx, b);
            var k := n1 / p.qNBlockNumPerGroup;
            && 0 <= k < ctx.numHeadsK
            && k * ctx.GroupSize() <= HeadStart(ctx, p, n1) < HeadEnd(ctx, p, n1) <= (k + 1) * ctx.GroupSize()
            && HeadEnd(ctx, p, n1) - HeadStart(ctx, p, n1) <= p.curQNBlockTile
  {
    var p := GetBatchParams(ctx, b);
    GroupIsPositive(ctx);
    var group, npg, tile := ctx.GroupSize(), p.qNBlockNumPerGroup, p.curQNBlockTile;
    assert npg == CeilDiv(group, tile) && p.curQNBlockNum == npg * ctx.numHeadsK;
    hide GetBatchParams;
    assert npg * ctx.numHeadsK == ctx.numHeadsK * npg;
    QuotientBelow(n1, npg, ctx.numHeadsK);
    CeilDivBounds(group, tile);
    var k, i := n1 / npg, n1 % npg;
    MulMono(0, i, tile);
    MulMono(i, npg - 1, tile);
    HeadRangeOffsets(group, k, i * tile, tile);
  }

  lemma HeadRangeOffsets(group: int, k: int, o: int, tile: int)
    requires 0 <= o < group && tile >= 1
    ensures k * group <= k * group + o < Min(k * group + o + tile, (k + 1) * group) <= (k + 1) * group
  {
    assert (k + 1) * group == k * group + group;
  }

  /** The rectangles follow each other: head blocks from head 0 to the last head, query blocks of 128
      rows from row 0 to the last row. A head block is shorter than its tile only at the end of a
      group. */
  lemma TilesFollow(ctx: Context, b: int, n1: int, s1: int)
    requires ctx.Valid() && 0 <= b < ctx.batchSize
    requires 0 <= n1 < GetBatchParams(ctx, b).curQNBlockNum && 0 <= s1 < GetBatchParams(ctx, b).curQSBlockNum
    ensures var p := GetBatchParams(ctx, b);
            && (n1 == 0 ==> HeadStart(ctx, p, n1) == 0)
            && (n1 + 1 < p.curQNBlockNum ==> HeadStart(ctx, p, n1 + 1) == HeadEnd(ctx, p, n1))
            && (n1 + 1 == p.curQNBlockNum ==> HeadEnd(ctx, p, n1) == ctx.GroupSize() * ctx.numHeadsK)
            && (HeadEnd(ctx, p, n1) - HeadStart(ctx, p, n1) == p.curQNBlockTile || HeadEnd(ctx, p, n1) % ctx.GroupSize() == 0)
    ensures var p := GetBatchParams(ctx, b);
            && (s1 == 0 ==> QStart(p, s1) == 0)
            && (s1 + 1 < p.curQSBlockNum ==> QEnd(p, s1) == QStart(p, s1) + 128 == QStart(p, s1 + 1))
            && (s1 + 1 == p.curQSBlockNum ==> QEnd(p, s1) == p.qSeqlen)
  {
    var p := GetBatchParams(ctx, b);
    GroupIsPositive(ctx);
    var group, npg, tile := ctx.GroupSize(), p.qNBlockNumPerGroup, p.curQNBlockTile;
    assert npg == CeilDiv(group, tile) && p.curQNBlockNum == npg * ctx.numHeadsK;
    hide *;
    QBlocksAre(ctx, b);
    QBlocksFollow(p, s1);
    HeadPlace(ctx, p, n1);
    HeadPlace(ctx, p, n1 + 1);
    GroupTiles(group, tile);
    NextPlace(n1, npg);
    if n1 + 1 == npg * ctx.numHeadsK { LastGroup(n1, npg, ctx.numHeadsK); }
    Adjacent(group, n1 / npg, n1 % npg, (n1 + 1) / npg, (n1 + 1) % npg, tile, npg);
    if n1 == 0 { FirstPlace(group, tile, npg); }
    Commute(group, ctx.numHeadsK);
    GroupEnds(PlaceEnd(group, n1 / npg, n1 % npg, tile), group, n1 / npg + 1);
  }

  /** Place i of group k, and where it ends. */
  function Place(group: int, k: int, i: int, tile: int): int { k * group + i * tile }

  function PlaceEnd(group: int, k: int, i: int, tile: int): int { Min(Place(group, k, i, tile) + tile, (k + 1) * group) }

  lemma HeadPlace(ctx: Context, p: BatchParams, n1: int)
    requires ctx.Valid() && p.qNBlockNumPerGroup >= 1
    ensures HeadStart(ctx, p, n1) == Place(ctx.GroupSize(), n1 / p.qNBlockNumPerGroup, n1 % p.qNBlockNumPerGroup, p.curQNBlockTile)
    ensures HeadEnd(ctx, p, n1) == PlaceEnd(ctx.GroupSize(), n1 / p.qNBlockNumPerGroup, n1 % p.qNBlockNumPerGroup, p.curQNBlockTile)
  {
  }

  lemma FirstPlace(group: int, tile: int, npg: int)
    requires npg >= 1
    ensures Place(group, 0 / npg, 0 % npg, tile) == 0
  {
  }

  lemma QBlocksAre(ctx: Context, b: int)
    requires ctx.Valid() && 0 <= b < ctx.batchSize
    ensures var p := GetBatchParams(ctx, b);
            p.curQSBlockTile == Q_TILE_CEIL && p.curQSBlockNum == CeilDiv(p.qSeqlen, Q_TILE_CEIL) && p.qSeqlen >= 0
  {
  }

  lemma QBlocksFollow(p: BatchParams, s1: int)
    requires p.curQSBlockTile == Q_TILE_CEIL && p.curQSBlockNum == CeilDiv(p.qSeqlen, Q_TILE_CEIL) && p.qSeqlen >= 0
    requires 0 <= s1 < p.curQSBlockNum
    ensures s1 == 0 ==> QStart(p, s1) == 0
    ensures s1 + 1 < p.curQSBlockNum ==> QEnd(p, s1) == QStart(p, s1) + 128 == QStart(p, s1 + 1)
    ensures s1 + 1 == p.curQSBlockNum ==> QEnd(p, s1) == p.qSeqlen
  {
  }

  lemma GroupEnds(h: int, group: int, k: int)
    requires group >= 1
    ensures h == k * group ==> h % group == 0
  {
    NextMultiple(k, group);
    if h == k * group { DivideBetween(h, group, k); }
  }

  lemma GroupTiles(group: int, tile: int)
    requires group >= 1 && tile >= 1
    ensures var npg := CeilDiv(group, tile); (npg - 1) * tile < group <= npg * tile
  {
    CeilDivBounds(group, tile);
  }

  /** A place ends where the next one starts, in its group or in the next. */
  lemma Adjacent(group: int, k: int, i: int, k': int, i': int, tile: int, npg: int)
    requires tile >= 1 && 0 <= i < npg && (npg - 1) * tile < group <= npg * tile
    requires (k' == k && i' == i + 1 && i < npg - 1) || (k' == k + 1 && i' == 0 && i == npg - 1)
    ensures var start, end := Place(group, k, i, tile), PlaceEnd(group, k, i, tile);
            end == Place(group, k', i', tile) && (i == npg - 1 ==> end == (k + 1) * group) && (end - start == tile || end == (k + 1) * group)
  {
    NextMultiple(k, group);
    NextMultiple(i, tile);
    MulMono(i + 1, if i == npg - 1 then npg else npg - 1, tile);
  }

  lemma NextPlace(n1: int, npg: int)
    requires npg >= 1 && 0 <= n1
    ensures n1 % npg == npg - 1 ==> (n1 + 1) / npg == n1 / npg + 1 && (n1 + 1) % npg == 0
    ensures n1 % npg < npg - 1 ==> (n1 + 1) / npg == n1 / npg && (n1 + 1) % npg == n1 % npg + 1
  {
    var k, i := n1 / npg, n1 % npg;
    assert n1 == k * npg + i;
    NextMultiple(k, npg);
    NextMultiple(k + 1, npg);
    DivideBetween(n1 + 1, npg, if i == npg - 1 then k + 1 else k);
  }

  lemma LastGroup(n1: int, npg: int, groups: int)
    requires npg >= 1 && 0 <= n1 && n1 + 1 == npg * groups
    ensures n1 / npg + 1 == groups && n1 % npg == npg - 1
  {
    NextMultiple(groups - 1, npg);
    DivideBetween(n1, npg, groups - 1);
  }
}
